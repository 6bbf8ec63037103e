/** `app/events/invoice.py` and the codec half of the outbox of the test run. */
module Events {
  import opened Prelude
  import opened Codec

  datatype Event =
    | InvoiceIssued(invoiceId: Uuid, customerId: Uuid, issuedAt: int, total: int, currency: string)
    | InvoicePaid(invoiceId: Uuid, customerId: Uuid, paidAt: int, total: int, currency: string)

  type Payload = map<string, string>

  const ISSUED := "invoice.issued"
  const PAID := "invoice.paid"

  function EventType(e: Event): string { if e.InvoiceIssued? then ISSUED else PAID }

  /** The one key on which the two payloads differ. */
  function StampKey(eventType: string): string {
    if eventType == ISSUED then "issued_at" else "paid_at"
  }

  function Stamp(e: Event): int { if e.InvoiceIssued? then e.issuedAt else e.paidAt }

  function ToPayload(e: Event): Payload {
    map[
      "invoice_id" := UuidText(e.invoiceId),
      "customer_id" := UuidText(e.customerId),
      StampKey(EventType(e)) := TimeText(Stamp(e)),
      "total" := DecimalText(e.total),
      "currency" := e.currency
    ]
  }

  datatype DecodeError = UnknownEventType | MissingKey | BadValue

  /** `_event_from_entry`: look the class up by name, then `from_payload`. */
  function FromEntry(eventType: string, p: Payload): Result<Event, DecodeError> {
    if eventType != ISSUED && eventType != PAID then Err(UnknownEventType)
    else if !({"invoice_id", "customer_id", StampKey(eventType), "total", "currency"} <= p.Keys) then Err(MissingKey)
    else match (ParseUuid(p["invoice_id"]), ParseUuid(p["customer_id"]),
                ParseTime(p[StampKey(eventType)]), ParseDecimal(p["total"]))
      case (Some(i), Some(c), Some(t), Some(total)) =>
        Ok(if eventType == ISSUED then InvoiceIssued(i, c, t, total, p["currency"])
           else InvoicePaid(i, c, t, total, p["currency"]))
      case _ => Err(BadValue)
  }

  /** Writing an event to the outbox and reading it back gives an equal event of the same class. */
  lemma PayloadRoundTrip(e: Event)
    ensures FromEntry(EventType(e), ToPayload(e)) == Ok(e)
  {
    UuidRoundTrip(e.invoiceId);
    UuidRoundTrip(e.customerId);
    TimeRoundTrip(Stamp(e));
    DecimalRoundTrip(e.total);
    hide UuidText, ParseUuid, TimeText, ParseTime, DecimalText, ParseDecimal;
  }

  /** The payload as it stands in the outbox: five texts under these names. */
  lemma PayloadShape(e: Event)
    ensures var p := ToPayload(e);
            && p.Keys == {"invoice_id", "customer_id", if e.InvoiceIssued? then "issued_at" else "paid_at", "total", "currency"}
            && p["invoice_id"] == UuidText(e.invoiceId) && p["customer_id"] == UuidText(e.customerId)
            && p["total"] == DecimalText(e.total) && p["currency"] == e.currency
    ensures EventType(e) == if e.InvoiceIssued? then "invoice.issued" else "invoice.paid"
  {
    DistinctNames();
    hide UuidText, DecimalText, TimeText;
  }

  lemma DistinctNames()
    ensures var stamp, paid := "issued_at", "paid_at";
            && "invoice_id" != "customer_id" && "invoice_id" != stamp && "invoice_id" != paid && "invoice_id" != "total"
            && "invoice_id" != "currency" && "customer_id" != stamp && "customer_id" != paid && "customer_id" != "total"
            && "customer_id" != "currency" && stamp != "total" && stamp != "currency" && paid != "total" && paid != "currency"
            && "total" != "currency"
    ensures "invoice.issued" != "invoice.paid"
  {
    assert "invoice_id"[0] != "customer_id"[0] && "invoice_id"[1] != "issued_at"[1] && "invoice_id"[0] != "paid_at"[0];
    assert "invoice_id"[0] != "total"[0] && "invoice_id"[0] != "currency"[0];
    assert "customer_id"[0] != "issued_at"[0] && "customer_id"[0] != "paid_at"[0] && "customer_id"[0] != "total"[0];
    assert "customer_id"[2] != "currency"[2] && "issued_at"[0] != "total"[0] && "issued_at"[0] != "currency"[0];
    assert "paid_at"[0] != "total"[0] && "paid_at"[0] != "currency"[0] && "total"[0] != "currency"[0];
    assert "invoice.issued"[8] != "invoice.paid"[8];
  }

  /** Whatever decodes has the class its row names, and no other event type decodes. */
  lemma DecodedClass(eventType: string, p: Payload)
    ensures FromEntry(eventType, p).Ok? ==> EventType(FromEntry(eventType, p).value) == eventType
    ensures FromEntry(eventType, p) == Err(UnknownEventType) <==> eventType !in {ISSUED, PAID}
  {
  }

  /** Exactly which rows decode, and which of the others lack a name. */
  lemma DecodesIff(eventType: string, p: Payload)
    ensures var known := eventType in {ISSUED, PAID};
            var named := {"invoice_id", "customer_id", StampKey(eventType), "total", "currency"} <= p.Keys;
            && (FromEntry(eventType, p).Ok? <==>
                  && known && named
                  && ParseUuid(p["invoice_id"]).Some? && ParseUuid(p["customer_id"]).Some?
                  && ParseTime(p[StampKey(eventType)]).Some? && ParseDecimal(p["total"]).Some?)
            && (FromEntry(eventType, p) == Err(MissingKey) <==> known && !named)
  {
    hide ParseUuid, ParseTime, ParseDecimal;
  }

  /** The key each email handler sends with. */
  function EmailKey(eventType: string, invoiceId: Uuid): string {
    (if eventType == ISSUED then "invoice-issued:" else "invoice-paid:") + UuidText(invoiceId)
  }

  /** Two deliveries share an email key exactly when they are the same kind for the same invoice. */
  lemma EmailKeyInjective(t: string, i: Uuid, u: string, j: Uuid)
    requires t in {ISSUED, PAID} && u in {ISSUED, PAID}
    ensures EmailKey(t, i) == EmailKey(u, j) <==> t == u && i == j
  {
    UuidRoundTrip(i);
    UuidRoundTrip(j);
    var k, l := EmailKey(t, i), EmailKey(u, j);
    assert k[8] == (if t == ISSUED then 'i' else 'p');
    assert l[8] == (if u == ISSUED then 'i' else 'p');
    var n := if t == ISSUED then 15 else 13;
    assert k[n..] == UuidText(i);
    if t == u {
      assert l[n..] == UuidText(j);
    }
  }
}
