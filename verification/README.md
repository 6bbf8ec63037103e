# Outbox, billing and order models of the Python skills repository

This project models four connected parts of the repository in Dafny and proves
what they promise over every input and every run.

* **Outbox delivery** (`OutboxModel`, `OutboxProtocol`, `OutboxLiveness`, `OutboxDispatcher`, `MessageBus`).
  The reference outbox of the message-bus skill: rows written by business
  transactions, any number of workers claiming them under `FOR UPDATE SKIP
  LOCKED`, publishing to all handlers, committing a success or a failure with
  back-off. The protocol is a step system (`Insert`, `Claim`, `Publish`,
  `Commit`, `Crash`, `Tick`); a run is a list of enabled steps, so workers
  interleave freely and crash between any two steps. The dispatcher loop is a
  method over entry objects and is proved to be a run of the protocol, with
  arbitrary interference between its transactions.
* **Billing of the test run** (`InvoiceModel`, `PaymentClient`, `Events`, `Codec`, `InvoiceOutbox`, `Billing*`).
  Invoices, the three-phase `collect_payment`, its bounded retries, the outbox
  rows it writes, overlapping dispatcher passes and the email handlers, again
  as one step system with crashes; every HTTP request to the payment provider is
  a step of its own. `BillingService` has the service as a class whose methods load
  entities, change them and write them back.
* **Half-up arithmetic** (`HalfUp`, `MoneyValue`). Two services that round the
  same invoice at different points, and the truncation of the `Money` value object.
* **Orders** (`OrderModel`, `OrderRepo`, `OrderDomain`). An aggregate whose
  query computes totals in SQL, and a pure-domain order with an event log and mappers.

`ControlService` and `Control*` model the second billing service as a step system
with overlapping requests for lines, issues and payments. `InvoiceMachine` and
`Refinement` carry the stated domain rules as an abstract machine and show that both
services implement it; `ProviderAnswers` says which answers of the payment provider
they read alike.

Assumptions, in one place:

* In the test run every `async with session.begin()` block is atomic and reads committed
  state, with these exceptions, which are split into separate steps on purpose: the
  lookup and the flush of `collect_payment`; the read, every
  delivery and the commit of a dispatcher pass. A last block of `collect_payment` may also see
  the `ISSUED` status its session loaded in the first block instead of the
  committed one (loaded objects outlive a commit, `evals/run 1/test/app/db/__init__.py:29`);
  the payment theorems say exactly what then still holds.
* Between two requests of a retried provider call anything may happen. The provider may
  act on a request while it answers, at any later time, or never; it charges a key once,
  and reports success only for a key it has charged.
* The control service has no such blocks. Each request loads what it checks in one step
  and writes at a later `commit()` in another: a line (`evals/run 1/control/app/services.py:76`
  and `:92`), an issue (`:96` and `:137`, the awaited email in between), and a payment
  (`:146`, its attempt at `:173`, its outcome at `:192` or `:219`). Loading invoice and
  attempt is one step because attempts are never removed.
* After a lost race the control service rolls back and reads `invoice.status` (`:179`) from
  an object the rollback has expired. The replay is assumed to be clean; whether that read
  may load again under the asynchronous driver is not modelled.
* Clocks are one monotone model clock in microseconds; ties and late commits
  with an earlier stamp are allowed. UUIDs that a program draws itself are the
  positions of rows in their table.
* Provider answers, handler results, the provider having acted on a lost
  request, and crashes are chosen freely by the run.
* Amounts are exact scaled integers without an upper bound.
* Upper-casing an upper-cased character changes nothing; this is all the `Money`
  results assume of the character tables (`MoneyValue.UpperIsFinal`).

Where code and documentation disagree the code is followed: the outbox skill
says a failure adds `2**attempts` to `available_at`
(`skills/python-message-bus-outbox/SKILL.md:287`), the reference code sets it to
the current time plus that delay.

Properties that turned out to be conditional, with their exact conditions:

* An invoice of the test run is paid at most once in a run if and only if no last
  block marks a paid invoice on a stale `ISSUED` (`BillingTheorems.PaymentSafety`);
  a run with two payments is `BillingWitness.StaleSessionPaysTwice`. Requests that
  do not overlap never do so, and two that wait with a success always can
  (`BillingOverlap.NoOverlapNeverCollides`, `BillingOverlap.OverlapCanCollide`).
* A succeeded attempt was charged for its own invoice if and only if nothing was
  charged under its key for another invoice just before the request that brought the
  success (`BillingCharges.PaidWasCharged`); a run in which it was not is
  `BillingWitness.SharedKeyPaysForAnother`, and one in which the first request of the
  call still went out under a free key is `BillingWitness.RetryMeetsForeignCharge`.
* The batch dispatcher reaches a row if and only if fewer than a batch of
  permanently failing rows are older, ties with such rows aside
  (`InvoiceOutbox.RowProcessedIffNotBlocked`).
* Every PAID invoice of the control service has one succeeded attempt and no other
  invoice has any, if and only if no success is stored for an invoice already PAID and no
  issue is committed on one (`ControlTheorems.PaidOnceIff`): the service looks at the
  status before it awaits and not when it writes. Runs in which each half fails alone are
  `ControlWitness.OverlapPaysTwice` and `ControlWitness.LateIssuePaysTwice`.
* Each issued invoice there has one InvoiceIssued event if and only if no issue is
  committed on an issued one (`ControlTheorems.IssuedOnceIff`), and every attempt and
  event states the invoice's total if and only if no commit overtakes another
  (`ControlTheorems.AmountsRightIff`, `ControlWitness.LateLineChangesTotal`). If requests
  for one invoice do not overlap, all of this holds (`ControlTheorems.NoOverlapIsSafe`).
* The two services settle an attempt alike on the same answer of the provider unless it is a
  client error or a 2xx body that only the response schema refuses
  (`ProviderAnswers.SameAnswerIff`).
* A constructed `Money` can be used if and only if its upper-cased currency still
  has three letters (`MoneyValue.MadeIsValidIff`, `MoneyValue.SharpSIsStuck`).
* A placed pure-domain order announces itself if and only if its lines share a
  currency (`OrderDomain.AnnouncedIff`): the status is set before the total raises.
* Saving and loading an order goes unnoticed if and only if its events were drained
  (`OrderDomain.SaveLoadUnnoticedIff`).
* The SQL totals query is the plain filter on every database if and only if placed orders
  have lines (`OrderRepo.AlwaysAgreesIff`), which the aggregate guarantees.

## Model

| member | source | states |
|---|---|---|
| OutboxModel.OutboxEntry.FromEvent | skills/python-message-bus-outbox/references/outbox.md:50-61 | a new row carries its type and payload, is unprocessed, never attempted and available at once |
| OutboxModel.OutboxEntry.MarkProcessed | skills/python-message-bus-outbox/references/outbox.md:69-71 | whole new row: processed now, error cleared, nothing else changes |
| OutboxModel.OutboxEntry.RecordFailure | skills/python-message-bus-outbox/references/outbox.md:73-76 | whole new row: one more attempt, the error kept, available after the back-off of the new count |
| OutboxModel.CapNeverBinds | skills/python-message-bus-outbox/references/outbox.md:28 | the 3600 s cap never shortens the back-off of a row that can still fail |
| OutboxProtocol.InvHolds | skills/python-message-bus-outbox/references/outbox.md:98-149 | every run keeps: a lock belongs to the one worker in delivery of that pending row, whose result is the processed or the failed form of the stored row |
| OutboxProtocol.OneWorkerPerRow | skills/python-message-bus-outbox/references/outbox.md:98-110 | no row is in delivery by two workers, and rows in delivery are pending |
| OutboxProtocol.FinishedForGood | skills/python-message-bus-outbox/references/outbox.md:98-110 | a processed or dead row never changes again and can never be claimed again |
| OutboxProtocol.ContentStays | skills/python-message-bus-outbox/references/outbox.md:69-76 | along every run a row keeps its type, payload and creation time; only its bookkeeping changes |
| OutboxProtocol.Accounting | skills/python-message-bus-outbox/references/outbox.md:129-149 | deliveries of a row = attempts + 1 if processed + deliveries lost to crashes + 1 if delivered and uncommitted; committed deliveries never exceed MAX_ATTEMPTS; each delivery is one publish if the row decodes, and none reaches the bus if it does not |
| OutboxProtocol.ProcessedWasDelivered | skills/python-message-bus-outbox/SKILL.md:203-214 | a processed row had one publish in which every handler ran and succeeded |
| OutboxProtocol.ProcessedIffCommittedGood | skills/python-message-bus-outbox/references/outbox.md:139-147 | over every run a row is processed if and only if a delivery in which every handler ran and succeeded was committed, once at most, and its attempts count the committed deliveries in which something was raised |
| OutboxProtocol.GoodAccounting | skills/python-message-bus-outbox/references/outbox.md:139-147 | deliveries of a row in which every handler succeeded = 1 if one was committed + those lost to crashes + 1 if one is open |
| OutboxProtocol.DeliveredIsProcessed | skills/python-message-bus-outbox/references/outbox.md:142-147 | the converse of ProcessedWasDelivered: a row delivered to all its handlers is processed, or that delivery is still open or was lost to a crash |
| OutboxProtocol.NextExists | skills/python-message-bus-outbox/references/outbox.md:98-110 | whenever some row passes the claim filter, the ordered claim finds one |
| OutboxProtocol.NoLoss | skills/python-message-bus-outbox/references/outbox.md:98-149 | when nothing is or can become claimable, every inserted row is processed and delivered to all handlers, or dead with exactly MAX_ATTEMPTS failures |
| OutboxLiveness.StepSpendsWork | skills/python-message-bus-outbox/references/outbox.md:129-149 | the remaining attempts over unprocessed rows strictly drop at every committed delivery, and only inserts add to them |
| OutboxLiveness.DrainTerminates | skills/python-message-bus-outbox/references/outbox.md:129-149 | in any run commits are at most MAX_ATTEMPTS per inserted row, and delivery steps are bounded by inserts and crashes |
| OutboxLiveness.Drains | skills/python-message-bus-outbox/references/outbox.md:129-149 | from every reachable state, and for every decision of each handler in each delivery of each row, some schedule without inserts and crashes drains the table |
| OutboxLiveness.NoStarvation | skills/python-message-bus-outbox/references/outbox.md:73-76 | a due, free row is claimed within as many claims as there were rows ahead of it, plus one per crash and per late-committed older row, because a failure pushes a row past the present |
| OutboxLiveness.FailureHistory | skills/python-message-bus-outbox/references/outbox.md:73-76 | the recorded failures of a row, their spacing, its counter and its next time agree in every run |
| OutboxLiveness.BackOffSpacing | skills/python-message-bus-outbox/references/outbox.md:73-76 | the k-th committed failure comes at least 2^k - 2 seconds after the first, across workers and crashes |
| OutboxLiveness.DeathTakesTime | skills/python-message-bus-outbox/references/outbox.md:28 | a row is given up no sooner than 1022 s after its first failure |
| OutboxDispatcher.Deliver | skills/python-message-bus-outbox/references/outbox.md:141-147 | field by field: if the event class is known, the payload accepted and every handler returns, the entry is processed now, without error and with its attempts as they were; otherwise it stays unprocessed with one more attempt, the back-off, and exactly the unknown type, the rejected payload or the failed handlers as its error |
| OutboxDispatcher.OthersKeepOwnRow | skills/python-message-bus-outbox/references/outbox.md:98-110 | no step of anybody else touches the row a worker has claimed |
| OutboxDispatcher.Outbox.DispatchRow | skills/python-message-bus-outbox/references/outbox.md:137-147 | one transaction with interference inside it is a run of the protocol that commits one delivery, and leaves the row processed exactly when it decodes and every handler returned |
| OutboxDispatcher.Outbox.DispatchOutbox | skills/python-message-bus-outbox/references/outbox.md:129-149 | the call is a run of the protocol in which this worker commits exactly the returned number, at most batch_size, and stops early only when nothing is claimable |
| MessageBus.Bus.Subscribe | skills/python-message-bus-outbox/SKILL.md:200-201 | appends the handler for its type and leaves every other type alone |
| MessageBus.Bus.Publish | skills/python-message-bus-outbox/SKILL.md:203-214 | every handler of the type is called in order even after failures; the failures are collected |
| MessageBus.FailuresExact | skills/python-message-bus-outbox/SKILL.md:207-214 | the collected failures are exactly the failed handlers, in order |
| MessageBus.NoFailures | skills/python-message-bus-outbox/SKILL.md:213-214 | nothing is raised if and only if every handler succeeded |
| InvoiceModel.InvoiceEntity.AddLine | evals/run 1/test/app/models/invoice.py:163-181 | new state, or the exception (not draft first, then an invalid line) with nothing changed |
| InvoiceModel.InvoiceEntity.Issue | evals/run 1/test/app/models/invoice.py:183-189 | new state, or the exception (not draft, empty) with nothing changed |
| InvoiceModel.InvoiceEntity.StartPaymentAttempt | evals/run 1/test/app/models/invoice.py:191-206 | a fresh pending attempt for the current total, appended to the invoice's attempts; or the exception that paid or unissued invoices raise, with nothing changed |
| InvoiceModel.InvoiceEntity.MarkPaid | evals/run 1/test/app/models/invoice.py:208-212 | checks PAID only, then sets status and time |
| InvoiceModel.PaymentAttempt.Succeed | evals/run 1/test/app/models/invoice.py:319-323 | whole new attempt, from any status |
| InvoiceModel.PaymentAttempt.Fail | evals/run 1/test/app/models/invoice.py:325-328 | whole new attempt, from any status |
| PaymentClient.MaxSends | evals/run 1/test/app/clients/base.py:52-53 | a retry policy always sends at least once |
| PaymentClient.Send | evals/run 1/test/app/clients/base.py:48-60 | at most max(1, MAX_RETRIES) sends, all with the same request; every response but the last is retryable, and a retryable last one means the sends are used up |
| PaymentClient.ProviderErrorIff | evals/run 1/test/app/clients/payment.py:71-80 | exactly which exchanges end in the one exception that fails the attempt |
| Codec.UuidRoundTrip | evals/run 1/test/app/events/invoice.py:41-58 | text and back is the identity on UUIDs |
| Codec.ParsesIff | evals/run 1/test/app/events/invoice.py:41-58 | exactly the texts that are, hyphens aside, 32 hexadecimal digits of either case are read as UUIDs |
| Codec.UuidTextShape | evals/run 1/test/app/events/invoice.py:41-58 | the canonical text: 36 characters, hyphens at 8, 13, 18 and 23, lower-case digits in order |
| Codec.DecimalRoundTrip | evals/run 1/test/app/events/invoice.py:41-58 | text and back is the identity on two-place decimals of either sign |
| Codec.DecimalTextShape | evals/run 1/test/app/events/invoice.py:41-58 | a sign only below zero, no leading zero, a point and two digits |
| Events.PayloadRoundTrip | evals/run 1/test/app/events/invoice.py:41-58 | an event written to an outbox entry and decoded by its type is equal and of the same class |
| Events.PayloadShape | evals/run 1/test/app/events/invoice.py:41-58 | the five names of a payload and what stands under them, and the two type names |
| Events.DecodedClass | evals/run 1/test/app/outbox/dispatcher.py:14-24 | what decodes has the class its row names; exactly the unregistered types are unknown |
| Events.DecodesIff | evals/run 1/test/app/outbox/dispatcher.py:14-24 | exactly which rows decode, and which of the others lack a name |
| Events.EmailKeyInjective | evals/run 1/test/app/handlers/email_on_invoice_issued.py:18-24 | two email keys are equal exactly for the same kind of event on the same invoice |
| InvoiceOutbox.OutboxEntry.MarkProcessed | evals/run 1/test/app/outbox/model.py:32-34 | whole new entry |
| InvoiceOutbox.OutboxEntry.MarkFailed | evals/run 1/test/app/outbox/model.py:36-38 | whole new entry; nothing delays or ends its retries |
| InvoiceOutbox.BatchSize | evals/run 1/test/app/outbox/repo.py:16-24 | a batch holds exactly min(unprocessed rows, limit) rows |
| InvoiceOutbox.PassExact | evals/run 1/test/app/outbox/dispatcher.py:33-44 | a pass settles each selected row by its own delivery and touches no other row |
| InvoiceOutbox.DispatchEntries | evals/run 1/test/app/outbox/dispatcher.py:36-44 | the loop settles every loaded entry once, field by field: processed now without error exactly if it decodes and its handler returns, otherwise unprocessed with one more attempt and what was raised |
| InvoiceOutbox.Outbox.AddEvent | evals/run 1/test/app/outbox/repo.py:12-14 | appends the entry of the event |
| InvoiceOutbox.Outbox.DispatchOnce | evals/run 1/test/app/outbox/dispatcher.py:33-44 | every selected row is settled like that, every other row stays; returns how many there were, min(unprocessed, batch_size) |
| InvoiceOutbox.PassProgress | evals/run 1/test/app/outbox/dispatcher.py:33-44 | a pass clears the old good rows or processes at least batch_size - k of them, k old rows failing permanently |
| InvoiceOutbox.BacklogDrains | evals/run 1/test/app/outbox/dispatcher.py:33-44 | m good rows are processed once passes * (batch_size - k) reaches m, however many younger rows arrive |
| InvoiceOutbox.Blocked | evals/run 1/test/app/outbox/repo.py:16-24 | batch_size permanently failing older rows leave every younger row untouched for ever |
| InvoiceOutbox.RowProcessedOrBlocked | evals/run 1/test/app/outbox/repo.py:16-24 | given enough passes a good row is processed if fewer than batch_size permanently failing rows are as old or older, and untouched if batch_size are older |
| InvoiceOutbox.RowProcessedIffNotBlocked | evals/run 1/test/app/outbox/repo.py:16-24 | an if and only if, unless a permanently failing row has the very same creation time, where the database may choose |
| InvoiceOutbox.CallsArePasses | evals/run 1/test/app/outbox/dispatcher.py:33-44 | the passes of the bounds above are the calls of dispatch_once, the poisoned rows those that do not decode or whose handler raises |
| InvoiceOutbox.DispatchedIffNotBlocked | evals/run 1/test/app/outbox/repo.py:16-24 | so for dispatch_once itself: given enough calls a row that decodes and whose handler returns is processed if and only if fewer than batch_size rows that fail are older, ties of creation time with such rows aside |
| BillingSettling.InvHolds | evals/run 1/test/app/services/billing.py:43-117 | the joint invariant of invoices, attempts, requests, charges, outbox, passes and emails holds in every run |
| BillingTheorems.PaymentSafety | evals/run 1/test/app/services/billing.py:107-115 | whatever status the last blocks see, blocks being atomic otherwise: InvoicePaid rows = succeeded attempts, PAID iff there is one, and never more than one iff no last block marked a paid invoice on a stale status |
| BillingTheorems.PaidExactlyOnce | evals/run 1/test/app/services/billing.py:81-115 | when last blocks read committed state: PAID iff exactly one attempt succeeded iff exactly one InvoicePaid row exists |
| BillingOverlap.NoOverlapNeverCollides | evals/run 1/test/app/services/billing.py:76-117 | if requests for one invoice never overlap between lookup and last block, no stale status is ever acted on |
| BillingOverlap.OverlapCanCollide | evals/run 1/test/app/services/billing.py:107-113 | and that is needed: two open requests of an invoice with successful calls can always both pay it |
| BillingOverlap.OrphanForGood | evals/run 1/test/app/services/billing.py:76-117 | an attempt whose request has ended or crashed never changes again, in any continuation |
| BillingOverlap.KnownPairAnswers | evals/run 1/test/app/services/billing.py:83-88 | a request for a pair that has an attempt changes nothing |
| BillingOverlap.LoserRollsBack | evals/run 1/test/app/services/billing.py:107-113 | a request that finds the invoice paid after its own successful call changes no invoice, attempt or row, and in every continuation its attempt is PENDING although its key was charged |
| BillingTheorems.OneExchange | evals/run 1/test/app/clients/base.py:48-60 | over any run with crashes the requests sent for one attempt are the whole or the beginning of one retried call: all responses but the last retryable, at most max(1, MAX_RETRIES) of them, and a request that is over has the last one's outcome |
| BillingTheorems.CallsBounded | evals/run 1/test/app/services/billing.py:81-100 | at most one logical provider call per attempt over any run with crashes, and exactly one if anything was sent for it |
| BillingTheorems.SettledAsAnswered | evals/run 1/test/app/clients/payment.py:71-83 | over every run an attempt that has left PENDING was settled as the last response of its one complete call says: status, payment id and failure message, read off the HTTP status and body |
| BillingTheorems.IdempotentCollection | evals/run 1/test/app/models/invoice.py:267-273 | one attempt per (invoice, key), one call per attempt, at most max(1, MAX_RETRIES) sends per pair, all for the invoice's total, at most one charge per key and each charge from a send |
| BillingCharges.PaidWasCharged | evals/run 1/test/app/clients/payment.py:59-70 | a succeeded attempt was charged; and for its own invoice, amount and currency if and only if nothing was charged under its key for another invoice just before the request that brought the success |
| BillingCharges.OwnKeyCharged | evals/run 1/test/app/clients/payment.py:59-70 | with a key no other invoice uses, it was charged for itself |
| BillingTheorems.FrozenInvoice | evals/run 1/test/app/models/invoice.py:163-212 | every attempt and every stored event carries the total and currency the invoice has now |
| BillingTheorems.NothingReopens | evals/run 1/test/app/models/invoice.py:163-212 | along a run statuses only advance, issued invoices keep their lines and settled attempts keep everything |
| BillingTheorems.PaidWasIssued | evals/run 1/test/app/models/invoice.py:208-212 | a paid invoice was ISSUED earlier in the run, with the same lines, although mark_paid does not check it |
| BillingTheorems.LeavesPendingOnce | evals/run 1/test/app/models/invoice.py:319-328 | an attempt changes status at most once, although succeed and fail have no guard |
| BillingTheorems.IssuedOnceAndFirst | evals/run 1/test/app/services/billing.py:69-74 | an issued invoice has exactly one InvoiceIssued row, and it precedes every InvoicePaid row |
| BillingTheorems.OneEmailPerFact | evals/run 1/test/app/outbox/dispatcher.py:33-44 | at most one email of the kind "issued" and one of the kind "paid" about an invoice and only if it is so; exactly those when no unprocessed row remains |
| BillingTheorems.EmailsTellTheTruth | evals/run 1/test/app/handlers/email_on_invoice_issued.py:18-24 | every email goes to the invoice's customer and states the invoice's total and currency; it is of one of the two kinds, its key names kind and invoice, and the invoice has been issued, or is PAID, as the kind says |
| BillingDelivery.EveryFactIsMailed | evals/run 1/test/app/outbox/dispatcher.py:33-44 | from every reachable state some undisturbed dispatcher passes, n rows at batch_size each, leave exactly one "issued" email for each issued and one "paid" email for each paid invoice |
| BillingDelivery.UndisturbedPass | evals/run 1/test/app/outbox/dispatcher.py:33-44 | the read, the deliveries and the commit of a pass that nothing disturbs, whatever each handler answers, leave the table as one call of dispatch_once does |
| BillingDelivery.BatchExists | evals/run 1/test/app/outbox/repo.py:16-24 | the ordered selection has an answer on every table |
| BillingWitness.StaleSessionPaysTwice | evals/run 1/test/app/services/billing.py:107-113 | a concrete reachable run in which a stale session pays an invoice twice |
| BillingWitness.SharedKeyPaysForAnother | evals/run 1/test/app/clients/payment.py:63-63 | a concrete reachable run in which an attempt succeeds on a charge for another invoice |
| BillingWitness.RetryMeetsForeignCharge | evals/run 1/test/app/clients/base.py:51-60 | a concrete reachable run in which the first request of a call goes out under a free key and is lost, and its repetition is answered from another invoice's charge |
| BillingService.OthersKeepOwnAttempt | evals/run 1/test/app/services/billing.py:76-117 | no step of anybody else touches the attempt a request is working on |
| BillingService.BillingService.LoadInvoice | evals/run 1/test/app/repos/invoice.py:21-32 | a new object with the invoice's columns and lines and one object for each of its attempts, in order |
| BillingService.BillingService.AddInvoiceLine | evals/run 1/test/app/services/billing.py:50-59 | the step of the system: the line becomes the last of the draft, or InvoiceNotDraft or InvalidLine is raised with nothing changed |
| BillingService.BillingService.IssueInvoice | evals/run 1/test/app/services/billing.py:69-74 | the step of the system: the draft is ISSUED now and one unprocessed row that decodes to its InvoiceIssued is appended, or InvoiceNotDraft or EmptyInvoice is raised with nothing changed |
| BillingService.BillingService.LookUp | evals/run 1/test/app/services/billing.py:81-90 | known key answered; AlreadyPaid on a paid and PaymentNotAllowed on a draft invoice; otherwise a PENDING attempt for the total is built and nothing stored |
| BillingService.BillingService.Flush | evals/run 1/test/app/repos/invoice.py:38-43 | inserts the attempt as the last row, or meets the unique constraint with the attempts unchanged |
| BillingService.BillingService.SendOnce | evals/run 1/test/app/clients/base.py:62-65 | one request is exactly one step of the system; the call is over when the retry rule stops |
| BillingService.BillingService.CallProvider | evals/run 1/test/app/services/billing.py:93-100 | the retried call with interference before each of its requests is a run of the system: a bounded exchange with the given responses, whose last one decides the outcome, the attempt unchanged |
| BillingService.BillingService.SettleRequest | evals/run 1/test/app/services/billing.py:101-115 | the last block is the step of the system, and leaves the attempt field by field as the outcome says, for both invoice objects the session may hand out: the committed one and the ISSUED one of the first block |
| BillingService.BillingService.StorePayment | evals/run 1/test/app/services/billing.py:107-113 | a success: attempt SUCCEEDED with the payment id, invoice PAID now and one unprocessed row that decodes to its InvoicePaid, or all of it discarded when mark_paid raises |
| BillingService.BillingService.CollectPayment | evals/run 1/test/app/services/billing.py:76-117 | a whole request under interference, also between the requests of its provider call, with or without a cached invoice, is a run of the system; a known key, each refusal and a lost race end exactly as stated, and a new attempt and the reply are what the last of the bounded answers says, read off its HTTP status and body |
| HalfUp.Round | evals/run 1/test/app/models/invoice.py:85-86 | within half a unit, ties away from zero |
| HalfUp.RoundUnique | evals/run 1/control/app/totals.py:9-10 | the rounded value is the only integer in that band |
| HalfUp.TotalsAreHalfUp | evals/run 1/control/app/totals.py:13-23 | for all valid lines, fractional quantities included, the shown subtotal, tax and total are the exact sums rounded half up, and no other integers are |
| HalfUp.ShownLineIsHalfUp | evals/run 1/control/app/totals.py:26-39 | a shown line total is the line's amount and its tax, each rounded half up |
| HalfUp.HalfACentGoesUp | evals/run 1/control/app/totals.py:13-23 | the boundary case: 1.5 pieces at 0.99 show 1.49 as subtotal and as total |
| HalfUp.LineTaxIsHalfUp | evals/run 1/test/app/models/invoice.py:256-262 | the test service's tax of a line is its exact tax rounded half up |
| HalfUp.SumsOfLines | evals/run 1/test/app/models/invoice.py:142-148 | its subtotal and tax gain exactly the price and the rounded tax of each line added |
| HalfUp.PerLineTotal | evals/run 1/test/app/models/invoice.py:142-152 | total = subtotal + tax exactly, and subtotal <= total <= 2 * subtotal |
| HalfUp.SubtotalPlusTaxDrift | evals/run 1/control/app/totals.py:13-23 | shown subtotal plus shown tax is within one cent of the shown total |
| HalfUp.LineTotalsDrift | evals/run 1/control/app/totals.py:26-40 | n shown line totals add up to within n cents of the shown total |
| HalfUp.LineTotalsDriftTight | evals/run 1/control/app/totals.py:26-40 | that bound is reached for every n |
| HalfUp.ServicesDiffer | evals/run 1/control/app/totals.py:13-23 | on the same n lines both services agree on the subtotal and differ in tax and total by at most floor(n/2) cents |
| HalfUp.ServicesDifferTight | evals/run 1/test/app/models/invoice.py:256-262 | that bound is reached for every n |
| MoneyValue.MadeIsValidIff | skills/python-value-objects/examples/money.py:25-29 | a constructed value has an upper-case currency, and can be operated on if and only if the upper-cased text still has three letters |
| MoneyValue.InvalidIsStuck | skills/python-value-objects/examples/money.py:58-70 | every operation, multiplication included, raises on any other constructed value |
| MoneyValue.MulIsSum | skills/python-value-objects/examples/money.py:66-67 | multiplying by n is adding n times, by -n the negative of that, by 0 nothing; any factor distributes over a sum that works |
| MoneyValue.SharpSIsStuck | skills/python-value-objects/examples/money.py:25-29 | the input that shows it: a sharp s and two more letters are accepted and stored as four |
| MoneyValue.AddSub | skills/python-value-objects/examples/money.py:58-64 | addition works exactly on equal currencies of usable values, and subtraction undoes it |
| MoneyValue.CentsRoundTrip | skills/python-value-objects/examples/money.py:35-37 | to_cents gives back the cents of from_cents |
| MoneyValue.ToCentsCuts | skills/python-value-objects/examples/money.py:48-49 | to_cents cuts what is below a cent, towards zero for either sign |
| MoneyValue.CentsOfNegation | skills/python-value-objects/examples/money.py:69-70 | negation works exactly on usable values, adds up to zero with its value, and commutes with to_cents |
| MoneyValue.TruncationDrift | skills/python-value-objects/examples/money.py:48-49 | for every n constructed values: exactly when they add up, and then to_cents of the sum is within n - 1 of the sum of their cents, and never below it for non-negative amounts |
| MoneyValue.DriftTight | skills/python-value-objects/examples/money.py:48-49 | the drift n - 1 is reached |
| OrderModel.OrderEntity.AddLine | skills/python-aggregate-and-repo/examples/order_model.py:66-76 | a draft gains the line as its last, anything else raises with nothing changed |
| OrderModel.OrderEntity.Place | skills/python-aggregate-and-repo/examples/order_model.py:78-86 | a draft with lines is PLACED now, otherwise the exception (not draft, empty) with nothing changed |
| OrderModel.OrderEntity.Cancel | skills/python-aggregate-and-repo/examples/order_model.py:88-94 | from any status CANCELLED now for the reason; cancelling again changes nothing |
| OrderModel.TotalPermutes | skills/python-aggregate-and-repo/examples/order_model.py:58-60 | the total does not depend on the order in which lines are loaded |
| OrderRepo.FlushGet | skills/python-aggregate-and-repo/examples/order_repo.py:36-42 | what is flushed is what is loaded next, and every other order loads as before |
| OrderRepo.InsertGet | skills/python-aggregate-and-repo/examples/order_repo.py:29-34 | an added order loads as itself, and every other order as before |
| OrderRepo.ApplyOwn | skills/python-aggregate-and-repo/examples/order_model.py:66-94 | what the next load of a stored order shows after add_line, place or cancel, field by field |
| OrderRepo.ApplyOthers | skills/python-aggregate-and-repo/examples/order_repo.py:36-42 | and that every other order loads as before |
| OrderRepo.RunKeeps | skills/python-aggregate-and-repo/examples/order_model.py:62-94 | on every database built by new, add_line, place and cancel a placed order has lines, and status and times agree |
| OrderRepo.PlacedIsFrozen | skills/python-aggregate-and-repo/examples/order_model.py:66-94 | a placed order keeps its lines and placing time under every later operation |
| OrderRepo.RunTold | skills/python-aggregate-and-repo/examples/order_model.py:62-94 | every order of every run is told by the operations alone: its lines are those added before it was first placed or cancelled, its status, times and reason those of the first placing with lines and the first cancelling |
| OrderRepo.JoinAgreesIff | skills/python-aggregate-and-repo/examples/order_repo.py:56-73 | for given bounds the join equals the filter exactly when no wanted order without lines exists |
| OrderRepo.AlwaysAgreesIff | skills/python-aggregate-and-repo/examples/order_repo.py:56-73 | on any database the join always equals the filter if and only if placed orders have lines |
| OrderRepo.ScanIsTotals | skills/python-aggregate-and-repo/examples/order_repo.py:59-64 | the grouped sub-query has a result on every table: one group per order id with its sum |
| OrderRepo.QueryEquivalence | skills/python-aggregate-and-repo/examples/order_repo.py:50-73 | on every reachable database the statement returns each order placed since and totalling enough exactly once, and nothing else, for every minimum |
| OrderRepo.AnswerTold | skills/python-aggregate-and-repo/examples/order_repo.py:50-73 | the answer told by the operations alone: an order is in it exactly if it was first placed since then and the lines added before come to the minimum |
| OrderRepo.OneOrderIsFound | skills/python-aggregate-and-repo/examples/order_repo.py:50-73 | a concrete run whose order is in every such answer |
| OrderRepo.OrderRepo.Add | skills/python-aggregate-and-repo/examples/order_repo.py:29-34 | inserts the order, or reports the taken primary key with nothing changed |
| OrderRepo.OrderRepo.Save | skills/python-aggregate-and-repo/examples/order_repo.py:36-42 | the stored order becomes the object and the others stay, or the flush meets a constraint and nothing is written |
| OrderRepo.OrderRepo.ListRecentHighValue | skills/python-aggregate-and-repo/examples/order_repo.py:50-73 | the stream yields exactly the matching orders, each once and as stored |
| OrderDomain.TotalMeans | skills/python-pure-domain-layer/examples/order_domain.py:95-102 | the running sum succeeds exactly on one currency and is then the sum in it |
| OrderDomain.TotalPermutes | skills/python-pure-domain-layer/examples/order_domain.py:95-102 | reordering the lines changes neither the total nor whether it raises |
| OrderDomain.OrderEntity.ComputeTotal | skills/python-pure-domain-layer/examples/order_domain.py:95-102 | the loop computes that total |
| OrderDomain.OrderEntity.AddLine | skills/python-pure-domain-layer/examples/order_domain.py:104-107 | a draft gains the line as its last, anything else raises with nothing changed |
| OrderDomain.OrderEntity.Place | skills/python-pure-domain-layer/examples/order_domain.py:109-122 | new state for every branch, also when the total raises after the status was set |
| OrderDomain.OrderEntity.Cancel | skills/python-pure-domain-layer/examples/order_domain.py:124-134 | CANCELLED with one event appended; cancelling again changes nothing |
| OrderDomain.OrderEntity.PullEvents | skills/python-pure-domain-layer/examples/order_domain.py:136-138 | hands over all pending events and leaves none |
| OrderDomain.EventsConserved | skills/python-pure-domain-layer/examples/order_domain.py:104-138 | over every run, drained batches followed by pending events are the emission history |
| OrderDomain.RunTold | skills/python-pure-domain-layer/examples/order_domain.py:104-138 | lines, status and emission history told by the operations alone: the lines accepted before the first placing or cancelling, the first placing with lines, announced if they share a currency, and the first cancelling |
| OrderDomain.HistoryShape | skills/python-pure-domain-layer/examples/order_domain.py:104-138 | the history is at most one OrderPlaced then at most one OrderCancelled, as the status says, and the placed total is the order's total ever after |
| OrderDomain.AnnouncedIff | skills/python-pure-domain-layer/examples/order_domain.py:109-122 | placing announces the order if and only if its lines share a currency; otherwise it stays PLACED and is never announced |
| OrderDomain.MixedCurrenciesGoUnannounced | skills/python-pure-domain-layer/examples/order_domain.py:109-122 | the concrete run that shows it |
| OrderDomain.StoreLoad | skills/python-pure-domain-layer/SKILL.md:275-319 | loading what was stored always succeeds and gives the order back up to line order and pending events |
| OrderDomain.RunSimilar | skills/python-pure-domain-layer/SKILL.md:275-319 | orders that differ in line order only give the same replies to every later run |
| OrderDomain.SaveLoadUnnoticedIff | skills/python-pure-domain-layer/SKILL.md:275-319 | save and load change no reply of any later run if and only if the events were drained first |
| InvoiceMachine.LoudRuns | evals/README.md:46-56 | stutters do not matter to a run, wherever they stand |
| InvoiceMachine.RulesHold | evals/README.md:46-55 | the stated rules hold in every run of the machine: valid lines, no empty issue, payment after issue, PAID iff exactly one key succeeded |
| InvoiceMachine.NothingIsUndone | evals/README.md:49-56 | issued invoices keep their lines, paid ones everything, and known keys their attempt |
| ControlRequests.InvoiceCollectionService.CreateInvoice | evals/run 1/control/app/services.py:52-63 | new state or the error with nothing changed |
| ControlRequests.InvoiceCollectionService.AddInvoiceLine | evals/run 1/control/app/services.py:73-93 | under interference between check and commit: refused with nothing changed, or the line becomes the last of the invoice, whatever that is by then; a run of the system |
| ControlRequests.InvoiceCollectionService.IssueInvoice | evals/run 1/control/app/services.py:95-138 | under interference while the email is awaited: refused with nothing changed, failed with the email, or the invoice is ISSUED, whatever it was by then, and the total loaded is announced; a run of the system |
| ControlRequests.InvoiceCollectionService.LoadAndCheck | evals/run 1/control/app/services.py:146-170 | told by the tables: unknown invoice, replay of the stored attempt, already paid, not issued, or a PROCESSING attempt for the total built and nothing committed |
| ControlRequests.InvoiceCollectionService.CommitAttempt | evals/run 1/control/app/services.py:171-179 | the attempt becomes the last row, or the stored one is answered after an IntegrityError |
| ControlRequests.InvoiceCollectionService.StoreOutcome | evals/run 1/control/app/services.py:181-220 | field by field for every provider answer: the attempt, the reply, and after a success the PAID invoice and the InvoicePaid event naming the attempt and its amount |
| ControlRequests.InvoiceCollectionService.CollectPayment | evals/run 1/control/app/services.py:140-220 | a whole request under interference is a run of the system, and ends exactly as stated for replay, refusal, lost race and every provider answer |
| ControlRequests.OthersKeepOwnAttempt | evals/run 1/control/app/services.py:140-220 | no step of anybody else touches the attempt a request is working on |
| ControlSystem.InvHolds | evals/run 1/control/app/services.py:73-220 | over every run of overlapping and crashing requests for lines, issues and payments: attempts unique per pair, nothing asked or announced beyond the invoice's total, open payments on PENDING attempts of their own, InvoicePaid events = succeeded attempts and at least one for a PAID invoice, an InvoiceIssued event exactly for the invoices that are no drafts |
| ControlTheorems.PaidOnceIff | evals/run 1/control/app/services.py:95-219 | over every run: each PAID invoice has exactly one succeeded attempt and one InvoicePaid event and no other invoice has any, if and only if no success was stored for an invoice already PAID and no issue was committed on one |
| ControlTheorems.IssuedOnceIff | evals/run 1/control/app/services.py:95-137 | over every run: exactly one InvoiceIssued event per issued invoice, if and only if no issue was committed on one issued already |
| ControlTheorems.AmountsRightIff | evals/run 1/control/app/services.py:73-219 | over every run: every attempt and event states the total its invoice has now, if and only if no line was committed that changes an issued invoice's total, and no issue and no attempt with a total that is out of date |
| ControlTheorems.PaymentsNameAttempts | evals/run 1/control/app/services.py:199-217 | over every run each InvoicePaid event names a SUCCEEDED attempt of its invoice, none twice, and states that attempt's amount |
| HalfUp.TotalGrows | evals/run 1/control/app/totals.py:13-23 | one more valid line never lowers the rounded total |
| ControlTheorems.NoOverlapIsSafe | evals/run 1/control/app/services.py:73-220 | if requests for one invoice - lines, issues and payments - never overlap, it is paid at most once, issued once, and all amounts are its total |
| ControlTheorems.OverlapCanPayTwice | evals/run 1/control/app/services.py:199-219 | and that is needed: from any reachable state with two open calls for an invoice, both can pay it |
| ControlTheorems.LateIssueUnpays | evals/run 1/control/app/services.py:112-137 | and from any reachable state in which an issue of a PAID invoice is still open, its commit makes the invoice ISSUED again with its payment, open to every new key |
| ControlWitness.OverlapPaysTwice | evals/run 1/control/app/services.py:140-220 | a concrete run from an empty database that pays an invoice twice |
| ControlWitness.LateIssuePaysTwice | evals/run 1/control/app/services.py:95-137 | a concrete run in which two issues overlap, no two payments do, no success is stored for a PAID invoice, and the invoice is paid twice |
| ControlWitness.LateLineChangesTotal | evals/run 1/control/app/services.py:73-93 | a concrete run in which a line is committed after the issue, and the announced total is not the stored one |
| Refinement.TestRunIsRun | evals/run 1/test/app/services/billing.py:76-117 | a sequential run of the test service is one of the runs of its full system |
| Refinement.CollectRefines | evals/run 1/test/app/services/billing.py:76-117 | an uninterrupted request of the test service is the machine's Collect |
| Refinement.TestServiceRefines | evals/run 1/test/app/services/billing.py:50-117 | every sequential run of the test service is a run of the machine |
| Refinement.ControlServiceRefines | evals/run 1/control/app/services.py:73-220 | every sequential run of the control service is a run of the machine, an email failure being a stutter |
| Refinement.ControlRunIsRun | evals/run 1/control/app/services.py:140-220 | a sequential control run is one of the runs of its system of overlapping requests |
| Refinement.ServicesAgree | evals/README.md:46-57 | after the same commands, stutters aside, both services agree on status, keys and subtotal, and on the total up to floor(n/2) cents |
| ProviderAnswers.ObjectRead | evals/run 1/control/app/clients.py:80-93 | which members of a 2xx body each client reads, and what a missing or unknown status is to either |
| ProviderAnswers.SameAnswerIff | evals/run 1/control/app/clients.py:65-93 | an attempt that gets the same final answer ends alike in both services, unless it is a 4xx or a 2xx body that only the response schema refuses; then it is PENDING in the test service and settled in the control service |
| ProviderAnswers.SameCommandIff | evals/run 1/test/app/clients/payment.py:26-83 | exactly then the two requests are different commands of the machine |
| Refinement.BothPayOneInvoice | evals/README.md:46-57 | two such runs in which every step succeeds and the invoice ends PAID |

## Left out

- FastAPI routes, dependency providers, middleware, lifespan, configuration and the mapping of exceptions to status codes: plumbing.
- Logging: a no-op. The delivery results assume that the bus's own log call in the test run returns: it passes `event` both by position and by name (`evals/run 1/test/app/common/message_bus.py:27`), which the skill's listing warns against (`skills/python-message-bus-outbox/SKILL.md:205`); if it raises, only the runs in which every delivery fails before its email remain.
- The email provider accepts an email during its delivery or not at all; one taken up after the handler has given up is not modelled, nor are the single requests of the email client's retries.
- httpx, the length of the waits between retries, JSON parsing: only the sequence of sends, the classification of each exchange and whether the body validates.
- Database internals: atomic blocks are assumed, see above; of stale cached objects only the invoice status seen by the last block of a payment request is modelled.
- Wall clocks: one monotone clock; clock skew between machines and clocks that run backwards are not modelled.
- The text of `isoformat`: timestamps are printed as integers, an injective stand-in.
- Other spellings that Python's `UUID` and `Decimal` accept (braces, `urn:`, exponents): only what `str` prints, and hyphens anywhere, are parsed.
- Decimal's 28-digit context, column widths and overflow.
- Letters outside ASCII in the currencies of invoices and of pure-domain orders, where no result depends on them.
- `run_outbox_loop`: repeats a pass and sleeps; what repeated passes achieve is stated over runs of passes.
- The form of the skill's outbox payloads: an opaque text, which the validation of its event class accepts or rejects.
- The test run's own message bus: every event there has one handler, so raising at the first failure and collecting failures are the same.
- Which constraint a flush of `OrderRepo.save` may meet: the caller of the model says whether one is met.
- Customer names, invoice line descriptions in the control service, payment method tokens: carried along and never read.
- The control service's event rows are written and never dispatched in its code; the email of an issue is a call whose failure is a parameter.
- Members next to `status` in a provider's body that are no texts: the test service's schema refuses them, what the control service's database does with them is not modelled.
- OrderRepo.OrderRepo.ListRecentHighValue: the rows the database streams are an argument, any arrangement of the statement's answer; SQL evaluation itself is the function Join over any valid grouping.
- `get`, `get_or_raise` and `list_for_customer` of the order repository: plain lookups.
- Order status PAID: no method of either order sets it.
- install.sh, test doubles, fixtures and the typing snippets.
