# A model of the contractor management server

`cmswww` is the server through which contractors submit invoices and administrators review and pay them. This
project models its three stateful cores in Dafny and proves what they promise over whole runs.

**The ledger** (`Ledger`, `LedgerInvariants`, `LedgerRuns`, `LedgerTheorems`, `AddressTheorems`, `PollerTheorems`,
`CheckOutcomes`, `HandlerOutcomes`, `PayOutcomes`, `RestartPolls`, `StaleCopies`, `LostWrites`, `LedgerWitnesses`,
`LedgerServer`, with `Json` and `PaymentStream`). Every invoice lives twice: as a politeiad record with an overwritable
general stream, an append-only change stream and an overwritten payments stream, and as database rows that handlers
update incrementally and a restart rebuilds by replaying the records. A third copy, the map of polled payments, is
copied, checked and pruned by a background loop. `Ledger` gives every handler and every poller step as a function from
state to state and reply; `LedgerServer.Server` is the object whose methods update these tables in place, each proved
equal to its function; the other modules prove that the cache refines the log, that stale snapshots are harmless,
when addresses are fresh, and that the change log follows its grammar, with concrete runs where a condition is needed;
and they say of every handler, without the functions it is made of, exactly when it succeeds and what it leaves.

**Accounts** (`Database`, `Hex`, `Encoding`, `Formats`, `Accounts`, `AccountRuns`, `AccountEffects`,
`AbandonedRequests`, `AccountServer`). Registration, identity rotation, verification tokens, password reset and login lockout over one user
record, stored through its database row, together with the table of identity keys through which a replay finds the
owner of an invoice.

**Rates** (`Candlesticks`, `RateCalc`, `RateOutcomes`, `MonthlyRate`). Two candlestick feeds are aligned,
appended to a file per month until nothing more is to be had, and averaged; prices are fixed-point numbers of eight
decimals.

`InvoiceFile` is the arithmetic over the records of an invoice file, shared by review and payment.

Where the code does something else than its comments or callers suggest, the model follows the code and a lemma says
exactly when it meets the expectation:

- an edit is accepted from any user with an active key, not only the owner (`EditAgreesIffOwner`, `ForeignEdit`);
- nothing keeps two users from giving the same extended key, and then their payments can stand at one address, of which
  the poll map holds only the last (`AddressesDistinctIff`, `SharedAddressRun`);
- an address index past 2^32 derives the addresses of the first ones again (`NewAddressReuseIff`, `WrappedIndex`);
- an expired poll entry queues the invoice token instead of its own key and stays polled (`ExpiredEntryStays`,
  `ExpiredRun`);
- verifying an identity deactivates the first one that is not deactivated, which may be an abandoned request
  (`VerifyKeepsOneActiveIff`, `AbandonedRequestRun`);
- the uniqueness check of public keys misses spellings with upper-case digits, and only the unique column of the
  identities table catches them (`UniquenessCheckIff`);
- a user with an expiry but no token, or an empty password hash, is not read back as written (`UserRoundTripIff`,
  `ExpiryWithoutToken`);
- only the first pair of a batch of candlesticks is aligned (`RowsAlignedIff`, `ShiftedRows`), and exchanges that
  answer out of order can keep the update loop going (`ProgressIff`, `BackwardFeedNeverEnds`);
- the number of intervals in a month is computed as start minus end, so that a hole inside a month goes unnoticed
  (`FlagIsEdges`, `FlagIsRightIff`, `UnseenHole`);
- batches are not cut at the end of the month (`MonthEndIff`, `FullAnswerIff`), so that even the count meant would take a
  row past the end for a missing one (`CountTestIff`, `HiddenHole`).

The theorems about ledger runs quantify over all sequences of steps in which no database write is lost, edits come
from the owner and address indices stay within 32 bits; `LostWriteAgreesIff`, `LostWriteIsRecovered`,
`EditAgreesIffOwner` and `NewAddressReuseIff` say what happens at each of these borders. Address derivation is any
function that is injective in key and index.

## Model

| member | source | states |
|---|---|---|
| LedgerTheorems.CacheRefinesLog | cmswww/convert.go:125-196 | In every run of submit, owner edit, status change, pay, credit, poller, user and restart steps the tables hold exactly the recorded invoices, and every record replays to a row with the same token, owner, month, year, status, change table and ordered payments as the stored row |
| LedgerTheorems.RestartChangesNothing | cmswww/inventory.go:37-58 | At any point of a run, dropping the invoice tables and replaying the log leaves that projection of every invoice as it was |
| LedgerTheorems.LostWriteKeepsLog | cmswww/invoice.go:738-751 | A ledger step whose database write fails after the log was written leaves users, keys, log and issued addresses as the successful step does |
| LedgerTheorems.LostWriteIsRecovered | cmswww/invoice.go:1057-1064 | If a step of a run writes the log but loses its database write, a restart shows what the successful step would have shown |
| LedgerTheorems.RestartFromLog | cmswww/database/cockroachdb/cockroachdb.go:410-424 | A restart depends on users, keys and log only, never on the dropped tables, the poll map or the poller |
| LedgerTheorems.RunKeepsInv | cmswww/invoice.go:202-395 | Every covered run keeps the ledger invariant: rows agree with their records, logs follow the grammar, payments are distinct and issued, poll map and snapshots hold issued payments, one invoice per period |
| LedgerTheorems.ReachableInv | cmswww/invoice.go:202-395 | Every state reached from an empty ledger with real streams and injective derivation satisfies the invariant |
| LedgerTheorems.EditAgreesIffOwner | cmswww/invoice.go:977-1080 | A successful edit keeps row and record in agreement if and only if the editor owns the invoice, because the code never compares the two |
| LedgerTheorems.GrammarFacts | cmswww/invoice.go:23-78 | A log of the grammar starts with NotReviewed and never returns to it; only UnreviewedChanges repeats back to back; Rejected carries a reason and a key; after Paid only UnreviewedChanges comes; an entry without a key is the first one, an edit or a payment |
| LedgerTheorems.GrammarExtends | cmswww/invoice.go:52-78 | A log of the grammar can be extended by a change if and only if that change follows the last status |
| LedgerTheorems.ChangeLog | cmswww/invoice.go:231-247 | In every run each log follows the grammar, the row status is that of the last entry, and the change table is the converted log |
| LedgerTheorems.OneInvoicePerPeriod | cmswww/invoice.go:847-861 | In every run a user has at most one invoice for a month and year; every invoice has at most one total-cost payment and no address twice |
| LedgerTheorems.PayPollsUnpaid | cmswww/invoice.go:559-591 | In every run, after a successful payment call every payment without a transaction is polled under its current address with matching token, amount and time for another day, and a replaced address is no longer polled |
| LedgerTheorems.UnpaidArePolled | cmswww/invoice.go:80-98 | Polling a list of payments with distinct addresses leaves every unpaid one polled with its own entry and drops no key |
| LedgerTheorems.StaleCopyOverwrites | cmswww/invoice.go:352-395 | Crediting through an earlier copy of an invoice logs a payment address if and only if that copy has it, which is why handlers have to run one at a time |
| AddressTheorems.AddressesFresh | cmswww/payment.go:35-48 | In every run all addresses ever issued to one user are pairwise different, across changes of the extended public key |
| AddressTheorems.SharedAddressIff | cmswww/user.go:199-199 | Two issues share their address if and only if they belong to different users whose extended keys and indices agree |
| AddressTheorems.AddressesDistinctIff | cmswww/user.go:261-261 | In every run all addresses issued to anyone are distinct if and only if no two users share key and index; that no two users were issued addresses under one key is enough |
| AddressTheorems.NewAddressReuseIff | cmswww/payment.go:36-43 | A payment call derives the address of an earlier issue if and only if the extended key is the one used then and the stored index is the index of that issue modulo 2^32 |
| AddressTheorems.SameIssue | cmswww/payment.go:35-48 | An address is issued to an invoice at most once |
| AddressTheorems.NextExtends | cmswww/invoice.go:202-264 | Every step only adds issues and extends logs, and only the steps of the poller and a restart move the poller |
| AddressTheorems.WriteOnce | cmswww/invoice.go:319-346 | As long as no two users share key and index, invoice, amount and earliest transaction time of an address are written once: seen at one point of a run in a row, the poll map or a snapshot, they are the same wherever the address is seen later, under whatever invoice |
| AddressTheorems.WriteOncePerInvoice | cmswww/invoice.go:319-346 | Within one invoice amount and earliest transaction time of an address are written once without any condition |
| LedgerWitnesses.SimpleEnv | cmswww/payment.go:35-48 | The hypotheses on derivation, streams and files can be met together |
| LedgerWitnesses.SharedAddressRun | cmswww/user.go:261-261 | A run of four handler calls after which two users with one extended key have payments at one address, of which only the second is polled |
| LedgerWitnesses.ForeignEdit | cmswww/invoice.go:977-1080 | A run after which an edit by another user is accepted and row and replay name different owners |
| LedgerWitnesses.WrappedIndex | cmswww/payment.go:36-43 | A run of one payment and 2^32 - 1 payment calls whose metadata requests fail, after which the next payment gets address and amount of the first, so that a match is no longer unique |
| LedgerWitnesses.ExpiredRun | cmswww/payment.go:149-153 | A run after which a payment that expired is still polled although a whole pass of the checker found it expired |
| LedgerWitnesses.LostPaymentRun | cmswww/invoice.go:352-395 | A run in which a payment created between loading an invoice and crediting through that copy is in the row before the credit and not in the log after it |
| StaleCopies.StaleCreditIff | cmswww/invoice.go:352-395 | A credit through a copy loaded earlier leaves the log that a credit through the invoice as it is now leaves if and only if the payments are unchanged but for the transaction about to be set, and the copy is Paid exactly if the row is |
| StaleCopies.UnmovedCreditShows | cmswww/invoice.go:352-395 | Under that condition row and record show what they would show |
| LostWrites.LostWriteAgreesIff | cmswww/invoice.go:738-751 | After a lost database write and no restart the rows agree with the log if and only if the step left the log as it was |
| LostWrites.StepLogs | cmswww/invoice.go:202-264 | A ledger step whose database write is lost leaves what the rows show and writes at most one record: a new one, one with a longer log, or one with another payments stream |
| PollerTheorems.MatchIsThePayment | cmswww/invoice.go:358-365 | The first address and amount match for an issued entry is the payment the entry was made for, and no other payment has its address |
| PollerTheorems.StaleCheckIsSafe | cmswww/payment.go:129-188 | In every run, checking an entry of any snapshot, however stale, either changes no invoice and no record, or credits exactly the one payment the entry was made for and marks its invoice Paid, leaving every other payment and invoice alone; an entry whose address has been replaced is never credited |
| PollerTheorems.CheckIsSafe | cmswww/invoice.go:352-371 | The same for every state of the invariant |
| PollerTheorems.CheckQueues | cmswww/payment.go:129-188 | One check queues nothing, the invoice token, or the key of an entry whose invoice is Paid in the state the check leaves |
| PollerTheorems.RemovedWerePaid | cmswww/payment.go:190-210 | In every run a key about to be removed, unless it is an invoice token, was queued in this pass by a check that left the invoice of its entry Paid; the invoice is Paid still unless its log shows an edit since, and it is the invoice the poll map holds the key for as long as no two users share key and index |
| PollerTheorems.ExpiredEntryStays | cmswww/payment.go:149-153 | Whatever else is queued, the key of an expired entry leaves the poll map if and only if it was queued otherwise or equals the invoice token |
| CheckOutcomes.CheckOutcome | cmswww/payment.go:129-188 | In every run a checked entry is credited if and only if its invoice exists and is not Paid, the entry has not expired, a transaction was found, the row has a payment with its address and amount, and the request succeeds; then the first such payment has the transaction, row and log are Paid, nothing else changes, and the key is queued; it is also queued if the invoice was Paid before, the token is queued if the entry expired, and nothing is queued otherwise |
| CheckOutcomes.UpdateOutcome | cmswww/invoice.go:594-620 | In every run an update by an administrator is done if and only if the invoice exists, one of its payments has the address and the amount, and the request succeeds, with the same effect |
| CheckOutcomes.CreditOutcome | cmswww/invoice.go:352-395 | A credit through the invoice as it is succeeds exactly then, and is refused for want of a payment or of the request otherwise |
| CheckOutcomes.RowsLoad | cmswww/database/cockroachdb/cockroachdb.go:246-267 | In every state of the invariant an invoice loads if and only if it has a row, and then it has a record |
| HandlerOutcomes.LoggedDecisions | cmswww/invoice.go:23-28 | In every run a log entry with a key follows its predecessor by one of the seven decisions, listed pair by pair, and a rejection has a reason; an entry without a key is an edit or the payment of an invoice that was not Paid |
| HandlerOutcomes.StatusOutcome | cmswww/invoice.go:52-78 | In every run a status call succeeds if and only if the caller signs with its active key, the invoice exists, the step is one of the seven, a rejection has a reason and the request succeeds, each refusal with its error; then row and log end with exactly the status asked for and nothing else changes |
| HandlerOutcomes.SubmitOutcome | cmswww/invoice.go:833-974 | In every run a submission succeeds if and only if the caller signs with its active key, the file is there and readable, the caller has no invoice for the month and year, where zero stands for any, and the request succeeds; then every field of the new row and record is that of the request |
| HandlerOutcomes.EditOutcome | cmswww/invoice.go:977-1080 | In every run an edit succeeds, from whatever status and by whomever, if and only if the invoice exists, the caller signs with its active key, the file is there and readable and the request succeeds; then the record carries the edit and of the row only version and status have changed |
| PayOutcomes.PayOutcome | cmswww/invoice.go:266-350 | In every run a payment call succeeds if and only if the invoice exists, the cost is given or the file readable, an address can be derived and its index stored, the cost has an amount at the rate, and the request succeeds; then one payment of exactly that amount at exactly that address is in the row, in the place of an earlier total cost or at the end, issued, and polled for a day; otherwise nothing shown changes |
| PayOutcomes.CostIs | cmswww/invoice.go:100-141 | The cost of a call is the one asked for, or else the sum modulo 2^64 of the sixth fields of the records of the file, and there is none exactly if the file does not read as records with numbers in the fifth and sixth fields |
| PayOutcomes.ReviewedCost | cmswww/invoice.go:143-200 | The cost left to the file is the sum of the total costs of the line items its review shows |
| RestartPolls.RestartPollsOwed | cmswww/payment.go:73-114 | After a restart at any point of a run, every payment of an approved invoice without a transaction is polled at its address, and everything polled is such a payment, good for another day; if no two users share key and index, each is polled under its own invoice, amount and time |
| RestartPolls.LoadingStops | cmswww/inventory.go:49-58 | Loading stops at the first record that cannot be replayed: exactly the records before it have rows, and these are their replays |
| RestartPolls.ReplayFields | cmswww/convert.go:125-196 | A record replays if and only if the key of its signer is listed and its payments stream can be decoded; every field of the row comes from the record, status and reason from its last change |
| LedgerInvariants.JsonStreamsAreGood | cmswww/convert.go:211-243 | The JSON payments streams give back what was written to them and depend only on what they keep |
| LedgerInvariants.SetStatusStep | cmswww/invoice.go:653-768 | Changing the status keeps the invariant |
| LedgerInvariants.EditStep | cmswww/invoice.go:977-1080 | An edit by the owner keeps the invariant |
| LedgerInvariants.SubmitStep | cmswww/invoice.go:833-974 | A submission keeps the invariant, whether it succeeds, is refused or loses the record request |
| LedgerInvariants.NewPeriod | cmswww/database/cockroachdb/cockroachdb.go:270-338 | A row for a period for which the duplicate query found nothing leaves at most one invoice per period, also when month or year is zero |
| LedgerInvariants.RefreshStep | cmswww/invoice.go:80-98 | Refreshing the unpaid payments of a loaded invoice keeps the invariant |
| LedgerInvariants.FreshAddress | cmswww/payment.go:35-48 | An address derived at the current index is not among the payments of any invoice of that user |
| LedgerInvariants.StorePaymentStep | cmswww/invoice.go:309-346 | Storing a new or replaced payment in log, row and poll map keeps the invariant |
| LedgerInvariants.PayStep | cmswww/invoice.go:266-350 | A payment call keeps the invariant on each of its outcomes, also when an index is spent in vain |
| LedgerRuns.CreditEffect | cmswww/invoice.go:352-395 | Crediting sets the transaction of the first match only, marks the invoice Paid, adds one Paid entry unless it was Paid already, and touches nothing else; without a match nothing changes |
| LedgerRuns.CheckStep | cmswww/payment.go:129-188 | Checking one snapshot entry, interleaved anywhere, keeps the invariant |
| LedgerRuns.RemoveStep | cmswww/payment.go:190-197 | Removing the queued keys keeps the invariant |
| LedgerRuns.UserStep | cmswww/user.go:365-505 | Every user call, with the verdict of the key table, keeps the invariant: old keys still resolve to their owner |
| LedgerRuns.ReplayShowsRow | cmswww/convert.go:125-196 | A record that agrees with its row replays to a row with the same projection |
| LedgerRuns.RestartStep | cmswww/payment.go:73-114 | A restart keeps the invariant and the projection of every invoice |
| LedgerRuns.NextStep | cmswww/payment.go:199-210 | Every covered step, handlers and poller steps in any order, keeps the invariant |
| LedgerServer.Server.HasInvoices | cmswww/database/cockroachdb/cockroachdb.go:270-338 | The duplicate query answers yes if and only if some invoice matches the filter, where a zero month or year does not restrict |
| LedgerServer.Server.SaveInvoice | cmswww/database/cockroachdb/cockroachdb.go:237-243 | The row is replaced, its new changes are appended to the table and its status is that of the last new change |
| LedgerServer.Server.CreatePolledPaymentsCopy | cmswww/payment.go:116-127 | The poller gets a copy of the whole poll map |
| LedgerServer.Server.RemoveInvoicePaymentsFromPolling | cmswww/payment.go:190-197 | Exactly the given keys leave the poll map |
| LedgerServer.Server.UpdateMDPayments | cmswww/invoice.go:202-264 | The payments stream is overwritten and, when a payment was updated on an unpaid invoice, a Paid change is appended; a failed request changes nothing |
| LedgerServer.Server.ConvertRecord | cmswww/convert.go:125-196 | The field by field conversion of a record gives its replay, or nothing for an unknown key or a malformed payments stream |
| LedgerServer.Server.HandleSubmitInvoice | cmswww/invoice.go:833-974 | New state and reply are those of the submission step |
| LedgerServer.Server.HandleEditInvoice | cmswww/invoice.go:977-1080 | New state and reply are those of the edit step |
| LedgerServer.Server.HandleSetInvoiceStatus | cmswww/invoice.go:653-768 | New state and reply are those of the status step |
| LedgerServer.Server.RefreshExistingInvoicePayments | cmswww/invoice.go:80-98 | The loop over range copies refreshes the stored rows and polls the unpaid payments, leaving the loaded invoice as it was |
| LedgerServer.Server.DerivePaymentInfo | cmswww/payment.go:35-48 | The address is derived at the index cut to 32 bits and the index is counted up; if the index cannot be stored there is no address and nothing changes |
| LedgerServer.Server.FindTotalCost | cmswww/invoice.go:277-289 | The first total-cost payment is found, or none exists |
| LedgerServer.Server.CreateInvoicePayment | cmswww/invoice.go:266-350 | New state and reply are those of payment creation |
| LedgerServer.Server.HandlePayInvoice | cmswww/invoice.go:559-591 | New state and reply are those of the pay step |
| LedgerServer.Server.UpdateInvoicePayment | cmswww/invoice.go:352-395 | New state and reply are those of crediting the first match |
| LedgerServer.Server.HandleUpdateInvoicePayment | cmswww/invoice.go:594-620 | New state and reply are those of the update step |
| LedgerServer.Server.CheckInvoicePayment | cmswww/payment.go:129-188 | New state and reply are those of checking one entry, with the explorer answer given |
| LedgerServer.Server.InitializeInventory | cmswww/inventory.go:49-58 | The rows loaded are those of the records before the first one that cannot be replayed |
| LedgerServer.Server.AddInvoicePaymentsForPolling | cmswww/payment.go:73-114 | Unpaid payments of approved invoices are refreshed and polled |
| LedgerServer.Server.RestartServer | cmswww/database/cockroachdb/cockroachdb.go:370-435 | New state is that of the restart step |
| Json.ParsePrintedObject | cmswww/convert.go:223-243 | A printed flat object followed by any text parses to the same members and leaves exactly that text (sections 4 and 7 of RFC 8259) |
| Json.ParsePrintedString | cmswww/convert.go:223-243 | Any string content survives escaping, whatever follows it |
| PaymentStream.DecodePrinted | cmswww/convert.go:211-221 | One printed payment followed by any text decodes to that payment and leaves the text |
| PaymentStream.DecodeOfPrint | cmswww/convert.go:173-186 | Decoding back-to-back printed payments until the end gives the same list in the same order, for every list |
| PaymentStream.PrintInjective | cmswww/convert.go:223-243 | No two payment lists share a stream |
| Formats.PaymentText | cmswww/convert.go:223-243 | The text of a printed payment, member by member in their order |
| Formats.FieldsByName | cmswww/convert.go:173-186 | Members in whatever order: an object is accepted if and only if every value fits the field of its name, and each field then has the last value under its name that is not null, or the one it had |
| PaymentStream.RecoverPayload | cmswww/convert.go:173-186 | Replaying a printed payments stream gives the payments under the invoice token, without their poll expiry |
| PaymentStream.PrintPayments | cmswww/convert.go:223-243 | The printing loop produces the stream of the list |
| PaymentStream.DecodePayments | cmswww/convert.go:173-186 | The decoding loop returns the replayed list, or nothing for a malformed stream |
| Hex.DecodeOfEncode | cmswww/database/cockroachdb/encoding.go:12-148 | Hexadecimal text decodes to the bytes it was made from (section 8 of RFC 4648) |
| Hex.EncodeOfDecode | cmswww/database/cockroachdb/encoding.go:176-200 | Encoding what was decoded gives the lower-case spelling |
| Hex.CanonicalIff | cmswww/database/cockroachdb/encoding.go:176-200 | Decodable text is what encoding its bytes gives if and only if it has no upper-case digit |
| Encoding.UserRoundTrip | cmswww/database/cockroachdb/encoding.go:12-148 | Storing and loading any user gives the user with expiries of nil tokens and an empty password hash forgotten; nil and empty tokens stay apart |
| Encoding.UserRoundTripIff | cmswww/database/cockroachdb/encoding.go:12-148 | Storing and loading gives the very same user if and only if nil tokens have expiry 0 and the password hash is not empty |
| Formats.UserIsStored | cmswww/database/cockroachdb/encoding.go:12-77 | Every column of the row of a user and of its identities |
| Formats.UserIsRead | cmswww/database/cockroachdb/encoding.go:80-148 | A row is read if and only if every key, token and password in it is hexadecimal; then every field is that of its column, a time missing beside a token is the zero time, and keys have 32 bytes |
| Formats.HexText | cmswww/database/cockroachdb/encoding.go:30-33 | Two lower-case digits a byte, the high one first |
| Formats.StatusNumbers | cmswww/api/v1/enums.go:42-49 | The numbers of the seven statuses, stored and requested alike |
| Encoding.IdentitiesRoundTrip | cmswww/database/cockroachdb/encoding.go:151-200 | Identities come back in order with keys and times |
| Encoding.AppendIdentityRows | cmswww/database/cockroachdb/encoding.go:72-74 | The encoding loop gives the rows of the list |
| Encoding.AppendIdentities | cmswww/database/cockroachdb/encoding.go:139-145 | The decoding loop gives the list, or an error at the first bad row |
| Encoding.EncodeInvoice | cmswww/database/cockroachdb/encoding.go:204-239 | Every field, change and payment of the row; payments and changes carry the token, the status is that of the last change |
| Encoding.DecodeInvoice | cmswww/database/cockroachdb/encoding.go:271-306 | Every field and payment of the invoice; changes are not loaded and a file is present exactly when its payload is not empty |
| Encoding.StoreAndLoadInvoice | cmswww/database/cockroachdb/encoding.go:204-306 | Writing and reading an invoice loses only user name, changes and an empty file, stamps the payments and takes the status from the last change |
| Encoding.ReloadedIsStable | cmswww/database/cockroachdb/encoding.go:204-306 | A loaded invoice is stored and loaded unchanged |
| Accounts.UniquenessCheckIff | cmswww/validate.go:244-261 | For a key another user holds, the uniqueness check refuses if and only if the request spells it without upper-case digits; the unique column refuses the rest |
| Accounts.UpperCaseKeyIsMissed | cmswww/validate.go:244-261 | A spelling of a held key that the check lets through |
| Accounts.ApplyFrame | cmswww/user.go:365-505 | No call removes, reorders or rewrites a key or touches the address index, and at most one free key is appended |
| Accounts.ApplyKeepsOwners | cmswww/database/cockroachdb/cockroachdb.go:142-153 | After every call the key table lists exactly the keys of the users, and no listed key changes its owner |
| AccountRuns.StepShape | cmswww/user.go:236-271 | Every call keeps all four token slots, issues into one of them, or redeems what one of them held and leaves it empty with expiry 0 |
| AccountRuns.OneShotRedemption | cmswww/user.go:121-141 | Over any run, whatever is redeemed was issued before for the same purpose, is redeemed no later than the expiry it was issued with, and never again |
| AccountRuns.EmptySlotRejects | cmswww/user.go:632-679 | A never issued or consumed slot rejects every text in each of the four redeeming handlers, the extended-key handler also without regard to the expiry |
| AccountRuns.UnexpiredTokenKept | cmswww/user.go:590-630 | An unexpired identity, reset or extended-key token is not replaced by any call; only its redemption ends it, or an administrator its expiry |
| AccountRuns.CounterStep | cmswww/session.go:182-246 | One call moves the stored counter as the expected counter of the history moves |
| AccountRuns.LockoutCounter | cmswww/session.go:164-253 | For every run the counter is the number of wrong passwords since the last success, unlock or reset, capped at 5 and 5 outright after an admin lock; logins only succeed below 5 |
| AccountRuns.LockedUntilCleared | cmswww/admin.go:241-252 | Once locked, a later successful login is preceded by an unlock or a password reset |
| AccountRuns.RotationStep | cmswww/user.go:388-414 | In an orderly run each call keeps the identities in order: deactivated ones, then at most one active one, then at most one pending one |
| AccountEffects.RegisterEffect | cmswww/user.go:102-209 | Registration succeeds if and only if token, key, user name, password, uniqueness and signature are in order, and then sets the named fields to those of the request, consumes the token, appends one active identity, and leaves every other field |
| AccountEffects.NewIdentityEffect | cmswww/user.go:365-434 | A request for an identity succeeds if and only if the key is valid and free and no request is unexpired, and then stores the token for two days and appends one pending identity |
| AccountEffects.VerifyIdentityEffect | cmswww/user.go:437-505 | A verification succeeds if and only if the token is presented in time, there is an identity and the signature is valid, and then deactivates the first identity that is not deactivated, activates the last, and consumes the token |
| AccountEffects.RequestResetEffect | cmswww/user.go:590-630 | Asking for a reset stores a new token for two days unless one is still good, and changes nothing else |
| AccountEffects.RedeemResetEffect | cmswww/user.go:632-679 | A reset succeeds if and only if the token is presented in time with a password of eight bytes or more, and then sets the password hash, clears the counter and consumes the token |
| AccountEffects.ChangePasswordEffect | cmswww/user.go:509-546 | A password change succeeds if and only if the old password is right and the new one has eight bytes or more, and sets the hash only |
| AccountEffects.LoginEffect | cmswww/session.go:164-253 | A login succeeds if and only if the user has registered, the password is right and the counter is below 5; it then clears the counter and stores the time, and a wrong password counts only below 5 |
| AccountEffects.RequestExtendedKeyEffect | cmswww/user.go:273-313 | Asking for a key change stores a new token for two days unless one is still good |
| AccountEffects.RedeemExtendedKeyEffect | cmswww/user.go:236-271 | A key change succeeds if and only if the token is presented in time and in lower case, and then sets the extended key and consumes the token |
| AccountEffects.AdministratorEffects | cmswww/admin.go:191-266 | What resending an invitation, expiring an identity token, unlocking and locking set, and when they are refused |
| AccountEffects.ManageIsApply | cmswww/admin.go:191-266 | The four actions of an administrator are the four calls of a run of the account |
| AccountEffects.InvitedRegisters | cmswww/admin.go:95-160 | An invited user registers with the token of the invitation for two days |
| AccountEffects.LoadedKept | cmswww/database/cockroachdb/cockroachdb.go:85-89 | Every call leaves a record that is stored and loaded unchanged |
| AccountRuns.InOrderActive | cmswww/database/database.go:146-164 | Identities in order have exactly one active one as soon as there is any, and ActiveIdentity returns it |
| AccountRuns.IdentityRotation | cmswww/user.go:437-505 | In every run that verifies each new identity before the next is asked for, there is exactly one active identity from the first activation on, and after a verification it is the newest and the one ActiveIdentity returns |
| AccountRuns.VerifyKeepsOneActiveIff | cmswww/user.go:488-501 | With one active identity before, a verification leaves exactly one if and only if every identity before the active one has been deactivated |
| AbandonedRequests.AbandonedRequestRun | cmswww/user.go:365-505 | For every registered user whose only identity in use is the newest and any three different keys not in the key table, five calls that carry the verdicts of that table, a request that lapses and two that are verified, are all accepted and leave two active identities, of which ActiveIdentity returns the older |
| AbandonedRequests.UnlistedIsFree | cmswww/validate.go:244-261 | A key that is not in the table is found free by both checks, however it is spelled |
| Accounts.ExpiryWithoutToken | cmswww/admin.go:232-240 | An administrator expiring an identity token that was never issued stores a user that is not read back as written |
| AccountServer.Server.UpdateUser | cmswww/database/cockroachdb/cockroachdb.go:85-89 | A user goes through its row and is stored normalized, unless a new key is already listed, which the unique column refuses without storing anything |
| AccountServer.Server.HandleRegister | cmswww/user.go:102-209 | The stored record, the key table and the reply are those of registration |
| AccountServer.Server.HandleNewIdentity | cmswww/user.go:365-434 | The stored record, the key table and the reply are those of requesting an identity |
| AccountServer.Server.RotateIdentities | cmswww/user.go:494-501 | The loop deactivates the first identity that is not deactivated and activates the last |
| AccountServer.Server.HandleVerifyNewIdentity | cmswww/user.go:437-505 | The stored record and the reply are those of verifying an identity |
| AccountServer.Server.HandleResetPassword | cmswww/user.go:553-679 | The stored record and the reply are those of asking for or redeeming a reset token |
| AccountServer.Server.HandleEditUserExtendedPublicKey | cmswww/user.go:236-362 | The stored record and the reply are those of asking for or redeeming an extended-key token |
| AccountServer.Server.HandleLogin | cmswww/session.go:164-253 | The stored record and the reply are those of a login attempt |
| AccountServer.Server.HandleChangePassword | cmswww/user.go:509-546 | The stored record and the reply are those of a password change |
| AccountServer.Server.HandleManageUser | cmswww/admin.go:191-266 | The stored record and the reply are those of the four administrator actions |
| AccountServer.Server.HandleInviteNewUser | cmswww/admin.go:95-160 | An address in use blocks the invitation, by error, unless its own invitation has expired, and then the unique column does; otherwise the invited user with token and expiry is stored and no key is listed |
| Accounts.ApplyKeepsEmails | cmswww/database/cockroachdb/cockroachdb.go:85-89 | No user call makes two users share an address |
| InvoiceFile.DeriveTotalCost | cmswww/invoice.go:100-141 | The loop returns the totals of the record list or the failure of its first bad record |
| InvoiceFile.CreateInvoiceReview | cmswww/invoice.go:143-200 | The review fails exactly when the totals do, with the same failure, and otherwise has the same totals and one line item per record |
| InvoiceFile.ReviewThenPay | cmswww/invoice.go:100-200 | On every record list, short records and malformed numbers included, review and payment fail together with the same failure or give equal totals |
| InvoiceFile.TotalsAreItemSums | cmswww/invoice.go:166-197 | The totals are the sums of the reviewed line items modulo 2^64, exact when those stay below 2^64 |
| InvoiceFile.ItemFields | cmswww/invoice.go:166-197 | A line item of a review shows the first four fields of its record as text and the fifth and sixth as numbers |
| InvoiceFile.TotalsIff | cmswww/invoice.go:119-138 | A file has totals if and only if every record has numbers in its fifth and sixth fields, and then they are the sums of these fields modulo 2^64 |
| Candlesticks.PriceRoundTrip | cmswww/ratecalc/convert.go:7-17 | A price printed with eight decimals is read back |
| Candlesticks.FileRoundTrip | cmswww/ratecalc/convert.go:7-59 | The record written for a row reads back to its two candlesticks from the first and the last seven fields |
| Formats.RecordFields | cmswww/ratecalc/convert.go:7-17 | By its place, each of the fourteen fields of a record is the text of one field of the two candlesticks: time, length, open, close, high, low, volume |
| RateCalc.AlignIsLeast | cmswww/ratecalc/ratecalc.go:196-225 | For strictly increasing feeds the merge from any positions finds the least pair with a common timestamp not too early, or there is none |
| RateCalc.RaisedTimeSameResult | cmswww/ratecalc/ratecalc.go:182-194 | Raising the current time to the first timestamps of the feeds does not change the indices |
| RateCalc.GetDataIndices | cmswww/ratecalc/ratecalc.go:178-225 | For strictly increasing feeds the indices are the least common ones at or after the time asked for, and -1 twice exactly when there is none |
| RateCalc.GapFreeRowsAligned | cmswww/ratecalc/ratecalc.go:271-284 | From a common start, gap-free feeds give rows with equal timestamps |
| RateCalc.RowsAlignedIff | cmswww/ratecalc/ratecalc.go:260-286 | Only the first pair is aligned by the code: all rows of a batch are aligned if and only if neither feed has a timestamp in the fetched range that the other lacks |
| RateCalc.ShiftedRows | cmswww/ratecalc/ratecalc.go:260-286 | Two concrete feeds of which one lacks an interval, and the misaligned rows that follow |
| RateCalc.FetchData | cmswww/ratecalc/ratecalc.go:227-287 | The batch and the time it leaves, with every early return |
| RateCalc.FetchedRows | cmswww/ratecalc/ratecalc.go:227-287 | A batch from increasing feeds is increasing, none of it is before the time asked for, its first row is aligned and the time it leaves is that of its last row |
| RateOutcomes.UpdateOutcome | cmswww/ratecalc/ratecalc.go:323-368 | For increasing feeds, rows are added exactly if the call is due, both exchanges answer, their feeds have a common time not before the one asked for, and the file opens; then they are the pairs from the first such time on until a feed runs out, and the call is repeated unless it has come up with the clock; every other reply is fixed |
| RateCalc.UpdateStep | cmswww/ratecalc/ratecalc.go:323-368 | Every update only appends, nothing before last + 900 or the start of the month, keeps the file strictly increasing, keeps rows aligned for gap-free feeds, and a call that asks to be repeated moves the next time forward by an interval or more |
| RateCalc.ProgressIff | cmswww/ratecalc/ratecalc.go:333-367 | A call that asks to be repeated moves the next time forward by an interval or more if and only if the last pair of candlesticks, where the shorter feed runs out, does not lie before the time asked for, in whatever order the exchanges answer |
| RateCalc.AllForwardIff | cmswww/ratecalc/ratecalc.go:105-129 | Any number of continuing calls all move forward by an interval or more if and only if each meets that condition, whatever the clock does |
| RateCalc.ContinuingCallsBounded | cmswww/ratecalc/ratecalc.go:105-129 | Continuing calls that meet that condition use up an interval of the month each, so that they are fewer than the intervals left, whatever the clock does and in whatever order the exchanges answer |
| RateCalc.OrderAdvances | cmswww/ratecalc/ratecalc.go:196-286 | Answers in strictly increasing order always meet the condition |
| RateCalc.BackwardFeedNeverEnds | cmswww/ratecalc/ratecalc.go:105-129 | In every month of three intervals or more, exchanges that list its first two candlesticks backwards make any number of calls ask for one more |
| RateCalc.RepeatKeeps | cmswww/ratecalc/ratecalc.go:289-368 | After any number of calls the old rows are a prefix, times increase from the start of the month on, and alignment is kept for gap-free feeds |
| RateCalc.GridKept | cmswww/ratecalc/ratecalc.go:323-368 | A file built by calls whose feeds are on the grid of the month has increasing rows on that grid, wherever the feeds end |
| RateCalc.FlagOfRun | cmswww/ratecalc/ratecalc.go:410-469 | For every such file the rows before the end of the month and the missing intervals add up to all intervals, and the flag is right if and only if nothing is missing, the first two intervals are, or the last one is and no row lies past the end |
| RateCalc.BatchEndIff | cmswww/ratecalc/ratecalc.go:271-286 | A file that ended within the month still does after an update if and only if the candlestick at which the shorter feed runs out, counted from where the feeds meet, lies in the month |
| RateCalc.MonthEndIff | cmswww/ratecalc/ratecalc.go:323-368 | For gap-free feeds, if and only if one of the two feeds ends within the month |
| RateCalc.FullAnswerIff | cmswww/ratecalc/remote.go:97-105 | A call answered in full leaves the month if and only if twenty intervals past the one asked for are not before its end |
| RateCalc.HiddenHole | cmswww/ratecalc/ratecalc.go:457-467 | In every month of three intervals or more, two gap-free calls can leave a file with as many rows as the month has intervals, a hole, and no flag |
| RateCalc.Calculator.GetMostRecentInterval | cmswww/ratecalc/ratecalc.go:132-153 | The timestamp on the last record, or none for an empty file or the zero time |
| RateCalc.Calculator.AddDataToFile | cmswww/ratecalc/ratecalc.go:289-315 | The records of the rows are appended to the file of the month |
| RateCalc.Calculator.UpdateCandlestickDataForMonth | cmswww/ratecalc/ratecalc.go:323-368 | The file and the reply are those of one update; other months are left alone |
| RateCalc.Calculator.RepeatUpdates | cmswww/ratecalc/ratecalc.go:105-115 | As long as every call that asks to be repeated advances, the loop ends with the first call that does not ask, after fewer continuing calls than the month has intervals left; rows are only appended, and answers in order keep the file in order |
| RateCalc.Calculator.UpdateCandlestickData | cmswww/ratecalc/ratecalc.go:92-130 | The previous month is brought up to date only before the fifth day and only if it has a file, then the current month; rows are only appended, and answers in order keep both files in order |
| RateCalc.Calculator.CalculateRateForMonth | cmswww/ratecalc/ratecalc.go:395-470 | The rate and the flag of the rows written to the file of the month, or an error for an unreadable or empty file; the rate is fixed by the open and close prices and lies within their bounds |
| MonthlyRate.AverageRecords | cmswww/ratecalc/ratecalc.go:410-470 | The loop gives the rate and the flag of the rows read from the records, the rate being that of their open and close prices, or an error for an empty file or a field that is no number |
| MonthlyRate.ReadBack | cmswww/ratecalc/ratecalc.go:370-393 | A file read back gives the rows it was written from |
| MonthlyRate.MeanBetween | cmswww/ratecalc/ratecalc.go:448-454 | The rate lies between any bounds on the rates of the intervals, hence between their minimum and maximum |
| MonthlyRate.MeanOfAppend | cmswww/ratecalc/ratecalc.go:448-469 | After an update the rate is the weighted mean of the old rate and the mean of the appended rows |
| MonthlyRate.MeanInPrices | cmswww/ratecalc/ratecalc.go:448-454 | Four times the rate, times the number of rows, in squared price units, is the sum over the rows of open plus close of the one pair times open plus close of the other |
| MonthlyRate.OpenAndCloseDecide | cmswww/ratecalc/ratecalc.go:448-454 | Files with the same open and close prices have the same rate: high, low and volume do not count |
| MonthlyRate.RateWithin | cmswww/ratecalc/ratecalc.go:448-469 | For prices that are not negative the rate lies between the product of the least and the product of the greatest open or close prices of the two pairs |
| MonthlyRate.FlagIsEdges | cmswww/ratecalc/ratecalc.go:420-467 | The count test as written never fires for a valid month, so the flag is false if and only if the first row is early enough and, unless it is the only one, the last row late enough |
| MonthlyRate.RowsAndHoles | cmswww/ratecalc/ratecalc.go:457-467 | Pigeonhole: for increasing rows on the grid, the rows before the end of the month and the intervals without a row add up to the intervals of the month |
| MonthlyRate.CompleteIff | cmswww/ratecalc/ratecalc.go:457-467 | The month is complete if and only if as many rows as it has intervals lie before its end |
| MonthlyRate.CountTestIff | cmswww/ratecalc/ratecalc.go:457-467 | Counting the whole file finds out whether the month is incomplete if and only if nothing is missing or fewer rows lie past the end than are missing within |
| MonthlyRate.FlagSees | cmswww/ratecalc/ratecalc.go:420-441 | The flag is set if and only if the first two intervals are missing, or the last one is missing from a file of two rows or more of which none lies past the end |
| MonthlyRate.FlagIsRightIff | cmswww/ratecalc/ratecalc.go:410-469 | A set flag is no false alarm, and the flag is right if and only if nothing is missing, the first two intervals are, or the last one is and no row lies past the end |
| MonthlyRate.UnseenHole | cmswww/ratecalc/ratecalc.go:410-469 | In every month of three intervals or more the flag stays false for a file of only the first and the last interval, although all between them are missing |

## Left out

- Interleaving inside a handler: handlers run to their end one at a time, and only the poller is split into copying, checking one entry and removing; `StaleCreditIff` says when a lookup between loading and crediting does no harm.
- `HandlePayInvoices`: it repeats the payment of one invoice with zero cost.
- Rows of the payments table are identified by their position instead of a row number, and stored in insertion order.
- `UpdateUser` and `UpdateInvoice` replace whole records; which zero values the database library would skip is not modelled.
- LedgerServer.Server.ConvertRecord: the general and changes streams are taken as decoded, so that only the payments stream can be malformed.
- LedgerServer.Server.HandleSubmitInvoice: the new record and its publication are one request that succeeds or fails; a record never published is not part of the log.
- LedgerServer.Server.RefreshExistingInvoicePayments: a database failure between two of its payments is not modelled.
- politeiad beyond "append appends, overwrite overwrites": challenges, unvetted records before publication, and failing reads, which are steps not taken.
- Nested JSON values, fractions and exponents are refused by the parser, member names are matched exactly, and invalid UTF-8 cannot be expressed.
- Agreement of File, Version, PublicKey, UserSignature, Timestamp, StatusChangeReason and PollExpiry between row and replay: the handlers do not maintain it.
- Signatures, password hashes and the user name pattern are parameters of the calls; email delivery and the format of addresses are taken to be in order.
- Base64 and CSV parsing, address derivation and the conversion of a cost at a rate into atoms are given functions.
- Rounding of floating-point numbers: prices are fixed-point, rates are reals, and only the printed notation of a price is read.
- Time zones: months and clocks are given in seconds, and a clock that runs backwards is excluded in `OneShotRedemption`.
- Sizes of Go's `uint` are taken as 64 bits.
- Locks and concurrency inside the rate calculator: one updater runs at a time.
- The check of the month comment in an invoice file, paging of invoice lists and their total counts.
- HTTP routes, sessions, the command line, configuration, events, logging, mail templates and the two database tools.
