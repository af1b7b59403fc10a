/** The invoice ledger: politeiad's records, the database tables rebuilt from them, and the in-memory poll map,
    with the effect of every handler and of every step of the payment checker on that state. */
module Ledger {
  import opened Wrappers
  import opened MachineInts
  import opened Database
  import opened Accounts
  import InvoiceFile
  import PaymentStream

  const POLL_EXPIRY_DURATION := 24 * 60 * 60

  // ---------------------------------------------------------------- state

  /** The overwritable "general" stream of a record. */
  datatype General = General(month: uint16, year: uint16, timestamp: int64, publicKey: string, signature: string)

  /** One entry of the append-only "changes" stream. */
  datatype StreamChange = StreamChange(adminPublicKey: string, newStatus: Status, reason: Option<string>,
      timestamp: int64)

  /** A vetted politeiad record; `payments` is the text of the overwritten "payments" stream. */
  datatype Record = Record(
    serverSignature: string,
    version: string,
    file: File,
    general: General,
    changes: seq<StreamChange>,
    payments: string)

  datatype PolledPayment = PolledPayment(token: string, address: string, amount: uint64, txNotBefore: int64,
      pollExpiry: int64)

  /** The payment checker sleeps, or works through a copy of the poll map collecting keys to remove. */
  datatype Poller = Sleeping | Checking(snapshot: map<string, PolledPayment>, toRemove: seq<string>)

  /** A payment as it was when its address was derived, kept to state properties of whole runs. */
  datatype Issue = Issue(
    uid: uint64,
    extendedPublicKey: string,
    index: nat,
    token: string,
    address: string,
    amount: uint64,
    txNotBefore: int64)

  /** `invoices[t].changes` is the content of the change table for t, which handlers append to but never load. */
  datatype State = State(
    users: Users,
    keys: KeyTable,
    invoices: map<string, Invoice>,
    backend: map<string, Record>,
    polled: map<string, PolledPayment>,
    poller: Poller,
    issued: seq<Issue>)

  /** Functions the ledger calls. Address derivation, base64 and CSV reading, and the conversion of a USD cost at
      a rate into atoms belong to libraries that are not modelled; the payments stream is that of PaymentStream. */
  datatype Env = Env(
    derive: (string, nat) -> Option<string>,
    parse: string -> Option<InvoiceFile.Records>,
    atoms: (uint64, real) -> Option<uint64>,
    encode: seq<InvoicePayment> -> string,
    decode: (string, string) -> Option<seq<InvoicePayment>>)

  /** The streams are printed and decoded as JSON. */
  ghost predicate JsonStreams(env: Env) {
    && (forall ps {:trigger PaymentStream.Payload(ps)} :: env.encode(ps) == PaymentStream.Payload(ps))
    && (forall token, payload {:trigger PaymentStream.Recover(token, payload)} ::
          env.decode(token, payload) == PaymentStream.Recover(token, payload))
  }

  /** Whether the metadata request, the update of an address index and the database write at the end of a handler
      succeed. */
  datatype Io = Io(rpcOk: bool, indexOk: bool, dbOk: bool)

  datatype LedgerError =
    | InvoiceNotFound
    | NoPublicKey
    | InvalidSigningKey
    | InvalidRequestSignature
    | InvalidInput
    | MalformedInvoiceFile
    | DuplicateInvoice
    | InvalidStatusTransition
    | MissingReason
    | PaymentNotFound
    | Internal

  datatype Reply = Done | Skipped | Refused(error: LedgerError)

  // ---------------------------------------------------------------- replay

  function LastStatus(changes: seq<StreamChange>): Status {
    if changes == [] then Invalid else changes[|changes| - 1].newStatus
  }

  function LastReason(changes: seq<StreamChange>): string {
    if changes == [] || changes[|changes| - 1].reason.None? then "" else changes[|changes| - 1].reason.value
  }

  /** convertStreamChangeToDatabaseInvoiceChange followed by EncodeInvoiceChange, which has no reason column. */
  function ConvertChange(c: StreamChange): InvoiceChange {
    InvoiceChange(c.adminPublicKey, c.newStatus, "", c.timestamp)
  }

  function ConvertChanges(cs: seq<StreamChange>): (r: seq<InvoiceChange>)
    ensures |r| == |cs|
  {
    seq(|cs|, i requires 0 <= i < |cs| => ConvertChange(cs[i]))
  }

  /** convertRecordToDatabaseInvoice: the row a record stands for. The owner is found through the public key, and
      a malformed payments stream fails the record. */
  function Replay(env: Env, keys: KeyTable, token: string, rec: Record, file: Option<File>): Option<Invoice> {
    if rec.general.publicKey !in keys then None
    else
      var payments :- env.decode(token, rec.payments);
      Some(Invoice(token, keys[rec.general.publicKey], "", rec.general.month, rec.general.year, rec.general.timestamp,
                   LastStatus(rec.changes), LastReason(rec.changes), file, rec.general.publicKey,
                   rec.general.signature, rec.serverSignature, "", rec.version,
                   ConvertChanges(rec.changes), payments))
  }

  // ---------------------------------------------------------------- status transitions

  function ValidTransitions(s: Status): Option<seq<Status>> {
    match s
    case NotReviewed => Some([Approved, Rejected])
    case Rejected => Some([Approved, UnreviewedChanges])
    case UnreviewedChanges => Some([Approved, Rejected])
    case Approved => Some([Paid])
    case _ => None
  }

  function ValidateTransition(from: Status, to: Status, reason: Option<string>): Result<(), LedgerError> {
    match ValidTransitions(from)
    case None => Err(InvalidStatusTransition)
    case Some(valid) =>
      if to !in valid then Err(InvalidStatusTransition)
      else if to.Rejected? && reason.None? then Err(MissingReason)
      else Ok(())
  }

  // ---------------------------------------------------------------- database queries

  /** GetInvoiceByToken: joined with the owner's row; the changes are not loaded. */
  function Load(s: State, token: string): Option<Invoice> {
    if token in s.invoices && s.invoices[token].userID in s.users
    then Some(s.invoices[token].(token := token, changes := []))
    else None
  }

  /** The filter of GetInvoices: a zero month or year does not restrict the result. */
  predicate Matches(users: Users, row: Invoice, uid: uint64, month: uint16, year: uint16) {
    row.userID == uid && uid in users && (month != 0 ==> row.month == month) && (year != 0 ==> row.year == year)
  }

  /** UpdateInvoice: the row is replaced, new changes are appended to the change table, and the status is that of
      the last new change. */
  function UpdateInvoice(invoices: map<string, Invoice>, inv: Invoice): map<string, Invoice> {
    var table := if inv.token in invoices then invoices[inv.token].changes else [];
    invoices[inv.token := inv.(changes := table + StripReasons(inv.changes),
                               status := if inv.changes == [] then inv.status
                                   else inv.changes[|inv.changes| - 1].newStatus)]
  }

  function StripReasons(cs: seq<InvoiceChange>): (r: seq<InvoiceChange>)
    ensures |r| == |cs|
  {
    seq(|cs|, i requires 0 <= i < |cs| => cs[i].(reason := ""))
  }

  // ---------------------------------------------------------------- submit and edit

  datatype InvoiceRequest = InvoiceRequest(publicKey: string, signature: string, signatureValid: bool, file: File)

  /** validateInvoice: the key must be the caller's active one, and the file must be signed, present and readable. */
  function ValidateInvoice(env: Env, activeKey: Option<string>, req: InvoiceRequest): Result<(), LedgerError> {
    match activeKey
    case None => Err(NoPublicKey)
    case Some(key) =>
      if key != req.publicKey then Err(InvalidSigningKey)
      else if req.file.payload == "" then Err(InvalidInput)
      else if !req.signatureValid then Err(InvalidRequestSignature)
      else if env.parse(req.file.payload).None? then Err(MalformedInvoiceFile)
      else Ok(())
  }

  function NewRecord(req: InvoiceRequest, month: uint16, year: uint16, serverSignature: string, now: Time): Record {
    Record(serverSignature, "1", req.file, General(month, year, now, req.publicKey, req.signature),
           [StreamChange("", NotReviewed, None, now)], "")
  }

  /** The text of the active key of the user behind a session. */
  function KeyOf(users: Users, uid: uint64): Option<string> {
    if uid in users then ActiveKey(users[uid].identities) else None
  }

  ghost function Submit(s: State, env: Env, uid: uint64, activeKey: Option<string>, req: InvoiceRequest, month: uint16,
                        year: uint16, token: string, serverSignature: string, now: Time, io: Io): (State, Reply)
  {
    if ValidateInvoice(env, activeKey, req).Err? then (s, Refused(ValidateInvoice(env, activeKey, req).error))
    else if exists t | t in s.invoices :: Matches(s.users, s.invoices[t], uid, month, year) then
      (s, Refused(DuplicateInvoice))
    else if !io.rpcOk then (s, Refused(Internal))
    else
      var rec := NewRecord(req, month, year, serverSignature, now);
      var logged := s.(backend := s.backend[token := rec]);
      var row := Replay(env, s.keys, token, rec, Some(File(req.file.payload, "", req.file.digest)));
      if row.None? || !io.dbOk then (logged, Refused(Internal))
      else (logged.(invoices := s.invoices[token := row.value]), Done)
  }

  /** HandleEditInvoice: overwrites the general stream and appends a change. Of the row only the version and the
      status change. The owner is not compared with the caller, whose active key is all that is asked for. */
  function Edit(s: State, env: Env, activeKey: Option<string>, token: string, req: InvoiceRequest, version: string,
                now: Time, io: Io): (State, Reply)
  {
    match Load(s, token)
    case None => (s, Refused(Internal))
    case Some(inv) =>
      if ValidateInvoice(env, activeKey, req).Err? then (s, Refused(ValidateInvoice(env, activeKey, req).error))
      else if !io.rpcOk || token !in s.backend then (s, Refused(Internal))
      else
        var rec := s.backend[token];
        var logged := s.(backend := s.backend[token := rec.(
            version := version,
            file := req.file,
            general := General(inv.month, inv.year, now, req.publicKey, req.signature),
            changes := rec.changes + [StreamChange("", UnreviewedChanges, None, now)])]);
        if !io.dbOk then (logged, Refused(Internal))
        else
          var edited := inv.(version := version,
                             status := UnreviewedChanges,
                             changes := [InvoiceChange("", UnreviewedChanges, "", now)]);
          (logged.(invoices := UpdateInvoice(s.invoices, edited)), Done)
  }

  // ---------------------------------------------------------------- status changes

  function SetStatus(s: State, activeKey: Option<string>, token: string, publicKey: string, signatureValid: bool,
                     status: Status, reason: Option<string>, now: Time, io: Io): (State, Reply)
  {
    if activeKey.None? then (s, Refused(NoPublicKey))
    else if activeKey.value != publicKey then (s, Refused(InvalidSigningKey))
    else if !signatureValid then (s, Refused(InvalidRequestSignature))
    else
      match Load(s, token)
      case None => (s, Refused(InvoiceNotFound))
      case Some(inv) =>
        if ValidateTransition(inv.status, status, reason).Err? then
          (s, Refused(ValidateTransition(inv.status, status, reason).error))
        else if !io.rpcOk || token !in s.backend then (s, Refused(Internal))
        else
          var rec := s.backend[token];
          var logged := s.(backend := s.backend[token := rec.(
              changes := rec.changes + [StreamChange(publicKey, status, reason, now)])]);
          if !io.dbOk then (logged, Refused(Internal))
          else
            var text := if reason.Some? then reason.value else "";
            var updated := inv.(status := status,
                                statusChangeReason := text,
                                changes := [InvoiceChange(publicKey, status, text, now)]);
            (logged.(invoices := UpdateInvoice(s.invoices, updated)), Done)
  }

  // ---------------------------------------------------------------- payments

  function PolledEntry(token: string, p: InvoicePayment): PolledPayment {
    PolledPayment(token, p.address, p.amount, p.txNotBefore, p.pollExpiry)
  }

  function Refreshed(p: InvoicePayment, now: Time): InvoicePayment {
    if p.txID != "" then p else p.(pollExpiry := now + POLL_EXPIRY_DURATION)
  }

  /** The payment rows after refreshExistingInvoicePayments; the copy held by the handler keeps its expiries. */
  function RefreshedAll(ps: seq<InvoicePayment>, now: Time): (r: seq<InvoicePayment>)
    ensures |r| == |ps|
  {
    seq(|ps|, i requires 0 <= i < |ps| => Refreshed(ps[i], now))
  }

  /** Every payment without a transaction is added to the poll map under its address, in order. */
  function PollUnpaid(polled: map<string, PolledPayment>, token: string,
                      ps: seq<InvoicePayment>): map<string, PolledPayment> {
    if ps == [] then polled
    else
      var before := PollUnpaid(polled, token, ps[..|ps| - 1]);
      var p := ps[|ps| - 1];
      if p.txID != "" then before else before[p.address := PolledEntry(token, p)]
  }

  /** The first payment for the total cost, if there is one. */
  function FirstTotalCost(ps: seq<InvoicePayment>): (r: Option<nat>)
    ensures r.Some? ==> r.value < |ps| && ps[r.value].isTotalCost
    ensures r.Some? ==> forall i | 0 <= i < r.value :: !ps[i].isTotalCost
    ensures r.None? ==> forall i | 0 <= i < |ps| :: !ps[i].isTotalCost
  {
    if ps == [] then None
    else if ps[0].isTotalCost then Some(0)
    else
      var k :- FirstTotalCost(ps[1..]);
      Some(k + 1)
  }

  /** The first payment with the given address and amount, if there is one. */
  function FirstMatch(ps: seq<InvoicePayment>, address: string, amount: uint64): (r: Option<nat>)
    ensures r.Some? ==> r.value < |ps| && ps[r.value].address == address && ps[r.value].amount == amount
    ensures r.Some? ==> forall i | 0 <= i < r.value :: !(ps[i].address == address && ps[i].amount == amount)
    ensures r.None? ==> forall i | 0 <= i < |ps| :: !(ps[i].address == address && ps[i].amount == amount)
  {
    if ps == [] then None
    else if ps[0].amount == amount && ps[0].address == address then Some(0)
    else
      var k :- FirstMatch(ps[1..], address, amount);
      Some(k + 1)
  }

  /** A zero cost asks for the total of the invoice file. */
  function CostOf(env: Env, file: File, costUSD: uint64): Option<uint64> {
    if costUSD != 0 then Some(costUSD)
    else
      var records :- env.parse(file.payload);
      var totals := InvoiceFile.TotalsOf(records);
      if totals.Ok? then Some(totals.value.costUSD) else None
  }

  /** The row's file, or else the one politeiad holds. */
  function FileFor(s: State, inv: Invoice): Option<File> {
    if inv.file.Some? then inv.file
    else if inv.token in s.backend then Some(s.backend[inv.token].file)
    else None
  }

  /** HandlePayInvoice: refreshes the unpaid payments, then creates a payment under a newly derived address. */
  function Pay(s: State, env: Env, token: string, costUSD: uint64, rate: real, now: Time, io: Io): (State, Reply) {
    match Load(s, token)
    case None => (s, Refused(InvoiceNotFound))
    case Some(inv) =>
      match FileFor(s, inv)
      case None => (s, Refused(Internal))
      case Some(file) =>
        CreatePayment(Refresh(s, inv, now), env, inv.(file := Some(file)), costUSD == 0, CostOf(env, file, costUSD),
            rate, now, io)
  }

  function Refresh(s: State, inv: Invoice, now: Time): State
    requires inv.token in s.invoices
  {
    var ps := RefreshedAll(inv.payments, now);
    s.(invoices := s.invoices[inv.token := s.invoices[inv.token].(payments := ps)],
       polled := PollUnpaid(s.polled, inv.token, ps))
  }

  /** derivePaymentInfo takes the index modulo 2^32 and counts it up; it is spent even if the payment then fails. */
  function SpendIndex(users: Users, uid: uint64): Users
    requires uid in users
  {
    var u := users[uid];
    users[uid := u.(paymentAddressIndex := (u.paymentAddressIndex + 1) % TWO_TO_THE_64)]
  }

  /** The new or recreated payment: an existing total-cost payment keeps its place and its transaction. */
  function NewPayment(inv: Invoice, k: Option<nat>, isTotalCost: bool, address: string, amount: uint64,
                      now: Time): InvoicePayment
    requires k.Some? ==> k.value < |inv.payments|
  {
    var expiry := now + POLL_EXPIRY_DURATION;
    if k.Some?
    then inv.payments[k.value].(isTotalCost := true, address := address, amount := amount, txNotBefore := now,
        pollExpiry := expiry)
    else InvoicePayment(inv.token, isTotalCost, address, amount, now, expiry, "")
  }

  /** createInvoicePayment, from the moment the cost, the address and the amount are known. */
  function StorePayment(s: State, env: Env, inv: Invoice, k: Option<nat>, p: InvoicePayment, issue: Issue,
                        io: Io): (State, Reply)
    requires inv.token in s.invoices && (k.Some? ==> k.value < |inv.payments| == |s.invoices[inv.token].payments|)
  {
    var token := inv.token;
    var ps := if k.Some? then inv.payments[k.value := p] else inv.payments + [p];
    if !io.rpcOk || token !in s.backend then (s, Refused(Internal))
    else
      var logged := s.(backend := s.backend[token := s.backend[token].(payments := env.encode(ps))],
                       issued := s.issued + [issue]);
      if !io.dbOk then (logged, Refused(Internal))
      else
        var row := s.invoices[token];
        var rows := if k.Some? then s.invoices[token := row.(payments := row.payments[k.value := p])]
                    else UpdateInvoice(s.invoices, inv.(payments := ps));
        var polled := if k.Some? then s.polled - {inv.payments[k.value].address} else s.polled;
        (logged.(invoices := rows, polled := polled[p.address := PolledEntry(token, p)]), Done)
  }

  /** createInvoicePayment for a cost that could be determined or not. */
  function CreatePayment(s: State, env: Env, inv: Invoice, isTotalCost: bool, cost: Option<uint64>, rate: real,
                         now: Time, io: Io): (State, Reply)
    requires inv.token in s.invoices && inv.userID in s.users
    requires |inv.payments| == |s.invoices[inv.token].payments|
  {
    var u := s.users[inv.userID];
    var k := if isTotalCost then FirstTotalCost(inv.payments) else None;
    if cost.None? then (s, Refused(Internal))
    else
      match env.derive(u.extendedPublicKey, u.paymentAddressIndex % TWO_TO_THE_32)
      case None => (s, Refused(Internal))
      case Some(address) =>
        if !io.indexOk then (s, Refused(Internal))
        else
          var spent := s.(users := SpendIndex(s.users, inv.userID));
          match env.atoms(cost.value, rate)
          case None => (spent, Refused(Internal))
          case Some(amount) =>
            var issue := Issue(inv.userID, u.extendedPublicKey, u.paymentAddressIndex, inv.token, address, amount, now);
            StorePayment(spent, env, inv, k, NewPayment(inv, k, isTotalCost, address, amount, now), issue, io)
  }

  /** updateInvoicePayment on a loaded invoice: the first match gets the transaction, and the invoice is Paid. */
  function Credit(s: State, env: Env, inv: Invoice, address: string, amount: uint64, txID: string, now: Time,
                  io: Io): (State, Reply) {
    match FirstMatch(inv.payments, address, amount)
    case None => (s, Refused(PaymentNotFound))
    case Some(k) =>
      if !io.rpcOk || inv.token !in s.backend then (s, Refused(Internal))
      else
        var ps := inv.payments[k := inv.payments[k].(txID := txID)];
        var rec := s.backend[inv.token];
        var logged := s.(backend := s.backend[inv.token := rec.(
            payments := env.encode(ps),
            changes := if inv.status.Paid? then rec.changes else rec.changes + [StreamChange("", Paid, None, now)])]);
        if !io.dbOk then (logged, Refused(Internal))
        else
          var paid := inv.(payments := ps,
                           status := Paid,
                           changes := if inv.status.Paid? then inv.changes
                               else inv.changes + [InvoiceChange("", Paid, "", now)]);
          (logged.(invoices := UpdateInvoice(s.invoices, paid)), Done)
  }

  function UpdatePayment(s: State, env: Env, token: string, address: string, amount: uint64, txID: string, now: Time,
                         io: Io): (State, Reply) {
    match Load(s, token)
    case None => (s, Refused(InvoiceNotFound))
    case Some(inv) => Credit(s, env, inv, address, amount, txID, now, io)
  }

  // ---------------------------------------------------------------- the payment checker

  /** The block explorers fail, find nothing, or find a transaction. */
  datatype Lookup = LookupFailed | NothingFound | Found(txID: string)

  function TakeSnapshot(s: State): State {
    s.(poller := Checking(s.polled, []))
  }

  /** One iteration of checkForInvoicePayments. An expired entry queues the invoice token, not its own key. */
  function CheckEntry(s: State, env: Env, key: string, lookup: Lookup, now: Time, io: Io): (State, Reply)
    requires s.poller.Checking? && key in s.poller.snapshot
  {
    var entry := s.poller.snapshot[key];
    var rest := s.poller.snapshot - {key};
    var skip := s.(poller := Checking(rest, s.poller.toRemove));
    match Load(s, entry.token)
    case None => (skip, Skipped)
    case Some(inv) =>
      if inv.status.Paid? then (s.(poller := Checking(rest, s.poller.toRemove + [key])), Skipped)
      else if now > entry.pollExpiry then (s.(poller := Checking(rest, s.poller.toRemove + [inv.token])), Skipped)
      else if !lookup.Found? || lookup.txID == "" then (skip, Skipped)
      else CreditAndQueue(skip, env, inv, key, entry, lookup.txID, now, io)
  }

  /** A transaction was found: once the payment is credited its key is queued for removal. */
  function CreditAndQueue(s: State, env: Env, inv: Invoice, key: string, entry: PolledPayment, txID: string, now: Time,
                          io: Io): (State, Reply)
    requires s.poller.Checking?
  {
    var (credited, reply) := Credit(s, env, inv, entry.address, entry.amount, txID, now, io);
    if reply.Done? then (credited.(poller := Checking(s.poller.snapshot, s.poller.toRemove + [key])), Done)
    else (credited, reply)
  }

  function RemoveChecked(s: State): State
    requires s.poller.Checking?
  {
    s.(polled := s.polled - (set k | k in s.poller.toRemove), poller := Sleeping)
  }

  // ---------------------------------------------------------------- restart

  /** initializeInventory over the dropped tables: stops at the first record that cannot be replayed. */
  function LoadInventory(env: Env, keys: KeyTable, backend: map<string, Record>,
                         order: seq<string>): map<string, Invoice>
    requires forall t | t in order :: t in backend
  {
    if order == [] then map[]
    else
      var init := order[..|order| - 1];
      var token := order[|order| - 1];
      var rows := LoadInventory(env, keys, backend, init);
      var row := Replay(env, keys, token, backend[token], None);
      if row.Some? && |rows| == |init| then rows[token := row.value] else rows
  }

  /** addInvoicePaymentsForPolling: refreshes and polls the unpaid payments of the approved invoices. */
  function PollApproved(s: State, order: seq<string>, now: Time): State {
    if order == [] then s
    else
      var before := PollApproved(s, order[..|order| - 1], now);
      var token := order[|order| - 1];
      match Load(before, token)
      case None => before
      case Some(inv) => if inv.status.Approved? then Refresh(before, inv, now) else before
  }

  /** A restart drops the invoice tables and the process memory, replays every record and polls again. */
  function Restart(s: State, env: Env, order: seq<string>, now: Time): State
    requires forall t | t in order :: t in s.backend
  {
    var loaded := s.(invoices := LoadInventory(env, s.keys, s.backend, order), polled := map[], poller := Sleeping);
    PollApproved(loaded, order, now)
  }

  // ---------------------------------------------------------------- steps and runs

  datatype Step =
    | StepSubmit(uid: uint64, req: InvoiceRequest, month: uint16, year: uint16, token: string, serverSignature: string)
    | StepEdit(uid: uint64, token: string, req: InvoiceRequest, version: string)
    | StepSetStatus(uid: uint64, token: string, publicKey: string, signatureValid: bool, status: Status,
        reason: Option<string>)
    | StepPay(token: string, costUSD: uint64, rate: real)
    | StepUpdatePayment(token: string, address: string, amount: uint64, txID: string)
    | StepSnapshot
    | StepCheck(key: string, lookup: Lookup)
    | StepRemove
    | StepUser(uid: uint64, op: Op)
    | StepInvite(uid: uint64, user: User)
    | StepRestart(order: seq<string>)

  /** One step with the time it happens at and the fate of its writes. */
  datatype Event = Event(step: Step, now: Time, io: Io)

  /** The listing politeiad returns: every record exactly once. */
  ghost predicate Enumerates(order: seq<string>, backend: map<string, Record>) {
    && (forall t :: t in order <==> t in backend)
    && (forall i, j | 0 <= i < j < |order| :: order[i] != order[j])
  }

  /** What the surroundings guarantee of a step: fresh record tokens and user ids, a listing without repetition,
      a checker that finishes its copy before it removes, and user calls as Accounts describes them. */
  ghost predicate Enabled(s: State, e: Event) {
    match e.step
    case StepSubmit(_, _, _, _, token, _) => token !in s.backend
    case StepCheck(key, _) => s.poller.Checking? && key in s.poller.snapshot
    case StepRemove => s.poller.Checking? && s.poller.snapshot == map[]
    case StepUser(uid, op) => uid in s.users && ChecksAgree(s.keys, uid, op) && CanCall(s.users[uid], op)
    case StepInvite(uid, user) => uid !in s.users && uid != 0 && user.identities == []
    case StepRestart(order) => Enumerates(order, s.backend)
    case _ => true
  }

  /** UpdateUser: the user's row is replaced and a new identity's row is inserted. */
  function SaveUser(s: State, uid: uint64, v: User): State
    requires uid in s.users
  {
    s.(users := s.users[uid := v], keys := KeysAfter(s.keys, uid, s.users[uid], v))
  }

  ghost function Next(s: State, env: Env, e: Event): (State, Reply)
    requires Enabled(s, e)
  {
    match e.step
    case StepSubmit(uid, req, month, year, token, sig) =>
        Submit(s, env, uid, KeyOf(s.users, uid), req, month, year, token, sig, e.now, e.io)
    case StepEdit(uid, token, req, version) => Edit(s, env, KeyOf(s.users, uid), token, req, version, e.now, e.io)
    case StepSetStatus(uid, token, key, valid, status, reason) =>
        SetStatus(s, KeyOf(s.users, uid), token, key, valid, status, reason, e.now, e.io)
    case StepPay(token, costUSD, rate) => Pay(s, env, token, costUSD, rate, e.now, e.io)
    case StepUpdatePayment(token, address, amount, txID) =>
        UpdatePayment(s, env, token, address, amount, txID, e.now, e.io)
    case StepSnapshot => (TakeSnapshot(s), Done)
    case StepCheck(key, lookup) => CheckEntry(s, env, key, lookup, e.now, e.io)
    case StepRemove => (RemoveChecked(s), Done)
    case StepUser(uid, op) => (SaveUser(s, uid, Apply(s.users[uid], op, e.now).0), Done)
    case StepInvite(uid, user) => (s.(users := s.users[uid := user]), Done)
    case StepRestart(order) => (Restart(s, env, order, e.now), Done)
  }
}
