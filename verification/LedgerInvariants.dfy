/** What every reachable ledger state satisfies, and the proof that every step keeps it. */
module LedgerInvariants {
  import opened Wrappers
  import opened MachineInts
  import opened Database
  import opened Accounts
  import opened Ledger
  import Hex
  import PaymentStream

  // ---------------------------------------------------------------- the change log

  /** The three kinds of change: an administrator's, from the transition table; an edit; a payment. */
  predicate Follows(from: Status, c: StreamChange) {
    || (c.adminPublicKey != "" && ValidateTransition(from, c.newStatus, c.reason).Ok?)
    || (c.adminPublicKey == "" && c.reason.None? && c.newStatus.UnreviewedChanges?)
    || (c.adminPublicKey == "" && c.reason.None? && c.newStatus.Paid? && !from.Paid?)
  }

  predicate Grammar(cs: seq<StreamChange>) {
    && cs != []
    && cs[0].newStatus.NotReviewed? && cs[0].adminPublicKey == "" && cs[0].reason.None?
    && forall i | 1 <= i < |cs| :: Follows(cs[i - 1].newStatus, cs[i])
  }

  lemma GrammarSnoc(cs: seq<StreamChange>, c: StreamChange)
    requires Grammar(cs) && Follows(LastStatus(cs), c)
    ensures Grammar(cs + [c])
  {
    forall i | 1 <= i < |cs + [c]| ensures Follows((cs + [c])[i - 1].newStatus, (cs + [c])[i]) {
      if i < |cs| {
        assert (cs + [c])[i] == cs[i];
      }
    }
  }

  predicate WasPaid(cs: seq<StreamChange>) {
    exists i | 0 <= i < |cs| :: cs[i].newStatus.Paid?
  }

  // ---------------------------------------------------------------- one invoice

  /** At most one payment is for the total cost, and no address is used twice. */
  predicate PaymentsDistinct(ps: seq<InvoicePayment>) {
    forall i, j | 0 <= i < j < |ps| :: !(ps[i].isTotalCost && ps[j].isTotalCost) && ps[i].address != ps[j].address
  }

  predicate Fits(issue: Issue, token: string, address: string, amount: uint64, txNotBefore: int64) {
    issue.token == token && issue.address == address && issue.amount == amount && issue.txNotBefore == txNotBefore
  }

  predicate IssuedAs(issued: seq<Issue>, token: string, address: string, amount: uint64, txNotBefore: int64) {
    exists j | 0 <= j < |issued| :: Fits(issued[j], token, address, amount, txNotBefore)
  }

  predicate PaymentsIssued(issued: seq<Issue>, token: string, ps: seq<InvoicePayment>) {
    forall i | 0 <= i < |ps| :: IssuedAs(issued, token, ps[i].address, ps[i].amount, ps[i].txNotBefore)
  }

  function Owner(keys: KeyTable, publicKey: string): Option<uint64> {
    if publicKey in keys then Some(keys[publicKey]) else None
  }

  /** The row says what the record says. */
  predicate Synced(env: Env, keys: KeyTable, token: string, row: Invoice, rec: Record) {
    && row.token == token
    && Owner(keys, rec.general.publicKey) == Some(row.userID)
    && row.month == rec.general.month && row.year == rec.general.year
    && row.status == LastStatus(rec.changes)
    && row.changes == ConvertChanges(rec.changes)
    && rec.payments == env.encode(row.payments)
  }

  predicate RowOk(env: Env, keys: KeyTable, issued: seq<Issue>, token: string, row: Invoice, rec: Record) {
    && Synced(env, keys, token, row, rec)
    && Grammar(rec.changes)
    && PaymentsDistinct(row.payments)
    && PaymentsIssued(issued, token, row.payments)
  }

  // ---------------------------------------------------------------- the whole state

  /** Owners of keys never change. */
  predicate KeysGrow(keys: KeyTable, after: KeyTable) {
    forall keyText | keyText in keys :: keyText in after && after[keyText] == keys[keyText]
  }

  /** Address indices never shrink. */
  predicate UsersGrow(users: Users, after: Users) {
    forall uid | uid in users :: uid in after && users[uid].paymentAddressIndex <= after[uid].paymentAddressIndex
  }

  predicate IndexBounded(users: Users) {
    forall uid | uid in users :: users[uid].paymentAddressIndex <= TWO_TO_THE_32
  }

  /** An issue belongs to the owner of its invoice and used up an index below the owner's current one. */
  predicate IssueOk(env: Env, users: Users, invoices: map<string, Invoice>, issue: Issue) {
    && issue.token in invoices && invoices[issue.token].userID == issue.uid
    && issue.uid in users && issue.index < users[issue.uid].paymentAddressIndex && issue.index < TWO_TO_THE_32
    && env.derive(issue.extendedPublicKey, issue.index) == Some(issue.address)
  }

  predicate IssuesOk(env: Env, users: Users, invoices: map<string, Invoice>, issued: seq<Issue>) {
    && (forall j | 0 <= j < |issued| :: IssueOk(env, users, invoices, issued[j]))
    && (forall i, j | 0 <= i < j < |issued| :: issued[i].uid == issued[j].uid ==> issued[i].index < issued[j].index)
  }

  /** Every polled entry sits under its own address and is some payment as it was issued. */
  predicate PolledOk(issued: seq<Issue>, polled: map<string, PolledPayment>) {
    forall key | key in polled ::
      polled[key].address == key &&
      IssuedAs(issued, polled[key].token, key, polled[key].amount, polled[key].txNotBefore)
  }

  /** A queued key is an invoice token, or an address of an invoice whose log shows it was Paid. */
  predicate Removable(issued: seq<Issue>, backend: map<string, Record>, key: string) {
    key in backend ||
    exists j | 0 <= j < |issued| ::
      issued[j].address == key && issued[j].token in backend && WasPaid(backend[issued[j].token].changes)
  }

  predicate PollerOk(issued: seq<Issue>, backend: map<string, Record>, poller: Poller) {
    poller.Checking? ==>
      PolledOk(issued, poller.snapshot) && forall key | key in poller.toRemove :: Removable(issued, backend, key)
  }

  predicate SamePeriod(a: Invoice, b: Invoice) {
    a.userID == b.userID && a.month == b.month && a.year == b.year
  }

  predicate OnePerPeriod(invoices: map<string, Invoice>) {
    forall t, t' | t in invoices && t' in invoices ::
      SamePeriod(invoices[t], invoices[t']) ==> t == t'
  }

  predicate RowsOk(env: Env, s: State) {
    && s.invoices.Keys == s.backend.Keys
    && forall t | t in s.invoices :: RowOk(env, s.keys, s.issued, t, s.invoices[t], s.backend[t])
  }

  predicate Inv(env: Env, s: State) {
    && TableOk(s.users, s.keys)
    && RowsOk(env, s)
    && IssuesOk(env, s.users, s.invoices, s.issued)
    && PolledOk(s.issued, s.polled)
    && PollerOk(s.issued, s.backend, s.poller)
    && OnePerPeriod(s.invoices)
  }

  // ---------------------------------------------------------------- the payments stream

  /** What the proofs need of the streams: printing keeps all but the poll expiry and the stamped token, an empty
      list prints as the empty stream, and a printed list is recovered. */
  ghost predicate GoodStreams(env: Env) {
    && env.encode([]) == ""
    && (forall ps, qs :: PaymentStream.Recovered("", ps) == PaymentStream.Recovered("", qs) ==>
        env.encode(ps) == env.encode(qs))
    && (forall token, ps :: env.decode(token, env.encode(ps)) == Some(PaymentStream.Recovered(token, ps)))
  }

  /** Address derivation never gives one address for two keys or two indices. */
  ghost predicate InjectiveEnv(env: Env) {
    forall x, i, y, j :: env.derive(x, i).Some? && env.derive(x, i) == env.derive(y, j) ==> x == y && i == j
  }

  ghost predicate GoodEnv(env: Env) {
    GoodStreams(env) && InjectiveEnv(env)
  }

  /** The JSON streams are good ones. */
  lemma JsonStreamsAreGood(env: Env)
    requires JsonStreams(env)
    ensures GoodStreams(env)
  {
    assert PaymentStream.ToStreamAll([]) == [];
    assert PaymentStream.Payload([]) == "";
    forall token, ps ensures env.decode(token, env.encode(ps)) == Some(PaymentStream.Recovered(token, ps)) {
      PaymentStream.RecoverPayload(token, ps);
    }
    forall ps, qs | PaymentStream.Recovered("", ps) == PaymentStream.Recovered("", qs)
      ensures env.encode(ps) == env.encode(qs) {
      PaymentStream.PayloadIgnoresExpiry("", ps);
      PaymentStream.PayloadIgnoresExpiry("", qs);
    }
  }

  lemma SamePrint(env: Env, ps: seq<InvoicePayment>, qs: seq<InvoicePayment>)
    requires GoodStreams(env) && |ps| == |qs|
    requires forall i | 0 <= i < |ps| :: ps[i].(invoiceToken := "", pollExpiry := 0) ==
              qs[i].(invoiceToken := "", pollExpiry := 0)
    ensures env.encode(ps) == env.encode(qs)
  {
    assert PaymentStream.Recovered("", ps) == PaymentStream.Recovered("", qs);
  }

  // ---------------------------------------------------------------- frames

  lemma IssuedGrow(issued: seq<Issue>, after: seq<Issue>, token: string, address: string, amount: uint64,
                   txNotBefore: int64)
    requires issued <= after && IssuedAs(issued, token, address, amount, txNotBefore)
    ensures IssuedAs(after, token, address, amount, txNotBefore)
  {
    var j :| 0 <= j < |issued| && Fits(issued[j], token, address, amount, txNotBefore);
    assert after[j] == issued[j];
  }

  lemma PaymentsGrow(issued: seq<Issue>, after: seq<Issue>, token: string, ps: seq<InvoicePayment>)
    requires issued <= after && PaymentsIssued(issued, token, ps)
    ensures PaymentsIssued(after, token, ps)
  {
    forall i | 0 <= i < |ps| ensures IssuedAs(after, token, ps[i].address, ps[i].amount, ps[i].txNotBefore) {
      IssuedGrow(issued, after, token, ps[i].address, ps[i].amount, ps[i].txNotBefore);
    }
  }

  lemma PolledGrow(issued: seq<Issue>, after: seq<Issue>, polled: map<string, PolledPayment>)
    requires issued <= after && PolledOk(issued, polled)
    ensures PolledOk(after, polled)
  {
    forall key | key in polled
      ensures polled[key].address == key && IssuedAs(after, polled[key].token, key, polled[key].amount,
                polled[key].txNotBefore)
    {
      IssuedGrow(issued, after, polled[key].token, key, polled[key].amount, polled[key].txNotBefore);
    }
  }

  /** Records only gain changes; none is taken back and no record disappears. */
  predicate LogGrows(backend: map<string, Record>, after: map<string, Record>) {
    forall t | t in backend :: t in after && backend[t].changes <= after[t].changes
  }

  lemma RemovableGrow(issued: seq<Issue>, backend: map<string, Record>, issued': seq<Issue>,
                      backend': map<string, Record>, key: string)
    requires issued <= issued' && LogGrows(backend, backend') && Removable(issued, backend, key)
    ensures Removable(issued', backend', key)
  {
    if key !in backend {
      var j :| 0 <= j < |issued| && issued[j].address == key && issued[j].token in backend &&
          WasPaid(backend[issued[j].token].changes);
      var cs, cs' := backend[issued[j].token].changes, backend'[issued[j].token].changes;
      var i :| 0 <= i < |cs| && cs[i].newStatus.Paid?;
      assert cs'[i] == cs[i];
      assert issued'[j] == issued[j];
    }
  }

  lemma PollerGrow(issued: seq<Issue>, backend: map<string, Record>, issued': seq<Issue>,
                   backend': map<string, Record>, poller: Poller)
    requires issued <= issued' && LogGrows(backend, backend') && PollerOk(issued, backend, poller)
    ensures PollerOk(issued', backend', poller)
  {
    if poller.Checking? {
      PolledGrow(issued, issued', poller.snapshot);
      forall key | key in poller.toRemove ensures Removable(issued', backend', key) {
        RemovableGrow(issued, backend, issued', backend', key);
      }
    }
  }

  /** What a step may do to the rows: leave each untouched row alone, and keep owner and period of all. */
  predicate RowsKept(s: State, after: State, token: string) {
    && after.invoices.Keys == s.invoices.Keys
    && after.backend.Keys == s.backend.Keys
    && s.invoices.Keys == s.backend.Keys && token in s.invoices
    && (forall t | t in s.invoices && t != token ::
        after.invoices[t] == s.invoices[t] && after.backend[t] == s.backend[t])
    && SamePeriod(after.invoices[token], s.invoices[token])
    && s.backend[token].changes <= after.backend[token].changes
  }

  lemma OtherRow(env: Env, keys: KeyTable, keys': KeyTable, issued: seq<Issue>, issued': seq<Issue>, t: string,
                 row: Invoice, rec: Record)
    requires RowOk(env, keys, issued, t, row, rec) && KeysGrow(keys, keys') && issued <= issued'
    ensures RowOk(env, keys', issued', t, row, rec)
  {
    PaymentsGrow(issued, issued', t, row.payments);
  }

  lemma RowsStep(env: Env, s: State, after: State, token: string)
    requires RowsOk(env, s) && RowsKept(s, after, token) && KeysGrow(s.keys, after.keys) && s.issued <= after.issued
    requires RowOk(env, after.keys, after.issued, token, after.invoices[token], after.backend[token])
    ensures RowsOk(env, after)
  {
    forall t | t in after.invoices
      ensures RowOk(env, after.keys, after.issued, t, after.invoices[t], after.backend[t]) {
      if t != token {
        OtherRow(env, s.keys, after.keys, s.issued, after.issued, t, s.invoices[t], s.backend[t]);
      }
    }
  }

  /** A step on one invoice keeps the invariant once that invoice, the poll map and the issues are in order. */
  lemma OneRowStep(env: Env, s: State, after: State, token: string)
    requires Inv(env, s) && RowsKept(s, after, token)
    requires TableOk(after.users, after.keys) && KeysGrow(s.keys, after.keys) && s.issued <= after.issued
    requires RowOk(env, after.keys, after.issued, token, after.invoices[token], after.backend[token])
    requires IssuesOk(env, after.users, after.invoices, after.issued)
    requires PolledOk(after.issued, after.polled) && after.poller == s.poller
    ensures Inv(env, after)
  {
    RowsStep(env, s, after, token);
    LogKept(s, after, token);
    PollerGrow(s.issued, s.backend, after.issued, after.backend, s.poller);
    PeriodsKept(s, after, token);
  }

  lemma LogKept(s: State, after: State, token: string)
    requires RowsKept(s, after, token)
    ensures LogGrows(s.backend, after.backend)
  {
  }

  lemma ReplacedRow(s: State, token: string, row': Invoice, rec': Record, after: State)
    requires s.invoices.Keys == s.backend.Keys && token in s.invoices
    requires SamePeriod(row', s.invoices[token]) && s.backend[token].changes <= rec'.changes
    requires after.invoices == s.invoices[token := row'] && after.backend == s.backend[token := rec']
    ensures RowsKept(s, after, token) && after.invoices[token] == row' && after.backend[token] == rec'
  {
  }

  /** Replacing one row and its record, with nothing else changed. */
  lemma RowUpdated(env: Env, s: State, token: string, row': Invoice, rec': Record)
    requires Inv(env, s) && token in s.invoices && RowOk(env, s.keys, s.issued, token, row', rec')
    requires SamePeriod(row', s.invoices[token]) && s.backend[token].changes <= rec'.changes
    ensures Inv(env, s.(invoices := s.invoices[token := row'], backend := s.backend[token := rec']))
  {
    var after := s.(invoices := s.invoices[token := row'], backend := s.backend[token := rec']);
    ReplacedRow(s, token, row', rec', after);
    IssuesKept(env, s, after, token);
    OneRowStep(env, s, after, token);
  }

  lemma PeriodsKept(s: State, after: State, token: string)
    requires OnePerPeriod(s.invoices) && RowsKept(s, after, token)
    ensures OnePerPeriod(after.invoices)
  {
    forall t | t in after.invoices
      ensures SamePeriod(after.invoices[t], s.invoices[t])
    {
    }
  }

  lemma IssuesKept(env: Env, s: State, after: State, token: string)
    requires RowsKept(s, after, token) && UsersGrow(s.users, after.users)
    requires IssuesOk(env, s.users, s.invoices, s.issued)
    ensures IssuesOk(env, after.users, after.invoices, s.issued)
  {
    forall j | 0 <= j < |s.issued| ensures IssueOk(env, after.users, after.invoices, s.issued[j]) {
      assert IssueOk(env, s.users, s.invoices, s.issued[j]);
    }
  }

  // ---------------------------------------------------------------- change-log steps

  /** Appending one change to the record and the same change to the row keeps them in step. */
  lemma AppendChange(env: Env, keys: KeyTable, issued: seq<Issue>, token: string, row: Invoice, rec: Record,
                     row': Invoice, rec': Record, c: StreamChange)
    requires RowOk(env, keys, issued, token, row, rec)
    requires Follows(LastStatus(rec.changes), c)
    requires rec'.changes == rec.changes + [c]
    requires row'.changes == row.changes + [ConvertChange(c)] && row'.status == c.newStatus
    requires row'.token == token && row'.userID == row.userID && row'.month == row.month && row'.year == row.year
    requires Owner(keys, rec'.general.publicKey) == Some(row.userID)
    requires rec'.general.month == row.month && rec'.general.year == row.year
    requires rec'.payments == env.encode(row'.payments)
    requires PaymentsDistinct(row'.payments) && PaymentsIssued(issued, token, row'.payments)
    ensures RowOk(env, keys, issued, token, row', rec')
  {
    GrammarSnoc(rec.changes, c);
    assert ConvertChanges(rec.changes + [c]) == ConvertChanges(rec.changes) + [ConvertChange(c)];
  }

  /** Saving an invoice with one new change puts that change, without its reason, on the change table. */
  lemma SaveWithChange(invoices: map<string, Invoice>, inv: Invoice, c: InvoiceChange)
    requires inv.token in invoices && inv.changes == [c]
    ensures UpdateInvoice(invoices, inv) ==
            invoices[inv.token := inv.(changes := invoices[inv.token].changes + [c.(reason := "")],
                status := c.newStatus)]
  {
    assert StripReasons([c]) == [c.(reason := "")];
  }

  lemma SetStatusStep(s: State, env: Env, activeKey: Option<string>, token: string, publicKey: string,
                      signatureValid: bool, status: Status, reason: Option<string>, now: Time, io: Io)
    requires Inv(env, s) && io.dbOk && activeKey != Some("")
    ensures Inv(env, SetStatus(s, activeKey, token, publicKey, signatureValid, status, reason, now, io).0)
  {
    var (after, reply) := SetStatus(s, activeKey, token, publicKey, signatureValid, status, reason, now, io);
    if reply.Done? {
      var row, rec := s.invoices[token], s.backend[token];
      assert RowOk(env, s.keys, s.issued, token, row, rec);
      var c := StreamChange(publicKey, status, reason, now);
      var text := if reason.Some? then reason.value else "";
      var saved := Load(s, token).value.(status := status, statusChangeReason := text,
          changes := [InvoiceChange(publicKey, status, text, now)]);
      SaveWithChange(s.invoices, saved, saved.changes[0]);
      var row' := saved.(changes := row.changes + [ConvertChange(c)]);
      var rec' := rec.(changes := rec.changes + [c]);
      AppendChange(env, s.keys, s.issued, token, row, rec, row', rec', c);
      RowUpdated(env, s, token, row', rec');
      assert after == s.(invoices := s.invoices[token := row'], backend := s.backend[token := rec']);
    }
  }

  lemma KeyNotEmpty(users: Users, keys: KeyTable, uid: uint64)
    requires TableOk(users, keys)
    ensures KeyOf(users, uid) != Some("")
  {
    if uid in users {
      assert KeysListed(users[uid], uid, keys);
    }
  }

  /** An owner's edit keeps row and record in step: the active key it signs with resolves to the owner. */
  lemma EditStep(s: State, env: Env, activeKey: Option<string>, token: string, req: InvoiceRequest, version: string,
                 now: Time, io: Io)
    requires Inv(env, s) && io.dbOk
    requires token in s.invoices && activeKey.Some? ==> Owner(s.keys, activeKey.value) == Some(s.invoices[token].userID)
    ensures Inv(env, Edit(s, env, activeKey, token, req, version, now, io).0)
  {
    var (after, reply) := Edit(s, env, activeKey, token, req, version, now, io);
    if reply.Done? {
      var row, rec := s.invoices[token], s.backend[token];
      assert RowOk(env, s.keys, s.issued, token, row, rec);
      var c := StreamChange("", UnreviewedChanges, None, now);
      var saved := Load(s, token).value.(version := version, status := UnreviewedChanges,
          changes := [InvoiceChange("", UnreviewedChanges, "", now)]);
      SaveWithChange(s.invoices, saved, saved.changes[0]);
      var row' := saved.(changes := row.changes + [ConvertChange(c)]);
      var rec' := after.backend[token];
      AppendChange(env, s.keys, s.issued, token, row, rec, row', rec', c);
      RowUpdated(env, s, token, row', rec');
      assert after == s.(invoices := s.invoices[token := row'], backend := s.backend[token := rec']);
    }
  }

  /** The key a session signs with resolves to the user of the session. */
  lemma ActiveKeyOwned(users: Users, keys: KeyTable, uid: uint64)
    requires TableOk(users, keys) && KeyOf(users, uid).Some?
    ensures Owner(keys, KeyOf(users, uid).value) == Some(uid)
  {
    assert KeysListed(users[uid], uid, keys);
  }

  // ---------------------------------------------------------------- submission

  lemma SubmitStep(s: State, env: Env, uid: uint64, activeKey: Option<string>, req: InvoiceRequest, month: uint16,
                   year: uint16, token: string, serverSignature: string, now: Time, io: Io)
    requires Inv(env, s) && GoodStreams(env) && io.dbOk && token !in s.backend
    requires activeKey.Some? ==> Owner(s.keys, activeKey.value) == Some(uid)
    ensures Inv(env, Submit(s, env, uid, activeKey, req, month, year, token, serverSignature, now, io).0)
  {
    var (after, reply) := Submit(s, env, uid, activeKey, req, month, year, token, serverSignature, now, io);
    if after != s {
      var rec := NewRecord(req, month, year, serverSignature, now);
      var row := Replay(env, s.keys, token, rec, Some(File(req.file.payload, "", req.file.digest)));
      assert env.decode(token, env.encode([])) == Some(PaymentStream.Recovered(token, []));
      NewRow(env, s, uid, token, row.value, rec);
      assert after == s.(backend := s.backend[token := rec], invoices := s.invoices[token := row.value]);
    }
  }

  /** A new row and its record, of a period the owner has no invoice for. */
  lemma NewRow(env: Env, s: State, uid: uint64, token: string, row: Invoice, rec: Record)
    requires Inv(env, s) && token !in s.backend && uid in s.users && row.userID == uid
    requires Synced(env, s.keys, token, row, rec) && row.payments == []
    requires |rec.changes| == 1 && Grammar(rec.changes)
    requires !exists t | t in s.invoices :: Matches(s.users, s.invoices[t], uid, row.month, row.year)
    ensures Inv(env, s.(backend := s.backend[token := rec], invoices := s.invoices[token := row]))
  {
    var after := s.(backend := s.backend[token := rec], invoices := s.invoices[token := row]);
    NewRowRows(env, s, token, row, rec);
    assert LogGrows(s.backend, after.backend);
    PollerGrow(s.issued, s.backend, s.issued, after.backend, s.poller);
    NewRowIssues(env, s, token, row);
    NewPeriod(s, uid, row, token);
  }

  lemma NewRowRows(env: Env, s: State, token: string, row: Invoice, rec: Record)
    requires RowsOk(env, s) && token !in s.backend
    requires Synced(env, s.keys, token, row, rec) && row.payments == [] && Grammar(rec.changes)
    ensures RowsOk(env, s.(backend := s.backend[token := rec], invoices := s.invoices[token := row]))
  {
    var after := s.(backend := s.backend[token := rec], invoices := s.invoices[token := row]);
    assert RowOk(env, s.keys, s.issued, token, row, rec);
    forall t | t in after.invoices ensures RowOk(env, s.keys, s.issued, t, after.invoices[t], after.backend[t]) {
      if t != token {
        RowAt(env, s, t);
      }
    }
  }

  lemma RowAt(env: Env, s: State, t: string)
    requires RowsOk(env, s) && t in s.invoices
    ensures RowOk(env, s.keys, s.issued, t, s.invoices[t], s.backend[t])
  {
  }

  lemma NewRowIssues(env: Env, s: State, token: string, row: Invoice)
    requires IssuesOk(env, s.users, s.invoices, s.issued) && token !in s.invoices
    ensures IssuesOk(env, s.users, s.invoices[token := row], s.issued)
  {
    forall j | 0 <= j < |s.issued| ensures IssueOk(env, s.users, s.invoices[token := row], s.issued[j]) {
      assert IssueOk(env, s.users, s.invoices, s.issued[j]);
    }
  }

  /** The duplicate query rules out every row of the same owner and period, also when a zero widens it. */
  lemma NewPeriod(s: State, uid: uint64, row: Invoice, token: string)
    requires OnePerPeriod(s.invoices) && uid in s.users && row.userID == uid
    requires !exists t | t in s.invoices :: Matches(s.users, s.invoices[t], uid, row.month, row.year)
    ensures OnePerPeriod(s.invoices[token := row])
  {
    forall t | t in s.invoices ensures !Matches(s.users, s.invoices[t], uid, row.month, row.year) {
    }
  }

  // ---------------------------------------------------------------- payments

  lemma {:induction false} PollUnpaidOk(issued: seq<Issue>, polled: map<string, PolledPayment>, token: string,
                                        ps: seq<InvoicePayment>)
    requires PolledOk(issued, polled) && PaymentsIssued(issued, token, ps)
    ensures PolledOk(issued, PollUnpaid(polled, token, ps))
  {
    if ps != [] {
      var init, p := ps[..|ps| - 1], ps[|ps| - 1];
      forall i | 0 <= i < |init| ensures IssuedAs(issued, token, init[i].address, init[i].amount, init[i].txNotBefore) {
        assert init[i] == ps[i];
      }
      PollUnpaidOk(issued, polled, token, init);
      assert IssuedAs(issued, token, p.address, p.amount, p.txNotBefore);
    }
  }

  lemma RefreshPayments(env: Env, issued: seq<Issue>, token: string, ps: seq<InvoicePayment>, now: Time)
    requires GoodStreams(env)
    requires PaymentsIssued(issued, token, ps) && PaymentsDistinct(ps)
    ensures PaymentsIssued(issued, token, RefreshedAll(ps, now)) && PaymentsDistinct(RefreshedAll(ps, now))
    ensures env.encode(RefreshedAll(ps, now)) == env.encode(ps)
  {
    SamePrint(env, RefreshedAll(ps, now), ps);
    forall i | 0 <= i < |ps|
      ensures IssuedAs(issued, token, RefreshedAll(ps, now)[i].address, RefreshedAll(ps, now)[i].amount,
                RefreshedAll(ps, now)[i].txNotBefore)
    {
      assert IssuedAs(issued, token, ps[i].address, ps[i].amount, ps[i].txNotBefore);
    }
  }

  lemma RefreshStep(env: Env, s: State, inv: Invoice, now: Time)
    requires Inv(env, s) && GoodStreams(env) && inv.token in s.invoices &&
              inv.payments == s.invoices[inv.token].payments
    ensures Inv(env, Refresh(s, inv, now))
  {
    var token := inv.token;
    var row := s.invoices[token];
    var ps := RefreshedAll(row.payments, now);
    var row' := row.(payments := ps);
    RefreshedRowOk(env, s, token, now);
    RowReplaced(env, s, token, row');
    PollUnpaidOk(s.issued, s.polled, token, ps);
    PollMapStep(env, s.(invoices := s.invoices[token := row']), PollUnpaid(s.polled, token, ps));
  }

  /** Replacing one row, with its record as it was. */
  lemma RowReplaced(env: Env, s: State, token: string, row': Invoice)
    requires Inv(env, s) && token in s.invoices && SamePeriod(row', s.invoices[token])
    requires RowOk(env, s.keys, s.issued, token, row', s.backend[token])
    ensures Inv(env, s.(invoices := s.invoices[token := row']))
  {
    RowUpdated(env, s, token, row', s.backend[token]);
    assert s.backend[token := s.backend[token]] == s.backend;
  }

  lemma RefreshedRowOk(env: Env, s: State, token: string, now: Time)
    requires RowsOk(env, s) && GoodStreams(env) && token in s.invoices
    ensures var row := s.invoices[token];
            var row' := row.(payments := RefreshedAll(row.payments, now));
            && RowOk(env, s.keys, s.issued, token, row', s.backend[token])
            && PaymentsIssued(s.issued, token, row'.payments)
  {
    var row := s.invoices[token];
    assert RowOk(env, s.keys, s.issued, token, row, s.backend[token]);
    RefreshPayments(env, s.issued, token, row.payments, now);
  }

  lemma PollMapStep(env: Env, s: State, polled: map<string, PolledPayment>)
    requires Inv(env, s) && PolledOk(s.issued, polled)
    ensures Inv(env, s.(polled := polled))
  {
  }

  lemma SpendIndexStep(env: Env, s: State, uid: uint64)
    requires Inv(env, s) && uid in s.users && s.users[uid].paymentAddressIndex < TWO_TO_THE_32
    ensures Inv(env, s.(users := SpendIndex(s.users, uid)))
    ensures UsersGrow(s.users, SpendIndex(s.users, uid))
  {
    var users := SpendIndex(s.users, uid);
    SpendKeepsTable(s.users, s.keys, uid);
    UsersStep(env, s, users, s.keys);
    assert s.(users := users) == s.(users := users, keys := s.keys);
  }

  lemma SpendKeepsTable(users: Users, keys: KeyTable, uid: uint64)
    requires TableOk(users, keys) && uid in users
    ensures TableOk(SpendIndex(users, uid), keys)
  {
    var after := SpendIndex(users, uid);
    assert KeysListed(users[uid], uid, keys);
    assert KeysListed(after[uid], uid, keys);
    forall keyText | keyText in keys ensures HoldsKey(after[keys[keyText]], keyText) {
      assert HoldsKey(users[keys[keyText]], keyText);
      HeldStaysAsIs(users[keys[keyText]], after[keys[keyText]], keyText);
    }
  }

  lemma HeldStaysAsIs(u: User, v: User, keyText: string)
    requires HoldsKey(u, keyText) && v.identities == u.identities
    ensures HoldsKey(v, keyText)
  {
  }

  /** Users may come, gain keys and spend indices without disturbing anything else. */
  lemma UsersStep(env: Env, s: State, users: Users, keys: KeyTable)
    requires Inv(env, s) && TableOk(users, keys) && UsersGrow(s.users, users) && KeysGrow(s.keys, keys)
    ensures Inv(env, s.(users := users, keys := keys))
  {
    var after := s.(users := users, keys := keys);
    forall t | t in s.invoices ensures RowOk(env, keys, s.issued, t, s.invoices[t], s.backend[t]) {
      assert RowOk(env, s.keys, s.issued, t, s.invoices[t], s.backend[t]);
    }
    forall j | 0 <= j < |s.issued| ensures IssueOk(env, users, s.invoices, s.issued[j]) {
      assert IssueOk(env, s.users, s.invoices, s.issued[j]);
    }
  }

  /** The state just before the payment is stored: the index has been spent on this very address. */
  predicate Derived(env: Env, s: State, issue: Issue) {
    && issue.uid in s.users && issue.index < TWO_TO_THE_32
    && s.users[issue.uid].paymentAddressIndex == issue.index + 1
    && env.derive(issue.extendedPublicKey, issue.index) == Some(issue.address)
    && (forall j | 0 <= j < |s.issued| :: s.issued[j].uid == issue.uid ==> s.issued[j].index < issue.index)
  }

  lemma NewPaymentOk(issued: seq<Issue>, issue: Issue, inv: Invoice, k: Option<nat>, isTotalCost: bool, now: Time)
    requires PaymentsDistinct(inv.payments) && PaymentsIssued(issued, inv.token, inv.payments)
    requires issue.token == inv.token && issue.txNotBefore == now
    requires forall i | 0 <= i < |inv.payments| :: inv.payments[i].address != issue.address
    requires k == if isTotalCost then FirstTotalCost(inv.payments) else None
    ensures var p := NewPayment(inv, k, isTotalCost, issue.address, issue.amount, now);
            var ps := if k.Some? then inv.payments[k.value := p] else inv.payments + [p];
            PaymentsDistinct(ps) && PaymentsIssued(issued + [issue], inv.token, ps)
  {
    var p := NewPayment(inv, k, isTotalCost, issue.address, issue.amount, now);
    var ps := if k.Some? then inv.payments[k.value := p] else inv.payments + [p];
    forall i | 0 <= i < |ps|
      ensures IssuedAs(issued + [issue], inv.token, ps[i].address, ps[i].amount, ps[i].txNotBefore) {
      if i < |inv.payments| && !(k.Some? && i == k.value) {
        assert ps[i] == inv.payments[i];
        IssuedGrow(issued, issued + [issue], inv.token, ps[i].address, ps[i].amount, ps[i].txNotBefore);
      } else {
        assert Fits((issued + [issue])[|issued|], inv.token, ps[i].address, ps[i].amount, ps[i].txNotBefore);
      }
    }
  }

  /** An address derived at an index never used before is new among the payments of the owner's invoices. */
  lemma FreshAddress(env: Env, s: State, inv: Invoice, issue: Issue)
    requires InjectiveEnv(env) && IssuesOk(env, s.users, s.invoices, s.issued) && Derived(env, s, issue)
    requires inv.token in s.invoices && s.invoices[inv.token].userID == issue.uid
    requires PaymentsIssued(s.issued, inv.token, inv.payments)
    ensures forall i | 0 <= i < |inv.payments| :: inv.payments[i].address != issue.address
  {
    forall i | 0 <= i < |inv.payments| ensures inv.payments[i].address != issue.address {
      var p := inv.payments[i];
      assert IssuedAs(s.issued, inv.token, p.address, p.amount, p.txNotBefore);
      var j :| 0 <= j < |s.issued| && Fits(s.issued[j], inv.token, p.address, p.amount, p.txNotBefore);
      assert IssueOk(env, s.users, s.invoices, s.issued[j]);
      assert s.issued[j].index < issue.index;
    }
  }

  lemma NewIssueOk(env: Env, s: State, issue: Issue)
    requires IssuesOk(env, s.users, s.invoices, s.issued) && Derived(env, s, issue)
    requires issue.token in s.invoices && s.invoices[issue.token].userID == issue.uid
    ensures IssuesOk(env, s.users, s.invoices, s.issued + [issue])
  {
    var after := s.issued + [issue];
    forall j | 0 <= j < |after| ensures IssueOk(env, s.users, s.invoices, after[j]) {
    }
    forall i, j | 0 <= i < j < |after| && after[i].uid == after[j].uid ensures after[i].index < after[j].index {
      if j == |s.issued| {
        assert s.issued[i] == after[i];
      } else {
        assert s.issued[i].index < s.issued[j].index;
      }
    }
  }

  /** The state a payment handler has reached when it creates the payment: its copy lags the rows by the refresh. */
  predicate Copied(s: State, inv: Invoice, now: Time) {
    && inv.token in s.invoices && inv.userID in s.users && inv.changes == []
    && s.invoices[inv.token].payments == RefreshedAll(inv.payments, now)
    && SamePeriod(inv, s.invoices[inv.token]) && inv.status == s.invoices[inv.token].status
    && PaymentsDistinct(inv.payments) && PaymentsIssued(s.issued, inv.token, inv.payments)
  }

  lemma StorePaymentStep(env: Env, s: State, inv: Invoice, k: Option<nat>, isTotalCost: bool, issue: Issue, now: Time,
                         io: Io, after: State)
    requires Inv(env, s) && GoodEnv(env) && io.dbOk && Derived(env, s, issue) && Copied(s, inv, now)
    requires issue.token == inv.token && issue.uid == inv.userID && issue.txNotBefore == now
    requires k == if isTotalCost then FirstTotalCost(inv.payments) else None
    requires after == StorePayment(s, env, inv, k, NewPayment(inv, k, isTotalCost, issue.address, issue.amount, now),
              issue, io).0
    ensures Inv(env, after)
  {
    var token := inv.token;
    if io.rpcOk && token in s.backend {
      var p := NewPayment(inv, k, isTotalCost, issue.address, issue.amount, now);
      var ps := if k.Some? then inv.payments[k.value := p] else inv.payments + [p];
      FreshAddress(env, s, inv, issue);
      NewPaymentOk(s.issued, issue, inv, k, isTotalCost, now);
      StoredRowOk(env, s, inv, k, p, ps, s.issued + [issue], now);
      PaymentStored(env, s, token, StoredRow(s, inv, k, p), s.backend[token].(payments := env.encode(ps)), issue, p,
                    if k.Some? then s.polled - {inv.payments[k.value].address} else s.polled);
    }
  }

  /** The row a payment handler leaves: one payment replaced in place, or the handler's copy with one more. */
  function StoredRow(s: State, inv: Invoice, k: Option<nat>, p: InvoicePayment): Invoice
    requires inv.token in s.invoices && (k.Some? ==> k.value < |inv.payments| == |s.invoices[inv.token].payments|)
  {
    var row := s.invoices[inv.token];
    if k.Some? then row.(payments := row.payments[k.value := p])
    else UpdateInvoice(s.invoices, inv.(payments := inv.payments + [p]))[inv.token]
  }

  lemma StoredRowOk(env: Env, s: State, inv: Invoice, k: Option<nat>, p: InvoicePayment, ps: seq<InvoicePayment>,
                    issued: seq<Issue>, now: Time)
    requires RowsOk(env, s) && GoodStreams(env) && Copied(s, inv, now) && (k.Some? ==> k.value < |inv.payments|)
    requires ps == if k.Some? then inv.payments[k.value := p] else inv.payments + [p]
    requires PaymentsDistinct(ps) && PaymentsIssued(issued, inv.token, ps)
    ensures RowOk(env, s.keys, issued, inv.token, StoredRow(s, inv, k, p),
              s.backend[inv.token].(payments := env.encode(ps)))
  {
    var row := s.invoices[inv.token];
    assert RowOk(env, s.keys, s.issued, inv.token, row, s.backend[inv.token]);
    if k.Some? {
      StoredInPlace(env, issued, inv.token, inv.payments, k.value, p, now);
    } else {
      assert StripReasons([]) == [] && row.changes + [] == row.changes;
    }
  }

  /** The new payment's row, record, issue and poll entry belong together. */
  lemma PaymentStored(env: Env, s: State, token: string, row': Invoice, rec': Record, issue: Issue, p: InvoicePayment,
                      polled: map<string, PolledPayment>)
    requires Inv(env, s) && token in s.invoices && Derived(env, s, issue)
    requires RowOk(env, s.keys, s.issued + [issue], token, row', rec')
    requires SamePeriod(row', s.invoices[token]) && s.backend[token].changes <= rec'.changes
    requires issue.token == token && issue.uid == row'.userID
    requires Fits(issue, token, p.address, p.amount, p.txNotBefore)
    requires forall key | key in polled :: key in s.polled && polled[key] == s.polled[key]
    ensures Inv(env, s.(invoices := s.invoices[token := row'], backend := s.backend[token := rec'],
              issued := s.issued + [issue],
                        polled := polled[p.address := PolledEntry(token, p)]))
  {
    var issued' := s.issued + [issue];
    var polled' := polled[p.address := PolledEntry(token, p)];
    var after := s.(invoices := s.invoices[token := row'], backend := s.backend[token := rec'], issued := issued',
        polled := polled');
    ReplacedRow(s, token, row', rec', after);
    NewIssueOk(env, s, issue);
    IssuesKeptAs(env, s, after, token, issued');
    NewEntryOk(s.issued, issue, s.polled, polled, token, p);
    OneRowStep(env, s, after, token);
  }

  lemma NewEntryOk(issued: seq<Issue>, issue: Issue, before: map<string, PolledPayment>,
                   polled: map<string, PolledPayment>, token: string, p: InvoicePayment)
    requires PolledOk(issued, before) && Fits(issue, token, p.address, p.amount, p.txNotBefore)
    requires forall key | key in polled :: key in before && polled[key] == before[key]
    ensures PolledOk(issued + [issue], polled[p.address := PolledEntry(token, p)])
  {
    PolledGrow(issued, issued + [issue], before);
    assert Fits((issued + [issue])[|issued|], token, p.address, p.amount, p.txNotBefore);
  }

  lemma IssuesKeptAs(env: Env, s: State, after: State, token: string, issued: seq<Issue>)
    requires RowsKept(s, after, token) && after.users == s.users
    requires IssuesOk(env, s.users, s.invoices, issued)
    ensures IssuesOk(env, after.users, after.invoices, issued)
  {
    forall j | 0 <= j < |issued| ensures IssueOk(env, after.users, after.invoices, issued[j]) {
      assert IssueOk(env, s.users, s.invoices, issued[j]);
    }
  }

  /** Replacing the recreated payment in the refreshed rows, or in the handler's copy, makes the same stream. */
  lemma StoredInPlace(env: Env, issued: seq<Issue>, token: string, ps: seq<InvoicePayment>, k: nat, p: InvoicePayment,
                      now: Time)
    requires GoodStreams(env) && k < |ps| && PaymentsDistinct(ps[k := p]) && PaymentsIssued(issued, token, ps[k := p])
    ensures var stored := RefreshedAll(ps, now)[k := p];
            && env.encode(stored) == env.encode(ps[k := p])
            && PaymentsDistinct(stored) && PaymentsIssued(issued, token, stored)
  {
    var stored := RefreshedAll(ps, now)[k := p];
    SamePrint(env, stored, ps[k := p]);
    forall i | 0 <= i < |ps|
      ensures IssuedAs(issued, token, stored[i].address, stored[i].amount, stored[i].txNotBefore) {
      assert IssuedAs(issued, token, ps[k := p][i].address, ps[k := p][i].amount, ps[k := p][i].txNotBefore);
    }
    forall i, j | 0 <= i < j < |stored|
      ensures !(stored[i].isTotalCost && stored[j].isTotalCost) && stored[i].address != stored[j].address
    {
      assert ps[k := p][i].address != ps[k := p][j].address;
    }
  }

  lemma SpentWithin(users: Users, uid: uint64)
    requires uid in users && IndexBounded(users) && IndexBounded(SpendIndex(users, uid))
    ensures users[uid].paymentAddressIndex < TWO_TO_THE_32
  {
    assert SpendIndex(users, uid)[uid].paymentAddressIndex == users[uid].paymentAddressIndex + 1;
  }

  /** The issue made of the owner's next index. */
  function IssueFor(s: State, inv: Invoice, address: string, amount: uint64, now: Time): Issue
    requires inv.userID in s.users
  {
    var u := s.users[inv.userID];
    Issue(inv.userID, u.extendedPublicKey, u.paymentAddressIndex, inv.token, address, amount, now)
  }

  /** `after` is what storing the payment made of issue i yields, once the owner's index has been spent on it. */
  predicate StoredFrom(env: Env, s: State, inv: Invoice, isTotalCost: bool, now: Time, io: Io, i: Issue, after: State)
    requires inv.token in s.invoices && inv.userID in s.users && |inv.payments| == |s.invoices[inv.token].payments|
  {
    var k := if isTotalCost then FirstTotalCost(inv.payments) else None;
    && i == IssueFor(s, inv, i.address, i.amount, now)
    && env.derive(i.extendedPublicKey, i.index % TWO_TO_THE_32) == Some(i.address)
    && after.users == SpendIndex(s.users, inv.userID)
    && after == StorePayment(s.(users := SpendIndex(s.users, inv.userID)), env, inv, k,
                             NewPayment(inv, k, isTotalCost, i.address, i.amount, now), i, io).0
  }

  lemma PaymentCreated(env: Env, s: State, inv: Invoice, isTotalCost: bool, now: Time, io: Io, issue: Issue,
                       after: State)
    requires Inv(env, s) && GoodEnv(env) && io.dbOk && Copied(s, inv, now)
    requires StoredFrom(env, s, inv, isTotalCost, now, io, issue, after)
    requires s.users[inv.userID].paymentAddressIndex < TWO_TO_THE_32
    ensures Inv(env, after)
  {
    SpentReady(env, s, inv, now, issue);
    StorePaymentStep(env, s.(users := SpendIndex(s.users, inv.userID)), inv,
                     if isTotalCost then FirstTotalCost(inv.payments) else None, isTotalCost, issue, now, io, after);
  }

  lemma SpentReady(env: Env, s: State, inv: Invoice, now: Time, issue: Issue)
    requires Inv(env, s) && Copied(s, inv, now)
    requires s.users[inv.userID].paymentAddressIndex < TWO_TO_THE_32
    requires issue == IssueFor(s, inv, issue.address, issue.amount, now)
    requires env.derive(issue.extendedPublicKey, issue.index % TWO_TO_THE_32) == Some(issue.address)
    ensures var spent := s.(users := SpendIndex(s.users, inv.userID));
            Inv(env, spent) && Derived(env, spent, issue) && Copied(spent, inv, now)
  {
    SpendIndexStep(env, s, inv.userID);
    SpentDerived(env, s, inv, now, issue);
    SpentCopied(s, inv, now);
  }

  lemma SpentCopied(s: State, inv: Invoice, now: Time)
    requires Copied(s, inv, now)
    ensures Copied(s.(users := SpendIndex(s.users, inv.userID)), inv, now)
  {
  }

  lemma SpentDerived(env: Env, s: State, inv: Invoice, now: Time, issue: Issue)
    requires IssuesOk(env, s.users, s.invoices, s.issued) && inv.userID in s.users
    requires s.users[inv.userID].paymentAddressIndex < TWO_TO_THE_32
    requires issue == IssueFor(s, inv, issue.address, issue.amount, now)
    requires env.derive(issue.extendedPublicKey, issue.index % TWO_TO_THE_32) == Some(issue.address)
    ensures Derived(env, s.(users := SpendIndex(s.users, inv.userID)), issue)
  {
    IndicesBelow(env, s, inv.userID);
  }

  lemma IndicesBelow(env: Env, s: State, uid: uint64)
    requires IssuesOk(env, s.users, s.invoices, s.issued) && uid in s.users
    ensures forall j | 0 <= j < |s.issued| ::
              s.issued[j].uid == uid ==> s.issued[j].index < s.users[uid].paymentAddressIndex
  {
    forall j | 0 <= j < |s.issued| && s.issued[j].uid == uid
      ensures s.issued[j].index < s.users[uid].paymentAddressIndex {
      assert IssueOk(env, s.users, s.invoices, s.issued[j]);
    }
  }

  /** How far createInvoicePayment can get: nothing, an index spent in vain, or a payment ready to be stored. */
  predicate PaymentOutcome(env: Env, s: State, inv: Invoice, isTotalCost: bool, now: Time, io: Io,
                           issue: Option<Issue>, after: State)
    requires inv.token in s.invoices && inv.userID in s.users && |inv.payments| == |s.invoices[inv.token].payments|
  {
    match issue
    case None => after == s || after == s.(users := SpendIndex(s.users, inv.userID))
    case Some(i) => StoredFrom(env, s, inv, isTotalCost, now, io, i, after)
  }

  lemma CreatePaymentCases(env: Env, s: State, inv: Invoice, isTotalCost: bool, cost: Option<uint64>, rate: real,
                           now: Time, io: Io)
    returns (issue: Option<Issue>)
    requires inv.token in s.invoices && inv.userID in s.users && |inv.payments| == |s.invoices[inv.token].payments|
    ensures PaymentOutcome(env, s, inv, isTotalCost, now, io, issue,
              CreatePayment(s, env, inv, isTotalCost, cost, rate, now, io).0)
  {
    var u := s.users[inv.userID];
    var derived := env.derive(u.extendedPublicKey, u.paymentAddressIndex % TWO_TO_THE_32);
    if cost.None? || derived.None? || !io.indexOk || env.atoms(cost.value, rate).None? {
      issue := None;
    } else {
      issue := Some(IssueFor(s, inv, derived.value, env.atoms(cost.value, rate).value, now));
    }
  }

  lemma OutcomeStep(env: Env, s: State, inv: Invoice, isTotalCost: bool, now: Time, io: Io, issue: Option<Issue>,
                    after: State)
    requires Inv(env, s) && GoodEnv(env) && io.dbOk && Copied(s, inv, now)
    requires PaymentOutcome(env, s, inv, isTotalCost, now, io, issue, after)
    requires IndexBounded(s.users) && IndexBounded(after.users)
    ensures Inv(env, after)
  {
    match issue
    case None => SpentInVain(env, s, inv.userID, after);
    case Some(i) =>
      SpentWithin(s.users, inv.userID);
      PaymentCreated(env, s, inv, isTotalCost, now, io, i, after);
  }

  lemma SpentInVain(env: Env, s: State, uid: uint64, after: State)
    requires Inv(env, s) && uid in s.users && (after == s || after == s.(users := SpendIndex(s.users, uid)))
    requires IndexBounded(s.users) && IndexBounded(after.users)
    ensures Inv(env, after)
  {
    if after != s {
      SpentWithin(s.users, uid);
      SpendIndexStep(env, s, uid);
    }
  }

  lemma PayStep(s: State, env: Env, token: string, costUSD: uint64, rate: real, now: Time, io: Io)
    requires Inv(env, s) && GoodEnv(env) && io.dbOk
    requires IndexBounded(s.users) && IndexBounded(Pay(s, env, token, costUSD, rate, now, io).0.users)
    ensures Inv(env, Pay(s, env, token, costUSD, rate, now, io).0)
  {
    if Load(s, token).Some? && FileFor(s, Load(s, token).value).Some? {
      var inv := Load(s, token).value;
      var file := FileFor(s, inv).value;
      var refreshed := Refresh(s, inv, now);
      var copy := inv.(file := Some(file));
      assert RowOk(env, s.keys, s.issued, token, s.invoices[token], s.backend[token]);
      RefreshStep(env, s, inv, now);
      var issue := CreatePaymentCases(env, refreshed, copy, costUSD == 0, CostOf(env, file, costUSD), rate, now, io);
      OutcomeStep(env, refreshed, copy, costUSD == 0, now, io, issue, Pay(s, env, token, costUSD, rate, now, io).0);
    }
  }
}
