/** What holds of every run of the ledger. */
module LedgerTheorems {
  import opened Wrappers
  import opened MachineInts
  import opened Database
  import opened Accounts
  import opened Ledger
  import opened LedgerInvariants
  import opened LedgerRuns
  import PaymentStream

  // ---------------------------------------------------------------- runs

  /** An empty ledger over any users whose keys are listed. */
  predicate Initial(s: State) {
    TableOk(s.users, s.keys) && s.invoices == map[] && s.backend == map[] && s.polled == map[] && s.poller.Sleeping? &&
        s.issued == []
  }

  ghost predicate CoveredRun(s: State, env: Env, es: seq<Event>)
    decreases |es|
  {
    es == [] || (Covered(s, env, es[0]) && CoveredRun(Next(s, env, es[0]).0, env, es[1..]))
  }

  ghost function Run(s: State, env: Env, es: seq<Event>): State
    requires CoveredRun(s, env, es)
    decreases |es|
  {
    if es == [] then s else Run(Next(s, env, es[0]).0, env, es[1..])
  }

  lemma {:induction false} RunKeepsInv(s: State, env: Env, es: seq<Event>)
    requires Inv(env, s) && GoodEnv(env) && CoveredRun(s, env, es)
    ensures Inv(env, Run(s, env, es))
    decreases |es|
  {
    if es != [] {
      NextStep(s, env, es[0]);
      RunKeepsInv(Next(s, env, es[0]).0, env, es[1..]);
    }
  }

  /** The surroundings: JSON streams and an injective address derivation. */
  ghost predicate RealEnv(env: Env) {
    JsonStreams(env) && InjectiveEnv(env)
  }

  lemma ReachableInv(start: State, env: Env, es: seq<Event>)
    requires Initial(start) && RealEnv(env) && CoveredRun(start, env, es)
    ensures GoodEnv(env) && Inv(env, Run(start, env, es))
  {
    JsonStreamsAreGood(env);
    RunKeepsInv(start, env, es);
  }

  // ---------------------------------------------------------------- the cache refines the log

  /** In every run the tables hold exactly the recorded invoices, and each row shows what replaying its record
      shows: token, owner, month, year, status, change table and ordered payments. */
  lemma CacheRefinesLog(start: State, env: Env, es: seq<Event>, file: Option<File>)
    requires Initial(start) && RealEnv(env) && CoveredRun(start, env, es)
    ensures var s := Run(start, env, es);
            && s.invoices.Keys == s.backend.Keys
            && forall t | t in s.backend ::
                 var replayed := Replay(env, s.keys, t, s.backend[t], file);
                 replayed.Some? && ViewOf(replayed.value) == ViewOf(s.invoices[t])
  {
    ReachableInv(start, env, es);
    var s := Run(start, env, es);
    forall t | t in s.backend
      ensures var replayed := Replay(env, s.keys, t, s.backend[t], file);
              replayed.Some? && ViewOf(replayed.value) == ViewOf(s.invoices[t])
    {
      ReplayShowsRow(env, s.keys, s.issued, t, s.invoices[t], s.backend[t], file);
    }
  }

  /** Dropping the tables at any point of a run and replaying the log changes nothing that is shown. */
  lemma RestartChangesNothing(start: State, env: Env, es: seq<Event>, order: seq<string>, now: Time)
    requires Initial(start) && RealEnv(env) && CoveredRun(start, env, es)
    requires Enumerates(order, Run(start, env, es).backend)
    ensures var s := Run(start, env, es);
            Views(Restart(s, env, order, now).invoices) == Views(s.invoices)
  {
    ReachableInv(start, env, es);
    RestartStep(env, Run(start, env, es), order, now);
  }

  /** The same event with its database write lost. */
  function WriteLost(e: Event): Event {
    e.(io := e.io.(dbOk := false))
  }

  predicate SameLog(a: State, b: State) {
    a.users == b.users && a.keys == b.keys && a.backend == b.backend && a.issued == b.issued
  }

  lemma LostPay(s: State, env: Env, token: string, costUSD: uint64, rate: real, now: Time, io: Io)
    ensures SameLog(Pay(s, env, token, costUSD, rate, now, io.(dbOk := false)).0,
              Pay(s, env, token, costUSD, rate, now, io).0)
  {
    var inv := Load(s, token);
    if inv.Some? && FileFor(s, inv.value).Some? {
      var file := FileFor(s, inv.value).value;
      LostCreate(Refresh(s, inv.value, now), env, inv.value.(file := Some(file)), costUSD == 0,
          CostOf(env, file, costUSD), rate, now, io);
    }
  }

  lemma LostCreate(s: State, env: Env, inv: Invoice, isTotalCost: bool, cost: Option<uint64>, rate: real, now: Time,
                   io: Io)
    requires inv.token in s.invoices && inv.userID in s.users && |inv.payments| == |s.invoices[inv.token].payments|
    ensures SameLog(CreatePayment(s, env, inv, isTotalCost, cost, rate, now, io.(dbOk := false)).0,
                    CreatePayment(s, env, inv, isTotalCost, cost, rate, now, io).0)
  {
  }

  lemma LostCredit(s: State, env: Env, inv: Invoice, address: string, amount: uint64, txID: string, now: Time, io: Io)
    ensures SameLog(Credit(s, env, inv, address, amount, txID, now, io.(dbOk := false)).0,
                    Credit(s, env, inv, address, amount, txID, now, io).0)
  {
  }

  lemma LostCheck(s: State, env: Env, key: string, lookup: Lookup, now: Time, io: Io)
    requires s.poller.Checking? && key in s.poller.snapshot
    ensures SameLog(CheckEntry(s, env, key, lookup, now, io.(dbOk := false)).0,
              CheckEntry(s, env, key, lookup, now, io).0)
  {
    var entry := s.poller.snapshot[key];
    if Load(s, entry.token).Some? && lookup.Found? {
      LostQueue(s.(poller := Checking(s.poller.snapshot - {key}, s.poller.toRemove)), env, Load(s, entry.token).value,
                key, entry, lookup.txID, now, io);
    }
  }

  lemma LostQueue(s: State, env: Env, inv: Invoice, key: string, entry: PolledPayment, txID: string, now: Time, io: Io)
    requires s.poller.Checking?
    ensures SameLog(CreditAndQueue(s, env, inv, key, entry, txID, now, io.(dbOk := false)).0,
                    CreditAndQueue(s, env, inv, key, entry, txID, now, io).0)
  {
    LostCredit(s, env, inv, entry.address, entry.amount, txID, now, io);
  }

  lemma LostSubmit(s: State, env: Env, uid: uint64, activeKey: Option<string>, req: InvoiceRequest, month: uint16,
                   year: uint16, token: string, serverSignature: string, now: Time, io: Io)
    ensures SameLog(Submit(s, env, uid, activeKey, req, month, year, token, serverSignature, now, io.(dbOk := false)).0,
                    Submit(s, env, uid, activeKey, req, month, year, token, serverSignature, now, io).0)
  {
  }

  lemma LostEdit(s: State, env: Env, activeKey: Option<string>, token: string, req: InvoiceRequest, version: string,
                 now: Time, io: Io)
    ensures SameLog(Edit(s, env, activeKey, token, req, version, now, io.(dbOk := false)).0,
                    Edit(s, env, activeKey, token, req, version, now, io).0)
  {
  }

  lemma LostSetStatus(s: State, activeKey: Option<string>, token: string, publicKey: string, signatureValid: bool,
                      status: Status, reason: Option<string>, now: Time, io: Io)
    ensures SameLog(SetStatus(s, activeKey, token, publicKey, signatureValid, status, reason, now,
              io.(dbOk := false)).0,
                    SetStatus(s, activeKey, token, publicKey, signatureValid, status, reason, now, io).0)
  {
  }

  /** Losing the database write after the log was written leaves users, keys, log and issues as the successful
      step does. */
  lemma LostWriteKeepsLog(s: State, env: Env, e: Event)
    requires Enabled(s, e) && !e.step.StepRestart? && !e.step.StepUser? && !e.step.StepInvite?
    ensures Enabled(s, WriteLost(e)) && SameLog(Next(s, env, WriteLost(e)).0, Next(s, env, e).0)
  {
    match e.step
    case StepSubmit(uid, req, month, year, token, sig) =>
      LostSubmit(s, env, uid, KeyOf(s.users, uid), req, month, year, token, sig, e.now, e.io);
    case StepEdit(uid, token, req, version) => LostEdit(s, env, KeyOf(s.users, uid), token, req, version, e.now, e.io);
    case StepSetStatus(uid, token, key, valid, status, reason) =>
      LostSetStatus(s, KeyOf(s.users, uid), token, key, valid, status, reason, e.now, e.io);
    case StepPay(token, costUSD, rate) => LostPay(s, env, token, costUSD, rate, e.now, e.io);
    case StepUpdatePayment(token, address, amount, txID) =>
      if Load(s, token).Some? {
        LostCredit(s, env, Load(s, token).value, address, amount, txID, e.now, e.io);
      }
    case StepCheck(key, lookup) => LostCheck(s, env, key, lookup, e.now, e.io);
    case _ =>
  }

  /** A restart only depends on the users and the log. */
  lemma RestartFromLog(a: State, b: State, env: Env, order: seq<string>, now: Time)
    requires SameLog(a, b) && forall t | t in order :: t in a.backend
    ensures Restart(a, env, order, now) == Restart(b, env, order, now)
  {
    var rows := LoadInventory(env, a.keys, a.backend, order);
    assert a.(invoices := rows, polled := map[], poller := Sleeping) ==
        b.(invoices := rows, polled := map[], poller := Sleeping);
  }

  /** If a step writes the log but its database write fails, a restart shows what the successful step would have. */
  lemma LostWriteIsRecovered(start: State, env: Env, es: seq<Event>, e: Event, order: seq<string>, now: Time)
    requires Initial(start) && RealEnv(env) && CoveredRun(start, env, es)
    requires Covered(Run(start, env, es), env, e) && !e.step.StepRestart? && !e.step.StepUser? && !e.step.StepInvite?
    requires Enumerates(order, Next(Run(start, env, es), env, e).0.backend)
    ensures var s := Run(start, env, es);
            && Enabled(s, WriteLost(e))
            && var lost, done := Next(s, env, WriteLost(e)).0, Next(s, env, e).0;
               (forall t | t in order :: t in lost.backend) &&
               Views(Restart(lost, env, order, now).invoices) == Views(done.invoices)
  {
    var s := Run(start, env, es);
    ReachableInv(start, env, es);
    NextStep(s, env, e);
    LostWriteKeepsLog(s, env, e);
    RestartFromLog(Next(s, env, WriteLost(e)).0, Next(s, env, e).0, env, order, now);
    RestartStep(env, Next(s, env, e).0, order, now);
  }

  // ---------------------------------------------------------------- edits

  /** A successful edit keeps the row in agreement with its record if and only if the editor owns the invoice:
      the record's owner becomes whoever signed the edit, the row's owner does not. */
  lemma EditAgreesIffOwner(s: State, env: Env, uid: uint64, token: string, req: InvoiceRequest, version: string,
                           now: Time, io: Io)
    requires Inv(env, s) && GoodStreams(env) && io.dbOk && uid in s.users
    requires Edit(s, env, KeyOf(s.users, uid), token, req, version, now, io).1.Done?
    ensures var after := Edit(s, env, KeyOf(s.users, uid), token, req, version, now, io).0;
            && token in after.invoices && token in after.backend
            && var replayed := Replay(env, after.keys, token, after.backend[token], None);
               replayed.Some? && (ViewOf(replayed.value) == ViewOf(after.invoices[token]) <==>
                   s.invoices[token].userID == uid)
  {
    ActiveKeyOwned(s.users, s.keys, uid);
    LoadedCopy(env, s, token);
    EditedRecord(s, env, KeyOf(s.users, uid), token, req, version, now, io);
    var after := Edit(s, env, KeyOf(s.users, uid), token, req, version, now, io).0;
    var row := s.invoices[token];
    assert RowOk(env, s.keys, s.issued, token, row, s.backend[token]);
    assert env.decode(token, env.encode(row.payments)) == Some(PaymentStream.Recovered(token, row.payments));
    if row.userID == uid {
      EditStep(s, env, KeyOf(s.users, uid), token, req, version, now, io);
      ReplayShowsRow(env, after.keys, after.issued, token, after.invoices[token], after.backend[token], None);
    }
  }

  lemma EditedRecord(s: State, env: Env, activeKey: Option<string>, token: string, req: InvoiceRequest,
                     version: string, now: Time, io: Io)
    requires Edit(s, env, activeKey, token, req, version, now, io).1.Done? && io.dbOk
    requires token in s.invoices && token in s.backend && s.invoices[token].token == token
    ensures var after := Edit(s, env, activeKey, token, req, version, now, io).0;
            && activeKey == Some(req.publicKey)
            && token in after.invoices && token in after.backend && after.keys == s.keys
            && after.backend[token].general.publicKey == req.publicKey
            && after.backend[token].payments == s.backend[token].payments
            && after.invoices[token].userID == s.invoices[token].userID
  {
  }

  // ---------------------------------------------------------------- the change log

  /** What a log of the grammar can look like: it starts unreviewed and never is again, an approval, a rejection
      and a payment are never repeated back to back, a rejection carries a reason, and only an edit follows a
      payment. */
  lemma GrammarFacts(cs: seq<StreamChange>, i: nat)
    requires Grammar(cs) && i < |cs|
    ensures cs[i].newStatus.NotReviewed? <==> i == 0
    ensures cs[i].newStatus.Rejected? ==> cs[i].reason.Some? && cs[i].adminPublicKey != ""
    ensures i > 0 && cs[i].newStatus == cs[i - 1].newStatus ==> cs[i].newStatus.UnreviewedChanges?
    ensures i > 0 && cs[i - 1].newStatus.Paid? ==> cs[i].newStatus.UnreviewedChanges?
    ensures cs[i].adminPublicKey == "" ==> i == 0 || cs[i].newStatus.UnreviewedChanges? || cs[i].newStatus.Paid?
    ensures cs[i].newStatus in {NotReviewed, UnreviewedChanges, Rejected, Approved, Paid}
  {
    if i > 0 {
      assert Follows(cs[i - 1].newStatus, cs[i]);
    }
  }

  /** In every run each log follows the grammar, and the row's status is that of the last entry. */
  lemma ChangeLog(start: State, env: Env, es: seq<Event>, t: string)
    requires Initial(start) && RealEnv(env) && CoveredRun(start, env, es) && t in Run(start, env, es).backend
    ensures var s := Run(start, env, es);
            && Grammar(s.backend[t].changes)
            && t in s.invoices
            && s.invoices[t].status == s.backend[t].changes[|s.backend[t].changes| - 1].newStatus
            && s.invoices[t].changes == ConvertChanges(s.backend[t].changes)
  {
    ReachableInv(start, env, es);
    var s := Run(start, env, es);
    assert RowOk(env, s.keys, s.issued, t, s.invoices[t], s.backend[t]);
  }

  /** Every log of the grammar can grow by any change that follows its last status, and by no other. */
  lemma GrammarExtends(cs: seq<StreamChange>, c: StreamChange)
    requires Grammar(cs)
    ensures Grammar(cs + [c]) <==> Follows(LastStatus(cs), c)
  {
    var grown := cs + [c];
    assert grown[|cs| - 1] == cs[|cs| - 1] && grown[|cs|] == c;
    if Follows(LastStatus(cs), c) {
      GrammarSnoc(cs, c);
    }
  }

  // ---------------------------------------------------------------- periods and payments

  /** In every run a user has at most one invoice for a month and year, and an invoice at most one total-cost
      payment and no address twice. */
  lemma OneInvoicePerPeriod(start: State, env: Env, es: seq<Event>)
    requires Initial(start) && RealEnv(env) && CoveredRun(start, env, es)
    ensures var s := Run(start, env, es);
            && OnePerPeriod(s.invoices)
            && forall t | t in s.invoices :: PaymentsDistinct(s.invoices[t].payments)
  {
    ReachableInv(start, env, es);
    var s := Run(start, env, es);
    forall t | t in s.invoices ensures PaymentsDistinct(s.invoices[t].payments) {
      assert RowOk(env, s.keys, s.issued, t, s.invoices[t], s.backend[t]);
    }
  }

  // ---------------------------------------------------------------- paying

  lemma {:induction false} UnpaidArePolled(polled: map<string, PolledPayment>, token: string, ps: seq<InvoicePayment>)
    requires forall i, j | 0 <= i < j < |ps| :: ps[i].address != ps[j].address
    ensures var after := PollUnpaid(polled, token, ps);
            && (forall i | 0 <= i < |ps| && ps[i].txID == "" ::
                ps[i].address in after && after[ps[i].address] == PolledEntry(token, ps[i]))
            && (forall a | a in polled :: a in after)
  {
    if ps != [] {
      var init := ps[..|ps| - 1];
      assert forall i | 0 <= i < |init| :: init[i] == ps[i];
      UnpaidArePolled(polled, token, init);
    }
  }

  /** The poll map entry a payment must have after a payment call. */
  predicate PolledNow(polled: map<string, PolledPayment>, token: string, p: InvoicePayment, now: Time) {
    p.address in polled &&
    polled[p.address] == PolledPayment(token, p.address, p.amount, p.txNotBefore, now + POLL_EXPIRY_DURATION)
  }

  /** After a successful payment call every payment of the invoice without a transaction is polled under its
      current address for another day, and an address that was replaced is no longer polled. */
  predicate PaidAndPolled(s: State, token: string, now: Time, after: State) {
    && token in s.invoices && token in after.invoices
    && (forall i | 0 <= i < |after.invoices[token].payments| && after.invoices[token].payments[i].txID == "" ::
          PolledNow(after.polled, token, after.invoices[token].payments[i], now))
    && (forall i | 0 <= i < |s.invoices[token].payments| ::
          (forall j | 0 <= j < |after.invoices[token].payments| ::
             after.invoices[token].payments[j].address != s.invoices[token].payments[i].address) ==>
          s.invoices[token].payments[i].address !in after.polled)
  }

  /** Payment calls leave this behind in every state of the invariant. */
  lemma PayPolls(s: State, env: Env, token: string, costUSD: uint64, rate: real, now: Time, io: Io)
    requires Inv(env, s) && GoodEnv(env) && io.dbOk
    requires IndexBounded(s.users) && IndexBounded(Pay(s, env, token, costUSD, rate, now, io).0.users)
    requires Pay(s, env, token, costUSD, rate, now, io).1.Done?
    ensures PaidAndPolled(s, token, now, Pay(s, env, token, costUSD, rate, now, io).0)
  {
    PayStep(s, env, token, costUSD, rate, now, io);
    LoadedCopy(env, s, token);
    var inv := Load(s, token).value;
    var file := FileFor(s, inv).value;
    var refreshed := Refresh(s, inv, now);
    var copy := inv.(file := Some(file));
    var after := Pay(s, env, token, costUSD, rate, now, io).0;
    RefreshCopied(env, s, inv, file, now);
    var issue := PaidOutcome(env, refreshed, copy, costUSD == 0, CostOf(env, file, costUSD), rate, now, io);
    PaidRow(env, refreshed, copy, costUSD == 0, now, io, issue, after);
    DistinctRow(env, after, token);
    StoredPolls(env, refreshed, copy, costUSD == 0, issue, now, io, after);
  }

  /** In every run a successful payment call leaves exactly this behind. */
  lemma PayPollsUnpaid(start: State, env: Env, es: seq<Event>, token: string, costUSD: uint64, rate: real, now: Time,
                       io: Io)
    requires Initial(start) && RealEnv(env) && CoveredRun(start, env, es)
    requires var e := Event(StepPay(token, costUSD, rate), now, io);
             Covered(Run(start, env, es), env, e) && Next(Run(start, env, es), env, e).1.Done?
    ensures var s := Run(start, env, es);
            PaidAndPolled(s, token, now, Pay(s, env, token, costUSD, rate, now, io).0)
  {
    ReachableInv(start, env, es);
    PayPolls(Run(start, env, es), env, token, costUSD, rate, now, io);
  }

  lemma DistinctRow(env: Env, s: State, token: string)
    requires RowsOk(env, s) && token in s.invoices
    ensures PaymentsDistinct(s.invoices[token].payments)
  {
    assert RowOk(env, s.keys, s.issued, token, s.invoices[token], s.backend[token]);
  }

  lemma PaidRow(env: Env, s: State, inv: Invoice, isTotalCost: bool, now: Time, io: Io, i: Issue, after: State)
    requires inv.token in s.invoices && inv.userID in s.users && |inv.payments| == |s.invoices[inv.token].payments|
    requires StoredFrom(env, s, inv, isTotalCost, now, io, i, after)
    ensures inv.token in after.invoices
  {
  }

  /** The refresh leaves the handler's copy behind and every unpaid payment polled. */
  lemma RefreshCopied(env: Env, s: State, inv: Invoice, file: File, now: Time)
    requires Inv(env, s) && inv.token in s.invoices && inv == s.invoices[inv.token].(changes := []) &&
              inv.userID in s.users
    ensures Copied(Refresh(s, inv, now), inv.(file := Some(file)), now)
    ensures forall m | 0 <= m < |inv.payments| && inv.payments[m].txID == "" ::
              PolledNow(Refresh(s, inv, now).polled, inv.token, inv.payments[m], now)
  {
    assert RowOk(env, s.keys, s.issued, inv.token, s.invoices[inv.token], s.backend[inv.token]);
    RefreshPolls(s, inv, now);
  }

  lemma RefreshPolls(s: State, inv: Invoice, now: Time)
    requires inv.token in s.invoices && PaymentsDistinct(inv.payments)
    ensures forall m | 0 <= m < |inv.payments| && inv.payments[m].txID == "" ::
              PolledNow(Refresh(s, inv, now).polled, inv.token, inv.payments[m], now)
  {
    var ps := RefreshedAll(inv.payments, now);
    assert forall i, j | 0 <= i < j < |ps| :: ps[i].address != ps[j].address;
    UnpaidArePolled(s.polled, inv.token, ps);
    forall m | 0 <= m < |inv.payments| && inv.payments[m].txID == ""
      ensures PolledNow(Refresh(s, inv, now).polled, inv.token, inv.payments[m], now)
    {
      assert ps[m] == Refreshed(inv.payments[m], now);
    }
  }

  /** A successful createInvoicePayment went all the way. */
  lemma PaidOutcome(env: Env, s: State, inv: Invoice, isTotalCost: bool, cost: Option<uint64>, rate: real, now: Time,
                    io: Io) returns (i: Issue)
    requires inv.token in s.invoices && inv.userID in s.users && |inv.payments| == |s.invoices[inv.token].payments|
    requires CreatePayment(s, env, inv, isTotalCost, cost, rate, now, io).1.Done?
    ensures StoredFrom(env, s, inv, isTotalCost, now, io, i,
              CreatePayment(s, env, inv, isTotalCost, cost, rate, now, io).0)
    ensures io.rpcOk && inv.token in s.backend
  {
    var u := s.users[inv.userID];
    var derived := env.derive(u.extendedPublicKey, u.paymentAddressIndex % TWO_TO_THE_32);
    i := IssueFor(s, inv, derived.value, env.atoms(cost.value, rate).value, now);
  }

  lemma StoredPolls(env: Env, s: State, inv: Invoice, isTotalCost: bool, i: Issue, now: Time, io: Io, after: State)
    requires Copied(s, inv, now) && io.dbOk && io.rpcOk && inv.token in s.backend
    requires StoredFrom(env, s, inv, isTotalCost, now, io, i, after)
    requires inv.token in after.invoices && PaymentsDistinct(after.invoices[inv.token].payments)
    requires forall m | 0 <= m < |inv.payments| && inv.payments[m].txID == "" ::
              PolledNow(s.polled, inv.token, inv.payments[m], now)
    ensures PolledRow(inv.payments, inv.token, after.polled, after.invoices[inv.token].payments, now)
  {
    var k := if isTotalCost then FirstTotalCost(inv.payments) else None;
    var p := NewPayment(inv, k, isTotalCost, i.address, i.amount, now);
    var qs := after.invoices[inv.token].payments;
    if k.None? {
      assert qs == inv.payments + [p];
      AppendedPolls(inv.payments, p, inv.token, s.polled, now);
    } else {
      assert qs == RefreshedAll(inv.payments, now)[k.value := p];
      ReplacedPolls(inv.payments, k.value, p, inv.token, s.polled, now);
    }
  }

  /** Every unpaid payment is polled, and so is no address that went away. */
  predicate PolledRow(before: seq<InvoicePayment>, token: string, polled: map<string, PolledPayment>,
                      ps: seq<InvoicePayment>, now: Time) {
    && (forall m | 0 <= m < |ps| && ps[m].txID == "" :: PolledNow(polled, token, ps[m], now))
    && (forall m | 0 <= m < |before| :: (forall j | 0 <= j < |ps| :: ps[j].address != before[m].address) ==>
        before[m].address !in polled)
  }

  lemma AppendedPolls(ps: seq<InvoicePayment>, p: InvoicePayment, token: string, polled: map<string, PolledPayment>,
                      now: Time)
    requires PaymentsDistinct(ps + [p]) && p.txNotBefore == now && p.pollExpiry == now + POLL_EXPIRY_DURATION
    requires forall m | 0 <= m < |ps| && ps[m].txID == "" :: PolledNow(polled, token, ps[m], now)
    ensures PolledRow(ps, token, polled[p.address := PolledEntry(token, p)], ps + [p], now)
  {
    var qs := ps + [p];
    assert qs[|ps|] == p;
    forall m | 0 <= m < |ps| ensures qs[m] == ps[m] && qs[m].address != p.address {
      assert qs[m].address != qs[|ps|].address;
    }
  }

  lemma ReplacedPolls(ps: seq<InvoicePayment>, k: nat, p: InvoicePayment, token: string,
                      polled: map<string, PolledPayment>, now: Time)
    requires k < |ps| && PaymentsDistinct(ps) && PaymentsDistinct(RefreshedAll(ps, now)[k := p])
    requires p.txNotBefore == now && p.pollExpiry == now + POLL_EXPIRY_DURATION
    requires forall m | 0 <= m < |ps| && ps[m].txID == "" :: PolledNow(polled, token, ps[m], now)
    ensures PolledRow(ps, token, (polled - {ps[k].address})[p.address := PolledEntry(token, p)],
              RefreshedAll(ps, now)[k := p], now)
  {
    var qs := RefreshedAll(ps, now)[k := p];
    assert qs[k] == p;
    forall m | 0 <= m < |ps| && m != k
      ensures qs[m].address == ps[m].address && qs[m].address != p.address && qs[m].address != ps[k].address
    {
      assert qs[if m < k then m else k].address != qs[if m < k then k else m].address;
      assert ps[if m < k then m else k].address != ps[if m < k then k else m].address;
    }
  }

  /** Why each handler has to run undisturbed: crediting through a copy of the invoice read earlier writes the
      copy's payments to the log, so a payment created in the meantime survives exactly if the copy has it. */
  lemma StaleCopyOverwrites(s: State, env: Env, copy: Invoice, address: string, amount: uint64, txID: string,
                            now: Time, io: Io, p: string)
    requires GoodStreams(env) && Credit(s, env, copy, address, amount, txID, now, io).1.Done?
    ensures var after := Credit(s, env, copy, address, amount, txID, now, io).0;
            && copy.token in after.backend
            && var logged := env.decode(copy.token, after.backend[copy.token].payments);
               && logged.Some?
               && ((exists i | 0 <= i < |logged.value| :: logged.value[i].address == p) <==>
                   (exists i | 0 <= i < |copy.payments| :: copy.payments[i].address == p))
  {
    var k := FirstMatch(copy.payments, address, amount).value;
    var ps := copy.payments[k := copy.payments[k].(txID := txID)];
    assert env.decode(copy.token, env.encode(ps)) == Some(PaymentStream.Recovered(copy.token, ps));
    var logged := PaymentStream.Recovered(copy.token, ps);
    if i :| 0 <= i < |logged| && logged[i].address == p {
      assert copy.payments[i].address == p;
    }
    if i :| 0 <= i < |copy.payments| && copy.payments[i].address == p {
      assert logged[i].address == p;
    }
  }
}
