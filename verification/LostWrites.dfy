/** What a database write that is lost without a restart leaves behind. */
module LostWrites {
  import opened Wrappers
  import opened MachineInts
  import opened Database
  import opened Accounts
  import opened Ledger
  import opened LedgerInvariants
  import opened LedgerRuns
  import opened LedgerTheorems
  import opened StaleCopies
  import PaymentStream

  /** The tables hold exactly the recorded invoices, and each record replays to what its row shows. */
  predicate Agree(env: Env, s: State) {
    s.invoices.Keys == s.backend.Keys && forall t | t in s.backend :: Shows(env, s.keys, t, s.backend[t], s.invoices[t])
  }

  predicate Shows(env: Env, keys: KeyTable, t: string, rec: Record, row: Invoice) {
    var replayed := Replay(env, keys, t, rec, None);
    replayed.Some? && ViewOf(replayed.value) == ViewOf(row)
  }

  /** How a step writes the log: a new record, a longer log, or another payments stream. */
  ghost predicate Rewrites(env: Env, backend: map<string, Record>, token: string, rec: Record) {
    token in backend ==>
      || |rec.changes| > |backend[token].changes|
      || exists ps {:trigger env.encode(ps)} :: rec == backend[token].(payments := env.encode(ps))
  }

  /** A step whose database write is lost: the rows show what they showed, and at most one record is written. */
  ghost predicate OnlyLogged(env: Env, s: State, after: State) {
    && after.keys == s.keys && Views(after.invoices) == Views(s.invoices)
    && (after.backend == s.backend ||
        exists token, rec :: after.backend == s.backend[token := rec] && Rewrites(env, s.backend, token, rec))
  }

  lemma Logged(env: Env, s: State, after: State, token: string, rec: Record)
    requires after.keys == s.keys && Views(after.invoices) == Views(s.invoices)
    requires after.backend == s.backend[token := rec] && Rewrites(env, s.backend, token, rec)
    ensures OnlyLogged(env, s, after)
  {
  }

  lemma SubmitLogs(s: State, env: Env, uid: uint64, activeKey: Option<string>, req: InvoiceRequest, month: uint16,
                   year: uint16, token: string, serverSignature: string, now: Time, io: Io)
    requires token !in s.backend && !io.dbOk
    ensures OnlyLogged(env, s, Submit(s, env, uid, activeKey, req, month, year, token, serverSignature, now, io).0)
  {
    var after := Submit(s, env, uid, activeKey, req, month, year, token, serverSignature, now, io).0;
    if after != s {
      Logged(env, s, after, token, after.backend[token]);
    }
  }

  lemma EditLogs(s: State, env: Env, activeKey: Option<string>, token: string, req: InvoiceRequest, version: string,
                 now: Time, io: Io)
    requires !io.dbOk
    ensures OnlyLogged(env, s, Edit(s, env, activeKey, token, req, version, now, io).0)
  {
    var after := Edit(s, env, activeKey, token, req, version, now, io).0;
    if after != s {
      Logged(env, s, after, token, after.backend[token]);
    }
  }

  lemma SetStatusLogs(s: State, env: Env, activeKey: Option<string>, token: string, publicKey: string,
                      signatureValid: bool, status: Status, reason: Option<string>, now: Time, io: Io)
    requires !io.dbOk
    ensures OnlyLogged(env, s, SetStatus(s, activeKey, token, publicKey, signatureValid, status, reason, now, io).0)
  {
    var after := SetStatus(s, activeKey, token, publicKey, signatureValid, status, reason, now, io).0;
    if after != s {
      Logged(env, s, after, token, after.backend[token]);
    }
  }

  lemma PayLogs(s: State, env: Env, token: string, costUSD: uint64, rate: real, now: Time, io: Io)
    requires !io.dbOk
    ensures OnlyLogged(env, s, Pay(s, env, token, costUSD, rate, now, io).0)
  {
    var inv := Load(s, token);
    if inv.Some? && FileFor(s, inv.value).Some? {
      var file := FileFor(s, inv.value).value;
      var refreshed := Refresh(s, inv.value, now);
      RefreshKeepsView(env, s, inv.value, now);
      CreateLogs(s, refreshed, env, inv.value.(file := Some(file)), costUSD == 0, CostOf(env, file, costUSD), rate, now,
          io);
    }
  }

  lemma CreateLogs(s: State, refreshed: State, env: Env, inv: Invoice, isTotalCost: bool, cost: Option<uint64>,
                   rate: real, now: Time, io: Io)
    requires !io.dbOk && inv.token in refreshed.invoices && inv.userID in refreshed.users
    requires |inv.payments| == |refreshed.invoices[inv.token].payments|
    requires refreshed.keys == s.keys && refreshed.backend == s.backend &&
              Views(refreshed.invoices) == Views(s.invoices)
    ensures OnlyLogged(env, s, CreatePayment(refreshed, env, inv, isTotalCost, cost, rate, now, io).0)
  {
    var after := CreatePayment(refreshed, env, inv, isTotalCost, cost, rate, now, io).0;
    if after.backend != s.backend {
      Logged(env, s, after, inv.token, after.backend[inv.token]);
    }
  }

  lemma CreditLogs(s: State, env: Env, inv: Invoice, address: string, amount: uint64, txID: string, now: Time, io: Io)
    requires !io.dbOk
    ensures OnlyLogged(env, s, Credit(s, env, inv, address, amount, txID, now, io).0)
  {
    var after := Credit(s, env, inv, address, amount, txID, now, io).0;
    if after.backend != s.backend {
      Logged(env, s, after, inv.token, after.backend[inv.token]);
    }
  }

  lemma CheckLogs(s: State, env: Env, key: string, lookup: Lookup, now: Time, io: Io)
    requires s.poller.Checking? && key in s.poller.snapshot && !io.dbOk
    ensures OnlyLogged(env, s, CheckEntry(s, env, key, lookup, now, io).0)
  {
    var entry := s.poller.snapshot[key];
    CheckEntryForm(s, env, key, lookup, now, io);
    if Load(s, entry.token).Some? && lookup.Found? {
      var skip := s.(poller := Checking(s.poller.snapshot - {key}, s.poller.toRemove));
      CreditLogs(skip, env, Load(s, entry.token).value, entry.address, entry.amount, lookup.txID, now, io);
    }
  }

  lemma StepLogs(s: State, env: Env, e: Event)
    requires Enabled(s, e) && !e.io.dbOk && !e.step.StepRestart? && !e.step.StepUser? && !e.step.StepInvite?
    ensures OnlyLogged(env, s, Next(s, env, e).0)
  {
    match e.step
    case StepSubmit(uid, req, month, year, token, sig) =>
      SubmitLogs(s, env, uid, KeyOf(s.users, uid), req, month, year, token, sig, e.now, e.io);
    case StepEdit(uid, token, req, version) => EditLogs(s, env, KeyOf(s.users, uid), token, req, version, e.now, e.io);
    case StepSetStatus(uid, token, key, valid, status, reason) =>
      SetStatusLogs(s, env, KeyOf(s.users, uid), token, key, valid, status, reason, e.now, e.io);
    case StepPay(token, costUSD, rate) => PayLogs(s, env, token, costUSD, rate, e.now, e.io);
    case StepUpdatePayment(token, address, amount, txID) =>
      if Load(s, token).Some? {
        CreditLogs(s, env, Load(s, token).value, address, amount, txID, e.now, e.io);
      }
    case StepCheck(key, lookup) => CheckLogs(s, env, key, lookup, e.now, e.io);
    case _ =>
  }

  /** A rewritten record that still shows the row is the old record. */
  lemma RewriteShows(env: Env, s: State, token: string, rec: Record, row: Invoice)
    requires GoodStreams(env) && RowsOk(env, s) && token in s.backend && Rewrites(env, s.backend, token, rec)
    requires ViewOf(row) == ViewOf(s.invoices[token]) && Shows(env, s.keys, token, rec, row)
    ensures rec == s.backend[token]
  {
    var before := s.invoices[token];
    assert RowOk(env, s.keys, s.issued, token, before, s.backend[token]);
    assert |ConvertChanges(rec.changes)| == |before.changes|;
    var ps :| rec == s.backend[token].(payments := env.encode(ps));
    assert env.decode(token, env.encode(ps)) == Some(PaymentStream.Recovered(token, ps));
    RecoveredTwice(token, ps);
    RecoveredTwice(token, before.payments);
    assert SameStream(ps, before.payments);
    EncodeIff(env, ps, before.payments);
  }

  /** After a lost write the rows and the log agree if and only if the log was not written either, or with what it
      already held. */
  lemma LostWriteAgreesIff(start: State, env: Env, es: seq<Event>, e: Event)
    requires Initial(start) && RealEnv(env) && CoveredRun(start, env, es)
    requires Enabled(Run(start, env, es), e) && !e.step.StepRestart? && !e.step.StepUser? && !e.step.StepInvite?
    ensures var s := Run(start, env, es);
            && Enabled(s, WriteLost(e))
            && var after := Next(s, env, WriteLost(e)).0;
               (Agree(env, after) <==> after.backend == s.backend)
  {
    var s := Run(start, env, es);
    ReachableInv(start, env, es);
    LostWriteKeepsLog(s, env, e);
    StepLogs(s, env, WriteLost(e));
    AgreesIff(env, s, Next(s, env, WriteLost(e)).0);
  }

  lemma AgreesIff(env: Env, s: State, after: State)
    requires GoodStreams(env) && RowsOk(env, s) && OnlyLogged(env, s, after)
    ensures Agree(env, after) <==> after.backend == s.backend
  {
    SameKeys(after.invoices, s.invoices);
    if after.backend == s.backend {
      UnwrittenAgrees(env, s, after);
    } else if Agree(env, after) {
      var token, rec :| after.backend == s.backend[token := rec] && Rewrites(env, s.backend, token, rec);
      RewrittenSame(env, s, after, token, rec);
    }
  }

  lemma UnwrittenAgrees(env: Env, s: State, after: State)
    requires GoodStreams(env) && RowsOk(env, s) && after.invoices.Keys == s.invoices.Keys
    requires after.keys == s.keys && after.backend == s.backend && Views(after.invoices) == Views(s.invoices)
    ensures Agree(env, after)
  {
    forall t | t in after.backend ensures Shows(env, after.keys, t, after.backend[t], after.invoices[t]) {
      RowShown(env, s, t);
      SameViewAt(after.invoices, s.invoices, t);
    }
  }

  lemma RewrittenSame(env: Env, s: State, after: State, token: string, rec: Record)
    requires GoodStreams(env) && RowsOk(env, s) && after.keys == s.keys && Views(after.invoices) == Views(s.invoices)
    requires after.invoices.Keys == s.invoices.Keys && Agree(env, after)
    requires after.backend == s.backend[token := rec] && Rewrites(env, s.backend, token, rec)
    ensures after.backend == s.backend
  {
    AgreeAt(env, after, token);
    SameViewAt(after.invoices, s.invoices, token);
    RewriteShows(env, s, token, rec, after.invoices[token]);
    SameRecord(s.backend, token);
  }

  lemma AgreeAt(env: Env, s: State, t: string)
    requires Agree(env, s) && t in s.backend
    ensures t in s.invoices && Shows(env, s.keys, t, s.backend[t], s.invoices[t])
  {
  }

  lemma SameRecord(backend: map<string, Record>, token: string)
    requires token in backend
    ensures backend[token := backend[token]] == backend
  {
  }

  lemma SameKeys(a: map<string, Invoice>, b: map<string, Invoice>)
    requires Views(a) == Views(b)
    ensures a.Keys == b.Keys
  {
    assert a.Keys == Views(a).Keys && b.Keys == Views(b).Keys;
  }

  lemma RowShown(env: Env, s: State, t: string)
    requires GoodStreams(env) && RowsOk(env, s) && t in s.backend
    ensures Shows(env, s.keys, t, s.backend[t], s.invoices[t])
  {
    ReplayShowsRow(env, s.keys, s.issued, t, s.invoices[t], s.backend[t], None);
  }

  lemma SameViewAt(a: map<string, Invoice>, b: map<string, Invoice>, t: string)
    requires Views(a) == Views(b) && t in a
    ensures t in b && ViewOf(a[t]) == ViewOf(b[t])
  {
    assert t in Views(a) && Views(a)[t] == ViewOf(a[t]);
    assert t in Views(b) && Views(b)[t] == ViewOf(b[t]);
  }
}
