/** What an address stands for: issued once, for one payment of one invoice, as long as no two users share an
    extended key and no index passes 2^32. */
module AddressTheorems {
  import opened Wrappers
  import opened MachineInts
  import opened Database
  import opened Accounts
  import opened Ledger
  import opened LedgerInvariants
  import opened LedgerRuns
  import opened LedgerTheorems

  // ---------------------------------------------------------------- issued addresses

  /** All addresses ever issued to one user differ, whatever became of the user's extended key in between. */
  lemma AddressesFresh(start: State, env: Env, es: seq<Event>, i: nat, j: nat)
    requires Initial(start) && RealEnv(env) && CoveredRun(start, env, es)
    requires i < j < |Run(start, env, es).issued|
    requires Run(start, env, es).issued[i].uid == Run(start, env, es).issued[j].uid
    ensures Run(start, env, es).issued[i].address != Run(start, env, es).issued[j].address
  {
    ReachableInv(start, env, es);
    var s := Run(start, env, es);
    assert IssueOk(env, s.users, s.invoices, s.issued[i]) && IssueOk(env, s.users, s.invoices, s.issued[j]);
  }

  /** Two issues that would give one address to two users. */
  predicate SharedIndex(a: Issue, b: Issue) {
    a.uid != b.uid && a.extendedPublicKey == b.extendedPublicKey && a.index == b.index
  }

  predicate NoSharedIndex(issued: seq<Issue>) {
    forall i, j | 0 <= i < j < |issued| :: !SharedIndex(issued[i], issued[j])
  }

  /** No two users were issued addresses under one extended key. */
  predicate KeysApart(issued: seq<Issue>) {
    forall i, j | 0 <= i < j < |issued| :: issued[i].uid != issued[j].uid ==>
        issued[i].extendedPublicKey != issued[j].extendedPublicKey
  }

  predicate AddressesDistinct(issued: seq<Issue>) {
    forall i, j | 0 <= i < j < |issued| :: issued[i].address != issued[j].address
  }

  /** Nothing stops two users from giving the same extended key. Two issues of a run share their address if and
      only if they belong to different users whose keys and indices agree. */
  lemma SharedAddressIff(env: Env, s: State, i: nat, j: nat)
    requires Inv(env, s) && InjectiveEnv(env) && i < j < |s.issued|
    ensures s.issued[i].address == s.issued[j].address <==> SharedIndex(s.issued[i], s.issued[j])
  {
    assert IssueOk(env, s.users, s.invoices, s.issued[i]) && IssueOk(env, s.users, s.invoices, s.issued[j]);
  }

  /** In every run all addresses issued to anyone are distinct if and only if no two users share key and index;
      that no two users were given addresses under one key is enough. */
  lemma AddressesDistinctIff(start: State, env: Env, es: seq<Event>)
    requires Initial(start) && RealEnv(env) && CoveredRun(start, env, es)
    ensures AddressesDistinct(Run(start, env, es).issued) <==> NoSharedIndex(Run(start, env, es).issued)
    ensures KeysApart(Run(start, env, es).issued) ==> NoSharedIndex(Run(start, env, es).issued)
  {
    ReachableInv(start, env, es);
    var s := Run(start, env, es);
    forall i, j | 0 <= i < j < |s.issued|
      ensures s.issued[i].address == s.issued[j].address <==> SharedIndex(s.issued[i], s.issued[j])
    {
      SharedAddressIff(env, s, i, j);
    }
  }

  /** The index is cut to 32 bits when an address is derived, but not where it is stored. A payment call derives the
      address of an earlier issue if and only if the key is the one used then and the index is that of the issue
      again, modulo 2^32. */
  lemma NewAddressReuseIff(env: Env, s: State, token: string, costUSD: uint64, rate: real, now: Time, io: Io, j: nat)
    requires Inv(env, s) && InjectiveEnv(env) && j < |s.issued|
    requires Pay(s, env, token, costUSD, rate, now, io).1.Done?
    ensures token in s.invoices && s.invoices[token].userID in s.users
    ensures var after := Pay(s, env, token, costUSD, rate, now, io).0;
            var u := s.users[s.invoices[token].userID];
            && |after.issued| == |s.issued| + 1
            && (after.issued[|s.issued|].address == s.issued[j].address <==>
                u.extendedPublicKey == s.issued[j].extendedPublicKey &&
                u.paymentAddressIndex % TWO_TO_THE_32 == s.issued[j].index)
  {
    PaidAt(env, s, token, costUSD, rate, now, io);
    assert IssueOk(env, s.users, s.invoices, s.issued[j]);
  }

  /** A successful payment call issues one address, derived at the owner's index modulo 2^32. */
  lemma PaidAt(env: Env, s: State, token: string, costUSD: uint64, rate: real, now: Time, io: Io)
    requires Pay(s, env, token, costUSD, rate, now, io).1.Done?
    ensures token in s.invoices && s.invoices[token].userID in s.users
    ensures var after := Pay(s, env, token, costUSD, rate, now, io).0;
            var u := s.users[s.invoices[token].userID];
            && |after.issued| == |s.issued| + 1
            && env.derive(u.extendedPublicKey, u.paymentAddressIndex % TWO_TO_THE_32) ==
                Some(after.issued[|s.issued|].address)
  {
    var inv := Load(s, token).value;
    var file := FileFor(s, inv).value;
    PaidIssue(env, Refresh(s, inv, now), inv.(file := Some(file)), costUSD == 0, CostOf(env, file, costUSD), rate, now,
        io);
  }

  lemma PaidIssue(env: Env, s: State, inv: Invoice, isTotalCost: bool, cost: Option<uint64>, rate: real, now: Time,
                  io: Io)
    requires inv.token in s.invoices && inv.userID in s.users && |inv.payments| == |s.invoices[inv.token].payments|
    requires CreatePayment(s, env, inv, isTotalCost, cost, rate, now, io).1.Done?
    ensures var after := CreatePayment(s, env, inv, isTotalCost, cost, rate, now, io).0;
            && |after.issued| == |s.issued| + 1
            && env.derive(s.users[inv.userID].extendedPublicKey,
                s.users[inv.userID].paymentAddressIndex % TWO_TO_THE_32)
               == Some(after.issued[|s.issued|].address)
  {
  }

  /** Two issues of one address to one invoice are the same issue. */
  lemma SameIssue(env: Env, s: State, token: string, address: string, amount: uint64, time: int64, amount': uint64,
                  time': int64)
    requires Inv(env, s) && InjectiveEnv(env)
    requires IssuedAs(s.issued, token, address, amount, time) && IssuedAs(s.issued, token, address, amount', time')
    ensures amount == amount' && time == time'
  {
    var i :| 0 <= i < |s.issued| && Fits(s.issued[i], token, address, amount, time);
    var j :| 0 <= j < |s.issued| && Fits(s.issued[j], token, address, amount', time');
    assert IssueOk(env, s.users, s.invoices, s.issued[i]) && IssueOk(env, s.users, s.invoices, s.issued[j]);
    OneIssuePerIndex(env, s, i, j);
  }

  lemma OneIssuePerIndex(env: Env, s: State, i: nat, j: nat)
    requires IssuesOk(env, s.users, s.invoices, s.issued) && i < |s.issued| && j < |s.issued|
    requires s.issued[i].uid == s.issued[j].uid && s.issued[i].index == s.issued[j].index
    ensures i == j
  {
  }

  // ---------------------------------------------------------------- what a step leaves alone

  /** Issues are added, logs are extended, and the poller is where it was. */
  predicate Extends(s: State, after: State) {
    s.issued <= after.issued && LogGrows(s.backend, after.backend) && after.poller == s.poller
  }

  lemma SubmitExtends(s: State, env: Env, uid: uint64, activeKey: Option<string>, req: InvoiceRequest, month: uint16,
                      year: uint16, token: string, serverSignature: string, now: Time, io: Io)
    requires token !in s.backend
    ensures Extends(s, Submit(s, env, uid, activeKey, req, month, year, token, serverSignature, now, io).0)
  {
  }

  lemma EditExtends(s: State, env: Env, activeKey: Option<string>, token: string, req: InvoiceRequest, version: string,
                    now: Time, io: Io)
    ensures Extends(s, Edit(s, env, activeKey, token, req, version, now, io).0)
  {
  }

  lemma SetStatusExtends(s: State, activeKey: Option<string>, token: string, publicKey: string, signatureValid: bool,
                         status: Status, reason: Option<string>, now: Time, io: Io)
    ensures Extends(s, SetStatus(s, activeKey, token, publicKey, signatureValid, status, reason, now, io).0)
  {
  }

  lemma PayExtends(s: State, env: Env, token: string, costUSD: uint64, rate: real, now: Time, io: Io)
    ensures Extends(s, Pay(s, env, token, costUSD, rate, now, io).0)
  {
    var inv := Load(s, token);
    if inv.Some? && FileFor(s, inv.value).Some? {
      var file := FileFor(s, inv.value).value;
      CreateExtends(Refresh(s, inv.value, now), env, inv.value.(file := Some(file)), costUSD == 0,
          CostOf(env, file, costUSD), rate, now, io);
    }
  }

  lemma CreateExtends(s: State, env: Env, inv: Invoice, isTotalCost: bool, cost: Option<uint64>, rate: real, now: Time,
                      io: Io)
    requires inv.token in s.invoices && inv.userID in s.users && |inv.payments| == |s.invoices[inv.token].payments|
    ensures Extends(s, CreatePayment(s, env, inv, isTotalCost, cost, rate, now, io).0)
  {
  }

  lemma CreditExtends(s: State, env: Env, inv: Invoice, address: string, amount: uint64, txID: string, now: Time,
                      io: Io)
    ensures Extends(s, Credit(s, env, inv, address, amount, txID, now, io).0)
  {
  }

  /** As Extends, for the steps that move the poller. */
  predicate LogExtends(s: State, after: State) {
    s.issued <= after.issued && LogGrows(s.backend, after.backend)
  }

  lemma CheckExtends(s: State, env: Env, key: string, lookup: Lookup, now: Time, io: Io)
    requires s.poller.Checking? && key in s.poller.snapshot
    ensures LogExtends(s, CheckEntry(s, env, key, lookup, now, io).0)
  {
    var entry := s.poller.snapshot[key];
    var skip := s.(poller := Checking(s.poller.snapshot - {key}, s.poller.toRemove));
    CheckEntryForm(s, env, key, lookup, now, io);
    if Load(s, entry.token).Some? && lookup.Found? {
      CreditExtends(skip, env, Load(s, entry.token).value, entry.address, entry.amount, lookup.txID, now, io);
    }
  }

  lemma {:induction false} PollApprovedExtends(s: State, order: seq<string>, now: Time)
    ensures Extends(s, PollApproved(s, order, now))
  {
    if order != [] {
      PollApprovedExtends(s, order[..|order| - 1], now);
    }
  }

  predicate MovesPoller(step: Step) {
    step.StepSnapshot? || step.StepCheck? || step.StepRemove? || step.StepRestart?
  }

  /** Every step only adds issues and extends logs, and only the poller's own steps and a restart move the poller. */
  lemma NextExtends(s: State, env: Env, e: Event)
    requires Enabled(s, e)
    ensures LogExtends(s, Next(s, env, e).0)
    ensures !MovesPoller(e.step) ==> Next(s, env, e).0.poller == s.poller
  {
    match e.step
    case StepSubmit(uid, req, month, year, token, sig) =>
      SubmitExtends(s, env, uid, KeyOf(s.users, uid), req, month, year, token, sig, e.now, e.io);
    case StepEdit(uid, token, req, version) =>
        EditExtends(s, env, KeyOf(s.users, uid), token, req, version, e.now, e.io);
    case StepSetStatus(uid, token, key, valid, status, reason) =>
      SetStatusExtends(s, KeyOf(s.users, uid), token, key, valid, status, reason, e.now, e.io);
    case StepPay(token, costUSD, rate) => PayExtends(s, env, token, costUSD, rate, e.now, e.io);
    case StepUpdatePayment(token, address, amount, txID) =>
      if Load(s, token).Some? {
        CreditExtends(s, env, Load(s, token).value, address, amount, txID, e.now, e.io);
      }
    case StepCheck(key, lookup) => CheckExtends(s, env, key, lookup, e.now, e.io);
    case StepRestart(order) =>
      PollApprovedExtends(s.(invoices := LoadInventory(env, s.keys, s.backend, order), polled := map[],
          poller := Sleeping), order, e.now);
    case _ =>
  }

  lemma {:induction false} RunExtends(s: State, env: Env, es: seq<Event>)
    requires CoveredRun(s, env, es)
    ensures LogExtends(s, Run(s, env, es))
    decreases |es|
  {
    if es != [] {
      var next := Next(s, env, es[0]).0;
      NextExtends(s, env, es[0]);
      RunExtends(next, env, es[1..]);
      LogExtendsOn(s, next, Run(next, env, es[1..]));
    }
  }

  lemma LogExtendsOn(a: State, b: State, c: State)
    requires LogExtends(a, b) && LogExtends(b, c)
    ensures LogExtends(a, c)
  {
  }

  // ---------------------------------------------------------------- written once

  datatype Terms = Terms(amount: uint64, txNotBefore: int64)

  predicate InRow(s: State, token: string, address: string, terms: Terms) {
    token in s.invoices && exists i | 0 <= i < |s.invoices[token].payments| ::
      var p := s.invoices[token].payments[i]; p.address == address && Terms(p.amount, p.txNotBefore) == terms
  }

  predicate InMap(polled: map<string, PolledPayment>, token: string, address: string, terms: Terms) {
    address in polled && polled[address].token == token &&
        Terms(polled[address].amount, polled[address].txNotBefore) == terms
  }

  /** An address of an invoice is seen with these terms, in its row, in the poll map or in the poller's copy. */
  predicate Seen(s: State, token: string, address: string, terms: Terms) {
    || InRow(s, token, address, terms)
    || InMap(s.polled, token, address, terms)
    || (s.poller.Checking? && InMap(s.poller.snapshot, token, address, terms))
  }

  lemma SeenIsIssued(env: Env, s: State, token: string, address: string, terms: Terms)
    requires Inv(env, s) && Seen(s, token, address, terms)
    ensures IssuedAs(s.issued, token, address, terms.amount, terms.txNotBefore)
  {
    if InRow(s, token, address, terms) {
      assert RowOk(env, s.keys, s.issued, token, s.invoices[token], s.backend[token]);
    }
  }

  /** Under the exact condition for distinct addresses, one address is one issue. */
  lemma OneIssue(env: Env, s: State, address: string, i: nat, j: nat)
    requires Inv(env, s) && InjectiveEnv(env) && NoSharedIndex(s.issued) && i < |s.issued| && j < |s.issued|
    requires s.issued[i].address == address == s.issued[j].address
    ensures i == j
  {
    if i < j {
      SharedAddressIff(env, s, i, j);
    } else if j < i {
      SharedAddressIff(env, s, j, i);
    }
  }

  lemma OneTerms(env: Env, s: State, address: string, token: string, token': string, terms: Terms, terms': Terms)
    requires Inv(env, s) && InjectiveEnv(env) && NoSharedIndex(s.issued)
    requires IssuedAs(s.issued, token, address, terms.amount, terms.txNotBefore)
    requires IssuedAs(s.issued, token', address, terms'.amount, terms'.txNotBefore)
    ensures token == token' && terms == terms'
  {
    var i :| 0 <= i < |s.issued| && Fits(s.issued[i], token, address, terms.amount, terms.txNotBefore);
    var j :| 0 <= j < |s.issued| && Fits(s.issued[j], token', address, terms'.amount, terms'.txNotBefore);
    OneIssue(env, s, address, i, j);
  }

  lemma SeenLater(start: State, env: Env, before: seq<Event>, after: seq<Event>, token: string, address: string,
                  terms: Terms)
    requires Initial(start) && RealEnv(env) && CoveredRun(start, env, before) &&
              CoveredRun(Run(start, env, before), env, after)
    requires Seen(Run(start, env, before), token, address, terms)
    ensures Inv(env, Run(Run(start, env, before), env, after))
    ensures IssuedAs(Run(Run(start, env, before), env, after).issued, token, address, terms.amount, terms.txNotBefore)
  {
    var mid := Run(start, env, before);
    var end := Run(mid, env, after);
    ReachableInv(start, env, before);
    RunKeepsInv(mid, env, after);
    RunExtends(mid, env, after);
    SeenIsIssued(env, mid, token, address, terms);
    IssuedGrow(mid.issued, end.issued, token, address, terms.amount, terms.txNotBefore);
  }

  /** An address is written once, for one payment of one invoice: as long as no two users share key and index, the
      invoice, the amount and the earliest transaction time with which it is seen at one point of a run, in a row,
      in the poll map or in the poller's copy, are the same wherever it is seen later, under whatever invoice. */
  lemma WriteOnce(start: State, env: Env, before: seq<Event>, after: seq<Event>, address: string, token: string,
                  token': string, old': Terms, new': Terms)
    requires Initial(start) && RealEnv(env) && CoveredRun(start, env, before) &&
              CoveredRun(Run(start, env, before), env, after)
    requires NoSharedIndex(Run(Run(start, env, before), env, after).issued)
    requires Seen(Run(start, env, before), token, address, old')
    requires Seen(Run(Run(start, env, before), env, after), token', address, new')
    ensures token == token' && old' == new'
  {
    var end := Run(Run(start, env, before), env, after);
    SeenLater(start, env, before, after, token, address, old');
    SeenIsIssued(env, end, token', address, new');
    OneTerms(env, end, address, token, token', old', new');
  }

  /** Within one invoice no condition is needed. */
  lemma WriteOncePerInvoice(start: State, env: Env, before: seq<Event>, after: seq<Event>, token: string,
                            address: string, old': Terms, new': Terms)
    requires Initial(start) && RealEnv(env) && CoveredRun(start, env, before) &&
              CoveredRun(Run(start, env, before), env, after)
    requires Seen(Run(start, env, before), token, address, old')
    requires Seen(Run(Run(start, env, before), env, after), token, address, new')
    ensures old' == new'
  {
    var end := Run(Run(start, env, before), env, after);
    SeenLater(start, env, before, after, token, address, old');
    SeenIsIssued(env, end, token, address, new');
    SameIssue(env, end, token, address, old'.amount, old'.txNotBefore, new'.amount, new'.txNotBefore);
  }
}
