/** The payment checker over whole runs: what it credits, what it takes off the poll map, and why. */
module PollerTheorems {
  import opened Wrappers
  import opened MachineInts
  import opened Database
  import opened Accounts
  import opened Ledger
  import opened LedgerInvariants
  import opened LedgerRuns
  import opened LedgerTheorems
  import opened AddressTheorems

  // ---------------------------------------------------------------- crediting

  /** The entry's payment in the current row, if its address is still in use. */
  predicate IsPaymentOf(row: Invoice, k: nat, entry: PolledPayment) {
    k < |row.payments| && row.payments[k].address == entry.address && row.payments[k].amount == entry.amount &&
    row.payments[k].txNotBefore == entry.txNotBefore
  }

  /** Checking one entry of a copy of the poll map, however stale: on success the one payment with the entry's
      address, which is the very payment the entry was made for, gets the transaction, the invoice is Paid, and
      no other payment or invoice changes. If the address has been replaced meanwhile, nothing is credited. */
  ghost predicate CreditsOnlyIts(s: State, env: Env, key: string, lookup: Lookup, now: Time, io: Io)
    requires s.poller.Checking? && key in s.poller.snapshot
  {
    var entry := s.poller.snapshot[key];
    var (after, reply) := CheckEntry(s, env, key, lookup, now, io);
    if reply.Done? then
      && entry.token in s.invoices && lookup.Found? && now <= entry.pollExpiry
      && (exists k ::
            && IsPaymentOf(s.invoices[entry.token], k, entry)
            && (forall i | 0 <= i < |s.invoices[entry.token].payments| && i != k ::
                s.invoices[entry.token].payments[i].address != entry.address)
            && after.invoices == s.invoices[entry.token := CreditedRow(s.invoices[entry.token], k, lookup.txID, now)])
    else after.invoices == s.invoices && after.backend == s.backend
  }

  /** Any entry of a copy that once was the poll map is checked safely. */
  lemma CheckIsSafe(s: State, env: Env, key: string, lookup: Lookup, now: Time, io: Io)
    requires Inv(env, s) && InjectiveEnv(env) && io.dbOk && s.poller.Checking? && key in s.poller.snapshot
    ensures s.poller.snapshot[key].address == key
    ensures CreditsOnlyIts(s, env, key, lookup, now, io)
  {
    var entry := s.poller.snapshot[key];
    var skip := s.(poller := Checking(s.poller.snapshot - {key}, s.poller.toRemove));
    CheckEntryForm(s, env, key, lookup, now, io);
    if Load(s, entry.token).Some? && lookup.Found? {
      LoadedCopy(env, s, entry.token);
      StaleCreditIsSafe(env, s, skip, entry, key, lookup.txID, now, io);
    }
  }

  lemma StaleCreditIsSafe(env: Env, s: State, skip: State, entry: PolledPayment, key: string, txID: string, now: Time,
                          io: Io)
    requires Inv(env, s) && InjectiveEnv(env) && io.dbOk && entry.token in s.invoices && skip.poller.Checking?
    requires s.invoices[entry.token].token == entry.token
    requires skip.invoices == s.invoices && skip.backend == s.backend
    requires IssuedAs(s.issued, entry.token, entry.address, entry.amount, entry.txNotBefore)
    ensures var (after, reply) := CreditAndQueue(skip, env, s.invoices[entry.token].(changes := []), key, entry, txID,
              now, io);
            if reply.Done? then
              exists k ::
                && IsPaymentOf(s.invoices[entry.token], k, entry)
                && (forall i | 0 <= i < |s.invoices[entry.token].payments| && i != k ::
                    s.invoices[entry.token].payments[i].address != entry.address)
                && after.invoices == s.invoices[entry.token := CreditedRow(s.invoices[entry.token], k, txID, now)]
            else after.invoices == s.invoices && after.backend == s.backend
  {
    var inv := s.invoices[entry.token].(changes := []);
    CreditEffect(skip, env, inv, entry.address, entry.amount, txID, now, io);
    var k := FirstMatch(inv.payments, entry.address, entry.amount);
    if k.Some? {
      MatchIsThePayment(env, s, entry, k.value);
    }
  }

  lemma MatchIsThePayment(env: Env, s: State, entry: PolledPayment, k: nat)
    requires Inv(env, s) && InjectiveEnv(env) && entry.token in s.invoices
    requires IssuedAs(s.issued, entry.token, entry.address, entry.amount, entry.txNotBefore)
    requires k < |s.invoices[entry.token].payments| && s.invoices[entry.token].payments[k].address == entry.address
    requires s.invoices[entry.token].payments[k].amount == entry.amount
    ensures IsPaymentOf(s.invoices[entry.token], k, entry)
    ensures forall i | 0 <= i < |s.invoices[entry.token].payments| && i != k ::
              s.invoices[entry.token].payments[i].address != entry.address
  {
    var row := s.invoices[entry.token];
    assert RowOk(env, s.keys, s.issued, entry.token, row, s.backend[entry.token]);
    var p := row.payments[k];
    assert IssuedAs(s.issued, entry.token, p.address, p.amount, p.txNotBefore);
    SameIssue(env, s, entry.token, p.address, p.amount, p.txNotBefore, entry.amount, entry.txNotBefore);
  }

  /** In every run, the poller's copy of the poll map may be as stale as it likes: CheckIsSafe holds of whatever
      entry it checks next, and an entry whose address is no longer that of a payment is never credited. */
  lemma StaleCheckIsSafe(start: State, env: Env, es: seq<Event>, key: string, lookup: Lookup, now: Time, io: Io)
    requires Initial(start) && RealEnv(env) && CoveredRun(start, env, es) && io.dbOk
    requires Run(start, env, es).poller.Checking? && key in Run(start, env, es).poller.snapshot
    ensures CreditsOnlyIts(Run(start, env, es), env, key, lookup, now, io)
    ensures var s := Run(start, env, es);
            var token := s.poller.snapshot[key].token;
            token !in s.invoices || (forall i | 0 <= i < |s.invoices[token].payments| ::
                s.invoices[token].payments[i].address != key) ==>
              !CheckEntry(s, env, key, lookup, now, io).1.Done?
  {
    ReachableInv(start, env, es);
    CheckIsSafe(Run(start, env, es), env, key, lookup, now, io);
  }

  // ---------------------------------------------------------------- removing

  /** The state after the first k events of a run. */
  ghost function StateAt(start: State, env: Env, es: seq<Event>, k: nat): State
    requires CoveredRun(start, env, es) && k <= |es|
    decreases k
  {
    if k == 0 then start else StateAt(Next(start, env, es[0]).0, env, es[1..], k - 1)
  }

  /** What one check may queue: nothing, its own key once the entry's invoice is Paid, or the invoice token. */
  predicate Queues(s: State, key: string, after: State)
    requires s.poller.Checking? && key in s.poller.snapshot
  {
    var token := s.poller.snapshot[key].token;
    && after.poller.Checking?
    && (|| after.poller.toRemove == s.poller.toRemove
        || (after.poller.toRemove == s.poller.toRemove + [token] && token in after.backend)
        || (after.poller.toRemove == s.poller.toRemove + [key] && IsPaid(after, token)))
  }

  predicate IsPaid(s: State, token: string) {
    token in s.invoices && s.invoices[token].status.Paid? && token in s.backend
  }

  lemma CheckQueues(env: Env, s: State, key: string, lookup: Lookup, now: Time, io: Io)
    requires Inv(env, s) && io.dbOk && s.poller.Checking? && key in s.poller.snapshot
    ensures Queues(s, key, CheckEntry(s, env, key, lookup, now, io).0)
  {
    var entry := s.poller.snapshot[key];
    CheckEntryForm(s, env, key, lookup, now, io);
    if Load(s, entry.token).Some? {
      LoadedCopy(env, s, entry.token);
      var skip := s.(poller := Checking(s.poller.snapshot - {key}, s.poller.toRemove));
      if lookup.Found? {
        CreditQueues(env, s, skip, key, lookup.txID, now, io);
      }
    }
  }

  lemma CreditQueues(env: Env, s: State, skip: State, key: string, txID: string, now: Time, io: Io)
    requires s.poller.Checking? && key in s.poller.snapshot && s.poller.snapshot[key].token in s.invoices && io.dbOk
    requires skip == s.(poller := Checking(s.poller.snapshot - {key}, s.poller.toRemove))
    requires s.invoices[s.poller.snapshot[key].token].token == s.poller.snapshot[key].token
    ensures var entry := s.poller.snapshot[key];
            Queues(s, key, CreditAndQueue(skip, env, s.invoices[entry.token].(changes := []), key, entry, txID, now,
                io).0)
  {
    var entry := s.poller.snapshot[key];
    CreditEffect(skip, env, s.invoices[entry.token].(changes := []), entry.address, entry.amount, txID, now, io);
  }

  /** Event k is the check that found the invoice Paid and queued the key; the poller has been in the same pass
      since, and the log of the invoice has been extended at most by an edit and what came after it. */
  ghost predicate FoundPaid(start: State, env: Env, es: seq<Event>, key: string, k: nat, token: string)
    requires CoveredRun(start, env, es) && k < |es|
  {
    var before, after, end := StateAt(start, env, es, k), StateAt(start, env, es, k + 1), Run(start, env, es);
    && es[k].step.StepCheck? && es[k].step.key == key
    && before.poller.Checking? && key in before.poller.snapshot && before.poller.snapshot[key].token == token
    && IsPaid(after, token)
    && SamePass(es, k + 1)
    && token in end.backend && after.backend[token].changes <= end.backend[token].changes
  }

  predicate SamePass(es: seq<Event>, k: nat) {
    forall m | k <= m < |es| :: !(es[m].step.StepSnapshot? || es[m].step.StepRemove? || es[m].step.StepRestart?)
  }

  /** Where a queued key comes from, over any stretch of a run. */
  lemma {:induction false} QueuedWasPaid(s: State, env: Env, es: seq<Event>, key: string)
    requires Inv(env, s) && GoodEnv(env) && CoveredRun(s, env, es)
    requires Run(s, env, es).poller.Checking? && key in Run(s, env, es).poller.toRemove &&
              key !in Run(s, env, es).backend
    ensures || (s.poller.Checking? && key in s.poller.toRemove && SamePass(es, 0))
            || exists k, token | 0 <= k < |es| :: FoundPaid(s, env, es, key, k, token)
    decreases |es|
  {
    if es != [] {
      var next := Next(s, env, es[0]).0;
      NextStep(s, env, es[0]);
      QueuedWasPaid(next, env, es[1..], key);
      RunExtends(next, env, es[1..]);
      if next.poller.Checking? && key in next.poller.toRemove && SamePass(es[1..], 0) {
        QueuedBy(s, env, es, key);
      } else {
        var k, token :| 0 <= k < |es[1..]| && FoundPaid(next, env, es[1..], key, k, token);
        LaterFound(s, env, es, key, k, token);
      }
    }
  }

  lemma LaterFound(s: State, env: Env, es: seq<Event>, key: string, k: nat, token: string)
    requires CoveredRun(s, env, es) && k + 1 < |es|
    requires FoundPaid(Next(s, env, es[0]).0, env, es[1..], key, k, token)
    ensures FoundPaid(s, env, es, key, k + 1, token)
  {
    assert es[1..][k] == es[k + 1];
    forall m | k + 2 <= m < |es|
      ensures !(es[m].step.StepSnapshot? || es[m].step.StepRemove? || es[m].step.StepRestart?) {
      assert es[1..][m - 1] == es[m];
    }
  }

  lemma NewInQueue(s: State, key: string, after: State, queued: string)
    requires s.poller.Checking? && key in s.poller.snapshot && Queues(s, key, after)
    requires queued in after.poller.toRemove && queued !in s.poller.toRemove && queued !in after.backend
    ensures queued == key && IsPaid(after, s.poller.snapshot[key].token)
  {
  }

  /** Steps other than a check add nothing to the queue. */
  lemma QueueKept(s: State, env: Env, e: Event, key: string)
    requires Enabled(s, e) && !e.step.StepCheck?
    requires Next(s, env, e).0.poller.Checking? && key in Next(s, env, e).0.poller.toRemove
    ensures s.poller.Checking? && key in s.poller.toRemove && SamePass([e], 0)
  {
    NextExtends(s, env, e);
    if e.step.StepRestart? {
      PollApprovedExtends(s.(invoices := LoadInventory(env, s.keys, s.backend, e.step.order), polled := map[],
          poller := Sleeping),
                          e.step.order, e.now);
    }
  }

  /** The first event of a stretch either queued the key or found it queued. */
  lemma QueuedBy(s: State, env: Env, es: seq<Event>, key: string)
    requires Inv(env, s) && GoodEnv(env) && es != [] && CoveredRun(s, env, es)
    requires var next := Next(s, env, es[0]).0;
             next.poller.Checking? && key in next.poller.toRemove && SamePass(es[1..], 0) &&
                 LogExtends(next, Run(s, env, es))
    requires key !in Run(s, env, es).backend
    ensures || (s.poller.Checking? && key in s.poller.toRemove && SamePass(es, 0))
            || exists k, token | 0 <= k < |es| :: FoundPaid(s, env, es, key, k, token)
  {
    var e, next := es[0], Next(s, env, es[0]).0;
    PassFrom(es);
    if !e.step.StepCheck? {
      QueueKept(s, env, e, key);
    } else if key !in s.poller.toRemove {
      CheckQueues(env, s, e.step.key, e.step.lookup, e.now, e.io);
      NewInQueue(s, e.step.key, next, key);
      assert StateAt(s, env, es, 0) == s && StateAt(s, env, es, 1) == next;
      assert FoundPaid(s, env, es, key, 0, s.poller.snapshot[key].token);
    }
  }

  lemma PassFrom(es: seq<Event>)
    requires es != [] && SamePass(es[1..], 0)
    ensures SamePass(es, 1)
    ensures SamePass([es[0]], 0) || es[0].step.StepCheck? ==> SamePass(es, 0)
  {
    assert forall m | 1 <= m < |es| :: es[1..][m - 1] == es[m];
    assert [es[0]][0] == es[0];
  }

  /** In every run, a key the poller is about to remove, unless it is an invoice token, was queued by a check of this
      very pass that left the entry's invoice Paid. The invoice is Paid still, unless its log shows that it has been
      edited since. If no two users share key and index, it is the invoice the poll map now holds the key for. */
  lemma RemovedWerePaid(start: State, env: Env, es: seq<Event>, key: string)
    requires Initial(start) && RealEnv(env) && CoveredRun(start, env, es)
    requires var s := Run(start, env, es); s.poller.Checking? && key in s.poller.toRemove && key !in s.backend
    ensures exists k, token | 0 <= k < |es| ::
              && FoundPaid(start, env, es, key, k, token)
              && PaidUnlessEdited(Run(start, env, es), token, StateAt(start, env, es, k + 1))
              && ForItsInvoice(Run(start, env, es), key, token)
  {
    ReachableInv(start, env, es);
    QueuedWasPaid(start, env, es, key);
    var k, token :| 0 <= k < |es| && FoundPaid(start, env, es, key, k, token);
    FoundForItsInvoice(start, env, es, key, k, token);
    FoundStaysPaid(start, env, es, k + 1, token);
  }

  predicate ForItsInvoice(s: State, key: string, token: string) {
    NoSharedIndex(s.issued) && key in s.polled ==> s.polled[key].token == token
  }

  lemma FoundForItsInvoice(s: State, env: Env, es: seq<Event>, key: string, k: nat, token: string)
    requires Inv(env, s) && GoodEnv(env) && CoveredRun(s, env, es) && k < |es| && Inv(env, Run(s, env, es))
    requires var before := StateAt(s, env, es, k);
             before.poller.Checking? && key in before.poller.snapshot && before.poller.snapshot[key].token == token
    ensures ForItsInvoice(Run(s, env, es), key, token)
  {
    StateAtInv(s, env, es, k);
    HeldForIts(env, StateAt(s, env, es, k), Run(s, env, es), key, token);
  }

  lemma FoundStaysPaid(s: State, env: Env, es: seq<Event>, n: nat, token: string)
    requires Inv(env, s) && GoodEnv(env) && CoveredRun(s, env, es) && n <= |es| && Inv(env, Run(s, env, es))
    requires var after, end := StateAt(s, env, es, n), Run(s, env, es);
             IsPaid(after, token) && token in end.backend && after.backend[token].changes <= end.backend[token].changes
    ensures PaidUnlessEdited(Run(s, env, es), token, StateAt(s, env, es, n))
  {
    StateAtInv(s, env, es, n);
    PaidStays(env, StateAt(s, env, es, n), Run(s, env, es), token);
  }

  lemma HeldForIts(env: Env, earlier: State, s: State, key: string, token: string)
    requires Inv(env, earlier) && Inv(env, s) && InjectiveEnv(env) && LogExtends(earlier, s)
    requires earlier.poller.Checking? && key in earlier.poller.snapshot && earlier.poller.snapshot[key].token == token
    ensures ForItsInvoice(s, key, token)
  {
    if NoSharedIndex(s.issued) && key in s.polled {
      SameEntry(env, earlier, s, key);
    }
  }

  predicate PaidUnlessEdited(s: State, token: string, earlier: State) {
    && token in s.invoices && token in s.backend && token in earlier.backend
    && var cs, n := s.backend[token].changes, |earlier.backend[token].changes|;
       if n < |cs| then cs[n].newStatus.UnreviewedChanges? else s.invoices[token].status.Paid?
  }

  lemma {:induction false} StateAtInv(s: State, env: Env, es: seq<Event>, k: nat)
    requires Inv(env, s) && GoodEnv(env) && CoveredRun(s, env, es) && k <= |es|
    ensures Inv(env, StateAt(s, env, es, k)) && LogExtends(StateAt(s, env, es, k), Run(s, env, es))
    decreases k
  {
    if k == 0 {
      RunExtends(s, env, es);
    } else {
      NextStep(s, env, es[0]);
      StateAtInv(Next(s, env, es[0]).0, env, es[1..], k - 1);
    }
  }

  lemma StatusLogged(env: Env, s: State, token: string)
    requires RowsOk(env, s) && token in s.backend
    ensures token in s.invoices && Grammar(s.backend[token].changes) &&
              s.invoices[token].status == LastStatus(s.backend[token].changes)
  {
    assert RowOk(env, s.keys, s.issued, token, s.invoices[token], s.backend[token]);
  }

  /** After Paid the log only goes on with an edit. */
  lemma PaidStays(env: Env, earlier: State, s: State, token: string)
    requires Inv(env, earlier) && Inv(env, s) && token in earlier.invoices && token in earlier.backend &&
              token in s.backend
    requires earlier.invoices[token].status.Paid? && earlier.backend[token].changes <= s.backend[token].changes
    ensures PaidUnlessEdited(s, token, earlier)
  {
    StatusLogged(env, earlier, token);
    StatusLogged(env, s, token);
    AfterPaid(earlier.backend[token].changes, s.backend[token].changes);
  }

  lemma AfterPaid(before: seq<StreamChange>, cs: seq<StreamChange>)
    requires Grammar(before) && Grammar(cs) && before <= cs && LastStatus(before).Paid?
    ensures if |before| < |cs| then cs[|before|].newStatus.UnreviewedChanges? else LastStatus(cs).Paid?
  {
    assert cs[|before| - 1] == before[|before| - 1];
    if |before| < |cs| {
      GrammarFacts(cs, |before|);
    }
  }

  lemma EntryIssued(issued: seq<Issue>, polled: map<string, PolledPayment>, key: string)
    requires PolledOk(issued, polled) && key in polled
    ensures IssuedAs(issued, polled[key].token, key, polled[key].amount, polled[key].txNotBefore)
  {
  }

  lemma SameEntry(env: Env, earlier: State, s: State, key: string)
    requires Inv(env, earlier) && Inv(env, s) && InjectiveEnv(env) && LogExtends(earlier, s) && NoSharedIndex(s.issued)
    requires earlier.poller.Checking? && key in earlier.poller.snapshot && key in s.polled
    ensures earlier.poller.snapshot[key].token == s.polled[key].token
  {
    var old', new' := earlier.poller.snapshot[key], s.polled[key];
    EntryIssued(earlier.issued, earlier.poller.snapshot, key);
    EntryIssued(s.issued, s.polled, key);
    IssuedGrow(earlier.issued, s.issued, old'.token, key, old'.amount, old'.txNotBefore);
    OneTerms(env, s, key, old'.token, new'.token, Terms(old'.amount, old'.txNotBefore),
        Terms(new'.amount, new'.txNotBefore));
  }

  /** The expired branch queues the invoice token, not the key. Whatever else is queued, the expired entry's own key
      leaves the poll map if and only if it was queued otherwise or happens to be the token. */
  lemma ExpiredEntryStays(s: State, env: Env, key: string, lookup: Lookup, now: Time, io: Io)
    requires s.poller.Checking? && key in s.poller.snapshot && key in s.polled
    requires Load(s, s.poller.snapshot[key].token).Some? && !Load(s, s.poller.snapshot[key].token).value.status.Paid?
    requires now > s.poller.snapshot[key].pollExpiry
    ensures var after := CheckEntry(s, env, key, lookup, now, io).0;
            key !in RemoveChecked(after).polled <==> key in s.poller.toRemove || key == s.poller.snapshot[key].token
  {
    var after := CheckEntry(s, env, key, lookup, now, io).0;
    assert after.poller.toRemove == s.poller.toRemove + [s.poller.snapshot[key].token];
  }
}
