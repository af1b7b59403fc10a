/** What is polled after a restart: the unpaid payments of the approved invoices, and nothing else. */
module RestartPolls {
  import opened Wrappers
  import opened MachineInts
  import opened Database
  import opened Accounts
  import opened Ledger
  import opened LedgerInvariants
  import opened LedgerRuns
  import opened LedgerTheorems
  import opened AddressTheorems
  import opened CheckOutcomes

  /** Payment k of an approved invoice has no transaction yet. */
  predicate Owed(invoices: map<string, Invoice>, t: string, k: int) {
    t in invoices && invoices[t].status.Approved? && 0 <= k < |invoices[t].payments| &&
        invoices[t].payments[k].txID == ""
  }

  /** The entry of the poll map for a payment, good for another day. */
  function EntryFor(t: string, p: InvoicePayment, now: Time): PolledPayment {
    PolledPayment(t, p.address, p.amount, p.txNotBefore, now + POLL_EXPIRY_DURATION)
  }

  /** Every owed payment has its address in the poll map. */
  ghost predicate AllPolled(s: State) {
    forall t, k | Owed(s.invoices, t, k) :: s.invoices[t].payments[k].address in s.polled
  }

  /** Every entry of the poll map is that of an owed payment. */
  ghost predicate OnlyOwedPolled(s: State, now: Time) {
    forall key | key in s.polled :: exists t, k ::
      Owed(s.invoices, t, k) && s.invoices[t].payments[k].address == key &&
      s.polled[key] == EntryFor(t, s.invoices[t].payments[k], now)
  }

  // ---------------------------------------------------------------- polling one invoice after the other

  /** The rows of a restart differ from the loaded ones in poll expiries only. */
  predicate SameButExpiry(a: seq<InvoicePayment>, b: seq<InvoicePayment>) {
    |a| == |b| && forall i | 0 <= i < |a| :: a[i].(pollExpiry := 0) == b[i].(pollExpiry := 0)
  }

  predicate SameRows(loaded: map<string, Invoice>, invoices: map<string, Invoice>) {
    && invoices.Keys == loaded.Keys
    && forall t | t in loaded ::
         invoices[t] == loaded[t].(payments := invoices[t].payments) &&
         SameButExpiry(loaded[t].payments, invoices[t].payments)
  }

  lemma SameOwed(loaded: map<string, Invoice>, invoices: map<string, Invoice>, t: string, k: int)
    requires SameRows(loaded, invoices)
    ensures Owed(loaded, t, k) <==> Owed(invoices, t, k)
    ensures Owed(loaded, t, k) ==>
              invoices[t].payments[k].(pollExpiry := 0) == loaded[t].payments[k].(pollExpiry := 0)
  {
    if t in loaded && 0 <= k < |loaded[t].payments| {
      assert loaded[t].payments[k].(pollExpiry := 0) == invoices[t].payments[k].(pollExpiry := 0);
    }
  }

  /** The poll map after some of the invoices have been gone through. */
  ghost predicate PolledFor(loaded: map<string, Invoice>, tokens: set<string>, polled: map<string, PolledPayment>,
                            now: Time)
  {
    && (forall t, k | t in tokens && Owed(loaded, t, k) :: loaded[t].payments[k].address in polled)
    && (forall key | key in polled :: exists t, k ::
          t in tokens && Owed(loaded, t, k) && loaded[t].payments[k].address == key &&
          polled[key] == EntryFor(t, loaded[t].payments[k], now))
  }

  /** One list of payments, all of an approved invoice. */
  lemma {:induction false} PolledList(polled: map<string, PolledPayment>, t: string, ps: seq<InvoicePayment>, now: Time)
    ensures var after := PollUnpaid(polled, t, RefreshedAll(ps, now));
            && (forall key | key in polled :: key in after)
            && (forall i | 0 <= i < |ps| && ps[i].txID == "" :: ps[i].address in after)
            && (forall key | key in after ::
                  || (key in polled && after[key] == polled[key])
                  || exists i | 0 <= i < |ps| ::
                       ps[i].txID == "" && ps[i].address == key && after[key] == EntryFor(t, ps[i], now))
  {
    if ps != [] {
      var n := |ps| - 1;
      PolledList(polled, t, ps[..n], now);
      assert RefreshedAll(ps, now)[..n] == RefreshedAll(ps[..n], now);
      assert RefreshedAll(ps, now)[n] == Refreshed(ps[n], now);
    }
  }

  /** The state in which rows and poll map are those of a restart that has gone through some invoices. */
  ghost predicate GoneThrough(loaded: State, s: State, tokens: set<string>, now: Time) {
    && s.users == loaded.users && SameRows(loaded.invoices, s.invoices)
    && PolledFor(loaded.invoices, tokens, s.polled, now)
    && forall t | t in loaded.invoices && t !in tokens :: s.invoices[t] == loaded.invoices[t]
  }

  lemma OneMore(loaded: State, s: State, tokens: set<string>, token: string, now: Time)
    requires GoneThrough(loaded, s, tokens, now) && token !in tokens && token in loaded.invoices
    requires loaded.invoices[token].token == token && loaded.invoices[token].userID in loaded.users
    ensures var inv := Load(s, token).value;
            Load(s, token).Some? &&
            var after := if inv.status.Approved? then Refresh(s, inv, now) else s;
            GoneThrough(loaded, after, tokens + {token}, now)
  {
    var row := loaded.invoices[token];
    var inv := Load(s, token).value;
    assert inv == row.(changes := []);
    if inv.status.Approved? {
      PolledList(s.polled, token, row.payments, now);
      ApprovedOne(loaded, s, tokens, token, inv, Refresh(s, inv, now), now);
    } else {
      PolledAsBefore(loaded.invoices, tokens, token, s.polled, now);
    }
  }

  lemma PolledAsBefore(loaded: map<string, Invoice>, tokens: set<string>, token: string,
                       polled: map<string, PolledPayment>, now: Time)
    requires PolledFor(loaded, tokens, polled, now) && token in loaded && !loaded[token].status.Approved?
    ensures PolledFor(loaded, tokens + {token}, polled, now)
  {
    forall key | key in polled
      ensures exists t, k :: t in tokens + {token} && Owed(loaded, t, k) && loaded[t].payments[k].address == key &&
                polled[key] == EntryFor(t, loaded[t].payments[k], now)
    {
      var t, k :| t in tokens && Owed(loaded, t, k) && loaded[t].payments[k].address == key &&
        polled[key] == EntryFor(t, loaded[t].payments[k], now);
      assert t in tokens + {token};
    }
  }

  lemma ApprovedOne(loaded: State, s: State, tokens: set<string>, token: string, inv: Invoice, after: State, now: Time)
    requires GoneThrough(loaded, s, tokens, now) && token !in tokens && token in loaded.invoices
    requires loaded.invoices[token].token == token && inv == loaded.invoices[token].(changes := [])
    requires inv.status.Approved? && after == Refresh(s, inv, now)
    ensures GoneThrough(loaded, after, tokens + {token}, now)
  {
    var row := loaded.invoices[token];
    assert SameButExpiry(row.payments, RefreshedAll(row.payments, now));
    assert after.invoices[token] == row.(payments := RefreshedAll(row.payments, now));
    PolledWith(loaded.invoices, tokens, token, s.polled, now);
  }

  lemma PolledWith(loaded: map<string, Invoice>, tokens: set<string>, token: string, polled: map<string, PolledPayment>,
                   now: Time)
    requires PolledFor(loaded, tokens, polled, now) && token in loaded && loaded[token].status.Approved?
    ensures PolledFor(loaded, tokens + {token}, PollUnpaid(polled, token, RefreshedAll(loaded[token].payments, now)),
              now)
  {
    var ps := loaded[token].payments;
    var after := PollUnpaid(polled, token, RefreshedAll(ps, now));
    PolledList(polled, token, ps, now);
    forall t, k | t in tokens + {token} && Owed(loaded, t, k) ensures loaded[t].payments[k].address in after {
      if t != token {
        assert loaded[t].payments[k].address in polled;
      }
    }
    forall key | key in after
      ensures exists t, k :: t in tokens + {token} && Owed(loaded, t, k) && loaded[t].payments[k].address == key &&
                after[key] == EntryFor(t, loaded[t].payments[k], now)
    {
      if key in polled && after[key] == polled[key] {
        var t, k :| t in tokens && Owed(loaded, t, k) && loaded[t].payments[k].address == key &&
          polled[key] == EntryFor(t, loaded[t].payments[k], now);
        assert t in tokens + {token};
      } else {
        var i :| 0 <= i < |ps| && ps[i].txID == "" && ps[i].address == key && after[key] == EntryFor(token, ps[i], now);
        assert Owed(loaded, token, i);
      }
    }
  }

  function TokensOf(order: seq<string>): set<string> {
    set t | t in order
  }

  lemma {:induction false} PollApprovedGoes(loaded: State, order: seq<string>, now: Time)
    requires loaded.polled == map[]
    requires forall i, j | 0 <= i < j < |order| :: order[i] != order[j]
    requires forall t | t in order ::
               t in loaded.invoices && loaded.invoices[t].token == t && loaded.invoices[t].userID in loaded.users
    ensures GoneThrough(loaded, PollApproved(loaded, order, now), TokensOf(order), now)
  {
    if order == [] {
      assert TokensOf(order) == {};
    } else {
      var init, token := order[..|order| - 1], order[|order| - 1];
      PollApprovedGoes(loaded, init, now);
      assert TokensOf(order) == TokensOf(init) + {token} && token !in TokensOf(init);
      PollsNext(loaded, PollApproved(loaded, init, now), PollApproved(loaded, order, now), TokensOf(init), token, now);
    }
  }

  lemma PollsNext(loaded: State, before: State, after: State, tokens: set<string>, token: string, now: Time)
    requires GoneThrough(loaded, before, tokens, now) && token !in tokens && token in loaded.invoices
    requires loaded.invoices[token].token == token && loaded.invoices[token].userID in loaded.users
    requires after == match Load(before, token)
                      case None => before
                      case Some(inv) => if inv.status.Approved? then Refresh(before, inv, now) else before
    ensures GoneThrough(loaded, after, tokens + {token}, now)
  {
    OneMore(loaded, before, tokens, token, now);
  }

  /** Going through all invoices. */
  lemma AllGone(loaded: State, s: State, tokens: set<string>, now: Time)
    requires GoneThrough(loaded, s, tokens, now) && tokens == loaded.invoices.Keys
    ensures AllPolled(s) && OnlyOwedPolled(s, now)
  {
    forall t, k | Owed(s.invoices, t, k) ensures s.invoices[t].payments[k].address in s.polled {
      SameOwed(loaded.invoices, s.invoices, t, k);
    }
    forall key | key in s.polled
      ensures exists t, k :: Owed(s.invoices, t, k) && s.invoices[t].payments[k].address == key &&
                s.polled[key] == EntryFor(t, s.invoices[t].payments[k], now)
    {
      var t, k :| t in tokens && Owed(loaded.invoices, t, k) && loaded.invoices[t].payments[k].address == key &&
        s.polled[key] == EntryFor(t, loaded.invoices[t].payments[k], now);
      SameOwed(loaded.invoices, s.invoices, t, k);
      assert Owed(s.invoices, t, k);
    }
  }

  // ---------------------------------------------------------------- a restart

  /** After a restart at any point of a run, every payment of an approved invoice without a transaction is polled at its
      address, and everything polled is such a payment, good for another day. If no two users share key and index,
      each of them is polled under its own invoice and terms. */
  lemma RestartPollsOwed(start: State, env: Env, es: seq<Event>, order: seq<string>, now: Time)
    requires Initial(start) && RealEnv(env) && CoveredRun(start, env, es)
    requires Enumerates(order, Run(start, env, es).backend)
    ensures var after := Restart(Run(start, env, es), env, order, now);
            && AllPolled(after) && OnlyOwedPolled(after, now)
            && (NoSharedIndex(Run(start, env, es).issued) ==>
                  forall t, k | Owed(after.invoices, t, k) ::
                    after.polled[after.invoices[t].payments[k].address] ==
                    EntryFor(t, after.invoices[t].payments[k], now))
  {
    ReachableInv(start, env, es);
    RestartPollsIn(env, Run(start, env, es), order, now);
  }

  lemma RestartPollsIn(env: Env, s: State, order: seq<string>, now: Time)
    requires Inv(env, s) && GoodEnv(env) && Enumerates(order, s.backend)
    ensures var after := Restart(s, env, order, now);
            && AllPolled(after) && OnlyOwedPolled(after, now)
            && (NoSharedIndex(s.issued) ==>
                  forall t, k | Owed(after.invoices, t, k) ::
                    after.polled[after.invoices[t].payments[k].address] ==
                    EntryFor(t, after.invoices[t].payments[k], now))
  {
    var rows := LoadInventory(env, s.keys, s.backend, order);
    InventoryRows(env, s, order);
    ReloadStep(env, s, rows);
    LoadedPolls(env, Reloaded(s, rows), order, now);
    RestartStep(env, s, order, now);
    PollApprovedExtends(Reloaded(s, rows), order, now);
    if NoSharedIndex(s.issued) {
      PollApprovedIssues(Reloaded(s, rows), order, now);
      OwnEntries(env, Restart(s, env, order, now), now);
    }
  }

  lemma LoadedPolls(env: Env, loaded: State, order: seq<string>, now: Time)
    requires Inv(env, loaded) && Enumerates(order, loaded.backend) && loaded.polled == map[]
    ensures var after := PollApproved(loaded, order, now); AllPolled(after) && OnlyOwedPolled(after, now)
  {
    forall t | t in order
      ensures t in loaded.invoices && loaded.invoices[t].token == t && loaded.invoices[t].userID in loaded.users
    {
      RowsLoad(env, loaded, t);
    }
    PollApprovedGoes(loaded, order, now);
    assert TokensOf(order) == loaded.invoices.Keys;
    AllGone(loaded, PollApproved(loaded, order, now), TokensOf(order), now);
  }

  lemma {:induction false} PollApprovedIssues(s: State, order: seq<string>, now: Time)
    ensures PollApproved(s, order, now).issued == s.issued
  {
    if order != [] {
      PollApprovedIssues(s, order[..|order| - 1], now);
    }
  }

  lemma OwnEntries(env: Env, s: State, now: Time)
    requires Inv(env, s) && InjectiveEnv(env) && NoSharedIndex(s.issued) && AllPolled(s) && OnlyOwedPolled(s, now)
    ensures forall t, k | Owed(s.invoices, t, k) ::
              s.polled[s.invoices[t].payments[k].address] == EntryFor(t, s.invoices[t].payments[k], now)
  {
    forall t, k | Owed(s.invoices, t, k)
      ensures s.polled[s.invoices[t].payments[k].address] == EntryFor(t, s.invoices[t].payments[k], now)
    {
      var key := s.invoices[t].payments[k].address;
      var t', k' :| Owed(s.invoices, t', k') && s.invoices[t'].payments[k'].address == key &&
        s.polled[key] == EntryFor(t', s.invoices[t'].payments[k'], now);
      SameTerms(env, s, t, k, t', k');
    }
  }

  lemma SameTerms(env: Env, s: State, t: string, k: int, t': string, k': int)
    requires Inv(env, s) && InjectiveEnv(env) && NoSharedIndex(s.issued)
    requires Owed(s.invoices, t, k) && Owed(s.invoices, t', k')
    requires s.invoices[t].payments[k].address == s.invoices[t'].payments[k'].address
    ensures t == t' && s.invoices[t].payments[k].amount == s.invoices[t'].payments[k'].amount
    ensures s.invoices[t].payments[k].txNotBefore == s.invoices[t'].payments[k'].txNotBefore
  {
    var p, q := s.invoices[t].payments[k], s.invoices[t'].payments[k'];
    PaymentIssued(env, s, t, k);
    PaymentIssued(env, s, t', k');
    OneTerms(env, s, p.address, t, t', Terms(p.amount, p.txNotBefore), Terms(q.amount, q.txNotBefore));
  }

  lemma PaymentIssued(env: Env, s: State, t: string, k: int)
    requires RowsOk(env, s) && t in s.invoices && 0 <= k < |s.invoices[t].payments|
    ensures var p := s.invoices[t].payments[k]; IssuedAs(s.issued, t, p.address, p.amount, p.txNotBefore)
  {
    assert RowOk(env, s.keys, s.issued, t, s.invoices[t], s.backend[t]);
  }

  // ---------------------------------------------------------------- what a replay takes from the record

  /** A record replays if and only if its signer's key is listed and its payments stream can be decoded; every field
      of the row then comes from the record, the status and its reason from the last change. */
  lemma ReplayFields(env: Env, keys: KeyTable, token: string, rec: Record, file: Option<File>)
    ensures Replay(env, keys, token, rec, file).Some? <==>
              rec.general.publicKey in keys && env.decode(token, rec.payments).Some?
    ensures Replay(env, keys, token, rec, file).Some? ==>
              var row := Replay(env, keys, token, rec, file).value;
              && row.token == token && row.userID == keys[rec.general.publicKey] && row.file == file
              && row.month == rec.general.month && row.year == rec.general.year &&
                  row.timestamp == rec.general.timestamp
              && row.publicKey == rec.general.publicKey && row.userSignature == rec.general.signature
              && row.serverSignature == rec.serverSignature && row.version == rec.version
              && Some(row.payments) == env.decode(token, rec.payments)
              && |row.changes| == |rec.changes|
              && (forall i | 0 <= i < |rec.changes| ::
                    var c := rec.changes[i];
                    row.changes[i] == InvoiceChange(c.adminPublicKey, c.newStatus, "", c.timestamp))
              && (rec.changes != [] ==>
                    var c := rec.changes[|rec.changes| - 1];
                    row.status == c.newStatus &&
                    row.statusChangeReason == if c.reason.Some? then c.reason.value else "")
  {
  }

  predicate CanReplay(env: Env, keys: KeyTable, backend: map<string, Record>, token: string) {
    token in backend && Replay(env, keys, token, backend[token], None).Some?
  }

  function WithReplay(env: Env, keys: KeyTable, backend: map<string, Record>, rows: map<string, Invoice>,
                      token: string): map<string, Invoice>
    requires CanReplay(env, keys, backend, token)
  {
    rows[token := Replay(env, keys, token, backend[token], None).value]
  }

  /** The rows are the replays of exactly the given records. */
  ghost predicate ReplaysOf(env: Env, keys: KeyTable, backend: map<string, Record>, tokens: set<string>,
                            rows: map<string, Invoice>)
  {
    rows.Keys == tokens &&
    forall t | t in rows :: t in backend && Replay(env, keys, t, backend[t], None) == Some(rows[t])
  }

  /** Exactly the first k records have rows. */
  ghost predicate LoadsFirst(env: Env, keys: KeyTable, backend: map<string, Record>, order: seq<string>, k: nat)
    requires k <= |order| && forall t | t in order :: t in backend
  {
    var rows := LoadInventory(env, keys, backend, order);
    |rows| == k && ReplaysOf(env, keys, backend, TokensOf(order[..k]), rows)
  }

  /** Loading stops at the first record that cannot be replayed: exactly the records before it have rows, which are
      their replays. */
  lemma {:induction false} LoadingStops(env: Env, keys: KeyTable, backend: map<string, Record>, order: seq<string>,
                                        k: nat)
    requires k <= |order| && forall t | t in order :: t in backend
    requires forall i, j | 0 <= i < j < |order| :: order[i] != order[j]
    requires forall i | 0 <= i < k :: CanReplay(env, keys, backend, order[i])
    requires k < |order| ==> !CanReplay(env, keys, backend, order[k])
    ensures LoadsFirst(env, keys, backend, order, k)
    decreases |order|
  {
    if order == [] {
      assert TokensOf(order[..k]) == {};
    } else {
      var init := order[..|order| - 1];
      assert forall i | 0 <= i < |init| :: init[i] == order[i];
      if k < |order| {
        LoadingStops(env, keys, backend, init, k);
        Stopped(env, keys, backend, order, k);
      } else {
        LoadingStops(env, keys, backend, init, |init|);
        LoadsLast(env, keys, backend, order);
      }
    }
  }

  /** A record that cannot be replayed, and every one after it, adds no row. */
  lemma Stopped(env: Env, keys: KeyTable, backend: map<string, Record>, order: seq<string>, k: nat)
    requires k < |order| && forall t | t in order :: t in backend
    requires LoadsFirst(env, keys, backend, order[..|order| - 1], k) && !CanReplay(env, keys, backend, order[k])
    ensures LoadsFirst(env, keys, backend, order, k)
  {
    assert order[..|order| - 1][..k] == order[..k];
  }

  lemma LoadsLast(env: Env, keys: KeyTable, backend: map<string, Record>, order: seq<string>)
    requires order != [] && forall t | t in order :: t in backend
    requires forall i, j | 0 <= i < j < |order| :: order[i] != order[j]
    requires LoadsFirst(env, keys, backend, order[..|order| - 1], |order| - 1)
    requires CanReplay(env, keys, backend, order[|order| - 1])
    ensures LoadsFirst(env, keys, backend, order, |order|)
  {
    var init, token := order[..|order| - 1], order[|order| - 1];
    assert order == init + [token] && token !in init;
    WentOn(env, keys, backend, order, init, token);
  }

  lemma WentOn(env: Env, keys: KeyTable, backend: map<string, Record>, order: seq<string>, init: seq<string>,
               token: string)
    requires order == init + [token] && forall t | t in order :: t in backend
    requires token !in init && CanReplay(env, keys, backend, token)
    requires LoadsFirst(env, keys, backend, init, |init|)
    ensures LoadsFirst(env, keys, backend, order, |order|)
  {
    var rows := LoadInventory(env, keys, backend, init);
    assert init[..|init|] == init && order[..|order|] == order;
    OneMoreRow(env, keys, backend, init, rows, token);
    LastReplays(env, keys, backend, init, token);
  }

  lemma LastReplays(env: Env, keys: KeyTable, backend: map<string, Record>, init: seq<string>, token: string)
    requires CanReplay(env, keys, backend, token) && forall t | t in init :: t in backend
    requires |LoadInventory(env, keys, backend, init)| == |init|
    ensures LoadInventory(env, keys, backend, init + [token]) ==
            WithReplay(env, keys, backend, LoadInventory(env, keys, backend, init), token)
  {
    assert (init + [token])[..|init|] == init;
  }

  lemma OneMoreRow(env: Env, keys: KeyTable, backend: map<string, Record>, init: seq<string>,
                   rows: map<string, Invoice>, token: string)
    requires ReplaysOf(env, keys, backend, TokensOf(init), rows)
    requires token !in init && CanReplay(env, keys, backend, token)
    ensures var after := WithReplay(env, keys, backend, rows, token);
            ReplaysOf(env, keys, backend, TokensOf(init + [token]), after) && |after| == |rows| + 1
  {
    assert TokensOf(init + [token]) == TokensOf(init) + {token};
    var after := WithReplay(env, keys, backend, rows, token);
    assert after.Keys == rows.Keys + {token};
    assert |after.Keys| == |rows.Keys| + 1;
  }
}
