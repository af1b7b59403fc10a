/** The remaining steps of the ledger, and the invariant over every run. */
module LedgerRuns {
  import opened Wrappers
  import opened MachineInts
  import opened Database
  import opened Accounts
  import opened Ledger
  import opened LedgerInvariants
  import PaymentStream

  // ---------------------------------------------------------------- crediting a payment

  lemma CreditedPayments(issued: seq<Issue>, token: string, ps: seq<InvoicePayment>, k: nat, txID: string)
    requires k < |ps| && PaymentsDistinct(ps) && PaymentsIssued(issued, token, ps)
    ensures PaymentsDistinct(ps[k := ps[k].(txID := txID)]) &&
              PaymentsIssued(issued, token, ps[k := ps[k].(txID := txID)])
  {
    var qs := ps[k := ps[k].(txID := txID)];
    forall i | 0 <= i < |qs| ensures IssuedAs(issued, token, qs[i].address, qs[i].amount, qs[i].txNotBefore) {
      assert IssuedAs(issued, token, ps[i].address, ps[i].amount, ps[i].txNotBefore);
    }
    forall i, j | 0 <= i < j < |qs|
      ensures !(qs[i].isTotalCost && qs[j].isTotalCost) && qs[i].address != qs[j].address {
      assert ps[i].address != ps[j].address;
    }
  }

  /** The row and the record after payment k of an invoice got its transaction. */
  function CreditedRow(row: Invoice, k: nat, txID: string, now: Time): Invoice
    requires k < |row.payments|
  {
    row.(payments := row.payments[k := row.payments[k].(txID := txID)],
         status := Paid,
         changes := if row.status.Paid? then row.changes else row.changes + [InvoiceChange("", Paid, "", now)])
  }

  function CreditedRecord(env: Env, rec: Record, row: Invoice, k: nat, txID: string, now: Time): Record
    requires k < |row.payments|
  {
    rec.(payments := env.encode(row.payments[k := row.payments[k].(txID := txID)]),
         changes := if row.status.Paid? then rec.changes else rec.changes + [StreamChange("", Paid, None, now)])
  }

  lemma CreditedRowOk(env: Env, keys: KeyTable, issued: seq<Issue>, token: string, row: Invoice, rec: Record, k: nat,
                      txID: string, now: Time)
    requires RowOk(env, keys, issued, token, row, rec) && k < |row.payments|
    ensures RowOk(env, keys, issued, token, CreditedRow(row, k, txID, now), CreditedRecord(env, rec, row, k, txID, now))
    ensures rec.changes <= CreditedRecord(env, rec, row, k, txID, now).changes
  {
    CreditedPayments(issued, token, row.payments, k, txID);
    if !row.status.Paid? {
      AppendChange(env, keys, issued, token, row, rec, CreditedRow(row, k, txID, now),
          CreditedRecord(env, rec, row, k, txID, now),
                   StreamChange("", Paid, None, now));
    }
  }

  /** What updateInvoicePayment does to the state when it succeeds: exactly the first match changes. */
  lemma CreditEffect(s: State, env: Env, inv: Invoice, address: string, amount: uint64, txID: string, now: Time, io: Io)
    requires inv.token in s.invoices && inv == s.invoices[inv.token].(changes := []) && io.dbOk
    ensures var (after, reply) := Credit(s, env, inv, address, amount, txID, now, io);
            var row := s.invoices[inv.token];
            var k := FirstMatch(row.payments, address, amount);
            if k.Some? && io.rpcOk && inv.token in s.backend then
              && reply.Done?
              && after == s.(invoices := s.invoices[inv.token := CreditedRow(row, k.value, txID, now)],
                             backend := s.backend[inv.token :=
                                 CreditedRecord(env, s.backend[inv.token], row, k.value, txID, now)])
            else after == s && reply.Refused?
  {
    var k := FirstMatch(inv.payments, address, amount);
    if k.Some? {
      SavedCredit(s.invoices, inv, k.value, txID, now);
    }
  }

  /** The row saved by a credit. */
  lemma SavedCredit(invoices: map<string, Invoice>, inv: Invoice, k: nat, txID: string, now: Time)
    requires inv.token in invoices && inv == invoices[inv.token].(changes := []) && k < |inv.payments|
    ensures UpdateInvoice(invoices, inv.(payments := inv.payments[k := inv.payments[k].(txID := txID)], status := Paid,
                                         changes := if inv.status.Paid? then inv.changes
                                             else inv.changes + [InvoiceChange("", Paid, "", now)]))
         == invoices[inv.token := CreditedRow(invoices[inv.token], k, txID, now)]
  {
    var c := InvoiceChange("", Paid, "", now);
    assert [] + [c] == [c] && StripReasons([c]) == [c] && StripReasons([]) == [];
    assert invoices[inv.token].changes + [] == invoices[inv.token].changes;
  }

  lemma CreditStep(s: State, env: Env, inv: Invoice, address: string, amount: uint64, txID: string, now: Time, io: Io)
    requires Inv(env, s) && io.dbOk
    requires inv.token in s.invoices && inv == s.invoices[inv.token].(changes := [])
    ensures Inv(env, Credit(s, env, inv, address, amount, txID, now, io).0)
  {
    CreditEffect(s, env, inv, address, amount, txID, now, io);
    var token := inv.token;
    var row := s.invoices[token];
    var k := FirstMatch(row.payments, address, amount);
    if k.Some? && io.rpcOk && token in s.backend {
      CreditedRowOk(env, s.keys, s.issued, token, row, s.backend[token], k.value, txID, now);
      RowUpdated(env, s, token, CreditedRow(row, k.value, txID, now),
          CreditedRecord(env, s.backend[token], row, k.value, txID, now));
    }
  }

  lemma LoadedCopy(env: Env, s: State, token: string)
    requires RowsOk(env, s) && Load(s, token).Some?
    ensures token in s.invoices && Load(s, token).value == s.invoices[token].(changes := []) &&
              Load(s, token).value.token == token
  {
    assert RowOk(env, s.keys, s.issued, token, s.invoices[token], s.backend[token]);
  }

  lemma UpdatePaymentStep(s: State, env: Env, token: string, address: string, amount: uint64, txID: string, now: Time,
                          io: Io)
    requires Inv(env, s) && io.dbOk
    ensures Inv(env, UpdatePayment(s, env, token, address, amount, txID, now, io).0)
  {
    if Load(s, token).Some? {
      LoadedCopy(env, s, token);
      CreditStep(s, env, Load(s, token).value, address, amount, txID, now, io);
    }
  }

  // ---------------------------------------------------------------- the payment checker

  lemma PollerStep(env: Env, s: State, poller: Poller)
    requires Inv(env, s) && PollerOk(s.issued, s.backend, poller)
    ensures Inv(env, s.(poller := poller))
  {
  }

  lemma SnapshotStep(env: Env, s: State)
    requires Inv(env, s)
    ensures Inv(env, TakeSnapshot(s))
  {
    PollerStep(env, s, Checking(s.polled, []));
  }

  lemma RemoveStep(env: Env, s: State)
    requires Inv(env, s) && s.poller.Checking?
    ensures Inv(env, RemoveChecked(s))
  {
    PollMapStep(env, s, s.polled - (set k | k in s.poller.toRemove));
    PollerStep(env, s.(polled := s.polled - (set k | k in s.poller.toRemove)), Sleeping);
  }

  lemma PaidIsLogged(env: Env, keys: KeyTable, issued: seq<Issue>, token: string, row: Invoice, rec: Record)
    requires RowOk(env, keys, issued, token, row, rec) && row.status.Paid?
    ensures WasPaid(rec.changes)
  {
    assert rec.changes[|rec.changes| - 1].newStatus.Paid?;
  }

  /** A checked entry's key may be queued once its invoice is Paid. */
  lemma KeyRemovable(env: Env, s: State, key: string, entry: PolledPayment)
    requires RowsOk(env, s) && entry.token in s.invoices && s.invoices[entry.token].status.Paid?
    requires IssuedAs(s.issued, entry.token, key, entry.amount, entry.txNotBefore)
    ensures Removable(s.issued, s.backend, key)
  {
    PaidIsLogged(env, s.keys, s.issued, entry.token, s.invoices[entry.token], s.backend[entry.token]);
    var j :| 0 <= j < |s.issued| && Fits(s.issued[j], entry.token, key, entry.amount, entry.txNotBefore);
    assert s.issued[j].address == key;
  }

  lemma QueueStep(env: Env, s: State, key: string)
    requires Inv(env, s) && s.poller.Checking? && Removable(s.issued, s.backend, key)
    ensures Inv(env, s.(poller := Checking(s.poller.snapshot, s.poller.toRemove + [key])))
  {
    PollerStep(env, s, Checking(s.poller.snapshot, s.poller.toRemove + [key]));
  }

  lemma CheckStep(s: State, env: Env, key: string, lookup: Lookup, now: Time, io: Io)
    requires Inv(env, s) && io.dbOk && s.poller.Checking? && key in s.poller.snapshot
    ensures Inv(env, CheckEntry(s, env, key, lookup, now, io).0)
  {
    var entry := s.poller.snapshot[key];
    var skip := s.(poller := Checking(s.poller.snapshot - {key}, s.poller.toRemove));
    CheckEntryForm(s, env, key, lookup, now, io);
    SkipStep(env, s, key);
    if Load(s, entry.token).Some? {
      var (after, reply) := CheckEntry(s, env, key, lookup, now, io);
      CheckLoadedStep(env, skip, key, entry, lookup, now, io, after, reply);
    }
  }

  lemma SkipStep(env: Env, s: State, key: string)
    requires Inv(env, s) && s.poller.Checking? && key in s.poller.snapshot
    ensures Inv(env, s.(poller := Checking(s.poller.snapshot - {key}, s.poller.toRemove)))
    ensures var entry := s.poller.snapshot[key];
            entry.address == key && IssuedAs(s.issued, entry.token, key, entry.amount, entry.txNotBefore)
  {
    PollerStep(env, s, Checking(s.poller.snapshot - {key}, s.poller.toRemove));
  }

  /** One check, told on the state that has already left the entry behind. */
  predicate CheckForm(env: Env, skip: State, key: string, entry: PolledPayment, lookup: Lookup, now: Time, io: Io,
                      after: State, reply: Reply)
    requires skip.poller.Checking? && Load(skip, entry.token).Some?
  {
    var inv, rest, queue := Load(skip, entry.token).value, skip.poller.snapshot, skip.poller.toRemove;
    if inv.status.Paid? then after == skip.(poller := Checking(rest, queue + [key])) && reply == Skipped
    else if now > entry.pollExpiry then after == skip.(poller := Checking(rest, queue + [inv.token])) &&
        reply == Skipped
    else if !lookup.Found? || lookup.txID == "" then after == skip && reply == Skipped
    else (after, reply) == CreditAndQueue(skip, env, inv, key, entry, lookup.txID, now, io)
  }

  lemma CheckEntryForm(s: State, env: Env, key: string, lookup: Lookup, now: Time, io: Io)
    requires s.poller.Checking? && key in s.poller.snapshot
    ensures var entry := s.poller.snapshot[key];
            var skip := s.(poller := Checking(s.poller.snapshot - {key}, s.poller.toRemove));
            var (after, reply) := CheckEntry(s, env, key, lookup, now, io);
            && Load(skip, entry.token) == Load(s, entry.token)
            && (if Load(s, entry.token).None? then after == skip && reply == Skipped
                else CheckForm(env, skip, key, entry, lookup, now, io, after, reply))
  {
  }

  /** The checks of one entry once its invoice is loaded; `skip` is the state without the entry. */
  lemma CheckLoadedStep(env: Env, skip: State, key: string, entry: PolledPayment, lookup: Lookup, now: Time, io: Io,
                        after: State, reply: Reply)
    requires Inv(env, skip) && io.dbOk && skip.poller.Checking? && Load(skip, entry.token).Some?
    requires entry.address == key && IssuedAs(skip.issued, entry.token, key, entry.amount, entry.txNotBefore)
    requires CheckForm(env, skip, key, entry, lookup, now, io, after, reply)
    ensures Inv(env, after)
  {
    LoadedCopy(env, skip, entry.token);
    var inv := Load(skip, entry.token).value;
    if inv.status.Paid? {
      KeyRemovable(env, skip, key, entry);
      QueueStep(env, skip, key);
    } else if now > entry.pollExpiry {
      QueueStep(env, skip, inv.token);
    } else if lookup.Found? && lookup.txID != "" {
      CreditCheckStep(env, skip, inv, key, entry, lookup.txID, now, io);
    }
  }

  lemma CreditCheckStep(env: Env, s: State, inv: Invoice, key: string, entry: PolledPayment, txID: string, now: Time,
                        io: Io)
    requires Inv(env, s) && io.dbOk && s.poller.Checking?
    requires inv.token == entry.token && inv.token in s.invoices && inv == s.invoices[inv.token].(changes := [])
    requires IssuedAs(s.issued, entry.token, key, entry.amount, entry.txNotBefore)
    ensures Inv(env, CreditAndQueue(s, env, inv, key, entry, txID, now, io).0)
  {
    CreditStep(s, env, inv, entry.address, entry.amount, txID, now, io);
    CreditEffect(s, env, inv, entry.address, entry.amount, txID, now, io);
    var (credited, reply) := Credit(s, env, inv, entry.address, entry.amount, txID, now, io);
    if reply.Done? {
      assert credited.invoices[entry.token].status.Paid? && credited.issued == s.issued && credited.poller == s.poller;
      KeyRemovable(env, credited, key, entry);
      QueueStep(env, credited, key);
    }
  }

  // ---------------------------------------------------------------- users

  lemma UserStep(env: Env, s: State, uid: uint64, op: Op, now: Time)
    requires Inv(env, s) && uid in s.users && ChecksAgree(s.keys, uid, op)
    ensures Inv(env, SaveUser(s, uid, Apply(s.users[uid], op, now).0))
  {
    ApplyKeepsOwners(s.users, s.keys, uid, op, now);
    ApplyFrame(s.users[uid], op, now);
    SavedUser(env, s, uid, Apply(s.users[uid], op, now).0);
  }

  lemma SavedUser(env: Env, s: State, uid: uint64, v: User)
    requires Inv(env, s) && uid in s.users && v.paymentAddressIndex == s.users[uid].paymentAddressIndex
    requires var keys' := KeysAfter(s.keys, uid, s.users[uid], v);
             TableOk(s.users[uid := v], keys') && KeysGrow(s.keys, keys')
    ensures Inv(env, SaveUser(s, uid, v))
  {
    UsersStep(env, s, s.users[uid := v], KeysAfter(s.keys, uid, s.users[uid], v));
  }

  lemma InviteStep(env: Env, s: State, uid: uint64, user: User)
    requires Inv(env, s) && uid !in s.users && uid != 0 && user.identities == []
    ensures Inv(env, s.(users := s.users[uid := user]))
  {
    var users := s.users[uid := user];
    assert TableOk(users, s.keys) by {
      forall a | a in users ensures KeysListed(users[a], a, s.keys) {
        assert a != uid ==> KeysListed(s.users[a], a, s.keys);
      }
    }
    UsersStep(env, s, users, s.keys);
    assert s.(users := users) == s.(users := users, keys := s.keys);
  }

  // ---------------------------------------------------------------- restart

  /** The parts of an invoice that the database and the log agree on. */
  datatype View = View(
    token: string,
    userID: uint64,
    month: uint16,
    year: uint16,
    status: Status,
    changes: seq<InvoiceChange>,
    payments: seq<InvoicePayment>)

  function ViewOf(inv: Invoice): View {
    View(inv.token, inv.userID, inv.month, inv.year, inv.status, inv.changes,
        PaymentStream.Recovered(inv.token, inv.payments))
  }

  function Views(invoices: map<string, Invoice>): map<string, View> {
    map t | t in invoices :: ViewOf(invoices[t])
  }

  lemma RecoveredTwice(token: string, ps: seq<InvoicePayment>)
    ensures PaymentStream.Recovered(token, PaymentStream.Recovered(token, ps)) == PaymentStream.Recovered(token, ps)
    ensures PaymentStream.Recovered("", PaymentStream.Recovered(token, ps)) == PaymentStream.Recovered("", ps)
  {
  }

  /** The replay of a record in step with its row succeeds, and shows the same view. */
  lemma ReplayShowsRow(env: Env, keys: KeyTable, issued: seq<Issue>, token: string, row: Invoice, rec: Record,
                       file: Option<File>)
    requires RowOk(env, keys, issued, token, row, rec) && GoodStreams(env)
    ensures Replay(env, keys, token, rec, file).Some?
    ensures ViewOf(Replay(env, keys, token, rec, file).value) == ViewOf(row)
    ensures Replay(env, keys, token, rec, file).value.payments == PaymentStream.Recovered(token, row.payments)
  {
    assert env.decode(token, env.encode(row.payments)) == Some(PaymentStream.Recovered(token, row.payments));
    RecoveredTwice(token, row.payments);
  }

  lemma ReplayedRowOk(env: Env, keys: KeyTable, issued: seq<Issue>, token: string, row: Invoice, rec: Record)
    requires RowOk(env, keys, issued, token, row, rec) && GoodStreams(env)
    ensures Replay(env, keys, token, rec, None).Some?
    ensures RowOk(env, keys, issued, token, Replay(env, keys, token, rec, None).value, rec)
  {
    ReplayShowsRow(env, keys, issued, token, row, rec, None);
    var replayed := Replay(env, keys, token, rec, None).value;
    var ps := replayed.payments;
    RecoveredTwice(token, row.payments);
    assert env.encode(ps) == env.encode(row.payments);
    forall i | 0 <= i < |ps| ensures IssuedAs(issued, token, ps[i].address, ps[i].amount, ps[i].txNotBefore) {
      var p := row.payments[i];
      assert IssuedAs(issued, token, p.address, p.amount, p.txNotBefore);
    }
    forall i, j | 0 <= i < j < |ps|
      ensures !(ps[i].isTotalCost && ps[j].isTotalCost) && ps[i].address != ps[j].address {
      assert row.payments[i].address != row.payments[j].address;
    }
  }

  predicate Listed(order: seq<string>, backend: map<string, Record>) {
    && (forall t | t in order :: t in backend)
    && (forall i, j | 0 <= i < j < |order| :: order[i] != order[j])
  }

  /** When no record fails, the inventory is the replay of every listed record, whatever the order. */
  lemma {:induction false} LoadAll(env: Env, keys: KeyTable, backend: map<string, Record>, order: seq<string>)
    requires Listed(order, backend) && forall t | t in order :: Replay(env, keys, t, backend[t], None).Some?
    ensures var rows := LoadInventory(env, keys, backend, order);
            && |rows| == |order|
            && (forall t :: t in rows <==> t in order)
            && forall t | t in order :: rows[t] == Replay(env, keys, t, backend[t], None).value
  {
    if order != [] {
      var init, token := order[..|order| - 1], order[|order| - 1];
      assert order == init + [token];
      LoadAll(env, keys, backend, init);
      var rows := LoadInventory(env, keys, backend, init);
      assert token !in rows;
      assert token in order;
    }
  }

  /** Rows that could replace the current ones without anyone noticing. */
  predicate Equivalent(env: Env, s: State, rows: map<string, Invoice>) {
    && rows.Keys == s.invoices.Keys && s.invoices.Keys == s.backend.Keys
    && (forall t | t in rows :: RowOk(env, s.keys, s.issued, t, rows[t], s.backend[t]))
    && Views(rows) == Views(s.invoices)
  }

  lemma SameViews(a: map<string, Invoice>, b: map<string, Invoice>)
    requires a.Keys == b.Keys && forall t | t in a :: ViewOf(a[t]) == ViewOf(b[t])
    ensures Views(a) == Views(b)
  {
  }

  /** The replay of record t succeeds, is in order, and shows what row t shows. */
  predicate Replays(env: Env, s: State, t: string)
    requires t in s.backend && t in s.invoices
  {
    var r := Replay(env, s.keys, t, s.backend[t], None);
    r.Some? && RowOk(env, s.keys, s.issued, t, r.value, s.backend[t]) && ViewOf(r.value) == ViewOf(s.invoices[t])
  }

  lemma RecordReplays(env: Env, s: State, t: string)
    requires RowsOk(env, s) && GoodStreams(env) && t in s.backend
    ensures Replays(env, s, t)
  {
    ReplayedRowOk(env, s.keys, s.issued, t, s.invoices[t], s.backend[t]);
    ReplayShowsRow(env, s.keys, s.issued, t, s.invoices[t], s.backend[t], None);
  }

  /** The rows are the replays of all records. */
  predicate IsInventory(env: Env, keys: KeyTable, backend: map<string, Record>, rows: map<string, Invoice>) {
    rows.Keys == backend.Keys &&
    forall t | t in rows :: Replay(env, keys, t, backend[t], None) == Some(rows[t])
  }

  lemma ReplayedRows(env: Env, s: State, rows: map<string, Invoice>)
    requires s.invoices.Keys == s.backend.Keys && IsInventory(env, s.keys, s.backend, rows)
    requires forall t | t in s.backend :: Replays(env, s, t)
    ensures Equivalent(env, s, rows)
  {
    forall t | t in rows
      ensures RowOk(env, s.keys, s.issued, t, rows[t], s.backend[t]) && ViewOf(rows[t]) == ViewOf(s.invoices[t])
    {
      assert Replays(env, s, t);
    }
    SameViews(rows, s.invoices);
  }

  /** Listing the records in any order loads the replays of all of them, provided none fails. */
  lemma InventoryLoads(env: Env, keys: KeyTable, backend: map<string, Record>, order: seq<string>)
    requires Enumerates(order, backend) && forall t | t in backend :: Replay(env, keys, t, backend[t], None).Some?
    ensures IsInventory(env, keys, backend, LoadInventory(env, keys, backend, order))
  {
    LoadAll(env, keys, backend, order);
  }

  lemma AllReplaySome(env: Env, s: State)
    requires s.invoices.Keys == s.backend.Keys && forall t | t in s.backend :: Replays(env, s, t)
    ensures forall t | t in s.backend :: Replay(env, s.keys, t, s.backend[t], None).Some?
  {
    forall t | t in s.backend ensures Replay(env, s.keys, t, s.backend[t], None).Some? {
      assert Replays(env, s, t);
    }
  }

  lemma InventoryRows(env: Env, s: State, order: seq<string>)
    requires RowsOk(env, s) && GoodStreams(env) && Enumerates(order, s.backend)
    ensures Equivalent(env, s, LoadInventory(env, s.keys, s.backend, order))
  {
    forall t | t in s.backend ensures Replays(env, s, t) {
      RecordReplays(env, s, t);
    }
    AllReplaySome(env, s);
    InventoryLoads(env, s.keys, s.backend, order);
    ReplayedRows(env, s, LoadInventory(env, s.keys, s.backend, order));
  }

  /** The tables as reloaded, before anything is polled. */
  function Reloaded(s: State, rows: map<string, Invoice>): State {
    s.(invoices := rows, polled := map[], poller := Sleeping)
  }

  lemma ReloadStep(env: Env, s: State, rows: map<string, Invoice>)
    requires Inv(env, s) && Equivalent(env, s, rows)
    ensures Inv(env, Reloaded(s, rows))
  {
    forall t | t in rows ensures SamePeriod(rows[t], s.invoices[t]) {
      assert Views(rows)[t] == Views(s.invoices)[t];
    }
    forall j | 0 <= j < |s.issued| ensures IssueOk(env, s.users, rows, s.issued[j]) {
      assert IssueOk(env, s.users, s.invoices, s.issued[j]);
    }
  }

  lemma RefreshKeepsView(env: Env, s: State, inv: Invoice, now: Time)
    requires inv.token in s.invoices && inv.payments == s.invoices[inv.token].payments
    ensures Views(Refresh(s, inv, now).invoices) == Views(s.invoices)
  {
    var ps := s.invoices[inv.token].payments;
    var token := s.invoices[inv.token].token;
    assert PaymentStream.Recovered(token, RefreshedAll(ps, now)) == PaymentStream.Recovered(token, ps);
  }

  lemma {:induction false} PollApprovedStep(env: Env, s: State, order: seq<string>, now: Time)
    requires Inv(env, s) && GoodStreams(env)
    ensures Inv(env, PollApproved(s, order, now))
    ensures Views(PollApproved(s, order, now).invoices) == Views(s.invoices)
    ensures PollApproved(s, order, now).backend == s.backend && PollApproved(s, order, now).users == s.users
  {
    if order != [] {
      var init, token := order[..|order| - 1], order[|order| - 1];
      PollApprovedStep(env, s, init, now);
      RefreshLoaded(env, PollApproved(s, init, now), token, now);
    }
  }

  lemma RefreshLoaded(env: Env, s: State, token: string, now: Time)
    requires Inv(env, s) && GoodStreams(env)
    ensures var inv := Load(s, token);
            inv.Some? ==>
              && Inv(env, Refresh(s, inv.value, now))
              && Views(Refresh(s, inv.value, now).invoices) == Views(s.invoices)
  {
    if Load(s, token).Some? {
      LoadedCopy(env, s, token);
      RefreshStep(env, s, Load(s, token).value, now);
      RefreshKeepsView(env, s, Load(s, token).value, now);
    }
  }

  lemma RestartStep(env: Env, s: State, order: seq<string>, now: Time)
    requires Inv(env, s) && GoodStreams(env) && Enumerates(order, s.backend)
    ensures Inv(env, Restart(s, env, order, now))
    ensures Views(Restart(s, env, order, now).invoices) == Views(s.invoices)
  {
    InventoryRows(env, s, order);
    RestartOn(env, s, LoadInventory(env, s.keys, s.backend, order), order, now);
  }

  lemma RestartOn(env: Env, s: State, rows: map<string, Invoice>, order: seq<string>, now: Time)
    requires Inv(env, s) && GoodStreams(env) && Equivalent(env, s, rows)
    ensures Inv(env, PollApproved(Reloaded(s, rows), order, now))
    ensures Views(PollApproved(Reloaded(s, rows), order, now).invoices) == Views(s.invoices)
  {
    ReloadStep(env, s, rows);
    PollApprovedStep(env, Reloaded(s, rows), order, now);
  }

  // ---------------------------------------------------------------- every step, every run

  /** The steps the invariant is claimed for: no lost database write, edits by the owner, indices within 32 bits. */
  ghost predicate Covered(s: State, env: Env, e: Event) {
    && Enabled(s, e)
    && e.io.dbOk
    && (e.step.StepEdit? && e.step.token in s.invoices ==> s.invoices[e.step.token].userID == e.step.uid)
    && IndexBounded(s.users) && IndexBounded(Next(s, env, e).0.users)
  }

  lemma NextStep(s: State, env: Env, e: Event)
    requires Inv(env, s) && GoodEnv(env) && Covered(s, env, e)
    ensures Inv(env, Next(s, env, e).0)
  {
    match e.step
    case StepSubmit(uid, req, month, year, token, sig) =>
      if KeyOf(s.users, uid).Some? {
        ActiveKeyOwned(s.users, s.keys, uid);
      }
      SubmitStep(s, env, uid, KeyOf(s.users, uid), req, month, year, token, sig, e.now, e.io);
    case StepEdit(uid, token, req, version) =>
      if KeyOf(s.users, uid).Some? {
        ActiveKeyOwned(s.users, s.keys, uid);
      }
      EditStep(s, env, KeyOf(s.users, uid), token, req, version, e.now, e.io);
    case StepSetStatus(uid, token, key, valid, status, reason) =>
      KeyNotEmpty(s.users, s.keys, uid);
      SetStatusStep(s, env, KeyOf(s.users, uid), token, key, valid, status, reason, e.now, e.io);
    case StepPay(token, costUSD, rate) => PayStep(s, env, token, costUSD, rate, e.now, e.io);
    case StepUpdatePayment(token, address, amount, txID) =>
        UpdatePaymentStep(s, env, token, address, amount, txID, e.now, e.io);
    case StepSnapshot => SnapshotStep(env, s);
    case StepCheck(key, lookup) => CheckStep(s, env, key, lookup, e.now, e.io);
    case StepRemove => RemoveStep(env, s);
    case StepUser(uid, op) => UserStep(env, s, uid, op, e.now);
    case StepInvite(uid, user) => InviteStep(env, s, uid, user);
    case StepRestart(order) => RestartStep(env, s, order, e.now);
  }
}
