/** Concrete runs that show what the conditions of the ledger theorems are there for. */
module LedgerWitnesses {
  import opened Wrappers
  import opened MachineInts
  import opened Database
  import opened Accounts
  import opened Ledger
  import opened LedgerInvariants
  import opened LedgerRuns
  import opened LedgerTheorems
  import opened AddressTheorems
  import Decimal
  import Hex
  import InvoiceFile
  import PaymentStream

  const XPUB := "xpub"

  /** One known extended key, every file readable, one atom for a dollar. */
  ghost predicate Simple(env: Env) {
    && RealEnv(env)
    && (forall i: nat :: env.derive(XPUB, i).Some? && env.derive(XPUB, i) != Some("a"))
    && (forall payload :: env.parse(payload).Some?)
    && (forall cost: uint64, rate: real :: env.atoms(cost, rate) == Some(cost))
  }

  lemma SimpleEnv() returns (env: Env)
    ensures Simple(env)
  {
    var derive := (x: string, i: nat) => if x == XPUB then Some(Decimal.Print(i)) else None;
    var parse := (payload: string) => var none: InvoiceFile.Records := []; Some(none);
    var atoms := (cost: uint64, rate: real) => Some(cost);
    var encode := (ps: seq<InvoicePayment>) => PaymentStream.Payload(ps);
    var decode := (token: string, payload: string) => PaymentStream.Recover(token, payload);
    env := Env(derive, parse, atoms, encode, decode);
    forall i: nat ensures env.derive(XPUB, i).Some? && env.derive(XPUB, i) != Some("a") {
      assert Decimal.IsDigit(Decimal.Print(i)[0]);
    }
    forall x, i, y, j | env.derive(x, i).Some? && env.derive(x, i) == env.derive(y, j) ensures x == y && i == j {
      Decimal.ValueOfPrint(i);
      Decimal.ValueOfPrint(j);
    }
  }

  // ---------------------------------------------------------------- two users

  function Member(uid: uint64, key: seq<byte>): User {
    User(uid, "", "", "", "", XPUB, None, false, None, 0, None, 0, None, 0, None, 0, 0, 0, 0, 0, [Identity(key, 1, 0)])
  }

  function TwoUsers(k1: seq<byte>, k2: seq<byte>): State {
    State(map[1 := Member(1, k1), 2 := Member(2, k2)], map[Hex.Encode(k1) := 1, Hex.Encode(k2) := 2],
          map[], map[], map[], Sleeping, [])
  }

  /** An empty ledger with two members, each active under a key of its own, and one extended key for both. */
  predicate TwoMembers(s: State, key1: string, key2: string) {
    && Initial(s) && s.users.Keys == {1, 2}
    && KeyOf(s.users, 1) == Some(key1) && key1 in s.keys && s.keys[key1] == 1
    && KeyOf(s.users, 2) == Some(key2) && key2 in s.keys && s.keys[key2] == 2
    && s.users[1].extendedPublicKey == XPUB == s.users[2].extendedPublicKey
    && s.users[1].paymentAddressIndex == 0 == s.users[2].paymentAddressIndex
  }

  lemma TwoUsersAre(k1: seq<byte>, k2: seq<byte>)
    requires |k1| == KEY_SIZE && |k2| == KEY_SIZE && k1 != k2
    ensures TwoMembers(TwoUsers(k1, k2), Hex.Encode(k1), Hex.Encode(k2))
  {
    if Hex.Encode(k1) == Hex.Encode(k2) {
      Hex.EncodeInjective(k1, k2);
    }
    var s := TwoUsers(k1, k2);
    assert s.users[1].identities[0].KeyText() == Hex.Encode(k1);
    assert s.users[2].identities[0].KeyText() == Hex.Encode(k2);
    assert HoldsKey(s.users[1], Hex.Encode(k1)) && HoldsKey(s.users[2], Hex.Encode(k2));
  }

  // ---------------------------------------------------------------- steps that succeed

  const WRITES := Io(true, true, true)

  function Request(key: string): InvoiceRequest {
    InvoiceRequest(key, "", true, File("file", "", ""))
  }

  function SubmittedRow(uid: uint64, key: string, token: string, now: Time): Invoice {
    Invoice(token, uid, "", 1, 2019, now, NotReviewed, "", Some(File("file", "", "")), key, "", "", "", "1",
            [InvoiceChange("", NotReviewed, "", now)], [])
  }

  function AfterSubmit(s: State, uid: uint64, key: string, token: string, now: Time): State {
    s.(backend := s.backend[token := NewRecord(Request(key), 1, 2019, "", now)],
       invoices := s.invoices[token := SubmittedRow(uid, key, token, now)])
  }

  function SubmitEvent(uid: uint64, key: string, token: string, now: Time): Event {
    Event(StepSubmit(uid, Request(key), 1, 2019, token, ""), now, WRITES)
  }

  lemma EmptyStream(env: Env, token: string)
    requires GoodStreams(env)
    ensures env.decode(token, "") == Some([])
  {
    assert env.decode(token, env.encode([])) == Some(PaymentStream.Recovered(token, []));
  }

  lemma SubmitDone(s: State, env: Env, uid: uint64, key: string, token: string, now: Time)
    requires Simple(env) && KeyOf(s.users, uid) == Some(key) && key in s.keys && s.keys[key] == uid
    requires token !in s.backend && (forall t | t in s.invoices :: s.invoices[t].userID != uid) && IndexBounded(s.users)
    ensures Covered(s, env, SubmitEvent(uid, key, token, now))
    ensures Next(s, env, SubmitEvent(uid, key, token, now)) == (AfterSubmit(s, uid, key, token, now), Done)
  {
    JsonStreamsAreGood(env);
    EmptyStream(env, token);
    var rec := NewRecord(Request(key), 1, 2019, "", now);
    assert ConvertChanges(rec.changes) == [InvoiceChange("", NotReviewed, "", now)];
    assert Replay(env, s.keys, token, rec, Some(File("file", "", ""))) == Some(SubmittedRow(uid, key, token, now));
  }

  function PayEvent(token: string, costUSD: uint64, now: Time): Event {
    Event(StepPay(token, costUSD, 1.0), now, WRITES)
  }

  function Bought(env: Env, u: User, token: string, costUSD: uint64, now: Time): InvoicePayment
    requires env.derive(XPUB, u.paymentAddressIndex % TWO_TO_THE_32).Some?
  {
    InvoicePayment(token, false, env.derive(XPUB, u.paymentAddressIndex % TWO_TO_THE_32).value, costUSD, now,
                   now + POLL_EXPIRY_DURATION, "")
  }

  /** An invoice that can be paid again for some cost. */
  predicate Payable(s: State, token: string) {
    && token in s.invoices && token in s.backend && s.invoices[token].token == token && s.invoices[token].file.Some?
    && s.invoices[token].userID in s.users && s.users[s.invoices[token].userID].extendedPublicKey == XPUB
  }

  /** What a payment for a given cost leaves: one more payment in the row, in the poll map and among the issues. */
  predicate PaidFor(s: State, env: Env, token: string, costUSD: uint64, now: Time, after: State)
    requires Payable(s, token) && env.derive(XPUB,
              s.users[s.invoices[token].userID].paymentAddressIndex % TWO_TO_THE_32).Some?
  {
    var row := s.invoices[token];
    var p := Bought(env, s.users[row.userID], token, costUSD, now);
    && after.users == SpendIndex(s.users, row.userID)
    && after.invoices == s.invoices[token := row.(payments := row.payments + [p])]
    && after.backend.Keys == s.backend.Keys && after.poller == s.poller
    && after.polled == PollUnpaid(s.polled, token, RefreshedAll(row.payments, now))[p.address := PolledEntry(token, p)]
  }

  lemma PayDone(s: State, env: Env, token: string, costUSD: uint64, now: Time)
    requires Simple(env) && Payable(s, token) && costUSD != 0
    ensures Next(s, env, PayEvent(token, costUSD, now)).1.Done?
    ensures PaidFor(s, env, token, costUSD, now, Next(s, env, PayEvent(token, costUSD, now)).0)
  {
    var row := s.invoices[token];
    var inv := Load(s, token).value;
    assert inv.(file := row.file) == inv;
    CreateDone(s, Refresh(s, inv, now), env, inv, costUSD, now);
    assert Pay(s, env, token, costUSD, 1.0, now, WRITES)
        == CreatePayment(Refresh(s, inv, now), env, inv, false, Some(costUSD), 1.0, now, WRITES);
  }

  lemma CreateDone(s: State, refreshed: State, env: Env, inv: Invoice, costUSD: uint64, now: Time)
    requires Simple(env) && Payable(s, inv.token) && inv == s.invoices[inv.token].(changes := [])
    requires refreshed == Refresh(s, inv, now)
    ensures var (after, reply) := CreatePayment(refreshed, env, inv, false, Some(costUSD), 1.0, now, WRITES);
            reply.Done? && PaidFor(s, env, inv.token, costUSD, now, after)
  {
    var row := s.invoices[inv.token];
    var p := Bought(env, s.users[row.userID], inv.token, costUSD, now);
    StripsNothing(row.changes);
    assert UpdateInvoice(refreshed.invoices, inv.(payments := inv.payments + [p]))
        == s.invoices[inv.token := row.(payments := row.payments + [p])];
  }

  lemma StripsNothing(changes: seq<InvoiceChange>)
    ensures changes + StripReasons([]) == changes
  {
  }

  // ---------------------------------------------------------------- one key for two users

  /** Two invoices without payments, of two users at their first index. */
  predicate TwoInvoices(s: State) {
    && Payable(s, "a") && Payable(s, "b") && s.invoices["a"].userID == 1 && s.invoices["b"].userID == 2
    && s.invoices["a"].payments == [] && s.invoices["b"].payments == []
    && s.invoices["a"].status.NotReviewed? && s.polled == map[] && s.poller.Sleeping?
    && s.users.Keys == {1, 2} && s.users[1].paymentAddressIndex == 0 && s.users[2].paymentAddressIndex == 0
  }

  lemma TwoSubmits(env: Env, start: State, key1: string, key2: string) returns (es: seq<Event>)
    requires Simple(env) && TwoMembers(start, key1, key2)
    ensures CoveredRun(start, env, es) && TwoInvoices(Run(start, env, es))
  {
    var e1, e2 := SubmitEvent(1, key1, "a", 1), SubmitEvent(2, key2, "b", 2);
    OneSubmit(env, start, key1, key2);
    SecondSubmit(env, start, key1, key2);
    RunAppend(start, env, [e1], e2);
    es := [e1] + [e2];
  }

  lemma OneSubmit(env: Env, start: State, key1: string, key2: string)
    requires Simple(env) && TwoMembers(start, key1, key2)
    ensures CoveredRun(start, env, [SubmitEvent(1, key1, "a", 1)])
    ensures Run(start, env, [SubmitEvent(1, key1, "a", 1)]) == AfterSubmit(start, 1, key1, "a", 1)
    ensures var s := AfterSubmit(start, 1, key1, "a", 1);
            KeyOf(s.users, 2) == Some(key2) && key2 in s.keys && s.keys[key2] == 2
  {
    SubmitRun(start, env, 1, key1, "a", 1);
  }

  lemma SubmitRun(s: State, env: Env, uid: uint64, key: string, token: string, now: Time)
    requires Simple(env) && KeyOf(s.users, uid) == Some(key) && key in s.keys && s.keys[key] == uid
    requires token !in s.backend && (forall t | t in s.invoices :: s.invoices[t].userID != uid) && IndexBounded(s.users)
    ensures CoveredRun(s, env, [SubmitEvent(uid, key, token, now)])
    ensures Run(s, env, [SubmitEvent(uid, key, token, now)]) == AfterSubmit(s, uid, key, token, now)
  {
    SubmitDone(s, env, uid, key, token, now);
    RunOfOne(s, env, SubmitEvent(uid, key, token, now), AfterSubmit(s, uid, key, token, now));
  }

  lemma SecondSubmit(env: Env, start: State, key1: string, key2: string)
    requires Simple(env) && TwoMembers(start, key1, key2)
    ensures var s, e := AfterSubmit(start, 1, key1, "a", 1), SubmitEvent(2, key2, "b", 2);
            Covered(s, env, e) && TwoInvoices(Next(s, env, e).0)
  {
    SubmitDone(AfterSubmit(start, 1, key1, "a", 1), env, 2, key2, "b", 2);
  }

  /** What the payments leave: one address, under two invoices, polled for the second only. */
  predicate Clash(s: State) {
    && "a" in s.invoices && "b" in s.invoices && |s.invoices["a"].payments| == 1 == |s.invoices["b"].payments|
    && var p, q := s.invoices["a"].payments[0], s.invoices["b"].payments[0];
       && p.address == q.address && p.txID == "" == q.txID && p.amount != q.amount
       && p.address in s.polled && s.polled[p.address] == PolledEntry("b", q)
  }

  lemma TwoPaid(env: Env, s: State, s1: State, s2: State)
    requires Simple(env) && TwoInvoices(s) && PaidFor(s, env, "a", 10, 3, s1)
    requires Payable(s1, "b") && PaidFor(s1, env, "b", 20, 4, s2)
    ensures Clash(s2)
  {
    assert s1.invoices["b"] == s.invoices["b"] && s2.invoices["a"] == s1.invoices["a"];
    assert s1.users[2] == s.users[2];
  }

  lemma PaidInBounds(env: Env, s: State, token: string, costUSD: uint64, now: Time, after: State)
    requires Simple(env) && Payable(s, token) && PaidFor(s, env, token, costUSD, now, after)
    requires s.users.Keys == {1, 2} && s.users[1].paymentAddressIndex <= 1 && s.users[2].paymentAddressIndex <= 1
    ensures IndexBounded(s.users) && IndexBounded(after.users)
  {
    SpentInBounds(s.users, s.invoices[token].userID);
  }

  lemma SpentInBounds(users: Users, uid: uint64)
    requires users.Keys == {1, 2} && users[1].paymentAddressIndex <= 1 && users[2].paymentAddressIndex <= 1
    requires uid in users
    ensures IndexBounded(users) && IndexBounded(SpendIndex(users, uid))
  {
  }

  lemma StillPayable(env: Env, s: State, after: State)
    requires Simple(env) && TwoInvoices(s) && PaidFor(s, env, "a", 10, 3, after)
    ensures Payable(after, "b") && after.users.Keys == {1, 2}
    ensures after.users[1].paymentAddressIndex <= 1 && after.users[2].paymentAddressIndex <= 1
  {
  }

  /** Two users give the same extended key, each submits an invoice, and both are paid. Both payments stand at the
      same address; the poll map has it for the second invoice, so the first payment is no longer polled. */
  lemma SharedAddressRun(env: Env, start: State, key1: string, key2: string) returns (es: seq<Event>)
    requires Simple(env) && TwoMembers(start, key1, key2)
    ensures CoveredRun(start, env, es)
    ensures Clash(Run(start, env, es)) && !NoSharedIndex(Run(start, env, es).issued)
  {
    var submits := TwoSubmits(env, start, key1, key2);
    var s := Run(start, env, submits);
    var e1, e2 := PayEvent("a", 10, 3), PayEvent("b", 20, 4);
    var s1 := Next(s, env, e1).0;
    PayDone(s, env, "a", 10, 3);
    PaidInBounds(env, s, "a", 10, 3, s1);
    RunAppend(start, env, submits, e1);
    StillPayable(env, s, s1);
    PayDone(s1, env, "b", 20, 4);
    PaidInBounds(env, s1, "b", 20, 4, Next(s1, env, e2).0);
    RunAppend(start, env, submits + [e1], e2);
    es := submits + [e1] + [e2];
    TwoPaid(env, s, s1, Run(start, env, es));
    ReachableInv(start, env, es);
    AddressesDistinctIff(start, env, es);
    SharedAddressShown(env, Run(start, env, es));
  }

  lemma IssueOf(env: Env, s: State, token: string) returns (i: nat)
    requires RowsOk(env, s) && token in s.invoices && |s.invoices[token].payments| == 1
    ensures i < |s.issued| && s.issued[i].token == token && s.issued[i].address == s.invoices[token].payments[0].address
  {
    var p := s.invoices[token].payments[0];
    assert RowOk(env, s.keys, s.issued, token, s.invoices[token], s.backend[token]);
    i :| 0 <= i < |s.issued| && Fits(s.issued[i], token, p.address, p.amount, p.txNotBefore);
  }

  /** Two rows that show one address stand for two issues that share it. */
  lemma SharedAddressShown(env: Env, s: State)
    requires Inv(env, s) && Clash(s)
    ensures !AddressesDistinct(s.issued)
  {
    var i := IssueOf(env, s, "a");
    var j := IssueOf(env, s, "b");
    if i < j {
      assert s.issued[i].address == s.issued[j].address;
    } else {
      assert s.issued[j].address == s.issued[i].address;
    }
  }

  lemma RunOfOne(s: State, env: Env, e: Event, after: State)
    requires Covered(s, env, e) && Next(s, env, e).0 == after
    ensures CoveredRun(s, env, [e]) && Run(s, env, [e]) == after
  {
    assert [e][1..] == [];
    assert CoveredRun(after, env, []) && Run(after, env, []) == after;
  }

  lemma {:induction false} RunAppend(s: State, env: Env, es: seq<Event>, e: Event)
    requires CoveredRun(s, env, es) && Covered(Run(s, env, es), env, e)
    ensures CoveredRun(s, env, es + [e]) && Run(s, env, es + [e]) == Next(Run(s, env, es), env, e).0
    decreases |es|
  {
    if es == [] {
      assert [e][1..] == [];
      assert es + [e] == [e];
      var next := Next(s, env, e).0;
      assert CoveredRun(next, env, []) && Run(next, env, []) == next;
    } else {
      assert (es + [e])[0] == es[0] && (es + [e])[1..] == es[1..] + [e];
      RunAppend(Next(s, env, es[0]).0, env, es[1..], e);
    }
  }

  // ---------------------------------------------------------------- an edit by somebody else

  /** The first user submits, the second edits with its own active key: the edit is accepted, and from then on the
      row belongs to the first user and the replay of its record to the second. */
  lemma ForeignEdit(env: Env, start: State, key1: string, key2: string)
    requires Simple(env) && TwoMembers(start, key1, key2)
    ensures var submit := SubmitEvent(1, key1, "a", 1);
            && CoveredRun(start, env, [submit])
            && OwnersDiffer(Run(start, env, [submit]), env, key2)
  {
    OneSubmit(env, start, key1, key2);
    ForeignEditDone(AfterSubmit(start, 1, key1, "a", 1), env, key1, key2);
  }

  /** The second user's edit is done, and row and replay name different owners. */
  predicate OwnersDiffer(s: State, env: Env, key: string) {
    var (after, reply) := Edit(s, env, KeyOf(s.users, 2), "a", Request(key), "2", 2, WRITES);
    && reply.Done? && "a" in after.invoices && "a" in after.backend
    && var replayed := Replay(env, after.keys, "a", after.backend["a"], None);
       replayed.Some? && after.invoices["a"].userID == 1 && replayed.value.userID == 2
  }

  lemma ForeignEditDone(s: State, env: Env, key1: string, key2: string)
    requires Simple(env) && 1 in s.users && KeyOf(s.users, 2) == Some(key2) && key2 in s.keys && s.keys[key2] == 2
    requires s.invoices == map["a" := SubmittedRow(1, key1, "a", 1)] &&
              s.backend == map["a" := NewRecord(Request(key1), 1, 2019, "", 1)]
    ensures OwnersDiffer(s, env, key2)
  {
    JsonStreamsAreGood(env);
    EmptyStream(env, "a");
  }

  // ---------------------------------------------------------------- an index past 2^32

  /** One payment of the first user's invoice, at the user's first index, and i indices spent. */
  predicate Spent(s: State, env: Env, i: nat) {
    && s.users.Keys == {1, 2} && s.users[1].paymentAddressIndex == i && s.users[2].paymentAddressIndex <= 1
    && Payable(s, "a") && s.invoices["a"].userID == 1 && |s.invoices["a"].payments| == 1
    && var p := s.invoices["a"].payments[0];
       env.derive(XPUB, 0) == Some(p.address) && p.amount == 10 && p.txNotBefore == 2
  }

  /** The payment as it was made: polled, and without a transaction. */
  predicate JustPaid(s: State) {
    && "a" in s.invoices && |s.invoices["a"].payments| == 1 && !s.invoices["a"].status.Paid? && s.poller.Sleeping?
    && var p := s.invoices["a"].payments[0];
       && p.txID == "" && p.pollExpiry == 2 + POLL_EXPIRY_DURATION
       && s.polled == map[p.address := PolledEntry("a", p)]
  }

  lemma OnePaid(env: Env, start: State, key1: string, key2: string) returns (es: seq<Event>)
    requires Simple(env) && TwoMembers(start, key1, key2)
    ensures CoveredRun(start, env, es) && Spent(Run(start, env, es), env, 1) && JustPaid(Run(start, env, es))
  {
    var submits := TwoSubmits(env, start, key1, key2);
    var s, e := Run(start, env, submits), PayEvent("a", 10, 2);
    PayDone(s, env, "a", 10, 2);
    PaidInBounds(env, s, "a", 10, 2, Next(s, env, e).0);
    RunAppend(start, env, submits, e);
    FirstIsPaid(env, s, Next(s, env, e).0);
    es := submits + [e];
  }

  lemma FirstIsPaid(env: Env, s: State, after: State)
    requires Simple(env) && TwoInvoices(s) && PaidFor(s, env, "a", 10, 2, after)
    ensures Spent(after, env, 1) && JustPaid(after)
  {
  }

  /** A payment call whose metadata request fails. */
  function SpendEvent(): Event {
    Event(StepPay("a", 10, 1.0), 3, Io(false, true, true))
  }

  /** It spends an index and nothing else of note. */
  lemma SpendDone(s: State, env: Env, i: nat)
    requires Simple(env) && Spent(s, env, i) && i < TWO_TO_THE_32
    ensures Covered(s, env, SpendEvent()) && Spent(Next(s, env, SpendEvent()).0, env, i + 1)
  {
    var inv := Load(s, "a").value;
    assert inv.(file := s.invoices["a"].file) == inv;
    assert Next(s, env, SpendEvent()).0 == Refresh(s, inv, 3).(users := SpendIndex(s.users, 1));
    SpentMore(s, env, i, Refresh(s, inv, 3).(users := SpendIndex(s.users, 1)));
  }

  lemma SpentMore(s: State, env: Env, i: nat, after: State)
    requires Simple(env) && Spent(s, env, i) && i < TWO_TO_THE_32
    requires after.users == SpendIndex(s.users, 1) && after.backend == s.backend
    requires var row := s.invoices["a"];
             after.invoices == s.invoices["a" := row.(payments := RefreshedAll(row.payments, 3))]
    ensures Spent(after, env, i + 1) && IndexBounded(s.users) && IndexBounded(after.users)
  {
    var row := s.invoices["a"];
    assert after.users[1] == s.users[1].(paymentAddressIndex := i + 1) && after.users[2] == s.users[2];
    assert RefreshedAll(row.payments, 3)[0] == Refreshed(row.payments[0], 3);
  }

  lemma {:induction false} SpendMany(s: State, env: Env, i: nat, n: nat) returns (es: seq<Event>)
    requires Simple(env) && Spent(s, env, i) && i + n <= TWO_TO_THE_32
    ensures CoveredRun(s, env, es) && Spent(Run(s, env, es), env, i + n)
    decreases n
  {
    es := [];
    if n > 0 {
      SpendDone(s, env, i);
      var rest := SpendMany(Next(s, env, SpendEvent()).0, env, i + 1, n - 1);
      RunPrepend(s, env, SpendEvent(), rest);
      es := [SpendEvent()] + rest;
    }
  }

  lemma RunPrepend(s: State, env: Env, e: Event, es: seq<Event>)
    requires Covered(s, env, e) && CoveredRun(Next(s, env, e).0, env, es)
    ensures CoveredRun(s, env, [e] + es) && Run(s, env, [e] + es) == Run(Next(s, env, e).0, env, es)
  {
    assert ([e] + es)[1..] == es;
  }

  lemma {:induction false} RunConcat(s: State, env: Env, es: seq<Event>, more: seq<Event>)
    requires CoveredRun(s, env, es) && CoveredRun(Run(s, env, es), env, more)
    ensures CoveredRun(s, env, es + more) && Run(s, env, es + more) == Run(Run(s, env, es), env, more)
    decreases |es|
  {
    if es == [] {
      assert es + more == more;
    } else {
      RunConcat(Next(s, env, es[0]).0, env, es[1..], more);
      ConcatNext(s, env, es, more);
    }
  }

  lemma ConcatNext(s: State, env: Env, es: seq<Event>, more: seq<Event>)
    requires es != [] && Covered(s, env, es[0]) && CoveredRun(Next(s, env, es[0]).0, env, es[1..] + more)
    ensures CoveredRun(s, env, es + more) && Run(s, env, es + more) == Run(Next(s, env, es[0]).0, env, es[1..] + more)
  {
    assert [es[0]] + (es[1..] + more) == es + more;
    RunPrepend(s, env, es[0], es[1..] + more);
  }

  /** A run with a payment and 2^32 - 1 payment calls whose metadata requests fail: the next payment for the same
      cost gets the address and the amount of the first, and neither is the only match any more. */
  lemma WrappedIndex(env: Env, start: State, key1: string, key2: string) returns (es: seq<Event>)
    requires Simple(env) && TwoMembers(start, key1, key2)
    ensures CoveredRun(start, env, es) && Spent(Run(start, env, es), env, TWO_TO_THE_32)
    ensures var (after, reply) := Next(Run(start, env, es), env, PayEvent("a", 10, 4));
            reply.Done? && "a" in after.invoices && SameMatch(after.invoices["a"].payments)
  {
    var paid := OnePaid(env, start, key1, key2);
    var calls := SpendMany(Run(start, env, paid), env, 1, TWO_TO_THE_32 - 1);
    RunConcat(start, env, paid, calls);
    es := paid + calls;
    var s := Run(start, env, es);
    PayDone(s, env, "a", 10, 4);
    TwoMatches(env, s, Next(s, env, PayEvent("a", 10, 4)).0);
  }

  /** Two payments that an address and an amount do not tell apart. */
  predicate SameMatch(ps: seq<InvoicePayment>) {
    |ps| == 2 && ps[0].address == ps[1].address && ps[0].amount == ps[1].amount &&
        ps[0].txNotBefore != ps[1].txNotBefore
  }

  lemma TwoMatches(env: Env, s: State, after: State)
    requires Simple(env) && Spent(s, env, TWO_TO_THE_32) && PaidFor(s, env, "a", 10, 4, after)
    ensures "a" in after.invoices && SameMatch(after.invoices["a"].payments)
  {
  }

  // ---------------------------------------------------------------- an expired poll entry

  /** A whole pass of the checker over one key at a given time, with nothing found. */
  function Pass(key: string, now: Time): seq<Event> {
    [ Event(StepSnapshot, now, WRITES), Event(StepCheck(key, NothingFound), now, WRITES),
        Event(StepRemove, now, WRITES) ]
  }

  const LATE := 3 + POLL_EXPIRY_DURATION

  /** A payment that is not met for a day is still polled after a pass of the checker that finds it expired. */
  lemma ExpiredRun(env: Env, start: State, key1: string, key2: string) returns (es: seq<Event>, key: string)
    requires Simple(env) && TwoMembers(start, key1, key2)
    ensures CoveredRun(start, env, es) && |es| >= 3 && es[|es| - 3..] == Pass(key, LATE)
    ensures var s := Run(start, env, es); s.poller.Sleeping? && key in s.polled && s.polled[key].pollExpiry < LATE
  {
    var paid := OnePaid(env, start, key1, key2);
    var s := Run(start, env, paid);
    key := s.invoices["a"].payments[0].address;
    PassOver(env, s, key);
    RunConcat(start, env, paid, Pass(key, LATE));
    es := paid + Pass(key, LATE);
  }

  lemma PassOver(env: Env, s: State, key: string)
    requires Simple(env) && Spent(s, env, 1) && JustPaid(s) && key == s.invoices["a"].payments[0].address
    ensures CoveredRun(s, env, Pass(key, LATE))
    ensures var after := Run(s, env, Pass(key, LATE));
            after.poller.Sleeping? && key in after.polled && after.polled[key] == s.polled[key]
  {
    ExpiredStep(env, s, key);
    WholePass(env, s, s.(poller := Checking(map[], ["a"])), key);
    PassKeepsEntry(s, key);
  }

  lemma PassKeepsEntry(s: State, key: string)
    requires JustPaid(s) && key == s.invoices["a"].payments[0].address && key != "a"
    ensures var after := RemoveChecked(s.(poller := Checking(map[], ["a"])));
            after.poller.Sleeping? && key in after.polled && after.polled[key] == s.polled[key]
  {
  }

  lemma WholePass(env: Env, s: State, s2: State, key: string)
    requires s.poller.Sleeping? && IndexBounded(s.users)
    requires s2 == s.(poller := Checking(map[], ["a"]))
    requires var e := Event(StepCheck(key, NothingFound), LATE, WRITES);
             Covered(TakeSnapshot(s), env, e) && Next(TakeSnapshot(s), env, e).0 == s2
    ensures CoveredRun(s, env, Pass(key, LATE)) && Run(s, env, Pass(key, LATE)) == RemoveChecked(s2)
  {
    SnapshotStep(env, s);
    RemovalStep(env, s2);
    ThreeSteps(env, s, TakeSnapshot(s), s2, RemoveChecked(s2), Event(StepSnapshot, LATE, WRITES),
               Event(StepCheck(key, NothingFound), LATE, WRITES), Event(StepRemove, LATE, WRITES));
  }

  lemma SnapshotStep(env: Env, s: State)
    requires s.poller.Sleeping? && IndexBounded(s.users)
    ensures var e := Event(StepSnapshot, LATE, WRITES); Covered(s, env, e) && Next(s, env, e).0 == TakeSnapshot(s)
  {
  }

  lemma ExpiredStep(env: Env, s: State, key: string)
    requires JustPaid(s) && Load(s, "a").Some? && IndexBounded(s.users) && key == s.invoices["a"].payments[0].address
    ensures var e := Event(StepCheck(key, NothingFound), LATE, WRITES);
            Covered(TakeSnapshot(s), env, e) &&
            Next(TakeSnapshot(s), env, e).0 == s.(poller := Checking(map[], ["a"]))
  {
    ExpiredCheck(env, s, key);
  }

  lemma RemovalStep(env: Env, s: State)
    requires s.poller == Checking(map[], ["a"]) && IndexBounded(s.users)
    ensures var e := Event(StepRemove, LATE, WRITES); Covered(s, env, e) && Next(s, env, e).0 == RemoveChecked(s)
  {
  }

  lemma ThreeSteps(env: Env, s: State, s1: State, s2: State, s3: State, a: Event, b: Event, c: Event)
    requires Covered(s, env, a) && Next(s, env, a).0 == s1
    requires Covered(s1, env, b) && Next(s1, env, b).0 == s2
    requires Covered(s2, env, c) && Next(s2, env, c).0 == s3
    ensures CoveredRun(s, env, [a, b, c]) && Run(s, env, [a, b, c]) == s3
  {
    RunOfOne(s2, env, c, s3);
    RunPrepend(s1, env, b, [c]);
    RunPrepend(s, env, a, [b] + [c]);
    assert [a, b, c] == [a] + ([b] + [c]);
  }

  lemma ExpiredCheck(env: Env, s: State, key: string)
    requires JustPaid(s) && Load(s, "a").Some? && key == s.invoices["a"].payments[0].address
    ensures var s1, s2 := TakeSnapshot(s), s.(poller := Checking(map[], ["a"]));
            CheckEntry(s1, env, key, NothingFound, LATE, WRITES) == (s2, Skipped)
  {
    assert [] + ["a"] == ["a"] && s.polled - {key} == map[];
  }

  // ---------------------------------------------------------------- a copy loaded before a payment

  /** A payment is credited through a copy of the invoice that was loaded before another payment was created: the
      credit is done, and the new payment is in the row before it but not in the log after it. */
  lemma LostPaymentRun(env: Env, start: State, key1: string, key2: string) returns (es: seq<Event>)
    requires Simple(env) && TwoMembers(start, key1, key2)
    ensures CoveredRun(start, env, es) && Load(Run(start, env, es), "a").Some?
    ensures LosesPayment(Run(start, env, es), env, Load(Run(start, env, es), "a").value,
              Next(Run(start, env, es), env, PayEvent("a", 20, 4)).0)
  {
    es := OnePaid(env, start, key1, key2);
    var s := Run(start, env, es);
    PayDone(s, env, "a", 20, 4);
    NewPaymentLost(env, s, Next(s, env, PayEvent("a", 20, 4)).0);
  }

  ghost predicate LosesPayment(s: State, env: Env, copy: Invoice, paid: State) {
    && copy.token == "a" && |copy.payments| == 1 && "a" in paid.invoices && |paid.invoices["a"].payments| == 2
    && var (after, reply) := Credit(paid, env, copy, copy.payments[0].address, 10, "tx", 5, WRITES);
       && reply.Done? && "a" in after.backend
       && var logged := env.decode("a", after.backend["a"].payments);
          && logged.Some?
          && forall i | 0 <= i < |logged.value| :: logged.value[i].address != paid.invoices["a"].payments[1].address
  }

  lemma NewPaymentLost(env: Env, s: State, paid: State)
    requires Simple(env) && Spent(s, env, 1) && PaidFor(s, env, "a", 20, 4, paid)
    ensures Load(s, "a").Some? && LosesPayment(s, env, Load(s, "a").value, paid)
  {
    JsonStreamsAreGood(env);
    var copy := Load(s, "a").value;
    var q := paid.invoices["a"].payments[1];
    assert q.address != copy.payments[0].address;
    assert FirstMatch(copy.payments, copy.payments[0].address, 10) == Some(0);
    StaleCopyOverwrites(paid, env, copy, copy.payments[0].address, 10, "tx", 5, WRITES, q.address);
  }
}
