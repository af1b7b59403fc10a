/** When a payment call succeeds, what it asks the payer for, and what it leaves. */
module PayOutcomes {
  import opened Wrappers
  import opened MachineInts
  import opened Database
  import opened Accounts
  import opened Ledger
  import opened LedgerInvariants
  import opened LedgerRuns
  import opened LedgerTheorems
  import opened CheckOutcomes
  import opened StaleCopies
  import InvoiceFile
  import PaymentStream

  /** The file of an invoice: its row's, or the record's after a restart. */
  function FileOf(s: State, token: string): File
    requires token in s.invoices && token in s.backend
  {
    if s.invoices[token].file.Some? then s.invoices[token].file.value else s.backend[token].file
  }

  /** The file reads as records whose hours and costs are numbers. */
  predicate GoodFile(env: Env, file: File) {
    && env.parse(file.payload).Some?
    && forall i | 0 <= i < |env.parse(file.payload).value| :: InvoiceFile.Readable(env.parse(file.payload).value[i])
  }

  /** There is a cost: the one asked for, or that of a good file. */
  predicate Costed(env: Env, file: File, costUSD: uint64) {
    costUSD == 0 ==> GoodFile(env, file)
  }

  /** The cost in dollars: the one asked for, or else the sum of the costs in the file modulo 2^64. */
  function DollarCost(env: Env, file: File, costUSD: uint64): uint64
    requires Costed(env, file, costUSD)
  {
    if costUSD != 0 then costUSD
    else InvoiceFile.FieldCosts(env.parse(file.payload).value) % TWO_TO_THE_64
  }

  lemma CostIs(env: Env, file: File, costUSD: uint64)
    ensures CostOf(env, file, costUSD) ==
            if Costed(env, file, costUSD) then Some(DollarCost(env, file, costUSD)) else None
  {
    if env.parse(file.payload).Some? {
      InvoiceFile.TotalsIff(env.parse(file.payload).value);
    }
  }

  // ---------------------------------------------------------------- what a call needs and leaves

  function NextAddress(env: Env, u: User): Option<string> {
    env.derive(u.extendedPublicKey, u.paymentAddressIndex % TWO_TO_THE_32)
  }

  /** An address is derived and its index counted up: the cost is known and the user can be stored. */
  predicate Spends(env: Env, u: User, cost: Option<uint64>, io: Io) {
    cost.Some? && NextAddress(env, u).Some? && io.indexOk
  }

  predicate Ready(env: Env, u: User, cost: Option<uint64>, rate: real, io: Io) {
    Spends(env, u, cost, io) && env.atoms(cost.value, rate).Some? && io.rpcOk
  }

  /** The first payment for the total cost has this place. */
  predicate TotalAt(ps: seq<InvoicePayment>, k: int) {
    0 <= k < |ps| && ps[k].isTotalCost && forall i | 0 <= i < k :: !ps[i].isTotalCost
  }

  /** The payment asked for: at the new address, for the cost at the rate, from now on and polled for a day. A total
      cost takes the place of an earlier one, and keeps that one's transaction. */
  ghost predicate AskedFor(ps: seq<InvoicePayment>, p: InvoicePayment, address: string, amount: uint64,
                           isTotalCost: bool, now: Time)
  {
    && p.address == address && p.amount == amount && p.isTotalCost == isTotalCost && p.txNotBefore == now
    && p.pollExpiry == now + POLL_EXPIRY_DURATION
    && (forall k | isTotalCost && TotalAt(ps, k) :: p.txID == ps[k].txID)
    && ((!isTotalCost || forall k | 0 <= k < |ps| :: !ps[k].isTotalCost) ==> p.txID == "")
  }

  /** Up to poll expiries, the payments are those before with this one in its place or at the end. */
  ghost predicate Placed(before: seq<InvoicePayment>, after: seq<InvoicePayment>, p: InvoicePayment,
                         isTotalCost: bool) {
    if isTotalCost && exists k :: TotalAt(before, k)
    then exists k :: TotalAt(before, k) && |after| == |before| && after[k] == p && SameStream(after, before[k := p])
    else SameStream(after, before + [p]) && |after| == |before| + 1 && after[|before|] == p
  }

  ghost predicate PaidBy(env: Env, s: State, after: State, token: string, cost: uint64, isTotalCost: bool, rate: real,
                         now: Time, p: InvoicePayment)
    requires token in s.invoices && s.invoices[token].userID in s.users
    requires NextAddress(env, s.users[s.invoices[token].userID]).Some? && env.atoms(cost, rate).Some?
  {
    var row := s.invoices[token];
    var u := s.users[row.userID];
    var address, amount := NextAddress(env, u).value, env.atoms(cost, rate).value;
    && token in after.invoices && after.invoices.Keys == s.invoices.Keys
    && AskedFor(row.payments, p, address, amount, isTotalCost, now)
    && Placed(row.payments, after.invoices[token].payments, p, isTotalCost)
    && after.invoices[token].status == row.status
    && after.issued ==
         s.issued + [Issue(row.userID, u.extendedPublicKey, u.paymentAddressIndex, token, address, amount, now)]
    && address in after.polled
    && after.polled[address] == PolledPayment(token, address, amount, now, now + POLL_EXPIRY_DURATION)
  }

  ghost predicate PayDoes(env: Env, s: State, token: string, costUSD: uint64, rate: real, now: Time, io: Io,
                          after: State, reply: Reply)
    requires token in s.invoices ==> s.invoices[token].userID in s.users && token in s.backend
  {
    if token !in s.invoices then reply == Refused(InvoiceNotFound) && after == s
    else
      var file, uid := FileOf(s, token), s.invoices[token].userID;
      var u := s.users[uid];
      var isTotalCost := costUSD == 0;
      var cost := if Costed(env, file, costUSD) then Some(DollarCost(env, file, costUSD)) else None;
      && reply == (if Ready(env, u, cost, rate, io) then Done else Refused(Internal))
      && after.users ==
           (if Spends(env, u, cost, io)
            then s.users[uid := u.(paymentAddressIndex := (u.paymentAddressIndex + 1) % TWO_TO_THE_64)] else s.users)
      && after.keys == s.keys && after.poller == s.poller
      && (reply.Done? ==> exists p :: PaidBy(env, s, after, token, cost.value, isTotalCost, rate, now, p))
      && (!reply.Done? ==>
            after.backend == s.backend && after.issued == s.issued && Views(after.invoices) == Views(s.invoices))
  }

  // ---------------------------------------------------------------- creating the payment

  lemma TotalIff(ps: seq<InvoicePayment>)
    ensures FirstTotalCost(ps).Some? ==> TotalAt(ps, FirstTotalCost(ps).value)
    ensures FirstTotalCost(ps).None? ==> forall k :: !TotalAt(ps, k)
    ensures forall k | TotalAt(ps, k) :: FirstTotalCost(ps) == Some(k)
  {
  }

  lemma RefreshedStream(ps: seq<InvoicePayment>, k: nat, p: InvoicePayment, now: Time)
    requires k < |ps|
    ensures SameStream(RefreshedAll(ps, now)[k := p], ps[k := p])
  {
    SameStreamAt(RefreshedAll(ps, now)[k := p], ps[k := p]);
  }

  lemma CreateReply(env: Env, s: State, inv: Invoice, isTotalCost: bool, cost: Option<uint64>, rate: real, now: Time,
                    io: Io)
    requires inv.token in s.invoices && inv.userID in s.users && inv.token in s.backend && io.dbOk
    requires |inv.payments| == |s.invoices[inv.token].payments|
    ensures var (after, reply) := CreatePayment(s, env, inv, isTotalCost, cost, rate, now, io);
            var u := s.users[inv.userID];
            && reply == (if Ready(env, u, cost, rate, io) then Done else Refused(Internal))
            && after.users ==
                 (if Spends(env, u, cost, io)
                  then s.users[inv.userID := u.(paymentAddressIndex := (u.paymentAddressIndex + 1) % TWO_TO_THE_64)]
                  else s.users)
            && after.keys == s.keys && after.poller == s.poller
            && (!reply.Done? ==>
                  after.backend == s.backend && after.issued == s.issued && after.invoices == s.invoices)
  {
  }

  /** The handler's copy against the row before the refresh. */
  lemma CreatePaid(env: Env, s: State, refreshed: State, token: string, inv: Invoice, isTotalCost: bool, cost: uint64,
                   rate: real, now: Time, io: Io)
    requires token in s.invoices && token in s.backend && s.invoices[token].userID in s.users && io.dbOk
    requires s.invoices[token].token == token && inv == s.invoices[token].(changes := [], file := inv.file)
    requires refreshed.users == s.users && refreshed.backend == s.backend && refreshed.issued == s.issued
    requires refreshed.invoices ==
             s.invoices[token := s.invoices[token].(payments := RefreshedAll(s.invoices[token].payments, now))]
    requires Ready(env, s.users[inv.userID], Some(cost), rate, io)
    ensures exists p ::
              PaidBy(env, s, CreatePayment(refreshed, env, inv, isTotalCost, Some(cost), rate, now, io).0, token, cost,
                     isTotalCost, rate, now, p)
  {
    var u := s.users[inv.userID];
    var k := if isTotalCost then FirstTotalCost(inv.payments) else None;
    var address, amount := NextAddress(env, u).value, env.atoms(cost, rate).value;
    var p := NewPayment(inv, k, isTotalCost, address, amount, now);
    var after := CreatePayment(refreshed, env, inv, isTotalCost, Some(cost), rate, now, io).0;
    TotalIff(inv.payments);
    NewPaymentAsked(inv, isTotalCost, address, amount, now);
    if k.Some? {
      RefreshedStream(inv.payments, k.value, p, now);
      assert after.invoices[token].payments == RefreshedAll(inv.payments, now)[k.value := p];
    } else {
      assert after.invoices[token].payments == inv.payments + [p];
    }
    assert Placed(inv.payments, after.invoices[token].payments, p, isTotalCost);
    assert PaidBy(env, s, after, token, cost, isTotalCost, rate, now, p);
  }

  lemma NewPaymentAsked(inv: Invoice, isTotalCost: bool, address: string, amount: uint64, now: Time)
    ensures var k := if isTotalCost then FirstTotalCost(inv.payments) else None;
            AskedFor(inv.payments, NewPayment(inv, k, isTotalCost, address, amount, now), address, amount, isTotalCost,
                now)
  {
    TotalIff(inv.payments);
  }

  lemma PayDoesIn(env: Env, s: State, token: string, costUSD: uint64, rate: real, now: Time, io: Io)
    requires Inv(env, s) && io.dbOk
    ensures token in s.invoices ==> s.invoices[token].userID in s.users && token in s.backend
    ensures var (after, reply) := Pay(s, env, token, costUSD, rate, now, io);
            PayDoes(env, s, token, costUSD, rate, now, io, after, reply)
  {
    RowsLoad(env, s, token);
    if token in s.invoices {
      var file := FileOf(s, token);
      var inv := s.invoices[token].(changes := []);
      var cost := if Costed(env, file, costUSD) then Some(DollarCost(env, file, costUSD)) else None;
      CostIs(env, file, costUSD);
      PayForm(env, s, token, costUSD, rate, now, io, file, cost);
      CreateDoes(env, s, token, costUSD, rate, now, io, file, cost, Refresh(s, inv, now), inv.(file := Some(file)));
    }
  }

  lemma CreateDoes(env: Env, s: State, token: string, costUSD: uint64, rate: real, now: Time, io: Io, file: File,
                   cost: Option<uint64>, refreshed: State, copy: Invoice)
    requires token in s.invoices && token in s.backend && s.invoices[token].userID in s.users && io.dbOk
    requires s.invoices[token].token == token && file == FileOf(s, token)
    requires cost == if Costed(env, file, costUSD) then Some(DollarCost(env, file, costUSD)) else None
    requires refreshed == Refresh(s, s.invoices[token].(changes := []), now)
    requires copy == s.invoices[token].(changes := [], file := Some(file))
    ensures var (after, reply) := CreatePayment(refreshed, env, copy, costUSD == 0, cost, rate, now, io);
            PayDoes(env, s, token, costUSD, rate, now, io, after, reply)
  {
    RefreshKeepsView(env, s, s.invoices[token].(changes := []), now);
    CreateReply(env, refreshed, copy, costUSD == 0, cost, rate, now, io);
    if Ready(env, s.users[copy.userID], cost, rate, io) {
      CreatePaid(env, s, refreshed, token, copy, costUSD == 0, cost.value, rate, now, io);
    }
  }

  lemma PayForm(env: Env, s: State, token: string, costUSD: uint64, rate: real, now: Time, io: Io, file: File,
                cost: Option<uint64>)
    requires Loads(s, token) && token in s.invoices && s.invoices[token].userID in s.users
    requires file == FileOf(s, token) && cost == CostOf(env, file, costUSD)
    ensures var inv := s.invoices[token].(changes := []);
            Pay(s, env, token, costUSD, rate, now, io) ==
            CreatePayment(Refresh(s, inv, now), env, inv.(file := Some(file)), costUSD == 0, cost, rate, now, io)
  {
  }

  /** In every run a payment call succeeds if and only if the invoice exists, no cost is left to a file that is not
      good, an address can be derived and its index stored, the cost has an amount at the rate, and the request
      succeeds. Then one payment is asked for, of exactly that amount at exactly that address, and polled for a day;
      otherwise neither log nor rows show anything new. */
  lemma PayOutcome(start: State, env: Env, es: seq<Event>, token: string, costUSD: uint64, rate: real, now: Time,
                   io: Io)
    requires Initial(start) && RealEnv(env) && CoveredRun(start, env, es) && io.dbOk
    ensures var s := Run(start, env, es);
            && (token in s.invoices ==> s.invoices[token].userID in s.users && token in s.backend)
            && var (after, reply) := Pay(s, env, token, costUSD, rate, now, io);
               PayDoes(env, s, token, costUSD, rate, now, io, after, reply)
  {
    ReachableInv(start, env, es);
    PayDoesIn(env, Run(start, env, es), token, costUSD, rate, now, io);
  }

  /** The cost of a call that leaves it to the file is the sum of the costs the review of that file shows. */
  lemma ReviewedCost(env: Env, file: File, items: seq<InvoiceFile.LineItem>)
    requires GoodFile(env, file) && |items| == |env.parse(file.payload).value|
    requires forall i | 0 <= i < |items| ::
               InvoiceFile.Amounts(env.parse(file.payload).value[i]).Ok? &&
               items[i] == InvoiceFile.ItemOf(env.parse(file.payload).value[i])
    ensures DollarCost(env, file, 0) == InvoiceFile.ItemCosts(items) % TWO_TO_THE_64
  {
    var records := env.parse(file.payload).value;
    InvoiceFile.TotalsAreItemSums(records, items);
    InvoiceFile.TotalsIff(records);
  }
}
