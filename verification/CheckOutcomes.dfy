/** When a payment is credited, by the payment checker or by an administrator, and what the credit leaves. */
module CheckOutcomes {
  import opened Wrappers
  import opened MachineInts
  import opened Database
  import opened Accounts
  import opened Ledger
  import opened LedgerInvariants
  import opened LedgerRuns
  import opened LedgerTheorems

  // ---------------------------------------------------------------- invoices that load

  /** The invoice loads if it has a row, and then it has a record. */
  predicate Loads(s: State, token: string) {
    if token in s.invoices
    then Load(s, token) == Some(s.invoices[token].(changes := [])) && s.invoices[token].token == token &&
        token in s.backend
    else Load(s, token).None? && token !in s.backend
  }

  /** In every state of the invariant the owner of a row exists, so that every row loads. */
  lemma RowsLoad(env: Env, s: State, token: string)
    requires Inv(env, s)
    ensures Loads(s, token)
  {
    if token in s.invoices {
      assert RowOk(env, s.keys, s.issued, token, s.invoices[token], s.backend[token]);
      assert s.keys[s.backend[token].general.publicKey] in s.users;
    }
  }

  // ---------------------------------------------------------------- a credit

  /** Payment k of an invoice has the given address and amount. */
  predicate PaysAt(row: Invoice, k: nat, address: string, amount: uint64) {
    k < |row.payments| && row.payments[k].address == address && row.payments[k].amount == amount
  }

  predicate HasPayment(row: Invoice, address: string, amount: uint64) {
    exists k | 0 <= k < |row.payments| :: PaysAt(row, k, address, amount)
  }

  /** Payment k of the invoice has got the transaction, and nothing else of its payments has changed. */
  predicate TxSet(before: seq<InvoicePayment>, after: seq<InvoicePayment>, k: nat, txID: string) {
    && k < |before| == |after|
    && after[k] == before[k].(txID := txID)
    && forall i | 0 <= i < |before| && i != k :: after[i] == before[i]
  }

  /** The invoice is Paid, in its row and at the end of its log, and nothing but the one payment has changed. */
  predicate CreditedAt(s: State, after: State, token: string, address: string, amount: uint64, txID: string, k: nat,
                       now: Time)
  {
    && token in s.invoices && token in s.backend && token in after.invoices && token in after.backend
    && PaysAt(s.invoices[token], k, address, amount)
    && (forall i | 0 <= i < k :: !PaysAt(s.invoices[token], i, address, amount))
    && TxSet(s.invoices[token].payments, after.invoices[token].payments, k, txID)
    && after.invoices[token] ==
         s.invoices[token].(payments := after.invoices[token].payments, status := Paid,
                            changes := after.invoices[token].changes)
    && after.invoices[token].changes ==
         s.invoices[token].changes +
         (if s.invoices[token].status.Paid? then [] else [InvoiceChange("", Paid, "", now)])
    && after.backend[token] ==
         s.backend[token].(payments := after.backend[token].payments, changes := after.backend[token].changes)
    && after.backend[token].changes ==
         s.backend[token].changes +
         (if s.invoices[token].status.Paid? then [] else [StreamChange("", Paid, None, now)])
    && after.invoices.Keys == s.invoices.Keys && after.backend.Keys == s.backend.Keys
    && (forall t | t in s.invoices && t != token :: after.invoices[t] == s.invoices[t])
    && (forall t | t in s.backend && t != token :: after.backend[t] == s.backend[t])
    && after.users == s.users && after.keys == s.keys && after.polled == s.polled
  }

  ghost predicate Credited(s: State, after: State, token: string, address: string, amount: uint64, txID: string,
                           now: Time)
  {
    exists k :: CreditedAt(s, after, token, address, amount, txID, k, now)
  }

  lemma MatchIff(row: Invoice, address: string, amount: uint64)
    ensures FirstMatch(row.payments, address, amount).Some? <==> HasPayment(row, address, amount)
    ensures FirstMatch(row.payments, address, amount).Some? ==>
              var k := FirstMatch(row.payments, address, amount).value;
              PaysAt(row, k, address, amount) && forall i | 0 <= i < k :: !PaysAt(row, i, address, amount)
  {
    if FirstMatch(row.payments, address, amount).Some? {
      assert PaysAt(row, FirstMatch(row.payments, address, amount).value, address, amount);
    }
  }

  /** A credit through the invoice as it is: done if and only if the payment exists and the request succeeds. */
  lemma CreditOutcome(env: Env, s: State, token: string, address: string, amount: uint64, txID: string, now: Time,
                      io: Io)
    requires Inv(env, s) && io.dbOk && token in s.invoices
    ensures var (after, reply) := Credit(s, env, s.invoices[token].(changes := []), address, amount, txID, now, io);
            && (reply.Done? <==> HasPayment(s.invoices[token], address, amount) && io.rpcOk)
            && (if reply.Done? then Credited(s, after, token, address, amount, txID, now) && after.poller == s.poller
                else after == s && reply == Refused(if HasPayment(s.invoices[token], address, amount) then Internal
                                                    else PaymentNotFound))
  {
    RowsLoad(env, s, token);
    var inv := s.invoices[token].(changes := []);
    CreditEffect(s, env, inv, address, amount, txID, now, io);
    MatchIff(s.invoices[token], address, amount);
    var (after, reply) := Credit(s, env, inv, address, amount, txID, now, io);
    if reply.Done? {
      var k := FirstMatch(s.invoices[token].payments, address, amount).value;
      CreditShown(env, s, after, token, address, amount, txID, k, now);
    }
  }

  lemma CreditShown(env: Env, s: State, after: State, token: string, address: string, amount: uint64, txID: string,
                    k: nat, now: Time)
    requires token in s.invoices && token in s.backend && PaysAt(s.invoices[token], k, address, amount)
    requires forall i | 0 <= i < k :: !PaysAt(s.invoices[token], i, address, amount)
    requires after == s.(invoices := s.invoices[token := CreditedRow(s.invoices[token], k, txID, now)],
                         backend := s.backend[token :=
                             CreditedRecord(env, s.backend[token], s.invoices[token], k, txID, now)])
    ensures Credited(s, after, token, address, amount, txID, now)
  {
    assert s.backend[token].changes + [] == s.backend[token].changes;
    assert s.invoices[token].changes + [] == s.invoices[token].changes;
    assert CreditedAt(s, after, token, address, amount, txID, k, now);
  }

  /** In every run, an administrator's update is done if and only if the invoice exists, one of its payments has the
      address and the amount, and the request succeeds; then the first such payment has the transaction. */
  lemma UpdateOutcome(start: State, env: Env, es: seq<Event>, token: string, address: string, amount: uint64,
                      txID: string, now: Time, io: Io)
    requires Initial(start) && RealEnv(env) && CoveredRun(start, env, es) && io.dbOk
    ensures var s := Run(start, env, es);
            var (after, reply) := UpdatePayment(s, env, token, address, amount, txID, now, io);
            && (reply.Done? <==> token in s.invoices && HasPayment(s.invoices[token], address, amount) && io.rpcOk)
            && (if reply.Done? then Credited(s, after, token, address, amount, txID, now) && after.poller == s.poller
                else after == s)
  {
    ReachableInv(start, env, es);
    var s := Run(start, env, es);
    RowsLoad(env, s, token);
    if token in s.invoices {
      CreditOutcome(env, s, token, address, amount, txID, now, io);
    }
  }

  // ---------------------------------------------------------------- a check

  /** The block explorers found a transaction. */
  predicate Met(lookup: Lookup) {
    lookup.Found? && lookup.txID != ""
  }

  /** The entry's invoice waits for its payment at this time. */
  predicate Waits(s: State, entry: PolledPayment, now: Time) {
    entry.token in s.invoices && !s.invoices[entry.token].status.Paid? && now <= entry.pollExpiry
  }

  predicate Creditable(s: State, entry: PolledPayment, lookup: Lookup, now: Time, io: Io) {
    Waits(s, entry, now) && Met(lookup) && HasPayment(s.invoices[entry.token], entry.address, entry.amount) && io.rpcOk
  }

  function CheckReply(s: State, entry: PolledPayment, lookup: Lookup, now: Time, io: Io): Reply {
    if Creditable(s, entry, lookup, now, io) then Done
    else if Waits(s, entry, now) && Met(lookup) then
      Refused(if HasPayment(s.invoices[entry.token], entry.address, entry.amount) then Internal else PaymentNotFound)
    else Skipped
  }

  /** What the check puts into the queue of keys to remove. */
  function NewlyQueued(s: State, key: string, entry: PolledPayment, lookup: Lookup, now: Time, io: Io): seq<string> {
    if entry.token !in s.invoices then []
    else if s.invoices[entry.token].status.Paid? then [key]
    else if now > entry.pollExpiry then [entry.token]
    else if Creditable(s, entry, lookup, now, io) then [key]
    else []
  }

  ghost predicate CheckDoes(s: State, key: string, lookup: Lookup, now: Time, io: Io, after: State, reply: Reply)
    requires s.poller.Checking? && key in s.poller.snapshot
  {
    var entry := s.poller.snapshot[key];
    && entry.address == key
    && reply == CheckReply(s, entry, lookup, now, io)
    && after.poller ==
         Checking(s.poller.snapshot - {key}, s.poller.toRemove + NewlyQueued(s, key, entry, lookup, now, io))
    && if Creditable(s, entry, lookup, now, io)
       then Credited(s, after, entry.token, key, entry.amount, lookup.txID, now)
       else after == s.(poller := after.poller)
  }

  lemma CheckDoesIn(env: Env, s: State, key: string, lookup: Lookup, now: Time, io: Io)
    requires Inv(env, s) && io.dbOk && s.poller.Checking? && key in s.poller.snapshot
    ensures var (after, reply) := CheckEntry(s, env, key, lookup, now, io);
            CheckDoes(s, key, lookup, now, io, after, reply)
  {
    var entry := s.poller.snapshot[key];
    EntryAddress(env, s, key);
    RowsLoad(env, s, entry.token);
    if Waits(s, entry, now) && Met(lookup) {
      var skip := s.(poller := Checking(s.poller.snapshot - {key}, s.poller.toRemove));
      SkipStep(env, s, key);
      CreditOutcome(env, skip, entry.token, entry.address, entry.amount, lookup.txID, now, io);
      FoundDoes(env, s, skip, key, entry, lookup, now, io);
      FoundCase(s, env, key, lookup, now, io);
    } else {
      OtherDoes(s, env, key, lookup, now, io);
    }
  }

  lemma EntryAddress(env: Env, s: State, key: string)
    requires Inv(env, s) && s.poller.Checking? && key in s.poller.snapshot
    ensures s.poller.snapshot[key].address == key
  {
  }

  lemma FoundCase(s: State, env: Env, key: string, lookup: Lookup, now: Time, io: Io)
    requires s.poller.Checking? && key in s.poller.snapshot && Waits(s, s.poller.snapshot[key], now) && Met(lookup)
    requires var token := s.poller.snapshot[key].token; Load(s, token) == Some(s.invoices[token].(changes := []))
    ensures var entry := s.poller.snapshot[key];
            var skip := s.(poller := Checking(s.poller.snapshot - {key}, s.poller.toRemove));
            CheckEntry(s, env, key, lookup, now, io) ==
            CreditAndQueue(skip, env, s.invoices[entry.token].(changes := []), key, entry, lookup.txID, now, io)
  {
  }

  /** The branches in which nothing is credited. */
  lemma OtherDoes(s: State, env: Env, key: string, lookup: Lookup, now: Time, io: Io)
    requires s.poller.Checking? && key in s.poller.snapshot && s.poller.snapshot[key].address == key
    requires !(Waits(s, s.poller.snapshot[key], now) && Met(lookup))
    requires var token := s.poller.snapshot[key].token;
             if token in s.invoices
             then Load(s, token) == Some(s.invoices[token].(changes := [])) && s.invoices[token].token == token
             else Load(s, token).None?
    ensures var (after, reply) := CheckEntry(s, env, key, lookup, now, io);
            CheckDoes(s, key, lookup, now, io, after, reply)
  {
    assert s.poller.toRemove + [] == s.poller.toRemove;
  }

  /** The branch in which a transaction was found. */
  lemma FoundDoes(env: Env, s: State, skip: State, key: string, entry: PolledPayment, lookup: Lookup, now: Time, io: Io)
    requires s.poller.Checking? && key in s.poller.snapshot && entry == s.poller.snapshot[key] && entry.address == key
    requires skip == s.(poller := Checking(s.poller.snapshot - {key}, s.poller.toRemove))
    requires Waits(s, entry, now) && Met(lookup)
    requires var (credited, reply) := Credit(skip, env, skip.invoices[entry.token].(changes := []), entry.address,
                                             entry.amount, lookup.txID, now, io);
             && (reply.Done? <==> HasPayment(s.invoices[entry.token], entry.address, entry.amount) && io.rpcOk)
             && (if reply.Done?
                 then Credited(skip, credited, entry.token, entry.address, entry.amount, lookup.txID, now) &&
                      credited.poller == skip.poller
                 else credited == skip &&
                      reply == Refused(if HasPayment(s.invoices[entry.token], entry.address, entry.amount) then Internal
                                       else PaymentNotFound))
    ensures var (after, reply) := CreditAndQueue(skip, env, s.invoices[entry.token].(changes := []), key, entry,
                                                 lookup.txID, now, io);
            CheckDoes(s, key, lookup, now, io, after, reply)
  {
    var (credited, reply) := Credit(skip, env, skip.invoices[entry.token].(changes := []), entry.address,
                                    entry.amount, lookup.txID, now, io);
    assert s.poller.toRemove + [] == s.poller.toRemove;
    if reply.Done? {
      var k :| CreditedAt(skip, credited, entry.token, entry.address, entry.amount, lookup.txID, k, now);
      var after := credited.(poller := Checking(skip.poller.snapshot, skip.poller.toRemove + [key]));
      assert CreditedAt(s, after, entry.token, key, entry.amount, lookup.txID, k, now);
    }
  }

  /** In every run, whatever entry of whatever copy is checked: the payment is credited if and only if the invoice
      waits for it, a transaction was found, the row has a payment with the entry's address and amount, and the
      request succeeds. Then the first such payment has the transaction, the invoice is Paid, and the key is queued;
      it is also queued if the invoice was Paid before, and in no other case. */
  lemma CheckOutcome(start: State, env: Env, es: seq<Event>, key: string, lookup: Lookup, now: Time, io: Io)
    requires Initial(start) && RealEnv(env) && CoveredRun(start, env, es) && io.dbOk
    requires Run(start, env, es).poller.Checking? && key in Run(start, env, es).poller.snapshot
    ensures var s := Run(start, env, es);
            var (after, reply) := CheckEntry(s, env, key, lookup, now, io);
            CheckDoes(s, key, lookup, now, io, after, reply)
  {
    ReachableInv(start, env, es);
    CheckDoesIn(env, Run(start, env, es), key, lookup, now, io);
  }
}
