/** A payment credited through a copy of its invoice that was loaded earlier, as when the block explorers have been
    asked in between. */
module StaleCopies {
  import opened Wrappers
  import opened MachineInts
  import opened Database
  import opened Accounts
  import opened Ledger
  import opened LedgerInvariants
  import opened LedgerRuns
  import PaymentStream

  /** Two payment lists that the stream does not tell apart. */
  predicate SameStream(ps: seq<InvoicePayment>, qs: seq<InvoicePayment>) {
    PaymentStream.Recovered("", ps) == PaymentStream.Recovered("", qs)
  }

  lemma SameStreamAt(ps: seq<InvoicePayment>, qs: seq<InvoicePayment>)
    ensures SameStream(ps, qs) <==>
              |ps| == |qs| && forall i | 0 <= i < |ps| ::
                ps[i].(invoiceToken := "", pollExpiry := 0) == qs[i].(invoiceToken := "", pollExpiry := 0)
  {
    var rs, ts := PaymentStream.Recovered("", ps), PaymentStream.Recovered("", qs);
    if |ps| == |qs| && forall i | 0 <= i < |ps| ::
         ps[i].(invoiceToken := "", pollExpiry := 0) == qs[i].(invoiceToken := "", pollExpiry := 0)
    {
      assert rs == ts;
    }
    if SameStream(ps, qs) {
      forall i | 0 <= i < |ps|
        ensures ps[i].(invoiceToken := "", pollExpiry := 0) == qs[i].(invoiceToken := "", pollExpiry := 0)
      {
        assert rs[i] == ts[i];
      }
    }
  }

  lemma EncodeIff(env: Env, ps: seq<InvoicePayment>, qs: seq<InvoicePayment>)
    requires GoodStreams(env)
    ensures env.encode(ps) == env.encode(qs) <==> SameStream(ps, qs)
  {
    assert env.decode("", env.encode(ps)) == Some(PaymentStream.Recovered("", ps));
    assert env.decode("", env.encode(qs)) == Some(PaymentStream.Recovered("", qs));
  }

  /** The payments with the transaction of the first match set. */
  function WithTx(ps: seq<InvoicePayment>, address: string, amount: uint64, txID: string): seq<InvoicePayment> {
    match FirstMatch(ps, address, amount)
    case None => ps
    case Some(k) => ps[k := ps[k].(txID := txID)]
  }

  lemma SameMatch(ps: seq<InvoicePayment>, qs: seq<InvoicePayment>, address: string, amount: uint64)
    requires |ps| == |qs| && forall i | 0 <= i < |ps| :: ps[i].address == qs[i].address && ps[i].amount == qs[i].amount
    ensures FirstMatch(ps, address, amount) == FirstMatch(qs, address, amount)
  {
    var j, k := FirstMatch(ps, address, amount), FirstMatch(qs, address, amount);
    if j.Some? && k.Some? {
      assert j.value <= k.value && k.value <= j.value;
    }
  }

  lemma WithTxKeeps(ps: seq<InvoicePayment>, address: string, amount: uint64, txID: string)
    ensures var qs := WithTx(ps, address, amount, txID);
            |qs| == |ps| && forall i | 0 <= i < |ps| :: qs[i].address == ps[i].address && qs[i].amount == ps[i].amount
  {
  }

  /** Which transaction is set on the match does not matter. */
  lemma AnyTx(ps: seq<InvoicePayment>, qs: seq<InvoicePayment>, address: string, amount: uint64, tx: string,
              tx': string)
    requires SameStream(WithTx(ps, address, amount, tx), WithTx(qs, address, amount, tx))
    ensures SameStream(WithTx(ps, address, amount, tx'), WithTx(qs, address, amount, tx'))
    ensures FirstMatch(ps, address, amount) == FirstMatch(qs, address, amount)
  {
    var rs, ts := WithTx(ps, address, amount, tx), WithTx(qs, address, amount, tx);
    SameStreamAt(rs, ts);
    WithTxKeeps(ps, address, amount, tx);
    WithTxKeeps(qs, address, amount, tx);
    forall i | 0 <= i < |ps| ensures ps[i].address == qs[i].address && ps[i].amount == qs[i].amount {
      assert rs[i].(invoiceToken := "", pollExpiry := 0) == ts[i].(invoiceToken := "", pollExpiry := 0);
    }
    SameMatch(ps, qs, address, amount);
    var rs', ts' := WithTx(ps, address, amount, tx'), WithTx(qs, address, amount, tx');
    forall i | 0 <= i < |rs'|
      ensures rs'[i].(invoiceToken := "", pollExpiry := 0) == ts'[i].(invoiceToken := "", pollExpiry := 0)
    {
      assert rs[i].(invoiceToken := "", pollExpiry := 0) == ts[i].(invoiceToken := "", pollExpiry := 0);
    }
    SameStreamAt(rs', ts');
  }

  /** The row has not moved away from the copy in anything a credit of this payment writes: the payments are the same
      in the stream, but for the transaction that is about to be set, and the copy is Paid if and only if the row is. */
  predicate Unmoved(copy: Invoice, row: Invoice, address: string, amount: uint64) {
    && SameStream(WithTx(copy.payments, address, amount, ""), WithTx(row.payments, address, amount, ""))
    && (copy.status.Paid? <==> row.status.Paid?)
  }

  /** The log after a credit. */
  lemma CreditLog(s: State, env: Env, inv: Invoice, address: string, amount: uint64, txID: string, now: Time, io: Io)
    requires inv.token in s.backend && io.rpcOk && io.dbOk
    ensures var (after, reply) := Credit(s, env, inv, address, amount, txID, now, io);
            var rec := s.backend[inv.token];
            if FirstMatch(inv.payments, address, amount).Some? then
              && reply.Done?
              && after.backend == s.backend[inv.token := rec.(
                     payments := env.encode(WithTx(inv.payments, address, amount, txID)),
                     changes := if inv.status.Paid? then rec.changes
                         else rec.changes + [StreamChange("", Paid, None, now)])]
            else after == s && reply.Refused?
  {
  }

  lemma SameLogIff(backend: map<string, Record>, token: string, r1: Record, r2: Record)
    requires token in backend
    ensures backend[token := r1] == backend[token := r2] <==> r1 == r2
  {
    assert backend[token := r1][token] == r1 && backend[token := r2][token] == r2;
  }

  /** A credit through a copy loaded earlier leaves the log that a credit through the invoice as it is now leaves if
      and only if payments and status have not moved since. */
  lemma StaleCreditIff(s: State, env: Env, copy: Invoice, address: string, amount: uint64, txID: string, now: Time,
                       io: Io)
    requires Inv(env, s) && GoodStreams(env) && copy.token in s.invoices && io.dbOk
    requires Credit(s, env, copy, address, amount, txID, now, io).1.Done?
    ensures var row := s.invoices[copy.token];
            var (after, _) := Credit(s, env, copy, address, amount, txID, now, io);
            var (direct, reply) := Credit(s, env, row.(changes := []), address, amount, txID, now, io);
            reply.Done? && after.backend == direct.backend <==> Unmoved(copy, row, address, amount)
  {
    var row, rec := s.invoices[copy.token], s.backend[copy.token];
    assert RowOk(env, s.keys, s.issued, copy.token, row, rec);
    CreditLog(s, env, copy, address, amount, txID, now, io);
    CreditLog(s, env, row.(changes := []), address, amount, txID, now, io);
    var ps, qs := WithTx(copy.payments, address, amount, txID), WithTx(row.payments, address, amount, txID);
    EncodeIff(env, ps, qs);
    SameLogIff(s.backend, copy.token, Credited(env, rec, copy, ps, now), Credited(env, rec, row, qs, now));
    if SameStream(ps, qs) {
      AnyTx(copy.payments, row.payments, address, amount, txID, "");
    }
    if Unmoved(copy, row, address, amount) {
      AnyTx(copy.payments, row.payments, address, amount, "", txID);
    }
  }

  function Credited(env: Env, rec: Record, inv: Invoice, ps: seq<InvoicePayment>, now: Time): Record {
    rec.(payments := env.encode(ps),
         changes := if inv.status.Paid? then rec.changes else rec.changes + [StreamChange("", Paid, None, now)])
  }

  /** And then row and record show what they would show. */
  lemma UnmovedCreditShows(s: State, env: Env, copy: Invoice, address: string, amount: uint64, txID: string, now: Time,
                           io: Io)
    requires Inv(env, s) && GoodStreams(env) && copy.token in s.invoices && io.dbOk
    requires Credit(s, env, copy, address, amount, txID, now, io).1.Done?
    requires SamePeriod(copy, s.invoices[copy.token]) && copy.changes == [] &&
              Unmoved(copy, s.invoices[copy.token], address, amount)
    ensures var (after, _) := Credit(s, env, copy, address, amount, txID, now, io);
            var (direct, _) := Credit(s, env, s.invoices[copy.token].(changes := []), address, amount, txID, now, io);
            after.backend == direct.backend && Views(after.invoices) == Views(direct.invoices)
  {
    StaleCreditIff(s, env, copy, address, amount, txID, now, io);
    var row := s.invoices[copy.token];
    assert RowOk(env, s.keys, s.issued, copy.token, row, s.backend[copy.token]);
    AnyTx(copy.payments, row.payments, address, amount, "", txID);
    var (after, _) := Credit(s, env, copy, address, amount, txID, now, io);
    var (direct, _) := Credit(s, env, row.(changes := []), address, amount, txID, now, io);
    CreditedViews(s, env, copy, row, address, amount, txID, now, io, after, direct);
  }

  lemma CreditedViews(s: State, env: Env, copy: Invoice, row: Invoice, address: string, amount: uint64, txID: string,
                      now: Time, io: Io, after: State, direct: State)
    requires copy.token in s.invoices && row == s.invoices[copy.token] && row.token == copy.token && copy.changes == []
    requires SamePeriod(copy, row) && (copy.status.Paid? <==> row.status.Paid?) && io.dbOk
    requires SameStream(WithTx(copy.payments, address, amount, txID), WithTx(row.payments, address, amount, txID))
    requires Credit(s, env, copy, address, amount, txID, now, io) == (after, Done)
    requires Credit(s, env, row.(changes := []), address, amount, txID, now, io) == (direct, Done)
    ensures Views(after.invoices) == Views(direct.invoices)
  {
    var ps, qs := WithTx(copy.payments, address, amount, txID), WithTx(row.payments, address, amount, txID);
    StampedStream(copy.token, ps, qs);
    assert after.invoices.Keys == direct.invoices.Keys == s.invoices.Keys;
    assert ViewOf(after.invoices[copy.token]) == ViewOf(direct.invoices[copy.token]);
    SameViews(after.invoices, direct.invoices);
  }

  lemma StampedStream(token: string, ps: seq<InvoicePayment>, qs: seq<InvoicePayment>)
    requires SameStream(ps, qs)
    ensures PaymentStream.Recovered(token, ps) == PaymentStream.Recovered(token, qs)
  {
    SameStreamAt(ps, qs);
    forall i | 0 <= i < |ps|
      ensures ps[i].(invoiceToken := token, pollExpiry := 0) == qs[i].(invoiceToken := token, pollExpiry := 0) {
      assert ps[i].(invoiceToken := "", pollExpiry := 0) == qs[i].(invoiceToken := "", pollExpiry := 0);
    }
  }
}
