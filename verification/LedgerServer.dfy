/** The web server over stored state: an object whose handlers update its tables, the remote records and
    the poll map in place. Every method is proved against the corresponding function of Ledger. */
module LedgerServer {
  import opened Wrappers
  import opened MachineInts
  import opened Database
  import opened Accounts
  import opened Ledger
  import InvoiceFile
  import PaymentStream

  class Server {
    const env: Env
    var users: Users
    var keys: KeyTable
    var invoices: map<string, Invoice>
    var backend: map<string, Record>
    var polled: map<string, PolledPayment>
    var poller: Poller
    ghost var issued: seq<Issue>

    ghost predicate Valid() {
      JsonStreams(env)
    }

    ghost function Contents(): State
      reads this
    {
      State(users, keys, invoices, backend, polled, poller, issued)
    }

    constructor (env: Env, users: Users, keys: KeyTable)
      requires JsonStreams(env)
      ensures Valid() && this.env == env
      ensures Contents() == State(users, keys, map[], map[], map[], Sleeping, [])
    {
      this.env, this.users, this.keys := env, users, keys;
      invoices, backend, polled, poller, issued := map[], map[], map[], Sleeping, [];
    }

    // -------------------------------------------------------------- the database

    method GetInvoiceByToken(token: string) returns (r: Option<Invoice>)
      ensures r == Load(Contents(), token)
    {
      if token !in invoices || invoices[token].userID !in users {
        return None;
      }
      r := Some(invoices[token].(token := token, changes := []));
    }

    /** GetInvoices with a user, a month and a year, of which the caller only uses whether anything came back. */
    method HasInvoices(uid: uint64, month: uint16, year: uint16) returns (found: bool)
      ensures found <==> exists t | t in invoices :: Matches(users, invoices[t], uid, month, year)
    {
      var rest := invoices.Keys;
      while rest != {}
        invariant rest <= invoices.Keys
        invariant forall t | t in invoices && t !in rest :: !Matches(users, invoices[t], uid, month, year)
        decreases |rest|
      {
        var t :| t in rest;
        if Matches(users, invoices[t], uid, month, year) {
          return true;
        }
        rest := rest - {t};
      }
      return false;
    }

    static lemma StripNext(changes: seq<InvoiceChange>, i: nat)
      requires i < |changes|
      ensures StripReasons(changes[..i + 1]) == StripReasons(changes[..i]) + [changes[i].(reason := "")]
    {
    }

    method SaveInvoice(inv: Invoice)
      modifies this`invoices
      ensures invoices == UpdateInvoice(old(invoices), inv)
    {
      var table := if inv.token in invoices then invoices[inv.token].changes else [];
      ghost var stored := table;
      var status := inv.status;
      assert stored + StripReasons(inv.changes[..0]) == stored;
      for i := 0 to |inv.changes|
        invariant invoices == old(invoices) && table == stored + StripReasons(inv.changes[..i])
        invariant status == if i == 0 then inv.status else inv.changes[i - 1].newStatus
      {
        StripNext(inv.changes, i);
        table := table + [inv.changes[i].(reason := "")];
        status := inv.changes[i].newStatus;
      }
      assert inv.changes[..|inv.changes|] == inv.changes;
      invoices := invoices[inv.token := inv.(changes := table, status := status)];
    }

    // -------------------------------------------------------------- the poll map

    method AddInvoicePaymentForPolling(token: string, p: InvoicePayment)
      modifies this`polled
      ensures polled == old(polled)[p.address := PolledEntry(token, p)]
    {
      polled := polled[p.address := PolledPayment(token, p.address, p.amount, p.txNotBefore, p.pollExpiry)];
    }

    method RemoveInvoicePaymentsFromPolling(addresses: seq<string>)
      modifies this`polled
      ensures polled == old(polled) - (set a | a in addresses)
    {
      for i := 0 to |addresses|
        invariant polled == old(polled) - (set a | a in addresses[..i])
      {
        ghost var before, after := addresses[..i], addresses[..i + 1];
        assert (set a | a in after) == (set a | a in before) + {addresses[i]};
        polled := polled - {addresses[i]};
      }
      assert addresses[..|addresses|] == addresses;
    }

    method RemoveInvoicePaymentFromPolling(address: string)
      modifies this`polled
      ensures polled == old(polled) - {address}
    {
      var one := [address];
      RemoveInvoicePaymentsFromPolling(one);
      assert (set a | a in one) == {address};
    }

    method CreatePolledPaymentsCopy()
      modifies this`poller
      ensures Contents() == TakeSnapshot(old(Contents()))
    {
      var copy: map<string, PolledPayment> := map[];
      var rest := polled.Keys;
      while rest != {}
        invariant rest <= polled.Keys
        invariant copy == polled - rest
        decreases |rest|
      {
        var key :| key in rest;
        copy := copy[key := polled[key]];
        rest := rest - {key};
      }
      assert polled - {} == polled;
      poller := Checking(copy, []);
    }

    method RemoveCheckedPayments()
      requires poller.Checking?
      modifies this`polled, this`poller
      ensures Contents() == RemoveChecked(old(Contents()))
    {
      RemoveInvoicePaymentsFromPolling(poller.toRemove);
      poller := Sleeping;
    }

    // -------------------------------------------------------------- the metadata streams

    /** updateMDPayments: overwrites the payments stream and, for an existing payment of an invoice that is not
        Paid, appends the change to Paid. */
    method UpdateMDPayments(inv: Invoice, updatingInvoicePayment: bool, now: Time, rpcOk: bool) returns (ok: bool)
      requires Valid()
      modifies this`backend
      ensures ok <==> rpcOk && inv.token in old(backend)
      ensures !ok ==> backend == old(backend)
      ensures ok ==>
                var rec := old(backend)[inv.token];
                backend == old(backend)[inv.token := rec.(
                    payments := env.encode(inv.payments),
                    changes := if updatingInvoicePayment && !inv.status.Paid?
                               then rec.changes + [StreamChange("", Paid, None, now)]
                               else rec.changes)]
    {
      var mdPayments := PaymentStream.PrintPayments(inv.payments);
      if !rpcOk || inv.token !in backend {
        return false;
      }
      var rec := backend[inv.token].(payments := mdPayments);
      if updatingInvoicePayment && !inv.status.Paid? {
        rec := rec.(changes := rec.changes + [StreamChange("", Paid, None, now)]);
      }
      backend := backend[inv.token := rec];
      return true;
    }

    /** convertRecordToDatabaseInvoice: fills the invoice from the three streams in turn. */
    method ConvertRecord(token: string, rec: Record, file: Option<File>) returns (r: Option<Invoice>)
      requires Valid()
      ensures r == Replay(env, keys, token, rec, file)
    {
      var inv := Invoice(token, 0, "", rec.general.month, rec.general.year, rec.general.timestamp, Invalid, "", file,
                         rec.general.publicKey, rec.general.signature, rec.serverSignature, "", rec.version, [], []);
      if rec.general.publicKey !in keys {
        return None;
      }
      inv := inv.(userID := keys[rec.general.publicKey]);
      ghost var general := inv;
      for i := 0 to |rec.changes|
        invariant inv == general.(status := LastStatus(rec.changes[..i]),
                  statusChangeReason := LastReason(rec.changes[..i]),
                                  changes := ConvertChanges(rec.changes[..i]))
      {
        var c := rec.changes[i];
        assert ConvertChanges(rec.changes[..i + 1]) == ConvertChanges(rec.changes[..i]) + [ConvertChange(c)];
        inv := inv.(changes := inv.changes + [ConvertChange(c)],
                    status := c.newStatus,
                    statusChangeReason := if c.reason.Some? then c.reason.value else "");
      }
      assert rec.changes[..|rec.changes|] == rec.changes;
      var payments := PaymentStream.DecodePayments(token, rec.payments);
      if payments.None? {
        return None;
      }
      return Some(inv.(payments := payments.value));
    }

    // -------------------------------------------------------------- submit, edit, status

    method HandleSubmitInvoice(uid: uint64, req: InvoiceRequest, month: uint16, year: uint16, token: string,
                               serverSignature: string, now: Time, io: Io) returns (reply: Reply)
      requires Valid()
      modifies this`backend, this`invoices
      ensures (Contents(), reply) ==
              Submit(old(Contents()), env, uid, KeyOf(old(users), uid), req, month, year, token, serverSignature, now,
                  io)
    {
      var valid := ValidateInvoice(env, KeyOf(users, uid), req);
      if valid.Err? {
        return Refused(valid.error);
      }
      var duplicate := HasInvoices(uid, month, year);
      if duplicate {
        return Refused(DuplicateInvoice);
      }
      if !io.rpcOk {
        return Refused(Internal);
      }
      var rec := Record(serverSignature, "1", req.file, General(month, year, now, req.publicKey, req.signature), [],
          "");
      rec := rec.(changes := rec.changes + [StreamChange("", NotReviewed, None, now)]);
      backend := backend[token := rec];
      assert rec == NewRecord(req, month, year, serverSignature, now);
      var row := ConvertRecord(token, rec, Some(File(req.file.payload, "", req.file.digest)));
      if row.None? || !io.dbOk {
        return Refused(Internal);
      }
      invoices := invoices[token := row.value];
      return Done;
    }

    method HandleEditInvoice(uid: uint64, token: string, req: InvoiceRequest, version: string, now: Time, io: Io)
      returns (reply: Reply)
      modifies this`backend, this`invoices
      ensures (Contents(), reply) == Edit(old(Contents()), env, KeyOf(old(users), uid), token, req, version, now, io)
    {
      var loaded := GetInvoiceByToken(token);
      if loaded.None? {
        return Refused(Internal);
      }
      var dbInvoice := loaded.value;
      var valid := ValidateInvoice(env, KeyOf(users, uid), req);
      if valid.Err? {
        return Refused(valid.error);
      }
      if !io.rpcOk || token !in backend {
        return Refused(Internal);
      }
      var general := General(dbInvoice.month, dbInvoice.year, now, req.publicKey, req.signature);
      var rec := backend[token];
      backend := backend[token := rec.(version := version, file := req.file, general := general,
                                       changes := rec.changes + [StreamChange("", UnreviewedChanges, None, now)])];
      dbInvoice := dbInvoice.(changes := dbInvoice.changes + [InvoiceChange("", UnreviewedChanges, "", now)]);
      assert dbInvoice.changes == [InvoiceChange("", UnreviewedChanges, "", now)];
      dbInvoice := dbInvoice.(version := version);
      dbInvoice := dbInvoice.(status := UnreviewedChanges);
      if !io.dbOk {
        return Refused(Internal);
      }
      SaveInvoice(dbInvoice);
      return Done;
    }

    method HandleSetInvoiceStatus(uid: uint64, token: string, publicKey: string, signatureValid: bool, status: Status,
                                  reason: Option<string>, now: Time, io: Io) returns (reply: Reply)
      modifies this`backend, this`invoices
      ensures (Contents(), reply) ==
              SetStatus(old(Contents()), KeyOf(old(users), uid), token, publicKey, signatureValid, status, reason, now,
                  io)
    {
      var activeKey := KeyOf(users, uid);
      if activeKey.None? {
        return Refused(NoPublicKey);
      }
      if activeKey.value != publicKey {
        return Refused(InvalidSigningKey);
      }
      if !signatureValid {
        return Refused(InvalidRequestSignature);
      }
      var loaded := GetInvoiceByToken(token);
      if loaded.None? {
        return Refused(InvoiceNotFound);
      }
      var dbInvoice := loaded.value;
      var valid := ValidateTransition(dbInvoice.status, status, reason);
      if valid.Err? {
        return Refused(valid.error);
      }
      if !io.rpcOk || token !in backend {
        return Refused(Internal);
      }
      backend := backend[token := backend[token].(changes := backend[token].changes +
          [StreamChange(activeKey.value, status, reason, now)])];
      var change := InvoiceChange(activeKey.value, status, "", now);
      dbInvoice := dbInvoice.(status := status);
      if reason.Some? {
        change := change.(reason := reason.value);
        dbInvoice := dbInvoice.(statusChangeReason := reason.value);
      } else {
        dbInvoice := dbInvoice.(statusChangeReason := "");
      }
      dbInvoice := dbInvoice.(changes := dbInvoice.changes + [change]);
      assert dbInvoice.changes == [change];
      if !io.dbOk {
        return Refused(Internal);
      }
      SaveInvoice(dbInvoice);
      return Done;
    }

    // -------------------------------------------------------------- payments

    /** UpdateInvoicePayment of the database: one payment row is replaced. */
    method SavePayment(token: string, i: nat, p: InvoicePayment)
      requires token in invoices && i < |invoices[token].payments|
      modifies this`invoices
      ensures invoices == old(invoices)[token :=
                old(invoices)[token].(payments := old(invoices)[token].payments[i := p])]
    {
      var row := invoices[token];
      invoices := invoices[token := row.(payments := row.payments[i := p])];
    }

    /** refreshExistingInvoicePayments: updates a copy of each unpaid payment, its row and the poll map. */
    method RefreshExistingInvoicePayments(inv: Invoice, now: Time)
      requires inv.token in invoices && invoices[inv.token].payments == inv.payments
      modifies this`invoices, this`polled
      ensures Contents() == Refresh(old(Contents()), inv, now)
    {
      var n := |inv.payments|;
      ghost var row := invoices[inv.token];
      RefreshBounds(inv.payments, now);
      assert invoices == invoices[inv.token := row.(payments := inv.payments)];
      for i := 0 to n
        invariant inv.token in invoices
        invariant invoices == old(invoices)[inv.token := row.(payments := PartlyRefreshed(inv.payments, now, i))]
        invariant polled == PollUnpaid(old(polled), inv.token, RefreshedAll(inv.payments, now)[..i])
      {
        var p := inv.payments[i];
        RefreshAdvances(inv.payments, now, i);
        PollAdvances(old(polled), inv.token, inv.payments, now, i);
        if p.txID == "" {
          p := p.(pollExpiry := now + POLL_EXPIRY_DURATION);
          SavePayment(inv.token, i, p);
          AddInvoicePaymentForPolling(inv.token, p);
        }
      }
    }

    /** The payment rows when the refresh has dealt with the first i of them. */
    static function PartlyRefreshed(ps: seq<InvoicePayment>, now: Time, i: nat): (r: seq<InvoicePayment>)
      ensures |r| == |ps|
    {
      seq(|ps|, j requires 0 <= j < |ps| => if j < i then Refreshed(ps[j], now) else ps[j])
    }

    static lemma RefreshBounds(ps: seq<InvoicePayment>, now: Time)
      ensures PartlyRefreshed(ps, now, 0) == ps
      ensures PartlyRefreshed(ps, now, |ps|) == RefreshedAll(ps, now)
      ensures RefreshedAll(ps, now)[..|ps|] == RefreshedAll(ps, now)
    {
    }

    static lemma RefreshAdvances(ps: seq<InvoicePayment>, now: Time, i: nat)
      requires i < |ps|
      ensures PartlyRefreshed(ps, now, i + 1) == PartlyRefreshed(ps, now, i)[i := Refreshed(ps[i], now)]
      ensures Refreshed(ps[i], now) == ps[i] ==> PartlyRefreshed(ps, now, i + 1) == PartlyRefreshed(ps, now, i)
    {
    }

    static lemma PollAdvances(polled: map<string, PolledPayment>, token: string, ps: seq<InvoicePayment>, now: Time,
                              i: nat)
      requires i < |ps|
      ensures var all, p := RefreshedAll(ps, now), Refreshed(ps[i], now);
              PollUnpaid(polled, token, all[..i + 1]) ==
              if p.txID != "" then PollUnpaid(polled, token, all[..i])
                  else PollUnpaid(polled, token, all[..i])[p.address := PolledEntry(token, p)]
    {
      var all := RefreshedAll(ps, now);
      assert all[..i + 1][..i] == all[..i];
    }

    /** derivePaymentInfo: an address at the owner's current index, which is then counted up; if that cannot be
        stored, there is no address. */
    method DerivePaymentInfo(uid: uint64, io: Io) returns (address: Option<string>)
      requires uid in users
      modifies this`users
      ensures address == if !io.indexOk then None
                         else env.derive(old(users)[uid].extendedPublicKey,
                             old(users)[uid].paymentAddressIndex % TWO_TO_THE_32)
      ensures users == if address.Some? then SpendIndex(old(users), uid) else old(users)
    {
      var user := users[uid];
      address := env.derive(user.extendedPublicKey, user.paymentAddressIndex % TWO_TO_THE_32);
      if address.None? {
        return;
      }
      if !io.indexOk {
        return None;
      }
      user := user.(paymentAddressIndex := (user.paymentAddressIndex + 1) % TWO_TO_THE_64);
      users := users[uid := user];
    }

    /** The cost of a payment request; a total is derived from the invoice file. */
    method DeriveCost(file: File, costUSD: uint64) returns (cost: Option<uint64>)
      ensures cost == CostOf(env, file, costUSD)
    {
      if costUSD != 0 {
        return Some(costUSD);
      }
      var records := env.parse(file.payload);
      if records.None? {
        return None;
      }
      var totals := InvoiceFile.DeriveTotalCost(records.value);
      return if totals.Ok? then Some(totals.value.costUSD) else None;
    }

    /** The scan for an existing total-cost payment. */
    method FindTotalCost(payments: seq<InvoicePayment>) returns (k: Option<nat>)
      ensures k == FirstTotalCost(payments)
    {
      for i := 0 to |payments|
        invariant forall j | 0 <= j < i :: !payments[j].isTotalCost
      {
        if payments[i].isTotalCost {
          return Some(i);
        }
      }
      return None;
    }

    /** The rows and the poll map at the end of createInvoicePayment. */
    method StorePaymentRow(dbInvoice: Invoice, k: Option<nat>, p: InvoicePayment, oldAddress: string)
      requires dbInvoice.token in invoices && (k.Some? ==> k.value < |invoices[dbInvoice.token].payments|)
      modifies this`invoices, this`polled
      ensures invoices == if k.Some?
                          then old(invoices)[dbInvoice.token := old(invoices)[dbInvoice.token].(
                                 payments := old(invoices)[dbInvoice.token].payments[k.value := p])]
                          else UpdateInvoice(old(invoices), dbInvoice)
      ensures polled == (if k.Some? then old(polled) - {oldAddress}
                else old(polled))[p.address := PolledEntry(dbInvoice.token, p)]
    {
      if k.Some? {
        SavePayment(dbInvoice.token, k.value, p);
      } else {
        SaveInvoice(dbInvoice);
      }
      if k.Some? {
        RemoveInvoicePaymentFromPolling(oldAddress);
      }
      AddInvoicePaymentForPolling(dbInvoice.token, p);
    }

    /** The second half of createInvoicePayment: the log, then the rows, then the poll map. */
    method StoreInvoicePayment(inv: Invoice, k: Option<nat>, p: InvoicePayment, ghost issue: Issue, io: Io, now: Time)
      returns (reply: Reply)
      requires Valid() && inv.token in invoices &&
                (k.Some? ==> k.value < |inv.payments| == |invoices[inv.token].payments|)
      modifies this`backend, this`invoices, this`polled, this`issued
      ensures (Contents(), reply) == StorePayment(old(Contents()), env, inv, k, p, issue, io)
    {
      var dbInvoice := inv;
      if k.Some? {
        dbInvoice := dbInvoice.(payments := dbInvoice.payments[k.value := p]);
      } else {
        dbInvoice := dbInvoice.(payments := dbInvoice.payments + [p]);
      }
      var ok := UpdateMDPayments(dbInvoice, false, now, io.rpcOk);
      if !ok {
        return Refused(Internal);
      }
      issued := issued + [issue];
      if !io.dbOk {
        return Refused(Internal);
      }
      StorePaymentRow(dbInvoice, k, p, if k.Some? then inv.payments[k.value].address else "");
      return Done;
    }

    method CreateInvoicePayment(inv: Invoice, isTotalCost: bool, cost: Option<uint64>, rate: real, now: Time, io: Io)
      returns (reply: Reply)
      requires Valid() && inv.token in invoices && inv.userID in users
      requires |inv.payments| == |invoices[inv.token].payments|
      modifies this
      ensures (Contents(), reply) == CreatePayment(old(Contents()), env, inv, isTotalCost, cost, rate, now, io)
    {
      if cost.None? {
        return Refused(Internal);
      }
      var k: Option<nat> := None;
      var p := InvoicePayment(inv.token, false, "", 0, 0, 0, "");
      if isTotalCost {
        k := FindTotalCost(inv.payments);
        if k.Some? {
          p := inv.payments[k.value];
        }
        p := p.(isTotalCost := true);
      }
      ghost var owner := users[inv.userID];
      var address := DerivePaymentInfo(inv.userID, io);
      if address.None? {
        return Refused(Internal);
      }
      var amount := env.atoms(cost.value, rate);
      if amount.None? {
        return Refused(Internal);
      }
      p := p.(address := address.value, txNotBefore := now, amount := amount.value,
          pollExpiry := now + POLL_EXPIRY_DURATION);
      assert p == NewPayment(inv, k, isTotalCost, address.value, amount.value, now);
      ghost var issue := Issue(inv.userID, owner.extendedPublicKey, owner.paymentAddressIndex, inv.token, address.value,
          amount.value, now);
      reply := StoreInvoicePayment(inv, k, p, issue, io, now);
    }

    method HandlePayInvoice(token: string, costUSD: uint64, rate: real, now: Time, io: Io) returns (reply: Reply)
      requires Valid()
      modifies this
      ensures (Contents(), reply) == Pay(old(Contents()), env, token, costUSD, rate, now, io)
    {
      var loaded := GetInvoiceByToken(token);
      if loaded.None? {
        return Refused(InvoiceNotFound);
      }
      var dbInvoice := loaded.value;
      if dbInvoice.file.None? {
        if token !in backend {
          return Refused(Internal);
        }
        dbInvoice := dbInvoice.(file := Some(backend[token].file));
      }
      RefreshExistingInvoicePayments(dbInvoice, now);
      var cost := DeriveCost(dbInvoice.file.value, costUSD);
      reply := CreateInvoicePayment(dbInvoice, costUSD == 0, cost, rate, now, io);
    }

    /** updateInvoicePayment: the first payment with the address and the amount gets the transaction. */
    method UpdateInvoicePayment(inv: Invoice, address: string, amount: uint64, txID: string, now: Time, io: Io)
      returns (reply: Reply)
      requires Valid()
      modifies this`backend, this`invoices
      ensures (Contents(), reply) == Credit(old(Contents()), env, inv, address, amount, txID, now, io)
    {
      var dbInvoice := inv;
      var found := false;
      var i := 0;
      while i < |inv.payments| && !found
        invariant i <= |inv.payments|
        invariant !found ==> dbInvoice == inv && forall j | 0 <= j < i ::
                  !(inv.payments[j].address == address && inv.payments[j].amount == amount)
        invariant found ==> i < |inv.payments| && FirstMatch(inv.payments, address, amount) == Some(i) &&
                            dbInvoice == inv.(payments := inv.payments[i := inv.payments[i].(txID := txID)])
        decreases |inv.payments| - i, !found
      {
        if inv.payments[i].amount == amount && inv.payments[i].address == address {
          dbInvoice := dbInvoice.(payments := dbInvoice.payments[i := dbInvoice.payments[i].(txID := txID)]);
          found := true;
        } else {
          i := i + 1;
        }
      }
      if !found {
        return Refused(PaymentNotFound);
      }
      var ok := UpdateMDPayments(dbInvoice, true, now, io.rpcOk);
      if !ok {
        return Refused(Internal);
      }
      if !io.dbOk {
        return Refused(Internal);
      }
      if !dbInvoice.status.Paid? {
        dbInvoice := dbInvoice.(status := Paid, changes := dbInvoice.changes + [InvoiceChange("", Paid, "", now)]);
      }
      SaveInvoice(dbInvoice);
      return Done;
    }

    method HandleUpdateInvoicePayment(token: string, address: string, amount: uint64, txID: string, now: Time, io: Io)
      returns (reply: Reply)
      requires Valid()
      modifies this`backend, this`invoices
      ensures (Contents(), reply) == UpdatePayment(old(Contents()), env, token, address, amount, txID, now, io)
    {
      var loaded := GetInvoiceByToken(token);
      if loaded.None? {
        return Refused(InvoiceNotFound);
      }
      reply := UpdateInvoicePayment(loaded.value, address, amount, txID, now, io);
    }

    /** The body of the loop of checkForInvoicePayments, for one key of the copy. */
    method CheckInvoicePayment(key: string, lookup: Lookup, now: Time, io: Io) returns (reply: Reply)
      requires Valid() && poller.Checking? && key in poller.snapshot
      modifies this`backend, this`invoices, this`poller
      ensures (Contents(), reply) == CheckEntry(old(Contents()), env, key, lookup, now, io)
    {
      var entry := poller.snapshot[key];
      poller := Checking(poller.snapshot - {key}, poller.toRemove);
      var loaded := GetInvoiceByToken(entry.token);
      if loaded.None? {
        return Skipped;
      }
      if loaded.value.status.Paid? {
        poller := Checking(poller.snapshot, poller.toRemove + [key]);
        return Skipped;
      }
      if now > entry.pollExpiry {
        poller := Checking(poller.snapshot, poller.toRemove + [loaded.value.token]);
        return Skipped;
      }
      if lookup.Found? && lookup.txID != "" {
        reply := UpdateInvoicePayment(loaded.value, entry.address, entry.amount, lookup.txID, now, io);
        if reply.Done? {
          poller := Checking(poller.snapshot, poller.toRemove + [key]);
        }
        return;
      }
      return Skipped;
    }

    // -------------------------------------------------------------- restart

    /** The tables are dropped and filled again record by record; the first failure ends the loading. */
    method InitializeInventory(order: seq<string>)
      requires Valid() && forall t | t in order :: t in backend
      modifies this`invoices
      ensures invoices == LoadInventory(env, keys, backend, order)
    {
      invoices := map[];
      var failed := false;
      for i := 0 to |order|
        invariant invoices == LoadInventory(env, keys, backend, order[..i])
        invariant |invoices| <= i
        invariant failed <==> |invoices| < i
      {
        LoadedNext(env, keys, backend, order, i);
        if !failed {
          var row := ConvertRecord(order[i], backend[order[i]], None);
          if row.None? {
            failed := true;
          } else {
            LoadedSize(invoices, order[i], row.value);
            failed := order[i] in invoices;
            invoices := invoices[order[i] := row.value];
          }
        }
      }
      assert order[..|order|] == order;
    }

    static lemma LoadedNext(env: Env, keys: KeyTable, backend: map<string, Record>, order: seq<string>, i: nat)
      requires i < |order| && forall t | t in order :: t in backend
      ensures var rows := LoadInventory(env, keys, backend, order[..i]);
              var row := Replay(env, keys, order[i], backend[order[i]], None);
              LoadInventory(env, keys, backend, order[..i + 1]) ==
                if row.Some? && |rows| == i then rows[order[i] := row.value] else rows
    {
      assert order[..i + 1][..i] == order[..i];
    }

    static lemma LoadedSize(m: map<string, Invoice>, t: string, row: Invoice)
      ensures |m[t := row]| == if t in m then |m| else |m| + 1
    {
      if t in m {
        SameSize(m, t, row);
      } else {
        GrownSize(m, t, row);
      }
    }

    static lemma GrownSize(m: map<string, Invoice>, t: string, row: Invoice)
      requires t !in m
      ensures |m[t := row]| == |m| + 1
    {
      assert m[t := row].Keys == m.Keys + {t};
    }

    static lemma SameSize(m: map<string, Invoice>, t: string, row: Invoice)
      requires t in m
      ensures |m[t := row]| == |m|
    {
      assert m[t := row].Keys == m.Keys;
    }

    /** addInvoicePaymentsForPolling over the approved invoices. */
    method AddInvoicePaymentsForPolling(order: seq<string>, now: Time)
      modifies this`invoices, this`polled
      ensures Contents() == PollApproved(old(Contents()), order, now)
    {
      for i := 0 to |order|
        invariant Contents() == PollApproved(old(Contents()), order[..i], now)
      {
        assert order[..i + 1][..i] == order[..i];
        var loaded := GetInvoiceByToken(order[i]);
        if loaded.Some? && loaded.value.status.Approved? {
          RefreshExistingInvoicePayments(loaded.value, now);
        }
      }
      assert order[..|order|] == order;
    }

    method RestartServer(order: seq<string>, now: Time)
      requires Valid() && forall t | t in order :: t in backend
      modifies this`invoices, this`polled, this`poller
      ensures Contents() == Restart(old(Contents()), env, order, now)
    {
      InitializeInventory(order);
      polled := map[];
      poller := Sleeping;
      AddInvoicePaymentsForPolling(order, now);
    }
  }
}
