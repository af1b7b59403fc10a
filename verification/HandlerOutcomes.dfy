/** When submissions, edits and status changes succeed, and what they leave in row and log. */
module HandlerOutcomes {
  import opened Wrappers
  import opened MachineInts
  import opened Database
  import opened Accounts
  import opened Ledger
  import opened LedgerInvariants
  import opened LedgerRuns
  import opened LedgerTheorems
  import opened CheckOutcomes
  import PaymentStream

  // ---------------------------------------------------------------- status changes

  /** The seven decisions an administrator can take. */
  predicate Decision(from: Status, to: Status) {
    || (from.NotReviewed? && to.Approved?)
    || (from.NotReviewed? && to.Rejected?)
    || (from.Rejected? && to.Approved?)
    || (from.Rejected? && to.UnreviewedChanges?)
    || (from.UnreviewedChanges? && to.Approved?)
    || (from.UnreviewedChanges? && to.Rejected?)
    || (from.Approved? && to.Paid?)
  }

  /** A logged change follows its predecessor by a decision, an edit or a payment. */
  predicate Succeeds(from: Status, c: StreamChange) {
    if c.adminPublicKey != "" then Decision(from, c.newStatus) && (c.newStatus.Rejected? ==> c.reason.Some?)
    else c.reason.None? && (c.newStatus.UnreviewedChanges? || (c.newStatus.Paid? && !from.Paid?))
  }

  lemma FollowsSucceeds(from: Status, c: StreamChange)
    ensures Follows(from, c) <==> Succeeds(from, c)
  {
  }

  /** In every run, every log starts with the submission, and an entry with a key is one of the seven decisions on
      the entry before it, an entry without one an edit or the payment of an invoice that was not Paid. */
  lemma LoggedDecisions(start: State, env: Env, es: seq<Event>, t: string, i: nat)
    requires Initial(start) && RealEnv(env) && CoveredRun(start, env, es) && t in Run(start, env, es).backend
    requires i < |Run(start, env, es).backend[t].changes|
    ensures var cs := Run(start, env, es).backend[t].changes;
            if i == 0 then cs[0].newStatus.NotReviewed? && cs[0].adminPublicKey == ""
            else Succeeds(cs[i - 1].newStatus, cs[i])
  {
    ChangeLog(start, env, es, t);
    var cs := Run(start, env, es).backend[t].changes;
    if i > 0 {
      assert Follows(cs[i - 1].newStatus, cs[i]);
      FollowsSucceeds(cs[i - 1].newStatus, cs[i]);
    }
  }

  /** Row and log end with this change, and nothing else has changed. */
  predicate ChangedTo(s: State, after: State, token: string, change: StreamChange) {
    && token in s.invoices && token in s.backend
    && after.invoices.Keys == s.invoices.Keys && after.backend.Keys == s.backend.Keys
    && after.invoices[token].status == change.newStatus
    && after.backend[token].changes == s.backend[token].changes + [change]
    && after.invoices[token].changes ==
         s.invoices[token].changes + [InvoiceChange(change.adminPublicKey, change.newStatus, "", change.timestamp)]
    && (forall t | t in s.invoices && t != token :: after.invoices[t] == s.invoices[t])
    && (forall t | t in s.backend && t != token :: after.backend[t] == s.backend[t])
    && after.users == s.users && after.keys == s.keys && after.polled == s.polled && after.poller == s.poller
  }

  /** A decision: row and log end with it, the row shows its reason, and nothing else of either has changed. */
  predicate Decided(s: State, after: State, token: string, change: StreamChange) {
    && ChangedTo(s, after, token, change)
    && after.invoices[token] ==
         s.invoices[token].(status := change.newStatus, changes := after.invoices[token].changes,
                            statusChangeReason := if change.reason.Some? then change.reason.value else "")
    && after.backend[token] == s.backend[token].(changes := after.backend[token].changes)
  }

  /** Why a status call is refused, in the order of the checks. */
  function StatusRefusal(s: State, uid: uint64, token: string, publicKey: string, signatureValid: bool, status: Status,
                         reason: Option<string>, io: Io): Option<LedgerError>
  {
    if KeyOf(s.users, uid).None? then Some(NoPublicKey)
    else if KeyOf(s.users, uid) != Some(publicKey) then Some(InvalidSigningKey)
    else if !signatureValid then Some(InvalidRequestSignature)
    else if token !in s.invoices then Some(InvoiceNotFound)
    else if !Decision(s.invoices[token].status, status) then Some(InvalidStatusTransition)
    else if status.Rejected? && reason.None? then Some(MissingReason)
    else if !io.rpcOk then Some(Internal)
    else None
  }

  ghost predicate StatusDoes(s: State, uid: uint64, token: string, publicKey: string, signatureValid: bool,
                             status: Status, reason: Option<string>, now: Time, io: Io, after: State, reply: Reply)
  {
    match StatusRefusal(s, uid, token, publicKey, signatureValid, status, reason, io)
    case Some(error) => reply == Refused(error) && after == s
    case None => reply.Done? && Decided(s, after, token, StreamChange(publicKey, status, reason, now))
  }

  lemma DecisionIff(from: Status, to: Status, reason: Option<string>)
    ensures ValidateTransition(from, to, reason) ==
            if !Decision(from, to) then Err(InvalidStatusTransition)
            else if to.Rejected? && reason.None? then Err(MissingReason)
            else Ok(())
  {
  }

  lemma StatusDoesIn(env: Env, s: State, uid: uint64, token: string, publicKey: string, signatureValid: bool,
                     status: Status, reason: Option<string>, now: Time, io: Io)
    requires Inv(env, s) && io.dbOk
    ensures var (after, reply) :=
              SetStatus(s, KeyOf(s.users, uid), token, publicKey, signatureValid, status, reason, now, io);
            StatusDoes(s, uid, token, publicKey, signatureValid, status, reason, now, io, after, reply)
  {
    RowsLoad(env, s, token);
    if token in s.invoices {
      DecisionIff(s.invoices[token].status, status, reason);
    }
    StatusDoesForm(s, uid, token, publicKey, signatureValid, status, reason, now, io);
  }

  lemma StatusDoesForm(s: State, uid: uint64, token: string, publicKey: string, signatureValid: bool, status: Status,
                       reason: Option<string>, now: Time, io: Io)
    requires Loads(s, token) && io.dbOk
    requires token in s.invoices ==>
               ValidateTransition(s.invoices[token].status, status, reason) ==
               if !Decision(s.invoices[token].status, status) then Err(InvalidStatusTransition)
               else if status.Rejected? && reason.None? then Err(MissingReason)
               else Ok(())
    ensures var (after, reply) :=
              SetStatus(s, KeyOf(s.users, uid), token, publicKey, signatureValid, status, reason, now, io);
            StatusDoes(s, uid, token, publicKey, signatureValid, status, reason, now, io, after, reply)
  {
    if StatusRefusal(s, uid, token, publicKey, signatureValid, status, reason, io).None? {
      StatusApplied(s, publicKey, token, status, reason, now, io);
    }
  }

  lemma StatusApplied(s: State, publicKey: string, token: string, status: Status, reason: Option<string>, now: Time,
                      io: Io)
    requires Loads(s, token) && token in s.invoices && io.rpcOk && io.dbOk
    requires ValidateTransition(s.invoices[token].status, status, reason).Ok?
    ensures var (after, reply) := SetStatus(s, Some(publicKey), token, publicKey, true, status, reason, now, io);
            reply.Done? && Decided(s, after, token, StreamChange(publicKey, status, reason, now))
  {
  }

  /** In every run a status call succeeds if and only if the caller signs with its active key, the invoice exists, the
      step from its status to the one asked for is one of the seven decisions, a rejection has a reason, and the
      request succeeds. Then row and log end with exactly the status asked for. */
  lemma StatusOutcome(start: State, env: Env, es: seq<Event>, uid: uint64, token: string, publicKey: string,
                      signatureValid: bool, status: Status, reason: Option<string>, now: Time, io: Io)
    requires Initial(start) && RealEnv(env) && CoveredRun(start, env, es) && io.dbOk
    ensures var s := Run(start, env, es);
            var (after, reply) :=
              SetStatus(s, KeyOf(s.users, uid), token, publicKey, signatureValid, status, reason, now, io);
            StatusDoes(s, uid, token, publicKey, signatureValid, status, reason, now, io, after, reply)
  {
    ReachableInv(start, env, es);
    StatusDoesIn(env, Run(start, env, es), uid, token, publicKey, signatureValid, status, reason, now, io);
  }

  // ---------------------------------------------------------------- requests

  /** Why a submission or an edit is refused for the request itself, in the order of the checks. */
  function RequestRefusal(env: Env, s: State, uid: uint64, req: InvoiceRequest): Option<LedgerError> {
    if KeyOf(s.users, uid).None? then Some(NoPublicKey)
    else if KeyOf(s.users, uid) != Some(req.publicKey) then Some(InvalidSigningKey)
    else if req.file.payload == "" then Some(InvalidInput)
    else if !req.signatureValid then Some(InvalidRequestSignature)
    else if env.parse(req.file.payload).None? then Some(MalformedInvoiceFile)
    else None
  }

  lemma RequestIff(env: Env, s: State, uid: uint64, req: InvoiceRequest)
    ensures ValidateInvoice(env, KeyOf(s.users, uid), req) ==
            match RequestRefusal(env, s, uid, req) case Some(error) => Err(error) case None => Ok(())
  {
  }

  // ---------------------------------------------------------------- submissions

  /** An invoice of this user for this month and year; zero stands for any month or any year. */
  predicate Duplicate(row: Invoice, uid: uint64, month: uint16, year: uint16) {
    row.userID == uid && (month == 0 || row.month == month) && (year == 0 || row.year == year)
  }

  ghost function SubmitRefusal(env: Env, s: State, uid: uint64, req: InvoiceRequest, month: uint16, year: uint16,
                               io: Io): Option<LedgerError>
  {
    if RequestRefusal(env, s, uid, req).Some? then RequestRefusal(env, s, uid, req)
    else if exists t | t in s.invoices :: Duplicate(s.invoices[t], uid, month, year) then Some(DuplicateInvoice)
    else if !io.rpcOk then Some(Internal)
    else None
  }

  /** The new invoice in row and log: the caller's, for the month and year and with the file of the request,
      unreviewed and without payments. */
  predicate Submitted(s: State, after: State, uid: uint64, req: InvoiceRequest, month: uint16, year: uint16,
                      token: string, serverSignature: string, now: Time)
  {
    && after.invoices.Keys == s.invoices.Keys + {token} && after.backend.Keys == s.backend.Keys + {token}
    && (forall t | t in s.invoices :: after.invoices[t] == s.invoices[t])
    && (forall t | t in s.backend :: after.backend[t] == s.backend[t])
    && SubmittedRow(after.invoices[token], uid, req, month, year, token, serverSignature, now)
    && SubmittedRecord(after.backend[token], req, month, year, serverSignature, now)
    && after.users == s.users && after.keys == s.keys && after.polled == s.polled && after.poller == s.poller
  }

  predicate SubmittedRow(row: Invoice, uid: uint64, req: InvoiceRequest, month: uint16, year: uint16, token: string,
                         serverSignature: string, now: Time)
  {
    && row.token == token && row.userID == uid && row.month == month && row.year == year && row.timestamp == now
    && row.status.NotReviewed? && row.statusChangeReason == "" && row.payments == []
    && row.changes == [InvoiceChange("", NotReviewed, "", now)]
    && row.file == Some(File(req.file.payload, "", req.file.digest))
    && row.publicKey == req.publicKey && row.userSignature == req.signature
    && row.serverSignature == serverSignature && row.version == "1"
  }

  predicate SubmittedRecord(rec: Record, req: InvoiceRequest, month: uint16, year: uint16, serverSignature: string,
                            now: Time)
  {
    && rec.file == req.file && rec.general == General(month, year, now, req.publicKey, req.signature)
    && rec.changes == [StreamChange("", NotReviewed, None, now)] && rec.payments == ""
    && rec.serverSignature == serverSignature && rec.version == "1"
  }

  ghost predicate SubmitDoes(env: Env, s: State, uid: uint64, req: InvoiceRequest, month: uint16, year: uint16,
                             token: string, serverSignature: string, now: Time, io: Io, after: State, reply: Reply)
  {
    match SubmitRefusal(env, s, uid, req, month, year, io)
    case Some(error) => reply == Refused(error) && after == s
    case None => reply.Done? && Submitted(s, after, uid, req, month, year, token, serverSignature, now)
  }

  lemma DuplicateIff(env: Env, s: State, uid: uint64, month: uint16, year: uint16)
    requires uid in s.users
    ensures (exists t | t in s.invoices :: Matches(s.users, s.invoices[t], uid, month, year)) <==>
            (exists t | t in s.invoices :: Duplicate(s.invoices[t], uid, month, year))
  {
    forall t | t in s.invoices
      ensures Matches(s.users, s.invoices[t], uid, month, year) <==> Duplicate(s.invoices[t], uid, month, year)
    {
    }
  }

  /** In every run a submission succeeds if and only if the caller signs with its active key, the file is there and
      readable, no invoice of the caller has the month and year, and the request succeeds. */
  lemma SubmitOutcome(start: State, env: Env, es: seq<Event>, uid: uint64, req: InvoiceRequest, month: uint16,
                      year: uint16, token: string, serverSignature: string, now: Time, io: Io)
    requires Initial(start) && RealEnv(env) && CoveredRun(start, env, es) && io.dbOk
    requires token !in Run(start, env, es).backend
    ensures var s := Run(start, env, es);
            var (after, reply) :=
              Submit(s, env, uid, KeyOf(s.users, uid), req, month, year, token, serverSignature, now, io);
            SubmitDoes(env, s, uid, req, month, year, token, serverSignature, now, io, after, reply)
  {
    ReachableInv(start, env, es);
    SubmitDoesIn(env, Run(start, env, es), uid, req, month, year, token, serverSignature, now, io);
  }

  lemma SubmitDoesIn(env: Env, s: State, uid: uint64, req: InvoiceRequest, month: uint16, year: uint16, token: string,
                     serverSignature: string, now: Time, io: Io)
    requires Inv(env, s) && GoodStreams(env) && io.dbOk && token !in s.backend
    ensures var (after, reply) :=
              Submit(s, env, uid, KeyOf(s.users, uid), req, month, year, token, serverSignature, now, io);
            SubmitDoes(env, s, uid, req, month, year, token, serverSignature, now, io, after, reply)
  {
    SubmitFacts(env, s, uid, req, month, year, token);
    SubmitByRefusal(env, s, uid, req, month, year, token, serverSignature, now, io);
  }

  lemma SubmitFacts(env: Env, s: State, uid: uint64, req: InvoiceRequest, month: uint16, year: uint16, token: string)
    requires Inv(env, s) && GoodStreams(env) && token !in s.backend
    ensures token !in s.invoices && env.decode(token, "") == Some([])
    ensures RequestRefusal(env, s, uid, req).None? ==>
              && req.publicKey in s.keys && s.keys[req.publicKey] == uid
              && ((exists t | t in s.invoices :: Matches(s.users, s.invoices[t], uid, month, year)) <==>
                  (exists t | t in s.invoices :: Duplicate(s.invoices[t], uid, month, year)))
  {
    assert env.decode(token, env.encode([])) == Some(PaymentStream.Recovered(token, []));
    if RequestRefusal(env, s, uid, req).None? {
      ActiveKeyOwned(s.users, s.keys, uid);
      DuplicateIff(env, s, uid, month, year);
    }
  }

  lemma SubmitByRefusal(env: Env, s: State, uid: uint64, req: InvoiceRequest, month: uint16, year: uint16,
                        token: string, serverSignature: string, now: Time, io: Io)
    requires io.dbOk && token !in s.backend && token !in s.invoices && env.decode(token, "") == Some([])
    requires RequestRefusal(env, s, uid, req).None? ==>
               && req.publicKey in s.keys && s.keys[req.publicKey] == uid
               && ((exists t | t in s.invoices :: Matches(s.users, s.invoices[t], uid, month, year)) <==>
                   (exists t | t in s.invoices :: Duplicate(s.invoices[t], uid, month, year)))
    ensures var (after, reply) :=
              Submit(s, env, uid, KeyOf(s.users, uid), req, month, year, token, serverSignature, now, io);
            SubmitDoes(env, s, uid, req, month, year, token, serverSignature, now, io, after, reply)
  {
    if SubmitRefusal(env, s, uid, req, month, year, io).Some? {
      SubmitRefused(env, s, uid, req, month, year, token, serverSignature, now, io);
    } else {
      RequestIff(env, s, uid, req);
      SubmitApplied(env, s, uid, req, month, year, token, serverSignature, now, io);
    }
  }

  lemma SubmitRefused(env: Env, s: State, uid: uint64, req: InvoiceRequest, month: uint16, year: uint16, token: string,
                      serverSignature: string, now: Time, io: Io)
    requires SubmitRefusal(env, s, uid, req, month, year, io).Some?
    requires RequestRefusal(env, s, uid, req).None? ==>
               ((exists t | t in s.invoices :: Matches(s.users, s.invoices[t], uid, month, year)) <==>
                (exists t | t in s.invoices :: Duplicate(s.invoices[t], uid, month, year)))
    ensures Submit(s, env, uid, KeyOf(s.users, uid), req, month, year, token, serverSignature, now, io) ==
            (s, Refused(SubmitRefusal(env, s, uid, req, month, year, io).value))
  {
    RequestIff(env, s, uid, req);
  }

  lemma SubmitApplied(env: Env, s: State, uid: uint64, req: InvoiceRequest, month: uint16, year: uint16, token: string,
                      serverSignature: string, now: Time, io: Io)
    requires io.rpcOk && io.dbOk && token !in s.backend && token !in s.invoices && env.decode(token, "") == Some([])
    requires ValidateInvoice(env, Some(req.publicKey), req).Ok?
    requires !exists t | t in s.invoices :: Matches(s.users, s.invoices[t], uid, month, year)
    requires req.publicKey in s.keys && s.keys[req.publicKey] == uid
    ensures var (after, reply) :=
              Submit(s, env, uid, Some(req.publicKey), req, month, year, token, serverSignature, now, io);
            reply.Done? && Submitted(s, after, uid, req, month, year, token, serverSignature, now)
  {
  }

  // ---------------------------------------------------------------- edits

  function EditRefusal(env: Env, s: State, uid: uint64, token: string, req: InvoiceRequest, io: Io): Option<LedgerError>
  {
    if token !in s.invoices then Some(Internal)
    else if RequestRefusal(env, s, uid, req).Some? then RequestRefusal(env, s, uid, req)
    else if !io.rpcOk then Some(Internal)
    else None
  }

  /** The record carries the file and the signer of the edit, and the version politeiad gave it; of the row only
      version and status have changed. */
  predicate Edited(s: State, after: State, token: string, req: InvoiceRequest, version: string, now: Time) {
    && ChangedTo(s, after, token, StreamChange("", UnreviewedChanges, None, now))
    && after.invoices[token] ==
         s.invoices[token].(version := version, status := UnreviewedChanges, changes := after.invoices[token].changes)
    && after.backend[token] ==
         s.backend[token].(
           version := version, file := req.file, changes := after.backend[token].changes,
           general := General(s.invoices[token].month, s.invoices[token].year, now, req.publicKey, req.signature))
  }

  ghost predicate EditDoes(env: Env, s: State, uid: uint64, token: string, req: InvoiceRequest, version: string,
                           now: Time, io: Io, after: State, reply: Reply)
  {
    match EditRefusal(env, s, uid, token, req, io)
    case Some(error) => reply == Refused(error) && after == s
    case None => reply.Done? && Edited(s, after, token, req, version, now)
  }

  /** In every run an edit, from whatever status and by whomever, succeeds if and only if the invoice exists, the
      caller signs with its active key, the file is there and readable, and the request succeeds. */
  lemma EditOutcome(start: State, env: Env, es: seq<Event>, uid: uint64, token: string, req: InvoiceRequest,
                    version: string, now: Time, io: Io)
    requires Initial(start) && RealEnv(env) && CoveredRun(start, env, es) && io.dbOk
    ensures var s := Run(start, env, es);
            var (after, reply) := Edit(s, env, KeyOf(s.users, uid), token, req, version, now, io);
            EditDoes(env, s, uid, token, req, version, now, io, after, reply)
  {
    ReachableInv(start, env, es);
    EditDoesIn(env, Run(start, env, es), uid, token, req, version, now, io);
  }

  lemma EditDoesIn(env: Env, s: State, uid: uint64, token: string, req: InvoiceRequest, version: string, now: Time,
                   io: Io)
    requires Inv(env, s) && io.dbOk
    ensures var (after, reply) := Edit(s, env, KeyOf(s.users, uid), token, req, version, now, io);
            EditDoes(env, s, uid, token, req, version, now, io, after, reply)
  {
    RowsLoad(env, s, token);
    RequestIff(env, s, uid, req);
    if EditRefusal(env, s, uid, token, req, io).None? {
      EditApplied(env, s, token, req, version, now, io);
    }
  }

  lemma EditApplied(env: Env, s: State, token: string, req: InvoiceRequest, version: string, now: Time, io: Io)
    requires Loads(s, token) && token in s.invoices && io.rpcOk && io.dbOk
    requires ValidateInvoice(env, Some(req.publicKey), req).Ok?
    ensures var (after, reply) := Edit(s, env, Some(req.publicKey), token, req, version, now, io);
            reply.Done? && Edited(s, after, token, req, version, now)
  {
  }
}
