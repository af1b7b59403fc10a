/** Whole runs over one user record: redemption of verification tokens, the lockout counter, identity rotation. */
module AccountRuns {
  import opened Wrappers
  import opened MachineInts
  import opened Database
  import opened Accounts
  import Hex

  datatype Call = Call(op: Op, now: Time)

  datatype Kind = RegisterKind | IdentityKind | ResetKind | XpubKind

  datatype Event =
    | Issued(kind: Kind, token: seq<byte>, expiry: int)
    | Redeemed(kind: Kind, token: seq<byte>, time: Time)

  function TokenOf(u: User, k: Kind): Token {
    match k
    case RegisterKind => u.registerToken
    case IdentityKind => u.identityToken
    case ResetKind => u.resetToken
    case XpubKind => u.xpubToken
  }

  function ExpiryOf(u: User, k: Kind): int {
    match k
    case RegisterKind => u.registerExpiry
    case IdentityKind => u.identityExpiry
    case ResetKind => u.resetExpiry
    case XpubKind => u.xpubExpiry
  }

  /** The bytes a caller handed in as a token. */
  function Supplied(text: string): seq<byte> {
    if Hex.Decode(text).Some? then Hex.Decode(text).value else []
  }

  /** The random bytes a call may consume; VerificationTokenSize of them are drawn, never none. */
  function DrawnToken(op: Op): Option<seq<byte>> {
    match op
    case OpNewIdentity(_, token, _) => Some(token)
    case OpResetPassword(_, _, _, token) => Some(token)
    case OpEditExtendedPublicKey(_, _, token) => Some(token)
    case OpResendInvite(token) => Some(token)
    case _ => None
  }

  /** What a call does to the verification tokens, read off the call, its verdict and the record before it. */
  function TokenEvents(u: User, c: Call): seq<Event> {
    if Apply(u, c.op, c.now).1.Err? then []
    else
      match c.op
      case OpRegister(req, _) => [Redeemed(RegisterKind, Supplied(req.verificationToken), c.now)]
      case OpNewIdentity(_, token, _) => [Issued(IdentityKind, token, c.now + VERIFICATION_EXPIRY)]
      case OpVerifyNewIdentity(text, _) => [Redeemed(IdentityKind, Supplied(text), c.now)]
      case OpResetPassword(text, _, _, token) =>
        if text != "" then [Redeemed(ResetKind, Supplied(text), c.now)]
        else if u.resetToken.Some? && u.resetExpiry > c.now then []
        else [Issued(ResetKind, token, c.now + VERIFICATION_EXPIRY)]
      case OpEditExtendedPublicKey(text, _, token) =>
        if text != "" then [Redeemed(XpubKind, Supplied(text), c.now)]
        else if u.xpubToken.Some? && u.xpubExpiry > c.now then []
        else [Issued(XpubKind, token, c.now + VERIFICATION_EXPIRY)]
      case OpResendInvite(token) => [Issued(RegisterKind, token, c.now + VERIFICATION_EXPIRY)]
      case _ => []
  }

  datatype Trace = Trace(user: User, clock: Time, history: seq<Event>)

  function Step(tr: Trace, c: Call): Trace {
    Trace(Apply(tr.user, c.op, c.now).0, c.now, tr.history + TokenEvents(tr.user, c))
  }

  function Run(tr: Trace, calls: seq<Call>): Trace
    decreases |calls|
  {
    if calls == [] then tr else Run(Step(tr, calls[0]), calls[1..])
  }

  predicate WasIssued(history: seq<Event>, token: seq<byte>) {
    exists i | 0 <= i < |history| :: history[i].Issued? && history[i].token == token
  }

  /** Clocks do not run backwards, drawn tokens are new, and closed routes stay closed. */
  predicate Admissible(tr: Trace, c: Call) {
    && tr.clock <= c.now
    && CanCall(tr.user, c.op)
    && (DrawnToken(c.op).Some? ==> DrawnToken(c.op).value != [] && !WasIssued(tr.history, DrawnToken(c.op).value))
  }

  predicate AdmissibleRun(tr: Trace, calls: seq<Call>)
    decreases |calls|
  {
    calls == [] || (Admissible(tr, calls[0]) && AdmissibleRun(Step(tr, calls[0]), calls[1..]))
  }

  /** A user just invited, or one created without any token. */
  predicate Fresh(tr: Trace) {
    && tr.user.identityToken.None? && tr.user.resetToken.None? && tr.user.xpubToken.None?
    && tr.user.identityExpiry == 0 && tr.user.resetExpiry == 0 && tr.user.xpubExpiry == 0
    && (if tr.user.IsVerified()
        then tr.history == [Issued(RegisterKind, tr.user.registerToken.value, tr.user.registerExpiry)]
        else tr.user.registerToken.None? && tr.user.registerExpiry == 0 && tr.history == [])
  }

  // ---------------------------------------------------------------- one-shot redemption

  /** The one earlier event that justifies a redemption. */
  predicate Justifies(issue: Event, redemption: Event) {
    issue.Issued? && redemption.Redeemed? && issue.kind == redemption.kind && issue.token == redemption.token &&
    redemption.time <= issue.expiry
  }

  predicate SlotSound(u: User, k: Kind, clock: Time, history: seq<Event>) {
    if Bytes(TokenOf(u, k)) == [] then ExpiryOf(u, k) < clock
    else exists i | 0 <= i < |history| ::
           history[i].Issued? && history[i].kind == k && history[i].token == Bytes(TokenOf(u, k)) &&
           (ExpiryOf(u, k) <= history[i].expiry || ExpiryOf(u, k) < clock)
  }

  predicate RedemptionSound(u: User, history: seq<Event>, j: nat)
    requires j < |history| && history[j].Redeemed?
  {
    && (exists i | 0 <= i < j :: Justifies(history[i], history[j]))
    && history[j].token != []
    && Bytes(TokenOf(u, history[j].kind)) != history[j].token
    && forall m | 0 <= m < |history| && m != j && history[m].Redeemed? ::
         !(history[m].kind == history[j].kind && history[m].token == history[j].token)
  }

  ghost predicate OneShot(tr: Trace) {
    && (forall k :: SlotSound(tr.user, k, tr.clock, tr.history))
    && (forall j | 0 <= j < |tr.history| && tr.history[j].Redeemed? :: RedemptionSound(tr.user, tr.history, j))
  }

  /** The slot keeps its token, and its expiry unless that becomes a past one. */
  predicate KeepsSlot(u: User, v: User, k: Kind, now: Time) {
    TokenOf(v, k) == TokenOf(u, k) && (ExpiryOf(v, k) == ExpiryOf(u, k) || ExpiryOf(v, k) < now)
  }

  predicate KeepsOthers(u: User, v: User, kind: Kind, now: Time) {
    && (kind != RegisterKind ==> KeepsSlot(u, v, RegisterKind, now))
    && (kind != IdentityKind ==> KeepsSlot(u, v, IdentityKind, now))
    && (kind != ResetKind ==> KeepsSlot(u, v, ResetKind, now))
    && (kind != XpubKind ==> KeepsSlot(u, v, XpubKind, now))
  }

  /** The event is an issue into its slot, or a redemption of what its slot held. */
  predicate EventFits(u: User, v: User, e: Event, op: Op, now: Time) {
    && KeepsOthers(u, v, e.kind, now)
    && match e
       case Issued(kind, token, expiry) =>
         DrawnToken(op) == Some(token) && TokenOf(v, kind) == Some(token) && ExpiryOf(v, kind) == expiry
       case Redeemed(kind, token, time) =>
         && time == now <= ExpiryOf(u, kind)
         && token == Bytes(TokenOf(u, kind))
         && TokenOf(v, kind) == Some([]) && ExpiryOf(v, kind) == 0
  }

  ghost predicate ShapeHolds(u: User, c: Call) {
    var v, events := Apply(u, c.op, c.now).0, TokenEvents(u, c);
    if events == [] then forall k :: KeepsSlot(u, v, k, c.now)
    else |events| == 1 && EventFits(u, v, events[0], c.op, c.now)
  }

  /** Every call keeps all four slots, or issues into one of them, or redeems one of them. */
  lemma StepShape(u: User, c: Call)
    ensures ShapeHolds(u, c)
  {
    match c.op
    case OpRegister(req, check) => RegisterShape(u, req, check, c);
    case OpEditExtendedPublicKey(text, xpub, token) => XpubShape(u, text, xpub, token, c);
    case OpResetPassword(text, _, _, _) => ResetShape(u, text, c);
    case OpVerifyNewIdentity(text, valid) => VerifyShape(u, text, valid, c);
    case OpNewIdentity(publicKey, token, check) => RequestShape(u, publicKey, token, check, c);
    case _ => OtherShape(u, c);
  }

  lemma OtherShape(u: User, c: Call)
    requires !c.op.OpRegister? && !c.op.OpEditExtendedPublicKey? && !c.op.OpResetPassword?
    requires !c.op.OpVerifyNewIdentity? && !c.op.OpNewIdentity?
    ensures ShapeHolds(u, c)
  {
    match c.op
    case OpLogin(_) =>
    case OpResendInvite(_) =>
    case OpExpireIdentityToken =>
    case OpUnlock =>
    case OpLock(_) =>
    case OpChangePassword(_, _, _) =>
  }

  lemma RegisterShape(u: User, req: RegisterRequest, check: KeyCheck, c: Call)
    requires c.op == OpRegister(req, check)
    ensures ShapeHolds(u, c)
  {
  }

  lemma XpubShape(u: User, text: string, xpub: string, token: seq<byte>, c: Call)
    requires c.op == OpEditExtendedPublicKey(text, xpub, token)
    ensures ShapeHolds(u, c)
  {
    Hex.DecodeOfEncode(Bytes(u.xpubToken));
  }

  lemma ResetShape(u: User, text: string, c: Call)
    requires c.op.OpResetPassword? && c.op.text == text
    ensures ShapeHolds(u, c)
  {
  }

  lemma VerifyShape(u: User, text: string, valid: bool, c: Call)
    requires c.op == OpVerifyNewIdentity(text, valid)
    ensures ShapeHolds(u, c)
  {
  }

  lemma RequestShape(u: User, publicKey: string, token: seq<byte>, check: KeyCheck, c: Call)
    requires c.op == OpNewIdentity(publicKey, token, check)
    ensures ShapeHolds(u, c)
  {
  }

  lemma SlotKept(u: User, v: User, k: Kind, tr: Trace, now: Time, more: seq<Event>)
    requires SlotSound(u, k, tr.clock, tr.history) && KeepsSlot(u, v, k, now) && tr.clock <= now
    ensures SlotSound(v, k, now, tr.history + more)
  {
    if Bytes(TokenOf(u, k)) != [] {
      var i :| 0 <= i < |tr.history| && tr.history[i].Issued? && tr.history[i].kind == k &&
        tr.history[i].token == Bytes(TokenOf(u, k)) &&
        (ExpiryOf(u, k) <= tr.history[i].expiry || ExpiryOf(u, k) < tr.clock);
      assert (tr.history + more)[i] == tr.history[i];
    }
  }

  lemma PastRedemptionKept(tr: Trace, v: User, more: seq<Event>, j: nat)
    requires j < |tr.history| && tr.history[j].Redeemed? && RedemptionSound(tr.user, tr.history, j)
    requires Bytes(TokenOf(v, tr.history[j].kind)) != tr.history[j].token
    requires forall e | e in more && e.Redeemed? :: !(e.kind == tr.history[j].kind && e.token == tr.history[j].token)
    ensures RedemptionSound(v, tr.history + more, j)
  {
    var h := tr.history + more;
    var i :| 0 <= i < j && Justifies(tr.history[i], tr.history[j]);
    assert Justifies(h[i], h[j]);
    forall m | 0 <= m < |h| && m != j && h[m].Redeemed?
      ensures !(h[m].kind == h[j].kind && h[m].token == h[j].token)
    {
      if m >= |tr.history| {
        assert h[m] in more;
      } else {
        assert h[m] == tr.history[m];
      }
    }
  }

  lemma OneShotStep(tr: Trace, c: Call)
    requires OneShot(tr) && Admissible(tr, c)
    ensures OneShot(Step(tr, c))
  {
    StepShape(tr.user, c);
    var events := TokenEvents(tr.user, c);
    if events == [] {
      KeepStep(tr, c);
    } else if events[0].Issued? {
      IssueStep(tr, c, events[0]);
    } else {
      RedeemStep(tr, c, events[0]);
    }
  }

  lemma KeepStep(tr: Trace, c: Call)
    requires OneShot(tr) && Admissible(tr, c) && TokenEvents(tr.user, c) == []
    requires forall k :: KeepsSlot(tr.user, Apply(tr.user, c.op, c.now).0, k, c.now)
    ensures OneShot(Step(tr, c))
  {
    var after := Step(tr, c);
    forall k ensures SlotSound(after.user, k, after.clock, after.history) {
      SlotKept(tr.user, after.user, k, tr, c.now, []);
    }
    assert after.history == tr.history;
    forall j | 0 <= j < |after.history| && after.history[j].Redeemed?
      ensures RedemptionSound(after.user, after.history, j) {
      assert KeepsSlot(tr.user, after.user, after.history[j].kind, c.now);
      PastRedemptionKept(tr, after.user, [], j);
    }
  }

  lemma IssueStep(tr: Trace, c: Call, e: Event)
    requires OneShot(tr) && Admissible(tr, c) && TokenEvents(tr.user, c) == [e] && e.Issued?
    requires EventFits(tr.user, Apply(tr.user, c.op, c.now).0, e, c.op, c.now)
    ensures OneShot(Step(tr, c))
  {
    var after := Step(tr, c);
    assert after.history[|tr.history|] == e;
    forall k ensures SlotSound(after.user, k, after.clock, after.history) {
      if k != e.kind {
        SlotKept(tr.user, after.user, k, tr, c.now, [e]);
      }
    }
    forall j | 0 <= j < |after.history| && after.history[j].Redeemed?
      ensures RedemptionSound(after.user, after.history, j) {
      assert j < |tr.history| && RedemptionSound(tr.user, tr.history, j);
      var i :| 0 <= i < j && Justifies(tr.history[i], tr.history[j]);
      assert WasIssued(tr.history, tr.history[j].token);
      assert tr.history[j].kind != e.kind ==> KeepsSlot(tr.user, after.user, tr.history[j].kind, c.now);
      PastRedemptionKept(tr, after.user, [e], j);
    }
  }

  lemma RedeemStep(tr: Trace, c: Call, e: Event)
    requires OneShot(tr) && Admissible(tr, c) && TokenEvents(tr.user, c) == [e] && e.Redeemed?
    requires EventFits(tr.user, Apply(tr.user, c.op, c.now).0, e, c.op, c.now)
    ensures OneShot(Step(tr, c))
  {
    var after := Step(tr, c);
    var n := |tr.history|;
    assert after.history[n] == e;
    forall k ensures SlotSound(after.user, k, after.clock, after.history) {
      if k != e.kind {
        SlotKept(tr.user, after.user, k, tr, c.now, [e]);
      }
    }
    assert SlotSound(tr.user, e.kind, tr.clock, tr.history);
    var i :| 0 <= i < n && tr.history[i].Issued? && tr.history[i].kind == e.kind && tr.history[i].token == e.token &&
      (ExpiryOf(tr.user, e.kind) <= tr.history[i].expiry || ExpiryOf(tr.user, e.kind) < tr.clock);
    assert Justifies(after.history[i], after.history[n]);
    forall j | 0 <= j < |after.history| && after.history[j].Redeemed?
      ensures RedemptionSound(after.user, after.history, j) {
      if j < n {
        assert RedemptionSound(tr.user, tr.history, j);
        assert tr.history[j].kind != e.kind ==> KeepsSlot(tr.user, after.user, tr.history[j].kind, c.now);
        PastRedemptionKept(tr, after.user, [e], j);
      } else {
        forall m | 0 <= m < |after.history| && m != n && after.history[m].Redeemed?
          ensures !(after.history[m].kind == e.kind && after.history[m].token == e.token)
        {
          assert RedemptionSound(tr.user, tr.history, m);
        }
      }
    }
  }

  lemma {:induction false} OneShotRun(tr: Trace, calls: seq<Call>)
    requires OneShot(tr) && AdmissibleRun(tr, calls)
    ensures OneShot(Run(tr, calls))
    decreases |calls|
  {
    if calls != [] {
      OneShotStep(tr, calls[0]);
      OneShotRun(Step(tr, calls[0]), calls[1..]);
    }
  }

  /** Over any run of a new account: whatever is redeemed was issued before for the same purpose, is redeemed no
      later than the expiry it was issued with, and is never redeemed again. */
  lemma OneShotRedemption(start: Trace, calls: seq<Call>, j: nat)
    requires Fresh(start) && AdmissibleRun(start, calls)
    requires j < |Run(start, calls).history| && Run(start, calls).history[j].Redeemed?
    ensures var h := Run(start, calls).history;
            && (exists i | 0 <= i < j :: Justifies(h[i], h[j]))
            && forall m | 0 <= m < |h| && h[m].Redeemed? && h[m].kind == h[j].kind && h[m].token == h[j].token :: m == j
  {
    forall k ensures SlotSound(start.user, k, start.clock, start.history) {
      if k == RegisterKind && start.user.IsVerified() {
        assert start.history[0].kind == k;
      }
    }
    OneShotRun(start, calls);
    var end := Run(start, calls);
    assert RedemptionSound(end.user, end.history, j);
  }

  predicate EmptySlot(u: User, k: Kind, now: Time) {
    Bytes(TokenOf(u, k)) == [] && ExpiryOf(u, k) < now
  }

  /** A slot that holds no bytes, never issued or consumed, with a past expiry redeems no text at all, in any of the
      four handlers; the extended-key handler compares texts, so that there no expiry is needed. */
  lemma EmptySlotRejects(u: User, text: string, now: Time, req: RegisterRequest, check: KeyCheck, valid: bool,
                         bytes: seq<byte>, hash: seq<byte>, xpub: string)
    ensures EmptySlot(u, RegisterKind, now) ==> Register(u, req, check, now).Err?
    ensures EmptySlot(u, IdentityKind, now) ==> VerifyNewIdentity(u, text, valid, now).Err?
    ensures EmptySlot(u, ResetKind, now) ==> VerifyReset(u, text, bytes, hash, now).Err?
    ensures Bytes(u.xpubToken) == [] && text != "" ==>
              EditExtendedPublicKey(u, text, xpub, bytes, now) == Err(TokenInvalid)
  {
    assert Hex.Encode([]) == "";
  }

  /** A call leaves the token in place, and its expiry unless an administrator ends it, or redeems it. */
  ghost predicate TokenKept(u: User, c: Call, k: Kind) {
    var v := Apply(u, c.op, c.now).0;
    || (TokenOf(v, k) == TokenOf(u, k) && (ExpiryOf(v, k) == ExpiryOf(u, k) || c.op.OpExpireIdentityToken?))
    || (TokenOf(u, k).Some? && TokenEvents(u, c) == [Redeemed(k, TokenOf(u, k).value, c.now)])
  }

  /** While an identity, reset or extended-key token is unexpired, no call replaces it; only its own redemption ends
      it. */
  lemma UnexpiredTokenKept(u: User, c: Call, k: Kind)
    requires k != RegisterKind && TokenOf(u, k).Some? && ExpiryOf(u, k) > c.now
    ensures TokenKept(u, c, k)
  {
    match c.op
    case OpEditExtendedPublicKey(text, xpub, token) => XpubTokenKept(u, text, xpub, token, c, k);
    case OpNewIdentity(publicKey, token, check) => IdentityTokenKept(u, c, k);
    case OpVerifyNewIdentity(text, valid) => IdentityTokenKept(u, c, k);
    case OpResetPassword(text, _, _, _) => ResetTokenKept(u, c, k);
    case _ => OtherTokenKept(u, c, k);
  }

  lemma XpubTokenKept(u: User, text: string, xpub: string, token: seq<byte>, c: Call, k: Kind)
    requires k != RegisterKind && TokenOf(u, k).Some? && ExpiryOf(u, k) > c.now
    requires c.op == OpEditExtendedPublicKey(text, xpub, token)
    ensures TokenKept(u, c, k)
  {
    Hex.DecodeOfEncode(Bytes(u.xpubToken));
  }

  lemma IdentityTokenKept(u: User, c: Call, k: Kind)
    requires k != RegisterKind && TokenOf(u, k).Some? && ExpiryOf(u, k) > c.now
    requires c.op.OpNewIdentity? || c.op.OpVerifyNewIdentity?
    ensures TokenKept(u, c, k)
  {
  }

  lemma ResetTokenKept(u: User, c: Call, k: Kind)
    requires k != RegisterKind && TokenOf(u, k).Some? && ExpiryOf(u, k) > c.now && c.op.OpResetPassword?
    ensures TokenKept(u, c, k)
  {
  }

  lemma OtherTokenKept(u: User, c: Call, k: Kind)
    requires k != RegisterKind && TokenOf(u, k).Some? && ExpiryOf(u, k) > c.now
    requires !c.op.OpEditExtendedPublicKey? && !c.op.OpNewIdentity? && !c.op.OpVerifyNewIdentity? &&
              !c.op.OpResetPassword?
    ensures TokenKept(u, c, k)
  {
  }

  // ---------------------------------------------------------------- lockout

  datatype Attempt = WrongPassword | Success | RefusedWhileLocked | Unlocked | LockedByAdmin | PasswordReset | Unrelated

  function AttemptOf(u: User, c: Call): Attempt {
    var verdict := Apply(u, c.op, c.now).1;
    match c.op
    case OpLogin(passwordMatches) =>
      if u.IsVerified() then Unrelated
      else if !passwordMatches then WrongPassword
      else if verdict.Ok? then Success
      else RefusedWhileLocked
    case OpUnlock => Unlocked
    case OpLock(_) => if verdict.Ok? then LockedByAdmin else Unrelated
    case OpResetPassword(text, _, _, _) => if text != "" && verdict.Ok? then PasswordReset else Unrelated
    case _ => Unrelated
  }

  function Attempts(u: User, calls: seq<Call>): (h: seq<Attempt>)
    ensures |h| == |calls|
    decreases |calls|
  {
    if calls == [] then [] else [AttemptOf(u, calls[0])] + Attempts(Apply(u, calls[0].op, calls[0].now).0, calls[1..])
  }

  function RunUser(u: User, calls: seq<Call>): User
    decreases |calls|
  {
    if calls == [] then u else RunUser(Apply(u, calls[0].op, calls[0].now).0, calls[1..])
  }

  predicate Clears(a: Attempt) {
    a.Success? || a.Unlocked? || a.PasswordReset?
  }

  /** What happened since the last success, unlock or password reset. */
  function SinceCleared(h: seq<Attempt>): seq<Attempt> {
    if h == [] then []
    else if Clears(h[|h| - 1]) then []
    else SinceCleared(h[..|h| - 1]) + [h[|h| - 1]]
  }

  function CountWrong(h: seq<Attempt>): nat {
    if h == [] then 0 else CountWrong(h[..|h| - 1]) + if h[|h| - 1].WrongPassword? then 1 else 0
  }

  /** The counter as a function of the history alone: wrong passwords since the last clearing event, capped at
      the threshold, and at the threshold outright once an administrator has locked the account. */
  function ExpectedCounter(h: seq<Attempt>): nat {
    var s := SinceCleared(h);
    if LockedByAdmin in s || CountWrong(s) > LOGIN_ATTEMPTS_TO_LOCK then LOGIN_ATTEMPTS_TO_LOCK else CountWrong(s)
  }

  /** Where one attempt moves a counter. */
  function Moved(n: int, a: Attempt): int {
    if Clears(a) then 0
    else if a.LockedByAdmin? then LOGIN_ATTEMPTS_TO_LOCK
    else if a.WrongPassword? && n < LOGIN_ATTEMPTS_TO_LOCK then n + 1
    else n
  }

  lemma ExpectedCounterSnoc(h: seq<Attempt>, a: Attempt)
    ensures ExpectedCounter(h + [a]) == Moved(ExpectedCounter(h), a)
  {
    assert (h + [a])[..|h|] == h;
    if !Clears(a) {
      var s := SinceCleared(h);
      assert (s + [a])[..|s|] == s;
      assert SinceCleared(h + [a]) == s + [a];
    }
  }

  lemma CounterStep(u: User, c: Call, h: seq<Attempt>)
    requires u.failedLoginAttempts == ExpectedCounter(h)
    ensures Apply(u, c.op, c.now).0.failedLoginAttempts == ExpectedCounter(h + [AttemptOf(u, c)])
    ensures AttemptOf(u, c).Success? ==> ExpectedCounter(h) < LOGIN_ATTEMPTS_TO_LOCK
  {
    StoredCounterMoves(u, c);
    ExpectedCounterSnoc(h, AttemptOf(u, c));
  }

  lemma StoredCounterMoves(u: User, c: Call)
    requires u.failedLoginAttempts <= LOGIN_ATTEMPTS_TO_LOCK
    ensures Apply(u, c.op, c.now).0.failedLoginAttempts == Moved(u.failedLoginAttempts, AttemptOf(u, c))
    ensures AttemptOf(u, c).Success? ==> u.failedLoginAttempts < LOGIN_ATTEMPTS_TO_LOCK
  {
  }

  lemma {:induction false} CounterRun(u: User, calls: seq<Call>, h: seq<Attempt>)
    requires u.failedLoginAttempts == ExpectedCounter(h)
    ensures RunUser(u, calls).failedLoginAttempts == ExpectedCounter(h + Attempts(u, calls))
    decreases |calls|
  {
    if calls == [] {
      assert h + Attempts(u, calls) == h;
    } else {
      var a, v := AttemptOf(u, calls[0]), Apply(u, calls[0].op, calls[0].now).0;
      CounterStep(u, calls[0], h);
      CounterRun(v, calls[1..], h + [a]);
      assert h + ([a] + Attempts(v, calls[1..])) == h + [a] + Attempts(v, calls[1..]);
    }
  }

  lemma {:induction false} AttemptsSplit(u: User, calls: seq<Call>, j: nat)
    requires j < |calls|
    ensures Attempts(u, calls)[..j] == Attempts(u, calls[..j])
    ensures Attempts(u, calls)[j] == AttemptOf(RunUser(u, calls[..j]), calls[j])
    decreases |calls|
  {
    if j == 0 {
      assert calls[..0] == [];
    } else {
      var v := Apply(u, calls[0].op, calls[0].now).0;
      AttemptsSplit(v, calls[1..], j - 1);
      assert calls[..j][0] == calls[0] && calls[..j][1..] == calls[1..][..j - 1];
      assert Attempts(u, calls)[..j] == [AttemptOf(u, calls[0])] + Attempts(v, calls[1..])[..j - 1];
    }
  }

  lemma SuccessBelowThreshold(u: User, calls: seq<Call>, j: nat)
    requires u.failedLoginAttempts == 0 && j < |calls| && Attempts(u, calls)[j].Success?
    ensures ExpectedCounter(Attempts(u, calls)[..j]) < LOGIN_ATTEMPTS_TO_LOCK
  {
    AttemptsSplit(u, calls, j);
    CounterRun(u, calls[..j], []);
    assert [] + Attempts(u, calls[..j]) == Attempts(u, calls[..j]);
    CounterStep(RunUser(u, calls[..j]), calls[j], Attempts(u, calls[..j]));
  }

  /** For every run of an account that starts unlocked, the stored counter is the expected one, at most the
      threshold, and a login succeeded only when the expected counter was below it. */
  lemma LockoutCounter(u: User, calls: seq<Call>)
    requires u.failedLoginAttempts == 0
    ensures RunUser(u, calls).failedLoginAttempts == ExpectedCounter(Attempts(u, calls)) <= LOGIN_ATTEMPTS_TO_LOCK
    ensures forall j | 0 <= j < |calls| && Attempts(u, calls)[j].Success? ::
              ExpectedCounter(Attempts(u, calls)[..j]) < LOGIN_ATTEMPTS_TO_LOCK
  {
    CounterRun(u, calls, []);
    assert [] + Attempts(u, calls) == Attempts(u, calls);
    forall j | 0 <= j < |calls| && Attempts(u, calls)[j].Success?
      ensures ExpectedCounter(Attempts(u, calls)[..j]) < LOGIN_ATTEMPTS_TO_LOCK
    {
      SuccessBelowThreshold(u, calls, j);
    }
  }

  /** Once the account is locked, a later success is preceded by an unlock or a password reset. */
  lemma {:induction false} LockedUntilCleared(u: User, calls: seq<Call>, i: nat, j: nat)
    requires u.failedLoginAttempts == 0
    requires i <= j < |calls| && Attempts(u, calls)[j].Success?
    requires ExpectedCounter(Attempts(u, calls)[..i]) == LOGIN_ATTEMPTS_TO_LOCK
    ensures exists m | i <= m < j :: Attempts(u, calls)[m].Unlocked? || Attempts(u, calls)[m].PasswordReset?
    decreases j - i
  {
    LockoutCounter(u, calls);
    var h := Attempts(u, calls);
    if !(h[i].Unlocked? || h[i].PasswordReset?) {
      assert !h[i].Success?;
      assert h[..i + 1] == h[..i] + [h[i]];
      ExpectedCounterSnoc(h[..i], h[i]);
      LockedUntilCleared(u, calls, i + 1, j);
    }
  }

  // ---------------------------------------------------------------- identity rotation

  predicate IsPending(id: Identity) {
    id.activated == 0 && id.deactivated == 0
  }

  predicate AllDeactivated(ids: seq<Identity>) {
    forall i | 0 <= i < |ids| :: ids[i].deactivated != 0
  }

  /** Only the newest identity is in use. */
  predicate Settled(ids: seq<Identity>) {
    ids != [] && ids[|ids| - 1].IsActive() && AllDeactivated(ids[..|ids| - 1])
  }

  /** Nothing yet, or settled, or one request waiting behind either. */
  predicate InOrder(ids: seq<Identity>) {
    || ids == []
    || Settled(ids)
    || (IsPending(ids[|ids| - 1]) && (|ids| == 1 || Settled(ids[..|ids| - 1])))
  }

  predicate OneActive(ids: seq<Identity>) {
    exists a | 0 <= a < |ids| :: ids[a].IsActive() && forall i | 0 <= i < |ids| && i != a :: !ids[i].IsActive()
  }

  predicate OrderlyCall(u: User, op: Op) {
    && CanCall(u, op)
    && DrawnToken(op) != Some([])
    && (op.OpNewIdentity? ==> u.identities == [] || !IsPending(u.identities[|u.identities| - 1]))
  }

  /** Registration is open only while an invitation is; it has not been used before then. */
  predicate Unregistered(u: User) {
    if u.IsVerified() then u.identities == [] else u.registerExpiry <= 0
  }

  /** A new identity is only asked for when none is waiting to be verified. */
  predicate Orderly(u: User, calls: seq<Call>)
    decreases |calls|
  {
    calls == [] ||
    (&& OrderlyCall(u, calls[0].op)
     && Orderly(Apply(u, calls[0].op, calls[0].now).0, calls[1..]))
  }

  lemma {:induction false} DeactivateFirstShape(ids: seq<Identity>, t: Time, a: nat)
    requires a < |ids| && ids[a].deactivated == 0 && AllDeactivated(ids[..a])
    ensures DeactivateFirst(ids, t) == ids[a := ids[a].(deactivated := t)]
  {
    if a > 0 {
      assert ids[..a][0] == ids[0];
      assert ids[1..][..a - 1] == ids[..a][1..];
      DeactivateFirstShape(ids[1..], t, a - 1);
    }
  }

  lemma RotateInOrder(ids: seq<Identity>, t: Time)
    requires InOrder(ids) && ids != [] && IsPending(ids[|ids| - 1])
    ensures Settled(Rotate(ids, t))
  {
    var n := |ids|;
    var a := if n == 1 then 0 else n - 2;
    if n > 1 {
      assert ids[..n - 1][..n - 2] == ids[..a];
    }
    DeactivateFirstShape(ids, t, a);
    var front := Rotate(ids, t)[..n - 1];
    forall i | 0 <= i < |front| ensures front[i].deactivated != 0 {
      if i < a {
        assert ids[..a][i].deactivated != 0;
      }
    }
  }

  lemma RotateSettled(ids: seq<Identity>, t: Time)
    requires Settled(ids)
    ensures Settled(Rotate(ids, t))
  {
    var n := |ids|;
    DeactivateFirstShape(ids, t, n - 1);
    assert Rotate(ids, t)[..n - 1] == ids[..n - 1];
  }

  lemma RotationStep(u: User, c: Call)
    requires InOrder(u.identities) && Unregistered(u) && OrderlyCall(u, c.op)
    ensures var v := Apply(u, c.op, c.now).0;
            && InOrder(v.identities) && Unregistered(v)
            && (c.op.OpVerifyNewIdentity? && Apply(u, c.op, c.now).1.Ok? ==> Settled(v.identities))
            && (OneActive(u.identities) ==> OneActive(v.identities))
  {
    IdentitiesStep(u, c);
    InOrderActive(u.identities);
    InOrderActive(Apply(u, c.op, c.now).0.identities);
  }

  /** The identity list only changes by a first registration, by a request, or by a rotation. */
  predicate ListStep(before: seq<Identity>, after: seq<Identity>) {
    || after == before
    || (before == [] && Settled(after))
    || (|after| == |before| + 1 && after[..|before|] == before && IsPending(after[|before|]))
    || (Settled(after) && before != [])
  }

  predicate IdentitiesKept(u: User, c: Call) {
    var (v, reply) := Apply(u, c.op, c.now);
    && Unregistered(v) && InOrder(v.identities)
    && (c.op.OpVerifyNewIdentity? && reply.Ok? ==> Settled(v.identities))
    && ListStep(u.identities, v.identities)
  }

  lemma IdentitiesStep(u: User, c: Call)
    requires InOrder(u.identities) && Unregistered(u) && OrderlyCall(u, c.op)
    ensures IdentitiesKept(u, c)
  {
    match c.op
    case OpRegister(req, check) => RegisteredIdentities(u, c, req, check);
    case OpNewIdentity(publicKey, token, check) => RequestedIdentities(u, c, publicKey, token, check);
    case OpVerifyNewIdentity(text, valid) => VerifiedIdentities(u, c, text, valid);
    case _ => OtherIdentities(u, c);
  }

  lemma RegisteredIdentities(u: User, c: Call, req: RegisterRequest, check: KeyCheck)
    requires InOrder(u.identities) && Unregistered(u) && c.op == OpRegister(req, check)
    ensures IdentitiesKept(u, c)
  {
    if Register(u, req, check, c.now).Ok? {
      RegisterFirst(u, req, check, c.now);
    }
  }

  lemma RequestedIdentities(u: User, c: Call, publicKey: string, token: seq<byte>, check: KeyCheck)
    requires InOrder(u.identities) && Unregistered(u) && c.op == OpNewIdentity(publicKey, token, check) &&
              OrderlyCall(u, c.op)
    ensures IdentitiesKept(u, c)
  {
    if NewIdentity(u, publicKey, token, check, c.now).Ok? {
      RequestAppends(u, publicKey, token, check, c.now);
    }
  }

  lemma VerifiedIdentities(u: User, c: Call, text: string, valid: bool)
    requires InOrder(u.identities) && Unregistered(u) && c.op == OpVerifyNewIdentity(text, valid)
    ensures IdentitiesKept(u, c)
  {
    if VerifyNewIdentity(u, text, valid, c.now).Ok? {
      VerifySettles(u, text, valid, c.now);
    }
  }

  lemma OtherIdentities(u: User, c: Call)
    requires InOrder(u.identities) && Unregistered(u) && OrderlyCall(u, c.op)
    requires !c.op.OpRegister? && !c.op.OpNewIdentity? && !c.op.OpVerifyNewIdentity?
    ensures IdentitiesKept(u, c)
  {
    SameIdentities(u, c.op, c.now);
  }

  lemma SameIdentities(u: User, op: Op, now: Time)
    requires CanCall(u, op) && DrawnToken(op) != Some([])
    requires !op.OpRegister? && !op.OpNewIdentity? && !op.OpVerifyNewIdentity?
    ensures Apply(u, op, now).0.identities == u.identities
    ensures Unregistered(u) ==> Unregistered(Apply(u, op, now).0)
  {
  }

  lemma RequestAppends(u: User, publicKey: string, token: seq<byte>, check: KeyCheck, now: Time)
    requires InOrder(u.identities) && (u.identities == [] || !IsPending(u.identities[|u.identities| - 1]))
    requires NewIdentity(u, publicKey, token, check, now).Ok?
    ensures var ids := NewIdentity(u, publicKey, token, check, now).value.identities;
            ListStep(u.identities, ids) && InOrder(ids)
  {
    AppendPending(u.identities, Identity(ValidatePubkey(publicKey).value, 0, 0));
  }

  lemma AppendPending(ids: seq<Identity>, id: Identity)
    requires InOrder(ids) && (ids == [] || !IsPending(ids[|ids| - 1])) && IsPending(id)
    ensures ListStep(ids, ids + [id]) && InOrder(ids + [id])
  {
    assert (ids + [id])[..|ids|] == ids;
  }

  lemma VerifySettles(u: User, text: string, valid: bool, now: Time)
    requires InOrder(u.identities) && VerifyNewIdentity(u, text, valid, now).Ok?
    ensures Settled(VerifyNewIdentity(u, text, valid, now).value.identities) && u.identities != []
  {
    if IsPending(u.identities[|u.identities| - 1]) {
      RotateInOrder(u.identities, now);
    } else {
      RotateSettled(u.identities, now);
    }
  }

  lemma RegisterFirst(u: User, req: RegisterRequest, check: KeyCheck, now: Time)
    requires Unregistered(u) && Register(u, req, check, now).Ok?
    ensures u.identities == []
    ensures Settled(Register(u, req, check, now).value.identities)
  {
    var ids := Register(u, req, check, now).value.identities;
    assert ids == [Identity(ValidatePubkey(req.publicKey).value, now, 0)];
  }

  lemma InOrderActive(ids: seq<Identity>)
    requires InOrder(ids)
    ensures OneActive(ids) <==> ids != [] && (Settled(ids) || |ids| > 1)
    ensures OneActive(ids) <==> FirstActive(ids).Some?
    ensures Settled(ids) ==> FirstActive(ids) == Some(|ids| - 1)
  {
    var n := |ids|;
    if Settled(ids) {
      SettledOneActive(ids, n - 1);
    } else if n > 1 {
      var front := ids[..n - 1];
      assert front[..n - 2] == ids[..n - 2];
      SettledOneActive(ids, n - 2);
    }
  }

  lemma SettledOneActive(ids: seq<Identity>, a: nat)
    requires a < |ids| && ids[a].IsActive() && AllDeactivated(ids[..a])
    requires forall i | a < i < |ids| :: !ids[i].IsActive()
    ensures OneActive(ids) && FirstActive(ids) == Some(a)
  {
    forall i | 0 <= i < |ids| && i != a ensures !ids[i].IsActive() {
      if i < a {
        assert ids[..a][i].deactivated != 0;
      }
    }
  }

  lemma {:induction false} RotationRun(u: User, calls: seq<Call>)
    requires InOrder(u.identities) && Unregistered(u) && Orderly(u, calls)
    ensures InOrder(RunUser(u, calls).identities)
    ensures OneActive(u.identities) ==> OneActive(RunUser(u, calls).identities)
    decreases |calls|
  {
    if calls != [] {
      RotationStep(u, calls[0]);
      RotationRun(Apply(u, calls[0].op, calls[0].now).0, calls[1..]);
    }
  }

  /** In every run in which each new identity is verified before the next one is asked for: once one identity is
      active there is exactly one for ever after, and right after a verification it is the newest one, which is
      also the one ActiveIdentity returns. */
  lemma IdentityRotation(u: User, calls: seq<Call>, k: nat)
    requires u.identities == [] && Unregistered(u) && Orderly(u, calls) && k <= |calls|
    ensures FirstActive(RunUser(u, calls[..k]).identities).Some? ==> OneActive(RunUser(u, calls).identities)
    ensures var before := RunUser(u, calls[..k]);
            k < |calls| && calls[k].op.OpVerifyNewIdentity? && Apply(before, calls[k].op, calls[k].now).1.Ok? ==>
              var after := RunUser(u, calls[..k + 1]).identities;
              OneActive(after) && FirstActive(after) == Some(|after| - 1)
  {
    RunSplit(u, calls, k);
    RotationPrefix(u, calls, k);
    var before := RunUser(u, calls[..k]);
    InOrderActive(before.identities);
    RotationRun(before, calls[k..]);
    if k < |calls| && calls[k].op.OpVerifyNewIdentity? && Apply(before, calls[k].op, calls[k].now).1.Ok? {
      RotationStep(before, calls[k]);
      RunSplit(u, calls[..k + 1], k);
      assert calls[..k + 1][..k] == calls[..k];
      assert calls[..k + 1][k..] == [calls[k]];
      var after := RunUser(u, calls[..k + 1]);
      assert [calls[k]][1..] == [];
      assert RunUser(before, [calls[k]]) == Apply(before, calls[k].op, calls[k].now).0;
      InOrderActive(after.identities);
    }
  }

  /** The first call of a prefix, taken first. */
  lemma PrefixRun(u: User, v: User, calls: seq<Call>, k: nat)
    requires 0 < k <= |calls| && v == Apply(u, calls[0].op, calls[0].now).0
    ensures RunUser(u, calls[..k]) == RunUser(v, calls[1..][..k - 1]) && calls[k..] == calls[1..][k - 1..]
  {
    assert calls[..k][1..] == calls[1..][..k - 1] && calls[..k][0] == calls[0];
  }

  lemma {:induction false} RunSplit(u: User, calls: seq<Call>, k: nat)
    requires k <= |calls|
    ensures RunUser(u, calls) == RunUser(RunUser(u, calls[..k]), calls[k..])
    decreases |calls|
  {
    if k == 0 {
      assert calls[..0] == [] && calls[0..] == calls;
    } else {
      var v := Apply(u, calls[0].op, calls[0].now).0;
      RunSplit(v, calls[1..], k - 1);
      PrefixRun(u, v, calls, k);
    }
  }

  lemma {:induction false} RotationPrefix(u: User, calls: seq<Call>, k: nat)
    requires InOrder(u.identities) && Unregistered(u) && Orderly(u, calls) && k <= |calls|
    ensures var before := RunUser(u, calls[..k]);
            InOrder(before.identities) && Unregistered(before) && Orderly(before, calls[k..])
    decreases |calls|
  {
    if k == 0 {
      assert calls[..0] == [] && calls[0..] == calls;
    } else {
      var v := FirstCall(u, calls);
      RotationPrefix(v, calls[1..], k - 1);
      PrefixRun(u, v, calls, k);
    }
  }

  /** The first call of an orderly run keeps the identities in order, and the rest of the run orderly. */
  lemma FirstCall(u: User, calls: seq<Call>) returns (v: User)
    requires InOrder(u.identities) && Unregistered(u) && Orderly(u, calls) && calls != []
    ensures v == Apply(u, calls[0].op, calls[0].now).0
    ensures InOrder(v.identities) && Unregistered(v) && Orderly(v, calls[1..])
  {
    v := Apply(u, calls[0].op, calls[0].now).0;
    RotationStep(u, calls[0]);
  }

  /** Without that hypothesis a verification leaves exactly one active identity if and only if every identity
      before the active one has been deactivated, that is, no abandoned request precedes it. */
  lemma VerifyKeepsOneActiveIff(ids: seq<Identity>, a: nat, t: Time)
    requires a < |ids| - 1 && ids[a].IsActive() && forall i | 0 <= i < |ids| && i != a :: !ids[i].IsActive()
    ensures OneActive(Rotate(ids, t)) <==> AllDeactivated(ids[..a])
  {
    var n := |ids|;
    var r := Rotate(ids, t);
    var f := FirstNotDeactivated(ids, a);
    DeactivateFirstShape(ids, t, f);
    assert r[n - 1].IsActive();
    if f < a {
      assert r[a].IsActive();
      assert ids[..a][f].deactivated == 0;
    } else {
      assert forall i | 0 <= i < n - 1 :: !r[i].IsActive();
    }
  }

  lemma {:induction false} FirstNotDeactivated(ids: seq<Identity>, a: nat) returns (f: nat)
    requires a < |ids| && ids[a].deactivated == 0
    ensures f <= a && ids[f].deactivated == 0 && AllDeactivated(ids[..f])
    ensures f == a || !AllDeactivated(ids[..a])
  {
    f := 0;
    while ids[f].deactivated != 0
      invariant f <= a && AllDeactivated(ids[..f])
      decreases a - f
    {
      assert ids[..f + 1] == ids[..f] + [ids[f]];
      f := f + 1;
    }
    if f < a {
      assert ids[..a][f].deactivated == 0;
    }
  }
}
