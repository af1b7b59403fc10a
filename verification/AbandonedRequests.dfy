/** A request for a new identity that lapses, and what later rotations then leave. */
module AbandonedRequests {
  import opened Wrappers
  import opened MachineInts
  import opened Database
  import opened Accounts
  import opened AccountRuns
  import Hex

  // ---------------------------------------------------------------- one account and the key table

  datatype Account = Account(user: User, keys: KeyTable)

  /** The call is allowed, carries the key table's own verdict, and succeeds. */
  predicate Accepted(a: Account, uid: uint64, c: Call) {
    CanCall(a.user, c.op) && ChecksAgree(a.keys, uid, c.op) && Apply(a.user, c.op, c.now).1.Ok?
  }

  function Serve(a: Account, uid: uint64, c: Call): Account {
    var v := Apply(a.user, c.op, c.now).0;
    Account(v, KeysAfter(a.keys, uid, a.user, v))
  }

  predicate Leads(a: Account, uid: uint64, c: Call, b: Account) {
    Accepted(a, uid, c) && Serve(a, uid, c) == b
  }

  /** The calls are all accepted and lead to b. */
  predicate Reaches(a: Account, uid: uint64, calls: seq<Call>, b: Account)
    decreases |calls|
  {
    if calls == [] then a == b else Accepted(a, uid, calls[0]) && Reaches(Serve(a, uid, calls[0]), uid, calls[1..], b)
  }

  lemma ReachesFirst(a: Account, uid: uint64, c: Call, b: Account, calls: seq<Call>, d: Account)
    requires Leads(a, uid, c, b) && Reaches(b, uid, calls, d)
    ensures Reaches(a, uid, [c] + calls, d)
  {
    assert ([c] + calls)[1..] == calls;
  }

  /** Every listed text is the lower-case spelling of the bytes it stands for. */
  ghost predicate Canonical(keys: KeyTable) {
    forall t | t in keys :: exists bytes :: t == Hex.Encode(bytes)
  }

  lemma TableCanonical(users: Users, keys: KeyTable)
    requires TableOk(users, keys)
    ensures Canonical(keys)
  {
    forall t | t in keys ensures exists bytes :: t == Hex.Encode(bytes) {
      var u := users[keys[t]];
      assert HoldsKey(u, t);
      var i :| 0 <= i < |u.identities| && u.identities[i].KeyText() == t;
      assert t == Hex.Encode(u.identities[i].key);
    }
  }

  /** An unlisted key is found free, however it is spelled. */
  lemma UnlistedIsFree(keys: KeyTable, publicKey: string, uid: uint64)
    requires Canonical(keys) && ValidatePubkey(publicKey).Some? && Hex.Encode(ValidatePubkey(publicKey).value) !in keys
    ensures CheckKey(keys, publicKey, uid) == KeyFree
  {
    if publicKey in keys {
      var bytes :| publicKey == Hex.Encode(bytes);
      Hex.DecodeOfEncode(bytes);
      assert false;
    }
  }

  // ---------------------------------------------------------------- requests

  /** A key, the token drawn for it, and the times it is asked for and verified. */
  datatype Request = Request(publicKey: string, token: seq<byte>, asked: Time, verified: Time)

  predicate Proper(r: Request) {
    ValidatePubkey(r.publicKey).Some? && r.asked <= r.verified <= r.asked + VERIFICATION_EXPIRY
  }

  function KeyBytes(r: Request): seq<byte>
    requires Proper(r)
  {
    ValidatePubkey(r.publicKey).value
  }

  predicate Unlisted(keys: KeyTable, r: Request)
    requires Proper(r)
  {
    Hex.Encode(KeyBytes(r)) !in keys
  }

  function Ask(r: Request): Call {
    Call(OpNewIdentity(r.publicKey, r.token, KeyFree), r.asked)
  }

  function Verify(r: Request): Call {
    Call(OpVerifyNewIdentity(Hex.Encode(r.token), true), r.verified)
  }

  function Pending(r: Request): Identity
    requires Proper(r)
  {
    Identity(KeyBytes(r), 0, 0)
  }

  /** A registered account that may ask for an identity at time t, over a table of lower-case texts. */
  ghost predicate MayAsk(a: Account, t: Time) {
    !a.user.IsVerified() && (a.user.identityToken.Some? ==> a.user.identityExpiry <= t) && Canonical(a.keys)
  }

  predicate Asked(u: User, r: Request) {
    u.identityToken == Some(r.token) && u.identityExpiry == r.asked + VERIFICATION_EXPIRY
  }

  lemma AskDone(a: Account, uid: uint64, r: Request) returns (b: Account)
    requires Proper(r) && MayAsk(a, r.asked) && Unlisted(a.keys, r)
    ensures Leads(a, uid, Ask(r), b) && !b.user.IsVerified() && Asked(b.user, r)
    ensures b.user.identities == a.user.identities + [Pending(r)]
    ensures b.keys == a.keys[Hex.Encode(KeyBytes(r)) := uid] && Canonical(b.keys)
  {
    UnlistedIsFree(a.keys, r.publicKey, uid);
    b := Serve(a, uid, Ask(r));
    NewText(a.keys, KeyBytes(r), uid);
  }

  lemma NewText(keys: KeyTable, bytes: seq<byte>, uid: uint64)
    requires Canonical(keys)
    ensures Canonical(keys[Hex.Encode(bytes) := uid])
  {
  }

  lemma VerifyDone(a: Account, uid: uint64, r: Request) returns (b: Account)
    requires !a.user.IsVerified() && Proper(r) && Asked(a.user, r) && a.user.identities != []
    ensures Leads(a, uid, Verify(r), b) && !b.user.IsVerified() && b.keys == a.keys
    ensures b.user.identities == Rotate(a.user.identities, r.verified)
    ensures b.user.identityToken == Some([]) && b.user.identityExpiry == 0
  {
    Hex.DecodeOfEncode(r.token);
    b := Serve(a, uid, Verify(r));
  }

  lemma AskAndVerify(a: Account, uid: uint64, r: Request) returns (b: Account, d: Account)
    requires Proper(r) && MayAsk(a, r.asked) && Unlisted(a.keys, r)
    ensures Leads(a, uid, Ask(r), b) && Leads(b, uid, Verify(r), d)
    ensures d.user.identities == Rotate(a.user.identities + [Pending(r)], r.verified)
    ensures !d.user.IsVerified() && d.user.identityExpiry == 0
    ensures d.keys == a.keys[Hex.Encode(KeyBytes(r)) := uid] && Canonical(d.keys)
  {
    b := AskDone(a, uid, r);
    d := VerifyDone(b, uid, r);
  }

  // ---------------------------------------------------------------- the run

  /** A request, a second one after the first has lapsed, its verification, and a third request that is verified. */
  function Abandoning(r1: Request, r2: Request, r3: Request): seq<Call> {
    [Ask(r1), Ask(r2), Verify(r2), Ask(r3), Verify(r3)]
  }

  lemma AbandoningIs(r1: Request, r2: Request, r3: Request)
    ensures Abandoning(r1, r2, r3) == [Ask(r1)] + ([Ask(r2)] + ([Verify(r2)] + ([Ask(r3)] + ([Verify(r3)] + []))))
  {
  }

  lemma FiveCalls(a: Account, a1: Account, a2: Account, a3: Account, a4: Account, a5: Account, uid: uint64,
                  c1: Call, c2: Call, c3: Call, c4: Call, c5: Call)
    requires Leads(a, uid, c1, a1) && Leads(a1, uid, c2, a2) && Leads(a2, uid, c3, a3)
    requires Leads(a3, uid, c4, a4) && Leads(a4, uid, c5, a5)
    ensures Reaches(a, uid, [c1] + ([c2] + ([c3] + ([c4] + ([c5] + [])))), a5)
  {
    ReachesFirst(a4, uid, c5, a5, [], a5);
    ReachesFirst(a3, uid, c4, a4, [c5] + [], a5);
    ReachesFirst(a2, uid, c3, a3, [c4] + ([c5] + []), a5);
    ReachesFirst(a1, uid, c2, a2, [c3] + ([c4] + ([c5] + [])), a5);
    ReachesFirst(a, uid, c1, a1, [c2] + ([c3] + ([c4] + ([c5] + []))), a5);
  }

  /** Three requests for different unlisted keys, the second after the first has lapsed. */
  predicate ThreeRequests(keys: KeyTable, r1: Request, r2: Request, r3: Request) {
    && Proper(r1) && Proper(r2) && Proper(r3)
    && r1.asked + VERIFICATION_EXPIRY <= r2.asked && r2.verified <= r3.asked
    && Unlisted(keys, r1) && Unlisted(keys, r2) && Unlisted(keys, r3)
    && KeyBytes(r1) != KeyBytes(r2) && KeyBytes(r1) != KeyBytes(r3) && KeyBytes(r2) != KeyBytes(r3)
  }

  lemma StillUnlisted(keys: KeyTable, uid: uint64, r: Request, other: Request)
    requires Proper(r) && Proper(other) && Unlisted(keys, r) && KeyBytes(r) != KeyBytes(other)
    ensures Unlisted(keys[Hex.Encode(KeyBytes(other)) := uid], r)
  {
    if Hex.Encode(KeyBytes(r)) == Hex.Encode(KeyBytes(other)) {
      Hex.EncodeInjective(KeyBytes(r), KeyBytes(other));
    }
  }

  lemma AbandonedCalls(a: Account, uid: uint64, r1: Request, r2: Request, r3: Request) returns (b: Account)
    requires ThreeRequests(a.keys, r1, r2, r3) && MayAsk(a, r1.asked)
    ensures Reaches(a, uid, Abandoning(r1, r2, r3), b)
    ensures b.user.identities ==
              Rotate(Rotate(a.user.identities + [Pending(r1)] + [Pending(r2)], r2.verified) + [Pending(r3)],
                  r3.verified)
  {
    var a1 := AskDone(a, uid, r1);
    StillUnlisted(a.keys, uid, r2, r1);
    StillUnlisted(a.keys, uid, r3, r1);
    var a2, a3 := AskAndVerify(a1, uid, r2);
    StillUnlisted(a1.keys, uid, r3, r2);
    var a4, a5 := AskAndVerify(a3, uid, r3);
    b := a5;
    FiveCalls(a, a1, a2, a3, a4, a5, uid, Ask(r1), Ask(r2), Verify(r2), Ask(r3), Verify(r3));
    AbandoningIs(r1, r2, r3);
  }

  /** Two identities in use, of which ActiveIdentity returns the older. */
  predicate TwoInUse(ids: seq<Identity>) {
    |ids| >= 2 && ids[|ids| - 1].IsActive() && FirstActive(ids) == Some(|ids| - 2) && !OneActive(ids)
  }

  /** The hypothesis of IdentityRotation is needed: for every registered user whose only identity in use is the
      newest, with no unexpired request, and any three keys that are not in the key table, a request that lapses
      unverified and two more that are verified are all accepted, and leave two active identities, of which
      ActiveIdentity returns the older. */
  lemma AbandonedRequestRun(users: Users, keys: KeyTable, uid: uint64, r1: Request, r2: Request, r3: Request)
    requires TableOk(users, keys) && uid in users && ThreeRequests(keys, r1, r2, r3)
    requires !users[uid].IsVerified() && Settled(users[uid].identities)
    requires users[uid].identityToken.Some? ==> users[uid].identityExpiry <= r1.asked
    ensures exists b :: Reaches(Account(users[uid], keys), uid, Abandoning(r1, r2, r3), b) &&
              TwoInUse(b.user.identities)
  {
    TableCanonical(users, keys);
    var b := AbandonedCalls(Account(users[uid], keys), uid, r1, r2, r3);
    TwoRotations(users[uid].identities, Pending(r1), Pending(r2), Pending(r3), r2.verified, r3.verified);
  }

  lemma TwoRotations(ids: seq<Identity>, p1: Identity, p2: Identity, p3: Identity, t1: Time, t2: Time)
    requires Settled(ids) && IsPending(p1) && IsPending(p2) && IsPending(p3)
    ensures TwoInUse(Rotate(Rotate(ids + [p1] + [p2], t1) + [p3], t2))
  {
    var n := |ids|;
    var before := ids + [p1] + [p2];
    assert before[..n - 1] == ids[..n - 1];
    DeactivateFirstShape(before, t1, n - 1);
    var past := ids[..n - 1] + [ids[n - 1].(deactivated := t1)];
    assert Rotate(before, t1) == past + [p1] + [p2.(activated := t1)];
    RotateAgain(past, p1, p2.(activated := t1), p3, t2);
  }

  lemma RotateAgain(past: seq<Identity>, p1: Identity, a: Identity, p3: Identity, t: Time)
    requires AllDeactivated(past) && IsPending(p1) && a.IsActive() && IsPending(p3)
    ensures TwoInUse(Rotate(past + [p1] + [a] + [p3], t))
  {
    var n := |past|;
    var ids := past + [p1] + [a] + [p3];
    assert ids[..n] == past;
    DeactivateFirstShape(ids, t, n);
    var twice := Rotate(ids, t);
    assert twice == past + [p1.(deactivated := t)] + [a] + [p3.(activated := t)];
    assert twice[n + 1].IsActive() && twice[n + 2].IsActive();
    assert forall i | 0 <= i < n :: twice[i] == past[i];
  }
}
