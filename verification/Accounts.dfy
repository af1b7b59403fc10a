/** The user lifecycle: what each handler makes of one user record. A handler loads the record, overwrites
    fields and saves it; a refused call leaves it as it was, except for a login with a wrong password. */
module Accounts {
  import opened Wrappers
  import opened MachineInts
  import opened Database
  import Encoding
  import Hex

  const LOGIN_ATTEMPTS_TO_LOCK := 5
  const VERIFICATION_EXPIRY := 48 * 60 * 60
  const ADMIN_EXPIRY_SHIFT := 168 * 60 * 60
  const MIN_PASSWORD_LENGTH := 8

  /** Unix seconds, read from the clock by each call. */
  type Time = t: int | 0 < t < 0x4000_0000_0000_0000 witness 1

  datatype Error =
    | TokenInvalid
    | TokenExpired
    | TokenUnexpired
    | InvalidPublicKey
    | DuplicatePublicKey
    | UsernameRejected
    | MalformedPassword
    | InvalidSignature
    | InvalidEmailOrPassword
    | UserLocked
    | UserAlreadyExists
    | ReasonNotProvided
    | Crashed        // an index past the end of an empty slice
    | DatabaseError  // a unique column refused the row

  /** What the identities table says of a new key: taken for validatePubkeyIsUnique, in conflict with the unique
      column, or free. */
  datatype KeyCheck = KeyFree | KeyTaken | KeyConflict

  datatype RegisterRequest = RegisterRequest(
    verificationToken: string,
    publicKey: string,
    username: string,
    usernameAccepted: bool,
    password: seq<byte>,
    passwordHash: seq<byte>,
    name: string,
    location: string,
    extendedPublicKey: string,
    signatureValid: bool)

  predicate IsUserLocked(failedLoginAttempts: uint64) {
    failedLoginAttempts >= LOGIN_ATTEMPTS_TO_LOCK
  }

  /** bytes.Equal does not tell a nil slice from an empty one. */
  function Bytes(t: Token): seq<byte> {
    if t.Some? then t.value else []
  }

  function ValidatePubkey(publicKey: string): (r: Option<seq<byte>>)
    ensures r.Some? ==> |r.value| == KEY_SIZE && Hex.Decode(publicKey) == r
  {
    var pk :- Hex.Decode(publicKey);
    if |pk| != KEY_SIZE || (forall i | 0 <= i < |pk| :: pk[i] == 0) then None else Some(pk)
  }

  /** Decodes the supplied token, compares it with the stored one and checks the expiry. */
  function CheckToken(text: string, token: Token, expiry: int64, now: Time): Result<seq<byte>, Error> {
    match Hex.Decode(text)
    case None => Err(TokenInvalid)
    case Some(bytes) =>
      if bytes != Bytes(token) then Err(TokenInvalid)
      else if expiry < now then Err(TokenExpired)
      else Ok(bytes)
  }

  /** UpdateUser, followed by the next load. */
  function Save(u: User): User {
    Encoding.Normalize(u)
  }

  function Register(u: User, req: RegisterRequest, check: KeyCheck, now: Time): Result<User, Error> {
    var _ :- CheckToken(req.verificationToken, u.registerToken, u.registerExpiry, now);
    match ValidatePubkey(req.publicKey)
    case None => Err(InvalidPublicKey)
    case Some(pk) =>
      if !req.usernameAccepted then Err(UsernameRejected)
      else if |req.password| < MIN_PASSWORD_LENGTH then Err(MalformedPassword)
      else if check.KeyTaken? then Err(DuplicatePublicKey)
      else if !req.signatureValid then Err(InvalidSignature)
      else if check.KeyConflict? then Err(DatabaseError)
      else
        Ok(Save(u.(registerToken := Some([]),
                   registerExpiry := 0,
                   hashedPassword := Some(req.passwordHash),
                   username := req.username,
                   name := req.name,
                   location := req.location,
                   extendedPublicKey := req.extendedPublicKey,
                   identities := u.identities + [Identity(pk, now, 0)])))
  }

  function NewIdentity(u: User, publicKey: string, token: seq<byte>, check: KeyCheck, now: Time): Result<User, Error> {
    match ValidatePubkey(publicKey)
    case None => Err(InvalidPublicKey)
    case Some(pk) =>
      if check.KeyTaken? then Err(DuplicatePublicKey)
      else if u.identityToken.Some? && u.identityExpiry > now then Err(TokenUnexpired)
      else if check.KeyConflict? then Err(DatabaseError)
      else
        Ok(Save(u.(identityToken := Some(token),
                   identityExpiry := now + VERIFICATION_EXPIRY,
                   identities := u.identities + [Identity(pk, 0, 0)])))
  }

  /** The first identity that has not been deactivated gets the time of the switch. */
  function DeactivateFirst(ids: seq<Identity>, t: Time): (r: seq<Identity>)
    ensures |r| == |ids|
  {
    if ids == [] then []
    else if ids[0].deactivated == 0 then [ids[0].(deactivated := t)] + ids[1..]
    else [ids[0]] + DeactivateFirst(ids[1..], t)
  }

  /** The loop and the two assignments of HandleVerifyNewIdentity. */
  function Rotate(ids: seq<Identity>, t: Time): (r: seq<Identity>)
    requires ids != []
    ensures |r| == |ids|
  {
    var switched := DeactivateFirst(ids, t);
    switched[|ids| - 1 := switched[|ids| - 1].(activated := t, deactivated := 0)]
  }

  function VerifyNewIdentity(u: User, text: string, signatureValid: bool, now: Time): Result<User, Error> {
    var _ :- CheckToken(text, u.identityToken, u.identityExpiry, now);
    if u.identities == [] then Err(Crashed)
    else if !signatureValid then Err(InvalidSignature)
    else Ok(Save(u.(identityToken := Some([]), identityExpiry := 0, identities := Rotate(u.identities, now))))
  }

  /** emailResetPassword: an unexpired token is kept, and the call still succeeds. */
  function RequestReset(u: User, token: seq<byte>, now: Time): User {
    if u.resetToken.Some? && u.resetExpiry > now then u
    else Save(u.(resetToken := Some(token), resetExpiry := now + VERIFICATION_EXPIRY))
  }

  function VerifyReset(u: User, text: string, newPassword: seq<byte>, passwordHash: seq<byte>,
                       now: Time): Result<User, Error> {
    var _ :- CheckToken(text, u.resetToken, u.resetExpiry, now);
    if |newPassword| < MIN_PASSWORD_LENGTH then Err(MalformedPassword)
    else
      Ok(Save(u.(resetToken := Some([]), resetExpiry := 0, hashedPassword := Some(passwordHash),
          failedLoginAttempts := 0)))
  }

  /** HandleResetPassword: an empty token asks for one, anything else tries to redeem it. */
  function ResetPassword(u: User, text: string, newPassword: seq<byte>, passwordHash: seq<byte>, token: seq<byte>,
                         now: Time): Result<User, Error> {
    if text == "" then Ok(RequestReset(u, token, now)) else VerifyReset(u, text, newPassword, passwordHash, now)
  }

  /** HandleEditUserExtendedPublicKey: the redeeming half compares the texts rather than the bytes. */
  function EditExtendedPublicKey(u: User, text: string, extendedPublicKey: string, token: seq<byte>,
                                 now: Time): Result<User, Error> {
    if text == "" then
      Ok(if u.xpubToken.Some? && u.xpubExpiry > now then u
         else Save(u.(xpubToken := Some(token), xpubExpiry := now + VERIFICATION_EXPIRY)))
    else if text != Hex.Encode(Bytes(u.xpubToken)) then Err(TokenInvalid)
    else if u.xpubExpiry < now then Err(TokenExpired)
    else Ok(Save(u.(extendedPublicKey := extendedPublicKey, xpubToken := Some([]), xpubExpiry := 0)))
  }

  /** login: a wrong password counts while the account is not locked; a right one is refused while it is. */
  function Login(u: User, passwordMatches: bool, now: Time): (User, Result<(), Error>) {
    if u.IsVerified() then (u, Err(InvalidEmailOrPassword))
    else if !passwordMatches then
      (if IsUserLocked(u.failedLoginAttempts) then u else Save(u.(failedLoginAttempts := u.failedLoginAttempts + 1)),
       Err(InvalidEmailOrPassword))
    else if IsUserLocked(u.failedLoginAttempts) then (u, Err(UserLocked))
    else (Save(u.(failedLoginAttempts := 0, lastLogin := now)), Ok(()))
  }

  function ResendInvite(u: User, token: seq<byte>, now: Time): Result<User, Error> {
    if !u.IsVerified() then Err(UserAlreadyExists)
    else Ok(Save(u.(registerToken := Some(token), registerExpiry := now + VERIFICATION_EXPIRY)))
  }

  function ExpireIdentityToken(u: User, now: Time): User {
    Save(u.(identityExpiry := now - ADMIN_EXPIRY_SHIFT))
  }

  /** An administrator's expiry of a token that was never issued does not survive the row: what is stored and loaded
      is another user. */
  lemma ExpiryWithoutToken(u: User, now: Time)
    requires u.identityToken.None? && Encoding.KeysSized(u.identities) && now != ADMIN_EXPIRY_SHIFT
    ensures var v := u.(identityExpiry := now - ADMIN_EXPIRY_SHIFT);
            Encoding.DecodeUser(Encoding.EncodeUser(v)) != Some(v)
  {
    Encoding.UserRoundTripIff(u.(identityExpiry := now - ADMIN_EXPIRY_SHIFT));
  }

  function Unlock(u: User): User {
    Save(u.(failedLoginAttempts := 0))
  }

  function Lock(u: User, reason: string): Result<User, Error> {
    if reason == "" then Err(ReasonNotProvided) else Ok(Save(u.(failedLoginAttempts := LOGIN_ATTEMPTS_TO_LOCK)))
  }

  function ChangePassword(u: User, currentMatches: bool, newPassword: seq<byte>,
                          passwordHash: seq<byte>): Result<User, Error> {
    if !currentMatches then Err(InvalidEmailOrPassword)
    else if |newPassword| < MIN_PASSWORD_LENGTH then Err(MalformedPassword)
    else Ok(Save(u.(hashedPassword := Some(passwordHash))))
  }

  /** One call on one user. `token` is what the random generator would hand out during the call. */
  datatype Op =
    | OpRegister(req: RegisterRequest, check: KeyCheck)
    | OpNewIdentity(publicKey: string, token: seq<byte>, check: KeyCheck)
    | OpVerifyNewIdentity(text: string, signatureValid: bool)
    | OpResetPassword(text: string, newPassword: seq<byte>, passwordHash: seq<byte>, token: seq<byte>)
    | OpEditExtendedPublicKey(text: string, extendedPublicKey: string, token: seq<byte>)
    | OpLogin(passwordMatches: bool)
    | OpResendInvite(token: seq<byte>)
    | OpExpireIdentityToken
    | OpUnlock
    | OpLock(reason: string)
    | OpChangePassword(currentMatches: bool, newPassword: seq<byte>, passwordHash: seq<byte>)

  /** The routes behind a login are closed to a user who has not registered yet. */
  predicate CanCall(u: User, op: Op) {
    op.OpNewIdentity? || op.OpVerifyNewIdentity? || op.OpEditExtendedPublicKey? || op.OpChangePassword? ==>
      !u.IsVerified()
  }

  function Verdict(r: Result<User, Error>): Result<(), Error> {
    match r
    case Ok(_) => Ok(())
    case Err(e) => Err(e)
  }

  function Try(u: User, r: Result<User, Error>): (User, Result<(), Error>) {
    (if r.Ok? then r.value else u, Verdict(r))
  }

  function Apply(u: User, op: Op, now: Time): (User, Result<(), Error>) {
    match op
    case OpRegister(req, check) => Try(u, Register(u, req, check, now))
    case OpNewIdentity(publicKey, token, check) => Try(u, NewIdentity(u, publicKey, token, check, now))
    case OpVerifyNewIdentity(text, signatureValid) => Try(u, VerifyNewIdentity(u, text, signatureValid, now))
    case OpResetPassword(text, newPassword, hash, token) =>
        Try(u, ResetPassword(u, text, newPassword, hash, token, now))
    case OpEditExtendedPublicKey(text, xpub, token) => Try(u, EditExtendedPublicKey(u, text, xpub, token, now))
    case OpLogin(passwordMatches) => Login(u, passwordMatches, now)
    case OpResendInvite(token) => Try(u, ResendInvite(u, token, now))
    case OpExpireIdentityToken => (ExpireIdentityToken(u, now), Ok(()))
    case OpUnlock => (Unlock(u), Ok(()))
    case OpLock(reason) => Try(u, Lock(u, reason))
    case OpChangePassword(currentMatches, newPassword, hash) =>
        Try(u, ChangePassword(u, currentMatches, newPassword, hash))
  }

  // ---------------------------------------------------------------- the identities table

  type Users = map<uint64, User>

  /** A user by invitation. */
  function Invited(uid: uint64, email: string, token: seq<byte>, now: Time): User {
    User(uid, email, "", "", "", "", None, false, Some(token), now + VERIFICATION_EXPIRY, None, 0, None, 0, None, 0, 0,
        0, 0, 0, [])
  }

  predicate HasEmail(users: Users, email: string) {
    exists a | a in users :: users[a].email == email
  }

  /** The unique column of the users table. */
  predicate UniqueEmails(users: Users) {
    forall a, b | a in users && b in users && users[a].email == users[b].email :: a == b
  }

  /** No call changes an address. */
  lemma ApplyKeepsEmails(users: Users, uid: uint64, op: Op, now: Time)
    requires UniqueEmails(users) && uid in users
    ensures UniqueEmails(users[uid := Apply(users[uid], op, now).0])
  {
  }

  /** The identities table, by its unique key column: the lower-case text of a key and the user it belongs to. */
  type KeyTable = map<string, uint64>

  /** validatePubkeyIsUnique looks up the text of the request: no owner, or the caller. Id 0 is what a failed
      lookup reports. */
  predicate PubkeyIsUnique(keys: KeyTable, publicKey: string, uid: uint64) {
    publicKey !in keys || keys[publicKey] == 0 || keys[publicKey] == uid
  }

  /** The check on the request's text, then the unique column on the stored text. */
  function CheckKey(keys: KeyTable, publicKey: string, uid: uint64): KeyCheck {
    if !PubkeyIsUnique(keys, publicKey, uid) then KeyTaken
    else
      match ValidatePubkey(publicKey)
      case None => KeyFree
      case Some(pk) => if Hex.Encode(pk) in keys then KeyConflict else KeyFree
  }

  /** The calls that present a key get the verdict of the table they run against. */
  predicate ChecksAgree(keys: KeyTable, uid: uint64, op: Op) {
    && (op.OpRegister? ==> op.check == CheckKey(keys, op.req.publicKey, uid))
    && (op.OpNewIdentity? ==> op.check == CheckKey(keys, op.publicKey, uid))
  }

  /** The table after a user is saved: a new identity adds its row. */
  function KeysAfter(keys: KeyTable, uid: uint64, u: User, v: User): KeyTable {
    if |v.identities| > |u.identities| then keys[v.identities[|v.identities| - 1].KeyText() := uid] else keys
  }

  predicate HoldsKey(u: User, keyText: string) {
    exists i | 0 <= i < |u.identities| :: u.identities[i].KeyText() == keyText
  }

  /** The table lists exactly the users' keys. */
  predicate TableOk(users: Users, keys: KeyTable) {
    && 0 !in users
    && (forall uid | uid in users :: KeysListed(users[uid], uid, keys))
    && (forall keyText | keyText in keys :: keys[keyText] in users && HoldsKey(users[keys[keyText]], keyText))
  }

  predicate KeysListed(u: User, uid: uint64, keys: KeyTable) {
    forall i | 0 <= i < |u.identities| ::
      |u.identities[i].key| == KEY_SIZE && u.identities[i].KeyText() in keys && keys[u.identities[i].KeyText()] == uid
  }

  /** For a well-formed key that another user holds, validatePubkeyIsUnique refuses the request if and only if
      the request spells the key without upper-case digits; otherwise only the unique column stops it. */
  lemma UniquenessCheckIff(users: Users, keys: KeyTable, publicKey: string, uid: uint64, holder: uint64, i: nat)
    requires TableOk(users, keys) && ValidatePubkey(publicKey).Some?
    requires holder in users && holder != uid && i < |users[holder].identities|
    requires users[holder].identities[i].key == ValidatePubkey(publicKey).value
    ensures !PubkeyIsUnique(keys, publicKey, uid) <==> forall k | 0 <= k < |publicKey| :: !('A' <= publicKey[k] <= 'F')
    ensures CheckKey(keys, publicKey, uid) != KeyFree
  {
    var pk := ValidatePubkey(publicKey).value;
    Hex.CanonicalIff(publicKey);
    assert KeysListed(users[holder], holder, keys);
    assert users[holder].identities[i].KeyText() == Hex.Encode(pk);
    if publicKey in keys {
      var owner := users[keys[publicKey]];
      assert HoldsKey(owner, publicKey);
      var j :| 0 <= j < |owner.identities| && owner.identities[j].KeyText() == publicKey;
      Hex.DecodeOfEncode(owner.identities[j].key);
    }
  }

  lemma UpperCaseSpelling(tail: seq<byte>) returns (publicKey: string)
    requires |tail| == 31
    ensures ValidatePubkey(publicKey) == Some([0xAB] + tail) && publicKey[0] == 'A'
  {
    publicKey := "Ab" + Hex.Encode(tail);
    assert publicKey[2..] == Hex.Encode(tail);
    Hex.DecodeOfEncode(tail);
    assert Hex.HexValue('A') == Some(10) && Hex.HexValue('b') == Some(11);
    assert Hex.Decode(publicKey) == Some([16 * 10 + 11] + tail);
    assert ([0xAB] + tail)[0] != 0;
  }

  /** An upper-case spelling that the check lets through although another user holds the key. */
  lemma UpperCaseKeyIsMissed(holder: User, tail: seq<byte>) returns (publicKey: string)
    requires |tail| == 31 && |holder.identities| == 1 && holder.identities[0].key == [0xAB] + tail
    ensures TableOk(map[1 := holder], map[Hex.Encode([0xAB] + tail) := 1])
    ensures ValidatePubkey(publicKey) == Some(holder.identities[0].key)
    ensures PubkeyIsUnique(map[Hex.Encode([0xAB] + tail) := 1], publicKey, 2)
  {
    publicKey := UpperCaseSpelling(tail);
    var users: Users := map[1 := holder];
    var keys: KeyTable := map[Hex.Encode([0xAB] + tail) := 1];
    assert holder.identities[0].KeyText() in keys;
    UniquenessCheckIff(users, keys, publicKey, 2, 1, 0);
  }

  /** What every call keeps: id, address index and the stored keys, to which one new key may be appended. */
  predicate KeysFramed(u: User, v: User) {
    && v.id == u.id
    && v.paymentAddressIndex == u.paymentAddressIndex
    && |u.identities| <= |v.identities| <= |u.identities| + 1
    && forall i | 0 <= i < |u.identities| :: v.identities[i].key == u.identities[i].key
  }

  /** A key is only appended by the two calls that present one, and only when the table found it free. */
  predicate AddsFreeKey(op: Op, key: seq<byte>) {
    || (op.OpRegister? && op.check.KeyFree? && ValidatePubkey(op.req.publicKey) == Some(key))
    || (op.OpNewIdentity? && op.check.KeyFree? && ValidatePubkey(op.publicKey) == Some(key))
  }

  /** No call removes, reorders or rewrites a key, or touches the address index; at most one free key is added. */
  lemma ApplyFrame(u: User, op: Op, now: Time)
    ensures KeysFramed(u, Apply(u, op, now).0)
    ensures |Apply(u, op, now).0.identities| > |u.identities| ==>
              AddsFreeKey(op, Apply(u, op, now).0.identities[|u.identities|].key)
  {
    match op
    case OpVerifyNewIdentity(text, signatureValid) =>
      if u.identities != [] {
        RotateKeepsKeys(u.identities, now);
      }
    case _ =>
  }

  lemma {:induction false} DeactivateKeepsKeys(ids: seq<Identity>, t: Time)
    ensures forall i | 0 <= i < |ids| :: DeactivateFirst(ids, t)[i].key == ids[i].key
  {
    if ids != [] && ids[0].deactivated != 0 {
      DeactivateKeepsKeys(ids[1..], t);
    }
  }

  lemma RotateKeepsKeys(ids: seq<Identity>, t: Time)
    requires ids != []
    ensures forall i | 0 <= i < |ids| :: Rotate(ids, t)[i].key == ids[i].key
  {
    DeactivateKeepsKeys(ids, t);
  }

  /** With the table's own verdicts, every call leaves a table that lists exactly the users' keys, and no listed
      key changes its owner. */
  lemma ApplyKeepsOwners(users: Users, keys: KeyTable, uid: uint64, op: Op, now: Time)
    requires TableOk(users, keys) && uid in users && ChecksAgree(keys, uid, op)
    ensures var v := Apply(users[uid], op, now).0;
            var keys' := KeysAfter(keys, uid, users[uid], v);
            TableOk(users[uid := v], keys') && forall keyText | keyText in keys ::
                keyText in keys' && keys'[keyText] == keys[keyText]
  {
    var v := Apply(users[uid], op, now).0;
    ApplyFrame(users[uid], op, now);
    if |v.identities| > |users[uid].identities| {
      NewKeyIsFree(keys, uid, op, v.identities[|users[uid].identities|].key);
    }
    FrameKeepsOwners(users, keys, uid, v);
  }

  lemma NewKeyIsFree(keys: KeyTable, uid: uint64, op: Op, key: seq<byte>)
    requires ChecksAgree(keys, uid, op) && AddsFreeKey(op, key)
    ensures |key| == KEY_SIZE && Hex.Encode(key) !in keys
  {
  }

  /** Saving a user who gained at most one unlisted key keeps the table in order. */
  lemma FrameKeepsOwners(users: Users, keys: KeyTable, uid: uint64, v: User)
    requires TableOk(users, keys) && uid in users && KeysFramed(users[uid], v)
    requires |v.identities| > |users[uid].identities| ==>
               var key := v.identities[|users[uid].identities|].key;
               |key| == KEY_SIZE && Hex.Encode(key) !in keys
    ensures var keys' := KeysAfter(keys, uid, users[uid], v);
            TableOk(users[uid := v], keys') && forall keyText | keyText in keys ::
                keyText in keys' && keys'[keyText] == keys[keyText]
  {
    var u := users[uid];
    var keys' := KeysAfter(keys, uid, u, v);
    assert KeysListed(u, uid, keys);
    if |v.identities| > |u.identities| {
      assert v.identities[|v.identities| - 1].KeyText() !in keys;
    }
    assert KeysListed(v, uid, keys') by {
      forall i | 0 <= i < |v.identities|
        ensures |v.identities[i].key| == KEY_SIZE && v.identities[i].KeyText() in keys' &&
                  keys'[v.identities[i].KeyText()] == uid
      {
        if i < |u.identities| {
          assert v.identities[i].KeyText() == u.identities[i].KeyText();
        }
      }
    }
    forall a | a in users && a != uid ensures KeysListed(users[a], a, keys') {
      assert KeysListed(users[a], a, keys);
    }
    forall keyText | keyText in keys'
      ensures keys'[keyText] in users && HoldsKey(users[uid := v][keys'[keyText]], keyText) {
      if keyText in keys {
        HeldStays(users, uid, v, keys[keyText], keyText);
      } else {
        assert v.identities[|v.identities| - 1].KeyText() == keyText;
      }
    }
  }

  lemma HeldStays(users: Users, uid: uint64, v: User, owner: uint64, keyText: string)
    requires uid in users && owner in users && HoldsKey(users[owner], keyText) && KeysFramed(users[uid], v)
    ensures HoldsKey(users[uid := v][owner], keyText)
  {
    var i :| 0 <= i < |users[owner].identities| && users[owner].identities[i].KeyText() == keyText;
    assert users[uid := v][owner].identities[i].KeyText() == keyText;
  }
}
