/** The user handlers over stored state: each loads a record, overwrites its fields and stores it. */
module AccountServer {
  import opened Wrappers
  import opened MachineInts
  import opened Database
  import opened Accounts
  import Encoding
  import Hex

  /** A stored user is read back as saved, and the table stays in order with its new key. */
  lemma StoredInOrder(users: Users, keys: KeyTable, uid: uint64, user: User)
    requires TableOk(users, keys) && uid in users && Encoding.KeysSized(user.identities)
    requires KeysFramed(users[uid], user)
    requires |user.identities| > |users[uid].identities| ==>
               user.identities[|user.identities| - 1].KeyText() !in keys
    ensures Encoding.DecodeUser(Encoding.EncodeUser(user)) == Some(Save(user))
    ensures TableOk(users[uid := Save(user)], KeysAfter(keys, uid, users[uid], user))
  {
    FrameKeepsOwners(users, keys, uid, Save(user));
    Encoding.UserRoundTrip(user);
  }

  class Server {
    var users: Users
    var keys: KeyTable

    ghost predicate Valid()
      reads this
    {
      TableOk(users, keys)
    }

    constructor ()
      ensures Valid() && users == map[] && keys == map[]
    {
      users, keys := map[], map[];
    }

    /** What a handler's outcome means for the tables: a refusal changes nothing, a success stores one record. */
    twostate predicate Stored(uid: uint64, r: Result<User, Error>)
      requires uid in old(users)
      reads this
    {
      match r
      case Ok(v) => users == old(users)[uid := v] && keys == KeysAfter(old(keys), uid, old(users)[uid], v)
      case Err(_) => users == old(users) && keys == old(keys)
    }

    method GetUserIdByPublicKey(publicKey: string) returns (owner: uint64)
      ensures owner == if publicKey in keys then keys[publicKey] else 0
    {
      owner := if publicKey in keys then keys[publicKey] else 0;
    }

    method ValidatePubkeyIsUnique(publicKey: string, uid: uint64) returns (unique: bool)
      ensures unique == PubkeyIsUnique(keys, publicKey, uid)
    {
      var owner := GetUserIdByPublicKey(publicKey);
      if owner == 0 {
        return true;
      }
      return owner == uid;
    }

    /** UpdateUser: the record goes through its row. A new identity whose key is already listed is refused by the
        unique column, and then nothing is stored. */
    method UpdateUser(uid: uint64, user: User) returns (ok: bool)
      requires Valid() && uid in users && Encoding.KeysSized(user.identities) && KeysFramed(users[uid], user)
      modifies this
      ensures Valid()
      ensures ok <==> (|user.identities| > |old(users)[uid].identities| ==>
                         user.identities[|user.identities| - 1].KeyText() !in old(keys))
      ensures ok ==> users == old(users)[uid := Save(user)] && keys == KeysAfter(old(keys), uid, old(users)[uid], user)
      ensures !ok ==> users == old(users) && keys == old(keys)
    {
      var count := |user.identities|;
      if count > |users[uid].identities| && user.identities[count - 1].KeyText() in keys {
        return false;
      }
      StoredInOrder(users, keys, uid, user);
      var row := Encoding.EncodeUser(user);
      var stored := Encoding.DecodeUser(row);
      if count > |users[uid].identities| {
        keys := keys[user.identities[count - 1].KeyText() := uid];
      }
      users := users[uid := stored.value];
      return true;
    }

    /** GetUserByEmail compares the text as it is. */
    method GetUserByEmail(email: string) returns (r: Option<uint64>)
      ensures r.Some? ==> r.value in users && users[r.value].email == email
      ensures r.None? ==> !HasEmail(users, email)
    {
      var rest := users.Keys;
      while rest != {}
        invariant rest <= users.Keys
        invariant forall a | a in users && a !in rest :: users[a].email != email
        decreases |rest|
      {
        var a :| a in rest;
        if users[a].email == email {
          return Some(a);
        }
        rest := rest - {a};
      }
      return None;
    }

    /** HandleInviteNewUser: looks the address up as it was typed and stores it in lower case. An address in use
        blocks the invitation unless its own invitation has expired, and then the unique column does. */
    method HandleInviteNewUser(uid: uint64, email: string, lower: string, token: seq<byte>, now: Time)
      returns (reply: Result<(), Error>)
      requires Valid() && uid !in users && uid != 0 && UniqueEmails(users)
      modifies this
      ensures Valid() && UniqueEmails(users) && keys == old(keys)
      ensures forall a | a in old(users) && old(users)[a].email == email ::
                && (!old(users)[a].IsVerified() ==> reply == Err(UserAlreadyExists))
                && (old(users)[a].IsVerified() && old(users)[a].registerExpiry > now ==> reply == Err(TokenUnexpired))
      ensures (forall a | a in old(users) && old(users)[a].email == email ::
                old(users)[a].IsVerified() && old(users)[a].registerExpiry <= now) ==>
                reply == if HasEmail(old(users), lower) then Err(DatabaseError) else Ok(())
      ensures users == if reply.Ok? then old(users)[uid := Invited(uid, lower, token, now)] else old(users)
    {
      var existing := GetUserByEmail(email);
      if existing.Some? {
        if !users[existing.value].IsVerified() {
          return Err(UserAlreadyExists);
        }
        if users[existing.value].registerExpiry > now {
          return Err(TokenUnexpired);
        }
      }
      var taken := GetUserByEmail(lower);
      if taken.Some? {
        return Err(DatabaseError);
      }
      InvitedListed(users, keys, uid, lower, token, now);
      users := users[uid := Invited(uid, lower, token, now)];
      return Ok(());
    }

    static lemma InvitedListed(users: Users, keys: KeyTable, uid: uint64, email: string, token: seq<byte>, now: Time)
      requires TableOk(users, keys) && uid !in users && uid != 0
      ensures TableOk(users[uid := Invited(uid, email, token, now)], keys)
    {
      var after := users[uid := Invited(uid, email, token, now)];
      forall a | a in after ensures KeysListed(after[a], a, keys) {
        if a != uid {
          assert KeysListed(users[a], a, keys);
        }
      }
    }

    method HandleRegister(uid: uint64, req: RegisterRequest, now: Time) returns (reply: Result<(), Error>)
      requires Valid() && uid in users
      modifies this
      ensures Stored(uid, Register(old(users)[uid], req, CheckKey(old(keys), req.publicKey, uid), now))
      ensures Valid() && reply == Verdict(Register(old(users)[uid], req, CheckKey(old(keys), req.publicKey, uid), now))
    {
      var user := users[uid];
      assert KeysListed(user, uid, keys);
      var token := Hex.Decode(req.verificationToken);
      if token.None? || token.value != Bytes(user.registerToken) {
        return Err(TokenInvalid);
      }
      if user.registerExpiry < now {
        return Err(TokenExpired);
      }
      var pk := ValidatePubkey(req.publicKey);
      if pk.None? {
        return Err(InvalidPublicKey);
      }
      if !req.usernameAccepted {
        return Err(UsernameRejected);
      }
      if |req.password| < MIN_PASSWORD_LENGTH {
        return Err(MalformedPassword);
      }
      var unique := ValidatePubkeyIsUnique(req.publicKey, uid);
      if !unique {
        return Err(DuplicatePublicKey);
      }
      if !req.signatureValid {
        return Err(InvalidSignature);
      }
      user := user.(registerToken := Some([]), registerExpiry := 0, hashedPassword := Some(req.passwordHash));
      user := user.(username := req.username, name := req.name, location := req.location,
          extendedPublicKey := req.extendedPublicKey);
      user := user.(identities := user.identities + [Identity(pk.value, now, 0)]);
      var ok := UpdateUser(uid, user);
      return if ok then Ok(()) else Err(DatabaseError);
    }

    method HandleNewIdentity(uid: uint64, publicKey: string, token: seq<byte>, now: Time)
      returns (reply: Result<(), Error>)
      requires Valid() && uid in users
      modifies this
      ensures Stored(uid, NewIdentity(old(users)[uid], publicKey, token, CheckKey(old(keys), publicKey, uid), now))
      ensures Valid() && reply == Verdict(NewIdentity(old(users)[uid], publicKey, token,
                CheckKey(old(keys), publicKey, uid), now))
    {
      var user := users[uid];
      assert KeysListed(user, uid, keys);
      var pk := ValidatePubkey(publicKey);
      if pk.None? {
        return Err(InvalidPublicKey);
      }
      var unique := ValidatePubkeyIsUnique(publicKey, uid);
      if !unique {
        return Err(DuplicatePublicKey);
      }
      if user.identityToken.Some? {
        if user.identityExpiry > now {
          return Err(TokenUnexpired);
        }
      }
      user := user.(identityToken := Some(token));
      user := user.(identityExpiry := now + VERIFICATION_EXPIRY);
      user := user.(identities := user.identities + [Identity(pk.value, 0, 0)]);
      var ok := UpdateUser(uid, user);
      return if ok then Ok(()) else Err(DatabaseError);
    }

    /** The loop of HandleVerifyNewIdentity, which stops at the first identity that is not deactivated. */
    method RotateIdentities(ids: seq<Identity>, t: Time) returns (r: seq<Identity>)
      requires ids != []
      ensures r == Rotate(ids, t)
    {
      r := ids;
      var k := 0;
      var stopped := false;
      while k < |ids| && !stopped
        invariant k <= |ids|
        invariant forall j | 0 <= j < k :: ids[j].deactivated != 0
        invariant !stopped ==> r == ids
        invariant stopped ==> k < |ids| && ids[k].deactivated == 0 && r == ids[k := ids[k].(deactivated := t)]
        decreases |ids| - k, !stopped
      {
        if r[k].deactivated == 0 {
          r := r[k := r[k].(deactivated := t)];
          stopped := true;
        } else {
          k := k + 1;
        }
      }
      DeactivatedAt(ids, t, k);
      r := r[|ids| - 1 := r[|ids| - 1].(activated := t)];
      r := r[|ids| - 1 := r[|ids| - 1].(deactivated := 0)];
    }

    static lemma {:induction false} DeactivatedAt(ids: seq<Identity>, t: Time, k: nat)
      requires k <= |ids| && forall j | 0 <= j < k :: ids[j].deactivated != 0
      requires k < |ids| ==> ids[k].deactivated == 0
      ensures DeactivateFirst(ids, t) == if k < |ids| then ids[k := ids[k].(deactivated := t)] else ids
    {
      if ids != [] && k > 0 {
        DeactivatedAt(ids[1..], t, k - 1);
        if k < |ids| {
          assert ids[k := ids[k].(deactivated := t)] == [ids[0]] + ids[1..][k - 1 := ids[k].(deactivated := t)];
        }
      }
    }

    method HandleVerifyNewIdentity(uid: uint64, text: string, signatureValid: bool, now: Time)
      returns (reply: Result<(), Error>)
      requires Valid() && uid in users
      modifies this
      ensures Stored(uid, VerifyNewIdentity(old(users)[uid], text, signatureValid, now))
      ensures Valid() && reply == Verdict(VerifyNewIdentity(old(users)[uid], text, signatureValid, now))
    {
      var user := users[uid];
      assert KeysListed(user, uid, keys);
      var token := Hex.Decode(text);
      if token.None? || token.value != Bytes(user.identityToken) {
        return Err(TokenInvalid);
      }
      if user.identityExpiry < now {
        return Err(TokenExpired);
      }
      if user.identities == [] {
        return Err(Crashed);
      }
      if !signatureValid {
        return Err(InvalidSignature);
      }
      user := user.(identityToken := Some([]), identityExpiry := 0);
      var ids := RotateIdentities(user.identities, now);
      RotateKeepsKeys(user.identities, now);
      user := user.(identities := ids);
      var ok := UpdateUser(uid, user);
      return Ok(());
    }

    method HandleResetPassword(uid: uint64, text: string, newPassword: seq<byte>, passwordHash: seq<byte>,
                               token: seq<byte>, now: Time)
      returns (reply: Result<(), Error>)
      requires Valid() && uid in users
      modifies this
      ensures Stored(uid, ResetPassword(old(users)[uid], text, newPassword, passwordHash, token, now))
      ensures Valid() && reply == Verdict(ResetPassword(old(users)[uid], text, newPassword, passwordHash, token, now))
    {
      var user := users[uid];
      assert KeysListed(user, uid, keys);
      if text == "" {
        if user.resetToken.Some? && user.resetExpiry > now {
          assert users[uid := user] == users;
          return Ok(());
        }
        user := user.(resetToken := Some(token), resetExpiry := now + VERIFICATION_EXPIRY);
      } else {
        var supplied := Hex.Decode(text);
        if supplied.None? || supplied.value != Bytes(user.resetToken) {
          return Err(TokenInvalid);
        }
        if user.resetExpiry < now {
          return Err(TokenExpired);
        }
        if |newPassword| < MIN_PASSWORD_LENGTH {
          return Err(MalformedPassword);
        }
        user := user.(resetToken := Some([]), resetExpiry := 0, hashedPassword := Some(passwordHash),
            failedLoginAttempts := 0);
      }
      var ok := UpdateUser(uid, user);
      return Ok(());
    }

    method HandleEditUserExtendedPublicKey(uid: uint64, text: string, extendedPublicKey: string, token: seq<byte>,
                                           now: Time)
      returns (reply: Result<(), Error>)
      requires Valid() && uid in users
      modifies this
      ensures Stored(uid, EditExtendedPublicKey(old(users)[uid], text, extendedPublicKey, token, now))
      ensures Valid() && reply == Verdict(EditExtendedPublicKey(old(users)[uid], text, extendedPublicKey, token, now))
    {
      var user := users[uid];
      assert KeysListed(user, uid, keys);
      if text == "" {
        if user.xpubToken.Some? && user.xpubExpiry > now {
          assert users[uid := user] == users;
          return Ok(());
        }
        user := user.(xpubToken := Some(token), xpubExpiry := now + VERIFICATION_EXPIRY);
      } else {
        if text != Hex.Encode(Bytes(user.xpubToken)) {
          return Err(TokenInvalid);
        }
        if user.xpubExpiry < now {
          return Err(TokenExpired);
        }
        user := user.(extendedPublicKey := extendedPublicKey, xpubToken := Some([]), xpubExpiry := 0);
      }
      var ok := UpdateUser(uid, user);
      return Ok(());
    }

    method HandleLogin(uid: uint64, passwordMatches: bool, now: Time) returns (reply: Result<(), Error>)
      requires Valid() && uid in users
      modifies this
      ensures users == old(users)[uid := Login(old(users)[uid], passwordMatches, now).0] && keys == old(keys)
      ensures Valid() && reply == Login(old(users)[uid], passwordMatches, now).1
    {
      var user := users[uid];
      assert KeysListed(user, uid, keys);
      assert users[uid := user] == users;
      if user.IsVerified() {
        return Err(InvalidEmailOrPassword);
      }
      if !passwordMatches {
        if !IsUserLocked(user.failedLoginAttempts) {
          user := user.(failedLoginAttempts := user.failedLoginAttempts + 1);
          var ok := UpdateUser(uid, user);
        }
        return Err(InvalidEmailOrPassword);
      }
      if IsUserLocked(user.failedLoginAttempts) {
        return Err(UserLocked);
      }
      user := user.(failedLoginAttempts := 0);
      user := user.(lastLogin := now);
      var ok := UpdateUser(uid, user);
      return Ok(());
    }

    method HandleChangePassword(uid: uint64, currentMatches: bool, newPassword: seq<byte>, passwordHash: seq<byte>)
      returns (reply: Result<(), Error>)
      requires Valid() && uid in users
      modifies this
      ensures Stored(uid, ChangePassword(old(users)[uid], currentMatches, newPassword, passwordHash))
      ensures Valid() && reply == Verdict(ChangePassword(old(users)[uid], currentMatches, newPassword, passwordHash))
    {
      var user := users[uid];
      assert KeysListed(user, uid, keys);
      if !currentMatches {
        return Err(InvalidEmailOrPassword);
      }
      if |newPassword| < MIN_PASSWORD_LENGTH {
        return Err(MalformedPassword);
      }
      user := user.(hashedPassword := Some(passwordHash));
      var ok := UpdateUser(uid, user);
      return Ok(());
    }

    /** HandleManageUser: the four administrator actions on a user. */
    method HandleManageUser(uid: uint64, action: ManageAction, now: Time) returns (reply: Result<(), Error>)
      requires Valid() && uid in users
      modifies this
      ensures Stored(uid, Manage(old(users)[uid], action, now))
      ensures Valid() && reply == Verdict(Manage(old(users)[uid], action, now))
    {
      var user := users[uid];
      assert KeysListed(user, uid, keys);
      match action {
        case ActResendInvite(token) =>
          if !user.IsVerified() {
            return Err(UserAlreadyExists);
          }
          user := user.(registerToken := Some(token), registerExpiry := now + VERIFICATION_EXPIRY);
        case ActExpireIdentity =>
          user := user.(identityExpiry := now - ADMIN_EXPIRY_SHIFT);
        case ActUnlock =>
          user := user.(failedLoginAttempts := 0);
        case ActLock(reason) =>
          if reason == "" {
            return Err(ReasonNotProvided);
          }
          user := user.(failedLoginAttempts := LOGIN_ATTEMPTS_TO_LOCK);
      }
      var ok := UpdateUser(uid, user);
      return Ok(());
    }
  }

  datatype ManageAction = ActResendInvite(token: seq<byte>) | ActExpireIdentity | ActUnlock | ActLock(reason: string)

  function Manage(u: User, action: ManageAction, now: Time): Result<User, Error> {
    match action
    case ActResendInvite(token) => ResendInvite(u, token, now)
    case ActExpireIdentity => Ok(ExpireIdentityToken(u, now))
    case ActUnlock => Ok(Unlock(u))
    case ActLock(reason) => Lock(u, reason)
  }
}
