/** When a user call succeeds, and which fields of the record it sets to what. Every other field stays. */
module AccountEffects {
  import opened Wrappers
  import opened MachineInts
  import opened Database
  import opened Accounts
  import opened AccountServer
  import Encoding
  import Hex

  /** The text spells the token, which has not expired. */
  predicate Presents(text: string, token: Token, expiry: int64, now: Time) {
    Hex.Decode(text) == Some(Bytes(token)) && now <= expiry
  }

  /** The text spells a key of 32 bytes that are not all zero. */
  predicate SpellsKey(publicKey: string, key: seq<byte>) {
    Hex.Decode(publicKey) == Some(key) && |key| == KEY_SIZE && exists i | 0 <= i < |key| :: key[i] != 0
  }

  lemma PubkeyIff(publicKey: string, key: seq<byte>)
    ensures ValidatePubkey(publicKey) == Some(key) <==> SpellsKey(publicKey, key)
  {
  }

  /** A password hash as it is stored; the row has none for an empty one. */
  function StoredHash(hash: seq<byte>): Option<seq<byte>> {
    if hash == [] then None else Some(hash)
  }

  /** Records as they come from the database. */
  predicate Loaded(u: User) {
    Encoding.WellFormed(u)
  }

  /** A stored record is one that is loaded unchanged. */
  lemma SavedIsLoaded(u: User)
    requires Encoding.KeysSized(u.identities)
    ensures Loaded(Save(u)) && (Loaded(u) ==> Save(u) == u)
  {
  }

  /** Every call leaves a record that is loaded unchanged. */
  lemma LoadedKept(u: User, op: Op, now: Time)
    requires Loaded(u)
    ensures Loaded(Apply(u, op, now).0)
  {
    KeysStaySized(u, op, now);
    SavedIsLoaded(u);
    match op
    case OpRegister(_, _) => IdentityCallSaves(u, op, now);
    case OpNewIdentity(_, _, _) => IdentityCallSaves(u, op, now);
    case OpVerifyNewIdentity(_, _) => IdentityCallSaves(u, op, now);
    case OpResetPassword(_, _, _, _) => TokenCallSaves(u, op, now);
    case OpEditExtendedPublicKey(_, _, _) => TokenCallSaves(u, op, now);
    case _ => OtherCallSaves(u, op, now);
    SavedIsLoaded(Apply(u, op, now).0);
  }

  lemma IdentityCallSaves(u: User, op: Op, now: Time)
    requires Save(u) == u && (op.OpRegister? || op.OpNewIdentity? || op.OpVerifyNewIdentity?)
    ensures Save(Apply(u, op, now).0) == Apply(u, op, now).0
  {
  }

  lemma TokenCallSaves(u: User, op: Op, now: Time)
    requires Save(u) == u && (op.OpResetPassword? || op.OpEditExtendedPublicKey?)
    ensures Save(Apply(u, op, now).0) == Apply(u, op, now).0
  {
  }

  lemma OtherCallSaves(u: User, op: Op, now: Time)
    requires Save(u) == u && !op.OpRegister? && !op.OpNewIdentity? && !op.OpVerifyNewIdentity?
    requires !op.OpResetPassword? && !op.OpEditExtendedPublicKey?
    ensures Save(Apply(u, op, now).0) == Apply(u, op, now).0
  {
  }

  lemma KeysStaySized(u: User, op: Op, now: Time)
    requires Encoding.KeysSized(u.identities)
    ensures Encoding.KeysSized(Apply(u, op, now).0.identities)
  {
    ApplyFrame(u, op, now);
  }

  /** An invited user registers with the token of the invitation, for two days. */
  lemma InvitedRegisters(uid: uint64, email: string, token: seq<byte>, invited: Time, req: RegisterRequest,
                         check: KeyCheck, now: Time)
    ensures var u := Invited(uid, email, token, invited);
            && Loaded(u) && u.id == uid && u.email == email && u.identities == [] && !u.admin
            && (Register(u, req, check, now).Ok? <==>
                  && Hex.Decode(req.verificationToken) == Some(token) && now <= invited + 48 * 60 * 60
                  && (exists key :: SpellsKey(req.publicKey, key))
                  && req.usernameAccepted && |req.password| >= 8 && check.KeyFree? && req.signatureValid)
  {
    RegisterEffect(Invited(uid, email, token, invited), req, check, now);
  }

  // ---------------------------------------------------------------- registration and identities

  lemma RegisterEffect(u: User, req: RegisterRequest, check: KeyCheck, now: Time)
    requires Loaded(u)
    ensures Register(u, req, check, now).Ok? <==>
              && Presents(req.verificationToken, u.registerToken, u.registerExpiry, now)
              && (exists key :: SpellsKey(req.publicKey, key))
              && req.usernameAccepted && |req.password| >= 8 && check.KeyFree? && req.signatureValid
    ensures forall key | Register(u, req, check, now).Ok? && SpellsKey(req.publicKey, key) ::
              Register(u, req, check, now).value ==
              u.(registerToken := Some([]), registerExpiry := 0, hashedPassword := StoredHash(req.passwordHash),
                 username := req.username, name := req.name, location := req.location,
                 extendedPublicKey := req.extendedPublicKey,
                 identities := u.identities + [Identity(key, now, 0)])
  {
    forall key ensures ValidatePubkey(req.publicKey) == Some(key) <==> SpellsKey(req.publicKey, key) {
      PubkeyIff(req.publicKey, key);
    }
    if ValidatePubkey(req.publicKey).Some? {
      assert SpellsKey(req.publicKey, ValidatePubkey(req.publicKey).value);
    }
  }

  lemma NewIdentityEffect(u: User, publicKey: string, token: seq<byte>, check: KeyCheck, now: Time)
    requires Loaded(u)
    ensures NewIdentity(u, publicKey, token, check, now).Ok? <==>
              && (exists key :: SpellsKey(publicKey, key))
              && check.KeyFree? && (u.identityToken.Some? ==> u.identityExpiry <= now)
    ensures forall key | NewIdentity(u, publicKey, token, check, now).Ok? && SpellsKey(publicKey, key) ::
              NewIdentity(u, publicKey, token, check, now).value ==
              u.(identityToken := Some(token), identityExpiry := now + 48 * 60 * 60,
                 identities := u.identities + [Identity(key, 0, 0)])
  {
    forall key ensures ValidatePubkey(publicKey) == Some(key) <==> SpellsKey(publicKey, key) {
      PubkeyIff(publicKey, key);
    }
    if ValidatePubkey(publicKey).Some? {
      assert SpellsKey(publicKey, ValidatePubkey(publicKey).value);
    }
  }

  /** All identities before this one have been deactivated. */
  predicate NoneBefore(ids: seq<Identity>, i: nat)
    requires i <= |ids|
  {
    forall j | 0 <= j < i :: ids[j].deactivated != 0
  }

  /** The identities after a verification: the first one that is not deactivated is, and the last one is active. */
  predicate Rotated(before: seq<Identity>, after: seq<Identity>, now: Time) {
    && |after| == |before| && before != []
    && after[|after| - 1] == before[|before| - 1].(activated := now, deactivated := 0)
    && forall i | 0 <= i < |before| - 1 ::
         after[i] == if before[i].deactivated == 0 && NoneBefore(before, i)
                     then before[i].(deactivated := now) else before[i]
  }

  lemma {:induction false} DeactivatedFirst(ids: seq<Identity>, t: Time)
    ensures var r := DeactivateFirst(ids, t);
            forall i | 0 <= i < |ids| ::
              r[i] == if ids[i].deactivated == 0 && NoneBefore(ids, i) then ids[i].(deactivated := t) else ids[i]
  {
    if ids != [] && ids[0].deactivated != 0 {
      var rest := ids[1..];
      DeactivatedFirst(rest, t);
      forall i | 0 < i < |ids| ensures NoneBefore(ids, i) <==> NoneBefore(rest, i - 1) {
        if NoneBefore(rest, i - 1) {
          assert forall j | 0 < j < i :: ids[j] == rest[j - 1];
        }
      }
      assert forall i | 0 < i < |ids| :: DeactivateFirst(ids, t)[i] == DeactivateFirst(rest, t)[i - 1];
    }
  }

  lemma VerifyIdentityEffect(u: User, text: string, signatureValid: bool, now: Time)
    requires Loaded(u)
    ensures VerifyNewIdentity(u, text, signatureValid, now).Ok? <==>
              Presents(text, u.identityToken, u.identityExpiry, now) && u.identities != [] && signatureValid
    ensures VerifyNewIdentity(u, text, signatureValid, now).Ok? ==>
              var v := VerifyNewIdentity(u, text, signatureValid, now).value;
              && Rotated(u.identities, v.identities, now)
              && v == u.(identityToken := Some([]), identityExpiry := 0, identities := v.identities)
  {
    if u.identities != [] {
      DeactivatedFirst(u.identities, now);
    }
  }

  // ---------------------------------------------------------------- passwords

  /** Asking for a reset: a new token, unless one is still good. */
  lemma RequestResetEffect(u: User, bytes: seq<byte>, hash: seq<byte>, token: seq<byte>, now: Time)
    requires Loaded(u)
    ensures ResetPassword(u, "", bytes, hash, token, now) ==
            Ok(if u.resetToken.Some? && u.resetExpiry > now then u
               else u.(resetToken := Some(token), resetExpiry := now + 48 * 60 * 60))
  {
  }

  lemma RedeemResetEffect(u: User, text: string, bytes: seq<byte>, hash: seq<byte>, token: seq<byte>, now: Time)
    requires Loaded(u) && text != ""
    ensures ResetPassword(u, text, bytes, hash, token, now).Ok? <==>
              Presents(text, u.resetToken, u.resetExpiry, now) && |bytes| >= 8
    ensures ResetPassword(u, text, bytes, hash, token, now).Ok? ==>
              ResetPassword(u, text, bytes, hash, token, now).value ==
              u.(resetToken := Some([]), resetExpiry := 0, hashedPassword := StoredHash(hash), failedLoginAttempts := 0)
  {
  }

  lemma ChangePasswordEffect(u: User, currentMatches: bool, bytes: seq<byte>, hash: seq<byte>)
    requires Loaded(u)
    ensures ChangePassword(u, currentMatches, bytes, hash).Ok? <==> currentMatches && |bytes| >= 8
    ensures ChangePassword(u, currentMatches, bytes, hash).Ok? ==>
              ChangePassword(u, currentMatches, bytes, hash).value == u.(hashedPassword := StoredHash(hash))
  {
  }

  lemma LoginEffect(u: User, passwordMatches: bool, now: Time)
    requires Loaded(u) && u.failedLoginAttempts <= 5
    ensures Login(u, passwordMatches, now).1.Ok? <==> !u.IsVerified() && passwordMatches && u.failedLoginAttempts < 5
    ensures Login(u, passwordMatches, now).0 ==
            if Login(u, passwordMatches, now).1.Ok? then u.(failedLoginAttempts := 0, lastLogin := now)
            else if !u.IsVerified() && !passwordMatches && u.failedLoginAttempts < 5
            then u.(failedLoginAttempts := u.failedLoginAttempts + 1)
            else u
  {
  }

  // ---------------------------------------------------------------- the extended key

  lemma RequestExtendedKeyEffect(u: User, xpub: string, token: seq<byte>, now: Time)
    requires Loaded(u)
    ensures EditExtendedPublicKey(u, "", xpub, token, now) ==
            Ok(if u.xpubToken.Some? && u.xpubExpiry > now then u
               else u.(xpubToken := Some(token), xpubExpiry := now + 48 * 60 * 60))
  {
  }

  /** The redeeming half compares texts, so that only the lower-case spelling of the token is accepted. */
  lemma RedeemExtendedKeyEffect(u: User, text: string, xpub: string, token: seq<byte>, now: Time)
    requires Loaded(u) && text != ""
    ensures EditExtendedPublicKey(u, text, xpub, token, now).Ok? <==>
              && Presents(text, u.xpubToken, u.xpubExpiry, now)
              && forall i | 0 <= i < |text| :: !('A' <= text[i] <= 'F')
    ensures EditExtendedPublicKey(u, text, xpub, token, now).Ok? ==>
              EditExtendedPublicKey(u, text, xpub, token, now).value ==
              u.(extendedPublicKey := xpub, xpubToken := Some([]), xpubExpiry := 0)
  {
    Hex.DecodeOfEncode(Bytes(u.xpubToken));
    if Hex.Decode(text).Some? {
      Hex.CanonicalIff(text);
    }
  }

  // ---------------------------------------------------------------- the administrator

  lemma AdministratorEffects(u: User, token: seq<byte>, reason: string, now: Time)
    requires Loaded(u)
    ensures ResendInvite(u, token, now) ==
            if u.IsVerified()
            then Ok(u.(registerToken := Some(token), registerExpiry := now + 48 * 60 * 60)) else Err(UserAlreadyExists)
    ensures ExpireIdentityToken(u, now) == if u.identityToken.Some? then u.(identityExpiry := now - 168 * 60 * 60)
              else u
    ensures Unlock(u) == u.(failedLoginAttempts := 0)
    ensures Lock(u, reason) == if reason != "" then Ok(u.(failedLoginAttempts := 5)) else Err(ReasonNotProvided)
  {
  }

  /** The four actions of an administrator are the four calls of a run. */
  lemma ManageIsApply(u: User, token: seq<byte>, reason: string, now: Time)
    ensures Try(u, Manage(u, ActResendInvite(token), now)) == Apply(u, OpResendInvite(token), now)
    ensures Try(u, Manage(u, ActExpireIdentity, now)) == Apply(u, OpExpireIdentityToken, now)
    ensures Try(u, Manage(u, ActUnlock, now)) == Apply(u, OpUnlock, now)
    ensures Try(u, Manage(u, ActLock(reason), now)) == Apply(u, OpLock(reason), now)
  {
  }
}
