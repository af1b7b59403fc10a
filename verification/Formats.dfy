/** What stands where in the stored rows and texts, column by column and character by character. */
module Formats {
  import opened Wrappers
  import opened MachineInts
  import opened Database
  import opened Encoding
  import opened PaymentStream
  import opened Candlesticks
  import Decimal
  import Hex
  import Json

  const HEX_DIGITS := "0123456789abcdef"

  /** Two lower-case digits a byte, the high one first. */
  lemma {:induction false} HexText(bytes: seq<byte>, i: nat)
    requires i < |bytes|
    ensures Hex.Encode(bytes)[2 * i] == HEX_DIGITS[bytes[i] / 16]
    ensures Hex.Encode(bytes)[2 * i + 1] == HEX_DIGITS[bytes[i] % 16]
  {
    if i == 0 {
      HexDigitText(bytes[0] / 16);
      HexDigitText(bytes[0] % 16);
    } else {
      HexText(bytes[1..], i - 1);
    }
  }

  lemma HexDigitText(n: nat)
    requires n < 16
    ensures Hex.HexDigit(n) == HEX_DIGITS[n]
  {
  }

  // ---------------------------------------------------------------- users

  /** A nil value is NULL in both columns; any other is the hexadecimal text of its bytes beside its expiry. */
  predicate TokenColumns(t: Token, expiry: int64, text: NullString, time: NullTime) {
    match t
    case None => text == None && time == None
    case Some(bytes) => text == Some(Hex.Encode(bytes)) && time == Some(expiry)
  }

  /** Zero is NULL. */
  predicate TimeColumn(t: int64, time: NullTime) {
    (t == 0 ==> time == None) && (t != 0 ==> time == Some(t))
  }

  predicate IdentityColumns(id: Identity, row: IdentityRow) {
    && (id.key == [] ==> row.key == None) && (id.key != [] ==> row.key == Some(Hex.Encode(id.key)))
    && TimeColumn(id.activated, row.activated) && TimeColumn(id.deactivated, row.deactivated)
  }

  /** The columns of a user's row. */
  predicate UserColumns(u: User, row: UserRow) {
    && row.id == u.id && row.email == u.email && row.name == u.name && row.location == u.location
    && row.extendedPublicKey == u.extendedPublicKey && row.admin == u.admin
    && row.username == (if u.username == "" then None else Some(u.username))
    && (match u.hashedPassword
        case None => row.hashedPassword == None
        case Some(hash) => row.hashedPassword == Some(Hex.Encode(hash)))
    && TokenColumns(u.registerToken, u.registerExpiry, row.registerToken, row.registerExpiry)
    && TokenColumns(u.identityToken, u.identityExpiry, row.identityToken, row.identityExpiry)
    && TokenColumns(u.resetToken, u.resetExpiry, row.resetToken, row.resetExpiry)
    && TokenColumns(u.xpubToken, u.xpubExpiry, row.xpubToken, row.xpubExpiry)
    && TimeColumn(u.lastLogin, row.lastLogin)
    && row.failedLoginAttempts == u.failedLoginAttempts && row.paymentAddressIndex == u.paymentAddressIndex
    && row.emailNotifications == u.emailNotifications
    && |row.identities| == |u.identities|
    && forall k | 0 <= k < |u.identities| :: IdentityColumns(u.identities[k], row.identities[k])
  }

  lemma {:induction false} IdentityRows(ids: seq<Identity>)
    ensures forall k | 0 <= k < |ids| :: IdentityColumns(ids[k], EncodeIdentities(ids)[k])
  {
    if ids != [] {
      IdentityRows(ids[..|ids| - 1]);
    }
  }

  lemma UserIsStored(u: User)
    ensures UserColumns(u, EncodeUser(u))
  {
    IdentityRows(u.identities);
  }

  /** A NULL token reads as nil with no expiry; a missing time beside a token as the zero time. */
  predicate TokenRead(text: NullString, time: NullTime, t: Token, expiry: int64) {
    match text
    case None => t == None && expiry == 0
    case Some(hex) => t.Some? && Hex.Decode(hex) == t && expiry == match time case None => ZERO_TIME case Some(s) => s
  }

  predicate IsHex(text: NullString) {
    text.Some? ==> Hex.Decode(text.value).Some?
  }

  /** A key is read into 32 bytes, cut off or padded with zeros. */
  predicate IdentityRead(row: IdentityRow, id: Identity) {
    && TimeColumn(id.activated, if row.activated == Some(0) then None else row.activated)
    && TimeColumn(id.deactivated, if row.deactivated == Some(0) then None else row.deactivated)
    && |id.key| == KEY_SIZE && IsHex(row.key)
    && var bytes := if row.key.Some? then Hex.Decode(row.key.value).value else [];
       forall i | 0 <= i < KEY_SIZE :: id.key[i] == if i < |bytes| then bytes[i] else 0
  }

  predicate UserRead(row: UserRow, u: User) {
    && u.id == row.id && u.email == row.email && u.name == row.name && u.location == row.location
    && u.extendedPublicKey == row.extendedPublicKey && u.admin == row.admin
    && u.username == (if row.username.Some? then row.username.value else "")
    && (if row.hashedPassword.None? || row.hashedPassword.value == "" then u.hashedPassword == None
        else u.hashedPassword.Some? && Hex.Decode(row.hashedPassword.value) == u.hashedPassword)
    && TokenRead(row.registerToken, row.registerExpiry, u.registerToken, u.registerExpiry)
    && TokenRead(row.identityToken, row.identityExpiry, u.identityToken, u.identityExpiry)
    && TokenRead(row.resetToken, row.resetExpiry, u.resetToken, u.resetExpiry)
    && TokenRead(row.xpubToken, row.xpubExpiry, u.xpubToken, u.xpubExpiry)
    && TimeColumn(u.lastLogin, if row.lastLogin == Some(0) then None else row.lastLogin)
    && u.failedLoginAttempts == row.failedLoginAttempts && u.paymentAddressIndex == row.paymentAddressIndex
    && u.emailNotifications == row.emailNotifications
    && |u.identities| == |row.identities|
    && forall k | 0 <= k < |row.identities| :: IdentityRead(row.identities[k], u.identities[k])
  }

  lemma {:induction false} IdentitiesRead(rows: seq<IdentityRow>)
    ensures DecodeIdentities(rows).Some? <==> forall k | 0 <= k < |rows| :: IsHex(rows[k].key)
    ensures DecodeIdentities(rows).Some? ==>
              forall k | 0 <= k < |rows| :: IdentityRead(rows[k], DecodeIdentities(rows).value[k])
  {
    if rows != [] {
      var init := rows[..|rows| - 1];
      IdentitiesRead(init);
      OneIdentityRead(rows[|rows| - 1]);
    }
  }

  lemma OneIdentityRead(row: IdentityRow)
    ensures DecodeIdentity(row).Some? <==> IsHex(row.key)
    ensures DecodeIdentity(row).Some? ==> IdentityRead(row, DecodeIdentity(row).value)
  {
  }

  /** Every key, token and password of the row is hexadecimal. */
  predicate AllHex(row: UserRow) {
    && IsHex(row.hashedPassword) && IsHex(row.registerToken) && IsHex(row.identityToken)
    && IsHex(row.resetToken) && IsHex(row.xpubToken)
    && forall k | 0 <= k < |row.identities| :: IsHex(row.identities[k].key)
  }

  lemma UserIsReadIff(row: UserRow)
    ensures DecodeUser(row).Some? <==> AllHex(row)
  {
    IdentitiesRead(row.identities);
    assert Hex.Decode("") == Some([]);
  }

  /** A row is read if and only if every key, token and password in it is hexadecimal. */
  lemma UserIsRead(row: UserRow)
    ensures DecodeUser(row).Some? <==> AllHex(row)
    ensures DecodeUser(row).Some? ==> UserRead(row, DecodeUser(row).value)
  {
    UserIsReadIff(row);
    IdentitiesRead(row.identities);
  }

  // ---------------------------------------------------------------- statuses

  const STATUSES := [Invalid, NotFound, NotReviewed, UnreviewedChanges, Rejected, Approved, Paid]

  /** The numbers of the statuses, as they are stored and as requests carry them. */
  lemma StatusNumbers(s: Status, code: int)
    ensures ProperStatus(s) ==>
              (StatusOfCode(code) == s <==>
                 if 0 <= code < 7 then s == STATUSES[code] else s == Unsupported(code))
    ensures ProperStatus(s) ==> (StatusCode(s) == code <==> StatusOfCode(code) == s)
  {
  }

  // ---------------------------------------------------------------- payments in the record

  predicate IsPlain(c: char) {
    '0' <= c <= '9' || 'a' <= c <= 'z' || 'A' <= c <= 'Z'
  }

  /** Letters and digits stand for themselves. */
  lemma {:induction false} PlainText(s: string)
    requires forall i | 0 <= i < |s| :: IsPlain(s[i])
    ensures Json.PrintChars(s) == s
  {
    if s != "" {
      PlainText(s[1..]);
      PlainChar(s[0]);
      assert s == [s[0]] + s[1..];
    }
  }

  lemma PlainChar(c: char)
    requires IsPlain(c)
    ensures Json.PrintChar(c) == [c]
  {
  }

  /** An address or transaction of letters and digits is printed between quotes. */
  lemma PlainString(s: string)
    requires forall i | 0 <= i < |s| :: IsPlain(s[i])
    ensures Json.PrintString(s) == "\"" + s + "\""
  {
    PlainText(s);
  }

  /** A named value, and what comes after it. */
  function Field(name: string, value: string, rest: string): string {
    "\"" + name + "\":" + value + rest
  }

  function AfterFields(rest: seq<Json.Member>): string {
    if rest == [] then "}" else "," + Json.PrintMembers(rest)
  }

  predicate PlainName(m: Json.Member) {
    forall i | 0 <= i < |m.name| :: IsPlain(m.name[i])
  }

  lemma FieldOf(ms: seq<Json.Member>, rest: seq<Json.Member>)
    requires ms != [] && rest == ms[1..] && PlainName(ms[0])
    ensures Json.PrintMembers(ms) == Field(ms[0].name, Json.PrintValue(ms[0].value), AfterFields(rest))
  {
    var m := ms[0];
    PlainString(m.name);
    var member := Json.PrintMember(m);
    assert member == "\"" + m.name + "\":" + Json.PrintValue(m.value);
    if rest != [] {
      Json.Assoc(member, ",", Json.PrintMembers(rest));
    }
  }

  /** The text of a printed payment: its members in their order. */
  lemma PaymentText(p: InvoicePayment)
    ensures Print(ToStream(p)) ==
            "{" + Field("version", "1",
            "," + Field("istotalcost", if p.isTotalCost then "true" else "false",
            "," + Field("address", Json.PrintString(p.address),
            "," + Field("amount", Decimal.PrintInt(p.amount),
            "," + Field("txnotbefore", Decimal.PrintInt(p.txNotBefore),
            "," + Field("txid", Json.PrintString(p.txID), "}"))))))
  {
    var ms := Members(ToStream(p));
    PlainNames(ToStream(p));
    SixFields(ms);
    assert Decimal.PrintInt(1) == "1";
  }

  lemma PlainNames(p: StreamPayment)
    ensures forall i | 0 <= i < 6 :: PlainName(Members(p)[i])
  {
  }

  lemma SixFields(ms: seq<Json.Member>)
    requires |ms| == 6 && forall i | 0 <= i < 6 :: PlainName(ms[i])
    ensures Json.PrintObject(ms) ==
            "{" + Field(ms[0].name, Json.PrintValue(ms[0].value),
            "," + Field(ms[1].name, Json.PrintValue(ms[1].value),
            "," + Field(ms[2].name, Json.PrintValue(ms[2].value),
            "," + Field(ms[3].name, Json.PrintValue(ms[3].value),
            "," + Field(ms[4].name, Json.PrintValue(ms[4].value),
            "," + Field(ms[5].name, Json.PrintValue(ms[5].value), "}"))))))
  {
    ThreeFields(ms, ms[3..]);
    ThreeFields(ms[3..], []);
  }

  lemma ThreeFields(ms: seq<Json.Member>, rest: seq<Json.Member>)
    requires |ms| >= 3 && rest == ms[3..]
    requires PlainName(ms[0]) && PlainName(ms[1]) && PlainName(ms[2])
    ensures Json.PrintMembers(ms) ==
            Field(ms[0].name, Json.PrintValue(ms[0].value),
            "," + Field(ms[1].name, Json.PrintValue(ms[1].value),
            "," + Field(ms[2].name, Json.PrintValue(ms[2].value), AfterFields(rest))))
  {
    FieldOf(ms, ms[1..]);
    FieldOf(ms[1..], ms[2..]);
    FieldOf(ms[2..], rest);
  }

  /** The value that counts for a member: the last one under its name that is not null. */
  function LastNamed(ms: seq<Json.Member>, name: string): Option<Json.Value> {
    if ms == [] then None
    else
      var m := ms[|ms| - 1];
      if m.name == name && !m.value.Null? then Some(m.value) else LastNamed(ms[..|ms| - 1], name)
  }

  /** A member has a value its field can hold; null and unknown names are no matter. */
  predicate Fits(m: Json.Member) {
    || m.value.Null?
    || (m.name in {"version", "amount"} && m.value.Number? && 0 <= m.value.n < TWO_TO_THE_64)
    || (m.name == "txnotbefore" && m.value.Number? && -TWO_TO_THE_63 <= m.value.n < TWO_TO_THE_63)
    || (m.name == "istotalcost" && m.value.Bool?)
    || (m.name in {"address", "txid"} && m.value.Text?)
    || m.name !in {"version", "amount", "txnotbefore", "istotalcost", "address", "txid"}
  }

  predicate NumberIs(v: Option<Json.Value>, before: int, after: int) {
    match v
    case None => after == before
    case Some(value) => value == Json.Number(after)
  }

  predicate TextIs(v: Option<Json.Value>, before: string, after: string) {
    match v
    case None => after == before
    case Some(value) => value == Json.Text(after)
  }

  predicate BoolIs(v: Option<Json.Value>, before: bool, after: bool) {
    match v
    case None => after == before
    case Some(value) => value == Json.Bool(after)
  }

  predicate FieldsAre(p: StreamPayment, ms: seq<Json.Member>, q: StreamPayment) {
    && NumberIs(LastNamed(ms, "version"), p.version, q.version)
    && BoolIs(LastNamed(ms, "istotalcost"), p.isTotalCost, q.isTotalCost)
    && TextIs(LastNamed(ms, "address"), p.address, q.address)
    && NumberIs(LastNamed(ms, "amount"), p.amount, q.amount)
    && NumberIs(LastNamed(ms, "txnotbefore"), p.txNotBefore, q.txNotBefore)
    && TextIs(LastNamed(ms, "txid"), p.txID, q.txID)
  }

  lemma {:induction false} SetLast(p: StreamPayment, ms: seq<Json.Member>, m: Json.Member)
    ensures SetFields(p, ms + [m]) ==
            match SetFields(p, ms)
            case None => None
            case Some(q) => SetField(q, m)
    decreases |ms|
  {
    if ms == [] {
      assert ms + [m] == [m];
      assert SetFields(p, [m]) == SetField(p, m);
    } else {
      assert (ms + [m])[1..] == ms[1..] + [m];
      if SetField(p, ms[0]).Some? {
        SetLast(SetField(p, ms[0]).value, ms[1..], m);
      }
    }
  }

  /** Members in whatever order: the object is accepted if and only if every value fits, and every field then has the
      last value under its name, or the one it had. */
  lemma {:induction false} FieldsByName(p: StreamPayment, ms: seq<Json.Member>)
    ensures SetFields(p, ms).Some? <==> forall i | 0 <= i < |ms| :: Fits(ms[i])
    ensures SetFields(p, ms).Some? ==> FieldsAre(p, ms, SetFields(p, ms).value)
    decreases |ms|
  {
    if ms != [] {
      var init, m := ms[..|ms| - 1], ms[|ms| - 1];
      assert ms == init + [m];
      SetLast(p, init, m);
      FieldsByName(p, init);
      if SetFields(p, init).Some? {
        OneField(p, init, SetFields(p, init).value, m);
      }
    }
  }

  lemma OneField(p: StreamPayment, init: seq<Json.Member>, q: StreamPayment, m: Json.Member)
    requires FieldsAre(p, init, q)
    ensures SetField(q, m).Some? <==> Fits(m)
    ensures SetField(q, m).Some? ==> FieldsAre(p, init + [m], SetField(q, m).value)
  {
    LastOfSnoc(init, m, "version");
    LastOfSnoc(init, m, "istotalcost");
    LastOfSnoc(init, m, "address");
    LastOfSnoc(init, m, "amount");
    LastOfSnoc(init, m, "txnotbefore");
    LastOfSnoc(init, m, "txid");
  }

  lemma LastOfSnoc(init: seq<Json.Member>, m: Json.Member, name: string)
    ensures LastNamed(init + [m], name) ==
            if m.name == name && !m.value.Null? then Some(m.value) else LastNamed(init, name)
  {
    assert (init + [m])[..|init|] == init;
  }

  // ---------------------------------------------------------------- the data file

  /** What a reader finds in the fourteen fields of a record, by their places. */
  lemma RecordFields(n: Notation, r: Row)
    requires Faithful(n)
    ensures FieldsShow(n, Record(n, r)[..7], r.dcrBTC) && FieldsShow(n, Record(n, r)[7..], r.btcUSD)
  {
    assert Record(n, r)[..7] == ToStrings(n, r.dcrBTC) && Record(n, r)[7..] == ToStrings(n, r.btcUSD);
  }

  predicate FieldsShow(n: Notation, fields: seq<string>, c: Candlestick) {
    && |fields| == 7
    && n.readInt(fields[0]) == Some(c.timestamp) && n.readInt(fields[1]) == Some(c.granularity)
    && n.readPrice(fields[2]) == Some(c.open) && n.readPrice(fields[3]) == Some(c.close)
    && n.readPrice(fields[4]) == Some(c.high) && n.readPrice(fields[5]) == Some(c.low)
    && n.readPrice(fields[6]) == Some(c.volume)
  }
}
