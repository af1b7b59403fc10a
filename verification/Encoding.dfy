/** The CockroachDB rows and their conversions: EncodeUser/DecodeUser, EncodeInvoice/DecodeInvoice and parts. */
module Encoding {
  import opened Wrappers
  import opened MachineInts
  import opened Database
  import Hex

  /** sql.NullString and pq.NullTime: NULL or a value. Times are whole seconds since 1970. */
  type NullString = Option<string>
  type NullTime = Option<int64>

  datatype IdentityRow = IdentityRow(key: NullString, activated: NullTime, deactivated: NullTime)

  datatype UserRow = UserRow(
    id: uint64,
    email: string,
    username: NullString,
    hashedPassword: NullString,
    name: string,
    location: string,
    extendedPublicKey: string,
    admin: bool,
    registerToken: NullString,
    registerExpiry: NullTime,
    identityToken: NullString,
    identityExpiry: NullTime,
    resetToken: NullString,
    resetExpiry: NullTime,
    xpubToken: NullString,
    xpubExpiry: NullTime,
    lastLogin: NullTime,
    failedLoginAttempts: uint64,
    paymentAddressIndex: uint64,
    emailNotifications: uint64,
    identities: seq<IdentityRow>)

  datatype ChangeRow = ChangeRow(invoiceToken: string, adminPublicKey: string, newStatus: int, timestamp: int64)

  datatype PaymentRow = PaymentRow(
    invoiceToken: string,
    isTotalCost: bool,
    address: string,
    amount: uint64,
    txNotBefore: int64,
    pollExpiry: int64,
    txID: string)

  datatype InvoiceRow = InvoiceRow(
    token: string,
    userID: uint64,
    username: string,
    month: uint64,
    year: uint64,
    timestamp: int64,
    status: int,
    statusChangeReason: string,
    filePayload: string,
    fileMIME: string,
    fileDigest: string,
    publicKey: string,
    userSignature: string,
    serverSignature: string,
    proposal: string,
    version: string,
    changes: seq<ChangeRow>,
    payments: seq<PaymentRow>)

  // ---------------------------------------------------------------- users

  function EncodeTime(t: int64): NullTime {
    if t != 0 then Some(t) else None
  }

  function DecodeTime(t: NullTime): int64 {
    if t.Some? then t.value else 0
  }

  function EncodeIdentity(id: Identity): IdentityRow {
    IdentityRow(
      if |id.key| != 0 then Some(Hex.Encode(id.key)) else None,
      EncodeTime(id.activated),
      EncodeTime(id.deactivated))
  }

  /** A decoded key is copied into an array of KEY_SIZE bytes: cut off, or padded with zeros. */
  function CopyKey(pk: seq<byte>): (key: seq<byte>)
    ensures |key| == KEY_SIZE
  {
    seq(KEY_SIZE, i requires 0 <= i < KEY_SIZE => if i < |pk| then pk[i] else 0)
  }

  function DecodeIdentity(row: IdentityRow): Option<Identity> {
    var pk :- if row.key.Some? then Hex.Decode(row.key.value) else Some([]);
    Some(Identity(CopyKey(pk), DecodeTime(row.activated), DecodeTime(row.deactivated)))
  }

  function EncodeIdentities(ids: seq<Identity>): (rows: seq<IdentityRow>)
    ensures |rows| == |ids|
  {
    if ids == [] then [] else EncodeIdentities(ids[..|ids| - 1]) + [EncodeIdentity(ids[|ids| - 1])]
  }

  function DecodeIdentities(rows: seq<IdentityRow>): (r: Option<seq<Identity>>)
    ensures r.Some? ==> |r.value| == |rows|
  {
    if rows == [] then Some([])
    else
      var ids :- DecodeIdentities(rows[..|rows| - 1]);
      var id :- DecodeIdentity(rows[|rows| - 1]);
      Some(ids + [id])
  }

  /** A token and its expiry are written together, and only when the token is not nil. */
  function EncodeToken(t: Token): NullString {
    if t.Some? then Some(Hex.Encode(t.value)) else None
  }

  function EncodeExpiry(t: Token, expiry: int64): NullTime {
    if t.Some? then Some(expiry) else None
  }

  function DecodeToken(t: NullString): Option<Token> {
    if t.None? then Some(None)
    else
      var bytes :- Hex.Decode(t.value);
      Some(Some(bytes))
  }

  /** The expiry is only read next to a token; a missing time reads as the zero time of the driver. */
  function DecodeExpiry(t: NullString, expiry: NullTime): int64 {
    if t.None? then 0 else if expiry.Some? then expiry.value else ZERO_TIME
  }

  function EncodeUser(u: User): UserRow {
    UserRow(
      u.id, u.email,
      if u.username != "" then Some(u.username) else None,
      EncodeToken(u.hashedPassword),
      u.name, u.location, u.extendedPublicKey, u.admin,
      EncodeToken(u.registerToken), EncodeExpiry(u.registerToken, u.registerExpiry),
      EncodeToken(u.identityToken), EncodeExpiry(u.identityToken, u.identityExpiry),
      EncodeToken(u.resetToken), EncodeExpiry(u.resetToken, u.resetExpiry),
      EncodeToken(u.xpubToken), EncodeExpiry(u.xpubToken, u.xpubExpiry),
      EncodeTime(u.lastLogin),
      u.failedLoginAttempts, u.paymentAddressIndex, u.emailNotifications,
      EncodeIdentities(u.identities))
  }

  function DecodeUser(row: UserRow): Option<User> {
    var password :- if row.hashedPassword.Some? && row.hashedPassword.value != ""
                    then DecodeToken(row.hashedPassword) else Some(None);
    var registerToken :- DecodeToken(row.registerToken);
    var identityToken :- DecodeToken(row.identityToken);
    var resetToken :- DecodeToken(row.resetToken);
    var xpubToken :- DecodeToken(row.xpubToken);
    var identities :- DecodeIdentities(row.identities);
    Some(User(
           row.id, row.email,
           if row.username.Some? then row.username.value else "",
           row.name, row.location, row.extendedPublicKey,
           password, row.admin,
           registerToken, DecodeExpiry(row.registerToken, row.registerExpiry),
           identityToken, DecodeExpiry(row.identityToken, row.identityExpiry),
           resetToken, DecodeExpiry(row.resetToken, row.resetExpiry),
           xpubToken, DecodeExpiry(row.xpubToken, row.xpubExpiry),
           DecodeTime(row.lastLogin),
           row.failedLoginAttempts, row.paymentAddressIndex, row.emailNotifications,
           identities))
  }

  /** The users a database round trip leaves alone. */
  predicate WellFormed(u: User) {
    && (u.registerToken.None? ==> u.registerExpiry == 0)
    && (u.identityToken.None? ==> u.identityExpiry == 0)
    && (u.resetToken.None? ==> u.resetExpiry == 0)
    && (u.xpubToken.None? ==> u.xpubExpiry == 0)
    && u.hashedPassword != Some([])
    && KeysSized(u.identities)
  }

  predicate KeysSized(ids: seq<Identity>) {
    forall i | 0 <= i < |ids| :: |ids[i].key| == KEY_SIZE
  }

  /** What a user becomes by being written and read again: an expiry without a token is forgotten, and so is an
      empty password hash. Nil and empty tokens stay apart. */
  function Normalize(u: User): User {
    u.(hashedPassword := if u.hashedPassword == Some([]) then None else u.hashedPassword,
       registerExpiry := if u.registerToken.None? then 0 else u.registerExpiry,
       identityExpiry := if u.identityToken.None? then 0 else u.identityExpiry,
       resetExpiry := if u.resetToken.None? then 0 else u.resetExpiry,
       xpubExpiry := if u.xpubToken.None? then 0 else u.xpubExpiry)
  }

  lemma IdentityRoundTrip(id: Identity)
    requires |id.key| == KEY_SIZE
    ensures DecodeIdentity(EncodeIdentity(id)) == Some(id)
  {
    Hex.DecodeOfEncode(id.key);
    assert CopyKey(id.key) == id.key;
  }

  lemma DecodeSnoc(rows: seq<IdentityRow>, ids: seq<Identity>, row: IdentityRow, id: Identity)
    requires DecodeIdentities(rows) == Some(ids) && DecodeIdentity(row) == Some(id)
    ensures DecodeIdentities(rows + [row]) == Some(ids + [id])
  {
    assert (rows + [row])[..|rows|] == rows;
  }

  lemma {:induction false} IdentitiesRoundTrip(ids: seq<Identity>)
    requires KeysSized(ids)
    ensures DecodeIdentities(EncodeIdentities(ids)) == Some(ids)
  {
    if ids != [] {
      var init, last := ids[..|ids| - 1], ids[|ids| - 1];
      IdentitiesRoundTrip(init);
      IdentityRoundTrip(last);
      DecodeSnoc(EncodeIdentities(init), init, EncodeIdentity(last), last);
      assert ids == init + [last];
    }
  }

  lemma TokenRoundTrip(t: Token)
    ensures DecodeToken(EncodeToken(t)) == Some(t)
    ensures EncodeToken(t) == Some("") <==> t == Some([])
  {
    if t.Some? {
      Hex.DecodeOfEncode(t.value);
    }
  }

  /** For every user whose keys have the size of the identity package's array, storing and loading yields
      Normalize(u). */
  lemma UserRoundTrip(u: User)
    requires KeysSized(u.identities)
    ensures DecodeUser(EncodeUser(u)) == Some(Normalize(u))
  {
    TokenRoundTrip(u.hashedPassword);
    TokenRoundTrip(u.registerToken);
    TokenRoundTrip(u.identityToken);
    TokenRoundTrip(u.resetToken);
    TokenRoundTrip(u.xpubToken);
    IdentitiesRoundTrip(u.identities);
  }

  /** The round trip is the identity on exactly the well-formed users, and always ends in one. */
  lemma UserRoundTripIff(u: User)
    requires KeysSized(u.identities)
    ensures DecodeUser(EncodeUser(u)) == Some(u) <==> WellFormed(u)
    ensures DecodeUser(EncodeUser(u)).Some? && WellFormed(DecodeUser(EncodeUser(u)).value)
  {
    UserRoundTrip(u);
  }

  /** The identity loop of EncodeUser. */
  method AppendIdentityRows(ids: seq<Identity>) returns (rows: seq<IdentityRow>)
    ensures rows == EncodeIdentities(ids)
  {
    rows := [];
    for k := 0 to |ids|
      invariant rows == EncodeIdentities(ids[..k])
    {
      assert ids[..k + 1][..k] == ids[..k];
      rows := rows + [EncodeIdentity(ids[k])];
    }
    assert ids[..|ids|] == ids;
  }

  /** The identity loop of DecodeUser: the first key that is not hexadecimal fails the whole user. */
  method AppendIdentities(rows: seq<IdentityRow>) returns (r: Option<seq<Identity>>)
    ensures r == DecodeIdentities(rows)
  {
    var ids: seq<Identity> := [];
    for k := 0 to |rows|
      invariant DecodeIdentities(rows[..k]) == Some(ids)
    {
      assert rows[..k + 1][..k] == rows[..k];
      var id := DecodeIdentity(rows[k]);
      if id.None? {
        FailedPrefix(rows, k + 1);
        return None;
      }
      ids := ids + [id.value];
    }
    assert rows[..|rows|] == rows;
    return Some(ids);
  }

  lemma {:induction false} FailedPrefix(rows: seq<IdentityRow>, k: nat)
    requires k <= |rows| && DecodeIdentities(rows[..k]).None?
    ensures DecodeIdentities(rows).None?
    decreases |rows|
  {
    if k == |rows| {
      assert rows[..k] == rows;
    } else {
      var init := rows[..|rows| - 1];
      assert init[..k] == rows[..k];
      FailedPrefix(init, k);
    }
  }

  // ---------------------------------------------------------------- invoices

  function StatusCode(s: Status): int {
    match s
    case Invalid => 0
    case NotFound => 1
    case NotReviewed => 2
    case UnreviewedChanges => 3
    case Rejected => 4
    case Approved => 5
    case Paid => 6
    case Unsupported(code) => code
  }

  function StatusOfCode(code: int): Status {
    if code == 0 then Invalid
    else if code == 1 then NotFound
    else if code == 2 then NotReviewed
    else if code == 3 then UnreviewedChanges
    else if code == 4 then Rejected
    else if code == 5 then Approved
    else if code == 6 then Paid
    else Unsupported(code)
  }

  /** A request's number is read through StatusOfCode, so Unsupported never carries a known number. */
  predicate ProperStatus(s: Status) {
    s.Unsupported? ==> !(0 <= s.code <= 6)
  }

  function EncodeInvoiceChange(token: string, c: InvoiceChange): ChangeRow {
    ChangeRow(token, c.adminPublicKey, StatusCode(c.newStatus), c.timestamp)
  }

  function EncodeInvoicePayment(p: InvoicePayment): PaymentRow {
    PaymentRow(p.invoiceToken, p.isTotalCost, p.address, p.amount, p.txNotBefore, p.pollExpiry, p.txID)
  }

  function DecodeInvoicePayment(p: PaymentRow): InvoicePayment {
    InvoicePayment(p.invoiceToken, p.isTotalCost, p.address, p.amount, p.txNotBefore, p.pollExpiry, p.txID)
  }

  /** The payments as stored under an invoice: each stamped with its token. */
  function Stamp(token: string, ps: seq<InvoicePayment>): (r: seq<InvoicePayment>)
    ensures |r| == |ps|
  {
    seq(|ps|, i requires 0 <= i < |ps| => ps[i].(invoiceToken := token))
  }

  /** The status written with an invoice: that of its last new change, if it carries any. */
  function StoredStatus(i: Invoice): Status {
    if i.changes == [] then i.status else i.changes[|i.changes| - 1].newStatus
  }

  /** EncodeInvoice: fills the row field by field, then appends the changes and the payments. */
  method EncodeInvoice(i: Invoice) returns (row: InvoiceRow)
    ensures |row.changes| == |i.changes|
    ensures forall k | 0 <= k < |i.changes| ::
              var c := i.changes[k];
              row.changes[k] == ChangeRow(i.token, c.adminPublicKey, StatusCode(c.newStatus), c.timestamp)
    ensures |row.payments| == |i.payments|
    ensures forall k | 0 <= k < |i.payments| ::
              var p := i.payments[k];
              row.payments[k] ==
              PaymentRow(i.token, p.isTotalCost, p.address, p.amount, p.txNotBefore, p.pollExpiry, p.txID)
    ensures row.status == StatusCode(StoredStatus(i))
    ensures row.username == ""
    ensures row.(status := 0, changes := [], payments := []) ==
            InvoiceRow(i.token, i.userID, "", i.month, i.year, i.timestamp, 0, i.statusChangeReason,
                       if i.file.Some? then i.file.value.payload else "",
                       if i.file.Some? then i.file.value.mime else "",
                       if i.file.Some? then i.file.value.digest else "",
                       i.publicKey, i.userSignature, i.serverSignature, i.proposal, i.version, [], [])
  {
    row := InvoiceRow(i.token, i.userID, "", i.month, i.year, i.timestamp, StatusCode(i.status), i.statusChangeReason,
                      "", "", "", i.publicKey, i.userSignature, i.serverSignature, i.proposal, i.version, [], []);
    if i.file.Some? {
      var f := i.file.value;
      row := row.(filePayload := f.payload, fileMIME := f.mime, fileDigest := f.digest);
    }
    ghost var plain := row;
    for k := 0 to |i.changes|
      invariant |row.changes| == k
      invariant row.(status := plain.status, changes := []) == plain
      invariant row.status == StatusCode(if k == 0 then i.status else i.changes[k - 1].newStatus)
      invariant forall j | 0 <= j < k :: row.changes[j] == EncodeInvoiceChange(i.token, i.changes[j])
    {
      var change := EncodeInvoiceChange(row.token, i.changes[k]);
      row := row.(changes := row.changes + [change], status := change.newStatus);
    }
    ghost var changed := row;
    for k := 0 to |i.payments|
      invariant |row.payments| == k
      invariant row.(payments := []) == changed
      invariant forall j | 0 <= j < k ::
          row.payments[j] == EncodeInvoicePayment(i.payments[j].(invoiceToken := i.token))
    {
      var payment := EncodeInvoicePayment(i.payments[k]);
      row := row.(payments := row.payments + [payment.(invoiceToken := row.token)]);
    }
  }

  /** DecodeInvoice: month and year are cut to 16 bits, the changes are not loaded, and a file is present exactly when
      its payload is not empty. */
  method DecodeInvoice(row: InvoiceRow) returns (i: Invoice)
    ensures i.changes == []
    ensures |i.payments| == |row.payments|
    ensures forall k | 0 <= k < |row.payments| ::
              var p := row.payments[k];
              i.payments[k] == InvoicePayment(p.invoiceToken, p.isTotalCost, p.address, p.amount, p.txNotBefore,
                                              p.pollExpiry, p.txID)
    ensures i.(payments := []) ==
            Invoice(row.token, row.userID, row.username, row.month % TWO_TO_THE_16, row.year % TWO_TO_THE_16,
                row.timestamp,
                    StatusOfCode(row.status), row.statusChangeReason,
                    if row.filePayload != "" then Some(File(row.filePayload, row.fileMIME, row.fileDigest)) else None,
                    row.publicKey, row.userSignature, row.serverSignature, row.proposal, row.version, [], [])
  {
    i := Invoice(row.token, row.userID, row.username, row.month % TWO_TO_THE_16, row.year % TWO_TO_THE_16,
        row.timestamp,
                 StatusOfCode(row.status), row.statusChangeReason, None, row.publicKey, row.userSignature,
                     row.serverSignature,
                 row.proposal, row.version, [], []);
    if row.filePayload != "" {
      i := i.(file := Some(File(row.filePayload, row.fileMIME, row.fileDigest)));
    }
    ghost var plain := i;
    for k := 0 to |row.payments|
      invariant |i.payments| == k
      invariant i.(payments := []) == plain
      invariant forall j | 0 <= j < k :: i.payments[j] == DecodeInvoicePayment(row.payments[j])
    {
      i := i.(payments := i.payments + [DecodeInvoicePayment(row.payments[k])]);
    }
  }

  /** What an invoice becomes by being written and read again. */
  function Reloaded(i: Invoice): Invoice {
    i.(username := "",
       status := StoredStatus(i),
       file := if i.file.Some? && i.file.value.payload == "" then None else i.file,
       changes := [],
       payments := Stamp(i.token, i.payments))
  }

  /** Writing an invoice and reading it back: only the user name, the changes and an empty file are lost, the
      payments carry the token, and the status is that of the last change. */
  method StoreAndLoadInvoice(i: Invoice) returns (loaded: Invoice)
    requires ProperStatus(StoredStatus(i))
    ensures loaded == Reloaded(i)
  {
    var row := EncodeInvoice(i);
    loaded := DecodeInvoice(row);
    assert loaded.payments == Stamp(i.token, i.payments);
  }

  /** Reading back is idempotent: a loaded invoice is stored and loaded unchanged. */
  lemma ReloadedIsStable(i: Invoice)
    ensures Reloaded(Reloaded(i)) == Reloaded(i)
  {
    assert Stamp(i.token, Stamp(i.token, i.payments)) == Stamp(i.token, i.payments);
  }
}
