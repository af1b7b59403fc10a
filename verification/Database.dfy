/** The records of the database package and the predicates declared on them. */
module Database {
  import opened Wrappers
  import opened MachineInts
  import Hex

  const KEY_SIZE := 32

  datatype Status =
    | Invalid
    | NotFound
    | NotReviewed
    | UnreviewedChanges
    | Rejected
    | Approved
    | Paid
    | Unsupported(code: int)  // any other number a request may carry

  /** `activated` and `deactivated` are zero until the event happens. */
  datatype Identity = Identity(key: seq<byte>, activated: int64, deactivated: int64) {
    predicate IsActive() {
      activated != 0 && deactivated == 0
    }

    /** The text under which the key is stored in, and looked up from, the identities table. */
    function KeyText(): string {
      Hex.Encode(key)
    }
  }

  /** A verification token: nil before the first one is issued, empty once it has been redeemed. */
  type Token = Option<seq<byte>>

  datatype User = User(
    id: uint64,
    email: string,
    username: string,
    name: string,
    location: string,
    extendedPublicKey: string,
    hashedPassword: Option<seq<byte>>,
    admin: bool,
    registerToken: Token,
    registerExpiry: int64,
    identityToken: Token,
    identityExpiry: int64,
    resetToken: Token,
    resetExpiry: int64,
    xpubToken: Token,
    xpubExpiry: int64,
    lastLogin: int64,
    failedLoginAttempts: uint64,
    paymentAddressIndex: uint64,
    emailNotifications: uint64,
    identities: seq<Identity>)
  {
    /** Despite the name: still holds a registration token, that is, has not registered yet. */
    predicate IsVerified() {
      registerToken.Some? && |registerToken.value| > 0
    }
  }

  datatype File = File(payload: string, mime: string, digest: string)

  datatype InvoiceChange = InvoiceChange(adminPublicKey: string, newStatus: Status, reason: string, timestamp: int64)

  datatype InvoicePayment = InvoicePayment(
    invoiceToken: string,
    isTotalCost: bool,
    address: string,
    amount: uint64,
    txNotBefore: int64,
    pollExpiry: int64,
    txID: string)

  datatype Invoice = Invoice(
    token: string,
    userID: uint64,
    username: string,
    month: uint16,
    year: uint16,
    timestamp: int64,
    status: Status,
    statusChangeReason: string,
    file: Option<File>,
    publicKey: string,
    userSignature: string,
    serverSignature: string,
    proposal: string,
    version: string,
    changes: seq<InvoiceChange>,
    payments: seq<InvoicePayment>)

  /** The index of the first active identity, if there is one. */
  function FirstActive(ids: seq<Identity>): (r: Option<nat>)
    ensures r.Some? ==> r.value < |ids| && ids[r.value].IsActive() && forall i | 0 <= i < r.value :: !ids[i].IsActive()
    ensures r.None? ==> forall i | 0 <= i < |ids| :: !ids[i].IsActive()
  {
    FirstActiveFrom(ids, 0)
  }

  function FirstActiveFrom(ids: seq<Identity>, k: nat): (r: Option<nat>)
    requires k <= |ids|
    ensures r.Some? ==> k <= r.value < |ids| && ids[r.value].IsActive() && forall i | k <= i < r.value ::
              !ids[i].IsActive()
    ensures r.None? ==> forall i | k <= i < |ids| :: !ids[i].IsActive()
    decreases |ids| - k
  {
    if k == |ids| then None else if ids[k].IsActive() then Some(k) else FirstActiveFrom(ids, k + 1)
  }

  /** ActiveIdentityString: the text of the current active key. */
  function ActiveKey(ids: seq<Identity>): Option<string> {
    var k :- FirstActive(ids);
    Some(ids[k].KeyText())
  }
}
