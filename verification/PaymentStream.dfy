/** The payments metadata stream: payments printed as back-to-back JSON objects and decoded until the end. */
module PaymentStream {
  import opened Wrappers
  import opened MachineInts
  import opened Database
  import Json

  const VERSION := 1

  datatype StreamPayment = StreamPayment(
    version: uint64,
    isTotalCost: bool,
    address: string,
    amount: uint64,
    txNotBefore: int64,
    txID: string)

  const ZERO_PAYMENT := StreamPayment(0, false, "", 0, 0, "")

  /** What the stream keeps of a database payment. */
  function ToStream(p: InvoicePayment): StreamPayment {
    StreamPayment(VERSION, p.isTotalCost, p.address, p.amount, p.txNotBefore, p.txID)
  }

  /** convertStreamPaymentToDatabaseInvoicePayment; saving stamps the invoice token. */
  function FromStream(token: string, p: StreamPayment): InvoicePayment {
    InvoicePayment(token, p.isTotalCost, p.address, p.amount, p.txNotBefore, 0, p.txID)
  }

  function ToStreamAll(ps: seq<InvoicePayment>): (r: seq<StreamPayment>)
    ensures |r| == |ps|
  {
    seq(|ps|, i requires 0 <= i < |ps| => ToStream(ps[i]))
  }

  function FromStreamAll(token: string, ps: seq<StreamPayment>): (r: seq<InvoicePayment>)
    ensures |r| == |ps|
  {
    seq(|ps|, i requires 0 <= i < |ps| => FromStream(token, ps[i]))
  }

  function Members(p: StreamPayment): seq<Json.Member> {
    [ Json.Member("version", Json.Number(p.version)),
      Json.Member("istotalcost", Json.Bool(p.isTotalCost)),
      Json.Member("address", Json.Text(p.address)),
      Json.Member("amount", Json.Number(p.amount)),
      Json.Member("txnotbefore", Json.Number(p.txNotBefore)),
      Json.Member("txid", Json.Text(p.txID)) ]
  }

  function Print(p: StreamPayment): (s: string)
    ensures s != "" && s[0] == '{'
  {
    Json.PrintObject(Members(p))
  }

  function PrintAll(ps: seq<StreamPayment>): string {
    if ps == [] then "" else PrintAll(ps[..|ps| - 1]) + Print(ps[|ps| - 1])
  }

  /** Stores one member into the struct: null leaves the field alone, unknown names are skipped, and a value of
      the wrong type or out of the field's range is an error. */
  function SetField(p: StreamPayment, m: Json.Member): Option<StreamPayment> {
    if m.value.Null? then Some(p)
    else if m.name == "version" then
      if m.value.Number? && 0 <= m.value.n < TWO_TO_THE_64 then Some(p.(version := m.value.n)) else None
    else if m.name == "istotalcost" then
      if m.value.Bool? then Some(p.(isTotalCost := m.value.b)) else None
    else if m.name == "address" then
      if m.value.Text? then Some(p.(address := m.value.s)) else None
    else if m.name == "amount" then
      if m.value.Number? && 0 <= m.value.n < TWO_TO_THE_64 then Some(p.(amount := m.value.n)) else None
    else if m.name == "txnotbefore" then
      if m.value.Number? && -TWO_TO_THE_63 <= m.value.n < TWO_TO_THE_63 then Some(p.(txNotBefore := m.value.n))
          else None
    else if m.name == "txid" then
      if m.value.Text? then Some(p.(txID := m.value.s)) else None
    else Some(p)
  }

  function SetFields(p: StreamPayment, ms: seq<Json.Member>): Option<StreamPayment>
    decreases |ms|
  {
    if ms == [] then Some(p)
    else
      var q :- SetField(p, ms[0]);
      SetFields(q, ms[1..])
  }

  /** One call of the stream decoder: the next object and the text after it. */
  function DecodeNext(s: string): (r: Option<(StreamPayment, string)>)
    ensures r.Some? ==> |r.value.1| < |s|
  {
    var (ms, rest) :- Json.ParseObject(Json.SkipSpace(s));
    var p :- SetFields(ZERO_PAYMENT, ms);
    Some((p, rest))
  }

  /** Decoding until the end of the text; any malformed object fails the whole stream. */
  function DecodeAll(s: string): Option<seq<StreamPayment>>
    decreases |s|
  {
    if Json.SkipSpace(s) == "" then Some([])
    else
      var (p, rest) :- DecodeNext(s);
      var ps :- DecodeAll(rest);
      Some([p] + ps)
  }

  lemma SetPrintedFields(p: StreamPayment)
    ensures SetFields(ZERO_PAYMENT, Members(p)) == Some(p)
  {
    var ms := Members(p);
    var p1 := ZERO_PAYMENT.(version := p.version);
    var p2 := p1.(isTotalCost := p.isTotalCost);
    var p3 := p2.(address := p.address);
    var p4 := p3.(amount := p.amount);
    var p5 := p4.(txNotBefore := p.txNotBefore);
    SetFieldsStep(p5, p, ms[5..]);
    SetFieldsStep(p4, p5, ms[4..]);
    SetFieldsStep(p3, p4, ms[3..]);
    SetFieldsStep(p2, p3, ms[2..]);
    SetFieldsStep(p1, p2, ms[1..]);
    SetFieldsStep(ZERO_PAYMENT, p1, ms);
  }

  lemma SetFieldsStep(p: StreamPayment, q: StreamPayment, ms: seq<Json.Member>)
    requires ms != [] && SetField(p, ms[0]) == Some(q)
    ensures SetFields(p, ms) == SetFields(q, ms[1..])
  {
  }

  /** One printed payment is self-delimiting: decoding it back consumes exactly its own text. */
  lemma DecodePrinted(p: StreamPayment, rest: string)
    ensures DecodeNext(Print(p) + rest) == Some((p, rest))
  {
    assert Json.SkipSpace(Print(p) + rest) == Print(p) + rest;
    Json.ParsePrintedObject(Members(p), rest);
    SetPrintedFields(p);
  }

  lemma DecodeAllStep(s: string, p: StreamPayment, rest: string)
    requires Json.SkipSpace(s) != "" && DecodeNext(s) == Some((p, rest))
    ensures DecodeAll(s).Some? <==> DecodeAll(rest).Some?
    ensures DecodeAll(rest).Some? ==> DecodeAll(s).value == [p] + DecodeAll(rest).value
  {
  }

  lemma DecodePrintedOne(p: StreamPayment, rest: string, after: seq<StreamPayment>)
    requires DecodeAll(rest) == Some(after)
    ensures DecodeAll(Print(p) + rest) == Some([p] + after)
  {
    var s := Print(p) + rest;
    DecodePrinted(p, rest);
    assert s[0] == '{' && Json.SkipSpace(s) == s;
    DecodeAllStep(s, p, rest);
  }

  lemma {:induction false} DecodePrintedBefore(ps: seq<StreamPayment>, rest: string, after: seq<StreamPayment>)
    requires DecodeAll(rest) == Some(after)
    ensures DecodeAll(PrintAll(ps) + rest) == Some(ps + after)
  {
    if ps == [] {
      assert PrintAll(ps) + rest == rest;
      assert ps + after == after;
    } else {
      var init, last := ps[..|ps| - 1], ps[|ps| - 1];
      DecodePrintedOne(last, rest, after);
      DecodePrintedBefore(init, Print(last) + rest, [last] + after);
      Json.Assoc(PrintAll(init), Print(last), rest);
      InitLast(ps, after);
    }
  }

  lemma InitLast(ps: seq<StreamPayment>, after: seq<StreamPayment>)
    requires ps != []
    ensures ps[..|ps| - 1] + ([ps[|ps| - 1]] + after) == ps + after
  {
  }

  /** The round trip: whatever the number of payments and whatever text their fields hold, decoding the printed
      stream until its end yields the same payments in the same order. */
  lemma DecodeOfPrint(ps: seq<StreamPayment>)
    ensures DecodeAll(PrintAll(ps)) == Some(ps)
  {
    assert DecodeAll("") == Some([]);
    DecodePrintedBefore(ps, "", []);
    assert PrintAll(ps) + "" == PrintAll(ps);
    assert ps + [] == ps;
  }

  /** Consequently no two payment lists share a stream. */
  lemma PrintInjective(a: seq<StreamPayment>, b: seq<StreamPayment>)
    requires PrintAll(a) == PrintAll(b)
    ensures a == b
  {
    DecodeOfPrint(a);
    DecodeOfPrint(b);
  }

  /** The text of the payments stream of an invoice. */
  function Payload(ps: seq<InvoicePayment>): string {
    PrintAll(ToStreamAll(ps))
  }

  lemma PayloadSnoc(ps: seq<InvoicePayment>, k: nat)
    requires k < |ps|
    ensures Payload(ps[..k + 1]) == Payload(ps[..k]) + Print(ToStream(ps[k]))
  {
    assert ToStreamAll(ps[..k + 1])[..k] == ToStreamAll(ps[..k]);
  }

  /** convertDatabaseInvoicePaymentsToStreamPayments: prints the payments one after another. */
  method PrintPayments(payments: seq<InvoicePayment>) returns (mdPayments: string)
    ensures mdPayments == Payload(payments)
  {
    mdPayments := "";
    var i := 0;
    while i < |payments|
      invariant i <= |payments|
      invariant mdPayments == Payload(payments[..i])
    {
      PayloadSnoc(payments, i);
      mdPayments := mdPayments + Print(ToStream(payments[i]));
      i := i + 1;
    }
    assert payments[..|payments|] == payments;
  }

  /** Reads an invoice's payments back from its stream. */
  function Recover(token: string, payload: string): Option<seq<InvoicePayment>> {
    var ps :- DecodeAll(payload);
    Some(FromStreamAll(token, ps))
  }

  /** What survives the stream: everything but the poll expiry, under the invoice's own token. */
  function Recovered(token: string, ps: seq<InvoicePayment>): (r: seq<InvoicePayment>)
    ensures |r| == |ps|
  {
    seq(|ps|, i requires 0 <= i < |ps| => ps[i].(invoiceToken := token, pollExpiry := 0))
  }

  /** Replaying a printed payments stream gives the same payments in the same order. */
  lemma RecoverPayload(token: string, ps: seq<InvoicePayment>)
    ensures Recover(token, Payload(ps)) == Some(Recovered(token, ps))
  {
    DecodeOfPrint(ToStreamAll(ps));
    assert FromStreamAll(token, ToStreamAll(ps)) == Recovered(token, ps);
  }

  /** The stream only depends on what it keeps. */
  lemma PayloadIgnoresExpiry(token: string, ps: seq<InvoicePayment>)
    ensures Payload(Recovered(token, ps)) == Payload(ps)
  {
    assert ToStreamAll(Recovered(token, ps)) == ToStreamAll(ps);
  }

  /** What is left to decode after the first payments of a text. */
  predicate Decodes(s: string, done: seq<StreamPayment>, rest: string) {
    match DecodeAll(rest)
    case None => DecodeAll(s).None?
    case Some(ps) => DecodeAll(s) == Some(done + ps)
  }

  lemma DecodesStart(s: string)
    ensures Decodes(s, [], s)
  {
    if DecodeAll(s).Some? {
      assert [] + DecodeAll(s).value == DecodeAll(s).value;
    }
  }

  lemma DecodesNext(s: string, done: seq<StreamPayment>, rest: string, p: StreamPayment, tail: string)
    requires Decodes(s, done, rest) && Json.SkipSpace(rest) != "" && DecodeNext(rest) == Some((p, tail))
    ensures Decodes(s, done + [p], tail)
  {
    DecodeAllStep(rest, p, tail);
    if DecodeAll(tail).Some? {
      assert done + ([p] + DecodeAll(tail).value) == done + [p] + DecodeAll(tail).value;
    }
  }

  lemma DecodesEnd(s: string, done: seq<StreamPayment>, rest: string)
    requires Decodes(s, done, rest)
    ensures Json.SkipSpace(rest) == "" ==> DecodeAll(s) == Some(done)
    ensures Json.SkipSpace(rest) != "" && DecodeNext(rest).None? ==> DecodeAll(s) == None
  {
    assert done + [] == done;
  }

  lemma FromStreamSnoc(token: string, ps: seq<StreamPayment>, p: StreamPayment)
    ensures FromStreamAll(token, ps + [p]) == FromStreamAll(token, ps) + [FromStream(token, p)]
  {
  }

  /** The payments branch of convertRecordToDatabaseInvoice: decodes objects until the end of the text. */
  method DecodePayments(token: string, payload: string) returns (r: Option<seq<InvoicePayment>>)
    ensures r == Recover(token, payload)
  {
    var payments: seq<InvoicePayment> := [];
    ghost var decoded: seq<StreamPayment> := [];
    var rest := payload;
    DecodesStart(payload);
    while Json.SkipSpace(rest) != ""
      invariant payments == FromStreamAll(token, decoded)
      invariant Decodes(payload, decoded, rest)
      decreases |rest|
    {
      DecodesEnd(payload, decoded, rest);
      var next := DecodeNext(rest);
      if next.None? {
        return None;
      }
      var (p, tail) := next.value;
      DecodesNext(payload, decoded, rest, p, tail);
      FromStreamSnoc(token, decoded, p);
      payments := payments + [FromStream(token, p)];
      decoded := decoded + [p];
      rest := tail;
    }
    DecodesEnd(payload, decoded, rest);
    return Some(payments);
  }
}
