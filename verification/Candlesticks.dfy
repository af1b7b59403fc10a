/** Candlesticks and their text in the data file. Prices are fixed-point numbers of eight decimals. */
module Candlesticks {
  import opened Wrappers
  import opened MachineInts
  import Decimal

  /** The length of an interval in seconds. */
  const INTERVAL := 900

  const PRICE_UNIT := 1_0000_0000

  /** A price in units of 10^-8. */
  type Price = int

  datatype Candlestick = Candlestick(
    timestamp: int64,
    granularity: int64,
    open: Price,
    close: Price,
    high: Price,
    low: Price,
    volume: Price)

  /** One line of the data file: a DCR-BTC candlestick and a BTC-USD candlestick. */
  datatype Row = Row(dcrBTC: Candlestick, btcUSD: Candlestick)

  /** A month, by its first and past-the-end second. */
  datatype Month = Month(start: int, end: int)

  predicate Aligned(rows: seq<Row>) {
    forall k | 0 <= k < |rows| :: rows[k].dcrBTC.timestamp == rows[k].btcUSD.timestamp
  }

  predicate Increasing(rows: seq<Row>) {
    forall k, m | 0 <= k < m < |rows| :: rows[k].dcrBTC.timestamp < rows[m].dcrBTC.timestamp
  }

  // ---------------------------------------------------------------- prices

  function Zeros(n: nat): (s: string)
    ensures |s| == n && Decimal.AllDigits(s)
  {
    seq(n, _ => '0')
  }

  /** The decimals of a price, padded to eight digits. */
  function Fraction(f: nat): (s: string)
    requires f < PRICE_UNIT
  {
    var digits := Decimal.Print(f);
    if |digits| <= 8 then Zeros(8 - |digits|) + digits else digits
  }

  /** strconv.FormatFloat(x, 'f', 8, 64). */
  function PrintPrice(p: Price): string {
    var m: nat := if p < 0 then -p else p;
    (if p < 0 then "-" else "") + (Decimal.Print(m / PRICE_UNIT) + ("." + Fraction(m % PRICE_UNIT)))
  }

  function ParseMagnitude(s: string): (r: Option<nat>) {
    var (whole, rest) := Decimal.SplitDigits(s);
    if whole == "" || |rest| != 9 || rest[0] != '.' || !Decimal.AllDigits(rest[1..]) then None
    else Some(PRICE_UNIT * Decimal.Value(whole) + Decimal.Value(rest[1..]))
  }

  /** Parses the notation PrintPrice writes: a sign, digits, a point and eight decimals. */
  function ParsePrice(s: string): Option<Price> {
    if s != "" && s[0] == '-' then
      match ParseMagnitude(s[1..])
      case None => None
      case Some(m) => Some(0 - m)
    else
      match ParseMagnitude(s)
      case None => None
      case Some(m) => Some(m)
  }

  lemma {:induction false} ZerosBefore(n: nat, s: string)
    requires Decimal.AllDigits(s)
    ensures Decimal.AllDigits(Zeros(n) + s) && Decimal.Value(Zeros(n) + s) == Decimal.Value(s)
    decreases |s|
  {
    var t := Zeros(n) + s;
    if s != "" {
      ZerosBefore(n, s[..|s| - 1]);
      assert t[..|t| - 1] == Zeros(n) + s[..|s| - 1];
    } else {
      assert t == Zeros(n);
      ZerosValue(n);
    }
  }

  lemma {:induction false} ZerosValue(n: nat)
    ensures Decimal.Value(Zeros(n)) == 0
  {
    if n > 0 {
      ZerosValue(n - 1);
      assert Zeros(n)[..n - 1] == Zeros(n - 1);
    }
  }

  lemma {:induction false} PrintedLength(n: nat, k: nat, bound: nat)
    requires k > 0 && bound == Pow10(k) && n < bound
    ensures |Decimal.Print(n)| <= k
    decreases k
  {
    if n >= 10 {
      PrintedLength(n / 10, k - 1, bound / 10);
    }
  }

  function Pow10(k: nat): nat {
    if k == 0 then 1 else 10 * Pow10(k - 1)
  }

  lemma EightDigits(f: nat)
    requires f < PRICE_UNIT
    ensures |Decimal.Print(f)| <= 8
  {
    assert Pow10(8) == PRICE_UNIT by {
      assert Pow10(4) == 10000;
    }
    PrintedLength(f, 8, PRICE_UNIT);
  }

  lemma FractionText(f: nat)
    requires f < PRICE_UNIT
    ensures |Fraction(f)| == 8 && Decimal.AllDigits(Fraction(f)) && Decimal.Value(Fraction(f)) == f
  {
    EightDigits(f);
    Decimal.ValueOfPrint(f);
    ZerosBefore(8 - |Decimal.Print(f)|, Decimal.Print(f));
  }

  lemma MagnitudeRoundTrip(m: nat)
    ensures ParseMagnitude(Decimal.Print(m / PRICE_UNIT) + ("." + Fraction(m % PRICE_UNIT))) == Some(m)
  {
    var whole, f := m / PRICE_UNIT, m % PRICE_UNIT;
    FractionText(f);
    Decimal.ValueOfPrint(whole);
    ParseParts(Decimal.Print(whole), Fraction(f));
  }

  lemma ParseParts(whole: string, fraction: string)
    requires whole != "" && Decimal.AllDigits(whole) && |fraction| == 8 && Decimal.AllDigits(fraction)
    ensures ParseMagnitude(whole + ("." + fraction)) ==
              Some(PRICE_UNIT * Decimal.Value(whole) + Decimal.Value(fraction))
  {
    var tail := "." + fraction;
    Decimal.SplitDigitsAppend(whole, tail);
    assert tail[1..] == fraction;
  }

  lemma PriceRoundTrip(p: Price)
    ensures ParsePrice(PrintPrice(p)) == Some(p)
  {
    var m: nat := if p < 0 then -p else p;
    var body := Decimal.Print(m / PRICE_UNIT) + ("." + Fraction(m % PRICE_UNIT));
    MagnitudeRoundTrip(m);
    if p < 0 {
      ParseNegative(body, m);
    } else {
      assert Decimal.IsDigit(body[0]);
      ParsePositive(body, m);
      assert PrintPrice(p) == body;
    }
  }

  lemma ParsePositive(body: string, m: nat)
    requires ParseMagnitude(body) == Some(m) && body != "" && body[0] != '-'
    ensures ParsePrice(body) == Some(m)
  {
  }

  lemma ParseNegative(body: string, m: nat)
    requires ParseMagnitude(body) == Some(m)
    ensures ParsePrice("-" + body) == Some(0 - m)
  {
    var s := "-" + body;
    assert s[0] == '-' && s[1..] == body;
  }

  // ---------------------------------------------------------------- records

  /** How numbers are spelled in the fields of the data file. */
  datatype Notation = Notation(
    showInt: int64 -> string,
    readInt: string -> Option<int64>,
    showPrice: Price -> string,
    readPrice: string -> Option<Price>)

  function Csv(): Notation {
    Notation((x: int64) => Decimal.PrintInt(x), Decimal.ParseInt, PrintPrice, ParsePrice)
  }

  /** Reading gives back what was shown. */
  ghost predicate Faithful(n: Notation) {
    && (forall x: int64 :: n.readInt(n.showInt(x)) == Some(x))
    && (forall p: Price :: n.readPrice(n.showPrice(p)) == Some(p))
  }

  lemma CsvIsFaithful()
    ensures Faithful(Csv())
  {
    var n := Csv();
    forall x: int64 ensures n.readInt(n.showInt(x)) == Some(x) {
      Decimal.ParseIntOfPrint(x);
      assert n.readInt(n.showInt(x)) == Decimal.ParseInt(Decimal.PrintInt(x));
    }
    forall p: Price ensures n.readPrice(n.showPrice(p)) == Some(p) {
      PriceRoundTrip(p);
    }
  }

  /** convertCandlestickToStringArray */
  function ToStrings(n: Notation, c: Candlestick): (r: seq<string>)
    ensures |r| == 7
  {
    [ n.showInt(c.timestamp), n.showInt(c.granularity), n.showPrice(c.open), n.showPrice(c.close),
      n.showPrice(c.high), n.showPrice(c.low), n.showPrice(c.volume) ]
  }

  /** convertStringArrayToCandlestick reads the first seven fields; a record without them aborts. */
  function FromStrings(n: Notation, record: seq<string>): Option<Candlestick>
    requires |record| >= 7
  {
    var timestamp :- n.readInt(record[0]);
    var granularity :- n.readInt(record[1]);
    var open :- n.readPrice(record[2]);
    var close :- n.readPrice(record[3]);
    var high :- n.readPrice(record[4]);
    var low :- n.readPrice(record[5]);
    var volume :- n.readPrice(record[6]);
    Some(Candlestick(timestamp, granularity, open, close, high, low, volume))
  }

  /** A candlestick is read back from the front of any record it begins. */
  lemma CandlestickRoundTrip(n: Notation, c: Candlestick, more: seq<string>)
    requires Faithful(n)
    ensures FromStrings(n, ToStrings(n, c) + more) == Some(c)
  {
  }

  /** In the data file's own notation. */
  lemma FileRoundTrip(r: Row)
    ensures FromStrings(Csv(), Record(Csv(), r)[..7]) == Some(r.dcrBTC)
    ensures FromStrings(Csv(), Record(Csv(), r)[7..]) == Some(r.btcUSD)
  {
    CsvIsFaithful();
    RecordRoundTrip(Csv(), r);
  }

  /** The record written for a row, and back. */
  function Record(n: Notation, r: Row): (s: seq<string>)
    ensures |s| == 14
  {
    ToStrings(n, r.dcrBTC) + ToStrings(n, r.btcUSD)
  }

  lemma RecordRoundTrip(n: Notation, r: Row)
    requires Faithful(n)
    ensures FromStrings(n, Record(n, r)) == Some(r.dcrBTC)
    ensures FromStrings(n, Record(n, r)[..7]) == Some(r.dcrBTC) && FromStrings(n, Record(n, r)[7..]) == Some(r.btcUSD)
  {
    CandlestickRoundTrip(n, r.dcrBTC, ToStrings(n, r.btcUSD));
    CandlestickRoundTrip(n, r.dcrBTC, []);
    CandlestickRoundTrip(n, r.btcUSD, []);
    assert Record(n, r)[..7] == ToStrings(n, r.dcrBTC) + [];
    assert Record(n, r)[7..] == ToStrings(n, r.btcUSD) + [];
  }

  function Records(n: Notation, rows: seq<Row>): (r: seq<seq<string>>)
    ensures |r| == |rows|
  {
    seq(|rows|, k requires 0 <= k < |rows| => Record(n, rows[k]))
  }
}
