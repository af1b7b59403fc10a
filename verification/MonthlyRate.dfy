/** The average rate of a month, read back from its data file, and whether the file misses part of the month. */
module MonthlyRate {
  import opened Wrappers
  import opened Candlesticks

  datatype Error = NoRecordsFound | BadRecord

  // ---------------------------------------------------------------- the mean

  function ToReal(p: Price): real {
    p as real / PRICE_UNIT as real
  }

  /** The rate of one interval: the averages of open and close of both pairs, multiplied. */
  function Product(r: Row): real {
    ((ToReal(r.dcrBTC.open) + ToReal(r.dcrBTC.close)) / 2.0) * ((ToReal(r.btcUSD.open) + ToReal(r.btcUSD.close)) / 2.0)
  }

  function Total(rows: seq<Row>): real {
    if rows == [] then 0.0 else Total(rows[..|rows| - 1]) + Product(rows[|rows| - 1])
  }

  function Mean(rows: seq<Row>): real
    requires rows != []
  {
    Total(rows) / |rows| as real
  }

  predicate Bounded(rows: seq<Row>, lo: real, hi: real) {
    forall k | 0 <= k < |rows| :: lo <= Product(rows[k]) <= hi
  }

  lemma {:induction false} TotalBounds(rows: seq<Row>, lo: real, hi: real)
    requires Bounded(rows, lo, hi)
    ensures |rows| as real * lo <= Total(rows) <= |rows| as real * hi
  {
    if rows != [] {
      var init := rows[..|rows| - 1];
      TotalBounds(init, lo, hi);
      assert |rows| as real * lo == |init| as real * lo + lo;
      assert |rows| as real * hi == |init| as real * hi + hi;
      assert lo <= Product(rows[|rows| - 1]) <= hi;
    }
  }

  lemma DivideBounds(total: real, n: real, lo: real, hi: real)
    requires n > 0.0 && n * lo <= total <= n * hi
    ensures lo <= total / n <= hi
  {
    var q := total / n;
    assert n * q == total;
    CancelFactor(n, lo, q);
    CancelFactor(n, q, hi);
  }

  lemma CancelFactor(n: real, x: real, y: real)
    requires n > 0.0 && n * x <= n * y
    ensures x <= y
  {
  }

  /** The rate lies between the smallest and the largest rate of an interval. */
  lemma MeanBetween(rows: seq<Row>, lo: real, hi: real)
    requires rows != [] && Bounded(rows, lo, hi)
    ensures lo <= Mean(rows) <= hi
  {
    TotalBounds(rows, lo, hi);
    DivideBounds(Total(rows), |rows| as real, lo, hi);
  }

  lemma NextTotal(rows: seq<Row>, row: Row)
    ensures Total(rows + [row]) == Total(rows) + Product(row)
  {
    assert (rows + [row])[..|rows|] == rows;
  }

  lemma {:induction false} TotalOfAppend(rows: seq<Row>, more: seq<Row>)
    ensures Total(rows + more) == Total(rows) + Total(more)
    decreases |more|
  {
    var all := rows + more;
    if more != [] {
      TotalOfAppend(rows, more[..|more| - 1]);
      assert all[..|all| - 1] == rows + more[..|more| - 1];
    } else {
      assert all == rows;
    }
  }

  /** Appending rows moves the rate towards the mean of what was appended, weighted by the numbers of rows. */
  lemma MeanOfAppend(rows: seq<Row>, more: seq<Row>)
    requires rows != [] && more != []
    ensures |rows + more| as real * Mean(rows + more) == |rows| as real * Mean(rows) + |more| as real * Mean(more)
  {
    TotalOfAppend(rows, more);
    TimesQuotient(Total(rows), |rows| as real);
    TimesQuotient(Total(more), |more| as real);
    TimesQuotient(Total(rows + more), |rows + more| as real);
  }

  lemma TimesQuotient(total: real, n: real)
    requires n > 0.0
    ensures n * (total / n) == total
  {
  }

  // ---------------------------------------------------------------- the mean in whole prices

  /** Four times the rate of an interval, in squared price units: the sums of open and close, multiplied. */
  function Cross(r: Row): int {
    (r.dcrBTC.open + r.dcrBTC.close) * (r.btcUSD.open + r.btcUSD.close)
  }

  function CrossSum(rows: seq<Row>): int {
    if rows == [] then 0 else CrossSum(rows[..|rows| - 1]) + Cross(rows[|rows| - 1])
  }

  const SQUARE := PRICE_UNIT as real * PRICE_UNIT as real

  /** The rate in whole prices: four times the rate, times the number of rows, is the sum over the rows. */
  predicate IsRate(rows: seq<Row>, rate: real) {
    4.0 * rate * |rows| as real * SQUARE == CrossSum(rows) as real
  }

  lemma FourProducts(a: real, b: real, unit: real)
    requires unit > 0.0
    ensures 4.0 * (((a / unit) / 2.0) * ((b / unit) / 2.0)) * (unit * unit) == a * b
  {
    var x, y := a / unit, b / unit;
    assert x * unit == a && y * unit == b;
    FourFactors(x, y, unit);
  }

  lemma FourFactors(x: real, y: real, unit: real)
    ensures 4.0 * ((x / 2.0) * (y / 2.0)) * (unit * unit) == (x * unit) * (y * unit)
  {
    assert 4.0 * ((x / 2.0) * (y / 2.0)) == x * y;
    assert (x * y) * (unit * unit) == (x * unit) * (y * unit);
  }

  lemma SumOfPrices(a: Price, b: Price)
    ensures ToReal(a) + ToReal(b) == (a + b) as real / PRICE_UNIT as real
  {
    var u := PRICE_UNIT as real;
    assert a as real / u + b as real / u == (a as real + b as real) / u;
  }

  lemma RealTimes(a: int, b: int)
    ensures a as real * b as real == (a * b) as real
  {
  }

  lemma ProductInPrices(r: Row)
    ensures 4.0 * Product(r) * SQUARE == Cross(r) as real
  {
    var a, b := r.dcrBTC.open + r.dcrBTC.close, r.btcUSD.open + r.btcUSD.close;
    SumOfPrices(r.dcrBTC.open, r.dcrBTC.close);
    SumOfPrices(r.btcUSD.open, r.btcUSD.close);
    FourProducts(a as real, b as real, PRICE_UNIT as real);
    RealTimes(a, b);
  }

  lemma {:induction false} TotalInPrices(rows: seq<Row>)
    ensures 4.0 * Total(rows) * SQUARE == CrossSum(rows) as real
  {
    if rows != [] {
      TotalInPrices(rows[..|rows| - 1]);
      ProductInPrices(rows[|rows| - 1]);
      Distributes(Total(rows[..|rows| - 1]), Product(rows[|rows| - 1]), SQUARE);
    }
  }

  lemma Distributes(x: real, y: real, z: real)
    ensures 4.0 * (x + y) * z == 4.0 * x * z + 4.0 * y * z
  {
  }

  lemma MeanInPrices(rows: seq<Row>)
    requires rows != []
    ensures IsRate(rows, Mean(rows))
  {
    TotalInPrices(rows);
    TimesQuotient(Total(rows), |rows| as real);
    Regroup(Mean(rows), |rows| as real, SQUARE);
  }

  lemma Regroup(x: real, n: real, z: real)
    ensures 4.0 * x * n * z == 4.0 * (n * x) * z
  {
  }

  /** A file has one rate. */
  lemma OneRate(rows: seq<Row>, rate: real, other: real)
    requires rows != [] && IsRate(rows, rate) && IsRate(rows, other)
    ensures rate == other
  {
    Regroup(rate, |rows| as real, SQUARE);
    Regroup(other, |rows| as real, SQUARE);
    SameFactor(rate, other, |rows| as real, SQUARE);
  }

  lemma SameFactor(x: real, y: real, n: real, z: real)
    requires n > 0.0 && z > 0.0 && 4.0 * x * n * z == 4.0 * y * n * z
    ensures x == y
  {
    var f := 4.0 * n * z;
    assert f > 0.0 && x * f == y * f;
  }

  /** Files whose rows have the same open and close prices have the same rate: high, low and volume do not count. */
  lemma {:induction false} OpenAndCloseDecide(rows: seq<Row>, others: seq<Row>)
    requires |rows| == |others|
    requires forall k | 0 <= k < |rows| ::
               && rows[k].dcrBTC.open == others[k].dcrBTC.open && rows[k].dcrBTC.close == others[k].dcrBTC.close
               && rows[k].btcUSD.open == others[k].btcUSD.open && rows[k].btcUSD.close == others[k].btcUSD.close
    ensures CrossSum(rows) == CrossSum(others)
    ensures forall rate :: IsRate(rows, rate) <==> IsRate(others, rate)
  {
    if rows != [] {
      OpenAndCloseDecide(rows[..|rows| - 1], others[..|others| - 1]);
    }
  }

  /** The open and close prices of both pairs lie within these bounds. */
  predicate PricesWithin(rows: seq<Row>, lowDCR: Price, highDCR: Price, lowBTC: Price, highBTC: Price) {
    forall k | 0 <= k < |rows| ::
      && lowDCR <= rows[k].dcrBTC.open <= highDCR && lowDCR <= rows[k].dcrBTC.close <= highDCR
      && lowBTC <= rows[k].btcUSD.open <= highBTC && lowBTC <= rows[k].btcUSD.close <= highBTC
  }

  lemma ProductsWithin(x: int, y: int, lowX: int, highX: int, lowY: int, highY: int)
    requires 0 <= lowX <= x <= highX && 0 <= lowY <= y <= highY
    ensures lowX * lowY <= x * y <= highX * highY
  {
    assert lowX * lowY <= x * lowY <= x * y;
    assert x * y <= highX * y <= highX * highY;
  }

  lemma {:induction false} CrossWithin(rows: seq<Row>, lowDCR: Price, highDCR: Price, lowBTC: Price, highBTC: Price)
    requires 0 <= lowDCR && 0 <= lowBTC && PricesWithin(rows, lowDCR, highDCR, lowBTC, highBTC)
    ensures 4 * |rows| * (lowDCR * lowBTC) <= CrossSum(rows) <= 4 * |rows| * (highDCR * highBTC)
  {
    if rows != [] {
      var n := |rows| - 1;
      var x, y := rows[n].dcrBTC.open + rows[n].dcrBTC.close, rows[n].btcUSD.open + rows[n].btcUSD.close;
      CrossWithin(rows[..n], lowDCR, highDCR, lowBTC, highBTC);
      ProductsWithin(x, y, 2 * lowDCR, 2 * highDCR, 2 * lowBTC, 2 * highBTC);
      FourTimes(n, lowDCR, lowBTC);
      FourTimes(n, highDCR, highBTC);
    }
  }

  lemma FourTimes(n: nat, x: int, y: int)
    ensures 4 * (n + 1) * (x * y) == 4 * n * (x * y) + (2 * x) * (2 * y)
  {
  }

  /** For prices that are not negative, the rate of a file lies between the product of the least and the product of
      the greatest open or close prices of the two pairs. */
  lemma RateWithin(rows: seq<Row>, rate: real, lowDCR: Price, highDCR: Price, lowBTC: Price, highBTC: Price)
    requires rows != [] && IsRate(rows, rate)
    requires 0 <= lowDCR && 0 <= lowBTC && PricesWithin(rows, lowDCR, highDCR, lowBTC, highBTC)
    ensures (lowDCR * lowBTC) as real <= rate * SQUARE <= (highDCR * highBTC) as real
  {
    CrossWithin(rows, lowDCR, highDCR, lowBTC, highBTC);
    DivideFour(rate * SQUARE, |rows|, lowDCR * lowBTC, highDCR * highBTC, CrossSum(rows));
  }

  /** The rate lies within whatever bounds the open and close prices have. */
  ghost predicate Between(rows: seq<Row>, rate: real) {
    forall lowDCR, highDCR, lowBTC, highBTC ::
      0 <= lowDCR && 0 <= lowBTC && PricesWithin(rows, lowDCR, highDCR, lowBTC, highBTC) ==>
        (lowDCR * lowBTC) as real <= rate * SQUARE <= (highDCR * highBTC) as real
  }

  lemma RateBetween(rows: seq<Row>, rate: real)
    requires rows != [] && IsRate(rows, rate)
    ensures Between(rows, rate)
  {
    forall lowDCR, highDCR, lowBTC, highBTC |
      0 <= lowDCR && 0 <= lowBTC && PricesWithin(rows, lowDCR, highDCR, lowBTC, highBTC)
      ensures (lowDCR * lowBTC) as real <= rate * SQUARE <= (highDCR * highBTC) as real
    {
      RateWithin(rows, rate, lowDCR, highDCR, lowBTC, highBTC);
    }
  }

  lemma DivideFour(x: real, n: nat, lo: int, hi: int, sum: int)
    requires n > 0 && 4 * n * lo <= sum <= 4 * n * hi && 4.0 * x * n as real == sum as real
    ensures lo as real <= x <= hi as real
  {
    var f := 4.0 * n as real;
    assert f * lo as real == (4 * n * lo) as real && f * hi as real == (4 * n * hi) as real;
    assert f * x == sum as real;
    CancelFactor(f, lo as real, x);
    CancelFactor(f, x, hi as real);
  }

  // ---------------------------------------------------------------- the missing flag

  /** Go's integer division, which truncates towards zero. */
  function Quotient(x: int, y: int): int
    requires y > 0
  {
    if x < 0 then -(-x / y) else x / y
  }

  /** The flag as the code computes it: the last row is looked at only when it is not the first, and the number of
      intervals is start minus end. */
  function Flag(rows: seq<Row>, m: Month): bool
    requires rows != []
  {
    || rows[0].dcrBTC.timestamp > m.start + INTERVAL
    || (|rows| > 1 && rows[|rows| - 1].dcrBTC.timestamp < m.end - INTERVAL)
    || |rows| < Quotient(m.start - m.end, INTERVAL)
  }

  /** The count test never fires, so a false flag says that the first and the last row reach the edges of the month,
      and of a single row only that it is early enough. */
  lemma FlagIsEdges(rows: seq<Row>, m: Month)
    requires rows != [] && m.start <= m.end
    ensures Quotient(m.start - m.end, INTERVAL) <= 0
    ensures !Flag(rows, m) <==>
              && rows[0].dcrBTC.timestamp <= m.start + INTERVAL
              && (|rows| == 1 || rows[|rows| - 1].dcrBTC.timestamp >= m.end - INTERVAL)
  {
  }

  /** The intervals of the month. */
  function Intervals(m: Month): nat {
    if m.start <= m.end then (m.end - m.start) / INTERVAL else 0
  }

  function SlotTime(m: Month, k: int): int {
    m.start + INTERVAL * k
  }

  predicate HasSlot(rows: seq<Row>, m: Month, k: int) {
    exists j | 0 <= j < |rows| :: rows[j].dcrBTC.timestamp == SlotTime(m, k)
  }

  predicate Complete(rows: seq<Row>, m: Month) {
    forall k | 0 <= k < Intervals(m) :: HasSlot(rows, m, k)
  }

  /** A month of whole intervals, at least two. */
  predicate WholeMonth(m: Month) {
    m.start + 2 * INTERVAL <= m.end && (m.end - m.start) % INTERVAL == 0
  }

  /** Rows from the start of the month on, on its 15-minute grid. Nothing keeps them from running past its end. */
  predicate OnGrid(rows: seq<Row>, m: Month) {
    forall k | 0 <= k < |rows| :: m.start <= rows[k].dcrBTC.timestamp &&
        (rows[k].dcrBTC.timestamp - m.start) % INTERVAL == 0
  }

  /** How many rows lie before the end of the month; for increasing rows these come first. */
  function Within(rows: seq<Row>, m: Month): (n: nat)
    ensures n <= |rows|
  {
    if rows == [] then 0
    else if rows[|rows| - 1].dcrBTC.timestamp < m.end then |rows|
    else Within(rows[..|rows| - 1], m)
  }

  lemma {:induction false} WithinIsPrefix(rows: seq<Row>, m: Month, k: nat)
    requires Increasing(rows) && k < |rows|
    ensures rows[k].dcrBTC.timestamp < m.end <==> k < Within(rows, m)
  {
    if rows[|rows| - 1].dcrBTC.timestamp >= m.end && k < |rows| - 1 {
      WithinIsPrefix(rows[..|rows| - 1], m, k);
    }
  }

  function Slots(n: nat): (s: set<int>)
    ensures forall k :: k in s <==> 0 <= k < n
  {
    if n == 0 then {} else Slots(n - 1) + {n - 1}
  }

  lemma {:induction false} SlotsSize(n: nat)
    ensures |Slots(n)| == n
  {
    if n > 0 {
      SlotsSize(n - 1);
    }
  }

  /** The intervals of the month without a row. */
  function Missing(rows: seq<Row>, m: Month): (s: set<int>)
    ensures forall k :: k in s <==> 0 <= k < Intervals(m) && !HasSlot(rows, m, k)
  {
    set k | k in Slots(Intervals(m)) && !HasSlot(rows, m, k)
  }

  function Slot(m: Month, t: int): int {
    (t - m.start) / INTERVAL
  }

  lemma SlotOfTime(m: Month, t: int)
    requires WholeMonth(m) && m.start <= t && (t - m.start) % INTERVAL == 0
    ensures 0 <= Slot(m, t) && SlotTime(m, Slot(m, t)) == t
    ensures t < m.end <==> Slot(m, t) < Intervals(m)
  {
  }

  lemma HasSlotOfInit(rows: seq<Row>, m: Month, k: int)
    requires rows != []
    ensures HasSlot(rows, m, k) <==>
              HasSlot(rows[..|rows| - 1], m, k) || rows[|rows| - 1].dcrBTC.timestamp == SlotTime(m, k)
  {
    var init := rows[..|rows| - 1];
    if HasSlot(init, m, k) {
      var j :| 0 <= j < |init| && init[j].dcrBTC.timestamp == SlotTime(m, k);
      assert rows[j].dcrBTC.timestamp == SlotTime(m, k);
    }
    if HasSlot(rows, m, k) && rows[|rows| - 1].dcrBTC.timestamp != SlotTime(m, k) {
      var j :| 0 <= j < |rows| && rows[j].dcrBTC.timestamp == SlotTime(m, k);
      assert init[j].dcrBTC.timestamp == SlotTime(m, k);
    }
  }

  /** The pigeonhole principle behind the intended count test: for increasing rows on the grid, the rows before the
      end of the month and the intervals without a row add up to the intervals of the month. */
  lemma {:induction false} RowsAndHoles(rows: seq<Row>, m: Month)
    requires WholeMonth(m) && OnGrid(rows, m) && Increasing(rows)
    ensures Within(rows, m) + |Missing(rows, m)| == Intervals(m)
  {
    if rows == [] {
      assert Missing(rows, m) == Slots(Intervals(m));
      SlotsSize(Intervals(m));
    } else {
      RowsAndHoles(rows[..|rows| - 1], m);
      LastRow(rows, m);
    }
  }

  /** The last row fills one more interval if it lies before the end of the month, and none otherwise. */
  lemma LastRow(rows: seq<Row>, m: Month)
    requires WholeMonth(m) && OnGrid(rows, m) && Increasing(rows) && rows != []
    ensures var init, last := rows[..|rows| - 1], rows[|rows| - 1].dcrBTC.timestamp;
            if last < m.end
            then Within(rows, m) == Within(init, m) + 1 && |Missing(init, m)| == |Missing(rows, m)| + 1
            else Within(rows, m) == Within(init, m) && Missing(init, m) == Missing(rows, m)
  {
    var init, last := rows[..|rows| - 1], rows[|rows| - 1].dcrBTC.timestamp;
    LastSlot(rows, m);
    if last < m.end {
      assert Missing(init, m) == Missing(rows, m) + {Slot(m, last)};
      if init != [] {
        assert init[|init| - 1].dcrBTC.timestamp < last;
      }
    } else {
      assert Missing(init, m) == Missing(rows, m);
    }
  }

  /** The slot of the last row, which no row before it has. */
  lemma LastSlot(rows: seq<Row>, m: Month)
    requires WholeMonth(m) && OnGrid(rows, m) && Increasing(rows) && rows != []
    ensures var init, s := rows[..|rows| - 1], Slot(m, rows[|rows| - 1].dcrBTC.timestamp);
            && 0 <= s && (s < Intervals(m) <==> rows[|rows| - 1].dcrBTC.timestamp < m.end)
            && !HasSlot(init, m, s)
            && forall k :: HasSlot(rows, m, k) <==> HasSlot(init, m, k) || k == s
  {
    var init, last := rows[..|rows| - 1], rows[|rows| - 1].dcrBTC.timestamp;
    SlotOfTime(m, last);
    forall k ensures HasSlot(rows, m, k) <==> HasSlot(init, m, k) || k == Slot(m, last) {
      HasSlotOfInit(rows, m, k);
    }
  }

  /** The month is complete if and only if as many rows as it has intervals lie before its end. */
  lemma CompleteIff(rows: seq<Row>, m: Month)
    requires WholeMonth(m) && OnGrid(rows, m) && Increasing(rows)
    ensures Complete(rows, m) <==> Missing(rows, m) == {}
    ensures Complete(rows, m) <==> Within(rows, m) >= Intervals(m)
  {
    RowsAndHoles(rows, m);
    if Complete(rows, m) {
      assert forall k | k in Missing(rows, m) :: false;
    }
    if Missing(rows, m) == {} {
      forall k | 0 <= k < Intervals(m) ensures HasSlot(rows, m, k) {
        assert k !in Missing(rows, m);
      }
    }
  }

  /** Counting the rows of the whole file, as the code means to, finds out whether the month is incomplete if and
      only if nothing is missing or fewer rows lie past the end of the month than are missing within. */
  lemma CountTestIff(rows: seq<Row>, m: Month)
    requires WholeMonth(m) && OnGrid(rows, m) && Increasing(rows)
    ensures (|rows| < Intervals(m) <==> !Complete(rows, m)) <==>
              Missing(rows, m) == {} || |rows| - Within(rows, m) < |Missing(rows, m)|
  {
    RowsAndHoles(rows, m);
    CompleteIff(rows, m);
  }

  /** What the flag sees of the missing intervals: the first two, or the last one of a file of two rows or more
      that does not run past the end of the month. */
  predicate SeenMissing(rows: seq<Row>, m: Month) {
    || (!HasSlot(rows, m, 0) && !HasSlot(rows, m, 1))
    || (|rows| > 1 && !HasSlot(rows, m, Intervals(m) - 1) && Within(rows, m) == |rows|)
  }

  lemma FlagSees(rows: seq<Row>, m: Month)
    requires WholeMonth(m) && OnGrid(rows, m) && Increasing(rows) && rows != []
    ensures Flag(rows, m) <==> SeenMissing(rows, m)
  {
    FirstRowSees(rows, m);
    LastRowSees(rows, m);
    FlagIsEdges(rows, m);
  }

  lemma FirstRowSees(rows: seq<Row>, m: Month)
    requires WholeMonth(m) && OnGrid(rows, m) && Increasing(rows) && rows != []
    ensures rows[0].dcrBTC.timestamp > m.start + INTERVAL <==> !HasSlot(rows, m, 0) && !HasSlot(rows, m, 1)
  {
    var first := rows[0].dcrBTC.timestamp;
    SlotOfTime(m, first);
    if first > m.start + INTERVAL {
      assert forall j | 0 <= j < |rows| :: first <= rows[j].dcrBTC.timestamp;
    } else {
      assert Slot(m, first) == 0 || Slot(m, first) == 1;
      assert HasSlot(rows, m, Slot(m, first));
    }
  }

  lemma LastRowSees(rows: seq<Row>, m: Month)
    requires WholeMonth(m) && OnGrid(rows, m) && Increasing(rows) && rows != []
    ensures rows[|rows| - 1].dcrBTC.timestamp < m.end - INTERVAL <==>
              !HasSlot(rows, m, Intervals(m) - 1) && Within(rows, m) == |rows|
  {
    var last := rows[|rows| - 1].dcrBTC.timestamp;
    SlotOfTime(m, last);
    WithinIsPrefix(rows, m, |rows| - 1);
    if last < m.end - INTERVAL {
      assert forall j | 0 <= j < |rows| :: rows[j].dcrBTC.timestamp <= last;
    } else if last < m.end {
      assert Slot(m, last) == Intervals(m) - 1;
      assert HasSlot(rows, m, Slot(m, last));
    }
  }

  /** A set flag is no false alarm, and the flag tells whether the month is incomplete if and only if the month is
      complete, the first two intervals are missing, or the last one is and no row lies past the end. */
  lemma FlagIsRightIff(rows: seq<Row>, m: Month)
    requires WholeMonth(m) && OnGrid(rows, m) && Increasing(rows) && rows != []
    ensures Flag(rows, m) ==> !Complete(rows, m)
    ensures (Flag(rows, m) <==> !Complete(rows, m)) <==> Missing(rows, m) == {} || SeenMissing(rows, m)
  {
    FlagSees(rows, m);
    CompleteIff(rows, m);
    assert Complete(rows, m) ==> HasSlot(rows, m, 0) && HasSlot(rows, m, Intervals(m) - 1);
  }

  /** In every month of three intervals or more a file of only the first and the last interval goes unflagged,
      although every interval between them is missing. */
  lemma UnseenHole(first: Row, last: Row, m: Month)
    requires WholeMonth(m) && Intervals(m) >= 3
    requires first.dcrBTC.timestamp == m.start && last.dcrBTC.timestamp == m.end - INTERVAL
    ensures OnGrid([first, last], m) && Increasing([first, last]) && !Flag([first, last], m)
    ensures forall k | 0 < k < Intervals(m) - 1 :: !HasSlot([first, last], m, k)
  {
  }

  // ---------------------------------------------------------------- reading the file

  function ReadRow(n: Notation, record: seq<string>): Option<Row>
    requires |record| >= 14
  {
    var dcrBTC :- FromStrings(n, record[..7]);
    var btcUSD :- FromStrings(n, record[7..]);
    Some(Row(dcrBTC, btcUSD))
  }

  /** The rows of a file, if every record of it can be read. */
  function ReadRows(n: Notation, records: seq<seq<string>>): (r: Option<seq<Row>>)
    requires forall k | 0 <= k < |records| :: |records[k]| >= 14
    ensures r.Some? ==> |r.value| == |records|
  {
    if forall k | 0 <= k < |records| :: ReadRow(n, records[k]).Some?
    then Some(seq(|records|, k requires 0 <= k < |records| => ReadRow(n, records[k]).value))
    else None
  }

  /** What the loop has found out about the edges; the last row is looked at only when all are read. */
  predicate Edges(rows: seq<Row>, m: Month, whole: bool) {
    || (rows != [] && rows[0].dcrBTC.timestamp > m.start + INTERVAL)
    || (whole && |rows| > 1 && rows[|rows| - 1].dcrBTC.timestamp < m.end - INTERVAL)
  }

  lemma NextEdges(rows: seq<Row>, row: Row, m: Month, whole: bool)
    ensures Edges(rows + [row], m, whole) <==>
              || Edges(rows, m, false)
              || (rows == [] && row.dcrBTC.timestamp > m.start + INTERVAL)
              || (rows != [] && whole && row.dcrBTC.timestamp < m.end - INTERVAL)
  {
  }

  /** Reading one more record: it extends the rows read so far, or fails the whole file. */
  lemma ReadsNext(n: Notation, records: seq<seq<string>>, k: nat, rows: seq<Row>)
    requires k < |records|
    requires forall k | 0 <= k < |records| :: |records[k]| >= 14
    requires ReadRows(n, records[..k]) == Some(rows)
    ensures match ReadRow(n, records[k])
            case None => ReadRows(n, records) == None
            case Some(row) => ReadRows(n, records[..k + 1]) == Some(rows + [row])
  {
    if ReadRow(n, records[k]).Some? {
      assert ReadRows(n, records[..k + 1]).value == rows + [ReadRow(n, records[k]).value];
    }
  }

  /** A file read back gives the rows it was written from. */
  lemma ReadBack(n: Notation, rows: seq<Row>)
    requires Faithful(n)
    ensures ReadRows(n, Records(n, rows)) == Some(rows)
  {
    var records := Records(n, rows);
    forall k | 0 <= k < |rows| ensures ReadRow(n, records[k]) == Some(rows[k]) {
      ReadRowBack(n, rows[k]);
    }
    assert ReadRows(n, records).value == rows;
  }

  lemma ReadRowBack(n: Notation, row: Row)
    requires Faithful(n)
    ensures ReadRow(n, Record(n, row)) == Some(row)
  {
    RecordRoundTrip(n, row);
  }

  /** The reply for the rows of a file: their rate, and the flag. */
  predicate Averaged(rows: seq<Row>, m: Month, reply: Result<(real, bool), Error>)
    requires rows != []
  {
    reply == Ok((Mean(rows), Flag(rows, m))) && IsRate(rows, reply.value.0)
  }

  /** What the loop has come to, once all rows are read. */
  lemma AllAveraged(rows: seq<Row>, m: Month, total: real, missing: bool)
    requires rows != [] && total == Total(rows)
    requires missing <==> Edges(rows, m, true) || |rows| < Quotient(m.start - m.end, INTERVAL)
    ensures Averaged(rows, m, Ok((total / |rows| as real, missing)))
  {
    MeanInPrices(rows);
  }

  /** The loop of CalculateRateForMonth over the records of the file; a field that is no number ends it with an
      error. */
  method AverageRecords(n: Notation, records: seq<seq<string>>, m: Month) returns (r: Result<(real, bool), Error>)
    requires forall k | 0 <= k < |records| :: |records[k]| >= 14
    ensures records == [] ==> r == Err(NoRecordsFound)
    ensures records != [] ==>
              match ReadRows(n, records)
              case None => r == Err(BadRecord)
              case Some(rows) => Averaged(rows, m, r)
  {
    if |records| == 0 {
      return Err(NoRecordsFound);
    }
    var isDataMissing := false;
    var total := 0.0;
    ghost var rows: seq<Row> := [];
    for idx := 0 to |records|
      invariant ReadRows(n, records[..idx]) == Some(rows)
      invariant total == Total(rows)
      invariant isDataMissing <==> Edges(rows, m, idx == |records|)
    {
      var record := records[idx];
      ReadsNext(n, records, idx, rows);
      var read := ReadRow(n, record);
      if read.None? {
        return Err(BadRecord);
      }
      var row := read.value;
      NextEdges(rows, row, m, idx + 1 == |records|);
      if idx == 0 {
        if row.dcrBTC.timestamp > m.start + INTERVAL {
          isDataMissing := true;
        }
      } else if idx == |records| - 1 {
        if row.dcrBTC.timestamp < m.end - INTERVAL {
          isDataMissing := true;
        }
      }
      total := total + Product(row);
      NextTotal(rows, row);
      rows := rows + [row];
    }
    assert records[..|records|] == records;
    var numIntervalsInMonth := Quotient(m.start - m.end, INTERVAL);
    if |records| < numIntervalsInMonth {
      isDataMissing := true;
    }
    AllAveraged(rows, m, total, isDataMissing);
    return Ok((total / |records| as real, isDataMissing));
  }
}
