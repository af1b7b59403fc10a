/** The rate calculator: aligning two candlestick feeds, extending the monthly data file until nothing more is
    to be had, and averaging a month. Times are Unix seconds; a month is given by its first and past-the-end second. */
module RateCalc {
  import opened Wrappers
  import opened MachineInts
  import opened Candlesticks
  import MonthlyRate

  type Feed = seq<Candlestick>

  predicate StrictlyIncreasing(a: Feed) {
    forall i, j | 0 <= i < j < |a| :: a[i].timestamp < a[j].timestamp
  }

  predicate GapFree(a: Feed) {
    forall i | 0 <= i < |a| - 1 :: a[i + 1].timestamp == a[i].timestamp + INTERVAL
  }

  // ---------------------------------------------------------------- aligning two feeds

  /** The rest of the loop of getDataIndices from positions i and j. */
  function Align(a: Feed, b: Feed, i: nat, j: nat, curr: int): (r: Option<(nat, nat)>)
    requires i <= |a| && j <= |b|
    ensures r.Some? ==> i <= r.value.0 < |a| && j <= r.value.1 < |b|
    decreases |a| - i + |b| - j
  {
    if i == |a| || j == |b| then None
    else if a[i].timestamp < b[j].timestamp then Align(a, b, i + 1, j, curr)
    else if b[j].timestamp < a[i].timestamp then Align(a, b, i, j + 1, curr)
    else if a[i].timestamp < curr then Align(a, b, i + 1, j + 1, curr)
    else Some((i, j))
  }

  /** A pair of positions with one common timestamp that is not too early. */
  predicate Common(a: Feed, b: Feed, i: nat, j: nat, curr: int) {
    i < |a| && j < |b| && a[i].timestamp == b[j].timestamp && curr <= a[i].timestamp
  }

  lemma {:induction false} AlignIsLeast(a: Feed, b: Feed, i: nat, j: nat, curr: int)
    requires StrictlyIncreasing(a) && StrictlyIncreasing(b) && i <= |a| && j <= |b|
    ensures var r := Align(a, b, i, j, curr);
            match r
            case None => forall p, q | i <= p && j <= q :: !Common(a, b, p, q, curr)
            case Some((m, n)) =>
              Common(a, b, m, n, curr) && forall p, q | i <= p && j <= q && Common(a, b, p, q, curr) :: m <= p && n <= q
    decreases |a| - i + |b| - j
  {
    if i == |a| || j == |b| {
    } else if a[i].timestamp < b[j].timestamp {
      AlignIsLeast(a, b, i + 1, j, curr);
      forall p, q | i <= p && j <= q && Common(a, b, p, q, curr) ensures p != i {
        assert b[j].timestamp <= b[q].timestamp;
      }
    } else if b[j].timestamp < a[i].timestamp {
      AlignIsLeast(a, b, i, j + 1, curr);
      forall p, q | i <= p && j <= q && Common(a, b, p, q, curr) ensures q != j {
        assert a[i].timestamp <= a[p].timestamp;
      }
    } else if a[i].timestamp < curr {
      AlignIsLeast(a, b, i + 1, j + 1, curr);
      forall p, q | i <= p && j <= q && Common(a, b, p, q, curr) ensures p != i && q != j {
      }
    }
  }

  function Later(x: int, y: int): int {
    if x < y then y else x
  }

  /** Raising the current time to the first timestamps of the feeds changes nothing. */
  lemma RaisedTimeSameResult(a: Feed, b: Feed, curr: int)
    requires StrictlyIncreasing(a) && StrictlyIncreasing(b) && a != [] && b != []
    ensures Align(a, b, 0, 0, Later(Later(curr, a[0].timestamp), b[0].timestamp)) == Align(a, b, 0, 0, curr)
  {
    var raised := Later(Later(curr, a[0].timestamp), b[0].timestamp);
    AlignIsLeast(a, b, 0, 0, raised);
    AlignIsLeast(a, b, 0, 0, curr);
    forall p: nat, q: nat ensures Common(a, b, p, q, raised) <==> Common(a, b, p, q, curr) {
      if p < |a| && q < |b| {
        assert a[0].timestamp <= a[p].timestamp && b[0].timestamp <= b[q].timestamp;
      }
    }
  }

  /** getDataIndices: for strictly increasing feeds, the least pair of positions with a common timestamp at or
      after the current time, or -1 twice exactly when there is none. */
  method GetDataIndices(currIntervalTime: int, a: Feed, b: Feed) returns (time: int, i: int, j: int)
    requires a != [] && b != []
    ensures time == Later(Later(currIntervalTime, a[0].timestamp), b[0].timestamp)
    ensures match Align(a, b, 0, 0, time) case None => i == j == -1 case Some((m, n)) => i == m && j == n
    ensures StrictlyIncreasing(a) && StrictlyIncreasing(b) ==>
              if exists p: nat, q: nat :: Common(a, b, p, q, currIntervalTime)
              then i >= 0 && j >= 0 && Common(a, b, i, j, currIntervalTime) &&
                   forall p: nat, q: nat | Common(a, b, p, q, currIntervalTime) :: i <= p && j <= q
              else i == j == -1
  {
    time := currIntervalTime;
    if time < a[0].timestamp {
      time := a[0].timestamp;
    }
    if time < b[0].timestamp {
      time := b[0].timestamp;
    }
    if StrictlyIncreasing(a) && StrictlyIncreasing(b) {
      RaisedTimeSameResult(a, b, currIntervalTime);
      AlignIsLeast(a, b, 0, 0, currIntervalTime);
    }
    i, j := 0, 0;
    while i < |a| && j < |b|
      invariant 0 <= i <= |a| && 0 <= j <= |b|
      invariant Align(a, b, 0, 0, time) == Align(a, b, i, j, time)
      decreases |a| - i + |b| - j
    {
      if a[i].timestamp < b[j].timestamp {
        i := i + 1;
        continue;
      } else if b[j].timestamp < a[i].timestamp {
        j := j + 1;
        continue;
      }
      if a[i].timestamp < time {
        i, j := i + 1, j + 1;
        continue;
      }
      return;
    }
    i, j := -1, -1;
  }

  // ---------------------------------------------------------------- fetching

  function Min(x: int, y: int): int {
    if x < y then x else y
  }

  /** The lockstep loop of fetchData: pairs until one of the feeds runs out. */
  function Zip(a: Feed, b: Feed, i: nat, j: nat): (rows: seq<Row>)
    requires i <= |a| && j <= |b|
    ensures |rows| == Min(|a| - i, |b| - j)
  {
    seq(Min(|a| - i, |b| - j), k requires 0 <= k < Min(|a| - i, |b| - j) => Row(a[i + k], b[j + k]))
  }

  lemma {:induction false} GapFreeTime(a: Feed, i: nat, k: nat)
    requires GapFree(a) && i + k < |a|
    ensures a[i + k].timestamp == a[i].timestamp + INTERVAL * k
  {
    if k > 0 {
      GapFreeTime(a, i, k - 1);
      assert a[(i + k - 1) + 1].timestamp == a[i + k - 1].timestamp + INTERVAL;
    }
  }

  /** Gap-free feeds stay aligned once they are. */
  lemma GapFreeRowsAligned(a: Feed, b: Feed, i: nat, j: nat)
    requires GapFree(a) && GapFree(b) && i < |a| && j < |b| && a[i].timestamp == b[j].timestamp
    ensures Aligned(Zip(a, b, i, j))
  {
    var rows := Zip(a, b, i, j);
    forall k | 0 <= k < |rows| ensures rows[k].dcrBTC.timestamp == rows[k].btcUSD.timestamp {
      GapFreeTime(a, i, k);
      GapFreeTime(b, j, k);
    }
  }

  predicate Has(a: Feed, i: nat, t: int) {
    exists k | i <= k < |a| :: a[k].timestamp == t
  }

  /** Every timestamp between the common start and the end of the shorter stretch is in both feeds or in none. */
  ghost predicate SameTimes(a: Feed, b: Feed, i: nat, j: nat, n: nat)
    requires 0 < n && i + n <= |a| && j + n <= |b|
  {
    forall t | t <= Min(a[i + n - 1].timestamp, b[j + n - 1].timestamp) :: Has(a, i, t) <==> Has(b, j, t)
  }

  /** fetchData only aligns the first pair. For strictly increasing feeds all its rows are aligned if and only if
      neither feed has a timestamp in the fetched range that the other lacks. */
  lemma RowsAlignedIff(a: Feed, b: Feed, i: nat, j: nat)
    requires StrictlyIncreasing(a) && StrictlyIncreasing(b) && i < |a| && j < |b| && a[i].timestamp == b[j].timestamp
    ensures Aligned(Zip(a, b, i, j)) <==> SameTimes(a, b, i, j, |Zip(a, b, i, j)|)
  {
    var rows := Zip(a, b, i, j);
    var n := |rows|;
    if Aligned(rows) {
      AlignedSameTimes(a, b, i, j, n);
    }
    if SameTimes(a, b, i, j, n) {
      forall k | 0 <= k < n ensures rows[k].dcrBTC.timestamp == rows[k].btcUSD.timestamp {
        SameTimesAligned(a, b, i, j, n, k);
      }
    }
  }

  function At(t: int64): Candlestick {
    Candlestick(t, 15, 0, 0, 0, 0, 0)
  }

  /** One interval missing from one exchange shifts every later row of the batch. */
  lemma ShiftedRows()
    ensures var a, b := [At(0), At(INTERVAL), At(2 * INTERVAL)], [At(0), At(2 * INTERVAL)];
            StrictlyIncreasing(a) && StrictlyIncreasing(b) && Align(a, b, 0, 0, 0) == Some((0, 0)) &&
                !Aligned(Zip(a, b, 0, 0))
  {
    var a, b := [At(0), At(INTERVAL), At(2 * INTERVAL)], [At(0), At(2 * INTERVAL)];
    assert Zip(a, b, 0, 0)[1] == Row(At(INTERVAL), At(2 * INTERVAL));
  }

  lemma AlignedSameTimes(a: Feed, b: Feed, i: nat, j: nat, n: nat)
    requires StrictlyIncreasing(a) && StrictlyIncreasing(b) && 0 < n && i + n <= |a| && j + n <= |b|
    requires n == |Zip(a, b, i, j)| && Aligned(Zip(a, b, i, j))
    ensures SameTimes(a, b, i, j, n)
  {
    var rows := Zip(a, b, i, j);
    forall t | t <= Min(a[i + n - 1].timestamp, b[j + n - 1].timestamp) ensures Has(a, i, t) <==> Has(b, j, t) {
      if Has(a, i, t) {
        var k :| i <= k < |a| && a[k].timestamp == t;
        assert k <= i + n - 1;
        assert rows[k - i].dcrBTC.timestamp == rows[k - i].btcUSD.timestamp;
        assert b[j + (k - i)].timestamp == t;
      }
      if Has(b, j, t) {
        var k :| j <= k < |b| && b[k].timestamp == t;
        assert k <= j + n - 1;
        assert rows[k - j].dcrBTC.timestamp == rows[k - j].btcUSD.timestamp;
        assert a[i + (k - j)].timestamp == t;
      }
    }
  }

  lemma {:induction false} SameTimesAligned(a: Feed, b: Feed, i: nat, j: nat, n: nat, k: nat)
    requires StrictlyIncreasing(a) && StrictlyIncreasing(b) && 0 < n && i + n <= |a| && j + n <= |b| && k < n
    requires a[i].timestamp == b[j].timestamp && SameTimes(a, b, i, j, n)
    ensures a[i + k].timestamp == b[j + k].timestamp
  {
    if k > 0 {
      SameTimesAligned(a, b, i, j, n, k - 1);
      if a[i + k].timestamp < b[j + k].timestamp {
        NotBetween(a, b, i, j, k, n);
      } else if b[j + k].timestamp < a[i + k].timestamp {
        NotBetween(b, a, j, i, k, n);
      }
    }
  }

  /** A timestamp strictly between two neighbours of the other feed is missing from it. */
  lemma NotBetween(a: Feed, b: Feed, i: nat, j: nat, k: nat, n: nat)
    requires StrictlyIncreasing(a) && StrictlyIncreasing(b) && 0 < k < n && i + n <= |a| && j + n <= |b|
    requires a[i + k - 1].timestamp == b[j + k - 1].timestamp && a[i + k].timestamp < b[j + k].timestamp
    ensures !SameTimes(a, b, i, j, n)
  {
    var t := a[i + k].timestamp;
    assert Has(a, i, t);
    assert a[i + k].timestamp <= a[i + n - 1].timestamp && b[j + k].timestamp <= b[j + n - 1].timestamp;
    forall m | j <= m < |b| ensures b[m].timestamp != t {
      if m < j + k {
        assert b[m].timestamp <= b[j + k - 1].timestamp;
      } else {
        assert b[j + k].timestamp <= b[m].timestamp;
      }
    }
  }

  /** What one call of the updater meets: the clock at its three readings, whether the data file can be read and
      opened for appending, and what the two exchanges answer. */
  datatype Call = Call(
    readable: bool,
    now1: int,
    now2: int,
    now3: int,
    dcrBTC: Option<Feed>,
    btcUSD: Option<Feed>,
    appendable: bool)

  datatype Error = FileError | FetchError

  /** fetchData: the rows, and the current time it leaves. */
  function Fetch(curr: int, c: Call): Result<(seq<Row>, int), Error> {
    if curr > c.now2 + INTERVAL then Ok(([], curr))
    else if c.dcrBTC.None? then Err(FetchError)
    else if c.dcrBTC.value == [] then Ok(([], curr))
    else if c.btcUSD.None? then Err(FetchError)
    else if c.btcUSD.value == [] then Ok(([], curr))
    else
      var a, b := c.dcrBTC.value, c.btcUSD.value;
      var time := Later(Later(curr, a[0].timestamp), b[0].timestamp);
      match Align(a, b, 0, 0, time)
      case None => Ok(([], time))
      case Some((i, j)) => Ok((Zip(a, b, i, j), Zip(a, b, i, j)[|Zip(a, b, i, j)| - 1].dcrBTC.timestamp))
  }

  method FetchData(currIntervalTime: int, c: Call) returns (r: Result<(seq<Row>, int), Error>)
    ensures r == Fetch(currIntervalTime, c)
  {
    if currIntervalTime > c.now2 + INTERVAL {
      return Ok(([], currIntervalTime));
    }
    if c.dcrBTC.None? {
      return Err(FetchError);
    }
    var a := c.dcrBTC.value;
    if |a| == 0 {
      return Ok(([], currIntervalTime));
    }
    if c.btcUSD.None? {
      return Err(FetchError);
    }
    var b := c.btcUSD.value;
    if |b| == 0 {
      return Ok(([], currIntervalTime));
    }
    var time, i, j := GetDataIndices(currIntervalTime, a, b);
    if i < 0 {
      return Ok(([], time));
    }
    var candlesticks: seq<Row> := [];
    ghost var rows := Zip(a, b, i, j);
    ghost var first, second := i, j;
    while i < |a| && j < |b|
      invariant 0 <= first <= i <= |a| && 0 <= second <= j <= |b| && i - first == j - second == |candlesticks| <= |rows|
      invariant candlesticks == rows[..|candlesticks|]
      invariant candlesticks != [] ==> time == candlesticks[|candlesticks| - 1].dcrBTC.timestamp
      decreases |a| - i
    {
      assert rows[|candlesticks|] == Row(a[i], b[j]);
      candlesticks := candlesticks + [Row(a[i], b[j])];
      time := a[i].timestamp;
      i, j := i + 1, j + 1;
    }
    assert candlesticks == rows;
    return Ok((candlesticks, time));
  }

  // ---------------------------------------------------------------- one update

  predicate ShouldUpdate(t: int, m: Month, now: int) {
    t < m.end - INTERVAL && t <= now + INTERVAL
  }

  /** The time at which the next call asks for data; a last record with the zero time counts as none. */
  function NextTime(rows: seq<Row>, m: Month): int {
    if rows == [] || rows[|rows| - 1].dcrBTC.timestamp == ZERO_TIME then m.start
    else rows[|rows| - 1].dcrBTC.timestamp + INTERVAL
  }

  predicate IsBlank(rows: seq<Row>) {
    rows == [] || rows[|rows| - 1].dcrBTC.timestamp == ZERO_TIME
  }

  /** updateCandlestickDataForMonth: the file afterwards, and whether to call again. */
  function Update(rows: seq<Row>, m: Month, ignoreIfNonexistent: bool, c: Call): (seq<Row>, Result<bool, Error>) {
    if !c.readable then (rows, Err(FileError))
    else if IsBlank(rows) && ignoreIfNonexistent then (rows, Ok(false))
    else if !ShouldUpdate(NextTime(rows, m), m, c.now1) then (rows, Ok(false))
    else
      match Fetch(NextTime(rows, m), c)
      case Err(e) => (rows, Err(e))
      case Ok((data, time)) =>
        if data == [] then (rows, Ok(false))
        else if !c.appendable then (rows, Err(FileError))
        else (rows + data, Ok(!(time > c.now3 + INTERVAL)))
  }

  /** Both exchanges listed something. */
  predicate Answered(c: Call) {
    c.dcrBTC.Some? && c.btcUSD.Some? && c.dcrBTC.value != [] && c.btcUSD.value != []
  }

  /** Where the feeds of a call that asks for time t meet. */
  function Meeting(t: int, c: Call): (r: Option<(nat, nat)>)
    requires Answered(c)
    ensures r.Some? ==> r.value.0 < |c.dcrBTC.value| && r.value.1 < |c.btcUSD.value|
  {
    var a, b := c.dcrBTC.value, c.btcUSD.value;
    Align(a, b, 0, 0, Later(Later(t, a[0].timestamp), b[0].timestamp))
  }

  /** The time of the candlestick at which the shorter of the two feeds, counted from where they meet, runs out. */
  function LastPaired(t: int, c: Call): int
    requires Answered(c) && Meeting(t, c).Some?
  {
    var (i, j) := Meeting(t, c).value;
    c.dcrBTC.value[i + Min(|c.dcrBTC.value| - i, |c.btcUSD.value| - j) - 1].timestamp
  }

  /** The last pair of candlesticks does not lie before the time asked for. */
  predicate Advances(t: int, c: Call) {
    Answered(c) && Meeting(t, c).Some? ==> t <= LastPaired(t, c)
  }

  predicate FeedsIncreasing(c: Call) {
    (c.dcrBTC.Some? ==> StrictlyIncreasing(c.dcrBTC.value)) && (c.btcUSD.Some? ==> StrictlyIncreasing(c.btcUSD.value))
  }

  predicate FeedsGapFree(c: Call) {
    (c.dcrBTC.Some? ==> GapFree(c.dcrBTC.value)) && (c.btcUSD.Some? ==> GapFree(c.btcUSD.value))
  }

  /** The exchanges list their candlesticks in order, whenever they are asked. */
  ghost predicate Ordered(calls: nat -> Call) {
    forall k: nat {:trigger FeedsIncreasing(calls(k))} :: FeedsIncreasing(calls(k))
  }

  /** And without gaps. */
  ghost predicate Unbroken(calls: nat -> Call) {
    forall k: nat {:trigger FeedsGapFree(calls(k))} :: FeedsGapFree(calls(k))
  }

  /** A data file: increasing times within reach of the month's first second. */
  predicate FileOk(rows: seq<Row>, m: Month) {
    Increasing(rows) && forall k | 0 <= k < |rows| :: m.start <= rows[k].dcrBTC.timestamp
  }

  /** What fetchData returns for increasing feeds: increasing rows, none before the time asked for. */
  lemma FetchedRows(curr: int, c: Call)
    requires FeedsIncreasing(c) && Fetch(curr, c).Ok?
    ensures var data := Fetch(curr, c).value.0;
            && Increasing(data)
            && (forall k | 0 <= k < |data| :: curr <= data[k].dcrBTC.timestamp)
            && (data != [] ==> data[0].dcrBTC.timestamp == data[0].btcUSD.timestamp)
            && (FeedsGapFree(c) ==> Aligned(data))
            && (data != [] ==> Fetch(curr, c).value.1 == data[|data| - 1].dcrBTC.timestamp)
  {
    var data := Fetch(curr, c).value.0;
    if data != [] {
      var a, b := c.dcrBTC.value, c.btcUSD.value;
      var time := Later(Later(curr, a[0].timestamp), b[0].timestamp);
      AlignIsLeast(a, b, 0, 0, time);
      var (i, j) := Align(a, b, 0, 0, time).value;
      if FeedsGapFree(c) {
        GapFreeRowsAligned(a, b, i, j);
      }
      forall k | 0 <= k < |data| ensures curr <= data[k].dcrBTC.timestamp {
        assert a[i].timestamp <= a[i + k].timestamp;
      }
    }
  }

  /** Every update only appends. What it appends starts at or after the last interval plus one, or the start of the
      month, so the file stays strictly increasing without duplicates; with gap-free feeds every appended row
      carries one timestamp. A call that asks to be repeated has moved the next time forward by an interval or
      more, and could only run before the last interval of the month. */
  lemma UpdateStep(rows: seq<Row>, m: Month, ignoreIfNonexistent: bool, c: Call)
    requires FileOk(rows, m) && FeedsIncreasing(c) && m.start > ZERO_TIME
    ensures var (after, reply) := Update(rows, m, ignoreIfNonexistent, c);
            && rows <= after
            && FileOk(after, m)
            && (forall k | |rows| <= k < |after| :: NextTime(rows, m) <= after[k].dcrBTC.timestamp)
            && (Aligned(rows) && FeedsGapFree(c) ==> Aligned(after))
            && (reply == Ok(true) ==>
                  NextTime(rows, m) + INTERVAL <= NextTime(after, m) && NextTime(rows, m) < m.end - INTERVAL)
            && (reply.Err? ==> after == rows)
  {
    var (after, reply) := Update(rows, m, ignoreIfNonexistent, c);
    if after != rows {
      var curr := NextTime(rows, m);
      FetchedRows(curr, c);
      var data := Fetch(curr, c).value.0;
      assert after == rows + data;
      AppendedInOrder(rows, m, data);
    }
  }

  lemma AppendedInOrder(rows: seq<Row>, m: Month, data: seq<Row>)
    requires FileOk(rows, m) && m.start > ZERO_TIME
    requires Increasing(data) && forall k | 0 <= k < |data| :: NextTime(rows, m) <= data[k].dcrBTC.timestamp
    ensures FileOk(rows + data, m)
    ensures forall k | |rows| <= k < |rows + data| :: NextTime(rows, m) <= (rows + data)[k].dcrBTC.timestamp
  {
    var after := rows + data;
    forall k, n | 0 <= k < n < |after| ensures after[k].dcrBTC.timestamp < after[n].dcrBTC.timestamp {
      if k < |rows| && n >= |rows| {
        assert after[n] == data[n - |rows|];
        assert after[k].dcrBTC.timestamp <= rows[|rows| - 1].dcrBTC.timestamp;
      }
    }
  }

  // ---------------------------------------------------------------- the repeated update

  /** The file after n calls. */
  function Repeat(rows: seq<Row>, m: Month, ignore: bool, calls: nat -> Call, n: nat): seq<Row> {
    if n == 0 then rows else Update(Repeat(rows, m, ignore, calls, n - 1), m, ignore, calls(n - 1)).0
  }

  /** Call number k asks to be repeated. */
  predicate Continues(rows: seq<Row>, m: Month, ignore: bool, calls: nat -> Call, k: nat) {
    Update(Repeat(rows, m, ignore, calls, k), m, ignore, calls(k)).1 == Ok(true)
  }

  predicate AllContinue(rows: seq<Row>, m: Month, ignore: bool, calls: nat -> Call, n: nat) {
    forall k | 0 <= k < n :: Continues(rows, m, ignore, calls, k)
  }

  /** What an update that asks to be repeated leaves: the file goes on to the last pair. */
  lemma RepeatedUpdate(rows: seq<Row>, m: Month, ignore: bool, c: Call)
    requires Update(rows, m, ignore, c).1 == Ok(true)
    ensures NextTime(rows, m) < m.end - INTERVAL && Answered(c) && Meeting(NextTime(rows, m), c).Some?
    ensures var after := Update(rows, m, ignore, c).0;
            after != [] && after[|after| - 1].dcrBTC.timestamp == LastPaired(NextTime(rows, m), c)
  {
  }

  /** A call that asks to be repeated moves the next time forward by an interval or more if and only if its last
      pair does not lie before the time asked for, in whatever order the exchanges answer. */
  lemma ProgressIff(rows: seq<Row>, m: Month, ignore: bool, c: Call)
    requires Update(rows, m, ignore, c).1 == Ok(true) && m.start > ZERO_TIME && m.start <= NextTime(rows, m)
    ensures NextTime(rows, m) + INTERVAL <= NextTime(Update(rows, m, ignore, c).0, m) <==>
              Advances(NextTime(rows, m), c)
  {
    RepeatedUpdate(rows, m, ignore, c);
  }

  /** Feeds in order always advance. */
  lemma OrderAdvances(t: int, c: Call)
    requires FeedsIncreasing(c)
    ensures Advances(t, c)
  {
    if Answered(c) && Meeting(t, c).Some? {
      var a, b := c.dcrBTC.value, c.btcUSD.value;
      AlignIsLeast(a, b, 0, 0, Later(Later(t, a[0].timestamp), b[0].timestamp));
      var (i, j) := Meeting(t, c).value;
      assert a[i].timestamp <= a[i + Min(|a| - i, |b| - j) - 1].timestamp;
    }
  }

  /** The next time before call number k. */
  function TimeAt(rows: seq<Row>, m: Month, ignore: bool, calls: nat -> Call, k: nat): int {
    NextTime(Repeat(rows, m, ignore, calls, k), m)
  }

  predicate StepsForward(rows: seq<Row>, m: Month, ignore: bool, calls: nat -> Call, k: nat) {
    TimeAt(rows, m, ignore, calls, k) + INTERVAL <= TimeAt(rows, m, ignore, calls, k + 1)
  }

  predicate CallAdvances(rows: seq<Row>, m: Month, ignore: bool, calls: nat -> Call, k: nat) {
    Advances(TimeAt(rows, m, ignore, calls, k), calls(k))
  }

  /** Every call that asks to be repeated advances. */
  ghost predicate AllAdvance(rows: seq<Row>, m: Month, ignore: bool, calls: nat -> Call) {
    forall k: nat {:trigger CallAdvances(rows, m, ignore, calls, k)} ::
      Continues(rows, m, ignore, calls, k) ==> CallAdvances(rows, m, ignore, calls, k)
  }

  lemma OrderedAllAdvance(rows: seq<Row>, m: Month, ignore: bool, calls: nat -> Call)
    requires Ordered(calls)
    ensures AllAdvance(rows, m, ignore, calls)
  {
    forall k: nat ensures CallAdvances(rows, m, ignore, calls, k) {
      assert FeedsIncreasing(calls(k));
      OrderAdvances(TimeAt(rows, m, ignore, calls, k), calls(k));
    }
  }

  lemma ForwardIff(rows: seq<Row>, m: Month, ignore: bool, calls: nat -> Call, k: nat)
    requires m.start > ZERO_TIME && m.start <= TimeAt(rows, m, ignore, calls, k) && Continues(rows, m, ignore, calls, k)
    ensures StepsForward(rows, m, ignore, calls, k) <==> CallAdvances(rows, m, ignore, calls, k)
  {
    ProgressIff(Repeat(rows, m, ignore, calls, k), m, ignore, calls(k));
  }

  /** n calls that all ask to be repeated each move forward by an interval or more if and only if each of them
      advances, whatever the clock does and in whatever order the exchanges answer. */
  lemma AllForwardIff(rows: seq<Row>, m: Month, ignore: bool, calls: nat -> Call, n: nat)
    requires m.start > ZERO_TIME && m.start <= NextTime(rows, m) && AllContinue(rows, m, ignore, calls, n)
    ensures (forall k | 0 <= k < n :: StepsForward(rows, m, ignore, calls, k)) <==>
            (forall k | 0 <= k < n :: CallAdvances(rows, m, ignore, calls, k))
  {
    if forall k | 0 <= k < n :: StepsForward(rows, m, ignore, calls, k) {
      forall k | 0 <= k < n ensures CallAdvances(rows, m, ignore, calls, k) {
        ForwardTime(rows, m, ignore, calls, k);
        assert Continues(rows, m, ignore, calls, k) && StepsForward(rows, m, ignore, calls, k);
        ForwardIff(rows, m, ignore, calls, k);
      }
    }
    if forall k | 0 <= k < n :: CallAdvances(rows, m, ignore, calls, k) {
      forall k | 0 <= k < n ensures StepsForward(rows, m, ignore, calls, k) {
        AdvancingTime(rows, m, ignore, calls, k);
        assert Continues(rows, m, ignore, calls, k) && CallAdvances(rows, m, ignore, calls, k);
        AdvancingStep(rows, m, ignore, calls, k);
      }
    }
  }

  lemma {:induction false} AdvancingTime(rows: seq<Row>, m: Month, ignore: bool, calls: nat -> Call, n: nat)
    requires m.start > ZERO_TIME && m.start <= NextTime(rows, m) && AllContinue(rows, m, ignore, calls, n)
    requires forall k | 0 <= k < n :: CallAdvances(rows, m, ignore, calls, k)
    ensures NextTime(rows, m) + n * INTERVAL <= TimeAt(rows, m, ignore, calls, n)
  {
    if n > 0 {
      AdvancingTime(rows, m, ignore, calls, n - 1);
      assert Continues(rows, m, ignore, calls, n - 1) && CallAdvances(rows, m, ignore, calls, n - 1);
      AdvancingStep(rows, m, ignore, calls, n - 1);
    }
  }

  lemma AdvancingStep(rows: seq<Row>, m: Month, ignore: bool, calls: nat -> Call, k: nat)
    requires m.start > ZERO_TIME && m.start <= TimeAt(rows, m, ignore, calls, k)
    requires Continues(rows, m, ignore, calls, k) && CallAdvances(rows, m, ignore, calls, k)
    ensures TimeAt(rows, m, ignore, calls, k) + INTERVAL <= TimeAt(rows, m, ignore, calls, k + 1)
    ensures StepsForward(rows, m, ignore, calls, k)
  {
    ForwardIff(rows, m, ignore, calls, k);
  }

  lemma {:induction false} ForwardTime(rows: seq<Row>, m: Month, ignore: bool, calls: nat -> Call, n: nat)
    requires forall k | 0 <= k < n :: StepsForward(rows, m, ignore, calls, k)
    ensures NextTime(rows, m) + n * INTERVAL <= TimeAt(rows, m, ignore, calls, n)
  {
    if n > 0 {
      ForwardTime(rows, m, ignore, calls, n - 1);
      assert StepsForward(rows, m, ignore, calls, n - 1);
    }
  }

  /** Then they have used up n intervals of the month: continuing calls that advance are bounded by the number of
      intervals left, whatever the clock does and in whatever order the exchanges answer. */
  lemma ContinuingCallsBounded(rows: seq<Row>, m: Month, ignore: bool, calls: nat -> Call, n: nat)
    requires m.start > ZERO_TIME && m.start <= NextTime(rows, m) && AllContinue(rows, m, ignore, calls, n)
    requires forall k | 0 <= k < n :: CallAdvances(rows, m, ignore, calls, k)
    ensures NextTime(rows, m) + n * INTERVAL <= TimeAt(rows, m, ignore, calls, n)
    ensures n > 0 ==> n * INTERVAL < m.end - NextTime(rows, m) <= m.end - m.start
  {
    AllForwardIff(rows, m, ignore, calls, n);
    ForwardTime(rows, m, ignore, calls, n);
    if n > 0 {
      ForwardTime(rows, m, ignore, calls, n - 1);
      assert Continues(rows, m, ignore, calls, n - 1);
      RepeatedUpdate(Repeat(rows, m, ignore, calls, n - 1), m, ignore, calls(n - 1));
    }
  }

  /** Whatever the exchanges answer, rows are only appended. */
  lemma {:induction false} RepeatAppends(rows: seq<Row>, m: Month, ignore: bool, calls: nat -> Call, n: nat)
    ensures rows <= Repeat(rows, m, ignore, calls, n)
  {
    if n > 0 {
      RepeatAppends(rows, m, ignore, calls, n - 1);
    }
  }

  /** Rows are only appended, and a file in order stays so if the exchanges answer in order. */
  ghost predicate Extended(rows: seq<Row>, after: seq<Row>, m: Month, calls: nat -> Call) {
    rows <= after && (FileOk(rows, m) && Ordered(calls) ==> Kept(rows, after, m, calls))
  }

  lemma RepeatExtends(rows: seq<Row>, m: Month, ignore: bool, calls: nat -> Call, n: nat)
    requires m.start > ZERO_TIME
    ensures Extended(rows, Repeat(rows, m, ignore, calls, n), m, calls)
  {
    RepeatAppends(rows, m, ignore, calls, n);
    if FileOk(rows, m) && Ordered(calls) {
      RepeatKeeps(rows, m, ignore, calls, n);
    }
  }

  /** One more pass through the loop. */
  lemma OneMoreCall(rows: seq<Row>, m: Month, ignore: bool, calls: nat -> Call, n: nat, before: seq<Row>,
                    after: seq<Row>, reply: Result<bool, Error>)
    requires m.start > ZERO_TIME && m.start <= NextTime(rows, m)
    requires AllContinue(rows, m, ignore, calls, n) && AllAdvance(rows, m, ignore, calls)
    requires before == Repeat(rows, m, ignore, calls, n) && (after, reply) == Update(before, m, ignore, calls(n))
    ensures after == Repeat(rows, m, ignore, calls, n + 1)
    ensures reply == Ok(true) <==> Continues(rows, m, ignore, calls, n)
    ensures reply == Ok(true) ==>
              && AllContinue(rows, m, ignore, calls, n + 1)
              && NextTime(before, m) + INTERVAL <= NextTime(after, m) && NextTime(before, m) < m.end - INTERVAL
  {
    LoopAdvances(rows, m, ignore, calls, n);
  }

  /** In the loop: a call that asks to be repeated leaves less of the month. */
  lemma LoopAdvances(rows: seq<Row>, m: Month, ignore: bool, calls: nat -> Call, n: nat)
    requires m.start > ZERO_TIME && m.start <= NextTime(rows, m)
    requires AllContinue(rows, m, ignore, calls, n) && AllAdvance(rows, m, ignore, calls)
    ensures Continues(rows, m, ignore, calls, n) ==>
              StepsForward(rows, m, ignore, calls, n) && TimeAt(rows, m, ignore, calls, n) < m.end - INTERVAL
  {
    if Continues(rows, m, ignore, calls, n) {
      LoopBounded(rows, m, ignore, calls, n);
      assert CallAdvances(rows, m, ignore, calls, n);
      ForwardIff(rows, m, ignore, calls, n);
      RepeatedUpdate(Repeat(rows, m, ignore, calls, n), m, ignore, calls(n));
    }
  }

  lemma LoopBounded(rows: seq<Row>, m: Month, ignore: bool, calls: nat -> Call, n: nat)
    requires m.start > ZERO_TIME && m.start <= NextTime(rows, m)
    requires AllContinue(rows, m, ignore, calls, n) && AllAdvance(rows, m, ignore, calls)
    ensures NextTime(rows, m) + n * INTERVAL <= TimeAt(rows, m, ignore, calls, n)
    ensures n > 0 ==> n * INTERVAL < m.end - NextTime(rows, m) <= m.end - m.start
  {
    forall k | 0 <= k < n ensures CallAdvances(rows, m, ignore, calls, k) {
      assert Continues(rows, m, ignore, calls, k);
    }
    ContinuingCallsBounded(rows, m, ignore, calls, n);
  }

  /** A month without a file is left alone when it is to be ignored. */
  lemma {:induction false} BlankStaysIgnored(rows: seq<Row>, m: Month, calls: nat -> Call, n: nat)
    ensures IsBlank(rows) ==> Repeat(rows, m, true, calls, n) == rows
  {
    if n > 0 {
      BlankStaysIgnored(rows, m, calls, n - 1);
    }
  }

  /** What any number of calls leaves of a file: its rows are a prefix, times still increase within the month's
      reach, and with gap-free feeds every row carries one timestamp if every row did. */
  ghost predicate Kept(rows: seq<Row>, after: seq<Row>, m: Month, calls: nat -> Call) {
    rows <= after && FileOk(after, m) && (Aligned(rows) && Unbroken(calls) ==> Aligned(after))
  }

  lemma {:induction false} RepeatKeeps(rows: seq<Row>, m: Month, ignore: bool, calls: nat -> Call, n: nat)
    requires FileOk(rows, m) && m.start > ZERO_TIME
    requires Ordered(calls)
    ensures Kept(rows, Repeat(rows, m, ignore, calls, n), m, calls)
  {
    if n > 0 {
      RepeatKeeps(rows, m, ignore, calls, n - 1);
      UpdateStep(Repeat(rows, m, ignore, calls, n - 1), m, ignore, calls(n - 1));
    }
  }

  // ---------------------------------------------------------------- files of a whole run

  /** A feed on the month's grid. It may well reach past the end of the month. */
  predicate FeedOnGrid(a: Feed, m: Month) {
    forall k | 0 <= k < |a| :: (a[k].timestamp - m.start) % INTERVAL == 0
  }

  predicate CallOnGrid(c: Call, m: Month) {
    c.dcrBTC.Some? ==> FeedOnGrid(c.dcrBTC.value, m)
  }

  /** Fetched rows come from the DCR-BTC feed. */
  lemma FetchedOnGrid(curr: int, c: Call, m: Month)
    requires CallOnGrid(c, m) && m.start <= curr && Fetch(curr, c).Ok? && FeedsIncreasing(c)
    ensures MonthlyRate.OnGrid(Fetch(curr, c).value.0, m)
  {
    FetchedRows(curr, c);
  }

  lemma GridStep(rows: seq<Row>, m: Month, ignore: bool, c: Call)
    requires m.start > ZERO_TIME && FileOk(rows, m) && MonthlyRate.OnGrid(rows, m) && FeedsIncreasing(c) &&
              CallOnGrid(c, m)
    ensures FileOk(Update(rows, m, ignore, c).0, m) && MonthlyRate.OnGrid(Update(rows, m, ignore, c).0, m)
  {
    UpdateStep(rows, m, ignore, c);
    if Update(rows, m, ignore, c).0 != rows {
      FetchedOnGrid(NextTime(rows, m), c, m);
    }
  }

  /** An empty file extended by any number of calls with such feeds has increasing rows on the grid. */
  lemma {:induction false} GridKept(m: Month, ignore: bool, calls: nat -> Call, n: nat)
    requires m.start > ZERO_TIME
    requires Ordered(calls) && forall k: nat :: CallOnGrid(calls(k), m)
    ensures FileOk(Repeat([], m, ignore, calls, n), m)
    ensures MonthlyRate.OnGrid(Repeat([], m, ignore, calls, n), m)
  {
    if n > 0 {
      GridKept(m, ignore, calls, n - 1);
      GridStep(Repeat([], m, ignore, calls, n - 1), m, ignore, calls(n - 1));
    }
  }

  /** For the file of any such run: the rows before the end of the month and its missing intervals add up to all its
      intervals, and the flag is right exactly under the condition of FlagIsRightIff. */
  lemma FlagOfRun(m: Month, ignore: bool, calls: nat -> Call, n: nat, rows: seq<Row>)
    requires m.start > ZERO_TIME && MonthlyRate.WholeMonth(m)
    requires Ordered(calls) && forall k: nat :: CallOnGrid(calls(k), m)
    requires rows == Repeat([], m, ignore, calls, n)
    ensures MonthlyRate.Within(rows, m) + |MonthlyRate.Missing(rows, m)| == MonthlyRate.Intervals(m)
    ensures rows != [] ==>
              ((MonthlyRate.Flag(rows, m) <==> !MonthlyRate.Complete(rows, m)) <==>
               MonthlyRate.Missing(rows, m) == {} || MonthlyRate.SeenMissing(rows, m))
  {
    GridKept(m, ignore, calls, n);
    MonthlyRate.RowsAndHoles(rows, m);
    if rows != [] {
      MonthlyRate.FlagIsRightIff(rows, m);
    }
  }

  /** All rows lie before the end of the month. */
  predicate EndsInMonth(rows: seq<Row>, m: Month) {
    forall k | 0 <= k < |rows| :: rows[k].dcrBTC.timestamp < m.end
  }

  /** A batch is not cut at the end of the month. A file that ended within the month still does if and only if the
      candlestick at which the shorter feed runs out does. */
  lemma BatchEndIff(rows: seq<Row>, m: Month, ignore: bool, c: Call)
    requires FileOk(rows, m) && FeedsIncreasing(c) && m.start > ZERO_TIME && EndsInMonth(rows, m)
    requires Update(rows, m, ignore, c).0 != rows
    ensures Answered(c) && Meeting(NextTime(rows, m), c).Some?
    ensures EndsInMonth(Update(rows, m, ignore, c).0, m) <==> LastPaired(NextTime(rows, m), c) < m.end
  {
    var after := Update(rows, m, ignore, c).0;
    UpdateStep(rows, m, ignore, c);
    assert after[|after| - 1].dcrBTC.timestamp == LastPaired(NextTime(rows, m), c);
    assert forall k | 0 <= k < |after| :: after[k].dcrBTC.timestamp <= after[|after| - 1].dcrBTC.timestamp;
  }

  /** For gap-free feeds: if and only if one of the two feeds ends within the month. */
  lemma MonthEndIff(rows: seq<Row>, m: Month, ignore: bool, c: Call)
    requires FileOk(rows, m) && FeedsIncreasing(c) && FeedsGapFree(c) && m.start > ZERO_TIME && EndsInMonth(rows, m)
    requires Update(rows, m, ignore, c).0 != rows
    ensures Answered(c)
    ensures var a, b := c.dcrBTC.value, c.btcUSD.value;
            EndsInMonth(Update(rows, m, ignore, c).0, m) <==> Min(a[|a| - 1].timestamp, b[|b| - 1].timestamp) < m.end
  {
    BatchEndIff(rows, m, ignore, c);
    LastPairedGapFree(NextTime(rows, m), c);
  }

  lemma LastPairedGapFree(t: int, c: Call)
    requires Answered(c) && FeedsIncreasing(c) && FeedsGapFree(c) && Meeting(t, c).Some?
    ensures var a, b := c.dcrBTC.value, c.btcUSD.value;
            LastPaired(t, c) == Min(a[|a| - 1].timestamp, b[|b| - 1].timestamp)
  {
    var a, b := c.dcrBTC.value, c.btcUSD.value;
    var (i, j) := Meeting(t, c).value;
    AlignIsLeast(a, b, 0, 0, Later(Later(t, a[0].timestamp), b[0].timestamp));
    ShorterEnd(a, b, i, j);
  }

  /** Gap-free feeds that meet end one stretch after the other. */
  lemma ShorterEnd(a: Feed, b: Feed, i: nat, j: nat)
    requires GapFree(a) && GapFree(b) && i < |a| && j < |b| && a[i].timestamp == b[j].timestamp
    ensures a[i + Min(|a| - i, |b| - j) - 1].timestamp == Min(a[|a| - 1].timestamp, b[|b| - 1].timestamp)
  {
    GapFreeTime(a, i, |a| - i - 1);
    GapFreeTime(b, j, |b| - j - 1);
    GapFreeTime(a, i, Min(|a| - i, |b| - j) - 1);
  }

  /** The exchanges are asked for twenty intervals past the current one, wherever the month ends. */
  const REQUESTED := 20

  lemma GapFreeIncreases(a: Feed)
    requires GapFree(a)
    ensures StrictlyIncreasing(a)
  {
    forall i, j | 0 <= i < j < |a| ensures a[i].timestamp < a[j].timestamp {
      GapFreeTime(a, i, j - i);
    }
  }

  /** A call that is to be made, and to which both exchanges answer in full. */
  predicate FullAnswer(rows: seq<Row>, m: Month, ignore: bool, c: Call) {
    var t := NextTime(rows, m);
    && c.readable && c.appendable && !(IsBlank(rows) && ignore) && ShouldUpdate(t, m, c.now1) && t <= c.now2 + INTERVAL
    && c.dcrBTC.Some? && c.btcUSD.Some? && FeedsGapFree(c)
    && |c.dcrBTC.value| == REQUESTED + 1 <= |c.btcUSD.value|
    && c.dcrBTC.value[0].timestamp == t == c.btcUSD.value[0].timestamp
  }

  /** Each call of the pass over the previous month that is answered in full leaves the month if and only if fewer
      than twenty-one intervals of it were left. */
  lemma FullAnswerIff(rows: seq<Row>, m: Month, ignore: bool, c: Call)
    requires FileOk(rows, m) && m.start > ZERO_TIME && EndsInMonth(rows, m) && FullAnswer(rows, m, ignore, c)
    ensures EndsInMonth(Update(rows, m, ignore, c).0, m) <==> NextTime(rows, m) + REQUESTED * INTERVAL < m.end
  {
    var a, b := c.dcrBTC.value, c.btcUSD.value;
    GapFreeIncreases(a);
    GapFreeIncreases(b);
    FullAnswerAppends(rows, m, ignore, c);
    MonthEndIff(rows, m, ignore, c);
    GapFreeTime(a, 0, |a| - 1);
    GapFreeTime(b, 0, |b| - 1);
  }

  lemma FullAnswerAppends(rows: seq<Row>, m: Month, ignore: bool, c: Call)
    requires FullAnswer(rows, m, ignore, c) && FeedsIncreasing(c)
    ensures Update(rows, m, ignore, c).0 != rows
  {
    var a, b := c.dcrBTC.value, c.btcUSD.value;
    assert Align(a, b, 0, 0, NextTime(rows, m)) == Some((0, 0));
    assert Zip(a, b, 0, 0) != [];
  }

  /** A call to which both exchanges give the same answer. */
  function SameAnswer(feed: Feed, now: int): Call {
    Call(true, now, now, now, Some(feed), Some(feed), true)
  }

  lemma SameAnswerUpdate(rows: seq<Row>, m: Month, feed: Feed, now: int)
    requires feed != [] && NextTime(rows, m) <= feed[0].timestamp && NextTime(rows, m) < m.end - INTERVAL
    requires NextTime(rows, m) <= now + INTERVAL && feed[|feed| - 1].timestamp <= now + INTERVAL
    ensures Update(rows, m, false, SameAnswer(feed, now)) == (rows + Zip(feed, feed, 0, 0), Ok(true))
  {
    assert Align(feed, feed, 0, 0, feed[0].timestamp) == Some((0, 0));
  }

  /** The months there are: of whole intervals, within the range of Unix seconds, after the zero time. */
  predicate RealMonth(m: Month) {
    MonthlyRate.WholeMonth(m) && ZERO_TIME < m.start && m.end < TWO_TO_THE_63
  }

  /** The candlesticks of the slots from k up to and including the end of the month. */
  function FeedFrom(m: Month, k: nat): (a: Feed)
    requires RealMonth(m) && k <= MonthlyRate.Intervals(m) + 1
    ensures |a| == MonthlyRate.Intervals(m) + 1 - k
    ensures forall i | 0 <= i < |a| :: a[i].timestamp == MonthlyRate.SlotTime(m, k + i)
    decreases MonthlyRate.Intervals(m) + 1 - k
  {
    if k == MonthlyRate.Intervals(m) + 1 then [] else [At(MonthlyRate.SlotTime(m, k))] + FeedFrom(m, k + 1)
  }

  /** Two gap-free calls with a hole between them, the second of which runs past the end of the month. */
  function HoleCalls(m: Month): nat -> Call
    requires RealMonth(m)
  {
    (k: nat) => SameAnswer(if k == 0 then [At(m.start)] else FeedFrom(m, 2), m.end)
  }

  /** The file these calls leave. */
  function HoleRows(m: Month): seq<Row>
    requires RealMonth(m)
  {
    [Row(At(m.start), At(m.start))] + Zip(FeedFrom(m, 2), FeedFrom(m, 2), 0, 0)
  }

  lemma HoleFeeds(m: Month, k: nat)
    requires RealMonth(m)
    ensures FeedsGapFree(HoleCalls(m)(k)) && FeedsIncreasing(HoleCalls(m)(k))
  {
    var feed := if k == 0 then [At(m.start)] else FeedFrom(m, 2);
    assert HoleCalls(m)(k) == SameAnswer(feed, m.end);
    assert GapFree(feed);
    GapFreeIncreases(feed);
  }

  lemma HoleRun(m: Month)
    requires RealMonth(m) && MonthlyRate.Intervals(m) >= 3
    ensures AllContinue([], m, false, HoleCalls(m), 2) && Repeat([], m, false, HoleCalls(m), 2) == HoleRows(m)
  {
    var calls, first := HoleCalls(m), [Row(At(m.start), At(m.start))];
    SameAnswerUpdate([], m, [At(m.start)], m.end);
    assert Zip([At(m.start)], [At(m.start)], 0, 0) == first;
    SameAnswerUpdate(first, m, FeedFrom(m, 2), m.end);
    assert Repeat([], m, false, calls, 0) == [] && Repeat([], m, false, calls, 1) == first;
    assert Continues([], m, false, calls, 0) && Continues([], m, false, calls, 1);
  }

  /** In every month, two calls in order can leave as many rows as intervals, a hole, and no flag: a row past the
      end of the month makes up for the hole. */
  lemma HiddenHole(m: Month)
    requires RealMonth(m) && MonthlyRate.Intervals(m) >= 3
    ensures forall k: nat :: FeedsGapFree(HoleCalls(m)(k)) && FeedsIncreasing(HoleCalls(m)(k))
    ensures AllContinue([], m, false, HoleCalls(m), 2)
    ensures var rows := Repeat([], m, false, HoleCalls(m), 2);
            |rows| == MonthlyRate.Intervals(m) && !MonthlyRate.HasSlot(rows, m, 1) && !MonthlyRate.Flag(rows, m)
  {
    forall k: nat ensures FeedsGapFree(HoleCalls(m)(k)) && FeedsIncreasing(HoleCalls(m)(k)) {
      HoleFeeds(m, k);
    }
    HoleRun(m);
    var rows := HoleRows(m);
    assert rows[|rows| - 1].dcrBTC.timestamp == m.end;
    MonthlyRate.FlagIsEdges(rows, m);
  }

  // ---------------------------------------------------------------- unordered feeds

  /** Asked for a time up to t, the call is to be repeated and leaves t as the next time. */
  ghost predicate StuckAt(m: Month, c: Call, t: int) {
    forall rows {:trigger Update(rows, m, false, c)} | m.start <= NextTime(rows, m) <= t ::
      Update(rows, m, false, c).1 == Ok(true) && NextTime(Update(rows, m, false, c).0, m) == t
  }

  lemma StuckOnce(m: Month, c: Call, t: int, rows: seq<Row>)
    requires StuckAt(m, c, t) && m.start <= NextTime(rows, m) <= t
    ensures Update(rows, m, false, c).1 == Ok(true) && NextTime(Update(rows, m, false, c).0, m) == t
  {
  }

  lemma {:induction false} StuckTimes(m: Month, calls: nat -> Call, t: int, n: nat)
    requires m.start <= t && forall k :: StuckAt(m, calls(k), t)
    ensures m.start <= NextTime(Repeat([], m, false, calls, n), m) <= t
  {
    if n > 0 {
      StuckTimes(m, calls, t, n - 1);
      StuckOnce(m, calls(n - 1), t, Repeat([], m, false, calls, n - 1));
    }
  }

  lemma StuckCalls(m: Month, calls: nat -> Call, t: int, n: nat)
    requires m.start <= t && forall k :: StuckAt(m, calls(k), t)
    ensures AllContinue([], m, false, calls, n)
  {
    forall k | 0 <= k < n ensures Continues([], m, false, calls, k) {
      StuckTimes(m, calls, t, k);
      StuckOnce(m, calls(k), t, Repeat([], m, false, calls, k));
    }
  }

  /** The first two candlesticks of a month, the later one first. */
  function BackwardFeed(m: Month): Feed
    requires RealMonth(m)
  {
    [At(m.start + INTERVAL), At(m.start)]
  }

  lemma BackwardIsStuck(m: Month)
    requires RealMonth(m) && MonthlyRate.Intervals(m) >= 3
    ensures StuckAt(m, SameAnswer(BackwardFeed(m), m.end), m.start + INTERVAL)
  {
    var feed, c := BackwardFeed(m), SameAnswer(BackwardFeed(m), m.end);
    forall rows | m.start <= NextTime(rows, m) <= m.start + INTERVAL
      ensures Update(rows, m, false, c).1 == Ok(true) && NextTime(Update(rows, m, false, c).0, m) == m.start + INTERVAL
    {
      SameAnswerUpdate(rows, m, feed, m.end);
    }
  }

  /** The condition is needed: in every month, exchanges that list its first two candlesticks backwards make any
      number of calls ask for one more. */
  lemma BackwardFeedNeverEnds(m: Month, n: nat)
    requires RealMonth(m) && MonthlyRate.Intervals(m) >= 3
    ensures AllContinue([], m, false, (k: nat) => SameAnswer(BackwardFeed(m), m.end), n)
    ensures !Advances(m.start + INTERVAL, SameAnswer(BackwardFeed(m), m.end))
  {
    BackwardIsStuck(m);
    StuckCalls(m, (k: nat) => SameAnswer(BackwardFeed(m), m.end), m.start + INTERVAL, n);
    assert Meeting(m.start + INTERVAL, SameAnswer(BackwardFeed(m), m.end)) == Some((0, 0));
  }

  /** Four days: until the fifth day of a month the previous month is updated too. */
  const FOUR_DAYS := 4 * 24 * 60 * 60

  // ---------------------------------------------------------------- the calculator

  datatype RateError = CannotRead | Unusable(error: MonthlyRate.Error)

  class Calculator {
    const n: Notation
    var files: map<Month, seq<seq<string>>>
    ghost var rows: map<Month, seq<Row>>

    /** Every file holds the records of the rows written to it. */
    ghost predicate Valid()
      reads this
    {
      Faithful(n) && files.Keys == rows.Keys && forall m | m in rows :: files[m] == Records(n, rows[m])
    }

    ghost function RowsOf(m: Month): seq<Row>
      reads this
    {
      if m in rows then rows[m] else []
    }

    constructor ()
      ensures Valid() && n == Csv() && forall m :: RowsOf(m) == []
    {
      CsvIsFaithful();
      n, files, rows := Csv(), map[], map[];
    }

    method GetRecords(m: Month) returns (records: seq<seq<string>>)
      requires Valid()
      ensures records == Records(n, RowsOf(m))
    {
      records := if m in files then files[m] else [];
    }

    /** getMostRecentIntervalFromDataFile: the timestamp on the last record; none reads as the zero time. */
    method GetMostRecentInterval(m: Month) returns (t: Option<int>)
      requires Valid()
      ensures t == if IsBlank(RowsOf(m)) then None else Some(RowsOf(m)[|RowsOf(m)| - 1].dcrBTC.timestamp)
    {
      var records := GetRecords(m);
      if |records| == 0 {
        return None;
      }
      RecordRoundTrip(n, RowsOf(m)[|records| - 1]);
      var last := FromStrings(n, records[|records| - 1]);
      if last.value.timestamp == ZERO_TIME {
        return None;
      }
      return Some(last.value.timestamp);
    }

    method AddDataToFile(m: Month, data: seq<Row>)
      requires Valid()
      modifies this
      ensures Valid() && rows == old(rows)[m := old(RowsOf(m)) + data]
    {
      var file := if m in files then files[m] else [];
      ghost var before := RowsOf(m);
      for k := 0 to |data|
        invariant file == Records(n, before + data[..k])
      {
        assert before + data[..k + 1] == before + data[..k] + [data[k]];
        file := file + [ToStrings(n, data[k].dcrBTC) + ToStrings(n, data[k].btcUSD)];
      }
      assert data[..|data|] == data;
      files := files[m := file];
      rows := rows[m := before + data];
    }

    method UpdateCandlestickDataForMonth(m: Month, ignoreIfNonexistent: bool, c: Call) returns (r: Result<bool, Error>)
      requires Valid()
      modifies this
      ensures Valid() && (RowsOf(m), r) == Update(old(RowsOf(m)), m, ignoreIfNonexistent, c)
      ensures forall other | other != m :: RowsOf(other) == old(RowsOf(other))
    {
      if !c.readable {
        return Err(FileError);
      }
      var recent := GetMostRecentInterval(m);
      var currIntervalTime := m.start;
      if recent.None? {
        if ignoreIfNonexistent {
          return Ok(false);
        }
      } else {
        currIntervalTime := recent.value + INTERVAL;
      }
      if !ShouldUpdate(currIntervalTime, m, c.now1) {
        return Ok(false);
      }
      var fetched := FetchData(currIntervalTime, c);
      if fetched.Err? {
        return Err(fetched.error);
      }
      var (data, time) := fetched.value;
      if |data| == 0 {
        return Ok(false);
      }
      if !c.appendable {
        return Err(FileError);
      }
      AddDataToFile(m, data);
      return Ok(!(time > c.now3 + INTERVAL));
    }

    /** The repeat-until-false loop for one month. It ends whatever the clock does and in whatever order the exchanges
        answer, as long as every call that asks to be repeated advances, after fewer continuing calls than the month
        has intervals left. Answers in order advance, and keep the file in order. */
    method RepeatUpdates(m: Month, ignoreIfNonexistent: bool, calls: nat -> Call) returns (count: nat)
      requires Valid() && m.start > ZERO_TIME && m.start <= NextTime(RowsOf(m), m)
      requires AllAdvance(RowsOf(m), m, ignoreIfNonexistent, calls)
      modifies this
      ensures Valid() && RowsOf(m) == Repeat(old(RowsOf(m)), m, ignoreIfNonexistent, calls, count + 1)
      ensures Extended(old(RowsOf(m)), RowsOf(m), m, calls)
      ensures AllContinue(old(RowsOf(m)), m, ignoreIfNonexistent, calls, count)
      ensures !Continues(old(RowsOf(m)), m, ignoreIfNonexistent, calls, count)
      ensures count > 0 ==> count * INTERVAL < m.end - NextTime(old(RowsOf(m)), m) <= m.end - m.start
      ensures forall other | other != m :: RowsOf(other) == old(RowsOf(other))
    {
      count := 0;
      ghost var first := RowsOf(m);
      while true
        invariant Valid() && RowsOf(m) == Repeat(first, m, ignoreIfNonexistent, calls, count)
        invariant AllContinue(first, m, ignoreIfNonexistent, calls, count)
        invariant forall other | other != m :: RowsOf(other) == old(RowsOf(other))
        decreases if NextTime(RowsOf(m), m) < m.end then m.end - NextTime(RowsOf(m), m) else 0
      {
        ghost var before := RowsOf(m);
        var reply := UpdateCandlestickDataForMonth(m, ignoreIfNonexistent, calls(count));
        OneMoreCall(first, m, ignoreIfNonexistent, calls, count, before, RowsOf(m), reply);
        if reply.Err? || !reply.value {
          break;
        }
        count := count + 1;
      }
      RepeatExtends(first, m, ignoreIfNonexistent, calls, count + 1);
      LoopBounded(first, m, ignoreIfNonexistent, calls, count);
    }

    /** updateCandlestickData: the previous month is brought up to date during the first four days of a month, if
        it has a file; then the current month. */
    method UpdateCandlestickData(now: int, previous: Month, current: Month, earlier: nat -> Call, later: nat -> Call)
        returns (ghost more: nat, ghost count: nat)
      requires Valid() && previous != current && previous.start > ZERO_TIME && current.start > ZERO_TIME
      requires previous.start <= NextTime(RowsOf(previous), previous) &&
                current.start <= NextTime(RowsOf(current), current)
      requires AllAdvance(RowsOf(previous), previous, true, earlier) &&
                AllAdvance(RowsOf(current), current, false, later)
      modifies this
      ensures Valid()
      ensures RowsOf(previous) == Repeat(old(RowsOf(previous)), previous, true, earlier, more)
      ensures more > 0 <==> now < current.start + FOUR_DAYS
      ensures IsBlank(old(RowsOf(previous))) ==> RowsOf(previous) == old(RowsOf(previous))
      ensures RowsOf(current) == Repeat(old(RowsOf(current)), current, false, later, count + 1)
      ensures !Continues(old(RowsOf(current)), current, false, later, count)
      ensures Extended(old(RowsOf(previous)), RowsOf(previous), previous, earlier)
      ensures Extended(old(RowsOf(current)), RowsOf(current), current, later)
      ensures forall other | other != previous && other != current :: RowsOf(other) == old(RowsOf(other))
    {
      more := UpdatePreviousMonth(now < current.start + FOUR_DAYS, previous, earlier);
      ghost var brought := RowsOf(previous);
      var n := RepeatUpdates(current, false, later);
      assert RowsOf(previous) == brought;
      count := n;
    }

    /** The first half of updateCandlestickData. */
    method UpdatePreviousMonth(early: bool, previous: Month, calls: nat -> Call) returns (ghost more: nat)
      requires Valid() && previous.start > ZERO_TIME && previous.start <= NextTime(RowsOf(previous), previous)
      requires AllAdvance(RowsOf(previous), previous, true, calls)
      modifies this
      ensures Valid() && RowsOf(previous) == Repeat(old(RowsOf(previous)), previous, true, calls, more)
      ensures more > 0 <==> early
      ensures IsBlank(old(RowsOf(previous))) ==> RowsOf(previous) == old(RowsOf(previous))
      ensures Extended(old(RowsOf(previous)), RowsOf(previous), previous, calls)
      ensures forall other | other != previous :: RowsOf(other) == old(RowsOf(other))
    {
      more := 0;
      ghost var first := RowsOf(previous);
      if early {
        var n := RepeatUpdates(previous, true, calls);
        more := n + 1;
      }
      BlankStaysIgnored(first, previous, calls, more);
    }

    /** CalculateRateForMonth: the mean of the intervals' rates in the file, and the missing flag. */
    method CalculateRateForMonth(m: Month, readable: bool) returns (r: Result<(real, bool), RateError>)
      requires Valid()
      ensures r == if !readable then Err(CannotRead)
                   else if RowsOf(m) == [] then Err(Unusable(MonthlyRate.NoRecordsFound))
                   else Ok((MonthlyRate.Mean(RowsOf(m)), MonthlyRate.Flag(RowsOf(m), m)))
      ensures r.Ok? ==> MonthlyRate.IsRate(RowsOf(m), r.value.0) && MonthlyRate.Between(RowsOf(m), r.value.0)
    {
      if !readable {
        return Err(CannotRead);
      }
      var records := GetRecords(m);
      MonthlyRate.ReadBack(n, RowsOf(m));
      var rate := MonthlyRate.AverageRecords(n, records, m);
      if rate.Err? {
        return Err(Unusable(rate.error));
      }
      MonthlyRate.RateBetween(RowsOf(m), rate.value.0);
      return Ok(rate.value);
    }
  }
}
