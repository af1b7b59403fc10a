/** What one update of a data file does, in terms of the times the two feeds have in common. */
module RateOutcomes {
  import opened Wrappers
  import opened MachineInts
  import opened Candlesticks
  import opened RateCalc

  /** The time asked for: the start of the month, or an interval past the last row. */
  function AskedTime(rows: seq<Row>, m: Month): int {
    if IsBlank(rows) then m.start else rows[|rows| - 1].dcrBTC.timestamp + INTERVAL
  }

  /** The first positions with a common time that is not too early. */
  ghost predicate FirstCommon(a: Feed, b: Feed, p: nat, q: nat, t: int) {
    Common(a, b, p, q, t) && forall i: nat, j: nat | Common(a, b, i, j, t) :: p <= i && q <= j
  }

  ghost predicate NothingCommon(a: Feed, b: Feed, t: int) {
    forall i: nat, j: nat :: !Common(a, b, i, j, t)
  }

  /** The rows from there on, until one of the feeds runs out. */
  predicate Paired(a: Feed, b: Feed, p: nat, q: nat, data: seq<Row>) {
    && p <= |a| && q <= |b|
    && (p + |data| == |a| || q + |data| == |b|) && p + |data| <= |a| && q + |data| <= |b|
    && forall k | 0 <= k < |data| :: data[k] == Row(a[p + k], b[q + k])
  }

  ghost predicate PairedFromFirst(a: Feed, b: Feed, t: int, data: seq<Row>) {
    exists p: nat, q: nat :: FirstCommon(a, b, p, q, t) && Paired(a, b, p, q, data)
  }

  /** The call is worth asking the exchanges: the month has an interval left, and the clock has come that far. */
  predicate Due(t: int, m: Month, c: Call) {
    t + INTERVAL < m.end && t <= c.now1 + INTERVAL
  }

  /** The file and the reply after an update: rows are added exactly if the call is due, both exchanges answer, their
      feeds have a time in common that is not too early, and the file can be opened; then they are the rows from the
      first such time on, and the call is repeated unless it has come up with the clock. */
  ghost predicate UpdateDoes(rows: seq<Row>, m: Month, ignoreIfNonexistent: bool, c: Call, after: seq<Row>,
                             reply: Result<bool, Error>)
  {
    var t := AskedTime(rows, m);
    if !c.readable then after == rows && reply == Err(FileError)
    else if (IsBlank(rows) && ignoreIfNonexistent) || !Due(t, m, c) || t > c.now2 + INTERVAL then
      after == rows && reply == Ok(false)
    else if c.dcrBTC.None? then after == rows && reply == Err(FetchError)
    else if c.dcrBTC.value == [] then after == rows && reply == Ok(false)
    else if c.btcUSD.None? then after == rows && reply == Err(FetchError)
    else if c.btcUSD.value == [] || NothingCommon(c.dcrBTC.value, c.btcUSD.value, t) then
      after == rows && reply == Ok(false)
    else if !c.appendable then after == rows && reply == Err(FileError)
    else
      exists data: seq<Row> | data != [] ::
        && PairedFromFirst(c.dcrBTC.value, c.btcUSD.value, t, data) && after == rows + data
        && reply == Ok(data[|data| - 1].dcrBTC.timestamp <= c.now3 + INTERVAL)
  }

  lemma MeetingIsFirst(t: int, c: Call)
    requires Answered(c) && FeedsIncreasing(c)
    ensures match Meeting(t, c)
            case None => NothingCommon(c.dcrBTC.value, c.btcUSD.value, t)
            case Some((p, q)) => FirstCommon(c.dcrBTC.value, c.btcUSD.value, p, q, t)
  {
    RaisedTimeSameResult(c.dcrBTC.value, c.btcUSD.value, t);
    AlignIsLeast(c.dcrBTC.value, c.btcUSD.value, 0, 0, t);
  }

  lemma FetchOutcome(t: int, c: Call)
    requires Answered(c) && FeedsIncreasing(c) && t <= c.now2 + INTERVAL
    ensures var a, b := c.dcrBTC.value, c.btcUSD.value;
            && Fetch(t, c).Ok?
            && var (data, time) := Fetch(t, c).value;
               if NothingCommon(a, b, t) then data == []
               else data != [] && PairedFromFirst(a, b, t, data) && time == data[|data| - 1].dcrBTC.timestamp
  {
    var a, b := c.dcrBTC.value, c.btcUSD.value;
    MeetingIsFirst(t, c);
    if Meeting(t, c).Some? {
      var (p, q) := Meeting(t, c).value;
      assert Paired(a, b, p, q, Zip(a, b, p, q));
      assert !NothingCommon(a, b, t);
    }
  }

  lemma UpdateOutcome(rows: seq<Row>, m: Month, ignoreIfNonexistent: bool, c: Call)
    requires FeedsIncreasing(c)
    ensures var (after, reply) := Update(rows, m, ignoreIfNonexistent, c);
            UpdateDoes(rows, m, ignoreIfNonexistent, c, after, reply)
  {
    var t := NextTime(rows, m);
    if Answered(c) && t <= c.now2 + INTERVAL {
      FetchOutcome(t, c);
    }
  }
}
