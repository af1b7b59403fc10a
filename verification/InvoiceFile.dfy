/** Totals of an invoice's CSV line items: the one taken when paying and the one shown for review. */
module InvoiceFile {
  import opened Wrappers
  import opened MachineInts
  import Decimal

  /** The record lists are what the CSV reader returns: one list of fields per line item. */
  type Records = seq<seq<string>>

  /** A short record is an index past its end, which aborts the request. */
  datatype Failure = BadNumber | Crash

  datatype Totals = Totals(hours: uint64, costUSD: uint64)

  datatype LineItem = LineItem(
    kind: string,
    subtype: string,
    description: string,
    proposal: string,
    hours: uint64,
    totalCost: uint64)

  datatype Review = Review(totals: Totals, lineItems: seq<LineItem>)

  const ZERO_TOTALS := Totals(0, 0)

  /** Go's unsigned addition. */
  function Add64(a: uint64, b: uint64): uint64 {
    (a + b) % TWO_TO_THE_64
  }

  /** What the two number fields of one record say. */
  function Amounts(record: seq<string>): Result<Totals, Failure> {
    if |record| <= 4 then Err(Crash)
    else if Decimal.ParseUint(record[4]).None? then Err(BadNumber)
    else if |record| <= 5 then Err(Crash)
    else if Decimal.ParseUint(record[5]).None? then Err(BadNumber)
    else Ok(Totals(Decimal.ParseUint(record[4]).value, Decimal.ParseUint(record[5]).value))
  }

  /** The index of the first record that fails, or the length of the list. */
  function FirstFailure(records: Records): (k: nat)
    ensures k <= |records|
    ensures k < |records| ==> Amounts(records[k]).Err?
    ensures forall i | 0 <= i < k :: Amounts(records[i]).Ok?
  {
    if records == [] || Amounts(records[0]).Err? then 0 else 1 + FirstFailure(records[1..])
  }

  /** The unbounded sums over records that all parse. */
  function HoursSum(records: Records): nat
    requires forall r | r in records :: Amounts(r).Ok?
  {
    if records == [] then 0 else HoursSum(records[..|records| - 1]) + Amounts(records[|records| - 1]).value.hours
  }

  function CostSum(records: Records): nat
    requires forall r | r in records :: Amounts(r).Ok?
  {
    if records == [] then 0 else CostSum(records[..|records| - 1]) + Amounts(records[|records| - 1]).value.costUSD
  }

  /** The totals a record list stands for: the first failing record decides, otherwise the sums modulo 2^64. */
  function TotalsOf(records: Records): (r: Result<Totals, Failure>) {
    var k := FirstFailure(records);
    if k < |records| then Err(Amounts(records[k]).error)
    else Ok(Totals(HoursSum(records) % TWO_TO_THE_64, CostSum(records) % TWO_TO_THE_64))
  }

  lemma SumSnoc(records: Records, k: nat)
    requires k < |records| && forall r | r in records[..k + 1] :: Amounts(r).Ok?
    ensures forall r | r in records[..k] :: Amounts(r).Ok?
    ensures HoursSum(records[..k + 1]) == HoursSum(records[..k]) + Amounts(records[k]).value.hours
    ensures CostSum(records[..k + 1]) == CostSum(records[..k]) + Amounts(records[k]).value.costUSD
  {
    assert records[..k + 1][..k] == records[..k];
    assert forall r | r in records[..k] :: r in records[..k + 1];
  }

  lemma AddModulo(sum: nat, x: uint64)
    ensures Add64(sum % TWO_TO_THE_64, x) == (sum + x) % TWO_TO_THE_64
  {
  }

  /** One more record on both running totals. */
  lemma NextTotals(records: Records, k: nat, totals: Totals)
    requires k < |records| && (forall rec | rec in records[..k] :: Amounts(rec).Ok?) && Amounts(records[k]).Ok?
    requires totals == Totals(HoursSum(records[..k]) % TWO_TO_THE_64, CostSum(records[..k]) % TWO_TO_THE_64)
    ensures forall rec | rec in records[..k + 1] :: Amounts(rec).Ok?
    ensures var amounts := Amounts(records[k]).value;
            Totals(Add64(totals.hours, amounts.hours), Add64(totals.costUSD, amounts.costUSD))
            == Totals(HoursSum(records[..k + 1]) % TWO_TO_THE_64, CostSum(records[..k + 1]) % TWO_TO_THE_64)
  {
    assert records[..k + 1] == records[..k] + [records[k]];
    SumSnoc(records, k);
    AddModulo(HoursSum(records[..k]), Amounts(records[k]).value.hours);
    AddModulo(CostSum(records[..k]), Amounts(records[k]).value.costUSD);
  }

  lemma {:induction false} FailureIsFirst(records: Records, k: nat)
    requires k < |records| && Amounts(records[k]).Err? && forall i | 0 <= i < k :: Amounts(records[i]).Ok?
    ensures FirstFailure(records) == k
  {
    assert FirstFailure(records) >= k;
  }

  /** The fields read from a record, in order of their position. */
  function ItemOf(record: seq<string>): LineItem
    requires Amounts(record).Ok?
  {
    LineItem(record[0], record[1], record[2], record[3], Amounts(record).value.hours, Amounts(record).value.costUSD)
  }

  /** deriveTotalCostFromInvoice: adds up the hours and costs, stopping at the first bad field. */
  method DeriveTotalCost(records: Records) returns (r: Result<Totals, Failure>)
    ensures r == TotalsOf(records)
  {
    var totals := ZERO_TOTALS;
    for k := 0 to |records|
      invariant forall rec | rec in records[..k] :: Amounts(rec).Ok?
      invariant totals == Totals(HoursSum(records[..k]) % TWO_TO_THE_64, CostSum(records[..k]) % TWO_TO_THE_64)
    {
      var record := records[k];
      assert forall i | 0 <= i < k :: records[i] in records[..k];
      if |record| <= 4 {
        FailureIsFirst(records, k);
        return Err(Crash);
      }
      var hours := Decimal.ParseUint(record[4]);
      if hours.None? {
        FailureIsFirst(records, k);
        return Err(BadNumber);
      }
      if |record| <= 5 {
        FailureIsFirst(records, k);
        return Err(Crash);
      }
      var cost := Decimal.ParseUint(record[5]);
      if cost.None? {
        FailureIsFirst(records, k);
        return Err(BadNumber);
      }
      NextTotals(records, k, totals);
      totals := Totals(Add64(totals.hours, hours.value), Add64(totals.costUSD, cost.value));
    }
    assert records[..|records|] == records;
    assert FirstFailure(records) == |records| by {
      assert forall i | 0 <= i < |records| :: records[i] in records;
    }
    return Ok(totals);
  }

  /** createInvoiceReview: copies the fields of each record into a line item and keeps running totals. */
  method CreateInvoiceReview(records: Records) returns (r: Result<Review, Failure>)
    ensures r.Err? <==> TotalsOf(records).Err?
    ensures r.Err? ==> r.error == TotalsOf(records).error
    ensures r.Ok? ==> r.value.totals == TotalsOf(records).value
    ensures r.Ok? ==> |r.value.lineItems| == |records| &&
                      forall i | 0 <= i < |records| ::
                        Amounts(records[i]).Ok? && r.value.lineItems[i] == ItemOf(records[i])
  {
    var totals := ZERO_TOTALS;
    var items: seq<LineItem> := [];
    for k := 0 to |records|
      invariant forall rec | rec in records[..k] :: Amounts(rec).Ok?
      invariant totals == Totals(HoursSum(records[..k]) % TWO_TO_THE_64, CostSum(records[..k]) % TWO_TO_THE_64)
      invariant |items| == k
      invariant forall i | 0 <= i < k :: Amounts(records[i]).Ok? && items[i] == ItemOf(records[i])
    {
      var record := records[k];
      if |record| <= 4 {
        // one of the positions 0 to 4 does not exist
        FailureIsFirst(records, k);
        return Err(Crash);
      }
      var item := LineItem(record[0], record[1], record[2], record[3], 0, 0);
      var hours := Decimal.ParseUint(record[4]);
      if hours.None? {
        FailureIsFirst(records, k);
        return Err(BadNumber);
      }
      item := item.(hours := hours.value);
      if |record| <= 5 {
        FailureIsFirst(records, k);
        return Err(Crash);
      }
      var cost := Decimal.ParseUint(record[5]);
      if cost.None? {
        FailureIsFirst(records, k);
        return Err(BadNumber);
      }
      item := item.(totalCost := cost.value);
      NextTotals(records, k, totals);
      totals := Totals(Add64(totals.hours, item.hours), Add64(totals.costUSD, item.totalCost));
      items := items + [item];
    }
    assert records[..|records|] == records;
    return Ok(Review(totals, items));
  }

  /** Review and payment agree on every record list, also when a record is short or a number is malformed. */
  method ReviewThenPay(records: Records) returns (review: Result<Review, Failure>, pay: Result<Totals, Failure>)
    ensures review.Ok? <==> pay.Ok?
    ensures review.Ok? ==> review.value.totals == pay.value
    ensures review.Err? ==> review.error == pay.error
  {
    review := CreateInvoiceReview(records);
    pay := DeriveTotalCost(records);
  }

  /** The sums by hand over the line items shown for review. */
  function ItemHours(items: seq<LineItem>): nat {
    if items == [] then 0 else ItemHours(items[..|items| - 1]) + items[|items| - 1].hours
  }

  function ItemCosts(items: seq<LineItem>): nat {
    if items == [] then 0 else ItemCosts(items[..|items| - 1]) + items[|items| - 1].totalCost
  }

  /** The totals are the sums of the reviewed line items modulo 2^64, hence exact when those do not overflow. */
  lemma {:induction false} TotalsAreItemSums(records: Records, items: seq<LineItem>)
    requires |items| == |records|
    requires forall i | 0 <= i < |records| :: Amounts(records[i]).Ok? && items[i] == ItemOf(records[i])
    ensures TotalsOf(records) == Ok(Totals(ItemHours(items) % TWO_TO_THE_64, ItemCosts(items) % TWO_TO_THE_64))
    ensures ItemCosts(items) < TWO_TO_THE_64 ==> TotalsOf(records).value.costUSD == ItemCosts(items)
    ensures ItemHours(items) < TWO_TO_THE_64 ==> TotalsOf(records).value.hours == ItemHours(items)
  {
    assert FirstFailure(records) == |records|;
    SumsAgree(records, items);
  }

  lemma {:induction false} SumsAgree(records: Records, items: seq<LineItem>)
    requires |items| == |records|
    requires forall i | 0 <= i < |records| :: Amounts(records[i]).Ok? && items[i] == ItemOf(records[i])
    ensures HoursSum(records) == ItemHours(items) && CostSum(records) == ItemCosts(items)
  {
    if records != [] {
      SumsAgree(records[..|records| - 1], items[..|items| - 1]);
    }
  }

  // ---------------------------------------------------------------- the fields

  /** Text that reads as an unsigned 64-bit number. */
  predicate Numeral(s: string) {
    s != "" && Decimal.AllDigits(s) && Decimal.Value(s) < TWO_TO_THE_64
  }

  /** A record of six fields or more, with hours in the fifth and a cost in the sixth. */
  predicate Readable(record: seq<string>) {
    |record| > 5 && Numeral(record[4]) && Numeral(record[5])
  }

  lemma AmountsIff(record: seq<string>)
    ensures Amounts(record).Ok? <==> Readable(record)
    ensures Readable(record) ==> Amounts(record) == Ok(Totals(Decimal.Value(record[4]), Decimal.Value(record[5])))
  {
  }

  /** A line item of a review shows the first six fields of its record. */
  lemma ItemFields(record: seq<string>)
    requires Readable(record)
    ensures Amounts(record).Ok?
    ensures ItemOf(record) == LineItem(record[0], record[1], record[2], record[3],
                                       Decimal.Value(record[4]), Decimal.Value(record[5]))
  {
    AmountsIff(record);
  }

  /** The sum of the sixth fields. */
  function FieldCosts(records: Records): nat
    requires forall i | 0 <= i < |records| :: Readable(records[i])
  {
    if records == [] then 0
    else
      assert Readable(records[|records| - 1]);
      FieldCosts(records[..|records| - 1]) + Decimal.Value(records[|records| - 1][5])
  }

  /** The sum of the fifth fields. */
  function FieldHours(records: Records): nat
    requires forall i | 0 <= i < |records| :: Readable(records[i])
  {
    if records == [] then 0
    else
      assert Readable(records[|records| - 1]);
      FieldHours(records[..|records| - 1]) + Decimal.Value(records[|records| - 1][4])
  }

  lemma {:induction false} SumsOfFields(records: Records)
    requires forall i | 0 <= i < |records| :: Readable(records[i])
    ensures forall r | r in records :: Amounts(r).Ok?
    ensures CostSum(records) == FieldCosts(records) && HoursSum(records) == FieldHours(records)
  {
    forall r | r in records ensures Amounts(r).Ok? {
      AmountsIff(r);
    }
    if records != [] {
      SumsOfFields(records[..|records| - 1]);
      AmountsIff(records[|records| - 1]);
    }
  }

  /** A file has totals if and only if every record is readable, and then they are the sums of the fifth and of the
      sixth fields modulo 2^64. */
  lemma TotalsIff(records: Records)
    ensures TotalsOf(records).Ok? <==> forall i | 0 <= i < |records| :: Readable(records[i])
    ensures TotalsOf(records).Ok? ==>
              TotalsOf(records).value ==
              Totals(FieldHours(records) % TWO_TO_THE_64, FieldCosts(records) % TWO_TO_THE_64)
  {
    forall i | 0 <= i < |records| ensures Amounts(records[i]).Ok? <==> Readable(records[i]) {
      AmountsIff(records[i]);
    }
    if forall i | 0 <= i < |records| :: Readable(records[i]) {
      SumsOfFields(records);
      assert FirstFailure(records) == |records|;
    }
  }
}
