/**
 * Sales records and the commission a salesperson earns for a period: 30% of
 * the first record, in recording order, whose month and year match.
 */
module Sales {
  import opened Optional

  /** One recorded sale: the period (month, year) and the amount sold. Immutable. */
  datatype Sale = Sale(month: int, year: int, amount: real)

  /** Share of the matching sale paid to a salesperson as benefit. */
  const CommissionRate: real := 0.30

  predicate InPeriod(s: Sale, month: int, year: int)
  {
    s.month == month && s.year == year
  }

  /** i is the first position of sales recorded in the period (month, year). */
  ghost predicate IsFirstMatch(sales: seq<Sale>, month: int, year: int, i: int)
  {
    && 0 <= i < |sales|
    && InPeriod(sales[i], month, year)
    && forall j :: 0 <= j < i ==> !InPeriod(sales[j], month, year)
  }

  /** Position of the first record of the period, if there is one. */
  function FirstMatch(sales: seq<Sale>, month: int, year: int): (r: Option<nat>)
    ensures r.Some? ==> IsFirstMatch(sales, month, year, r.value)
    ensures r.None? <==> forall j :: 0 <= j < |sales| ==> !InPeriod(sales[j], month, year)
  {
    if sales == [] then None
    else if InPeriod(sales[0], month, year) then Some(0)
    else
      match FirstMatch(sales[1..], month, year)
      case None => None
      case Some(i) => Some(i + 1)
  }

  /** The salesperson's benefit for the period. */
  function Commission(sales: seq<Sale>, month: int, year: int): real
  {
    match FirstMatch(sales, month, year)
    case None => 0.0
    case Some(i) => sales[i].amount * CommissionRate
  }

  /** With a matching record, the commission is 30% of the first one recorded. */
  lemma CommissionOfFirstMatch(sales: seq<Sale>, month: int, year: int, i: int)
    requires IsFirstMatch(sales, month, year, i)
    ensures Commission(sales, month, year) == sales[i].amount * CommissionRate
  {
    var j := FirstMatch(sales, month, year).value;
    assert !(j < i) && !(i < j);
  }

  /** Without a matching record, the commission is 0. */
  lemma CommissionWithoutMatch(sales: seq<Sale>, month: int, year: int)
    requires forall j :: 0 <= j < |sales| ==> !InPeriod(sales[j], month, year)
    ensures Commission(sales, month, year) == 0.0
  {
  }

  /**
   * Recording a sale never changes the commission of a period that already had
   * a record (the first one recorded wins); for a period without one, the
   * commission becomes 30% of the new sale if it falls in that period.
   */
  lemma CommissionAfterRecord(sales: seq<Sale>, s: Sale, month: int, year: int)
    ensures Commission(sales + [s], month, year) ==
      if FirstMatch(sales, month, year).Some? then Commission(sales, month, year)
      else if InPeriod(s, month, year) then s.amount * CommissionRate
      else 0.0
  {
    var all := sales + [s];
    match FirstMatch(sales, month, year)
    case Some(i) =>
      assert IsFirstMatch(all, month, year, i);
      CommissionOfFirstMatch(all, month, year, i);
    case None =>
      if InPeriod(s, month, year) {
        assert IsFirstMatch(all, month, year, |sales|);
        CommissionOfFirstMatch(all, month, year, |sales|);
      } else {
        CommissionWithoutMatch(all, month, year);
      }
  }
}
