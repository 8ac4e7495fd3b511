/**
 * The company: an ordered list of employees and six read-only reports for a
 * period (month, year) — three totals, two searches for the employee with the
 * highest payment or benefit, and one for the salesperson with the largest sale.
 */
module Payroll {
  import opened Optional
  import opened Sales
  import opened Staff
  import opened Ranking

  /** Which per-employee amount a report reads. */
  datatype Measure = Payment | SalaryOnly | BenefitOnly

  /** The amount the report reads for e in the period (month, year). */
  function Amount(e: Employee, measure: Measure, month: int, year: int): real
  {
    match measure
    case Payment => e.Salary(month, year) + e.Benefit(month, year)
    case SalaryOnly => e.Salary(month, year)
    case BenefitOnly => e.Benefit(month, year)
  }

  /** The amounts of the employees, in the company's order. */
  function Amounts(staff: seq<Employee>, measure: Measure, month: int, year: int): (r: seq<real>)
    ensures |r| == |staff|
  {
    if staff == [] then []
    else Amounts(staff[..|staff| - 1], measure, month, year) + [Amount(staff[|staff| - 1], measure, month, year)]
  }

  /** The employee at the position the search ends on, or none. */
  function EmployeeAt(staff: seq<Employee>, k: Option<nat>): Option<Employee>
    requires k.Some? ==> k.value < |staff|
  {
    match k
    case None => None
    case Some(i) => Some(staff[i])
  }

  /** A sale of the period together with the salesperson who recorded it. */
  datatype Bid = Bid(seller: Employee, amount: real)

  /** The records that fall in the period, as bids of seller, in recording order. */
  function BidsFrom(seller: Employee, records: seq<Sale>, month: int, year: int): seq<Bid>
  {
    if records == [] then []
    else
      var last := records[|records| - 1];
      BidsFrom(seller, records[..|records| - 1], month, year)
        + if InPeriod(last, month, year) then [Bid(seller, last.amount)] else []
  }

  /** The bids of e for the period: none unless e is a salesperson. */
  function BidsOf(e: Employee, month: int, year: int): seq<Bid>
  {
    if e.SalesPerson? then BidsFrom(e, e.sales, month, year) else []
  }

  /** Every bid of the period, employee by employee and then record by record. */
  function SaleBids(staff: seq<Employee>, month: int, year: int): seq<Bid>
  {
    if staff == [] then []
    else SaleBids(staff[..|staff| - 1], month, year) + BidsOf(staff[|staff| - 1], month, year)
  }

  /** The amounts of bids, in order. */
  function BidAmounts(bids: seq<Bid>): (r: seq<real>)
    ensures |r| == |bids|
  {
    if bids == [] then [] else BidAmounts(bids[..|bids| - 1]) + [bids[|bids| - 1].amount]
  }

  /** The seller at the position the search ends on, or none. */
  function SellerAt(bids: seq<Bid>, k: Option<nat>): Option<Employee>
    requires k.Some? ==> k.value < |bids|
  {
    match k
    case None => None
    case Some(i) => Some(bids[i].seller)
  }

  /** The i-th amount is the amount of the i-th employee. */
  lemma {:induction false} AmountsAt(staff: seq<Employee>, measure: Measure, month: int, year: int)
    ensures forall i :: 0 <= i < |staff| ==> Amounts(staff, measure, month, year)[i] == Amount(staff[i], measure, month, year)
  {
    if staff != [] {
      AmountsAt(staff[..|staff| - 1], measure, month, year);
    }
  }

  /** The i-th bid amount is the amount of the i-th bid. */
  lemma {:induction false} BidAmountsAt(bids: seq<Bid>)
    ensures forall i :: 0 <= i < |bids| ==> BidAmounts(bids)[i] == bids[i].amount
  {
    if bids != [] {
      BidAmountsAt(bids[..|bids| - 1]);
    }
  }

  /** Appending a bid appends its amount. */
  lemma BidAmountsAppend(bids: seq<Bid>, b: Bid)
    ensures BidAmounts(bids + [b]) == BidAmounts(bids) + [b.amount]
  {
    assert (bids + [b])[..|bids|] == bids;
  }

  /** A bid of seller comes from one of seller's records of the period with that amount, and each such record gives one. */
  lemma {:induction false} BidsFromMembers(seller: Employee, records: seq<Sale>, month: int, year: int, b: Bid)
    ensures b in BidsFrom(seller, records, month, year) <==> b.seller == seller && Sale(month, year, b.amount) in records
  {
    if records != [] {
      var prefix, last := records[..|records| - 1], records[|records| - 1];
      assert records == prefix + [last];
      BidsFromMembers(seller, prefix, month, year, b);
    }
  }

  /** The bids of the period are exactly the matching sales of the salespeople on the staff. */
  lemma {:induction false} SaleBidsMembers(staff: seq<Employee>, month: int, year: int, b: Bid)
    ensures b in SaleBids(staff, month, year) <==>
      b.seller in staff && b.seller.SalesPerson? && Sale(month, year, b.amount) in b.seller.sales
  {
    if staff != [] {
      var prefix, last := staff[..|staff| - 1], staff[|staff| - 1];
      assert staff == prefix + [last];
      SaleBidsMembers(prefix, month, year, b);
      if last.SalesPerson? {
        BidsFromMembers(last, last.sales, month, year, b);
      }
    }
  }

  /**
   * The employee the search ends on: none exactly when no employee's amount is
   * positive, and otherwise the first employee holding the largest amount.
   */
  lemma EmployeeAtLeader(staff: seq<Employee>, measure: Measure, month: int, year: int, winner: Option<Employee>)
    requires winner == EmployeeAt(staff, Leader(Amounts(staff, measure, month, year)))
    ensures winner.None? <==> forall i :: 0 <= i < |staff| ==> Amount(staff[i], measure, month, year) <= 0.0
    ensures winner.Some? ==> exists k :: IsFirstMax(Amounts(staff, measure, month, year), k) && winner.value == staff[k]
  {
    AmountsAt(staff, measure, month, year);
    LeaderIsFirstMax(Amounts(staff, measure, month, year));
  }

  /**
   * The seller the search ends on: none exactly when no bid of the period is
   * positive, and otherwise a salesperson on the staff who made the first bid
   * holding the largest amount.
   */
  lemma SellerAtLeader(staff: seq<Employee>, month: int, year: int, winner: Option<Employee>)
    requires winner == SellerAt(SaleBids(staff, month, year), Leader(BidAmounts(SaleBids(staff, month, year))))
    ensures winner.None? <==> forall b :: b in SaleBids(staff, month, year) ==> b.amount <= 0.0
    ensures winner.Some? ==> winner.value in staff && winner.value.SalesPerson?
    ensures winner.Some? ==> exists k :: IsFirstMax(BidAmounts(SaleBids(staff, month, year)), k)
                                 && SaleBids(staff, month, year)[k].seller == winner.value
  {
    var bids := SaleBids(staff, month, year);
    var lead := Leader(BidAmounts(bids));
    BidAmountsAt(bids);
    LeaderIsFirstMax(BidAmounts(bids));
    if lead.Some? {
      SaleBidsMembers(staff, month, year, bids[lead.value]);
    } else {
      forall b | b in bids ensures b.amount <= 0.0 {
        var k :| 0 <= k < |bids| && bids[k] == b;
      }
    }
  }

  /** Total paid is total salaries plus total benefits. */
  lemma {:induction false} PaidIsSalariesPlusBenefits(staff: seq<Employee>, month: int, year: int)
    ensures Sum(Amounts(staff, Payment, month, year))
         == Sum(Amounts(staff, SalaryOnly, month, year)) + Sum(Amounts(staff, BenefitOnly, month, year))
  {
    if staff != [] {
      PaidIsSalariesPlusBenefits(staff[..|staff| - 1], month, year);
    }
  }

  /** Hiring e appends e's amount, adds it to every total and leaves the earlier amounts as they were. */
  lemma TotalAfterHire(staff: seq<Employee>, e: Employee, measure: Measure, month: int, year: int)
    ensures Amounts(staff + [e], measure, month, year) == Amounts(staff, measure, month, year) + [Amount(e, measure, month, year)]
    ensures Sum(Amounts(staff + [e], measure, month, year)) == Sum(Amounts(staff, measure, month, year)) + Amount(e, measure, month, year)
  {
    var before := Amounts(staff, measure, month, year);
    var amount := Amount(e, measure, month, year);
    assert (staff + [e])[..|staff|] == staff;
    assert Amounts(staff + [e], measure, month, year) == before + [amount];
    SumAppend(before, amount);
  }

  /** Hiring e makes e the top employee exactly when e's amount beats the current level. */
  lemma HighestAfterHire(staff: seq<Employee>, e: Employee, measure: Measure, month: int, year: int)
    ensures EmployeeAt(staff + [e], Leader(Amounts(staff + [e], measure, month, year))) ==
      if Amount(e, measure, month, year) > Level(Amounts(staff, measure, month, year)) then Some(e)
      else EmployeeAt(staff, Leader(Amounts(staff, measure, month, year)))
  {
    TotalAfterHire(staff, e, measure, month, year);
    LeaderAppend(Amounts(staff, measure, month, year), Amount(e, measure, month, year));
  }

  /** Offering one more bid: it takes the lead exactly when its amount beats the current level. */
  lemma OfferBid(seen: seq<Bid>, bid: Bid, best: real, winner: Option<Employee>)
    requires best == Level(BidAmounts(seen))
    requires winner == SellerAt(seen, Leader(BidAmounts(seen)))
    ensures (if bid.amount > best then bid.amount else best) == Level(BidAmounts(seen + [bid]))
    ensures (if bid.amount > best then Some(bid.seller) else winner) == SellerAt(seen + [bid], Leader(BidAmounts(seen + [bid])))
  {
    BidAmountsAppend(seen, bid);
    LeaderAppend(BidAmounts(seen), bid.amount);
  }

  lemma AppendAssoc(a: seq<Bid>, b: seq<Bid>, c: seq<Bid>)
    ensures a + (b + c) == (a + b) + c
  {
  }

  /** One more employee scanned for bids. */
  lemma SaleBidsStep(staff: seq<Employee>, i: nat, month: int, year: int)
    requires i < |staff|
    ensures SaleBids(staff[..i + 1], month, year) == SaleBids(staff[..i], month, year) + BidsOf(staff[i], month, year)
    ensures !staff[i].SalesPerson? ==> SaleBids(staff[..i + 1], month, year) == SaleBids(staff[..i], month, year)
  {
    assert staff[..i + 1][..i] == staff[..i];
    assert SaleBids(staff[..i], month, year) + [] == SaleBids(staff[..i], month, year);
  }

  /** One more record of a salesperson scanned for bids. */
  lemma BidsFromStep(seller: Employee, records: seq<Sale>, j: nat, month: int, year: int)
    requires j < |records|
    ensures BidsFrom(seller, records[..j + 1], month, year) == BidsFrom(seller, records[..j], month, year)
      + if InPeriod(records[j], month, year) then [Bid(seller, records[j].amount)] else []
  {
    assert records[..j + 1][..j] == records[..j];
  }

  /** An empty company reports 0 for every total and no employee for every search. */
  lemma EmptyCompany(month: int, year: int, measure: Measure)
    ensures Sum(Amounts([], measure, month, year)) == 0.0
    ensures EmployeeAt([], Leader(Amounts([], measure, month, year))) == None
    ensures SellerAt(SaleBids([], month, year), Leader(BidAmounts(SaleBids([], month, year)))) == None
  {
  }

  class Company {
    /** The employees, in hiring order. */
    var staff: seq<Employee>

    constructor ()
      ensures staff == []
    {
      staff := [];
    }

    /** Appends one employee at the end of the list. */
    method AddEmployee(e: Employee)
      modifies this
      ensures staff == old(staff) + [e]
    {
      staff := staff + [e];
    }

    /** Adds up measure over the staff, asking each employee for salary and benefit. */
    method Total(measure: Measure, month: int, year: int) returns (total: real)
      ensures total == Sum(Amounts(staff, measure, month, year))
    {
      var employees := staff;
      ghost var amounts := Amounts(employees, measure, month, year);
      AmountsAt(employees, measure, month, year);
      total := 0.0;
      for i := 0 to |employees|
        invariant total == Sum(amounts[..i])
      {
        var amount := AmountOf(employees[i], measure, month, year);
        assert amounts[..i + 1] == amounts[..i] + [amount];
        SumAppend(amounts[..i], amount);
        total := total + amount;
      }
      assert amounts[..|employees|] == amounts;
    }

    /** Total paid (salary plus benefit) for the period; it is total salaries plus total benefits. */
    method TotalPaid(month: int, year: int) returns (total: real)
      ensures total == Sum(Amounts(staff, Payment, month, year))
      ensures total == Sum(Amounts(staff, SalaryOnly, month, year)) + Sum(Amounts(staff, BenefitOnly, month, year))
    {
      total := Total(Payment, month, year);
      PaidIsSalariesPlusBenefits(staff, month, year);
    }

    /** Total of the salaries for the period. */
    method TotalSalaries(month: int, year: int) returns (total: real)
      ensures total == Sum(Amounts(staff, SalaryOnly, month, year))
    {
      total := Total(SalaryOnly, month, year);
    }

    /** Total of the benefits for the period. */
    method TotalBenefits(month: int, year: int) returns (total: real)
      ensures total == Sum(Amounts(staff, BenefitOnly, month, year))
    {
      total := Total(BenefitOnly, month, year);
    }

    /**
     * The first employee whose measure is the largest, or none when no employee's
     * measure exceeds the baseline 0.
     */
    method Highest(measure: Measure, month: int, year: int) returns (winner: Option<Employee>)
      ensures winner == EmployeeAt(staff, Leader(Amounts(staff, measure, month, year)))
      ensures winner.None? <==> forall i :: 0 <= i < |staff| ==> Amount(staff[i], measure, month, year) <= 0.0
      ensures winner.Some? ==> exists k :: IsFirstMax(Amounts(staff, measure, month, year), k) && winner.value == staff[k]
    {
      var employees := staff;
      ghost var amounts := Amounts(employees, measure, month, year);
      AmountsAt(employees, measure, month, year);
      var best := 0.0;
      winner := None;
      ghost var lead: Option<nat> := None;
      for i := 0 to |employees|
        invariant lead == Leader(amounts[..i])
        invariant best == Level(amounts[..i])
        invariant winner == EmployeeAt(employees, lead)
      {
        var e := employees[i];
        var amount := AmountOf(e, measure, month, year);
        assert amounts[..i + 1] == amounts[..i] + [amount];
        LeaderAppend(amounts[..i], amount);
        if amount > best {
          best := amount;
          winner := Some(e);
          lead := Some(i);
        }
      }
      assert amounts[..|employees|] == amounts;
      EmployeeAtLeader(staff, measure, month, year, winner);
    }

    /** The employee with the highest payment (salary plus benefit), the first one on ties. */
    method HighestPaid(month: int, year: int) returns (winner: Option<Employee>)
      ensures winner == EmployeeAt(staff, Leader(Amounts(staff, Payment, month, year)))
      ensures winner.None? <==> forall i :: 0 <= i < |staff| ==> Amount(staff[i], Payment, month, year) <= 0.0
      ensures winner.Some? ==> exists k :: IsFirstMax(Amounts(staff, Payment, month, year), k) && winner.value == staff[k]
    {
      winner := Highest(Payment, month, year);
    }

    /** The employee with the highest benefit, the first one on ties. */
    method HighestBenefit(month: int, year: int) returns (winner: Option<Employee>)
      ensures winner == EmployeeAt(staff, Leader(Amounts(staff, BenefitOnly, month, year)))
      ensures winner.None? <==> forall i :: 0 <= i < |staff| ==> Amount(staff[i], BenefitOnly, month, year) <= 0.0
      ensures winner.Some? ==> exists k :: IsFirstMax(Amounts(staff, BenefitOnly, month, year), k) && winner.value == staff[k]
    {
      winner := Highest(BenefitOnly, month, year);
    }

    /**
     * The salesperson who recorded the largest sale of the period, the first such
     * sale in employee order and then recording order winning ties; none when no
     * sale of the period exceeds the baseline 0.
     */
    method TopSeller(month: int, year: int) returns (winner: Option<Employee>)
      ensures winner == SellerAt(SaleBids(staff, month, year), Leader(BidAmounts(SaleBids(staff, month, year))))
      ensures winner.None? <==> forall b :: b in SaleBids(staff, month, year) ==> b.amount <= 0.0
      ensures winner.Some? ==> winner.value in staff && winner.value.SalesPerson?
      ensures winner.Some? ==> exists k :: IsFirstMax(BidAmounts(SaleBids(staff, month, year)), k)
                                   && SaleBids(staff, month, year)[k].seller == winner.value
    {
      var employees := staff;
      var best := 0.0;
      winner := None;
      ghost var seen: seq<Bid> := [];
      for i := 0 to |employees|
        invariant seen == SaleBids(employees[..i], month, year)
        invariant best == Level(BidAmounts(seen))
        invariant winner == SellerAt(seen, Leader(BidAmounts(seen)))
      {
        var e := employees[i];
        SaleBidsStep(employees, i, month, year);
        if e.SalesPerson? {
          best, winner := OfferSales(e, month, year, best, winner, seen);
          seen := seen + BidsOf(e, month, year);
        }
      }
      assert employees[..|employees|] == employees;
      SellerAtLeader(staff, month, year, winner);
    }
  }

  /**
   * The inner scan over one salesperson's records: every sale of the period is
   * offered to the search in recording order, as bids following the bids seen so far.
   */
  method OfferSales(e: Employee, month: int, year: int, best: real, winner: Option<Employee>, ghost seen: seq<Bid>)
    returns (best': real, winner': Option<Employee>)
    requires e.SalesPerson?
    requires best == Level(BidAmounts(seen))
    requires winner == SellerAt(seen, Leader(BidAmounts(seen)))
    ensures best' == Level(BidAmounts(seen + BidsOf(e, month, year)))
    ensures winner' == SellerAt(seen + BidsOf(e, month, year), Leader(BidAmounts(seen + BidsOf(e, month, year))))
  {
    best', winner' := best, winner;
    var records := e.sales;
    ghost var offered := seen;
    for j := 0 to |records|
      invariant offered == seen + BidsFrom(e, records[..j], month, year)
      invariant best' == Level(BidAmounts(offered))
      invariant winner' == SellerAt(offered, Leader(BidAmounts(offered)))
    {
      var sale := records[j];
      BidsFromStep(e, records, j, month, year);
      if InPeriod(sale, month, year) {
        var bid := Bid(e, sale.amount);
        AppendAssoc(seen, BidsFrom(e, records[..j], month, year), [bid]);
        OfferBid(offered, bid, best', winner');
        if sale.amount > best' {
          best' := sale.amount;
          winner' := Some(e);
        }
        offered := offered + [bid];
      }
    }
    assert records[..|records|] == records;
  }

  /** The per-employee amount as the program computes it, calling the salary and benefit computations. */
  method AmountOf(e: Employee, measure: Measure, month: int, year: int) returns (amount: real)
    ensures amount == Amount(e, measure, month, year)
  {
    match measure
    case Payment =>
      var benefit := ComputeBenefit(e, month, year);
      amount := e.Salary(month, year) + benefit;
    case SalaryOnly =>
      amount := e.Salary(month, year);
    case BenefitOnly =>
      amount := ComputeBenefit(e, month, year);
  }
}
