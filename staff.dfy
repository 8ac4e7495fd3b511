/**
 * The three kinds of employee and their salary and benefit formulas. A salary
 * grows linearly with the years of service (query year minus hire year) and
 * does not depend on the month; the benefit is 20% of the salary for a
 * secretary, the commission on the period's first sale for a salesperson,
 * and nothing for a manager.
 */
module Staff {
  import opened Sales

  /**
   * An employee: one constructor per variant. Only the year of the hire date is
   * kept, the only part of it the formulas read; a salesperson also carries the
   * sales recorded so far, in recording order.
   */
  datatype Employee =
    | Secretary(name: string, hireYear: int)
    | SalesPerson(name: string, hireYear: int, sales: seq<Sale>)
    | Manager(name: string, hireYear: int)
  {
    /** Salary in the year of hiring. */
    function BaseSalary(): real
    {
      match this
      case Secretary(_, _) => 7000.0
      case SalesPerson(_, _, _) => 12000.0
      case Manager(_, _) => 20000.0
    }

    /** Raise per year of service. */
    function AnnualRaise(): real
    {
      match this
      case Secretary(_, _) => 1000.0
      case SalesPerson(_, _, _) => 1800.0
      case Manager(_, _) => 3000.0
    }

    /** Years of service at the queried year; negative before the hire year. */
    function Tenure(year: int): int
    {
      year - hireYear
    }

    /** Salary for the period (month, year); the month is not used. */
    function Salary(month: int, year: int): (r: real)
      ensures r == BaseSalary() <==> year == hireYear
      ensures r > BaseSalary() <==> year > hireYear
    {
      BaseSalary() + AnnualRaise() * Tenure(year) as real
    }

    /** Benefit for the period (month, year). */
    function Benefit(month: int, year: int): real
    {
      match this
      case Secretary(_, _) => Salary(month, year) * SecretaryBenefitRate
      case SalesPerson(_, _, sales) => Commission(sales, month, year)
      case Manager(_, _) => 0.0
    }
  }

  /** Share of the salary a secretary receives as benefit. */
  const SecretaryBenefitRate: real := 0.20

  /** The salesperson with one more sale recorded at the end of the list. */
  function AddSale(e: Employee, month: int, year: int, amount: real): (r: Employee)
    requires e.SalesPerson?
    ensures r.SalesPerson? && r.name == e.name && r.hireYear == e.hireYear
    ensures |r.sales| == |e.sales| + 1 && r.sales[..|e.sales|] == e.sales
    ensures r.sales[|e.sales|] == Sale(month, year, amount)
  {
    e.(sales := e.sales + [Sale(month, year, amount)])
  }

  /** The benefit computation as the program runs it: a salesperson's scan stops at the first matching sale. */
  method ComputeBenefit(e: Employee, month: int, year: int) returns (b: real)
    ensures b == e.Benefit(month, year)
  {
    match e
    case Secretary(_, _) =>
      b := e.Salary(month, year) * SecretaryBenefitRate;
    case Manager(_, _) =>
      b := 0.0;
    case SalesPerson(_, _, sales) =>
      for i := 0 to |sales|
        invariant forall j :: 0 <= j < i ==> !InPeriod(sales[j], month, year)
      {
        if InPeriod(sales[i], month, year) {
          CommissionOfFirstMatch(sales, month, year, i);
          return sales[i].amount * CommissionRate;
        }
      }
      b := 0.0;
  }

  /** Each year of service adds the variant's raise, whatever the months queried. */
  lemma SalaryPerYear(e: Employee, month: int, otherMonth: int, year: int)
    ensures e.Salary(otherMonth, year + 1) == e.Salary(month, year) + e.AnnualRaise()
  {
  }

  /** A secretary's salary: 7000 plus 1000 per year of service. */
  lemma SecretarySalary(e: Employee, month: int, year: int)
    requires e.Secretary?
    ensures e.Salary(month, year) == 7000.0 + 1000.0 * (year - e.hireYear) as real
  {
  }

  /** A salesperson's salary: 12000 plus 1800 per year of service. */
  lemma SalesPersonSalary(e: Employee, month: int, year: int)
    requires e.SalesPerson?
    ensures e.Salary(month, year) == 12000.0 + 1800.0 * (year - e.hireYear) as real
  {
  }

  /** A manager's salary: 20000 plus 3000 per year of service. */
  lemma ManagerSalary(e: Employee, month: int, year: int)
    requires e.Manager?
    ensures e.Salary(month, year) == 20000.0 + 3000.0 * (year - e.hireYear) as real
  {
  }

  /** A secretary's benefit is a fifth of the salary for the same period. */
  lemma SecretaryBenefit(e: Employee, month: int, year: int)
    requires e.Secretary?
    ensures e.Benefit(month, year) * 5.0 == e.Salary(month, year)
  {
  }

  /** A manager's benefit is 0 for every period. */
  lemma ManagerBenefit(e: Employee, month: int, year: int)
    requires e.Manager?
    ensures e.Benefit(month, year) == 0.0
  {
  }

  /** A salesperson's benefit is 30% of the first sale of the period, or 0 without one. */
  lemma SalesPersonBenefit(e: Employee, month: int, year: int)
    requires e.SalesPerson?
    ensures forall i :: IsFirstMatch(e.sales, month, year, i) ==> e.Benefit(month, year) == e.sales[i].amount * CommissionRate
    ensures (forall j :: 0 <= j < |e.sales| ==> !InPeriod(e.sales[j], month, year)) ==> e.Benefit(month, year) == 0.0
  {
    forall i | IsFirstMatch(e.sales, month, year, i)
      ensures e.Benefit(month, year) == e.sales[i].amount * CommissionRate
    {
      CommissionOfFirstMatch(e.sales, month, year, i);
    }
  }

  /**
   * Recording a sale keeps a salesperson's benefit for a period that already had
   * a sale (the first one recorded wins); for a period without one, the benefit
   * becomes 30% of the new sale if it falls in that period, and stays 0 otherwise.
   */
  lemma BenefitAfterSale(e: Employee, month: int, year: int, amount: real, m: int, y: int)
    requires e.SalesPerson?
    ensures AddSale(e, month, year, amount).Benefit(m, y) ==
      if FirstMatch(e.sales, m, y).Some? then e.Benefit(m, y)
      else if month == m && year == y then amount * CommissionRate
      else 0.0
  {
    var s := Sale(month, year, amount);
    assert AddSale(e, month, year, amount).sales == e.sales + [s];
    CommissionAfterRecord(e.sales, s, m, y);
  }
}
