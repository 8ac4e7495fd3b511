/**
 * The sample company of the reference data, queried for April 2022: six
 * employees, two of them salespeople with five monthly sales each.
 */
module Sample {
  import opened Optional
  import opened Sales
  import opened Staff
  import opened Ranking
  import opened Payroll

  /** Ana's sales, December 2021 to April 2022, recorded one by one. */
  function Ana(): Employee
  {
    var ana := SalesPerson("Ana Silva", 2021, []);
    var ana := AddSale(ana, 12, 2021, 5200.0);
    var ana := AddSale(ana, 1, 2022, 4000.0);
    var ana := AddSale(ana, 2, 2022, 4200.0);
    var ana := AddSale(ana, 3, 2022, 5850.0);
    AddSale(ana, 4, 2022, 7000.0)
  }

  /** João's sales, December 2021 to April 2022, recorded one by one. */
  function Joao(): Employee
  {
    var joao := SalesPerson("João Mendes", 2021, []);
    var joao := AddSale(joao, 12, 2021, 3400.0);
    var joao := AddSale(joao, 1, 2022, 7700.0);
    var joao := AddSale(joao, 2, 2022, 5000.0);
    var joao := AddSale(joao, 3, 2022, 5900.0);
    AddSale(joao, 4, 2022, 6500.0)
  }

  /** The six employees in hiring order. */
  function SampleStaff(): seq<Employee>
  {
    [Secretary("Jorge Carvalho", 2018), Secretary("Maria Souza", 2015), Ana(), Joao(),
     Manager("Juliana Alves", 2017), Manager("Bento Albino", 2014)]
  }

  lemma AnaSales()
    ensures Ana().SalesPerson? && Ana().name == "Ana Silva" && Ana().hireYear == 2021
    ensures Ana().sales == [Sale(12, 2021, 5200.0), Sale(1, 2022, 4000.0), Sale(2, 2022, 4200.0), Sale(3, 2022, 5850.0), Sale(4, 2022, 7000.0)]
  {
  }

  lemma JoaoSales()
    ensures Joao().SalesPerson? && Joao().name == "João Mendes" && Joao().hireYear == 2021
    ensures Joao().sales == [Sale(12, 2021, 3400.0), Sale(1, 2022, 7700.0), Sale(2, 2022, 5000.0), Sale(3, 2022, 5900.0), Sale(4, 2022, 6500.0)]
  {
  }

  /** April 2022 benefits of the two salespeople: 30% of their April sale, the last one each recorded. */
  lemma SampleCommissions()
    ensures Ana().Benefit(4, 2022) == 2100.0
    ensures Joao().Benefit(4, 2022) == 1950.0
  {
    AnaSales();
    JoaoSales();
    CommissionOfFirstMatch(Ana().sales, 4, 2022, 4);
    CommissionOfFirstMatch(Joao().sales, 4, 2022, 4);
  }

  /** Per-employee salaries for April 2022. */
  lemma SampleSalaries()
    ensures Amounts(SampleStaff(), SalaryOnly, 4, 2022) == [11000.0, 14000.0, 13800.0, 13800.0, 35000.0, 44000.0]
  {
    var staff := SampleStaff();
    AnaSales();
    JoaoSales();
    AmountsAt(staff, SalaryOnly, 4, 2022);
  }

  /** Per-employee benefits for April 2022. */
  lemma SampleBenefits()
    ensures Amounts(SampleStaff(), BenefitOnly, 4, 2022) == [2200.0, 2800.0, 2100.0, 1950.0, 0.0, 0.0]
  {
    var staff := SampleStaff();
    SampleCommissions();
    AmountsAt(staff, BenefitOnly, 4, 2022);
  }

  /** Per-employee payments for April 2022: salary plus benefit. */
  lemma SamplePayments()
    ensures Amounts(SampleStaff(), Payment, 4, 2022) == [13200.0, 16800.0, 15900.0, 15750.0, 35000.0, 44000.0]
  {
    var staff := SampleStaff();
    SampleSalaries();
    SampleBenefits();
    AmountsAt(staff, SalaryOnly, 4, 2022);
    AmountsAt(staff, BenefitOnly, 4, 2022);
    AmountsAt(staff, Payment, 4, 2022);
  }

  /** A sum of six amounts, written out. */
  lemma SumOfSix(xs: seq<real>)
    requires |xs| == 6
    ensures Sum(xs) == xs[0] + xs[1] + xs[2] + xs[3] + xs[4] + xs[5]
  {
    assert Sum(xs[..1]) == xs[0] by { assert xs[..1][..0] == []; }
    assert Sum(xs[..2]) == Sum(xs[..1]) + xs[1] by { assert xs[..2][..1] == xs[..1]; }
    assert Sum(xs[..3]) == Sum(xs[..2]) + xs[2] by { assert xs[..3][..2] == xs[..2]; }
    assert Sum(xs[..4]) == Sum(xs[..3]) + xs[3] by { assert xs[..4][..3] == xs[..3]; }
    assert Sum(xs[..5]) == Sum(xs[..4]) + xs[4] by { assert xs[..5][..4] == xs[..4]; }
    assert Sum(xs) == Sum(xs[..5]) + xs[5];
  }

  /** Of five records, only the last falls in April 2022. */
  lemma OnlyLastInApril(seller: Employee, records: seq<Sale>, amount: real)
    requires |records| == 5 && records[4] == Sale(4, 2022, amount)
    requires forall j :: 0 <= j < 4 ==> !InPeriod(records[j], 4, 2022)
    ensures BidsFrom(seller, records, 4, 2022) == [Bid(seller, amount)]
  {
    BidsFromStep(seller, records, 0, 4, 2022);
    BidsFromStep(seller, records, 1, 4, 2022);
    BidsFromStep(seller, records, 2, 4, 2022);
    BidsFromStep(seller, records, 3, 4, 2022);
    BidsFromStep(seller, records, 4, 4, 2022);
    assert records[..0] == [];
    assert records[..5] == records;
  }

  /** Each salesperson made exactly one sale in April 2022, the last one recorded. */
  lemma SampleSellerBids()
    ensures BidsOf(Ana(), 4, 2022) == [Bid(Ana(), 7000.0)]
    ensures BidsOf(Joao(), 4, 2022) == [Bid(Joao(), 6500.0)]
  {
    AnaSales();
    JoaoSales();
    OnlyLastInApril(Ana(), Ana().sales, 7000.0);
    OnlyLastInApril(Joao(), Joao().sales, 6500.0);
  }

  /** Six employees of whom only the third and fourth are salespeople: their sales, in that order. */
  lemma SaleBidsOfSix(staff: seq<Employee>, month: int, year: int)
    requires |staff| == 6 && staff[2].SalesPerson? && staff[3].SalesPerson?
    requires !staff[0].SalesPerson? && !staff[1].SalesPerson? && !staff[4].SalesPerson? && !staff[5].SalesPerson?
    ensures SaleBids(staff, month, year) == BidsOf(staff[2], month, year) + BidsOf(staff[3], month, year)
  {
    var a, b := BidsOf(staff[2], month, year), BidsOf(staff[3], month, year);
    assert SaleBids(staff[..1], month, year) == [] by {
      assert staff[..0] == [];
      SaleBidsStep(staff, 0, month, year);
    }
    assert SaleBids(staff[..2], month, year) == [] by { SaleBidsStep(staff, 1, month, year); }
    assert SaleBids(staff[..3], month, year) == a by { SaleBidsStep(staff, 2, month, year); }
    assert SaleBids(staff[..4], month, year) == a + b by { SaleBidsStep(staff, 3, month, year); }
    assert SaleBids(staff[..5], month, year) == a + b by { SaleBidsStep(staff, 4, month, year); }
    assert SaleBids(staff[..6], month, year) == a + b by { SaleBidsStep(staff, 5, month, year); }
    assert staff[..6] == staff;
  }

  /** The April 2022 sales of the period, in employee order: Ana's, then João's. */
  lemma SampleSaleBids()
    ensures SaleBids(SampleStaff(), 4, 2022) == [Bid(Ana(), 7000.0), Bid(Joao(), 6500.0)]
  {
    AnaSales();
    JoaoSales();
    SaleBidsOfSix(SampleStaff(), 4, 2022);
    SampleSellerBids();
  }

  /** The three totals for April 2022 over the sample staff. */
  lemma SampleTotals()
    ensures Sum(Amounts(SampleStaff(), Payment, 4, 2022)) == 140650.0
    ensures Sum(Amounts(SampleStaff(), SalaryOnly, 4, 2022)) == 131600.0
    ensures Sum(Amounts(SampleStaff(), BenefitOnly, 4, 2022)) == 9050.0
  {
    var staff := SampleStaff();
    SampleSalaries();
    SampleBenefits();
    SamplePayments();
    SumOfSix(Amounts(staff, Payment, 4, 2022));
    SumOfSix(Amounts(staff, SalaryOnly, 4, 2022));
    SumOfSix(Amounts(staff, BenefitOnly, 4, 2022));
  }

  /** Bento Albino, the last hired, has the highest April 2022 payment. */
  lemma SampleTopPaid()
    ensures EmployeeAt(SampleStaff(), Leader(Amounts(SampleStaff(), Payment, 4, 2022)))
         == Some(Manager("Bento Albino", 2014))
  {
    var payments := [13200.0, 16800.0, 15900.0, 15750.0, 35000.0, 44000.0];
    FirstMaxIsLeader(payments, 5);
    SamplePayments();
  }

  /** Maria Souza, the second hired, has the highest April 2022 benefit. */
  lemma SampleTopBenefit()
    ensures EmployeeAt(SampleStaff(), Leader(Amounts(SampleStaff(), BenefitOnly, 4, 2022)))
         == Some(Secretary("Maria Souza", 2015))
  {
    var benefits := [2200.0, 2800.0, 2100.0, 1950.0, 0.0, 0.0];
    FirstMaxIsLeader(benefits, 1);
    SampleBenefits();
  }

  /** Ana's April 2022 sale is the largest of the period. */
  lemma SampleTopSeller()
    ensures SellerAt(SaleBids(SampleStaff(), 4, 2022), Leader(BidAmounts(SaleBids(SampleStaff(), 4, 2022))))
         == Some(Ana())
  {
    var bids := SaleBids(SampleStaff(), 4, 2022);
    SampleSaleBids();
    BidAmountsAt(bids);
    FirstMaxIsLeader(BidAmounts(bids), 0);
  }

  /** The six reports for month 4 of 2022, asked of a company built by hiring the sample staff in order. */
  method April2022Report() returns (paid: real, salaries: real, benefits: real,
                                     topPaid: Option<Employee>, topBenefit: Option<Employee>, topSeller: Option<Employee>)
    ensures paid == 140650.0 && salaries == 131600.0 && benefits == 9050.0
    ensures topPaid.Some? && topPaid.value.name == "Bento Albino"
    ensures topBenefit.Some? && topBenefit.value.name == "Maria Souza"
    ensures topSeller.Some? && topSeller.value.name == "Ana Silva"
  {
    var staff := SampleStaff();
    var company := new Company();
    for i := 0 to |staff|
      invariant company.staff == staff[..i]
    {
      assert staff[..i + 1] == staff[..i] + [staff[i]];
      company.AddEmployee(staff[i]);
    }
    assert company.staff == staff;
    SampleTotals();
    SampleTopPaid();
    SampleTopBenefit();
    SampleTopSeller();
    AnaSales();

    paid := company.TotalPaid(4, 2022);
    salaries := company.TotalSalaries(4, 2022);
    benefits := company.TotalBenefits(4, 2022);
    topPaid := company.HighestPaid(4, 2022);
    topBenefit := company.HighestBenefit(4, 2022);
    topSeller := company.TopSeller(4, 2022);
  }
}
