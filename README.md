# Payroll model

This project is a Dafny model of the payroll core of `Main.java`. Three kinds of employee
(`Secretario`, `Vendedor`, `Gerente`, here `Secretary`, `SalesPerson` and `Manager`) each earn a
salary for a period (month, year). The salary grows by a fixed raise per year of service. Each
kind also earns a benefit:

- a secretary gets 20% of the salary;
- a manager gets nothing;
- a salesperson gets a 30% commission on the first recorded sale (`RegistroVendas`, here `Sale`)
  of the period.

A company (`Empresa`, here `Payroll.Company`) keeps its employees in hiring order. For a period it
answers six read-only reports:

- total paid, total salaries and total benefits;
- the employee with the highest payment;
- the employee with the highest benefit;
- the salesperson with the largest sale.

Each of the last three scans from a baseline of 0 and replaces its candidate only on a strictly
greater amount. The first maximum therefore wins ties, and there is no result when nothing beats 0.

The files and modules:

- `optional.dfy`, module `Optional`: the `Option` type. `None` plays the part of Java's `null`.
- `sales.dfy`, module `Sales`: the sale record, the first-match search over a salesperson's
  records and the commission it yields.
- `staff.dfy`, module `Staff`: the `Employee` datatype with the salary and benefit formulas,
  recording a sale, and `ComputeBenefit`, the salesperson's loop with its early return.
- `ranking.dfy`, module `Ranking`: the two specifications the reports are proved against.
  - `Sum` is the left-to-right total.
  - `Leader` is the left-to-right arg-max with baseline 0 and strict `>`.
  - `LeaderIsFirstMax` and `FirstMaxIsLeader` prove that `Leader` finds nothing exactly when no
    amount is positive, and otherwise finds the first position of the maximum.
- `company.dfy`, module `Payroll`: the `Company` class holding `staff: seq<Employee>`, with the
  loops of the six reports, each proved against `Sum` or `Leader`. It also holds lemmas relating
  hiring to the reports.
- `sample.dfy`, module `Sample`: the reference company of six employees, queried for April 2022.
  - Totals: paid 140650, salaries 131600, benefits 9050.
  - Highest payment: Bento Albino. Highest benefit: Maria Souza. Largest sale: Ana Silva.

The code does not check its inputs, so the model places no restriction on month, year or amount
(a month outside 1–12 or a negative amount is accepted, as in the source). A salary queried
before the hire year is below the base salary, because the tenure is negative. This is proved
as part of `Staff.Employee.Salary`.

## Model

| member | source | states |
|---|---|---|
| Staff.Employee.Salary | Main.java:31-34 | the salary equals the variant's base salary exactly in the hire year and exceeds it exactly in later years (so it is below it before hiring) |
| Staff.SecretarySalary | Main.java:22-34 | a secretary's salary is 7000 + 1000 × (year − hire year) |
| Staff.SalesPersonSalary | Main.java:42-60 | a salesperson's salary is 12000 + 1800 × (year − hire year) |
| Staff.ManagerSalary | Main.java:73-84 | a manager's salary is 20000 + 3000 × (year − hire year) |
| Staff.SalaryPerYear | Main.java:31-34 | the salary ignores the month, and each further year adds the variant's annual raise |
| Staff.SecretaryBenefit | Main.java:36-39 | a secretary's benefit is exactly one fifth (20%) of the salary for the same period |
| Staff.ManagerBenefit | Main.java:86-89 | a manager's benefit is 0 for every period |
| Staff.SalesPersonBenefit | Main.java:62-70 | a salesperson's benefit is 30% of the amount of the first record of the period in recording order, and 0 when no record matches |
| Staff.ComputeBenefit | Main.java:62-70 | the benefit computed by the loop with its early return equals the benefit formula of each variant |
| Sales.FirstMatch | Main.java:64-68 | the search finds the first record whose month and year both match, and finds none exactly when no record matches |
| Sales.CommissionOfFirstMatch | Main.java:64-67 | with a first matching record at i, the commission is 30% of record i's amount |
| Sales.CommissionWithoutMatch | Main.java:69 | without a matching record, the commission is 0 |
| Sales.CommissionAfterRecord | Main.java:52-70 | recording a sale leaves the commission of a period that already had a record unchanged; otherwise the commission becomes 30% of the new sale if it is in the period, else 0 |
| Staff.AddSale | Main.java:52-54 | recording a sale appends exactly one record (month, year, amount) at the end, keeps the earlier records, the name and the hire year, and keeps the employee a salesperson |
| Staff.BenefitAfterSale | Main.java:52-70 | a salesperson's benefit after recording a sale: unchanged for a period that already had a sale, else 30% of the new sale if it is in the period, else 0 |
| Payroll.Company.constructor | Main.java:119-121 | a new company has no employees |
| Payroll.Company.AddEmployee | Main.java:123-125 | hiring appends exactly the one employee at the end and keeps the earlier ones in order |
| Payroll.TotalAfterHire | Main.java:123-149 | hiring e appends e's amount to the amounts, leaves the earlier ones as they were, and adds e's amount to each total |
| Payroll.HighestAfterHire | Main.java:151-177 | hiring e makes e the highest-ranked employee exactly when e's amount beats the current leader's amount (or 0); otherwise the leader is unchanged |
| Payroll.AmountOf | Main.java:130 | the per-employee amount is salary plus benefit for a payment, and the salary or the benefit alone for the other two reports |
| Payroll.Company.Total | Main.java:127-149 | the accumulating loop returns the sum of the employees' amounts in hiring order |
| Payroll.Company.TotalPaid | Main.java:127-133 | total paid is the sum of salary plus benefit over the employees, and equals total salaries plus total benefits |
| Payroll.PaidIsSalariesPlusBenefits | Main.java:127-149 | for every staff, total paid equals total salaries plus total benefits |
| Payroll.Company.TotalSalaries | Main.java:135-141 | total salaries is the sum of the employees' salaries |
| Payroll.Company.TotalBenefits | Main.java:143-149 | total benefits is the sum of the employees' benefits |
| Payroll.EmptyCompany | Main.java:119-197 | a company without employees reports 0 for each total and no employee for each search |
| Ranking.SumAppend | Main.java:128-131 | adding one more amount to the running total adds it to the sum |
| Ranking.Leader | Main.java:152-161 | the position the scan ends on, if any, holds a positive amount |
| Ranking.LeaderAppend | Main.java:155-161 | one more amount takes the lead exactly when it is strictly greater than the current leader's amount, or than 0 before any leader |
| Ranking.LeaderIsFirstMax | Main.java:151-163 | the scan finds nothing exactly when no amount is positive; otherwise it ends on the first position of the maximum, which is at least every amount |
| Ranking.FirstMaxIsLeader | Main.java:151-163 | the first position of a positive maximum is the only position the scan can end on |
| Ranking.LevelIsMaxWithBaseline | Main.java:153-160 | the amount to beat after the scan is at least every amount, and is either 0 or one of the amounts |
| Payroll.Company.Highest | Main.java:151-177 | the search loop returns the employee at the scan's leader; none exactly when no amount is positive; otherwise the first employee holding the maximum |
| Payroll.Company.HighestPaid | Main.java:151-163 | returns none exactly when no employee's salary plus benefit is positive; otherwise the first employee with the largest payment, which is at least every payment |
| Payroll.Company.HighestBenefit | Main.java:165-177 | returns none exactly when no employee's benefit is positive; otherwise the first employee with the largest benefit, which is at least every benefit |
| Payroll.EmployeeAtLeader | Main.java:151-177 | the employee at the scan's leader is none exactly when no amount is positive, and otherwise the employee at the first position of the maximum |
| Payroll.BidsFromMembers | Main.java:186-187 | a salesperson's sales of the period are exactly that salesperson's records with the period's month and year |
| Payroll.SaleBidsMembers | Main.java:183-187 | the sales of the period are exactly the matching records of the salespeople on the staff; other employees contribute none |
| Payroll.OfferBid | Main.java:188-191 | one more matching sale takes the lead exactly when its amount is strictly greater than the best so far |
| Payroll.OfferSales | Main.java:186-193 | the inner loop over one salesperson's records leaves the best amount and the seller as the scan over all sales seen so far, followed by this salesperson's sales of the period |
| Payroll.SellerAtLeader | Main.java:179-197 | the seller at the scan's leader is none exactly when no sale of the period is positive; otherwise a salesperson on the staff who made the first largest sale |
| Payroll.Company.TopSeller | Main.java:179-197 | returns none exactly when no salesperson's sale of the period is positive; otherwise a salesperson on the staff owning the first sale, in employee then recording order, whose amount is the maximum and at least every sale of the period |
| Sample.AnaSales | Main.java:212-219 | Ana, hired in 2021, holds her five sales in recording order |
| Sample.JoaoSales | Main.java:221-226 | João, hired in 2021, holds his five sales in recording order |
| Sample.SampleCommissions | Main.java:215-226 | in April 2022 Ana's commission is 2100 and João's is 1950 |
| Sample.SampleSalaries | Main.java:204-244 | April 2022 salaries of the six employees: 11000, 14000, 13800, 13800, 35000, 44000 |
| Sample.SampleBenefits | Main.java:204-244 | April 2022 benefits of the six employees: 2200, 2800, 2100, 1950, 0, 0 |
| Sample.SamplePayments | Main.java:204-244 | April 2022 payments of the six employees: 13200, 16800, 15900, 15750, 35000, 44000 |
| Sample.SampleTotals | Main.java:236-248 | April 2022 totals: paid 140650, salaries 131600, benefits 9050 |
| Sample.SampleSellerBids | Main.java:212-226 | each salesperson made exactly one sale in April 2022: Ana 7000, João 6500 |
| Sample.SampleSaleBids | Main.java:236-244 | the April 2022 sales, in employee order, are Ana's 7000 and then João's 6500 |
| Sample.SampleTopPaid | Main.java:236-250 | Bento Albino has the highest April 2022 payment |
| Sample.SampleTopBenefit | Main.java:236-253 | Maria Souza has the highest April 2022 benefit |
| Sample.SampleTopSeller | Main.java:236-256 | Ana Silva made the largest April 2022 sale |
| Sample.April2022Report | Main.java:202-256 | a company built by hiring the six sample employees in order reports, for April 2022: paid 140650, salaries 131600, benefits 9050, highest payment Bento Albino, highest benefit Maria Souza, largest sale Ana Silva |

## Left out

- Console output of `Main.main` (Main.java:246-257): only the values it prints are modelled, by `Sample.April2022Report`. The dereference of a possibly absent result is not modelled either.
- `java.util.Calendar`: the hire date is reduced to its year, the only part the salary formulas read.
- Floating point: amounts are exact `real`; `double` rounding is not modelled.
- Java `int` overflow of `ano - year` in the tenure is not modelled; the tenure is an unbounded integer.
- `cargo` is not modelled, since no computation reads it. `nome` is kept only to identify results.
- The `salarioBase` field is not modelled as a field: each constructor stores a fixed value per variant, so it becomes `BaseSalary` per variant.
- Staff.AddSale: recording a sale is a function returning the updated salesperson value rather than an in-place append to `vendas`. Aliasing is therefore not modelled: in Java, a sale recorded on a `Vendedor` after it was hired is seen by the company's reports, while in the model the company holds the value it was given.
- Object identity: the searches return an employee value; two employees with equal fields are indistinguishable, whereas Java returns a reference.
- `null` is modelled as `Option.None`. The `instanceof` test and downcast (Main.java:184-185) become a test of the `SalesPerson` constructor.
- The abstract class `Funcionario` and its dynamic dispatch become one datatype with one constructor per subclass.
- The getters of `RegistroVendas` become the fields of the `Sale` datatype.
