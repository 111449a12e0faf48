/** The rows of the `customers` and `loans` tables as the services read them,
    and the aggregate queries the services run over them (`filter`, `count`,
    `Sum`). Monetary amounts and interest rates are two-decimal `Decimal`
    fields in the database; every such value is an exact `real` here. */
module Records {

  datatype Option<T> = None | Some(value: T)

  /** The Python exceptions the engine's arithmetic can raise. */
  datatype Exception = ZeroDivisionError | OverflowError

  /** The outcome of a computation that returns a value or raises. */
  datatype Result<T> = Ok(value: T) | Raised(error: Exception)

  /** A calendar date; dates compare lexicographically, as Python's `date` does. */
  datatype Date = Date(year: int, month: int, day: int)

  predicate OnOrAfter(a: Date, b: Date)
  {
    a.year > b.year
    || (a.year == b.year && a.month > b.month)
    || (a.year == b.year && a.month == b.month && a.day >= b.day)
  }

  datatype CustomerRecord = CustomerRecord(
    customerId: int,
    firstName: string,
    lastName: string,
    age: int,
    phoneNumber: int,
    monthlySalary: real,
    approvedLimit: real,
    currentDebt: real)

  datatype LoanRecord = LoanRecord(
    loanId: int,
    customerId: int,
    loanAmount: real,
    tenure: int,
    interestRate: real,
    monthlyRepayment: real,
    emisPaidOnTime: int,
    startDate: Date,
    endDate: Date)

  /** The two tables: customers by primary key, and every loan row in table order. */
  datatype Database = Database(customers: map<int, CustomerRecord>, loans: seq<LoanRecord>)

  /** `Loan.objects.filter(customer=customer)`: the loans of one customer, in table order. */
  function LoansOf(loans: seq<LoanRecord>, customerId: int): (r: seq<LoanRecord>)
    ensures |r| <= |loans|
    ensures forall l :: l in r <==> l in loans && l.customerId == customerId
    ensures forall l :: multiset(r)[l] == if l.customerId == customerId then multiset(loans)[l] else 0
  {
    if loans == [] then []
    else
      assert loans == [loans[0]] + loans[1..];
      assert multiset(loans) == multiset([loans[0]]) + multiset(loans[1..]);
      if loans[0].customerId == customerId then [loans[0]] + LoansOf(loans[1..], customerId)
      else LoansOf(loans[1..], customerId)
  }

  /** The `emis_paid_on_time__gte=F('tenure')` filter: a loan paid in full on schedule. */
  predicate PaidOnTime(l: LoanRecord)
  {
    l.emisPaidOnTime >= l.tenure
  }

  /** `Sum('loan_amount')`, with the empty sum read as `Decimal('0')`. */
  function TotalAmount(loans: seq<LoanRecord>): real
  {
    if loans == [] then 0.0 else loans[0].loanAmount + TotalAmount(loans[1..])
  }

  /** The number of loans paid on time; never more than the number of loans. */
  function CountPaidOnTime(loans: seq<LoanRecord>): (n: nat)
    ensures n <= |loans|
    ensures n == |loans| <==> forall l :: l in loans ==> PaidOnTime(l)
    ensures n == 0 <==> forall l :: l in loans ==> !PaidOnTime(l)
  {
    if loans == [] then 0
    else (if PaidOnTime(loans[0]) then 1 else 0) + CountPaidOnTime(loans[1..])
  }

  /** The `start_date__year=year` filter, counted. */
  function CountStartedIn(loans: seq<LoanRecord>, year: int): (n: nat)
    ensures n <= |loans|
    ensures n == 0 <==> forall l :: l in loans ==> l.startDate.year != year
  {
    if loans == [] then 0
    else (if loans[0].startDate.year == year then 1 else 0) + CountStartedIn(loans[1..], year)
  }

  /** `Sum('monthly_repayment')` over the loans with `end_date >= today`, empty sum 0. */
  function ActiveRepayments(loans: seq<LoanRecord>, today: Date): real
  {
    if loans == [] then 0.0
    else (if OnOrAfter(loans[0].endDate, today) then loans[0].monthlyRepayment else 0.0)
         + ActiveRepayments(loans[1..], today)
  }

  /** With no loan amount negative, the total is zero exactly when every amount is. */
  lemma {:induction false} TotalAmountZero(loans: seq<LoanRecord>)
    requires forall l :: l in loans ==> l.loanAmount >= 0.0
    ensures TotalAmount(loans) >= 0.0
    ensures TotalAmount(loans) == 0.0 <==> forall l :: l in loans ==> l.loanAmount == 0.0
  {
    if loans != [] {
      assert forall l :: l in loans[1..] ==> l in loans;
      TotalAmountZero(loans[1..]);
      assert forall l :: l in loans ==> l == loans[0] || l in loans[1..];
    }
  }

  /** Only loans that are still running (end on or after `today`) contribute to the
      monthly obligations; a loan that has ended can be dropped without effect. */
  lemma {:induction false} ActiveRepaymentsIgnoresEnded(loans: seq<LoanRecord>, ended: LoanRecord, today: Date)
    requires !OnOrAfter(ended.endDate, today)
    ensures ActiveRepayments(loans + [ended], today) == ActiveRepayments(loans, today)
  {
    if loans == [] {
      assert [ended][1..] == [];
    } else {
      assert (loans + [ended])[1..] == loans[1..] + [ended];
      ActiveRepaymentsIgnoresEnded(loans[1..], ended, today);
    }
  }
}
