/** `CreditScoreService.calculate_credit_score`: a customer's loans reduced to an
    integer score between 0 and 100. The service looks the customer up and
    queries its loans; here the database is a value and the current calendar
    year (`datetime.now().year`) is a parameter. */
module CreditScore {
  import opened Records

  /** Component 1: the share of loans paid on time, scaled to 40 points. The
      `else` arm is the source's default for a loan-less customer, which the
      service never reaches because it returns 50 first. */
  function OnTimePoints(paid: nat, total: nat): (p: real)
    requires paid <= total
    ensures 0.0 <= p <= 40.0
    ensures total > 0 ==> (p == 40.0 <==> paid == total)
    ensures total > 0 ==> (p == 0.0 <==> paid == 0)
  {
    if total > 0 then
      var q := paid as real / total as real;
      ScaleByPositive(q, 1.0, total as real);
      assert q * total as real == paid as real;
      assert paid == total ==> q == 1.0;
      q * 40.0
    else 20.0
  }

  /** Component 2: fewer loans taken score higher. */
  function LoanCountPoints(totalLoans: nat): (p: int)
    ensures 5 <= p <= 20
  {
    if totalLoans <= 2 then 20
    else if totalLoans <= 5 then 15
    else if totalLoans <= 10 then 10
    else 5
  }

  /** Component 3: fewer loans started this calendar year score higher. */
  function CurrentYearPoints(currentYearLoans: nat): (p: int)
    ensures 5 <= p <= 20
  {
    if currentYearLoans == 0 then 20
    else if currentYearLoans <= 2 then 15
    else if currentYearLoans <= 4 then 10
    else 5
  }

  /** Component 4: a smaller ratio of borrowed volume to approved limit scores higher. */
  function VolumePoints(volumeRatio: real): (p: int)
    ensures 5 <= p <= 20
  {
    if volumeRatio <= 0.3 then 20
    else if volumeRatio <= 0.6 then 15
    else if volumeRatio <= 0.8 then 10
    else 5
  }

  /** Python's `int()` on a number: truncation toward zero. */
  function Truncate(x: real): (n: int)
    ensures x >= 0.0 ==> n as real <= x < n as real + 1.0
    ensures x < 0.0 ==> n as real - 1.0 < x <= n as real
  {
    if x >= 0.0 then x.Floor else -((-x).Floor)
  }

  /** `min(100, max(0, n))`. */
  function Clamp(n: int): (c: int)
    ensures 0 <= c <= 100
    ensures 0 <= n <= 100 ==> c == n
  {
    if n > 100 then 100 else if n < 0 then 0 else n
  }

  /** The four components summed, for a non-empty loan list within the limit,
      whose limit is non-zero (so that the volume ratio exists). */
  function ComponentScore(customer: CustomerRecord, loans: seq<LoanRecord>, currentYear: int): (s: int)
    requires customer.approvedLimit != 0.0
    ensures 15 <= s <= 100
  {
    var total := |loans|;
    var onTime := OnTimePoints(CountPaidOnTime(loans), total);
    var volumeRatio := TotalAmount(loans) / customer.approvedLimit;
    var sum := onTime + LoanCountPoints(total) as real
               + CurrentYearPoints(CountStartedIn(loans, currentYear)) as real
               + VolumePoints(volumeRatio) as real;
    Clamp(Truncate(sum))
  }

  /** The score of a resolved customer with its loans. */
  function ScoreLoans(customer: CustomerRecord, loans: seq<LoanRecord>, currentYear: int): (r: Result<int>)
    ensures loans == [] ==> r == Ok(50)
    ensures loans != [] && TotalAmount(loans) > customer.approvedLimit ==> r == Ok(0)
    ensures r.Ok? ==> 0 <= r.value <= 100
    ensures r.Raised? <==>
              loans != [] && TotalAmount(loans) <= customer.approvedLimit && customer.approvedLimit == 0.0
    ensures r.Raised? ==> r.error == ZeroDivisionError
    ensures loans != [] && TotalAmount(loans) <= customer.approvedLimit && r.Ok? ==> 15 <= r.value
  {
    if loans == [] then Ok(50)
    else if TotalAmount(loans) > customer.approvedLimit then Ok(0)
    else if customer.approvedLimit == 0.0 then Raised(ZeroDivisionError)
    else Ok(ComponentScore(customer, loans, currentYear))
  }

  /** `calculate_credit_score(customer_id)`: an unknown customer scores 0. */
  function CalculateCreditScore(db: Database, customerId: int, currentYear: int): (r: Result<int>)
    ensures customerId !in db.customers ==> r == Ok(0)
    ensures r.Ok? ==> 0 <= r.value <= 100
  {
    if customerId !in db.customers then Ok(0)
    else ScoreLoans(db.customers[customerId], LoansOf(db.loans, customerId), currentYear)
  }

  /** Over the limit, the on-time history is irrelevant: two loan lists with the
      same total over the limit score the same, 0. */
  lemma OverLimitIgnoresHistory(customer: CustomerRecord, a: seq<LoanRecord>, b: seq<LoanRecord>, currentYear: int)
    requires a != [] && b != []
    requires TotalAmount(a) == TotalAmount(b) > customer.approvedLimit
    ensures ScoreLoans(customer, a, currentYear) == ScoreLoans(customer, b, currentYear) == Ok(0)
  {
  }

  /** Within the limit, the score is exactly the truncated sum of the four
      components; the clamp never applies. */
  lemma {:induction false} WithinLimitIsComponentSum(customer: CustomerRecord, loans: seq<LoanRecord>, currentYear: int)
    requires loans != [] && TotalAmount(loans) <= customer.approvedLimit && customer.approvedLimit != 0.0
    ensures var onTime := OnTimePoints(CountPaidOnTime(loans), |loans|);
            ScoreLoans(customer, loans, currentYear) ==
              Ok(onTime.Floor + LoanCountPoints(|loans|)
                 + CurrentYearPoints(CountStartedIn(loans, currentYear))
                 + VolumePoints(TotalAmount(loans) / customer.approvedLimit))
  {
    var onTime := OnTimePoints(CountPaidOnTime(loans), |loans|);
    var k := LoanCountPoints(|loans|) + CurrentYearPoints(CountStartedIn(loans, currentYear))
             + VolumePoints(TotalAmount(loans) / customer.approvedLimit);
    FloorShift(onTime, k);
  }

  /** A customer on a limit of 2700000 with one loan of 50000, repaid in full
      and started in an earlier year, scores the full 100 points. */
  lemma {:induction false} OneRepaidLoanScoresFull(customer: CustomerRecord, loan: LoanRecord, currentYear: int)
    requires customer.approvedLimit == 2700000.0
    requires loan.loanAmount == 50000.0 && loan.tenure == 12 && loan.emisPaidOnTime == 12
    requires loan.startDate.year == 2023 && currentYear != 2023
    ensures ScoreLoans(customer, [loan], currentYear) == Ok(100)
  {
    var loans := [loan];
    assert loans[1..] == [];
    assert CountPaidOnTime(loans) == 1;
    assert CountStartedIn(loans, currentYear) == 0;
    assert TotalAmount(loans) == 50000.0;
    RatioAtMost(50000.0, 2700000.0, 0.3);
    WithinLimitIsComponentSum(customer, loans, currentYear);
  }

  /** Adding a whole number commutes with taking the floor. */
  lemma FloorShift(x: real, k: int)
    ensures (x + k as real).Floor == x.Floor + k
  {
  }

  /** Each tier rewards less activity: its points never grow with more loans. */
  lemma TiersAntitone(m: nat, n: nat, x: real, y: real)
    requires m <= n && x <= y
    ensures LoanCountPoints(m) >= LoanCountPoints(n)
    ensures CurrentYearPoints(m) >= CurrentYearPoints(n)
    ensures VolumePoints(x) >= VolumePoints(y)
  {
  }

  /** With a positive limit, the floating-point ratio thresholds are the
      cross-multiplications `10 * total <= 3 * limit` and so on. */
  lemma VolumeThresholds(total: real, limit: real)
    requires limit > 0.0
    ensures VolumePoints(total / limit) == 20 <==> 10.0 * total <= 3.0 * limit
    ensures VolumePoints(total / limit) >= 15 <==> 10.0 * total <= 6.0 * limit
    ensures VolumePoints(total / limit) >= 10 <==> 10.0 * total <= 8.0 * limit
  {
    RatioAtMost(total, limit, 0.3);
    RatioAtMost(total, limit, 0.6);
    RatioAtMost(total, limit, 0.8);
  }

  /** For a positive divisor, a bound on the quotient is a bound on the dividend. */
  lemma RatioAtMost(total: real, limit: real, c: real)
    requires limit > 0.0
    ensures total / limit <= c <==> total <= c * limit
  {
    var q := total / limit;
    assert q * limit == total;
    ScaleByPositive(q, c, limit);
  }

  /** Multiplying both sides by a positive number keeps a comparison. */
  lemma ScaleByPositive(x: real, c: real, k: real)
    requires k > 0.0
    ensures x <= c <==> x * k <= c * k
  {
    if x <= c {
      assert (c - x) * k >= 0.0;
    } else {
      assert (x - c) * k > 0.0;
    }
  }
}
