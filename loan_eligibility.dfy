/** `LoanEligibilityService`: the affordability gate, the score-band table that
    approves a loan and may raise its interest rate, and the installment (EMI)
    rule. The service's database lookups become a `Database` value, and
    `date.today()` and the current year are parameters. */
module LoanEligibility {
  import opened Records
  import CreditScore

  /** The general branch of the annuity rule,
      `round(P * r * (1 + r)**n / ((1 + r)**n - 1), 2)`, evaluated in floating
      point for principal `P`, monthly rate `r` and `n` months. Its value is not
      modelled: every caller receives the same rule as a parameter. The rule may
      raise, as float `**` raises `OverflowError` once `(1 + r)**n` leaves the
      float range (a rate of 999.99 over 1200 months, say). */
  type Annuity = (real, real, int) -> Result<real>

  /** `calculate_emi(principal, annual_rate, tenure_months)`. The monthly rate is
      `annual_rate / 1200`; at rate 0 the installment is `principal / n`, not
      rounded; a term of 0 months divides by zero in either branch; otherwise
      the annuity rule decides, including whether it raises. */
  function CalculateEmi(principal: real, annualRate: real, tenureMonths: int, annuity: Annuity): (r: Result<real>)
    ensures tenureMonths == 0 ==> r == Raised(ZeroDivisionError)
    ensures tenureMonths != 0 && annualRate == 0.0 ==> r.Ok? && r.value * tenureMonths as real == principal
    ensures tenureMonths != 0 && annualRate != 0.0 ==> r == annuity(principal, annualRate / 1200.0, tenureMonths)
    ensures r.Raised? <==> tenureMonths == 0 || (annualRate != 0.0 && annuity(principal, annualRate / 1200.0, tenureMonths).Raised?)
  {
    var monthlyRate := annualRate / (12.0 * 100.0);
    if tenureMonths == 0 then Raised(ZeroDivisionError)
    else if monthlyRate == 0.0 then Ok(principal / tenureMonths as real)
    else annuity(principal, monthlyRate, tenureMonths)
  }

  /** The four score bands of the decision table. */
  datatype Band = AboveFifty | ThirtyToFifty | TenToThirty | TenOrBelow

  function BandOf(score: int): (b: Band)
    ensures b == AboveFifty <==> score > 50
    ensures b == ThirtyToFifty <==> 30 < score <= 50
    ensures b == TenToThirty <==> 10 < score <= 30
    ensures b == TenOrBelow <==> score <= 10
  {
    if score > 50 then AboveFifty
    else if 30 < score <= 50 then ThirtyToFifty
    else if 10 < score <= 30 then TenToThirty
    else TenOrBelow
  }

  const approvedMessage := "Loan approved"
  const correctedMessage := "Loan approved with corrected interest rate"
  const lowScoreMessage := "Loan not approved due to low credit score"
  const notFoundMessage := "Customer not found"
  const affordabilityMessage := "EMI exceeds 50% of monthly salary"

  /** What the score table decides for a loan that passed the affordability gate. */
  datatype TierDecision = TierDecision(approval: bool, correctedRate: real, message: string)

  function Max(a: real, b: real): real
  {
    if a >= b then a else b
  }

  /** The score table (services.py, after the affordability gate). */
  function DecideByScore(score: int, rate: real): (d: TierDecision)
    ensures d.approval <==> score > 10
    ensures d.correctedRate >= rate
    ensures score > 50 || score <= 10 ==> d.correctedRate == rate
    ensures 30 < score <= 50 ==> d.correctedRate == Max(rate, 12.0)
    ensures 10 < score <= 30 ==> d.correctedRate == Max(rate, 16.0)
    ensures d.message == correctedMessage <==> d.correctedRate != rate
    ensures d.message == lowScoreMessage <==> !d.approval
  {
    match BandOf(score)
    case AboveFifty => TierDecision(true, rate, approvedMessage)
    case ThirtyToFifty =>
      if rate >= 12.0 then TierDecision(true, rate, approvedMessage)
      else TierDecision(true, 12.0, correctedMessage)
    case TenToThirty =>
      if rate >= 16.0 then TierDecision(true, rate, approvedMessage)
      else TierDecision(true, 16.0, correctedMessage)
    case TenOrBelow => TierDecision(false, rate, lowScoreMessage)
  }

  /** Whether the installment is recomputed: the loan is approved at a changed rate. */
  predicate Recomputes(d: TierDecision, rate: real)
  {
    d.approval && d.correctedRate != rate
  }

  /** The dictionary `check_eligibility` returns; `creditScore` is present only on
      the path through the score table. */
  datatype Eligibility = Eligibility(
    approval: bool,
    message: string,
    correctedInterestRate: real,
    monthlyInstallment: real,
    creditScore: Option<int>)

  /** Whether existing installments plus the proposed one exceed half the salary. */
  predicate Unaffordable(currentEmis: real, proposedEmi: real, monthlySalary: real)
  {
    currentEmis + proposedEmi > monthlySalary * 0.5
  }

  /** `check_eligibility(customer_id, loan_amount, interest_rate, tenure)`. */
  function CheckEligibility(db: Database, customerId: int, loanAmount: real, interestRate: real, tenure: int,
                            today: Date, currentYear: int, annuity: Annuity): (r: Result<Eligibility>)
    ensures customerId !in db.customers ==>
              r == Ok(Eligibility(false, notFoundMessage, interestRate, 0.0, None))
    ensures r.Ok? ==> r.value.correctedInterestRate >= interestRate
    ensures r.Ok? && r.value.approval ==> r.value.creditScore.Some? && r.value.creditScore.value > 10
  {
    if customerId !in db.customers then
      Ok(Eligibility(false, notFoundMessage, interestRate, 0.0, None))
    else
      var customer := db.customers[customerId];
      match CreditScore.CalculateCreditScore(db, customerId, currentYear)
      case Raised(e) => Raised(e)
      case Ok(score) =>
        var currentEmis := ActiveRepayments(LoansOf(db.loans, customerId), today);
        match CalculateEmi(loanAmount, interestRate, tenure, annuity)
        case Raised(e) => Raised(e)
        case Ok(proposedEmi) =>
          if Unaffordable(currentEmis, proposedEmi, customer.monthlySalary) then
            Ok(Eligibility(false, affordabilityMessage, interestRate, proposedEmi, None))
          else
            var d := DecideByScore(score, interestRate);
            if Recomputes(d, interestRate) then
              match CalculateEmi(loanAmount, d.correctedRate, tenure, annuity)
              case Raised(e) => Raised(e)
              case Ok(installment) =>
                Ok(Eligibility(d.approval, d.message, d.correctedRate, installment, Some(score)))
            else
              Ok(Eligibility(d.approval, d.message, d.correctedRate, proposedEmi, Some(score)))
  }

  /** Where `check_eligibility` raises: in the score (a zero approved limit), in
      the installment at the proposed rate (a zero tenure, or the annuity rule
      raising), or in the installment at a corrected rate once the loan passed
      the affordability gate. An unknown customer never raises. */
  lemma {:induction false} RaisesExactly(db: Database, customerId: int, loanAmount: real, interestRate: real,
                                         tenure: int, today: Date, currentYear: int, annuity: Annuity)
    ensures var r := CheckEligibility(db, customerId, loanAmount, interestRate, tenure, today, currentYear, annuity);
            var score := CreditScore.CalculateCreditScore(db, customerId, currentYear);
            var emi := CalculateEmi(loanAmount, interestRate, tenure, annuity);
            r.Raised? <==>
              customerId in db.customers
              && (score.Raised?
                  || emi.Raised?
                  || (!Unaffordable(ActiveRepayments(LoansOf(db.loans, customerId), today), emi.value,
                                    db.customers[customerId].monthlySalary)
                      && Recomputes(DecideByScore(score.value, interestRate), interestRate)
                      && CalculateEmi(loanAmount, DecideByScore(score.value, interestRate).correctedRate,
                                      tenure, annuity).Raised?))
  {
  }

  /** A zero tenure makes the check of a known customer raise division by zero
      (the one exception the score can raise is the same). */
  lemma ZeroTenureRaises(db: Database, customerId: int, loanAmount: real, interestRate: real,
                         today: Date, currentYear: int, annuity: Annuity)
    requires customerId in db.customers
    ensures CheckEligibility(db, customerId, loanAmount, interestRate, 0, today, currentYear, annuity)
            == Raised(ZeroDivisionError)
  {
  }

  /** The affordability gate comes before the score table: when the installments
      of running loans plus the proposed one exceed half the salary, the loan is
      refused at the proposed rate and with the proposed installment, whatever
      the score. */
  lemma AffordabilityTakesPrecedence(db: Database, customerId: int, loanAmount: real, interestRate: real, tenure: int,
                                     today: Date, currentYear: int, annuity: Annuity)
    requires customerId in db.customers
    requires CreditScore.CalculateCreditScore(db, customerId, currentYear).Ok?
    requires CalculateEmi(loanAmount, interestRate, tenure, annuity).Ok?
    requires Unaffordable(ActiveRepayments(LoansOf(db.loans, customerId), today),
                          CalculateEmi(loanAmount, interestRate, tenure, annuity).value,
                          db.customers[customerId].monthlySalary)
    ensures CheckEligibility(db, customerId, loanAmount, interestRate, tenure, today, currentYear, annuity)
            == Ok(Eligibility(false, affordabilityMessage, interestRate,
                              CalculateEmi(loanAmount, interestRate, tenure, annuity).value, None))
  {
  }

  /** Past the affordability gate, the loan is approved exactly when the score
      exceeds 10, the corrected rate is the band's floor, and the installment is
      recomputed at the corrected rate exactly when the loan is approved and that
      rate differs; only that recomputation can still raise. */
  lemma ScoreTableDecides(db: Database, customerId: int, loanAmount: real, interestRate: real, tenure: int,
                          today: Date, currentYear: int, annuity: Annuity)
    requires customerId in db.customers
    requires CreditScore.CalculateCreditScore(db, customerId, currentYear).Ok?
    requires CalculateEmi(loanAmount, interestRate, tenure, annuity).Ok?
    requires !Unaffordable(ActiveRepayments(LoansOf(db.loans, customerId), today),
                           CalculateEmi(loanAmount, interestRate, tenure, annuity).value,
                           db.customers[customerId].monthlySalary)
    ensures var score := CreditScore.CalculateCreditScore(db, customerId, currentYear).value;
            var d := DecideByScore(score, interestRate);
            var r := CheckEligibility(db, customerId, loanAmount, interestRate, tenure, today, currentYear, annuity);
            (r.Raised? <==> Recomputes(d, interestRate)
                            && CalculateEmi(loanAmount, d.correctedRate, tenure, annuity).Raised?)
            && (r.Ok? ==>
                  && r.value.creditScore == Some(score)
                  && (r.value.approval <==> score > 10)
                  && (score > 50 || score <= 10 ==> r.value.correctedInterestRate == interestRate)
                  && (30 < score <= 50 ==> r.value.correctedInterestRate == Max(interestRate, 12.0))
                  && (10 < score <= 30 ==> r.value.correctedInterestRate == Max(interestRate, 16.0))
                  && r.value.monthlyInstallment ==
                       (if r.value.approval && r.value.correctedInterestRate != interestRate
                        then CalculateEmi(loanAmount, r.value.correctedInterestRate, tenure, annuity).value
                        else CalculateEmi(loanAmount, interestRate, tenure, annuity).value))
  {
  }

  /** A customer whose loans sum above the approved limit is never approved:
      either the affordability gate refuses, or the score of 0 does. */
  lemma OverLimitNeverApproved(db: Database, customerId: int, loanAmount: real, interestRate: real, tenure: int,
                               today: Date, currentYear: int, annuity: Annuity)
    requires customerId in db.customers
    requires LoansOf(db.loans, customerId) != []
    requires TotalAmount(LoansOf(db.loans, customerId)) > db.customers[customerId].approvedLimit
    ensures var r := CheckEligibility(db, customerId, loanAmount, interestRate, tenure, today, currentYear, annuity);
            r.Ok? ==> !r.value.approval
  {
  }

  /** Conversely, a resolved customer within the limit who passes the
      affordability gate is always approved: such a customer scores at least 15,
      so the low-score band is reached only by customers over their limit. */
  lemma {:induction false} WithinLimitAffordableIsApproved(db: Database, customerId: int, loanAmount: real,
                                                           interestRate: real, tenure: int, today: Date,
                                                           currentYear: int, annuity: Annuity)
    requires customerId in db.customers
    requires TotalAmount(LoansOf(db.loans, customerId)) <= db.customers[customerId].approvedLimit
    requires CalculateEmi(loanAmount, interestRate, tenure, annuity).Ok?
    requires !Unaffordable(ActiveRepayments(LoansOf(db.loans, customerId), today),
                           CalculateEmi(loanAmount, interestRate, tenure, annuity).value,
                           db.customers[customerId].monthlySalary)
    ensures var r := CheckEligibility(db, customerId, loanAmount, interestRate, tenure, today, currentYear, annuity);
            r.Ok? ==> r.value.approval && r.value.message != lowScoreMessage
  {
    var score := CreditScore.CalculateCreditScore(db, customerId, currentYear);
    if score.Ok? {
      assert score.value >= 15;
      ScoreTableDecides(db, customerId, loanAmount, interestRate, tenure, today, currentYear, annuity);
    }
  }

  /** A customer with no loans, a monthly income of 60000 and a proposal of
      200000 at 10% over 24 months: the score is 50, the rate is raised to 12%
      and the loan is approved, provided the proposed installment is at most
      half the income; the installment returned is the one at 12%. */
  lemma NewCustomerRateRaisedToTwelve(customer: CustomerRecord, today: Date, currentYear: int, annuity: Annuity)
    requires customer.monthlySalary == 60000.0
    requires annuity(200000.0, 10.0 / 1200.0, 24).Ok? && annuity(200000.0, 10.0 / 1200.0, 24).value <= 30000.0
    requires annuity(200000.0, 12.0 / 1200.0, 24).Ok?
    ensures var db := Database(map[customer.customerId := customer], []);
            CheckEligibility(db, customer.customerId, 200000.0, 10.0, 24, today, currentYear, annuity)
            == Ok(Eligibility(true, correctedMessage, 12.0, annuity(200000.0, 12.0 / 1200.0, 24).value, Some(50)))
  {
  }
}
