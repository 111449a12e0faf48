# Credit approval engine — a Dafny model

This project models the decision engine of a Django credit-approval service.

- **Credit score** (`CreditScoreService.calculate_credit_score`). It reduces a customer's loans to an integer score between 0 and 100:
  - an unknown customer scores 0;
  - a customer with no loans scores 50;
  - a customer whose loans sum above the approved limit scores 0;
  - otherwise the score is the truncated sum of four components: the on-time ratio (0–40 points), plus three tiers of 5–20 points each (loan count, loans started this year, borrowed volume over the limit).
- **Eligibility** (`LoanEligibilityService.check_eligibility`). It decides on a proposed loan:
  - an unknown customer is refused;
  - an affordability gate comes next: the installments of running loans plus the proposed installment must not exceed half the monthly salary;
  - then a four-band score table approves the loan and may raise its rate to a floor of 12% or 16%;
  - the installment is recomputed at the corrected rate.
- **Installment** (`calculate_emi`) and its twin in `Loan.save`. Both use the annuity formula; a zero rate gives `principal / n`.
- **Derived fields** of the models:
  - `Customer.save` derives the approved limit, 36 months of salary rounded to the nearest lakh;
  - `Loan.save` derives the installment;
  - `name` and `repayments_left` are computed properties.

Layout, one module per file:

- `records.dfy` (`Records`): the table rows, the database as a value (customers by id, loans in table order) and the aggregate queries as recursive functions (`filter`, `count`, `Sum`).
- `credit_score.dfy` (`CreditScore`): the score.
- `loan_eligibility.dfy` (`LoanEligibility`): the installment rule, the score bands and `check_eligibility`.
- `models.dfy` (`Models`): the `Customer` and `Loan` classes, whose `Save` methods change fields in place.

Modelling choices:

- Amounts and rates are two-decimal `Decimal` fields, so they are exact `real`s here. The few floating-point steps of the source are read as exact real arithmetic: the on-time ratio, the volume ratio and the zero-rate quotient.
- The clock is a parameter: `date.today()` is `today` and `datetime.now().year` is `currentYear`.
- Python exceptions are results: `Raised(ZeroDivisionError)` or `Raised(OverflowError)`, propagated through `check_eligibility` as the source propagates them:
  - an approved limit of 0 that reaches the volume ratio (services.py:77) divides by zero. That happens only when the loans sum to at most 0;
  - a tenure of 0 in `calculate_emi` or `Loan.save` divides by zero;
  - the annuity rule itself may raise (float `**` raises `OverflowError` once `(1 + r)**n` leaves the float range, for example at rate 999.99 over 1200 months).
- The general (non-zero-rate) branch of the annuity formula is not modelled as a number. It is the `Annuity` function parameter, which returns a value or an exception, and every caller gets the same rule. So the properties proved hold for any such rule.
- `round()` on a `Decimal` with no digit count rounds half to even, and `RoundHalfEven` does the same.

Behaviour of the code worth knowing:

- The zero-rate installment is not rounded: 100000 over 12 months gives 100000/12.
- An unknown customer is scored 0 by `calculate_credit_score` itself, and refused by `check_eligibility` with "Customer not found".
- A zero approved limit within the limit check raises instead of producing a score.
- The affordability gate uses only the installment at the proposed rate. When the table raises the rate, the recomputed installment is not checked against half the salary again. `LoanEligibility.ScoreTableDecides` states the installment that is returned.

## Model

| member | source | states |
|---|---|---|
| `Records.LoansOf` | services.py:25 | the customer's loans are the loan rows with that customer id, each as often as it occurs in the table (equal multisets), and no others |
| `Records.CountPaidOnTime` | services.py:39-42 | the paid-on-time count (`emis_paid_on_time >= tenure`) is at most the loan count; it equals it exactly when every loan is paid on time, and it is 0 exactly when none is |
| `Records.CountStartedIn` | services.py:60-61 | the current-year count is at most the loan count, and it is 0 exactly when no loan starts in that year |
| `Records.TotalAmountZero` | services.py:31-33 | with no negative amount, the summed principal is non-negative, and it is 0 exactly when every amount is 0 (the only case in which the zero-limit division is reached) |
| `Records.ActiveRepaymentsIgnoresEnded` | services.py:113-118 | a loan that ended before today contributes nothing to the current monthly obligations |
| `CreditScore.OnTimePoints` | services.py:44-47 | the on-time component lies in [0,40]; it is 40 exactly when every loan is paid on time and 0 exactly when none is |
| `CreditScore.LoanCountPoints` | services.py:49-57 | the loan-count tier lies in [5,20] |
| `CreditScore.CurrentYearPoints` | services.py:59-70 | the current-year tier lies in [5,20] |
| `CreditScore.VolumePoints` | services.py:79-86 | the volume tier lies in [5,20] |
| `CreditScore.TiersAntitone` | services.py:49-86 | each tier does not increase with more loans, more loans this year or a larger volume ratio ("fewer loans = better score") |
| `CreditScore.VolumeThresholds` | services.py:77-86 | with a positive limit, the ratio thresholds 0.3/0.6/0.8 are the cross-multiplications `10*total <= 3*limit`, `<= 6*limit`, `<= 8*limit` |
| `CreditScore.Truncate` | services.py:89 | `int()` truncates toward zero: for a non-negative sum it is the largest integer not above it |
| `CreditScore.Clamp` | services.py:89 | the clamp lands in [0,100] and leaves a value already in range unchanged |
| `CreditScore.ComponentScore` | services.py:38-89 | the four components summed, truncated and clamped lie in [15,100] |
| `CreditScore.WithinLimitIsComponentSum` | services.py:38-89 | within the limit, the score is the floor of the on-time component plus the three tiers; the clamp never applies |
| `CreditScore.ScoreLoans` | services.py:25-89 | no loans: exactly 50. Loans summing above the limit: exactly 0. Otherwise the score lies in [15,100], so it never falls in the ≤10 band. It raises division by zero exactly when the loans are within a zero limit |
| `CreditScore.OverLimitIgnoresHistory` | services.py:31-36 | two loan histories with the same over-limit total both score 0, whatever their on-time record |
| `CreditScore.CalculateCreditScore` | services.py:11-23 | an unknown customer id scores 0, and every score is in [0,100] |
| `CreditScore.OneRepaidLoanScoresFull` | tests.py:66-80 | one fully repaid loan of 50000 against a limit of 2700000, started in an earlier year, scores 100 (above 50) |
| `LoanEligibility.CalculateEmi` | services.py:178-188 | a zero tenure raises division by zero. At rate 0, the installment times the tenure is the principal (unrounded `principal / n`). Otherwise the result, value or exception, is the annuity rule's at monthly rate `annual_rate / 1200`; it raises exactly in those cases |
| `LoanEligibility.BandOf` | services.py:136-161 | the four bands >50, (30,50], (10,30] and ≤10 are exhaustive and mutually exclusive |
| `LoanEligibility.DecideByScore` | services.py:135-161 | approval holds exactly when the score is above 10. The corrected rate is never below the proposed one: it equals the proposed rate above 50 and at or below 10, `max(rate,12)` in (30,50] and `max(rate,16)` in (10,30]. The "corrected" message appears exactly when the rate changed |
| `LoanEligibility.CheckEligibility` | services.py:96-175 | an unknown id gives approval false, the proposed rate and installment 0. The corrected rate is never below the proposed rate. An approval always carries a score above 10 |
| `LoanEligibility.RaisesExactly` | services.py:109-167 | the check raises exactly when the customer exists and the score raises, or the installment at the proposed rate raises, or the loan passes the gate at a corrected rate whose installment raises |
| `LoanEligibility.ZeroTenureRaises` | services.py:182-188 | a known customer with a zero tenure gets division by zero |
| `LoanEligibility.AffordabilityTakesPrecedence` | services.py:112-133 | when current plus proposed installments exceed half the salary: refusal, the proposed rate, the proposed installment and the affordability message, whatever the score |
| `LoanEligibility.ScoreTableDecides` | services.py:135-175 | past the gate: approval exactly when score > 10, the band's rate floor, and the score is reported. The installment is recomputed at the corrected rate exactly when the loan is approved and the rate changed; otherwise it stays the proposed installment. Only that recomputation can still raise |
| `LoanEligibility.OverLimitNeverApproved` | services.py:30-36 | a customer whose loans sum above the approved limit is never approved |
| `LoanEligibility.WithinLimitAffordableIsApproved` | services.py:136-161 | a known customer within the limit who passes the gate is always approved; the low-score refusal is reached only by over-limit customers |
| `LoanEligibility.NewCustomerRateRaisedToTwelve` | services.py:136-167 | a customer with no loans and income 60000, asking for 200000 at 10% over 24 months (proposed installment affordable, rule not raising): score 50, rate raised to 12, approved, installment at 12% |
| `Models.RoundHalfEven` | models.py:26 | `round()` gives the nearest integer, and a tie goes to the even one |
| `Models.DerivedLimit` | models.py:24-26 | the derived limit is a whole multiple of 100000 within 50000 of `36 * salary` |
| `Models.Customer.Name` | models.py:29-31 | the `name` property is the first name, one space and the last name, and it splits back into the two at the first name's length |
| `Models.Customer.constructor` | models.py:6-14 | a new customer holds exactly the field values given, with no limit derived; the limit defaults to unset and the current debt to 0 |
| `Models.Customer.Save` | models.py:22-27 | an unset (None or zero) limit becomes the derived limit; a set limit and every other field stay unchanged; the persisted row carries the limit |
| `Models.Loan.constructor` | models.py:37-46 | a new loan holds exactly the field values given, with no installment derived; the installment defaults to unset and the on-time count to 0 |
| `Models.Loan.RepaymentsLeft` | models.py:70-72 | `tenure - emis_paid_on_time` is at most 0 exactly when the loan counts as paid on time for the score |
| `Models.Loan.Save` | models.py:54-68 | an unset installment becomes `calculate_emi`'s value for the same inputs: the same formula, and at rate 0 `loan_amount / tenure` exactly. A zero tenure, or the annuity rule raising, raises the same exception as `calculate_emi` and changes nothing. A set installment and every other field stay unchanged |

## Left out

- Persistence: Django's ORM, `super().save()`, `Meta`, `created_at`/`updated_at` and the `AutoField` key assignment are not modelled. The database is a value: customers by id and loans in table order. The aggregate queries are recursive sums and counts over it.
- Quantisation: storing a float installment into a two-decimal column is not modelled. `Loan.Save` returns the row with the value in memory.
- The clock: `date.today()` and `datetime.now()` are parameters.
- `LoanEligibility.CalculateEmi`: only the zero-rate and zero-tenure outcomes are stated concretely. Whether and when the general branch raises `OverflowError` is left to the `Annuity` rule. The float annuity formula with `**`, `round(…, 2)` and `Decimal(str(…))` is the `Annuity` parameter. So monotonicity of the installment in the rate, and its exact rounding, are not proved.
- `CreditScore.OnTimePoints` and `CreditScore.VolumePoints`: they compute in exact reals where the source divides in `float`, so float rounding at a threshold is not modelled.
- `Models.Loan.Save`: the zero-rate installment is the exact quotient, where the source stores the float `principal / n`.
- `Models.Customer.Save`: `36 * salary / 100000` is exact, as `Decimal` is at the field's 12 digits. Decimal context precision beyond that is not modelled.
- Field validators (age 18–100) and the columns' digit limits are not modelled.
- The views, serializers, background import tasks, spreadsheet import scripts and HTTP test clients are outside the decision engine and are not part of this model.
