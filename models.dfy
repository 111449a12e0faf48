/** The `Customer` and `Loan` models: the in-memory objects whose `save()`
    derives a missing field before the row is persisted. Django leaves a field
    that was not supplied as `None`; both `None` and zero are "not set" to the
    `if not ...` tests, so the two derived fields are `Option<real>` here. */
module Models {
  import opened Records
  import LoanEligibility

  /** Python's truth test on an optional `Decimal`: `None` and zero are falsy. */
  predicate Falsy(v: Option<real>)
  {
    v == None || v == Some(0.0)
  }

  /** `round(x)` on a `Decimal` with no digit count: the nearest integer, ties to even. */
  function RoundHalfEven(x: real): (n: int)
    ensures n as real - 0.5 <= x <= n as real + 0.5
    ensures x == n as real - 0.5 || x == n as real + 0.5 ==> n % 2 == 0
  {
    var f := x.Floor;
    var frac := x - f as real;
    if frac < 0.5 then f
    else if frac > 0.5 then f + 1
    else if f % 2 == 0 then f
    else f + 1
  }

  /** The approved limit derived from a monthly salary: 36 months of salary,
      rounded to the nearest lakh (100000). */
  function DerivedLimit(monthlySalary: real): (limit: real)
    ensures (limit / 100000.0).Floor as real * 100000.0 == limit
    ensures -50000.0 <= limit - 36.0 * monthlySalary <= 50000.0
  {
    var x := 36.0 * monthlySalary / 100000.0;
    var lakhs := RoundHalfEven(x);
    var limit := lakhs as real * 100000.0;
    assert x * 100000.0 == 36.0 * monthlySalary;
    assert limit - 36.0 * monthlySalary == (lakhs as real - x) * 100000.0;
    assert limit / 100000.0 == lakhs as real;
    limit
  }

  class Customer {
    var customerId: int
    var firstName: string
    var lastName: string
    var age: int
    var phoneNumber: int
    var monthlySalary: real
    var approvedLimit: Option<real>
    var currentDebt: real

    /** `Customer(...)` with the given field values; nothing is derived yet. As in the Django
        model, the limit defaults to unset and the current debt to 0. */
    constructor (customerId: int, firstName: string, lastName: string, age: int, phoneNumber: int,
                 monthlySalary: real, approvedLimit: Option<real> := None, currentDebt: real := 0.0)
      ensures this.customerId == customerId && this.firstName == firstName && this.lastName == lastName
      ensures this.age == age && this.phoneNumber == phoneNumber && this.monthlySalary == monthlySalary
      ensures this.approvedLimit == approvedLimit && this.currentDebt == currentDebt
    {
      this.customerId := customerId;
      this.firstName := firstName;
      this.lastName := lastName;
      this.age := age;
      this.phoneNumber := phoneNumber;
      this.monthlySalary := monthlySalary;
      this.approvedLimit := approvedLimit;
      this.currentDebt := currentDebt;
    }

    /** The `name` property: first and last name joined by one space. The
        result splits back into the two names at the first name's length. */
    function Name(): (n: string)
      reads this
      ensures |n| == |firstName| + 1 + |lastName|
      ensures n[..|firstName|] == firstName && n[|firstName|] == ' ' && n[|firstName| + 1..] == lastName
    {
      firstName + " " + lastName
    }

    /** The row this object is stored as, once its limit is set. */
    function Row(): (row: CustomerRecord)
      reads this
      requires approvedLimit.Some?
      ensures row.customerId == customerId && row.approvedLimit == approvedLimit.value
    {
      CustomerRecord(customerId, firstName, lastName, age, phoneNumber, monthlySalary,
                     approvedLimit.value, currentDebt)
    }

    /** `save()`: derives the approved limit when it is not set, keeps it
        otherwise, changes no other field, and returns the row it persists. */
    method Save() returns (row: CustomerRecord)
      modifies this
      ensures approvedLimit == (if Falsy(old(approvedLimit)) then Some(DerivedLimit(monthlySalary))
                                else old(approvedLimit))
      ensures customerId == old(customerId) && firstName == old(firstName) && lastName == old(lastName)
      ensures age == old(age) && phoneNumber == old(phoneNumber) && monthlySalary == old(monthlySalary)
      ensures currentDebt == old(currentDebt)
      ensures approvedLimit.Some? && row == Row()
    {
      if Falsy(approvedLimit) {
        var limit := 36.0 * monthlySalary;
        approvedLimit := Some(RoundHalfEven(limit / 100000.0) as real * 100000.0);
      }
      row := Row();
    }
  }

  class Loan {
    var loanId: int
    var customerId: int
    var loanAmount: real
    var tenure: int
    var interestRate: real
    var monthlyRepayment: Option<real>
    var emisPaidOnTime: int
    var startDate: Date
    var endDate: Date

    /** `Loan(...)` with the given field values; nothing is derived yet. As in the Django
        model, the installment defaults to unset and the on-time count to 0. */
    constructor (loanId: int, customerId: int, loanAmount: real, tenure: int, interestRate: real,
                 startDate: Date, endDate: Date, monthlyRepayment: Option<real> := None, emisPaidOnTime: int := 0)
      ensures this.loanId == loanId && this.customerId == customerId && this.loanAmount == loanAmount
      ensures this.tenure == tenure && this.interestRate == interestRate
      ensures this.monthlyRepayment == monthlyRepayment && this.emisPaidOnTime == emisPaidOnTime
      ensures this.startDate == startDate && this.endDate == endDate
    {
      this.loanId := loanId;
      this.customerId := customerId;
      this.loanAmount := loanAmount;
      this.tenure := tenure;
      this.interestRate := interestRate;
      this.monthlyRepayment := monthlyRepayment;
      this.emisPaidOnTime := emisPaidOnTime;
      this.startDate := startDate;
      this.endDate := endDate;
    }

    /** The `repayments_left` property. It is at most 0 exactly when the loan
        counts as paid on time for the credit score. */
    function RepaymentsLeft(): (n: int)
      reads this
      ensures n <= 0 <==> emisPaidOnTime >= tenure
      ensures monthlyRepayment.Some? ==> (n <= 0 <==> PaidOnTime(Row()))
    {
      tenure - emisPaidOnTime
    }

    /** The row this object is stored as, once its installment is set. */
    function Row(): (row: LoanRecord)
      reads this
      requires monthlyRepayment.Some?
      ensures row.loanId == loanId && row.monthlyRepayment == monthlyRepayment.value
    {
      LoanRecord(loanId, customerId, loanAmount, tenure, interestRate, monthlyRepayment.value,
                 emisPaidOnTime, startDate, endDate)
    }

    /** `save()`: when no installment is set, derives it with the same rule as
        `calculate_emi` (at rate 0, `loan_amount / tenure`, unrounded). A zero
        tenure, or the annuity rule raising, raises before anything changes. A
        set installment is kept. No other field changes; on success the
        persisted row is returned. */
    method Save(annuity: LoanEligibility.Annuity) returns (r: Result<LoanRecord>)
      modifies this
      ensures r.Raised? <==>
                Falsy(old(monthlyRepayment)) && LoanEligibility.CalculateEmi(loanAmount, interestRate, tenure, annuity).Raised?
      ensures r.Raised? ==>
                r.error == LoanEligibility.CalculateEmi(loanAmount, interestRate, tenure, annuity).error
                && monthlyRepayment == old(monthlyRepayment)
      ensures tenure == 0 && Falsy(old(monthlyRepayment)) ==> r == Raised(ZeroDivisionError)
      ensures r.Ok? ==>
                monthlyRepayment == (if Falsy(old(monthlyRepayment))
                                     then Some(LoanEligibility.CalculateEmi(loanAmount, interestRate, tenure, annuity).value)
                                     else old(monthlyRepayment))
      ensures r.Ok? && Falsy(old(monthlyRepayment)) && interestRate == 0.0 ==>
                monthlyRepayment.Some? && monthlyRepayment.value * tenure as real == loanAmount
      ensures r.Ok? ==> monthlyRepayment.Some? && r.value == Row()
      ensures loanId == old(loanId) && customerId == old(customerId) && loanAmount == old(loanAmount)
      ensures tenure == old(tenure) && interestRate == old(interestRate)
      ensures emisPaidOnTime == old(emisPaidOnTime) && startDate == old(startDate) && endDate == old(endDate)
    {
      if Falsy(monthlyRepayment) {
        var principal := loanAmount;
        var monthlyRate := interestRate / (12.0 * 100.0);
        var n := tenure;
        if n == 0 {
          return Raised(ZeroDivisionError);
        }
        if monthlyRate == 0.0 {
          monthlyRepayment := Some(principal / n as real);
        } else {
          var emi := annuity(principal, monthlyRate, n);
          if emi.Raised? {
            return Raised(emi.error);
          }
          monthlyRepayment := Some(emi.value);
        }
      }
      r := Ok(Row());
    }
  }

  /** Registering John Doe on a salary of 50000 without a limit derives the
      limit 1800000; the name reads "John Doe". */
  method RegisterExample()
  {
    var c := new Customer(1, "John", "Doe", 30, 9876543210, 50000.0);
    var row := c.Save();
    assert c.approvedLimit == Some(1800000.0);
    assert c.Name() == "John Doe";
    var again := c.Save();
    assert again == row;
  }

  /** A loan of 100000 at 0% over 12 months, saved without an installment, is
      given the unrounded installment 100000 / 12. */
  method ZeroRateLoanExample(annuity: LoanEligibility.Annuity)
  {
    var loan := new Loan(1, 1, 100000.0, 12, 0.0, Date(2024, 1, 1), Date(2024, 12, 31));
    var r := loan.Save(annuity);
    assert r.Ok? && loan.monthlyRepayment == Some(100000.0 / 12.0);
    assert loan.RepaymentsLeft() == 12;
  }
}
