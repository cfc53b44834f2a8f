/** The records shared by the calculator's screens (types.ts) and small helpers over them. */
module LoanTypes {

  /** A value that may be absent: an optional record field, or a text input that holds no number. */
  datatype Option<+T> = None | Some(value: T) {
    function GetOr(default: T): T {
      match this
      case Some(v) => v
      case None => default
    }
  }

  /** `x || 0` on an optional amount: an absent amount counts as zero. */
  function OrZero(x: Option<real>): real {
    x.GetOr(0.0)
  }

  /** A saved loan. `prepayments` and `extraMonthly` are optional in the record. */
  datatype Loan = Loan(
    id: string,
    name: string,
    amount: real,
    rate: real,          // annual interest rate, in percent
    term: nat,           // in years
    monthlyPayment: real,
    totalCost: real,
    prepayments: Option<real>,
    extraMonthly: Option<real>)

  /** A named what-if prepayment plan attached to one loan. */
  datatype PrepaymentScenario = PrepaymentScenario(
    id: string,
    loanId: string,
    name: string,
    extraMonthly: real,
    prepayments: real,
    createdAt: int)      // creation time as a timestamp; it is only ever used to order scenarios

  /** One month of an amortization schedule. */
  datatype AmortizationRow = AmortizationRow(
    month: int,
    payment: real,
    interest: real,
    principal: real,
    balance: real)

  function LoanId(l: Loan): string { l.id }
  function ScenarioId(s: PrepaymentScenario): string { s.id }
  function ScenarioLoanId(s: PrepaymentScenario): string { s.loanId }

  /** Math.min and Math.max on two amounts. */
  function Min(a: real, b: real): (m: real)
    ensures m <= a && m <= b && (m == a || m == b)
  {
    if a <= b then a else b
  }

  function Max(a: real, b: real): (m: real)
    ensures m >= a && m >= b && (m == a || m == b)
  {
    if a >= b then a else b
  }
}
