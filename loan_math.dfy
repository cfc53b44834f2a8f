/**
 * The payment and schedule engine (utils.ts): the annuity payment of `calculateLoan` and the
 * month-by-month schedule of `generateAmortization`, with the folds over a schedule.
 */
module LoanMath {
  import opened LoanTypes

  /** `rate / 100 / 12`: the monthly rate of an annual percentage rate. */
  function MonthlyRate(rate: real): (r: real)
    ensures r * 1200.0 == rate
    ensures rate > 0.0 ==> r > 0.0
  {
    rate / 100.0 / 12.0
  }

  /** Math.pow on a natural exponent. */
  function Pow(x: real, n: nat): (r: real)
    ensures x > 0.0 ==> r > 0.0
  {
    if n == 0 then 1.0 else x * Pow(x, n - 1)
  }

  lemma {:induction false} PowAtLeastOne(x: real, n: nat)
    requires x >= 1.0
    ensures Pow(x, n) >= 1.0
  {
    if n > 0 {
      PowAtLeastOne(x, n - 1);
      assert x * Pow(x, n - 1) >= Pow(x, n - 1);
    }
  }

  /** For a base above one, the powers strictly increase with the exponent. */
  lemma {:induction false} PowIncreasing(x: real, k: nat, n: nat)
    requires x > 1.0 && k < n
    ensures Pow(x, k) < Pow(x, n)
  {
    PowAtLeastOne(x, n - 1);
    assert Pow(x, n - 1) < x * Pow(x, n - 1);
    if k < n - 1 {
      PowIncreasing(x, k, n - 1);
    }
  }

  /**
   * The inputs the formula is defined for. At rate 0 the annuity formula divides 0 by 0,
   * and with a term of 0 years its denominator is 0.
   */
  predicate ValidTerms(rate: real, term: nat) {
    rate > 0.0 && term >= 1
  }

  datatype LoanQuote = LoanQuote(monthlyPayment: real, totalCost: real)

  /** Scaling by a factor above one moves an amount away from zero. */
  lemma ScaleAwayFromZero(a: real, f: real)
    requires f > 1.0
    ensures a > 0.0 ==> a * f > a
    ensures a < 0.0 ==> a * f < a
    ensures a == 0.0 ==> a * f == 0.0
  {
    assert a * f - a == a * (f - 1.0);
  }

  /** The factor (1+r)^n / ((1+r)^n - 1) of the annuity formula exceeds one. */
  lemma AnnuityFactorAboveOne(g: real)
    requires g > 1.0
    ensures g / (g - 1.0) > 1.0
  {
    assert g / (g - 1.0) == 1.0 + 1.0 / (g - 1.0);
  }

  /**
   * `calculateLoan`: the fixed monthly payment that repays `amount` over `term` years at the
   * annual `rate`, and the total paid over the term. For a positive loan the payment is more
   * than one month's interest on the full amount, so it always repays some principal.
   */
  function CalculateLoan(amount: real, rate: real, term: nat): (q: LoanQuote)
    requires ValidTerms(rate, term)
    ensures q.totalCost == q.monthlyPayment * (term * 12) as real
    ensures amount > 0.0 ==> q.monthlyPayment > amount * MonthlyRate(rate)
    ensures amount == 0.0 ==> q.monthlyPayment == 0.0
    ensures amount < 0.0 ==> q.monthlyPayment < amount * MonthlyRate(rate)
  {
    var monthlyRate := MonthlyRate(rate);
    var numPayments := term * 12;
    var growth := Pow(1.0 + monthlyRate, numPayments);
    PowIncreasing(1.0 + monthlyRate, 0, numPayments);
    AnnuityFactorAboveOne(growth);
    var monthlyPayment := amount * monthlyRate * growth / (growth - 1.0);
    assert monthlyPayment == (amount * monthlyRate) * (growth / (growth - 1.0));
    ScaleAwayFromZero(amount * monthlyRate, growth / (growth - 1.0));
    assert amount > 0.0 ==> amount * monthlyRate > 0.0;
    assert amount < 0.0 ==> amount * monthlyRate < 0.0;
    LoanQuote(monthlyPayment, monthlyPayment * numPayments as real)
  }

  /**
   * The rows the loop of `generateAmortization` emits from `month` on, given the running
   * balance: while the balance is positive and the month is within `last`, one month's
   * interest is charged, the principal repaid is the payment left after interest capped at
   * the balance, and the row records the balance clamped at zero.
   */
  function ScheduleFrom(balance: real, month: int, last: int, monthlyRate: real,
                        basePayment: real, extraMonthly: real): (s: seq<AmortizationRow>)
    ensures |s| <= if month <= last then last - month + 1 else 0
    ensures forall i :: 0 <= i < |s| ==> s[i].month == month + i
    decreases if month <= last then last - month + 1 else 0
  {
    if balance <= 0.0 || month > last then []
    else
      var interest := balance * monthlyRate;
      var principal := Min(basePayment + extraMonthly - interest, balance);
      var next := balance - principal;
      [AmortizationRow(month, interest + principal, interest, principal, Max(next, 0.0))]
        + ScheduleFrom(next, month + 1, last, monthlyRate, basePayment, extraMonthly)
  }

  /**
   * `generateAmortization(amount, rate, term, extraMonthly, prepayments)`: the loop starts
   * from `amount - prepayments` and pays the base payment of the ORIGINAL amount plus the
   * extra every month, for at most term*12 months. Months run 1, 2, 3, ... and a prepayment
   * that covers the whole amount leaves nothing to schedule.
   */
  function Amortization(amount: real, rate: real, term: nat, extraMonthly: real,
                        prepayments: real): (s: seq<AmortizationRow>)
    requires ValidTerms(rate, term)
    ensures |s| <= term * 12
    ensures forall i :: 0 <= i < |s| ==> s[i].month == i + 1
    ensures prepayments >= amount ==> s == []
  {
    ScheduleFrom(amount - prepayments, 1, term * 12, MonthlyRate(rate),
                 CalculateLoan(amount, rate, term).monthlyPayment, extraMonthly)
  }

  /** `generateAmortization`: the set-up of the schedule loop, then the loop itself. */
  method GenerateAmortization(amount: real, rate: real, term: nat, extraMonthly: real,
                              prepayments: real) returns (schedule: seq<AmortizationRow>)
    requires ValidTerms(rate, term)
    ensures schedule == Amortization(amount, rate, term, extraMonthly, prepayments)
  {
    var monthlyRate := MonthlyRate(rate);
    var basePayment := CalculateLoan(amount, rate, term).monthlyPayment;
    schedule := PayDown(amount - prepayments, term * 12, monthlyRate, basePayment, extraMonthly);
  }

  /**
   * The loop of `generateAmortization`: from month 1, while the balance is positive and the
   * month is within `last`, charge a month's interest, repay the rest of the payment capped
   * at the balance, and push the row.
   */
  method PayDown(start: real, last: int, monthlyRate: real, basePayment: real, extraMonthly: real)
    returns (schedule: seq<AmortizationRow>)
    ensures schedule == ScheduleFrom(start, 1, last, monthlyRate, basePayment, extraMonthly)
  {
    schedule := [];
    var balance := start;
    var month := 1;
    ghost var spec := ScheduleFrom(balance, month, last, monthlyRate, basePayment, extraMonthly);
    while balance > 0.0 && month <= last
      invariant 1 <= month && (month <= last + 1 || schedule == [])
      invariant schedule + ScheduleFrom(balance, month, last, monthlyRate, basePayment, extraMonthly) == spec
      decreases last + 1 - month
    {
      var interestPayment := balance * monthlyRate;
      var principalPayment := Min(basePayment + extraMonthly - interestPayment, balance);
      var totalPayment := interestPayment + principalPayment;
      var next := balance - principalPayment;
      var row := AmortizationRow(month, totalPayment, interestPayment, principalPayment, Max(next, 0.0));
      ScheduleLoopStep(schedule, balance, month, last, monthlyRate, basePayment, extraMonthly, spec, row, next);
      balance := next;
      schedule := schedule + [row];
      month := month + 1;
    }
  }

  // ---------------------------------------------------------------------------------------
  // Folds over a schedule

  /** The reduce of the payments: 0 for no rows, and non-negative when every payment is. */
  function SumPayment(s: seq<AmortizationRow>): (r: real)
    ensures s == [] ==> r == 0.0
  {
    if s == [] then 0.0 else s[0].payment + SumPayment(s[1..])
  }

  /** The reduce of the interest: 0 for no rows, and non-negative when every row's interest is. */
  function SumInterest(s: seq<AmortizationRow>): (r: real)
    ensures s == [] ==> r == 0.0
  {
    if s == [] then 0.0 else s[0].interest + SumInterest(s[1..])
  }

  function SumPrincipal(s: seq<AmortizationRow>): real {
    if s == [] then 0.0 else s[0].principal + SumPrincipal(s[1..])
  }

  /** Rows with non-negative payments and interest sum to non-negative totals. */
  lemma {:induction false} SumsOfNonNegativeRows(s: seq<AmortizationRow>)
    ensures (forall i :: 0 <= i < |s| ==> s[i].payment >= 0.0) ==> SumPayment(s) >= 0.0
    ensures (forall i :: 0 <= i < |s| ==> s[i].interest >= 0.0) ==> SumInterest(s) >= 0.0
  {
    if s != [] {
      SumsOfNonNegativeRows(s[1..]);
      assert forall i :: 0 <= i < |s[1..]| ==> s[1..][i] == s[i + 1];
    }
  }

  /** The balance a schedule ends with: its last row's, or the opening balance if it has no rows. */
  function LastBalance(s: seq<AmortizationRow>, start: real): real {
    if s == [] then start else s[|s| - 1].balance
  }

  /** The balance a row is charged interest on: the schedule's start for the first row, else the previous row's balance. */
  function Opening(s: seq<AmortizationRow>, start: real, i: int): real
    requires 0 <= i < |s|
  {
    if i == 0 then start else s[i - 1].balance
  }

  /**
   * One month of amortization from the balance `open`: interest on it at the monthly rate,
   * a principal no larger than it, the payment split exactly into the two, and the balance
   * reduced by the principal.
   */
  ghost predicate RowFollows(r: AmortizationRow, open: real, monthlyRate: real) {
    && open > 0.0
    && r.interest == open * monthlyRate
    && r.principal <= open
    && r.payment == r.interest + r.principal
    && r.balance == open - r.principal
  }

  /** Every row follows from the balance the previous row left. */
  ghost predicate Chained(s: seq<AmortizationRow>, start: real, monthlyRate: real) {
    forall i :: 0 <= i < |s| ==> RowFollows(s[i], Opening(s, start, i), monthlyRate)
  }

  lemma {:induction false} ScheduleFromChained(balance: real, month: int, last: int, monthlyRate: real,
                                               basePayment: real, extraMonthly: real)
    ensures Chained(ScheduleFrom(balance, month, last, monthlyRate, basePayment, extraMonthly), balance, monthlyRate)
    decreases if month <= last then last - month + 1 else 0
  {
    var s := ScheduleFrom(balance, month, last, monthlyRate, basePayment, extraMonthly);
    if s != [] {
      var interest := balance * monthlyRate;
      var principal := Min(basePayment + extraMonthly - interest, balance);
      var next := balance - principal;
      var rest := ScheduleFrom(next, month + 1, last, monthlyRate, basePayment, extraMonthly);
      ScheduleFromChained(next, month + 1, last, monthlyRate, basePayment, extraMonthly);
      assert s == [s[0]] + rest;
      assert s[0].balance == next;
      forall i | 0 <= i < |s|
        ensures RowFollows(s[i], Opening(s, balance, i), monthlyRate)
      {
        if i > 0 {
          assert s[i] == rest[i - 1];
          assert Opening(s, balance, i) == Opening(rest, next, i - 1);
        }
      }
    }
  }

  /**
   * Each row of `generateAmortization` charges interest on the balance it opens with, repays
   * at most that balance, splits its payment exactly into interest and principal, and leaves
   * a non-negative balance that the next row opens with; the first row opens with
   * `amount - prepayments`.
   */
  lemma AmortizationRowsChain(amount: real, rate: real, term: nat, extraMonthly: real, prepayments: real)
    requires ValidTerms(rate, term)
    ensures var s := Amortization(amount, rate, term, extraMonthly, prepayments);
            && Chained(s, amount - prepayments, MonthlyRate(rate))
            && forall i :: 0 <= i < |s| ==> s[i].balance >= 0.0 && s[i].payment == s[i].interest + s[i].principal
  {
    var s := Amortization(amount, rate, term, extraMonthly, prepayments);
    ScheduleFromChained(amount - prepayments, 1, term * 12, MonthlyRate(rate),
                        CalculateLoan(amount, rate, term).monthlyPayment, extraMonthly);
    forall i | 0 <= i < |s|
      ensures s[i].balance >= 0.0 && s[i].payment == s[i].interest + s[i].principal
    {
      assert RowFollows(s[i], Opening(s, amount - prepayments, i), MonthlyRate(rate));
    }
  }

  lemma {:induction false} ScheduleFromTelescopes(balance: real, month: int, last: int, monthlyRate: real,
                                                  basePayment: real, extraMonthly: real)
    ensures var s := ScheduleFrom(balance, month, last, monthlyRate, basePayment, extraMonthly);
            && SumPrincipal(s) == balance - LastBalance(s, balance)
            && SumPayment(s) == SumInterest(s) + SumPrincipal(s)
            && (|s| < last + 1 - month ==> LastBalance(s, balance) <= 0.0)
            && (s != [] ==> LastBalance(s, balance) >= 0.0)
    decreases if month <= last then last - month + 1 else 0
  {
    if balance > 0.0 && month <= last {
      var principal := Min(basePayment + extraMonthly - balance * monthlyRate, balance);
      var next := balance - principal;
      var rest := ScheduleFrom(next, month + 1, last, monthlyRate, basePayment, extraMonthly);
      ScheduleFromStep(balance, month, last, monthlyRate, basePayment, extraMonthly, principal);
      ScheduleFromTelescopes(next, month + 1, last, monthlyRate, basePayment, extraMonthly);
      var s := ScheduleFrom(balance, month, last, monthlyRate, basePayment, extraMonthly);
      assert s[0].principal == principal && s[0].balance == next;
      assert s[1..] == rest;
      assert LastBalance(s, balance) == LastBalance(rest, next);
    }
  }

  /**
   * What the schedule repays adds up: the principals sum to the opening balance
   * `amount - prepayments` minus the balance it ends with, and every payment splits into
   * interest and principal, so the payments sum to total interest plus total principal.
   * A schedule that stops before term*12 months stops because the loan is paid off: its
   * last row has balance 0 (or it has no rows because nothing was owed).
   */
  lemma AmortizationTelescopes(amount: real, rate: real, term: nat, extraMonthly: real, prepayments: real)
    requires ValidTerms(rate, term)
    ensures var s := Amortization(amount, rate, term, extraMonthly, prepayments);
            && SumPrincipal(s) == (amount - prepayments) - LastBalance(s, amount - prepayments)
            && SumPayment(s) == SumInterest(s) + SumPrincipal(s)
            && (s == [] ==> amount - prepayments <= 0.0)
            && (s != [] && |s| < term * 12 ==> s[|s| - 1].balance == 0.0)
  {
    ScheduleFromTelescopes(amount - prepayments, 1, term * 12, MonthlyRate(rate),
                           CalculateLoan(amount, rate, term).monthlyPayment, extraMonthly);
  }

  /** Every row repays a positive principal, so its balance is below the one it opened with. */
  ghost predicate StrictlyRepaying(s: seq<AmortizationRow>, start: real) {
    forall i :: 0 <= i < |s| ==> s[i].principal > 0.0 && s[i].balance < Opening(s, start, i)
  }

  lemma {:induction false} ScheduleFromDecreases(balance: real, month: int, last: int, monthlyRate: real,
                                                 basePayment: real, extraMonthly: real)
    requires monthlyRate >= 0.0
    requires basePayment + extraMonthly > balance * monthlyRate
    ensures StrictlyRepaying(ScheduleFrom(balance, month, last, monthlyRate, basePayment, extraMonthly), balance)
    decreases if month <= last then last - month + 1 else 0
  {
    var s := ScheduleFrom(balance, month, last, monthlyRate, basePayment, extraMonthly);
    if s != [] {
      var interest := balance * monthlyRate;
      var principal := Min(basePayment + extraMonthly - interest, balance);
      var next := balance - principal;
      assert 0.0 < principal <= balance;
      MulMonotone(next, balance, monthlyRate);
      var rest := ScheduleFrom(next, month + 1, last, monthlyRate, basePayment, extraMonthly);
      ScheduleFromDecreases(next, month + 1, last, monthlyRate, basePayment, extraMonthly);
      assert s == [AmortizationRow(month, interest + principal, interest, principal, Max(next, 0.0))] + rest;
      forall i | 0 <= i < |s|
        ensures s[i].principal > 0.0 && s[i].balance < Opening(s, balance, i)
      {
        if i > 0 {
          assert s[i] == rest[i - 1];
          assert Opening(s, balance, i) == Opening(rest, next, i - 1);
        }
      }
    }
  }

  /**
   * With a positive rate and non-negative extra and prepayment, every month repays a positive
   * principal, so each row's balance is strictly below the balance before it: the base
   * payment more than covers the interest on any balance up to the original amount.
   */
  lemma AmortizationBalancesDecrease(amount: real, rate: real, term: nat, extraMonthly: real, prepayments: real)
    requires ValidTerms(rate, term)
    requires extraMonthly >= 0.0 && prepayments >= 0.0
    ensures var s := Amortization(amount, rate, term, extraMonthly, prepayments);
            && (forall i :: 0 <= i < |s| ==> s[i].principal > 0.0)
            && (s != [] ==> s[0].balance < amount - prepayments)
            && (forall i :: 0 < i < |s| ==> s[i].balance < s[i - 1].balance)
  {
    var s := Amortization(amount, rate, term, extraMonthly, prepayments);
    var mr := MonthlyRate(rate);
    var start := amount - prepayments;
    var base := CalculateLoan(amount, rate, term).monthlyPayment;
    if start > 0.0 {
      PaymentCoversInterest(amount, rate, term, extraMonthly, prepayments);
      ScheduleFromDecreases(start, 1, term * 12, mr, base, extraMonthly);
      assert s == ScheduleFrom(start, 1, term * 12, mr, base, extraMonthly);
      assert StrictlyRepaying(s, start);
      forall i | 0 <= i < |s|
        ensures s[i].principal > 0.0 && s[i].balance < Opening(s, start, i)
      {
      }
    }
  }

  /** The base payment plus a non-negative extra exceeds the first month's interest on `amount - prepayments`. */
  lemma PaymentCoversInterest(amount: real, rate: real, term: nat, extraMonthly: real, prepayments: real)
    requires ValidTerms(rate, term)
    requires extraMonthly >= 0.0 && prepayments >= 0.0 && amount - prepayments > 0.0
    ensures CalculateLoan(amount, rate, term).monthlyPayment + extraMonthly
            > (amount - prepayments) * MonthlyRate(rate)
  {
    MulMonotone(amount - prepayments, amount, MonthlyRate(rate));
  }

  /** With a positive rate and non-negative extras, every month's payment is positive. */
  lemma AmortizationPaymentsPositive(amount: real, rate: real, term: nat, extraMonthly: real, prepayments: real)
    requires ValidTerms(rate, term)
    requires extraMonthly >= 0.0 && prepayments >= 0.0
    ensures var s := Amortization(amount, rate, term, extraMonthly, prepayments);
            forall i :: 0 <= i < |s| ==> s[i].payment > 0.0
  {
    var s := Amortization(amount, rate, term, extraMonthly, prepayments);
    var mr := MonthlyRate(rate);
    AmortizationBalancesDecrease(amount, rate, term, extraMonthly, prepayments);
    AmortizationRowsChain(amount, rate, term, extraMonthly, prepayments);
    forall i | 0 <= i < |s|
      ensures s[i].payment > 0.0
    {
      PositiveRow(s[i], Opening(s, amount - prepayments, i), mr);
    }
  }

  /** A row that follows from a positive balance at a non-negative rate and repays some principal has a positive payment. */
  lemma PositiveRow(r: AmortizationRow, open: real, monthlyRate: real)
    requires RowFollows(r, open, monthlyRate) && r.principal > 0.0 && monthlyRate >= 0.0
    ensures r.payment > 0.0
  {
    MulMonotone(0.0, open, monthlyRate);
  }

  lemma MulMonotone(a: real, b: real, m: real)
    requires a <= b && m >= 0.0
    ensures a * m <= b * m
  {
    assert b * m - a * m == (b - a) * m;
  }

  /** One step of the loop: a positive balance within the term emits one row and continues from the reduced balance. */
  lemma ScheduleFromStep(balance: real, month: int, last: int, monthlyRate: real,
                         basePayment: real, extraMonthly: real, principal: real)
    requires balance > 0.0 && month <= last
    requires principal == Min(basePayment + extraMonthly - balance * monthlyRate, balance)
    ensures ScheduleFrom(balance, month, last, monthlyRate, basePayment, extraMonthly)
            == [AmortizationRow(month, balance * monthlyRate + principal, balance * monthlyRate, principal,
                                Max(balance - principal, 0.0))]
               + ScheduleFrom(balance - principal, month + 1, last, monthlyRate, basePayment, extraMonthly)
  {
  }

  /** The loop's invariant survives one month: the emitted row is the head of what remained to be scheduled. */
  lemma ScheduleLoopStep(schedule: seq<AmortizationRow>, balance: real, month: int, last: int, monthlyRate: real,
                         basePayment: real, extraMonthly: real, spec: seq<AmortizationRow>,
                         row: AmortizationRow, next: real)
    requires balance > 0.0 && month <= last
    requires row.month == month && row.interest == balance * monthlyRate
    requires row.principal == Min(basePayment + extraMonthly - row.interest, balance)
    requires row.payment == row.interest + row.principal
    requires next == balance - row.principal && row.balance == Max(next, 0.0)
    requires schedule + ScheduleFrom(balance, month, last, monthlyRate, basePayment, extraMonthly) == spec
    ensures (schedule + [row]) + ScheduleFrom(next, month + 1, last, monthlyRate, basePayment, extraMonthly) == spec
  {
    var rest := ScheduleFrom(next, month + 1, last, monthlyRate, basePayment, extraMonthly);
    ScheduleFromStep(balance, month, last, monthlyRate, basePayment, extraMonthly, row.principal);
    assert ScheduleFrom(balance, month, last, monthlyRate, basePayment, extraMonthly) == [row] + rest;
    assert (schedule + [row]) + rest == schedule + ([row] + rest);
  }

  /** At a non-negative rate, the interest a schedule charges adds up to a non-negative amount. */
  lemma {:induction false} ScheduleFromInterestNonNegative(balance: real, month: int, last: int, monthlyRate: real,
                                                           basePayment: real, extraMonthly: real)
    requires monthlyRate >= 0.0
    ensures SumInterest(ScheduleFrom(balance, month, last, monthlyRate, basePayment, extraMonthly)) >= 0.0
    decreases if month <= last then last - month + 1 else 0
  {
    if balance > 0.0 && month <= last {
      var principal := Min(basePayment + extraMonthly - balance * monthlyRate, balance);
      ScheduleFromStep(balance, month, last, monthlyRate, basePayment, extraMonthly, principal);
      ScheduleFromInterestNonNegative(balance - principal, month + 1, last, monthlyRate, basePayment, extraMonthly);
      var s := ScheduleFrom(balance, month, last, monthlyRate, basePayment, extraMonthly);
      assert s[1..] == ScheduleFrom(balance - principal, month + 1, last, monthlyRate, basePayment, extraMonthly);
      MulMonotone(0.0, balance, monthlyRate);
    }
  }

  /** A lower balance is charged no more interest at a non-negative rate. */
  lemma InterestMonotone(b1: real, b2: real, monthlyRate: real, interest1: real, interest2: real)
    requires b1 <= b2 && monthlyRate >= 0.0
    requires interest1 == b1 * monthlyRate && interest2 == b2 * monthlyRate
    ensures interest1 <= interest2
  {
    MulMonotone(b1, b2, monthlyRate);
  }

  /** The balance a month leaves, in terms of its interest: linear in the balance, interest and payment. */
  lemma NextBalanceMonotone(b1: real, b2: real, interest1: real, interest2: real, pay1: real, pay2: real)
    requires b1 <= b2 && interest1 <= interest2 && pay1 >= pay2
    ensures b1 - Min(pay1 - interest1, b1) <= b2 - Min(pay2 - interest2, b2)
  {
  }

  /** One month of a schedule, as the first row's contribution to its length and its interest. */
  lemma ScheduleFromUnfold(balance: real, month: int, last: int, monthlyRate: real,
                           basePayment: real, extraMonthly: real) returns (interest: real, principal: real)
    requires balance > 0.0 && month <= last
    ensures interest == balance * monthlyRate
    ensures principal == Min(basePayment + extraMonthly - interest, balance)
    ensures var s := ScheduleFrom(balance, month, last, monthlyRate, basePayment, extraMonthly);
            var rest := ScheduleFrom(balance - principal, month + 1, last, monthlyRate, basePayment, extraMonthly);
            |s| == 1 + |rest| && SumInterest(s) == interest + SumInterest(rest)
  {
    interest := balance * monthlyRate;
    principal := Min(basePayment + extraMonthly - interest, balance);
    ScheduleFromStep(balance, month, last, monthlyRate, basePayment, extraMonthly, principal);
    var s := ScheduleFrom(balance, month, last, monthlyRate, basePayment, extraMonthly);
    assert s[1..] == ScheduleFrom(balance - principal, month + 1, last, monthlyRate, basePayment, extraMonthly);
  }

  /**
   * Starting lower and paying more extra never lengthens the schedule or adds interest:
   * month by month the lower schedule's balance stays at or below the other's.
   */
  lemma {:induction false} ScheduleFromCompare(b1: real, b2: real, month: int, last: int, monthlyRate: real,
                                               basePayment: real, extra1: real, extra2: real)
    requires b1 <= b2 && extra1 >= extra2 && monthlyRate >= 0.0
    ensures var s1 := ScheduleFrom(b1, month, last, monthlyRate, basePayment, extra1);
            var s2 := ScheduleFrom(b2, month, last, monthlyRate, basePayment, extra2);
            |s1| <= |s2| && SumInterest(s1) <= SumInterest(s2)
    decreases if month <= last then last - month + 1 else 0
  {
    if b1 > 0.0 && month <= last {
      var i1, p1 := ScheduleFromUnfold(b1, month, last, monthlyRate, basePayment, extra1);
      var i2, p2 := ScheduleFromUnfold(b2, month, last, monthlyRate, basePayment, extra2);
      InterestMonotone(b1, b2, monthlyRate, i1, i2);
      NextBalanceMonotone(b1, b2, i1, i2, basePayment + extra1, basePayment + extra2);
      ScheduleFromCompare(b1 - p1, b2 - p2, month + 1, last, monthlyRate, basePayment, extra1, extra2);
    } else {
      ScheduleFromInterestNonNegative(b2, month, last, monthlyRate, basePayment, extra2);
    }
  }

  /**
   * A non-negative prepayment and extra monthly payment never make the schedule longer or
   * its total interest larger than the plain schedule of the same loan.
   */
  lemma PrepaymentNeverHurts(amount: real, rate: real, term: nat, extraMonthly: real, prepayments: real)
    requires ValidTerms(rate, term)
    requires extraMonthly >= 0.0 && prepayments >= 0.0
    ensures var plain := Amortization(amount, rate, term, 0.0, 0.0);
            var faster := Amortization(amount, rate, term, extraMonthly, prepayments);
            |faster| <= |plain| && SumInterest(faster) <= SumInterest(plain)
  {
    ScheduleFromCompare(amount - prepayments, amount - 0.0, 1, term * 12, MonthlyRate(rate),
                        CalculateLoan(amount, rate, term).monthlyPayment, extraMonthly, 0.0);
  }

  /** One month of a schedule, as the balance the schedule ends with. */
  lemma ScheduleFromLastStep(balance: real, month: int, last: int, monthlyRate: real,
                             basePayment: real, extraMonthly: real) returns (interest: real, principal: real)
    requires balance > 0.0 && month <= last
    ensures interest == balance * monthlyRate
    ensures principal == Min(basePayment + extraMonthly - interest, balance)
    ensures var s := ScheduleFrom(balance, month, last, monthlyRate, basePayment, extraMonthly);
            var rest := ScheduleFrom(balance - principal, month + 1, last, monthlyRate, basePayment, extraMonthly);
            && |s| == 1 + |rest|
            && LastBalance(s, balance)
               == if rest == [] then Max(balance - principal, 0.0) else LastBalance(rest, balance - principal)
  {
    interest := balance * monthlyRate;
    principal := Min(basePayment + extraMonthly - interest, balance);
    ScheduleFromStep(balance, month, last, monthlyRate, basePayment, extraMonthly, principal);
  }

  /**
   * Month by month, the schedule that starts lower and pays more extra owes no more: when the
   * two schedules have the same length, the first ends at a balance no higher than the second.
   */
  lemma {:induction false} ScheduleFromCompareLast(b1: real, b2: real, month: int, last: int, monthlyRate: real,
                                                   basePayment: real, extra1: real, extra2: real)
    requires b1 <= b2 && extra1 >= extra2 && monthlyRate >= 0.0
    ensures var s1 := ScheduleFrom(b1, month, last, monthlyRate, basePayment, extra1);
            var s2 := ScheduleFrom(b2, month, last, monthlyRate, basePayment, extra2);
            |s1| == |s2| ==> LastBalance(s1, b1) <= LastBalance(s2, b2)
    decreases if month <= last then last - month + 1 else 0
  {
    if b1 > 0.0 && month <= last {
      var i1, p1 := ScheduleFromLastStep(b1, month, last, monthlyRate, basePayment, extra1);
      var i2, p2 := ScheduleFromLastStep(b2, month, last, monthlyRate, basePayment, extra2);
      InterestMonotone(b1, b2, monthlyRate, i1, i2);
      NextBalanceMonotone(b1, b2, i1, i2, basePayment + extra1, basePayment + extra2);
      ScheduleFromCompareLast(b1 - p1, b2 - p2, month + 1, last, monthlyRate, basePayment, extra1, extra2);
    }
  }

  /**
   * A non-negative prepayment below the amount and a non-negative extra still retire the loan:
   * the schedule ends at balance 0, within the term.
   */
  lemma PrepaymentPaysOff(amount: real, rate: real, term: nat, extraMonthly: real, prepayments: real)
    requires ValidTerms(rate, term)
    requires extraMonthly >= 0.0 && 0.0 <= prepayments < amount
    ensures var faster := Amortization(amount, rate, term, extraMonthly, prepayments);
            1 <= |faster| <= term * 12 && faster[|faster| - 1].balance == 0.0
  {
    var faster := Amortization(amount, rate, term, extraMonthly, prepayments);
    AmortizationTelescopes(amount, rate, term, extraMonthly, prepayments);
    if |faster| == term * 12 {
      var plain := Amortization(amount, rate, term, 0.0, 0.0);
      AmortizationPaysOffOnTime(amount, rate, term);
      ScheduleFromCompareLast(amount - prepayments, amount - 0.0, 1, term * 12, MonthlyRate(rate),
                              CalculateLoan(amount, rate, term).monthlyPayment, extraMonthly, 0.0);
      assert LastBalance(plain, amount - 0.0) == 0.0;
      AmortizationRowsChain(amount, rate, term, extraMonthly, prepayments);
    }
  }

  /** A month that starts at balance b > 0 and, paying `pay`, ends at balance b1. */
  ghost predicate RepaysTo(b: real, pay: real, monthlyRate: real, b1: real) {
    b > 0.0 && b - Min(pay - b * monthlyRate, b) == b1
  }

  /** Every month from k on takes `balances[j]` to `balances[j+1]`. */
  ghost predicate Follows(balances: seq<real>, k: nat, pay: real, monthlyRate: real)
    decreases |balances| - k
  {
    k + 1 >= |balances|
    || (RepaysTo(balances[k], pay, monthlyRate, balances[k + 1]) && Follows(balances, k + 1, pay, monthlyRate))
  }

  /**
   * When a list of predicted balances agrees with the loop month by month (each positive
   * balance within the term steps to the next one), the schedule from month k+1 runs to
   * month n and ends at the last predicted balance.
   */
  lemma {:induction false} ScheduleFollows(balances: seq<real>, k: nat, n: nat, monthlyRate: real,
                                           basePayment: real, extraMonthly: real)
    requires |balances| == n + 1 && k <= n
    requires Follows(balances, k, basePayment + extraMonthly, monthlyRate)
    requires balances[n] >= 0.0
    ensures |ScheduleFrom(balances[k], k + 1, n, monthlyRate, basePayment, extraMonthly)| == n - k
    ensures LastBalance(ScheduleFrom(balances[k], k + 1, n, monthlyRate, basePayment, extraMonthly), balances[k])
            == balances[n]
    decreases n - k
  {
    if k < n {
      var b := balances[k];
      var principal := Min(basePayment + extraMonthly - b * monthlyRate, b);
      ScheduleFromStep(b, k + 1, n, monthlyRate, basePayment, extraMonthly, principal);
      ScheduleFollows(balances, k + 1, n, monthlyRate, basePayment, extraMonthly);
    }
  }

  /** The algebra of one month of the payoff schedule, with q^k = x and q^(k+1) = x1. */
  lemma PayoffAlgebra(c: real, mr: real, big: real, x: real, x1: real, b: real, b1: real, pay: real)
    requires c > 0.0 && mr > 0.0 && x > 0.0
    requires x1 == (1.0 + mr) * x && x1 <= big
    requires b == c * (big - x) && b1 == c * (big - x1) && pay == c * mr * big
    ensures RepaysTo(b, pay + 0.0, mr, b1)
  {
    assert x * mr > 0.0;
    assert big - x > 0.0;
    assert c * (big - x1) >= 0.0;
    var principal := c * mr * x;
    assert pay + 0.0 - b * mr == principal;
    assert principal <= b;
    assert Min(pay + 0.0 - b * mr, b) == principal;
    assert b - principal == c * (big - x1);
  }

  /** The powers of q = 1 + mr used by one month of the payoff schedule. */
  lemma PowStep(mr: real, k: nat, n: nat)
    requires mr > 0.0 && k < n
    ensures Pow(1.0 + mr, k) >= 1.0
    ensures Pow(1.0 + mr, k + 1) == (1.0 + mr) * Pow(1.0 + mr, k)
    ensures Pow(1.0 + mr, k + 1) <= Pow(1.0 + mr, n)
  {
    PowAtLeastOne(1.0 + mr, k);
    if k + 1 < n {
      PowIncreasing(1.0 + mr, k + 1, n);
    }
  }

  /** The balance after j months of an n-month annuity, `c * (q^n - q^j)` with q = 1 + mr. */
  function ClosedBalance(c: real, mr: real, n: nat, j: nat): real {
    c * (Pow(1.0 + mr, n) - Pow(1.0 + mr, j))
  }

  ghost predicate ClosedFormBalances(balances: seq<real>, c: real, mr: real, n: nat) {
    |balances| == n + 1
    && forall j :: 0 <= j <= n ==> balances[j] == ClosedBalance(c, mr, n, j)
  }

  lemma ClosedForm(c: real, mr: real, n: nat) returns (balances: seq<real>)
    ensures ClosedFormBalances(balances, c, mr, n)
  {
    balances := seq(n + 1, j requires 0 <= j <= n => ClosedBalance(c, mr, n, j));
  }

  /** Entry j of closed-form balances, written out. */
  lemma ClosedBalanceAt(balances: seq<real>, c: real, mr: real, n: nat, j: nat)
    requires ClosedFormBalances(balances, c, mr, n) && j <= n
    ensures balances[j] == c * (Pow(1.0 + mr, n) - Pow(1.0 + mr, j))
  {
    assert balances[j] == ClosedBalance(c, mr, n, j);
  }

  /**
   * Paying exactly `c * mr * q^n` a month (q = 1 + mr) takes the balance `c * (q^n - q^k)`
   * to `c * (q^n - q^(k+1))`.
   */
  lemma AnnuityStep(c: real, mr: real, n: nat, pay: real, k: nat, b: real, b1: real)
    requires c > 0.0 && mr > 0.0 && k < n
    requires pay == c * mr * Pow(1.0 + mr, n)
    requires b == c * (Pow(1.0 + mr, n) - Pow(1.0 + mr, k))
    requires b1 == c * (Pow(1.0 + mr, n) - Pow(1.0 + mr, k + 1))
    ensures RepaysTo(b, pay + 0.0, mr, b1)
  {
    var big, x, x1 := Pow(1.0 + mr, n), Pow(1.0 + mr, k), Pow(1.0 + mr, k + 1);
    PowStep(mr, k, n);
    PayoffAlgebra(c, mr, big, x, x1, b, b1, pay);
  }

  /** The same step on closed-form balances. */
  lemma AnnuityMonth(c: real, mr: real, n: nat, pay: real, balances: seq<real>, k: nat)
    requires c > 0.0 && mr > 0.0 && k < n
    requires pay == c * mr * Pow(1.0 + mr, n)
    requires ClosedFormBalances(balances, c, mr, n)
    ensures RepaysTo(balances[k], pay + 0.0, mr, balances[k + 1])
  {
    ClosedBalanceAt(balances, c, mr, n, k);
    ClosedBalanceAt(balances, c, mr, n, k + 1);
    AnnuityStep(c, mr, n, pay, k, balances[k], balances[k + 1]);
  }

  /** The same, for every month from k on. */
  lemma {:induction false} AnnuityFollows(c: real, mr: real, n: nat, pay: real, balances: seq<real>, k: nat)
    requires c > 0.0 && mr > 0.0 && k <= n
    requires pay == c * mr * Pow(1.0 + mr, n)
    requires ClosedFormBalances(balances, c, mr, n)
    ensures Follows(balances, k, pay + 0.0, mr)
    decreases n - k
  {
    if k < n {
      AnnuityMonth(c, mr, n, pay, balances, k);
      AnnuityFollows(c, mr, n, pay, balances, k + 1);
    }
  }

  /** The annuity payment is `c * mr * q^n` for the `c` with `amount == c * (q^n - 1)`. */
  lemma PaymentClosedForm(amount: real, rate: real, term: nat) returns (c: real)
    requires ValidTerms(rate, term)
    requires amount > 0.0
    ensures c > 0.0 && MonthlyRate(rate) > 0.0
    ensures amount == c * (Pow(1.0 + MonthlyRate(rate), term * 12) - 1.0)
    ensures CalculateLoan(amount, rate, term).monthlyPayment
            == c * MonthlyRate(rate) * Pow(1.0 + MonthlyRate(rate), term * 12)
  {
    var mr := MonthlyRate(rate);
    var big := Pow(1.0 + mr, term * 12);
    PowIncreasing(1.0 + mr, 0, term * 12);
    c := amount / (big - 1.0);
    assert amount == c * (big - 1.0);
    assert CalculateLoan(amount, rate, term).monthlyPayment == amount * mr * big / (big - 1.0);
  }

  /**
   * Without extra payments or prepayment, the annuity payment of `calculateLoan` retires a
   * positive loan exactly: the schedule has term*12 rows and the last one ends at balance 0.
   */
  lemma AmortizationPaysOffOnTime(amount: real, rate: real, term: nat)
    requires ValidTerms(rate, term)
    requires amount > 0.0
    ensures var s := Amortization(amount, rate, term, 0.0, 0.0);
            |s| == term * 12 && s[|s| - 1].balance == 0.0
  {
    var mr := MonthlyRate(rate);
    var n := term * 12;
    var c := PaymentClosedForm(amount, rate, term);
    var pay := CalculateLoan(amount, rate, term).monthlyPayment;
    var balances := ClosedForm(c, mr, n);
    AnnuityFollows(c, mr, n, pay, balances, 0);
    assert balances[0] == ClosedBalance(c, mr, n, 0) == amount - 0.0;
    assert balances[n] == ClosedBalance(c, mr, n, n) == 0.0;
    ScheduleFollows(balances, 0, n, mr, pay, 0.0);
  }
}
