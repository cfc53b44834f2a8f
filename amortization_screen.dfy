/**
 * The amortization screen (screens/AmortizationScreen.tsx): it folds a loan's saved prepayment
 * scenarios into the arguments of the schedule generator, names the schedule after the
 * scenarios, lines up the schedules of all saved loans month by month into one combined
 * schedule, and sums a schedule into the summary totals.
 */
module AmortizationScreen {
  import opened LoanTypes
  import opened Lists
  import opened LoanMath

  // ---------------------------------------------------------------------------------------
  // Scenario totals (`calculateTotalPrepayments`)

  /** `scenarios.reduce((sum, s) => sum + s.extraMonthly, 0)`: 0 for no scenarios. */
  function SumExtraMonthly(s: seq<PrepaymentScenario>): (r: real)
    ensures s == [] ==> r == 0.0
  {
    if s == [] then 0.0 else SumExtraMonthly(s[..|s| - 1]) + s[|s| - 1].extraMonthly
  }

  /** `scenarios.reduce((sum, s) => sum + s.prepayments, 0)`: 0 for no scenarios. */
  function SumPrepayments(s: seq<PrepaymentScenario>): (r: real)
    ensures s == [] ==> r == 0.0
  {
    if s == [] then 0.0 else SumPrepayments(s[..|s| - 1]) + s[|s| - 1].prepayments
  }

  lemma {:induction false} SumsAppend(a: seq<PrepaymentScenario>, b: seq<PrepaymentScenario>)
    ensures SumExtraMonthly(a + b) == SumExtraMonthly(a) + SumExtraMonthly(b)
    ensures SumPrepayments(a + b) == SumPrepayments(a) + SumPrepayments(b)
    decreases |b|
  {
    if b == [] {
      assert a + b == a;
    } else {
      assert (a + b)[..|a + b| - 1] == a + b[..|b| - 1];
      SumsAppend(a, b[..|b| - 1]);
    }
  }

  /** Scenarios with non-negative amounts sum to non-negative totals. */
  lemma {:induction false} SumsNonNegative(s: seq<PrepaymentScenario>)
    ensures (forall i :: 0 <= i < |s| ==> s[i].extraMonthly >= 0.0) ==> SumExtraMonthly(s) >= 0.0
    ensures (forall i :: 0 <= i < |s| ==> s[i].prepayments >= 0.0) ==> SumPrepayments(s) >= 0.0
  {
    if s != [] {
      SumsNonNegative(s[..|s| - 1]);
    }
  }

  datatype ScenarioTotals = ScenarioTotals(totalExtraMonthly: real, totalPrepayments: real)

  /** The scenarios saved for one loan, in the order they were saved. */
  function ScenariosOf(all: seq<PrepaymentScenario>, loanId: string): (mine: seq<PrepaymentScenario>)
    ensures |mine| <= |all|
    ensures forall x :: x in mine <==> x in all && x.loanId == loanId
  {
    Keep(all, ScenarioLoanId, loanId)
  }

  /** `calculateTotalPrepayments(loanId)`: the extra monthly and upfront amounts of the loan's scenarios, summed. */
  function TotalPrepayments(all: seq<PrepaymentScenario>, loanId: string): (t: ScenarioTotals)
    ensures all == [] ==> t == ScenarioTotals(0.0, 0.0)
  {
    var mine := ScenariosOf(all, loanId);
    ScenarioTotals(SumExtraMonthly(mine), SumPrepayments(mine))
  }

  /** The totals over two lists of scenarios add up. */
  lemma TotalPrepaymentsAppend(a: seq<PrepaymentScenario>, b: seq<PrepaymentScenario>, loanId: string)
    ensures var t := TotalPrepayments(a + b, loanId);
            var ta := TotalPrepayments(a, loanId);
            var tb := TotalPrepayments(b, loanId);
            && t.totalExtraMonthly == ta.totalExtraMonthly + tb.totalExtraMonthly
            && t.totalPrepayments == ta.totalPrepayments + tb.totalPrepayments
  {
    KeepAppend(a, b, ScenarioLoanId, loanId);
    SumsAppend(ScenariosOf(a, loanId), ScenariosOf(b, loanId));
  }

  /** Scenarios of other loans contribute nothing. */
  lemma TotalPrepaymentsOtherLoans(all: seq<PrepaymentScenario>, loanId: string)
    requires forall i :: 0 <= i < |all| ==> all[i].loanId != loanId
    ensures ScenariosOf(all, loanId) == []
    ensures TotalPrepayments(all, loanId) == ScenarioTotals(0.0, 0.0)
  {
    KeepNone(all, ScenarioLoanId, loanId);
  }

  /** A scenario saved for the loan adds its own amounts; one saved for another loan adds nothing. */
  lemma TotalPrepaymentsAddScenario(all: seq<PrepaymentScenario>, x: PrepaymentScenario, loanId: string)
    ensures var t := TotalPrepayments(all + [x], loanId);
            var t0 := TotalPrepayments(all, loanId);
            if x.loanId == loanId
            then t == ScenarioTotals(t0.totalExtraMonthly + x.extraMonthly, t0.totalPrepayments + x.prepayments)
            else t == t0
  {
    TotalPrepaymentsAppend(all, [x], loanId);
    assert [x][1..] == [];
    assert Keep([x], ScenarioLoanId, loanId) == if x.loanId == loanId then [x] else [];
    assert [x][..0] == [];
    assert SumExtraMonthly([x]) == x.extraMonthly && SumPrepayments([x]) == x.prepayments;
  }

  // ---------------------------------------------------------------------------------------
  // The generator's arguments (`generateScheduleForLoan`, and each loan of the combined view)

  /** A saved loan the annuity formula is defined for. */
  predicate ValidLoan(l: Loan) {
    ValidTerms(l.rate, l.term)
  }

  datatype GeneratorArgs = GeneratorArgs(amount: real, rate: real, term: nat, extraMonthly: real, prepayments: real)

  /**
   * The loan's own extra monthly payment and prepayment (an absent one counts as 0) plus the
   * totals of its scenarios.
   */
  function ScheduleArgs(loan: Loan, all: seq<PrepaymentScenario>): (g: GeneratorArgs)
    ensures g.amount == loan.amount && g.rate == loan.rate && g.term == loan.term
    ensures ScenariosOf(all, loan.id) == [] ==>
              g.extraMonthly == OrZero(loan.extraMonthly) && g.prepayments == OrZero(loan.prepayments)
  {
    var t := TotalPrepayments(all, loan.id);
    GeneratorArgs(loan.amount, loan.rate, loan.term,
                  OrZero(loan.extraMonthly) + t.totalExtraMonthly,
                  OrZero(loan.prepayments) + t.totalPrepayments)
  }

  /** The schedule shown for one loan. */
  function LoanSchedule(loan: Loan, all: seq<PrepaymentScenario>): (s: seq<AmortizationRow>)
    requires ValidLoan(loan)
    ensures |s| <= loan.term * 12
    ensures forall i :: 0 <= i < |s| ==> s[i].month == i + 1
    ensures ScheduleArgs(loan, all).prepayments >= loan.amount ==> s == []
  {
    var g := ScheduleArgs(loan, all);
    Amortization(g.amount, g.rate, g.term, g.extraMonthly, g.prepayments)
  }

  /** A loan without scenarios is scheduled with its own extra payment and prepayment only. */
  lemma LoanScheduleWithoutScenarios(loan: Loan, all: seq<PrepaymentScenario>)
    requires ValidLoan(loan)
    requires forall i :: 0 <= i < |all| ==> all[i].loanId != loan.id
    ensures LoanSchedule(loan, all)
            == Amortization(loan.amount, loan.rate, loan.term, OrZero(loan.extraMonthly), OrZero(loan.prepayments))
  {
    TotalPrepaymentsOtherLoans(all, loan.id);
    assert OrZero(loan.extraMonthly) + 0.0 == OrZero(loan.extraMonthly);
    assert OrZero(loan.prepayments) + 0.0 == OrZero(loan.prepayments);
  }

  /**
   * Saving a scenario for the loan adds its amounts to the generator's extra payment and
   * prepayment; saving one for another loan leaves the loan's schedule as it was.
   */
  lemma ScheduleArgsAddScenario(loan: Loan, all: seq<PrepaymentScenario>, x: PrepaymentScenario)
    ensures var g := ScheduleArgs(loan, all + [x]);
            var g0 := ScheduleArgs(loan, all);
            if x.loanId == loan.id
            then g == g0.(extraMonthly := g0.extraMonthly + x.extraMonthly, prepayments := g0.prepayments + x.prepayments)
            else g == g0
  {
    TotalPrepaymentsAddScenario(all, x, loan.id);
  }

  /** With non-negative amounts on the loan and its scenarios, the generator gets non-negative extras. */
  lemma ScheduleArgsNonNegative(loan: Loan, all: seq<PrepaymentScenario>)
    requires OrZero(loan.extraMonthly) >= 0.0 && OrZero(loan.prepayments) >= 0.0
    requires forall i :: 0 <= i < |all| ==> all[i].extraMonthly >= 0.0 && all[i].prepayments >= 0.0
    ensures ScheduleArgs(loan, all).extraMonthly >= 0.0 && ScheduleArgs(loan, all).prepayments >= 0.0
  {
    var mine := ScenariosOf(all, loan.id);
    forall i | 0 <= i < |mine|
      ensures mine[i].extraMonthly >= 0.0 && mine[i].prepayments >= 0.0
    {
      assert mine[i] in mine;
    }
    SumsNonNegative(mine);
  }

  /** The schedules of the combined view, one per saved loan, in the order of the saved loans. */
  function LoanSchedules(loans: seq<Loan>, all: seq<PrepaymentScenario>): (ss: seq<seq<AmortizationRow>>)
    requires forall i :: 0 <= i < |loans| ==> ValidLoan(loans[i])
    ensures |ss| == |loans|
    ensures forall i :: 0 <= i < |loans| ==> ss[i] == LoanSchedule(loans[i], all)
  {
    seq(|loans|, i requires 0 <= i < |loans| => LoanSchedule(loans[i], all))
  }

  // ---------------------------------------------------------------------------------------
  // The schedule's title

  function ScenarioNames(s: seq<PrepaymentScenario>): (names: seq<string>)
    ensures |names| == |s| && forall i :: 0 <= i < |s| ==> names[i] == s[i].name
  {
    seq(|s|, i requires 0 <= i < |s| => s[i].name)
  }

  /**
   * The name shown above a single loan's schedule: the loan's name, followed by its scenarios'
   * names in parentheses when it has any.
   */
  function DisplayName(loan: Loan, all: seq<PrepaymentScenario>): (r: string)
    ensures loan.name <= r
    ensures r == loan.name <==> ScenariosOf(all, loan.id) == []
  {
    var mine := ScenariosOf(all, loan.id);
    if |mine| == 1 then loan.name + " (" + mine[0].name + ")"
    else if |mine| > 1 then loan.name + " (" + Join(ScenarioNames(mine), ", ") + ")"
    else loan.name
  }

  /** The one-scenario case is the general case: the names joined with ", " in list order. */
  lemma DisplayNameJoinsScenarioNames(loan: Loan, all: seq<PrepaymentScenario>)
    ensures var mine := ScenariosOf(all, loan.id);
            DisplayName(loan, all)
            == if mine == [] then loan.name else loan.name + " (" + Join(ScenarioNames(mine), ", ") + ")"
  {
    var mine := ScenariosOf(all, loan.id);
    if |mine| == 1 {
      assert Join(ScenarioNames(mine), ", ") == mine[0].name;
    }
  }

  /** The title of the combined view: the number of loans, and of scenarios when there are any. */
  function CombinedTitle(loanCount: nat, scenarioCount: nat): (r: string)
    ensures "Combined (" <= r && r[|r| - 1] == ')'
  {
    if scenarioCount > 0
    then "Combined (" + NatToString(loanCount) + " loans, " + NatToString(scenarioCount) + " scenarios)"
    else "Combined (" + NatToString(loanCount) + " loans)"
  }

  // ---------------------------------------------------------------------------------------
  // The combined schedule (`generateCombinedSchedule`)

  /** `schedule.find(row => row.month === month)`: the first row of that month, if any. */
  function FindMonth(s: seq<AmortizationRow>, month: int): (r: Option<AmortizationRow>)
    ensures r.Some? ==> exists i :: 0 <= i < |s| && s[i] == r.value && r.value.month == month
                                    && forall j :: 0 <= j < i ==> s[j].month != month
    ensures r.None? ==> forall i :: 0 <= i < |s| ==> s[i].month != month
  {
    if s == [] then None
    else if s[0].month == month then Some(s[0])
    else
      var r := FindMonth(s[1..], month);
      assert forall i :: 1 <= i < |s| ==> s[i] == s[1..][i - 1];
      r
  }

  /** In a schedule whose months run 1, 2, 3, ..., month m is its m-th row. */
  lemma FindMonthConsecutive(s: seq<AmortizationRow>, month: int)
    requires forall i :: 0 <= i < |s| ==> s[i].month == i + 1
    ensures FindMonth(s, month) == if 1 <= month <= |s| then Some(s[month - 1]) else None
  {
  }

  function ZeroRow(month: int): AmortizationRow {
    AmortizationRow(month, 0.0, 0.0, 0.0, 0.0)
  }

  /** Adds a row's payment, interest, principal and balance to the running totals of a month. */
  function AddRow(acc: AmortizationRow, r: AmortizationRow): AmortizationRow {
    AmortizationRow(acc.month, acc.payment + r.payment, acc.interest + r.interest,
                    acc.principal + r.principal, acc.balance + r.balance)
  }

  /** What one schedule adds to the totals of a month: its row of that month, or nothing. */
  function Contribution(s: seq<AmortizationRow>, month: int): AmortizationRow {
    match FindMonth(s, month)
    case Some(r) => r
    case None => ZeroRow(month)
  }

  /** The totals of one month over the schedules, accumulated in the order of the schedules. */
  function MonthTotals(ss: seq<seq<AmortizationRow>>, month: int): (t: AmortizationRow)
    ensures t.month == month
  {
    if ss == [] then ZeroRow(month)
    else AddRow(MonthTotals(ss[..|ss| - 1], month), Contribution(ss[|ss| - 1], month))
  }

  /** A month that no schedule has totals zero in every field. */
  lemma {:induction false} MonthTotalsOfMissingMonth(ss: seq<seq<AmortizationRow>>, month: int)
    requires forall i :: 0 <= i < |ss| ==> FindMonth(ss[i], month).None?
    ensures MonthTotals(ss, month) == ZeroRow(month)
  {
    if ss != [] {
      var init := ss[..|ss| - 1];
      assert forall i :: 0 <= i < |init| ==> init[i] == ss[i];
      MonthTotalsOfMissingMonth(init, month);
    }
  }

  /** A month is shown when its total payment or its total balance is positive. */
  predicate Emits(t: AmortizationRow) {
    t.payment > 0.0 || t.balance > 0.0
  }

  /** `Math.max(...schedules.map(s => s.length))`, and 0 for no schedules. */
  function MaxLen(ss: seq<seq<AmortizationRow>>): (r: nat)
    ensures forall i :: 0 <= i < |ss| ==> |ss[i]| <= r
    ensures ss != [] ==> exists i :: 0 <= i < |ss| && |ss[i]| == r
    ensures ss == [] ==> r == 0
  {
    if ss == [] then 0
    else
      var m := MaxLen(ss[..|ss| - 1]);
      var last := |ss[|ss| - 1]|;
      assert forall i :: 0 <= i < |ss| - 1 ==> ss[i] == ss[..|ss| - 1][i];
      if last > m then last else m
  }

  /**
   * The combined rows of months 1..k: a month's totals are emitted, in month order, when they
   * have a positive payment or balance.
   */
  function CombinedUpTo(ss: seq<seq<AmortizationRow>>, k: nat): (c: seq<AmortizationRow>)
    ensures |c| <= k
    ensures forall i :: 0 <= i < |c| ==> 1 <= c[i].month <= k
    ensures forall i, j :: 0 <= i < j < |c| ==> c[i].month < c[j].month
    ensures forall i :: 0 <= i < |c| ==> c[i] == MonthTotals(ss, c[i].month) && Emits(c[i])
  {
    if k == 0 then []
    else
      var t := MonthTotals(ss, k);
      CombinedUpTo(ss, k - 1) + if Emits(t) then [t] else []
  }

  /** The combined schedule of the saved loans' schedules. */
  function Combined(ss: seq<seq<AmortizationRow>>): (c: seq<AmortizationRow>)
    ensures |c| <= MaxLen(ss)
    ensures forall i :: 0 <= i < |c| ==> 1 <= c[i].month <= MaxLen(ss)
    ensures forall i, j :: 0 <= i < j < |c| ==> c[i].month < c[j].month
    ensures forall i :: 0 <= i < |c| ==> c[i] == MonthTotals(ss, c[i].month) && Emits(c[i])
  {
    CombinedUpTo(ss, MaxLen(ss))
  }

  /** A month in 1..k appears among the combined rows exactly when its totals are emitted. */
  lemma {:induction false} CombinedEmitsExactly(ss: seq<seq<AmortizationRow>>, k: nat, month: int)
    requires 1 <= month <= k
    ensures (exists i :: 0 <= i < |CombinedUpTo(ss, k)| && CombinedUpTo(ss, k)[i].month == month)
            <==> Emits(MonthTotals(ss, month))
  {
    var c := CombinedUpTo(ss, k);
    var prev := CombinedUpTo(ss, k - 1);
    assert forall i :: 0 <= i < |prev| ==> c[i] == prev[i];
    if month == k {
      if Emits(MonthTotals(ss, k)) {
        assert c[|c| - 1].month == month;
      }
    } else {
      CombinedEmitsExactly(ss, k - 1, month);
      if !Emits(MonthTotals(ss, k)) {
        assert c == prev;
      }
    }
  }

  /**
   * The combined view's contract: months strictly increase within 1..maxLen, there are at most
   * maxLen rows, each row holds the totals of its month, and a month appears exactly when
   * its total payment or total balance is positive.
   */
  lemma CombinedSpec(ss: seq<seq<AmortizationRow>>)
    ensures var c := Combined(ss);
            && |c| <= MaxLen(ss)
            && (forall i :: 0 <= i < |c| ==> 1 <= c[i].month <= MaxLen(ss))
            && (forall i, j :: 0 <= i < j < |c| ==> c[i].month < c[j].month)
            && (forall i :: 0 <= i < |c| ==> c[i] == MonthTotals(ss, c[i].month))
            && (forall m :: 1 <= m <= MaxLen(ss) ==>
                  ((exists i :: 0 <= i < |c| && c[i].month == m) <==> Emits(MonthTotals(ss, m))))
  {
    var c := Combined(ss);
    assert c == CombinedUpTo(ss, MaxLen(ss));
    forall m | 1 <= m <= MaxLen(ss)
      ensures (exists i :: 0 <= i < |c| && c[i].month == m) <==> Emits(MonthTotals(ss, m))
    {
      CombinedEmitsExactly(ss, MaxLen(ss), m);
    }
  }

  /** Combining a single schedule whose months run 1, 2, 3, ... and whose payments are positive returns it. */
  lemma CombineSingle(s: seq<AmortizationRow>)
    requires forall i :: 0 <= i < |s| ==> s[i].month == i + 1 && s[i].payment > 0.0
    ensures Combined([s]) == s
  {
    assert MaxLen([s]) == |s|;
    CombineSinglePrefix(s, |s|);
    assert s[..|s|] == s;
  }

  lemma {:induction false} CombineSinglePrefix(s: seq<AmortizationRow>, k: nat)
    requires forall i :: 0 <= i < |s| ==> s[i].month == i + 1 && s[i].payment > 0.0
    requires k <= |s|
    ensures CombinedUpTo([s], k) == s[..k]
  {
    if k > 0 {
      CombineSinglePrefix(s, k - 1);
      FindMonthConsecutive(s, k);
      assert [s][..0] == [];
      assert MonthTotals([s], k) == AddRow(ZeroRow(k), s[k - 1]);
      assert AddRow(ZeroRow(k), s[k - 1]) == s[k - 1];
      assert s[..k] == s[..k - 1] + [s[k - 1]];
    }
  }

  // Permuting the schedules does not change the combined rows.

  /** Adding two rows to a total in either order gives the same total. */
  lemma AddRowSwap(acc: AmortizationRow, r1: AmortizationRow, r2: AmortizationRow)
    ensures AddRow(AddRow(acc, r1), r2) == AddRow(AddRow(acc, r2), r1)
  {
  }

  /** Taking one schedule out of the totals and adding it back gives the same totals. */
  lemma {:induction false} MonthTotalsRemove(ss: seq<seq<AmortizationRow>>, i: nat, month: int)
    requires i < |ss|
    ensures MonthTotals(ss, month) == AddRow(MonthTotals(RemoveAt(ss, i), month), Contribution(ss[i], month))
    decreases |ss|
  {
    var init := ss[..|ss| - 1];
    if i == |ss| - 1 {
      assert RemoveAt(ss, i) == init;
    } else {
      var last := ss[|ss| - 1];
      var rest := RemoveAt(ss, i);
      MonthTotalsRemove(init, i, month);
      assert rest == RemoveAt(init, i) + [last];
      assert rest[..|rest| - 1] == RemoveAt(init, i) && rest[|rest| - 1] == last;
      assert init[i] == ss[i];
      AddRowSwap(MonthTotals(RemoveAt(init, i), month), Contribution(ss[i], month), Contribution(last, month));
    }
  }

  lemma {:induction false} MonthTotalsPermutation(a: seq<seq<AmortizationRow>>, b: seq<seq<AmortizationRow>>, month: int)
    requires multiset(a) == multiset(b)
    ensures MonthTotals(a, month) == MonthTotals(b, month)
    decreases |b|
  {
    if b != [] {
      var x := b[|b| - 1];
      var binit := b[..|b| - 1];
      assert b == binit + [x];
      var i := RemoveMatching(a, binit, x);
      MonthTotalsPermutation(RemoveAt(a, i), binit, month);
      MonthTotalsRemove(a, i, month);
    } else {
      assert |a| == |multiset(a)| == |multiset(b)| == 0;
    }
  }

  lemma MaxLenPermutation(a: seq<seq<AmortizationRow>>, b: seq<seq<AmortizationRow>>)
    requires multiset(a) == multiset(b)
    ensures MaxLen(a) == MaxLen(b)
  {
    if a != [] {
      assert b != [] by { assert |a| == |multiset(a)| == |multiset(b)| == |b|; }
      var i :| 0 <= i < |a| && |a[i]| == MaxLen(a);
      assert a[i] in multiset(b);
      var j :| 0 <= j < |b| && |b[j]| == MaxLen(b);
      assert b[j] in multiset(a);
    } else {
      assert b == [] by { assert |b| == |multiset(b)| == 0; }
    }
  }

  lemma {:induction false} CombinedUpToPermutation(a: seq<seq<AmortizationRow>>, b: seq<seq<AmortizationRow>>, k: nat)
    requires multiset(a) == multiset(b)
    ensures CombinedUpTo(a, k) == CombinedUpTo(b, k)
  {
    if k > 0 {
      CombinedUpToPermutation(a, b, k - 1);
      MonthTotalsPermutation(a, b, k);
    }
  }

  /** The combined schedule does not depend on the order of the schedules. */
  lemma CombinedPermutation(a: seq<seq<AmortizationRow>>, b: seq<seq<AmortizationRow>>)
    requires multiset(a) == multiset(b)
    ensures Combined(a) == Combined(b)
  {
    MaxLenPermutation(a, b);
    CombinedUpToPermutation(a, b, MaxLen(a));
  }

  /** One more schedule adds its contribution to the running totals. */
  lemma MonthTotalsStep(ss: seq<seq<AmortizationRow>>, j: nat, month: int)
    requires j < |ss|
    ensures MonthTotals(ss[..j + 1], month) == AddRow(MonthTotals(ss[..j], month), Contribution(ss[j], month))
  {
    assert ss[..j + 1][..j] == ss[..j];
  }

  /** One more month adds its totals to the combined rows when they are emitted. */
  lemma CombinedUpToStep(ss: seq<seq<AmortizationRow>>, k: nat)
    requires k > 0
    ensures CombinedUpTo(ss, k)
            == CombinedUpTo(ss, k - 1) + if Emits(MonthTotals(ss, k)) then [MonthTotals(ss, k)] else []
  {
  }

  /** The inner loop of `generateCombinedSchedule`: one month's row of every schedule that has that month, summed field by field. */
  method TotalsForMonth(ss: seq<seq<AmortizationRow>>, month: int) returns (totals: AmortizationRow)
    ensures totals == MonthTotals(ss, month)
  {
    var totalPayment, totalInterest, totalPrincipal, totalBalance := 0.0, 0.0, 0.0, 0.0;
    var j := 0;
    while j < |ss|
      invariant 0 <= j <= |ss|
      invariant AmortizationRow(month, totalPayment, totalInterest, totalPrincipal, totalBalance)
                == MonthTotals(ss[..j], month)
    {
      MonthTotalsStep(ss, j, month);
      var monthData := FindMonth(ss[j], month);
      if monthData.Some? {
        totalPayment := totalPayment + monthData.value.payment;
        totalInterest := totalInterest + monthData.value.interest;
        totalPrincipal := totalPrincipal + monthData.value.principal;
        totalBalance := totalBalance + monthData.value.balance;
      }
      j := j + 1;
    }
    assert ss[..|ss|] == ss;
    totals := AmortizationRow(month, totalPayment, totalInterest, totalPrincipal, totalBalance);
  }

  /** The outer loop of `generateCombinedSchedule`: month by month up to the longest schedule, pushing the months whose totals are emitted. */
  method CombineSchedules(ss: seq<seq<AmortizationRow>>) returns (combined: seq<AmortizationRow>)
    ensures combined == Combined(ss)
  {
    var maxPayments := MaxLen(ss);
    combined := [];
    var month := 1;
    while month <= maxPayments
      invariant 1 <= month <= maxPayments + 1
      invariant combined == CombinedUpTo(ss, month - 1)
    {
      var totals := TotalsForMonth(ss, month);
      CombinedUpToStep(ss, month);
      if totals.payment > 0.0 || totals.balance > 0.0 {
        combined := combined + [totals];
      }
      month := month + 1;
    }
  }

  /**
   * The combined view of a single saved loan is that loan's own schedule, when the loan has a
   * positive rate and non-negative extra payments and prepayments.
   */
  lemma CombinedSingleLoan(loan: Loan, all: seq<PrepaymentScenario>)
    requires ValidLoan(loan)
    requires OrZero(loan.extraMonthly) >= 0.0 && OrZero(loan.prepayments) >= 0.0
    requires forall i :: 0 <= i < |all| ==> all[i].extraMonthly >= 0.0 && all[i].prepayments >= 0.0
    ensures Combined(LoanSchedules([loan], all)) == LoanSchedule(loan, all)
  {
    var g := ScheduleArgs(loan, all);
    ScheduleArgsNonNegative(loan, all);
    var s := LoanSchedule(loan, all);
    AmortizationPaymentsPositive(g.amount, g.rate, g.term, g.extraMonthly, g.prepayments);
    CombineSingle(s);
    assert LoanSchedules([loan], all) == [s];
  }

  // ---------------------------------------------------------------------------------------
  // Summary totals

  datatype Summary = Summary(months: nat, totalCost: real, totalInterest: real)

  /** The summary under a schedule: its row count, and the sums of its payments and of its interest. */
  function Summarize(s: seq<AmortizationRow>): (sum: Summary)
    ensures sum.months == |s|
    ensures s == [] ==> sum == Summary(0, 0.0, 0.0)
    ensures (forall i :: 0 <= i < |s| ==> s[i].payment >= 0.0) ==> sum.totalCost >= 0.0
  {
    SumsOfNonNegativeRows(s);
    Summary(|s|, SumPayment(s), SumInterest(s))
  }

  /**
   * For a loan's schedule, total cost is total interest plus the principal repaid, which is
   * what was owed after the prepayment less what is still owed at the end; a schedule that
   * runs short of the term has repaid everything.
   */
  lemma SummaryAccountsForPrincipal(amount: real, rate: real, term: nat, extraMonthly: real, prepayments: real)
    requires ValidTerms(rate, term)
    ensures var s := Amortization(amount, rate, term, extraMonthly, prepayments);
            var sum := Summarize(s);
            && sum.months <= term * 12
            && sum.totalCost == sum.totalInterest + (amount - prepayments) - LastBalance(s, amount - prepayments)
            && (0 < sum.months < term * 12 ==> sum.totalCost == sum.totalInterest + (amount - prepayments))
  {
    AmortizationTelescopes(amount, rate, term, extraMonthly, prepayments);
  }

  /** Without extras, the summary of a positive loan shows the full term and a cost of the amount plus interest. */
  lemma SummaryOfPlainLoan(amount: real, rate: real, term: nat)
    requires ValidTerms(rate, term) && amount > 0.0
    ensures var sum := Summarize(Amortization(amount, rate, term, 0.0, 0.0));
            sum.months == term * 12 && sum.totalCost == sum.totalInterest + amount
  {
    AmortizationPaysOffOnTime(amount, rate, term);
    AmortizationTelescopes(amount, rate, term, 0.0, 0.0);
  }

  // ---------------------------------------------------------------------------------------
  // The screen's state

  /** The part of the screen's state the schedule operations read and write. */
  class AmortizationView {
    var savedLoans: seq<Loan>
    var allPrepaymentScenarios: seq<PrepaymentScenario>
    var currentSchedule: seq<AmortizationRow>
    var currentLoanName: string

    constructor (loans: seq<Loan>, scenarios: seq<PrepaymentScenario>)
      ensures savedLoans == loans && allPrepaymentScenarios == scenarios
      ensures currentSchedule == [] && currentLoanName == ""
    {
      savedLoans := loans;
      allPrepaymentScenarios := scenarios;
      currentSchedule := [];
      currentLoanName := "";
    }

    /** Every saved loan has a positive rate and a term of at least one year. */
    predicate Valid()
      reads this
    {
      forall i :: 0 <= i < |savedLoans| ==> ValidLoan(savedLoans[i])
    }

    /** Runs the generator with the loan's arguments. */
    static method ScheduleForLoan(loan: Loan, all: seq<PrepaymentScenario>) returns (schedule: seq<AmortizationRow>)
      requires ValidLoan(loan)
      ensures schedule == LoanSchedule(loan, all)
    {
      var totals := TotalPrepayments(all, loan.id);
      var finalExtraMonthly := OrZero(loan.extraMonthly) + totals.totalExtraMonthly;
      var finalPrepayments := OrZero(loan.prepayments) + totals.totalPrepayments;
      schedule := GenerateAmortization(loan.amount, loan.rate, loan.term, finalExtraMonthly, finalPrepayments);
    }

    /** `savedLoans.map(...)`: one schedule per loan. */
    static method ScheduleAll(loans: seq<Loan>, all: seq<PrepaymentScenario>) returns (schedules: seq<seq<AmortizationRow>>)
      requires forall i :: 0 <= i < |loans| ==> ValidLoan(loans[i])
      ensures schedules == LoanSchedules(loans, all)
    {
      schedules := [];
      var i := 0;
      while i < |loans|
        invariant 0 <= i <= |loans|
        invariant |schedules| == i
        invariant forall k :: 0 <= k < i ==> schedules[k] == LoanSchedule(loans[k], all)
      {
        var schedule := ScheduleForLoan(loans[i], all);
        schedules := schedules + [schedule];
        i := i + 1;
      }
    }

    /** `generateScheduleForLoan(loan)`: shows the loan's schedule with its scenarios applied, and its title. */
    method GenerateScheduleForLoan(loan: Loan)
      requires ValidLoan(loan)
      modifies this
      ensures currentSchedule == LoanSchedule(loan, allPrepaymentScenarios)
      ensures currentLoanName == DisplayName(loan, allPrepaymentScenarios)
      ensures savedLoans == old(savedLoans) && allPrepaymentScenarios == old(allPrepaymentScenarios)
    {
      var schedule := ScheduleForLoan(loan, allPrepaymentScenarios);
      currentSchedule := schedule;
      currentLoanName := DisplayName(loan, allPrepaymentScenarios);
    }

    /**
     * `generateCombinedSchedule()`: with no saved loans it does nothing; otherwise it shows the
     * combined schedule of all saved loans and the combined title.
     */
    method GenerateCombinedSchedule()
      requires Valid()
      modifies this
      ensures savedLoans == old(savedLoans) && allPrepaymentScenarios == old(allPrepaymentScenarios)
      ensures old(savedLoans) == [] ==> currentSchedule == old(currentSchedule) && currentLoanName == old(currentLoanName)
      ensures old(savedLoans) != [] ==>
                && currentSchedule == Combined(LoanSchedules(savedLoans, allPrepaymentScenarios))
                && currentLoanName == CombinedTitle(|savedLoans|, |allPrepaymentScenarios|)
    {
      if |savedLoans| == 0 {
        return;
      }
      var allSchedules := ScheduleAll(savedLoans, allPrepaymentScenarios);
      currentSchedule := CombineSchedules(allSchedules);
      currentLoanName := CombinedTitle(|savedLoans|, |allPrepaymentScenarios|);
    }
  }
}
