/**
 * The prepayment history of one loan (PrepaymentHistoryScreen.tsx): what each saved scenario
 * saves against the plain schedule, and the list of the loan's scenarios, newest first, with
 * deletion.
 */
module PrepaymentHistory {
  import opened LoanTypes
  import opened Lists
  import opened LoanMath

  // ---------------------------------------------------------------------------------------
  // Savings of a scenario
  // ---------------------------------------------------------------------------------------

  datatype Savings = Savings(interestSaved: real, timeSaved: int)

  /** The schedule with no extra and no prepayment that every scenario is compared against. */
  function Baseline(loan: Loan): (s: seq<AmortizationRow>)
    requires ValidTerms(loan.rate, loan.term)
    ensures |s| <= loan.term * 12
    ensures loan.amount <= 0.0 ==> s == []
  {
    Amortization(loan.amount, loan.rate, loan.term, 0.0, 0.0)
  }

  /** The schedule under the scenario's own extra and prepayment; the loan's own extras are not added. */
  function WithScenario(loan: Loan, scenario: PrepaymentScenario): (s: seq<AmortizationRow>)
    requires ValidTerms(loan.rate, loan.term)
    ensures |s| <= loan.term * 12
    ensures scenario.prepayments >= loan.amount ==> s == []
  {
    Amortization(loan.amount, loan.rate, loan.term, scenario.extraMonthly, scenario.prepayments)
  }

  /** A scenario with a non-negative extra and prepayment is no longer and charges no more interest than the baseline. */
  lemma ScenarioNeverHurts(loan: Loan, scenario: PrepaymentScenario)
    requires ValidTerms(loan.rate, loan.term)
    ensures scenario.extraMonthly >= 0.0 && scenario.prepayments >= 0.0 ==>
              |WithScenario(loan, scenario)| <= |Baseline(loan)|
              && SumInterest(WithScenario(loan, scenario)) <= SumInterest(Baseline(loan))
  {
    if scenario.extraMonthly >= 0.0 && scenario.prepayments >= 0.0 {
      PrepaymentNeverHurts(loan.amount, loan.rate, loan.term, scenario.extraMonthly, scenario.prepayments);
    }
  }

  /**
   * `calculateSavings` as written: "interest saved" is the difference of the TOTAL payments of
   * the two schedules, so it counts the principal the scenario no longer pays through the
   * schedule (the upfront prepayment) as well as the interest; "time saved" is the difference
   * of the row counts.
   */
  function CalculateSavings(loan: Loan, scenario: PrepaymentScenario): (r: Savings)
    requires ValidTerms(loan.rate, loan.term)
    ensures var plain := Baseline(loan);
            var faster := WithScenario(loan, scenario);
            && r.interestSaved == (SumInterest(plain) - SumInterest(faster))
                                  + (SumPrincipal(plain) - SumPrincipal(faster))
            && r.timeSaved == |plain| - |faster|
    ensures scenario.extraMonthly == 0.0 && scenario.prepayments == 0.0 ==> r == Savings(0.0, 0)
    ensures scenario.extraMonthly >= 0.0 && scenario.prepayments >= 0.0 ==> r.timeSaved >= 0
  {
    var plain := Baseline(loan);
    var faster := WithScenario(loan, scenario);
    AmortizationTelescopes(loan.amount, loan.rate, loan.term, 0.0, 0.0);
    AmortizationTelescopes(loan.amount, loan.rate, loan.term, scenario.extraMonthly, scenario.prepayments);
    ScenarioNeverHurts(loan, scenario);
    Savings(SumPayment(plain) - SumPayment(faster), |plain| - |faster|)
  }

  /**
   * The savings as the "Interest Saved" label means them: the difference of the interest
   * charged by the two schedules. With a non-negative extra and prepayment neither figure is
   * negative.
   */
  function CorrectedSavings(loan: Loan, scenario: PrepaymentScenario): (r: Savings)
    requires ValidTerms(loan.rate, loan.term)
    ensures r.interestSaved == SumInterest(Baseline(loan)) - SumInterest(WithScenario(loan, scenario))
    ensures r.timeSaved == CalculateSavings(loan, scenario).timeSaved
    ensures scenario.extraMonthly == 0.0 && scenario.prepayments == 0.0 ==> r == Savings(0.0, 0)
    ensures scenario.extraMonthly >= 0.0 && scenario.prepayments >= 0.0 ==> r.interestSaved >= 0.0 && r.timeSaved >= 0
  {
    var plain := Baseline(loan);
    var faster := WithScenario(loan, scenario);
    ScenarioNeverHurts(loan, scenario);
    Savings(SumInterest(plain) - SumInterest(faster), |plain| - |faster|)
  }

  /** The two readings differ by exactly the principal the scenario no longer repays through its schedule. */
  lemma SavingsDifferByPrincipal(loan: Loan, scenario: PrepaymentScenario)
    requires ValidTerms(loan.rate, loan.term)
    ensures CalculateSavings(loan, scenario).interestSaved
            == CorrectedSavings(loan, scenario).interestSaved
               + (SumPrincipal(Baseline(loan)) - SumPrincipal(WithScenario(loan, scenario)))
  {
  }

  /**
   * For a positive loan and a scenario with non-negative amounts, the reported "interest saved"
   * exceeds the interest actually saved by exactly the prepayment, or by the whole amount when
   * the prepayment covers it.
   */
  lemma InterestSavedOverstatesByPrepayment(loan: Loan, scenario: PrepaymentScenario)
    requires ValidTerms(loan.rate, loan.term)
    requires loan.amount > 0.0 && scenario.extraMonthly >= 0.0 && scenario.prepayments >= 0.0
    ensures CalculateSavings(loan, scenario).interestSaved
            == CorrectedSavings(loan, scenario).interestSaved + Min(scenario.prepayments, loan.amount)
  {
    if scenario.prepayments >= loan.amount {
      InterestSavedCountsPrepayment(loan, scenario);
    } else {
      AmortizationPaysOffOnTime(loan.amount, loan.rate, loan.term);
      AmortizationTelescopes(loan.amount, loan.rate, loan.term, 0.0, 0.0);
      AmortizationTelescopes(loan.amount, loan.rate, loan.term, scenario.extraMonthly, scenario.prepayments);
      PrepaymentPaysOff(loan.amount, loan.rate, loan.term, scenario.extraMonthly, scenario.prepayments);
      SavingsDifferByPrincipal(loan, scenario);
    }
  }

  /**
   * A prepayment that clears a positive loan outright makes the scenario's schedule empty, and the reported
   * "interest saved" then exceeds the interest actually saved by the whole loan amount.
   */
  lemma InterestSavedCountsPrepayment(loan: Loan, scenario: PrepaymentScenario)
    requires ValidTerms(loan.rate, loan.term)
    requires loan.amount > 0.0 && scenario.prepayments >= loan.amount
    ensures CalculateSavings(loan, scenario).interestSaved
            == CorrectedSavings(loan, scenario).interestSaved + loan.amount
  {
    AmortizationPaysOffOnTime(loan.amount, loan.rate, loan.term);
    AmortizationTelescopes(loan.amount, loan.rate, loan.term, 0.0, 0.0);
    assert WithScenario(loan, scenario) == [];
  }

  // ---------------------------------------------------------------------------------------
  // The list of one loan's scenarios
  // ---------------------------------------------------------------------------------------

  /** Ordered by creation time, newest first. */
  ghost predicate NewestFirst(s: seq<PrepaymentScenario>) {
    forall k, l :: 0 <= k < l < |s| ==> s[k].createdAt >= s[l].createdAt
  }

  /**
   * `loanScenarios.sort((a, b) => b.createdAt - a.createdAt)`: an insertion sort in place, each
   * element moved left past the older ones.
   */
  method SortNewestFirst(a: array<PrepaymentScenario>)
    modifies a
    ensures NewestFirst(a[..])
    ensures multiset(a[..]) == multiset(old(a[..]))
  {
    var i := 0;
    while i < a.Length
      invariant 0 <= i <= a.Length
      invariant NewestFirst(a[..i])
      invariant multiset(a[..]) == multiset(old(a[..]))
    {
      InsertNewestFirst(a, i);
      i := i + 1;
    }
    assert a[..a.Length] == a[..];
  }

  /** One pass of the sort: with `a[..i]` in order, swap `a[i]` leftwards past the older scenarios. */
  method InsertNewestFirst(a: array<PrepaymentScenario>, i: nat)
    requires i < a.Length && NewestFirst(a[..i])
    modifies a
    ensures NewestFirst(a[..i + 1])
    ensures multiset(a[..]) == multiset(old(a[..]))
  {
    var j := i;
    InsertStart(a[..], i);
    while j > 0 && a[j - 1].createdAt < a[j].createdAt
      invariant 0 <= j <= i
      invariant multiset(a[..]) == multiset(old(a[..]))
      invariant Inserting(a[..], i, j)
    {
      ghost var before := a[..];
      a[j - 1], a[j] := a[j], a[j - 1];
      InsertSwap(before, a[..], i, j);
      j := j - 1;
    }
    InsertDone(a[..], i, j);
  }

  /**
   * Halfway through a pass: `s[..i + 1]` is in order except for the scenario at j being moved,
   * which is no older than anything after it up to i.
   */
  ghost predicate Inserting(s: seq<PrepaymentScenario>, i: nat, j: nat)
    requires j <= i < |s|
  {
    && (forall k, l :: 0 <= k < l <= i && k != j && l != j ==> s[k].createdAt >= s[l].createdAt)
    && (forall l :: j < l <= i ==> s[j].createdAt >= s[l].createdAt)
  }

  lemma InsertStart(s: seq<PrepaymentScenario>, i: nat)
    requires i < |s| && NewestFirst(s[..i])
    ensures Inserting(s, i, i)
  {
    forall k, l | 0 <= k < l <= i && k != i && l != i
      ensures s[k].createdAt >= s[l].createdAt
    {
      assert s[..i][k] == s[k] && s[..i][l] == s[l];
    }
  }

  lemma InsertSwap(before: seq<PrepaymentScenario>, after: seq<PrepaymentScenario>, i: nat, j: nat)
    requires 0 < j <= i < |before| && Inserting(before, i, j)
    requires before[j - 1].createdAt < before[j].createdAt
    requires after == before[j - 1 := before[j]][j := before[j - 1]]
    ensures Inserting(after, i, j - 1)
    ensures multiset(after) == multiset(before)
  {
  }

  lemma InsertDone(s: seq<PrepaymentScenario>, i: nat, j: nat)
    requires j <= i < |s| && Inserting(s, i, j)
    requires j == 0 || s[j - 1].createdAt >= s[j].createdAt
    ensures NewestFirst(s[..i + 1])
  {
    forall k, l | 0 <= k < l <= i
      ensures s[k].createdAt >= s[l].createdAt
    {
      if l == j && k < j - 1 {
        assert s[k].createdAt >= s[j - 1].createdAt;
      }
    }
  }

  /** Dropping scenarios keeps every remaining one no newer than a bound all of them met. */
  lemma {:induction false} WithoutBounded(s: seq<PrepaymentScenario>, id: string, t: int)
    requires forall i :: 0 <= i < |s| ==> s[i].createdAt <= t
    ensures forall i :: 0 <= i < |Without(s, ScenarioId, id)| ==> Without(s, ScenarioId, id)[i].createdAt <= t
  {
    if s != [] {
      WithoutBounded(s[1..], id, t);
      var rest := Without(s[1..], ScenarioId, id);
      if s[0].id != id {
        assert Without(s, ScenarioId, id) == [s[0]] + rest;
      } else {
        assert Without(s, ScenarioId, id) == rest;
      }
    }
  }

  /** A list is newest first exactly when its head is no older than the rest and the rest is newest first. */
  lemma NewestFirstCons(x: PrepaymentScenario, rest: seq<PrepaymentScenario>)
    ensures NewestFirst([x] + rest) <==>
              (forall i :: 0 <= i < |rest| ==> rest[i].createdAt <= x.createdAt) && NewestFirst(rest)
  {
    var r := [x] + rest;
    if NewestFirst(r) {
      forall k, l | 0 <= k < l < |rest|
        ensures rest[k].createdAt >= rest[l].createdAt
      {
        assert rest[k] == r[k + 1] && rest[l] == r[l + 1];
      }
      forall i | 0 <= i < |rest|
        ensures rest[i].createdAt <= x.createdAt
      {
        assert rest[i] == r[i + 1] && r[0] == x;
      }
    }
  }

  /** Dropping elements from a list ordered newest first leaves it ordered newest first. */
  lemma {:induction false} WithoutKeepsOrder(s: seq<PrepaymentScenario>, id: string)
    requires NewestFirst(s)
    ensures NewestFirst(Without(s, ScenarioId, id))
  {
    if s != [] {
      assert s == [s[0]] + s[1..];
      NewestFirstCons(s[0], s[1..]);
      WithoutKeepsOrder(s[1..], id);
      var rest := Without(s[1..], ScenarioId, id);
      if s[0].id != id {
        WithoutBounded(s[1..], id, s[0].createdAt);
        NewestFirstCons(s[0], rest);
        assert Without(s, ScenarioId, id) == [s[0]] + rest;
      } else {
        assert Without(s, ScenarioId, id) == rest;
      }
    }
  }

  /**
   * The history screen of one loan. `stored` is the `prepaymentScenarios` storage entry (absent
   * until something is saved) and `scenarios` the list on screen.
   */
  class PrepaymentHistoryScreen {
    const loanId: string
    var stored: Option<seq<PrepaymentScenario>>
    var scenarios: seq<PrepaymentScenario>

    /** The list on screen belongs to this loan and is ordered newest first. */
    ghost predicate Valid()
      reads this
    {
      (forall x :: x in scenarios ==> x.loanId == loanId) && NewestFirst(scenarios)
    }

    constructor(loanId: string, stored: Option<seq<PrepaymentScenario>>)
      ensures Valid()
      ensures this.loanId == loanId && this.stored == stored && scenarios == []
    {
      this.loanId := loanId;
      this.stored := stored;
      scenarios := [];
    }

    /**
     * `loadScenarios`: with nothing stored the list is left as it was; otherwise it becomes
     * exactly the stored scenarios of this loan, newest first.
     */
    method LoadScenarios()
      requires Valid()
      modifies this
      ensures Valid()
      ensures stored == old(stored)
      ensures stored.None? ==> scenarios == old(scenarios)
      ensures stored.Some? ==> multiset(scenarios) == multiset(Keep(stored.value, ScenarioLoanId, loanId))
      ensures stored.Some? ==> forall x :: x in scenarios <==> x in stored.value && x.loanId == loanId
    {
      if stored.Some? {
        var loanScenarios := Keep(stored.value, ScenarioLoanId, loanId);
        var a := new PrepaymentScenario[|loanScenarios|](i requires 0 <= i < |loanScenarios| => loanScenarios[i]);
        assert a[..] == loanScenarios;
        SortNewestFirst(a);
        scenarios := a[..];
        forall x | x in scenarios
          ensures x in stored.value && x.loanId == loanId
        {
          assert x in multiset(loanScenarios);
        }
        forall x | x in stored.value && x.loanId == loanId
          ensures x in scenarios
        {
          assert x in multiset(scenarios);
        }
      }
    }

    /**
     * `deleteScenario` once confirmed: the scenarios with that id leave the stored list (an
     * absent entry counts as empty) and the list on screen; the rest keep their order.
     */
    method DeleteScenario(scenarioId: string)
      requires Valid()
      modifies this
      ensures Valid()
      ensures stored == Some(Without(old(stored).GetOr([]), ScenarioId, scenarioId))
      ensures scenarios == Without(old(scenarios), ScenarioId, scenarioId)
    {
      var allScenarios := stored.GetOr([]);
      stored := Some(Without(allScenarios, ScenarioId, scenarioId));
      WithoutKeepsOrder(scenarios, scenarioId);
      scenarios := Without(scenarios, ScenarioId, scenarioId);
    }
  }
}
