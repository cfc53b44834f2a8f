/**
 * The debt-to-income calculator (DebtIncomeScreen.tsx): a list of monthly debts the user adds
 * and removes, and the ratio of debts to income with its qualification band and the loan
 * payments that keep the ratio within the 43% and 36% guidelines.
 */
module DebtIncome {
  import opened LoanTypes
  import opened Lists

  datatype Debt = Debt(id: string, name: string, amount: real)

  function DebtId(d: Debt): string { d.id }

  // ---------------------------------------------------------------------------------------
  // String.prototype.trim
  // ---------------------------------------------------------------------------------------

  /** The characters `trim` removes: ECMAScript's WhiteSpace and LineTerminator characters. */
  predicate IsJsSpace(c: char) {
    || c == '\t' || c == '\n' || c == '\U{000B}' || c == '\U{000C}' || c == '\r' || c == ' '
    || c == '\U{00A0}' || c == '\U{1680}' || ('\U{2000}' <= c <= '\U{200A}')
    || c == '\U{2028}' || c == '\U{2029}' || c == '\U{202F}' || c == '\U{205F}'
    || c == '\U{3000}' || c == '\U{FEFF}'
  }

  predicate AllSpace(s: string) {
    forall i :: 0 <= i < |s| ==> IsJsSpace(s[i])
  }

  /** The number of spaces `s` starts with. */
  function LeadingSpaces(s: string): (n: nat)
    ensures n <= |s|
    ensures forall k :: 0 <= k < n ==> IsJsSpace(s[k])
    ensures n < |s| ==> !IsJsSpace(s[n])
  {
    if s != [] && IsJsSpace(s[0]) then
      var n := 1 + LeadingSpaces(s[1..]);
      assert forall k :: 0 < k < |s| ==> s[k] == s[1..][k - 1];
      n
    else 0
  }

  /** The length of `s` without the spaces it ends with. */
  function TextEnd(s: string): (n: nat)
    ensures n <= |s|
    ensures forall k :: n <= k < |s| ==> IsJsSpace(s[k])
    ensures n > 0 ==> !IsJsSpace(s[n - 1])
  {
    if s != [] && IsJsSpace(s[|s| - 1]) then
      var n := TextEnd(s[..|s| - 1]);
      assert forall k :: 0 <= k < |s| - 1 ==> s[k] == s[..|s| - 1][k];
      n
    else |s|
  }

  /**
   * `s.trim()`: the middle of `s` once the spaces at both ends are cut off. It starts after
   * the leading spaces, only spaces follow it, and it neither starts nor ends with a space.
   */
  function Trim(s: string): (r: string)
    ensures LeadingSpaces(s) + |r| <= |s|
    ensures forall k :: 0 <= k < |r| ==> r[k] == s[LeadingSpaces(s) + k]
    ensures forall k :: LeadingSpaces(s) + |r| <= k < |s| ==> IsJsSpace(s[k])
    ensures r == [] || (!IsJsSpace(r[0]) && !IsJsSpace(r[|r| - 1]))
  {
    var i := LeadingSpaces(s);
    var rest := s[i..];
    var j := TextEnd(rest);
    assert forall k :: i + j <= k < |s| ==> s[k] == rest[k - i];
    rest[..j]
  }

  /** A name is blank after trimming exactly when it consists of spaces only. */
  lemma TrimBlank(s: string)
    ensures Trim(s) == [] <==> AllSpace(s)
  {
    var r := Trim(s);
    if r != [] {
      assert r[0] == s[LeadingSpaces(s)];
    }
  }

  // ---------------------------------------------------------------------------------------
  // Totals, ratios and bands
  // ---------------------------------------------------------------------------------------

  /** `debts.reduce((sum, debt) => sum + debt.amount, 0)`. */
  function SumAmounts(debts: seq<Debt>): (r: real)
    ensures debts == [] ==> r == 0.0
    ensures (forall i :: 0 <= i < |debts| ==> debts[i].amount >= 0.0) ==> r >= 0.0
  {
    if debts == [] then 0.0 else SumAmounts(debts[..|debts| - 1]) + debts[|debts| - 1].amount
  }

  /** The total of two lists one after the other is the sum of their totals. */
  lemma {:induction false} SumAmountsAppend(a: seq<Debt>, b: seq<Debt>)
    ensures SumAmounts(a + b) == SumAmounts(a) + SumAmounts(b)
    decreases |b|
  {
    if b != [] {
      assert (a + b)[..|a + b| - 1] == a + b[..|b| - 1];
      SumAmountsAppend(a, b[..|b| - 1]);
    } else {
      assert a + b == a;
    }
  }

  /** Removing debts takes exactly their amounts off the total. */
  lemma {:induction false} SumAmountsWithout(debts: seq<Debt>, id: string)
    ensures SumAmounts(debts) == SumAmounts(Without(debts, DebtId, id)) + SumAmounts(Keep(debts, DebtId, id))
  {
    if debts != [] {
      var d, rest := debts[0], debts[1..];
      var kept, dropped := Without(rest, DebtId, id), Keep(rest, DebtId, id);
      assert debts == [d] + rest;
      assert SumAmounts([d]) == d.amount;
      SumAmountsWithout(rest, id);
      SumAmountsAppend([d], rest);
      if d.id == id {
        assert Without(debts, DebtId, id) == kept;
        assert Keep(debts, DebtId, id) == [d] + dropped;
        SumAmountsAppend([d], dropped);
      } else {
        assert Without(debts, DebtId, id) == [d] + kept;
        assert Keep(debts, DebtId, id) == dropped;
        SumAmountsAppend([d], kept);
      }
    }
  }

  /** The bands of the DTI guidelines, from the best to the worst. */
  datatype Band = Excellent | Good | Fair | Poor

  function Rank(b: Band): nat {
    match b
    case Excellent => 0
    case Good => 1
    case Fair => 2
    case Poor => 3
  }

  /** `getQualification`: up to 20% Excellent, up to 36% Good, up to 43% Fair, above that Poor. */
  function Qualification(ratio: real): (b: Band)
    ensures b == Excellent <==> ratio <= 20.0
    ensures b == Good <==> 20.0 < ratio <= 36.0
    ensures b == Fair <==> 36.0 < ratio <= 43.0
    ensures b == Poor <==> 43.0 < ratio
  {
    if ratio <= 20.0 then Excellent
    else if ratio <= 36.0 then Good
    else if ratio <= 43.0 then Fair
    else Poor
  }

  /** A higher ratio never gets a better band. */
  lemma QualificationMonotone(r1: real, r2: real)
    requires r1 <= r2
    ensures Rank(Qualification(r1)) <= Rank(Qualification(r2))
  {
  }

  datatype Results = Results(
    currentRatio: real,
    newRatio: real,
    maxLoanPayment: real,
    recommendedPayment: real,
    qualification: Band,
    currentQualification: Band,
    totalCurrentDebts: real)

  /** `(debts / income) * 100`. */
  function Ratio(debts: real, income: real): (r: real)
    requires income != 0.0
    ensures r * income == debts * 100.0
  {
    assert debts / income * income == debts;
    debts / income * 100.0
  }

  /**
   * The results `calculate` sets for a non-zero income: both ratios with their bands, and the
   * largest new payment that keeps the debts within 43% (maximum) and within 36% (recommended)
   * of the income, never below zero.
   */
  function Evaluate(totalCurrentDebts: real, income: real, newPayment: real): (r: Results)
    requires income != 0.0
    ensures r.currentRatio * income == totalCurrentDebts * 100.0
    ensures r.newRatio * income == (totalCurrentDebts + newPayment) * 100.0
    ensures r.qualification == Qualification(r.newRatio)
    ensures r.currentQualification == Qualification(r.currentRatio)
    ensures r.totalCurrentDebts == totalCurrentDebts
    ensures r.maxLoanPayment >= 0.0 && r.recommendedPayment >= 0.0
    ensures r.maxLoanPayment >= income * 0.43 - totalCurrentDebts
    ensures r.maxLoanPayment > 0.0 ==> totalCurrentDebts + r.maxLoanPayment == income * 0.43
    ensures r.recommendedPayment >= income * 0.36 - totalCurrentDebts
    ensures r.recommendedPayment > 0.0 ==> totalCurrentDebts + r.recommendedPayment == income * 0.36
    ensures income > 0.0 ==> r.recommendedPayment <= r.maxLoanPayment
    ensures income > 0.0 && newPayment >= 0.0 ==> r.newRatio >= r.currentRatio
  {
    var currentRatio := Ratio(totalCurrentDebts, income);
    var newRatio := Ratio(totalCurrentDebts + newPayment, income);
    RatioMonotone(totalCurrentDebts, totalCurrentDebts + newPayment, income);
    Results(currentRatio, newRatio,
            Max(income * 0.43 - totalCurrentDebts, 0.0),
            Max(income * 0.36 - totalCurrentDebts, 0.0),
            Qualification(newRatio), Qualification(currentRatio), totalCurrentDebts)
  }

  lemma RatioMonotone(d1: real, d2: real, income: real)
    requires income != 0.0
    ensures income > 0.0 && d1 <= d2 ==> Ratio(d1, income) <= Ratio(d2, income)
  {
    assert d2 / income - d1 / income == (d2 - d1) / income;
  }

  /**
   * Taking the maximum payment leaves the new ratio in the Fair band or better, and taking
   * the recommended one in the Good band or better, as long as the current debts are within
   * those limits.
   */
  lemma PaymentsKeepBands(totalCurrentDebts: real, income: real)
    requires income > 0.0
    ensures var r := Evaluate(totalCurrentDebts, income, 0.0);
            && (totalCurrentDebts <= income * 0.43 ==>
                  Rank(Qualification(Ratio(totalCurrentDebts + r.maxLoanPayment, income))) <= Rank(Fair))
            && (totalCurrentDebts <= income * 0.36 ==>
                  Rank(Qualification(Ratio(totalCurrentDebts + r.recommendedPayment, income))) <= Rank(Good))
  {
    var r := Evaluate(totalCurrentDebts, income, 0.0);
    if totalCurrentDebts <= income * 0.43 {
      assert totalCurrentDebts + r.maxLoanPayment == income * 0.43;
      assert Ratio(totalCurrentDebts + r.maxLoanPayment, income) == 43.0;
    }
    if totalCurrentDebts <= income * 0.36 {
      assert totalCurrentDebts + r.recommendedPayment == income * 0.36;
      assert Ratio(totalCurrentDebts + r.recommendedPayment, income) == 36.0;
    }
  }

  // ---------------------------------------------------------------------------------------
  // The form
  // ---------------------------------------------------------------------------------------

  /**
   * The screen's state: the text inputs, the debt list and the results shown (none until the
   * first successful calculation). Parsing the amount and income inputs (`parseFloat`) and the
   * clock behind new debt ids come in as parameters of the operations that use them.
   */
  class DebtIncomeForm {
    var monthlyIncome: string
    var debts: seq<Debt>
    var debtName: string
    var debtAmount: string
    var newLoanPayment: string
    var results: Option<Results>

    constructor()
      ensures monthlyIncome == "" && debts == [] && debtName == "" && debtAmount == ""
      ensures newLoanPayment == "" && results == None
    {
      monthlyIncome, debts, debtName, debtAmount, newLoanPayment := "", [], "", "", "";
      results := None;
    }

    /** `getTotalDebts`. */
    function TotalDebts(): (t: real)
      reads this
      ensures debts == [] ==> t == 0.0
      ensures (forall i :: 0 <= i < |debts| ==> debts[i].amount >= 0.0) ==> t >= 0.0
    {
      SumAmounts(debts)
    }

    /**
     * `addDebt`: with a blank name or an empty amount nothing changes (an error alert is
     * shown); otherwise one debt with the trimmed name and the parsed amount is appended and
     * both inputs are cleared. `id` stands for `Date.now().toString()` and `amount` for
     * `parseFloat(debtAmount)`.
     */
    method AddDebt(id: string, amount: real) returns (added: bool)
      modifies this
      ensures added <==> !AllSpace(old(debtName)) && old(debtAmount) != ""
      ensures !added ==> debts == old(debts) && debtName == old(debtName) && debtAmount == old(debtAmount)
      ensures added ==> debts == old(debts) + [Debt(id, Trim(old(debtName)), amount)]
                        && debtName == "" && debtAmount == ""
      ensures added ==> TotalDebts() == old(TotalDebts()) + amount
      ensures monthlyIncome == old(monthlyIncome) && newLoanPayment == old(newLoanPayment)
      ensures results == old(results)
    {
      var name := Trim(debtName);
      TrimBlank(debtName);
      added := name != [] && debtAmount != "";
      if added {
        var newDebt := Debt(id, name, amount);
        SumAmountsAppend(debts, [newDebt]);
        assert SumAmounts([newDebt]) == amount;
        debts, debtName, debtAmount := debts + [newDebt], "", "";
      }
    }

    /** `removeDebt`: every debt with that id goes, the others stay in order. */
    method RemoveDebt(id: string)
      modifies this
      ensures debts == Without(old(debts), DebtId, id)
      ensures TotalDebts() == old(TotalDebts()) - SumAmounts(Keep(old(debts), DebtId, id))
      ensures monthlyIncome == old(monthlyIncome) && debtName == old(debtName)
      ensures debtAmount == old(debtAmount) && newLoanPayment == old(newLoanPayment)
      ensures results == old(results)
    {
      var kept := Without(debts, DebtId, id);
      SumAmountsWithout(debts, id);
      assert SumAmounts(debts) == SumAmounts(kept) + SumAmounts(Keep(debts, DebtId, id));
      debts := kept;
    }

    /**
     * `calculate`: `income` stands for `parseFloat(monthlyIncome)` and `newPayment` for
     * `parseFloat(newLoanPayment)`, None when the text is not a number. A missing or zero income
     * leaves the results as they were (an error alert is shown); a missing new payment
     * counts as zero.
     */
    method Calculate(income: Option<real>, newPayment: Option<real>)
      modifies this
      ensures income.None? || income == Some(0.0) ==> results == old(results)
      ensures income.Some? && income.value != 0.0 ==>
                results == Some(Evaluate(TotalDebts(), income.value, OrZero(newPayment)))
      ensures debts == old(debts) && monthlyIncome == old(monthlyIncome) && debtName == old(debtName)
      ensures debtAmount == old(debtAmount) && newLoanPayment == old(newLoanPayment)
    {
      if income.None? || income.value == 0.0 {
        return;
      }
      var totalCurrentDebts := SumAmounts(debts);
      results := Some(Evaluate(totalCurrentDebts, income.value, OrZero(newPayment)));
    }

    /** `clearForm`: every input is emptied, the debt list cleared and the results hidden. */
    method ClearForm()
      modifies this
      ensures monthlyIncome == "" && debts == [] && debtName == "" && debtAmount == ""
      ensures newLoanPayment == "" && results == None
      ensures TotalDebts() == 0.0
    {
      monthlyIncome, debts, debtName, debtAmount, newLoanPayment := "", [], "", "", "";
      results := None;
    }
  }
}
