/** The list of saved loans and its deletion (SavedLoansScreen.tsx). */
module SavedLoans {
  import opened LoanTypes
  import opened Lists

  /**
   * The screen's list and the two storage entries deletion concerns: `storedLoans` is the
   * `savedLoans` entry, `storedScenarios` the `prepaymentScenarios` entry (each absent until
   * something is saved).
   */
  class SavedLoansScreen {
    var loans: seq<Loan>
    var storedLoans: Option<seq<Loan>>
    var storedScenarios: Option<seq<PrepaymentScenario>>

    constructor(storedLoans: Option<seq<Loan>>, storedScenarios: Option<seq<PrepaymentScenario>>)
      ensures loans == [] && this.storedLoans == storedLoans && this.storedScenarios == storedScenarios
    {
      loans := [];
      this.storedLoans := storedLoans;
      this.storedScenarios := storedScenarios;
    }

    /** `loadLoans`: the stored list is shown; with nothing stored the list is left as it was. */
    method LoadLoans()
      modifies this
      ensures storedLoans.Some? ==> loans == storedLoans.value
      ensures storedLoans.None? ==> loans == old(loans)
      ensures storedLoans == old(storedLoans) && storedScenarios == old(storedScenarios)
    {
      if storedLoans.Some? {
        loans := storedLoans.value;
      }
    }

    /**
     * `deleteLoan` once confirmed: every loan with that id leaves the list shown, the others
     * keep their order, and the new list is written back as the stored list. The loan's
     * prepayment scenarios stay stored.
     */
    method DeleteLoan(id: string)
      modifies this
      ensures loans == Without(old(loans), LoanId, id)
      ensures forall l :: l in loans <==> l in old(loans) && l.id != id
      ensures storedLoans == Some(loans)
      ensures storedScenarios == old(storedScenarios)
    {
      var updatedLoans := Without(loans, LoanId, id);
      loans := updatedLoans;
      storedLoans := Some(updatedLoans);
    }
  }
}
