/** LintResult: the append-only, order-preserving list of findings for one class. */
module LintResults {
  import opened Wrappers
  import opened Violations

  class LintResult {
    var violations: seq<Violation>

    constructor ()
      ensures violations == []
    {
      violations := [];
    }

    /** addAll: appends the items in order; a null list (None) changes nothing. */
    method AddAll(items: Option<seq<Violation>>)
      modifies this
      ensures violations == old(violations) + (if items.Some? then items.value else [])
      ensures |violations| >= |old(violations)| && violations[..|old(violations)|] == old(violations)
    {
      if items.Some? {
        violations := violations + items.value;
      }
    }

    /** getViolations: the current contents in insertion order; a sequence value
        cannot be changed by the caller, as the source's unmodifiable view. */
    function GetViolations(): seq<Violation>
      reads this
    {
      violations
    }

    /** hasErrors: there is at least one finding. */
    predicate HasErrors()
      reads this
      ensures HasErrors() <==> |GetViolations()| > 0
    {
      violations != []
    }
  }
}
