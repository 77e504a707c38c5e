/**
 * The manual code entry of the scanner card (src/components/QRScanner.tsx):
 * the field upper-cases what is typed, and a submit passes the trimmed code
 * on unless it is blank. The camera view is a placeholder and is not modelled.
 */
module QRScanner {
  import opened Wrappers
  import opened Text

  /**
   * What a submit hands to `onScan`: nothing for a blank field, otherwise
   * the trimmed text, which is never empty, has no white space at either
   * end, and is upper-case when the field was.
   */
  function ManualSubmission(code: string): (r: Option<string>)
    ensures r.None? <==> IsBlank(code)
    ensures r.Some? ==> r.value == Trim(code) && r.value != ""
    ensures r.Some? ==> !IsSpace(r.value[0]) && !IsSpace(r.value[|r.value| - 1])
    ensures r.Some? && NoLowerCase(code) ==> NoLowerCase(r.value)
  {
    var trimmed := Trim(code);
    if trimmed != "" then
      TrimKeepsNoLowerCase(code);
      Some(trimmed)
    else None
  }

  class ManualEntry {
    var manualCode: string

    /** The field never holds a lower-case letter. */
    ghost predicate Valid()
      reads this
    {
      NoLowerCase(manualCode)
    }

    constructor()
      ensures Valid() && manualCode == ""
    {
      manualCode := "";
    }

    /** `onChange`: the field holds the upper-case of what was typed. */
    method OnInput(typed: string)
      modifies this
      ensures Valid() && manualCode == ToUpper(typed)
    {
      manualCode := ToUpper(typed);
      ToUpperIsUpper(typed);
    }

    /**
     * `handleManualSubmit`: at most one `onScan` call, with the trimmed code;
     * the field is cleared after it and left as it was when the code is blank.
     */
    method HandleManualSubmit() returns (scanned: Option<string>)
      requires Valid()
      modifies this
      ensures Valid()
      ensures scanned == ManualSubmission(old(manualCode))
      ensures scanned.Some? ==> manualCode == ""
      ensures scanned.None? ==> manualCode == old(manualCode)
    {
      var trimmed := Trim(manualCode);
      if trimmed != "" {
        scanned := Some(trimmed);
        manualCode := "";
      } else {
        scanned := None;
      }
    }
  }
}
