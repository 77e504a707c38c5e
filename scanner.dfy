/**
 * The scanner page (src/pages/Scanner.tsx): classify a scanned code by its
 * prefix, look it up, and choose between the scanner, the registration form
 * and the attendee profile. The lookup is a parameter: the store's answer.
 */
module Scanner {
  import opened Wrappers
  import opened Text
  import opened Schema

  /** `qrCode.split('-')[0].toUpperCase()` */
  function QRPrefix(code: string): (r: string)
    ensures '-' !in r && NoLowerCase(r)
    ensures |r| <= |code| && '-' !in code[..|r|] && r == ToUpper(code[..|r|])
    ensures |r| < |code| ==> code[|r|] == '-'
  {
    ToUpperIsUpper(BeforeFirst(code, '-'));
    ToUpper(BeforeFirst(code, '-'))
  }

  /** The `switch` on the prefix: the category a code's prefix announces, or none. */
  function TypeFromQR(code: string): (r: Option<string>)
    ensures r == Some("alumni") <==> QRPrefix(code) == "AL"
    ensures r == Some("faculty") <==> QRPrefix(code) == "FL"
    ensures r == Some("student") <==> QRPrefix(code) == "STU"
    ensures r == Some("press") <==> QRPrefix(code) == "PR"
    ensures r == Some("volunteer") <==> QRPrefix(code) == "VL"
    ensures r.None? <==> QRPrefix(code) !in {"AL", "FL", "STU", "PR", "VL"}
  {
    match QRPrefix(code)
    case "AL" => Some("alumni")
    case "FL" => Some("faculty")
    case "STU" => Some("student")
    case "PR" => Some("press")
    case "VL" => Some("volunteer")
    case _ => None
  }

  /** Codes that differ only in letter case classify alike. */
  lemma TypeFromQRIgnoresCase(c1: string, c2: string)
    requires ToUpper(c1) == ToUpper(c2)
    ensures TypeFromQR(c1) == TypeFromQR(c2)
  {
    BeforeFirstToUpper(c1);
    BeforeFirstToUpper(c2);
    ToUpperIdempotent(BeforeFirst(c1, '-'));
    ToUpperIdempotent(BeforeFirst(c2, '-'));
  }

  /** A code `P-rest` whose prefix `P` is none of the five known ones, in any letter case, has no category. */
  lemma UnknownPrefixGivesNone(p: string, rest: string)
    requires '-' !in p && ToUpper(p) !in {"AL", "FL", "STU", "PR", "VL"}
    ensures TypeFromQR(p + "-" + rest) == None
  {
    BeforeFirstOfJoined(p, '-', rest);
    assert p + "-" + rest == p + ['-'] + rest;
  }

  /** A code `P-rest` whose prefix `P` is one of the five known ones classifies by `P` alone. */
  lemma TypeFromPrefixedCode(p: string, rest: string)
    requires p in {"AL", "FL", "STU", "PR", "VL"}
    ensures TypeFromQR(p + "-" + rest) ==
      Some(if p == "AL" then "alumni" else if p == "FL" then "faculty" else if p == "STU" then "student"
           else if p == "PR" then "press" else "volunteer")
  {
    BeforeFirstOfJoined(p, '-', rest);
    assert p + "-" + rest == p + ['-'] + rest;
    assert ToUpper(p) == p;
  }

  /** The answer of `select * from attendees where qr_code = code` (`maybeSingle`). */
  datatype Lookup = Found(row: Attendee) | NotFound | LookupError(message: string)

  /** What the page's `<main>` shows. */
  datatype Screen =
    | ScanScreen
    | RegistrationScreen(code: string, kind: Option<string>)
    | ProfileScreen(attendee: Attendee)
    | EmptyScreen

  /** `scannedQR` is truthy: held and not the empty string. */
  predicate Held(scannedQR: Option<string>) {
    scannedQR.Some? && scannedQR.value != ""
  }

  /**
   * The render rule: no code held shows the scanner; otherwise the
   * registration form when asked for; otherwise the profile when a record is
   * loaded; otherwise nothing.
   */
  function SelectScreen(scannedQR: Option<string>, showRegistration: bool,
                        attendeeData: Option<Attendee>, attendeeType: Option<string>): (v: Screen)
    ensures v == ScanScreen <==> !Held(scannedQR)
    ensures v.RegistrationScreen? <==> Held(scannedQR) && showRegistration
    ensures v.RegistrationScreen? ==> v.code == scannedQR.value && v.kind == attendeeType
    ensures v.ProfileScreen? <==> Held(scannedQR) && !showRegistration && attendeeData.Some?
    ensures v.ProfileScreen? ==> v.attendee == attendeeData.value
  {
    if !Held(scannedQR) then ScanScreen
    else if showRegistration then RegistrationScreen(scannedQR.value, attendeeType)
    else if attendeeData.Some? then ProfileScreen(attendeeData.value)
    else EmptyScreen
  }

  class ScannerPage {
    var scannedQR: Option<string>
    var attendeeData: Option<Attendee>
    var showRegistration: bool
    var loading: bool
    var attendeeType: Option<string>

    constructor()
      ensures scannedQR == None && attendeeData == None && !showRegistration && attendeeType == None
      ensures loading
    {
      scannedQR := None;
      attendeeData := None;
      showRegistration := false;
      loading := true;
      attendeeType := None;
    }

    function Render(): Screen
      reads this
    {
      SelectScreen(scannedQR, showRegistration, attendeeData, attendeeType)
    }

    /**
     * `handleQRScan(code)`: hold the code and its category, then apply the
     * lookup. A found record opens the profile, a missing one the
     * registration form; a failed lookup leaves both as they were.
     */
    method HandleQRScan(code: string, lookup: Lookup)
      modifies this
      ensures scannedQR == Some(code) && attendeeType == TypeFromQR(code) && !loading
      ensures lookup.Found? ==> attendeeData == Some(lookup.row) && !showRegistration
      ensures lookup.NotFound? ==> attendeeData == None && showRegistration
      ensures lookup.LookupError? ==> attendeeData == old(attendeeData) && showRegistration == old(showRegistration)
      ensures code != "" && lookup.Found? ==> Render() == ProfileScreen(lookup.row)
      ensures code != "" && lookup.NotFound? ==> Render() == RegistrationScreen(code, TypeFromQR(code))
    {
      scannedQR := Some(code);
      loading := true;
      attendeeType := TypeFromQR(code);
      match lookup {
        case Found(row) =>
          attendeeData := Some(row);
          showRegistration := false;
        case NotFound =>
          attendeeData := None;
          showRegistration := true;
        case LookupError(_) =>
      }
      loading := false;
    }

    /** `handleBackToScanner`: forget the code, the record, the form and the category. */
    method HandleBackToScanner()
      modifies this
      ensures scannedQR == None && attendeeData == None && !showRegistration && attendeeType == None
      ensures loading == old(loading)
      ensures Render() == ScanScreen
    {
      scannedQR := None;
      attendeeData := None;
      showRegistration := false;
      attendeeType := None;
    }

    /** `handleRegistrationComplete`: look the held code up again; without one, do nothing. */
    method HandleRegistrationComplete(lookup: Lookup)
      modifies this
      ensures !Held(old(scannedQR)) ==>
        scannedQR == old(scannedQR) && attendeeData == old(attendeeData) && showRegistration == old(showRegistration)
        && attendeeType == old(attendeeType) && loading == old(loading)
      ensures Held(old(scannedQR)) ==> scannedQR == old(scannedQR) && attendeeType == TypeFromQR(old(scannedQR).value) && !loading
      ensures Held(old(scannedQR)) && lookup.Found? ==>
        attendeeData == Some(lookup.row) && !showRegistration && Render() == ProfileScreen(lookup.row)
      ensures Held(old(scannedQR)) && lookup.NotFound? ==>
        attendeeData == None && showRegistration
        && Render() == RegistrationScreen(old(scannedQR).value, TypeFromQR(old(scannedQR).value))
      ensures Held(old(scannedQR)) && lookup.LookupError? ==>
        attendeeData == old(attendeeData) && showRegistration == old(showRegistration)
    {
      if Held(scannedQR) {
        HandleQRScan(scannedQR.value, lookup);
      }
    }
  }
}
