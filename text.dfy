/**
 * The JavaScript string operations the pages rely on: `toLowerCase`,
 * `toUpperCase`, `trim`, `includes`, `split(c)[0]`, `split` and `join`.
 * Case mapping is modelled on the ASCII letters only; `trim` removes the
 * ECMAScript white-space and line-terminator characters.
 */
module Text {

  predicate IsUpperLetter(c: char) { 'A' <= c <= 'Z' }

  predicate IsLowerLetter(c: char) { 'a' <= c <= 'z' }

  function LowerChar(c: char): char {
    if IsUpperLetter(c) then (c as int + 32) as char else c
  }

  function UpperChar(c: char): char {
    if IsLowerLetter(c) then (c as int - 32) as char else c
  }

  /** `s.toLowerCase()` */
  function ToLower(s: string): (r: string)
    ensures |r| == |s|
    ensures forall i :: 0 <= i < |s| ==> r[i] == LowerChar(s[i])
  {
    seq(|s|, i requires 0 <= i < |s| => LowerChar(s[i]))
  }

  /** `s.toUpperCase()` */
  function ToUpper(s: string): (r: string)
    ensures |r| == |s|
    ensures forall i :: 0 <= i < |s| ==> r[i] == UpperChar(s[i])
  {
    seq(|s|, i requires 0 <= i < |s| => UpperChar(s[i]))
  }

  /** No lower-case letter occurs in `s`. */
  predicate NoLowerCase(s: string) {
    forall i :: 0 <= i < |s| ==> !IsLowerLetter(s[i])
  }

  /** `s.charAt(0).toUpperCase() + s.slice(1)` */
  function Capitalized(s: string): (r: string)
    ensures |r| == |s|
    ensures |s| > 0 ==> !IsLowerLetter(r[0]) && r[1..] == s[1..]
  {
    if s == [] then [] else [UpperChar(s[0])] + s[1..]
  }

  lemma ToUpperIsUpper(s: string)
    ensures NoLowerCase(ToUpper(s))
  {
  }

  /** Lower-casing changes nothing in a string without upper-case letters. */
  lemma ToLowerOfLower(s: string)
    requires forall i :: 0 <= i < |s| ==> !IsUpperLetter(s[i])
    ensures ToLower(s) == s
  {
  }

  lemma ToUpperIdempotent(s: string)
    ensures ToUpper(ToUpper(s)) == ToUpper(s)
  {
    assert forall i :: 0 <= i < |s| ==> ToUpper(ToUpper(s))[i] == ToUpper(s)[i];
  }

  // ---------------------------------------------------------------------------
  // Substrings: `s.includes(t)`

  predicate OccursAt(s: string, t: string, i: nat) {
    i + |t| <= |s| && s[i..i + |t|] == t
  }

  predicate Contains(s: string, t: string) {
    exists i: nat :: i <= |s| && OccursAt(s, t, i)
  }

  lemma ContainsEmpty(s: string)
    ensures Contains(s, "")
  {
    assert OccursAt(s, "", 0);
  }

  lemma ContainsSelf(s: string)
    ensures Contains(s, s)
  {
    assert OccursAt(s, s, 0);
  }

  /** A substring of a substring is a substring. */
  lemma ContainsTransitive(a: string, b: string, c: string)
    requires Contains(a, b) && Contains(b, c)
    ensures Contains(a, c)
  {
    var i: nat :| i <= |a| && OccursAt(a, b, i);
    var j: nat :| j <= |b| && OccursAt(b, c, j);
    forall k | 0 <= k < |c| ensures a[i + j + k] == c[k] {
      assert c[k] == b[j..j + |c|][k] == b[j + k];
      assert b[j + k] == a[i..i + |b|][j + k];
    }
    assert a[i + j..i + j + |c|] == c;
    assert OccursAt(a, c, i + j);
  }

  /** Lower-casing both sides keeps a substring a substring. */
  lemma ToLowerKeepsContains(s: string, t: string)
    requires Contains(s, t)
    ensures Contains(ToLower(s), ToLower(t))
  {
    var i: nat :| i <= |s| && OccursAt(s, t, i);
    assert ToLower(s)[i..i + |t|] == ToLower(t);
    assert OccursAt(ToLower(s), ToLower(t), i);
  }

  // ---------------------------------------------------------------------------
  // `s.trim()`

  /** ECMAScript WhiteSpace and LineTerminator code points. */
  predicate IsSpace(c: char) {
    || c == ' ' || c == '\t' || c == '\n' || c == '\r'
    || c == '\U{000B}' || c == '\U{000C}' || c == '\U{00A0}' || c == '\U{1680}'
    || ('\U{2000}' <= c <= '\U{200A}')
    || c == '\U{2028}' || c == '\U{2029}' || c == '\U{202F}' || c == '\U{205F}'
    || c == '\U{3000}' || c == '\U{FEFF}'
  }

  predicate IsBlank(s: string) {
    forall i :: 0 <= i < |s| ==> IsSpace(s[i])
  }

  /** The number of white-space characters `s` starts with. */
  function LeadingSpaces(s: string): (k: nat)
    ensures k <= |s|
    ensures forall i :: 0 <= i < k ==> IsSpace(s[i])
    ensures k < |s| ==> !IsSpace(s[k])
  {
    if s != [] && IsSpace(s[0]) then 1 + LeadingSpaces(s[1..]) else 0
  }

  /** The number of white-space characters `s` ends with. */
  function TrailingSpaces(s: string): (k: nat)
    ensures k <= |s|
    ensures forall i :: |s| - k <= i < |s| ==> IsSpace(s[i])
    ensures k < |s| ==> !IsSpace(s[|s| - 1 - k])
  {
    if s != [] && IsSpace(s[|s| - 1]) then 1 + TrailingSpaces(s[..|s| - 1]) else 0
  }

  /**
   * `s.trim()`: `s` without its leading and trailing white space. It is
   * empty exactly when `s` is blank, and otherwise it neither starts nor
   * ends with white space.
   */
  function Trim(s: string): (r: string)
    ensures r == [] <==> IsBlank(s)
    ensures r != [] ==> !IsSpace(r[0]) && !IsSpace(r[|r| - 1])
  {
    var lead := LeadingSpaces(s);
    if lead == |s| then [] else s[lead..|s| - TrailingSpaces(s)]
  }

  /** What `trim` keeps is an infix of `s` with only white space before and after it. */
  lemma TrimIsInfix(s: string)
    ensures exists i: nat :: i <= |s| && OccursAt(s, Trim(s), i) && IsBlank(s[..i]) && IsBlank(s[i + |Trim(s)|..])
  {
    var lead := LeadingSpaces(s);
    if lead == |s| {
      assert OccursAt(s, Trim(s), lead);
    } else {
      var trail := TrailingSpaces(s);
      assert OccursAt(s, Trim(s), lead);
      assert s[lead + |Trim(s)|..] == s[|s| - trail..];
    }
  }

  /** Trimming a string without lower-case letters leaves none. */
  lemma TrimKeepsNoLowerCase(s: string)
    ensures NoLowerCase(s) ==> NoLowerCase(Trim(s))
  {
    var lead := LeadingSpaces(s);
    if NoLowerCase(s) && lead < |s| {
      var r := Trim(s);
      forall k | 0 <= k < |r| ensures !IsLowerLetter(r[k]) {
        assert r[k] == s[lead + k];
      }
    }
  }

  // ---------------------------------------------------------------------------
  // `s.split(c)[0]`, `s.split(c)` and `parts.join(sep)`

  /** `s.split(c)[0]`: the text before the first `c`, or all of `s` when there is none. */
  function BeforeFirst(s: string, c: char): (r: string)
    ensures |r| <= |s| && r == s[..|r|]
    ensures c !in r
    ensures |r| < |s| ==> s[|r|] == c
  {
    if s == [] || s[0] == c then [] else [s[0]] + BeforeFirst(s[1..], c)
  }

  /** Upper-casing a string and taking its prefix before `-` commute. */
  lemma {:induction false} BeforeFirstToUpper(s: string)
    ensures BeforeFirst(ToUpper(s), '-') == ToUpper(BeforeFirst(s, '-'))
  {
    if s != [] && s[0] != '-' {
      assert ToUpper(s)[1..] == ToUpper(s[1..]);
      BeforeFirstToUpper(s[1..]);
      assert ToUpper([s[0]] + BeforeFirst(s[1..], '-')) == [UpperChar(s[0])] + ToUpper(BeforeFirst(s[1..], '-'));
    }
  }

  /** The prefix of `p + [c] + rest` before `c` is `p` when `p` holds no `c`. */
  lemma {:induction false} BeforeFirstOfJoined(p: string, c: char, rest: string)
    requires c !in p
    ensures BeforeFirst(p + [c] + rest, c) == p
  {
    if p != [] {
      assert (p + [c] + rest)[1..] == p[1..] + [c] + rest;
      BeforeFirstOfJoined(p[1..], c, rest);
    }
  }

  /** `s.split(c)`: the maximal pieces of `s` that hold no `c`. */
  function Split(s: string, c: char): (r: seq<string>)
    ensures |r| >= 1
    ensures forall i :: 0 <= i < |r| ==> c !in r[i]
    decreases |s|
  {
    var head := BeforeFirst(s, c);
    if |head| == |s| then [s] else [head] + Split(s[|head| + 1..], c)
  }

  /** `parts.join(sep)` */
  function Join(parts: seq<string>, sep: string): string {
    if |parts| == 0 then ""
    else if |parts| == 1 then parts[0]
    else parts[0] + sep + Join(parts[1..], sep)
  }

  /** Joining pieces that hold no `c` with a separator that holds no `c` gives a string without `c`. */
  lemma {:induction false} JoinAvoids(parts: seq<string>, sep: string, c: char)
    requires c !in sep
    requires forall i :: 0 <= i < |parts| ==> c !in parts[i]
    ensures c !in Join(parts, sep)
  {
    if |parts| > 1 {
      JoinAvoids(parts[1..], sep, c);
    }
  }

  /** Splitting on `c` undoes joining with `c` when no part holds a `c`. */
  lemma {:induction false} SplitJoin(parts: seq<string>, c: char)
    requires |parts| >= 1
    requires forall i :: 0 <= i < |parts| ==> c !in parts[i]
    ensures Split(Join(parts, [c]), c) == parts
  {
    if |parts| == 1 {
      assert BeforeFirst(parts[0], c) == parts[0];
    } else {
      var rest := Join(parts[1..], [c]);
      BeforeFirstOfJoined(parts[0], c, rest);
      var s := parts[0] + [c] + rest;
      assert s[|parts[0]| + 1..] == rest;
      SplitJoin(parts[1..], c);
    }
  }
}
