/**
 * ECMAScript `String.prototype.trim`, which zod's `.trim()` applies before
 * its `.min`/`.max` length checks, and the "trimmed length between bounds"
 * rule that the credential forms use for every text field.
 */
module JsStrings {

  /** An ECMAScript WhiteSpace or LineTerminator code point: the characters `trim` removes. */
  predicate IsWhiteSpace(c: char)
  {
    || c == '\U{0009}' || c == '\U{000B}' || c == '\U{000C}' || c == ' '
    || c == '\U{00A0}' || c == '\U{FEFF}' || c == '\U{1680}'
    || ('\U{2000}' <= c <= '\U{200A}')
    || c == '\U{202F}' || c == '\U{205F}' || c == '\U{3000}'
    || c == '\U{000A}' || c == '\U{000D}' || c == '\U{2028}' || c == '\U{2029}'
  }

  /** How many white-space characters `s` starts with. */
  function LeadingSpace(s: string): (n: nat)
    ensures n <= |s|
    ensures forall k :: 0 <= k < n ==> IsWhiteSpace(s[k])
    ensures n == |s| || !IsWhiteSpace(s[n])
    decreases |s|
  {
    if s != [] && IsWhiteSpace(s[0]) then 1 + LeadingSpace(s[1..]) else 0
  }

  /** How many white-space characters `s` ends with. */
  function TrailingSpace(s: string): (n: nat)
    ensures n <= |s|
    ensures forall k :: |s| - n <= k < |s| ==> IsWhiteSpace(s[k])
    ensures n == |s| || !IsWhiteSpace(s[|s| - n - 1])
    decreases |s|
  {
    if s != [] && IsWhiteSpace(s[|s| - 1]) then 1 + TrailingSpace(s[..|s| - 1]) else 0
  }

  /** `s` with its leading white space removed. */
  function TrimStart(s: string): (r: string)
    ensures |r| <= |s| && r == s[|s| - |r|..]
    ensures r == [] || !IsWhiteSpace(r[0])
    ensures forall i :: 0 <= i < |s| - |r| ==> IsWhiteSpace(s[i])
  {
    s[LeadingSpace(s)..]
  }

  /** `s` with its trailing white space removed. */
  function TrimEnd(s: string): (r: string)
    ensures |r| <= |s| && r == s[..|r|]
    ensures r == [] || !IsWhiteSpace(r[|r| - 1])
    ensures forall i :: |r| <= i < |s| ==> IsWhiteSpace(s[i])
  {
    s[..|s| - TrailingSpace(s)]
  }

  /** `s.trim()`: never longer, and without white space at either end. */
  function Trim(s: string): (r: string)
    ensures |r| <= |s|
    ensures r == [] || (!IsWhiteSpace(r[0]) && !IsWhiteSpace(r[|r| - 1]))
  {
    TrimEnd(TrimStart(s))
  }

  /**
   * Trimming removes exactly a white-space prefix and a white-space suffix:
   * the result is a contiguous slice of `s`.
   */
  lemma {:induction false} TrimSlice(s: string) returns (i: nat, j: nat)
    ensures i <= j <= |s| && Trim(s) == s[i..j]
    ensures forall k :: 0 <= k < i ==> IsWhiteSpace(s[k])
    ensures forall k :: j <= k < |s| ==> IsWhiteSpace(s[k])
  {
    i := LeadingSpace(s);
    var u := s[i..];
    var n := TrailingSpace(u);
    j := |s| - n;
    assert Trim(s) == s[i..j] by {
      assert TrimStart(s) == u;
      assert Trim(s) == u[..|u| - n];
    }
    assert forall k :: j <= k < |s| ==> IsWhiteSpace(s[k]) by {
      forall k | j <= k < |s| ensures IsWhiteSpace(s[k]) {
        var m := k - i;
        assert |u| - n <= m < |u|;
        assert s[k] == u[m];
        assert IsWhiteSpace(u[m]);
      }
    }
  }

  /** A trimmed string neither starts nor ends with white space. */
  lemma {:induction false} TrimmedEnds(s: string)
    ensures Trim(s) == [] || (!IsWhiteSpace(Trim(s)[0]) && !IsWhiteSpace(Trim(s)[|Trim(s)| - 1]))
  {
    var u := TrimStart(s);
    var t := TrimEnd(u);
    if t != [] {
      assert t[0] == u[0];
    }
  }

  /** A string trims to nothing exactly when it is all white space. */
  lemma {:induction false} TrimEmptyIffBlank(s: string)
    ensures Trim(s) == [] <==> forall k :: 0 <= k < |s| ==> IsWhiteSpace(s[k])
  {
    var i, j := TrimSlice(s);
    TrimmedEnds(s);
    if Trim(s) != [] {
      assert s[i] == Trim(s)[0];
    }
  }

  /** Trimming twice is trimming once. */
  lemma {:induction false} TrimIdempotent(s: string)
    ensures Trim(Trim(s)) == Trim(s)
  {
    var t := Trim(s);
    TrimmedEnds(s);
    if t != [] {
      var u := TrimStart(t);
      var v := TrimEnd(t);
    }
  }

  /** zod's `.string().trim().min(min).max(max)` on a present string value. */
  predicate TrimmedLengthIn(s: string, min: nat, max: nat)
  {
    min <= |Trim(s)| <= max
  }

  /**
   * With bounds 1..max, a value passes iff it holds some non-white-space
   * character and what is left after trimming has at most `max` characters.
   */
  lemma NonBlankWithin(s: string, max: nat)
    requires max >= 1
    ensures TrimmedLengthIn(s, 1, max) <==>
              (exists k :: 0 <= k < |s| && !IsWhiteSpace(s[k])) && |Trim(s)| <= max
  {
    TrimEmptyIffBlank(s);
  }
}
