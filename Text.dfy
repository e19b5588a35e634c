/**
 * The few pieces of Python string behaviour the service depends on:
 * rendering an integer into a message, `str.strip()` and `str.lower()`.
 */
module Text {

  // ---------------------------------------------------------------------
  // Decimal rendering of non-negative integers (f-string `{n}` and numpy's
  // shape messages)
  // ---------------------------------------------------------------------

  function DigitChar(d: nat): (c: char)
    requires d < 10
    ensures '0' <= c <= '9'
  {
    ['0', '1', '2', '3', '4', '5', '6', '7', '8', '9'][d]
  }

  function DigitValue(c: char): (d: nat)
    requires '0' <= c <= '9'
    ensures d < 10
  {
    (c as int - '0' as int) as nat
  }

  predicate IsDigits(s: string) {
    forall i :: 0 <= i < |s| ==> '0' <= s[i] <= '9'
  }

  /** `str(n)` for a non-negative integer: shortest decimal, no sign. */
  function NatToString(n: nat): (s: string)
    ensures s != [] && IsDigits(s)
    ensures |s| > 1 ==> s[0] != '0'
    decreases n
  {
    if n < 10 then [DigitChar(n)] else NatToString(n / 10) + [DigitChar(n % 10)]
  }

  /** Reads a string of decimal digits back (the reference the rendering is checked against). */
  function ParseDigits(s: string): nat
    requires IsDigits(s)
  {
    if s == [] then 0 else 10 * ParseDigits(s[..|s| - 1]) + DigitValue(s[|s| - 1])
  }

  lemma {:induction false} ParseNatToString(n: nat)
    ensures ParseDigits(NatToString(n)) == n
    decreases n
  {
    var s := NatToString(n);
    if n < 10 {
      assert s[..|s| - 1] == [];
    } else {
      ParseNatToString(n / 10);
      assert s[..|s| - 1] == NatToString(n / 10);
    }
  }

  // ---------------------------------------------------------------------
  // str.strip() and str.lower()
  // ---------------------------------------------------------------------

  /** The characters Python's `str.isspace()` accepts, which `str.strip()` removes. */
  predicate IsSpace(c: char) {
    ('\t' <= c <= '\r') || ('\U{1C}' <= c <= ' ') || c == '\U{85}' || c == '\U{A0}' || c == '\U{1680}'
    || ('\U{2000}' <= c <= '\U{200A}') || c == '\U{2028}' || c == '\U{2029}' || c == '\U{202F}'
    || c == '\U{205F}' || c == '\U{3000}'
  }

  predicate AllSpace(s: string) {
    forall i :: 0 <= i < |s| ==> IsSpace(s[i])
  }

  lemma AllSpaceSnoc(a: string, c: char)
    requires AllSpace(a) && IsSpace(c)
    ensures AllSpace(a + [c])
  {
  }

  /** Number of whitespace characters at the front of `s`. */
  function LeadingSpaces(s: string): (n: nat)
    ensures n <= |s| && AllSpace(s[..n])
    ensures n < |s| ==> !IsSpace(s[n])
  {
    if s == [] || !IsSpace(s[0]) then 0
    else
      var k := LeadingSpaces(s[1..]);
      assert s[..k + 1] == [s[0]] + s[1..][..k];
      k + 1
  }

  /** Number of whitespace characters at the back of `s`. */
  function TrailingSpaces(s: string): (n: nat)
    ensures n <= |s| && AllSpace(s[|s| - n..])
    ensures n < |s| ==> !IsSpace(s[|s| - 1 - n])
  {
    if s == [] || !IsSpace(s[|s| - 1]) then 0
    else
      var front := s[..|s| - 1];
      var k := TrailingSpaces(front);
      assert s[|s| - (k + 1)..] == front[|front| - k..] + [s[|s| - 1]];
      AllSpaceSnoc(front[|front| - k..], s[|s| - 1]);
      assert k + 1 < |s| ==> s[|s| - 1 - (k + 1)] == front[|front| - 1 - k];
      k + 1
  }

  /** `s.strip()`: `s` without its leading and trailing whitespace. */
  function Strip(s: string): (r: string)
    ensures |r| <= |s|
    ensures r == [] <==> AllSpace(s)
    ensures r != [] ==> !IsSpace(r[0]) && !IsSpace(r[|r| - 1])
  {
    var lead := LeadingSpaces(s);
    if lead == |s| then
      assert s[..lead] == s;
      ""
    else
      var trail := TrailingSpaces(s);
      assert !IsSpace(s[lead]);
      s[lead..|s| - trail]
  }

  lemma LeadingSpacesOfPadded(pre: string, w: string, post: string)
    requires AllSpace(pre) && w != [] && !IsSpace(w[0])
    ensures LeadingSpaces(pre + w + post) == |pre|
  {
    var s := pre + w + post;
    assert forall i :: 0 <= i < |pre| ==> s[i] == pre[i];
    assert s[|pre|] == w[0];
  }

  lemma TrailingSpacesOfPadded(pre: string, w: string, post: string)
    requires AllSpace(post) && w != [] && !IsSpace(w[|w| - 1])
    ensures TrailingSpaces(pre + w + post) == |post|
  {
    var s := pre + w + post;
    assert forall j :: |s| - |post| <= j < |s| ==> s[j] == post[j - (|s| - |post|)];
    assert s[|s| - 1 - |post|] == w[|w| - 1];
  }

  /** Stripping removes exactly the whitespace padding around a word that starts and ends with a non-space. */
  lemma StripPadded(pre: string, w: string, post: string)
    requires AllSpace(pre) && AllSpace(post)
    requires w != [] && !IsSpace(w[0]) && !IsSpace(w[|w| - 1])
    ensures Strip(pre + w + post) == w
  {
    var s := pre + w + post;
    LeadingSpacesOfPadded(pre, w, post);
    TrailingSpacesOfPadded(pre, w, post);
    assert s[|pre|..|s| - |post|] == w;
  }

  /** Every string is its stripped form surrounded by whitespace. */
  lemma StripSplits(s: string)
    ensures exists i: nat :: (i + |Strip(s)| <= |s|
      && s == s[..i] + Strip(s) + s[i + |Strip(s)|..]
      && AllSpace(s[..i]) && AllSpace(s[i + |Strip(s)|..]))
  {
    var lead := LeadingSpaces(s);
    var r := Strip(s);
    if lead == |s| {
      assert s[..lead] == s && s[lead + |r|..] == [];
    } else {
      var trail := TrailingSpaces(s);
      assert r == s[lead..|s| - trail];
      assert s[lead + |r|..] == s[|s| - trail..];
    }
    assert s == s[..lead] + r + s[lead + |r|..];
  }

  /** `c.lower()` for ASCII letters; other characters are left as they are. */
  function LowerChar(c: char): (l: char)
    ensures 'A' <= c <= 'Z' ==> 'a' <= l <= 'z'
    ensures !('A' <= c <= 'Z') ==> l == c
  {
    if 'A' <= c <= 'Z' then (c as int - 'A' as int + 'a' as int) as char else c
  }

  /**
   * `s.lower()` restricted to ASCII: every capital becomes its small letter,
   * every other character stays, and no capital is left.
   */
  function Lower(s: string): (r: string)
    ensures |r| == |s|
    ensures forall i :: 0 <= i < |s| && 'A' <= s[i] <= 'Z' ==> r[i] as int == s[i] as int + 32
    ensures forall i :: 0 <= i < |s| && !('A' <= s[i] <= 'Z') ==> r[i] == s[i]
    ensures forall i :: 0 <= i < |r| ==> !('A' <= r[i] <= 'Z')
  {
    seq(|s|, i requires 0 <= i < |s| => LowerChar(s[i]))
  }

  /** Lowering an already lowered string changes nothing. */
  lemma LowerIdempotent(s: string)
    ensures Lower(Lower(s)) == Lower(s)
  {
    var l := Lower(s);
    assert forall i :: 0 <= i < |l| ==> Lower(l)[i] == l[i];
  }
}
