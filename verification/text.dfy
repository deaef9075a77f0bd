/** Character classes of JavaScript regular expressions and the string
    operations trim and toLowerCase. */
module Text {

  /** `\s` of a JavaScript regular expression, which is also the set of
      characters String.prototype.trim removes: WhiteSpace and LineTerminator. */
  predicate IsSpace(c: char) {
    c == '\t' || c == '\n' || c == '\U{B}' || c == '\U{C}' || c == '\r' || c == ' '
    || c == '\U{A0}' || c == '\U{1680}' || ('\U{2000}' <= c <= '\U{200A}')
    || c == '\U{2028}' || c == '\U{2029}' || c == '\U{202F}' || c == '\U{205F}'
    || c == '\U{3000}' || c == '\U{FEFF}'
  }

  /** The characters `.` does not match without the `s` flag. */
  predicate IsLineTerminator(c: char) {
    c == '\n' || c == '\r' || c == '\U{2028}' || c == '\U{2029}'
  }

  /** `\w`: ASCII letters, digits and underscore. */
  predicate IsWordChar(c: char) {
    ('a' <= c <= 'z') || ('A' <= c <= 'Z') || ('0' <= c <= '9') || c == '_'
  }

  /** `\d`: ASCII decimal digits. */
  predicate IsDigit(c: char) {
    '0' <= c <= '9'
  }

  /** `[A-Za-z]`. */
  predicate IsLetter(c: char) {
    ('a' <= c <= 'z') || ('A' <= c <= 'Z')
  }

  /** Index of the first non-space character at or after k (|s| if none). */
  function SkipSpace(s: string, k: nat): (r: nat)
    requires k <= |s|
    ensures k <= r <= |s|
    ensures forall i :: k <= i < r ==> IsSpace(s[i])
    ensures r < |s| ==> !IsSpace(s[r])
    decreases |s| - k
  {
    if k == |s| || !IsSpace(s[k]) then k else SkipSpace(s, k + 1)
  }

  /** One past the last non-space character before k (0 if none). */
  function SkipSpaceBack(s: string, k: nat): (r: nat)
    requires k <= |s|
    ensures r <= k
    ensures forall i :: r <= i < k ==> IsSpace(s[i])
    ensures r > 0 ==> !IsSpace(s[r - 1])
  {
    if k == 0 || !IsSpace(s[k - 1]) then k else SkipSpaceBack(s, k - 1)
  }

  /** String.prototype.trim. */
  function Trim(s: string): (r: string)
  {
    var lo := SkipSpace(s, 0);
    var hi := SkipSpaceBack(s, |s|);
    if lo < hi then s[lo..hi] else ""
  }

  /** Trim removes exactly the leading and trailing white space: the result
      is a contiguous piece of the input, everything cut off is white space,
      and the result neither starts nor ends with white space. */
  lemma TrimSpec(s: string)
    ensures exists lo, hi ::
      (&& 0 <= lo <= hi <= |s| && Trim(s) == s[lo..hi]
       && (forall i :: 0 <= i < lo ==> IsSpace(s[i]))
       && (forall i :: hi <= i < |s| ==> IsSpace(s[i])))
    ensures Trim(s) != [] ==> !IsSpace(Trim(s)[0]) && !IsSpace(Trim(s)[|Trim(s)| - 1])
  {
    var lo := SkipSpace(s, 0);
    var hi := SkipSpaceBack(s, |s|);
    if lo < hi {
      assert Trim(s) == s[lo..hi];
    } else {
      assert forall i :: 0 <= i < |s| ==> IsSpace(s[i]);
      assert Trim(s) == s[0..0];
    }
  }

  /** The input is its trimmed form between two runs of white space. */
  lemma TrimSplit(s: string) returns (a: string, b: string)
    ensures s == a + Trim(s) + b && AllSpace(a) && AllSpace(b)
  {
    var lo := SkipSpace(s, 0);
    var hi := SkipSpaceBack(s, |s|);
    if lo < hi {
      a, b := s[..lo], s[hi..];
      assert s == a + s[lo..hi] + b;
    } else {
      a, b := s, [];
      assert s == a + [] + b;
    }
  }

  /** Trimming twice is trimming once. */
  lemma {:induction false} TrimIdempotent(s: string)
    ensures Trim(Trim(s)) == Trim(s)
  {
    TrimSpec(s);
    var t := Trim(s);
    if t != [] {
      assert SkipSpace(t, 0) == 0;
      assert SkipSpaceBack(t, |t|) == |t|;
      assert t[0..|t|] == t;
    }
  }

  /** U+212A KELVIN SIGN, the one character outside ASCII whose lower case
      is an ASCII letter (`k`). */
  const KelvinSign: char := '\U{212A}'

  /** The lower case of one character: ASCII capitals and the Kelvin sign
      become ASCII small letters; every other character the model meets keeps
      its class under `\w`, `\s`, `@`, `.` and `-`. */
  function LowerChar(c: char): (r: char)
    ensures IsWordChar(c) ==> IsWordChar(r)
    ensures IsWordChar(r) ==> IsWordChar(c) || c == KelvinSign
    ensures !('A' <= r <= 'Z') && r != KelvinSign
    ensures c != KelvinSign && !('A' <= c <= 'Z') ==> r == c
  {
    if 'A' <= c <= 'Z' then (c as int + 32) as char
    else if c == KelvinSign then 'k'
    else c
  }

  /** No Kelvin sign, so lower-casing keeps every character's class. */
  predicate NoKelvin(t: string) {
    forall k :: 0 <= k < |t| ==> t[k] != KelvinSign
  }

  /** String.prototype.toLowerCase, character by character. */
  function ToLower(s: string): (r: string)
    ensures |r| == |s|
    ensures forall i :: 0 <= i < |s| ==> r[i] == LowerChar(s[i])
    ensures forall i :: 0 <= i < |r| ==> !('A' <= r[i] <= 'Z')
  {
    seq(|s|, i requires 0 <= i < |s| => LowerChar(s[i]))
  }

  /** A string with no upper-case letter is its own lower-case form. */
  lemma ToLowerFixed(s: string)
    requires forall i :: 0 <= i < |s| ==> !('A' <= s[i] <= 'Z') && s[i] != KelvinSign
    ensures ToLower(s) == s
  {
  }

  predicate AllSpace(t: string) {
    forall k :: 0 <= k < |t| ==> IsSpace(t[k])
  }

  /** Trim gives back exactly what white space padding surrounds, when that
      neither starts nor ends with white space. */
  lemma TrimPadded(a: string, x: string, b: string)
    requires AllSpace(a) && AllSpace(b)
    requires x != [] ==> !IsSpace(x[0]) && !IsSpace(x[|x| - 1])
    ensures Trim(a + x + b) == x
  {
    var s := a + x + b;
    if x == [] {
      assert AllSpace(s) by {
        forall k | 0 <= k < |s| ensures IsSpace(s[k]) {
          if k < |a| { assert s[k] == a[k]; } else { assert s[k] == b[k - |a|]; }
        }
      }
      assert SkipSpace(s, 0) == |s|;
    } else {
      var lo := SkipSpace(s, 0);
      var hi := SkipSpaceBack(s, |s|);
      assert s[|a|] == x[0];
      assert lo <= |a|;
      forall k | 0 <= k < |a| ensures IsSpace(s[k]) { assert s[k] == a[k]; }
      assert lo == |a|;
      assert s[|a| + |x| - 1] == x[|x| - 1];
      assert hi >= |a| + |x|;
      forall k | |a| + |x| <= k < |s| ensures IsSpace(s[k]) { assert s[k] == b[k - |a| - |x|]; }
      assert hi == |a| + |x|;
      assert s[lo..hi] == x;
    }
  }

  lemma LowerKeepsSpace(c: char)
    ensures IsSpace(LowerChar(c)) <==> IsSpace(c)
  {
  }

  /** Lower-casing works character by character, so it distributes over
      concatenation. */
  lemma LowerConcat(a: string, x: string, b: string)
    ensures ToLower(a + x + b) == ToLower(a) + ToLower(x) + ToLower(b)
  {
  }

  /** Lower-cased white space is white space. */
  lemma LowerAllSpace(a: string)
    requires AllSpace(a)
    ensures AllSpace(ToLower(a))
  {
    forall k | 0 <= k < |a| ensures IsSpace(ToLower(a)[k]) {
      LowerKeepsSpace(a[k]);
    }
  }

  /** Lower-casing a trimmed text leaves it trimmed. */
  lemma LowerOfTrimmed(t: string)
    requires t != [] ==> !IsSpace(t[0]) && !IsSpace(t[|t| - 1])
    ensures Trim(ToLower(t)) == ToLower(t)
  {
    var l := ToLower(t);
    if t != [] {
      LowerKeepsSpace(t[0]);
      LowerKeepsSpace(t[|t| - 1]);
    }
    TrimPadded([], l, []);
    assert [] + l + [] == l;
  }
}
