/** The user schema: the e-mail pattern, the three password validators,
    the order in which validation reports a failure, the setters applied to
    the e-mail, and the pre-save hook that hashes the password. */
module UserModel {
  import opened Wrappers
  import opened Text

  const EmailRequired := "Email is required"
  const EmailInvalid := "Please enter a valid email address"
  const PasswordRequired := "Password must contain minimum 8 characters, one letter, and one number"
  const PasswordShort := "Password should be minimum 8 characters long"
  const PasswordNoLetter := "Password must contain at least one letter"
  const PasswordNoDigit := "Password must contain at least one number"

  /** `[\.-]`. */
  predicate IsSep(c: char) {
    c == '.' || c == '-'
  }

  /** `\w+`, the whole string. */
  predicate Word(t: string) {
    |t| > 0 && forall k :: 0 <= k < |t| ==> IsWordChar(t[k])
  }

  /* The e-mail pattern as written, one regular-expression piece at a time. */

  /** `\w+([\.-]?\w+)*`: a word followed by any number of words, each
      after an optional separator. */
  ghost predicate Words(t: string)
    decreases |t|
  {
    || Word(t)
    || exists k :: 0 < k < |t| && Words(t[..k]) && (Word(t[k..]) || (IsSep(t[k]) && Word(t[k + 1..])))
  }

  /** `(\.\w{2,})+`. */
  ghost predicate Tlds(t: string)
    decreases |t|
  {
    || (|t| >= 3 && t[0] == '.' && Word(t[1..]))
    || exists k :: 3 <= k < |t| && t[0] == '.' && Word(t[1..k]) && Tlds(t[k..])
  }

  /** `^\w+([\.-]?\w+)*@\w+([\.-]?\w+)*(\.\w{2,})+$` matches s. */
  ghost predicate PatternMatches(s: string) {
    exists i, j :: PatternAt(s, i, j)
  }

  /** The match that puts the `@` at i and the top-level labels from j on. */
  ghost predicate PatternAt(s: string, i: int, j: int) {
    0 <= i < j <= |s| && s[i] == '@' && Words(s[..i]) && Words(s[i + 1..j]) && Tlds(s[j..])
  }

  /* The same language described by its shape. */

  /** Word characters with single `.`/`-` separators, none at either end. */
  predicate Dotted(t: string) {
    && |t| > 0 && IsWordChar(t[0]) && IsWordChar(t[|t| - 1])
    && (forall k :: 0 <= k < |t| ==> IsWordChar(t[k]) || IsSep(t[k]))
    && (forall k :: 0 <= k < |t| - 1 ==> !(IsSep(t[k]) && IsSep(t[k + 1])))
  }

  /** The last separator is a `.` followed by at least two word characters. */
  predicate EndsInTld(t: string) {
    exists j :: 0 <= j < |t| - 2 && t[j] == '.' && Word(t[j + 1..])
  }

  /** A domain: dotted, ending in a top-level label. */
  predicate DomainShape(t: string) {
    Dotted(t) && EndsInTld(t)
  }

  /** A dotted local part, `@`, and a domain. */
  predicate EmailShape(s: string) {
    exists i :: 0 <= i < |s| && s[i] == '@' && Dotted(s[..i]) && DomainShape(s[i + 1..])
  }

  /** A word is dotted (it has no separator). */
  lemma WordIsDotted(t: string)
    requires Word(t)
    ensures Dotted(t)
  {
  }

  /** Two dotted pieces side by side, or joined by one separator, are dotted. */
  lemma JoinDotted(p: string, q: string)
    requires Dotted(p) && Dotted(q)
    ensures Dotted(p + q)
  {
    var t := p + q;
    forall k | 0 <= k < |t| - 1
      ensures !(IsSep(t[k]) && IsSep(t[k + 1]))
    {
      if k + 1 < |p| {
        assert t[k] == p[k] && t[k + 1] == p[k + 1];
      } else if k + 1 == |p| {
        assert t[k + 1] == q[0];
      } else {
        assert t[k] == q[k - |p|] && t[k + 1] == q[k - |p| + 1];
      }
    }
  }

  lemma JoinDottedBy(p: string, c: char, q: string)
    requires Dotted(p) && IsSep(c) && Dotted(q)
    ensures Dotted(p + [c] + q)
  {
    var t := p + [c] + q;
    forall k | 0 <= k < |t| - 1
      ensures !(IsSep(t[k]) && IsSep(t[k + 1]))
    {
      if k + 1 < |p| {
        assert t[k] == p[k] && t[k + 1] == p[k + 1];
      } else if k + 1 == |p| {
        assert t[k] == p[|p| - 1];
      } else if k == |p| {
        assert t[k + 1] == q[0];
      } else {
        assert t[k] == q[k - |p| - 1] && t[k + 1] == q[k - |p|];
      }
    }
  }

  /** The part of a dotted string before one of its separators is dotted. */
  lemma DottedPrefix(t: string, j: nat)
    requires Dotted(t) && 0 < j < |t| && IsSep(t[j])
    ensures Dotted(t[..j])
  {
    assert !IsSep(t[j - 1]);
  }

  /** Index of the last separator before n, or -1. */
  function LastSep(t: string, n: nat): (r: int)
    requires n <= |t|
    ensures -1 <= r < n
    ensures r >= 0 ==> IsSep(t[r])
    ensures forall m :: r < m < n ==> !IsSep(t[m])
  {
    if n == 0 then -1 else if IsSep(t[n - 1]) then n - 1 else LastSep(t, n - 1)
  }

  lemma {:induction false} WordsAreDotted(t: string)
    requires Words(t)
    ensures Dotted(t)
    decreases |t|
  {
    if !Word(t) {
      var k :| 0 < k < |t| && Words(t[..k]) && (Word(t[k..]) || (IsSep(t[k]) && Word(t[k + 1..])));
      WordsAreDotted(t[..k]);
      DottedThenWord(t, k);
    }
  }

  /** A dotted prefix followed by a word, directly or after one separator,
      makes a dotted string. */
  lemma DottedThenWord(t: string, k: nat)
    requires 0 < k < |t| && Dotted(t[..k])
    requires Word(t[k..]) || (IsSep(t[k]) && Word(t[k + 1..]))
    ensures Dotted(t)
  {
    if Word(t[k..]) {
      WordIsDotted(t[k..]);
      JoinDotted(t[..k], t[k..]);
      SplitAt(t, k);
    } else {
      WordIsDotted(t[k + 1..]);
      JoinDottedBy(t[..k], t[k], t[k + 1..]);
      SplitAtChar(t, k);
    }
  }

  lemma SplitAt(t: string, k: nat)
    requires k <= |t|
    ensures t[..k] + t[k..] == t
  {
  }

  lemma SplitAtChar(t: string, k: nat)
    requires k < |t|
    ensures t[..k] + [t[k]] + t[k + 1..] == t
  {
  }

  lemma {:induction false} DottedAreWords(t: string)
    requires Dotted(t)
    ensures Words(t)
    decreases |t|
  {
    var k := LastSep(t, |t|);
    if k >= 0 {
      assert 0 < k < |t| - 1;
      DottedPrefix(t, k);
      DottedAreWords(t[..k]);
      var q := t[k + 1..];
      assert Word(q) by {
        forall m | 0 <= m < |q| ensures IsWordChar(q[m]) {
          assert q[m] == t[k + 1 + m];
        }
      }
      assert 0 < k < |t| && Words(t[..k]) && IsSep(t[k]) && Word(t[k + 1..]);
    }
  }

  lemma {:induction false} TldsShape(t: string)
    requires Tlds(t)
    ensures |t| >= 3 && t[0] == '.' && Dotted(t[1..]) && EndsInTld(t)
    decreases |t|
  {
    if |t| >= 3 && t[0] == '.' && Word(t[1..]) {
      WordIsDotted(t[1..]);
      assert t[0] == '.' && Word(t[0 + 1..]);
    } else {
      var k :| 3 <= k < |t| && t[0] == '.' && Word(t[1..k]) && Tlds(t[k..]);
      var w, r := t[1..k], t[k..];
      TldsShape(r);
      var j :| 0 <= j < |r| - 2 && r[j] == '.' && Word(r[j + 1..]);
      SliceOfSlice(t, k, j + 1);
      assert 0 <= k + j < |t| - 2 && t[k + j] == '.' && Word(t[k + j + 1..]);
      WordIsDotted(w);
      SliceOfSlice(t, k, 1);
      JoinDottedBy(w, '.', t[k + 1..]);
      SplitAround(t, k);
    }
  }

  /** The domain piece of the pattern matches exactly the domain shapes. */
  lemma DomainOfParts(p: string, q: string)
    requires Words(p) && Tlds(q)
    ensures DomainShape(p + q)
  {
    WordsAreDotted(p);
    TldsShape(q);
    JoinDottedBy(p, '.', q[1..]);
    ConsTail(p, q);
    var j :| 0 <= j < |q| - 2 && q[j] == '.' && Word(q[j + 1..]);
    SuffixOfConcat(p, q, j);
  }

  lemma ConsTail(p: string, q: string)
    requires |q| > 0
    ensures p + q == p + [q[0]] + q[1..]
  {
  }

  lemma SuffixOfConcat(p: string, q: string, j: nat)
    requires j < |q|
    ensures (p + q)[|p| + j] == q[j] && (p + q)[|p| + j + 1..] == q[j + 1..]
  {
  }

  lemma PartsOfDomain(t: string) returns (m: nat)
    requires DomainShape(t)
    ensures 0 < m < |t| && Words(t[..m]) && Tlds(t[m..])
  {
    var j :| 0 <= j < |t| - 2 && t[j] == '.' && Word(t[j + 1..]);
    m := j;
    DottedPrefix(t, m);
    DottedAreWords(t[..m]);
    assert t[m..][1..] == t[m + 1..];
  }

  /** The e-mail pattern accepts exactly the strings of the e-mail shape:
      a dotted local part, `@`, and a dotted domain whose last separator is
      a `.` followed by at least two word characters. */
  lemma EmailPatternShape(s: string)
    ensures PatternMatches(s) <==> EmailShape(s)
  {
    if PatternMatches(s) {
      PatternIsShape(s);
    }
    if EmailShape(s) {
      ShapeIsPattern(s);
    }
  }

  lemma PatternIsShape(s: string)
    requires PatternMatches(s)
    ensures EmailShape(s)
  {
    var i, j :| PatternAt(s, i, j);
    WordsAreDotted(s[..i]);
    DomainOfParts(s[i + 1..j], s[j..]);
    JoinSlices(s, i + 1, j);
    assert 0 <= i < |s| && s[i] == '@' && Dotted(s[..i]) && DomainShape(s[i + 1..]);
  }

  lemma ShapeIsPattern(s: string)
    requires EmailShape(s)
    ensures PatternMatches(s)
  {
    var i :| 0 <= i < |s| && s[i] == '@' && Dotted(s[..i]) && DomainShape(s[i + 1..]);
    var a, d := s[..i], s[i + 1..];
    var m := PartsOfDomain(d);
    DottedAreWords(a);
    PatternFrom(s, i, m);
  }

  lemma PatternFrom(s: string, i: nat, m: nat)
    requires i < |s| && s[i] == '@' && i + 1 + m <= |s|
    requires Words(s[..i]) && Words(s[i + 1..][..m]) && Tlds(s[i + 1..][m..])
    ensures PatternAt(s, i, i + 1 + m)
  {
    SliceOfSlice(s, i + 1, m);
  }

  lemma JoinSlices(s: string, i: nat, j: nat)
    requires i <= j <= |s|
    ensures s[i..j] + s[j..] == s[i..]
  {
  }

  lemma SliceOfSlice(s: string, i: nat, m: nat)
    requires i + m <= |s|
    ensures s[i..][..m] == s[i..i + m] && s[i..][m..] == s[i + m..]
  {
  }

  lemma SplitAround(t: string, k: nat)
    requires 1 <= k < |t|
    ensures t[1..] == t[1..k] + [t[k]] + t[k + 1..]
  {
  }

  /** A dotted local part has no `@`, so an address has exactly one. */
  lemma OneAt(s: string, i: nat)
    requires i < |s| && s[i] == '@' && Dotted(s[..i]) && DomainShape(s[i + 1..])
    ensures forall k :: 0 <= k < |s| && s[k] == '@' ==> k == i
  {
    forall k | 0 <= k < |s| && s[k] == '@'
      ensures k == i
    {
      if k < i {
      } else if k > i {
      }
    }
  }

  /** Lower-casing keeps a valid address valid. It maps separators and `@`
      onto themselves and word characters onto word characters, but the
      Kelvin sign, which is no word character, becomes `k`: only without it
      does a valid lower-cased address come from a valid one. */
  lemma LowerKeepsShape(s: string)
    ensures EmailShape(s) ==> EmailShape(ToLower(s))
    ensures NoKelvin(s) && EmailShape(ToLower(s)) ==> EmailShape(s)
  {
    var l := ToLower(s);
    forall k | 0 <= k < |s|
      ensures IsSep(l[k]) <==> IsSep(s[k])
      ensures (l[k] == '@') <==> (s[k] == '@')
    {
    }
    forall i | 0 <= i < |s|
      ensures Dotted(s[..i]) ==> Dotted(l[..i])
      ensures DomainShape(s[i + 1..]) ==> DomainShape(l[i + 1..])
      ensures NoKelvin(s) ==> (Dotted(l[..i]) ==> Dotted(s[..i]))
      ensures NoKelvin(s) ==> (DomainShape(l[i + 1..]) ==> DomainShape(s[i + 1..]))
    {
      DottedLower(s[..i]);
      assert ToLower(s[..i]) == l[..i];
      DomainLower(s[i + 1..]);
      assert ToLower(s[i + 1..]) == l[i + 1..];
    }
  }

  lemma DottedLower(t: string)
    ensures Dotted(t) ==> Dotted(ToLower(t))
    ensures NoKelvin(t) && Dotted(ToLower(t)) ==> Dotted(t)
  {
    var l := ToLower(t);
    forall k | 0 <= k < |t|
      ensures IsSep(l[k]) <==> IsSep(t[k])
    {
    }
  }

  lemma DomainLower(t: string)
    ensures DomainShape(t) ==> DomainShape(ToLower(t))
    ensures NoKelvin(t) && DomainShape(ToLower(t)) ==> DomainShape(t)
  {
    DottedLower(t);
    if EndsInTld(t) {
      TldLower(t);
    }
    if NoKelvin(t) && EndsInTld(ToLower(t)) {
      TldUpper(t);
    }
  }

  lemma TldLower(t: string)
    requires EndsInTld(t)
    ensures EndsInTld(ToLower(t))
  {
    var j :| 0 <= j < |t| - 2 && t[j] == '.' && Word(t[j + 1..]);
    WordLower(t[j + 1..]);
    LowerSuffix(t, j + 1);
    var l := ToLower(t);
    assert 0 <= j < |l| - 2 && l[j] == '.' && Word(l[j + 1..]);
  }

  lemma TldUpper(t: string)
    requires NoKelvin(t) && EndsInTld(ToLower(t))
    ensures EndsInTld(t)
  {
    var l := ToLower(t);
    var j :| 0 <= j < |l| - 2 && l[j] == '.' && Word(l[j + 1..]);
    WordLower(t[j + 1..]);
    LowerSuffix(t, j + 1);
    assert 0 <= j < |t| - 2 && t[j] == '.' && Word(t[j + 1..]);
  }

  lemma LowerSuffix(t: string, j: nat)
    requires j <= |t|
    ensures ToLower(t[j..]) == ToLower(t)[j..]
  {
  }

  lemma WordLower(w: string)
    ensures Word(w) ==> Word(ToLower(w))
    ensures NoKelvin(w) && Word(ToLower(w)) ==> Word(w)
  {
  }

  /** `value.length`: the number of UTF-16 code units, two for a character
      outside the Basic Multilingual Plane. */
  function Utf16Length(s: string): (n: nat)
    ensures |s| <= n <= 2 * |s|
  {
    if s == [] then 0
    else Utf16Length(s[..|s| - 1]) + (if s[|s| - 1] as int > 0xFFFF then 2 else 1)
  }

  /** `/[A-Za-z]/.test(value)`. */
  predicate HasLetter(s: string) {
    exists k :: 0 <= k < |s| && IsLetter(s[k])
  }

  /** `/\d/.test(value)`. */
  predicate HasDigit(s: string) {
    exists k :: 0 <= k < |s| && IsDigit(s[k])
  }

  /** The e-mail as the trim and lowercase setters store it. */
  function NormalizeEmail(email: Option<string>): (r: Option<string>)
    ensures r.Some? <==> email.Some?
  {
    match email
    case None => None
    case Some(e) => Some(ToLower(Trim(e)))
  }

  /** The e-mail path's validators in order, on the stored value: required,
      then the pattern. */
  function EmailError(email: Option<string>): (r: Option<string>)
    ensures r.None? <==> email.Some? && EmailShape(email.value)
    ensures r == Some(EmailRequired) <==> email.None? || email.value == ""
    ensures r == Some(EmailInvalid) <==> email.Some? && email.value != "" && !EmailShape(email.value)
  {
    if email.None? || email.value == "" then Some(EmailRequired)
    else if !EmailShape(email.value) then Some(EmailInvalid)
    else None
  }

  /** The password path's validators in order: required, length, letter,
      digit; the first that fails gives its message. */
  function PasswordError(password: Option<string>): (r: Option<string>)
    ensures r.None? <==>
      password.Some? && Utf16Length(password.value) >= 8 && HasLetter(password.value) && HasDigit(password.value)
    ensures r == Some(PasswordRequired) <==> password.None? || password.value == ""
    ensures r == Some(PasswordShort) <==> password.Some? && 0 < Utf16Length(password.value) < 8
    ensures r == Some(PasswordNoLetter) <==>
      password.Some? && Utf16Length(password.value) >= 8 && !HasLetter(password.value)
    ensures r == Some(PasswordNoDigit) <==>
      password.Some? && Utf16Length(password.value) >= 8 && HasLetter(password.value) && !HasDigit(password.value)
  {
    if password.None? || password.value == "" then Some(PasswordRequired)
    else if Utf16Length(password.value) < 8 then Some(PasswordShort)
    else if !HasLetter(password.value) then Some(PasswordNoLetter)
    else if !HasDigit(password.value) then Some(PasswordNoDigit)
    else None
  }

  /** The first message of a failed validation: the e-mail's if it has one,
      else the password's. */
  function FirstError(email: Option<string>, password: Option<string>): (r: Option<string>)
    ensures r.None? <==> EmailError(email).None? && PasswordError(password).None?
    ensures EmailError(email).Some? ==> r == EmailError(email)
    ensures EmailError(email).None? ==> r == PasswordError(password)
  {
    if EmailError(email).Some? then EmailError(email) else PasswordError(password)
  }

  /** Normalising a stored e-mail again changes nothing. */
  lemma NormalizeIdempotent(email: Option<string>)
    ensures NormalizeEmail(NormalizeEmail(email)) == NormalizeEmail(email)
  {
    if email.Some? {
      var t := Trim(email.value);
      TrimSpec(email.value);
      LowerOfTrimmed(t);
      ToLowerFixed(ToLower(t));
    }
  }

  /** Whichever order the two setters run in, the stored e-mail is the same. */
  lemma SettersCommute(e: string)
    ensures Trim(ToLower(e)) == ToLower(Trim(e))
  {
    var a, b := TrimSplit(e);
    var x := Trim(e);
    TrimSpec(e);
    LowerConcat(a, x, b);
    if x != [] {
      LowerKeepsSpace(x[0]);
      LowerKeepsSpace(x[|x| - 1]);
    }
    LowerAllSpace(a);
    LowerAllSpace(b);
    TrimPadded(ToLower(a), ToLower(x), ToLower(b));
  }

  datatype SaveOutcome = Stored | Invalid(message: string) | Failed

  /** A user document: `email` passes through the setters when assigned,
      and `passwordModified` is what `isModified("password")` reports. */
  class UserDocument {
    var email: Option<string>
    var password: Option<string>
    var passwordModified: bool

    /** `new User({ email, password })`: a path given a value is modified. */
    constructor (email: Option<string>, password: Option<string>)
      ensures this.email == NormalizeEmail(email) && this.password == password
      ensures passwordModified == password.Some?
    {
      this.email := NormalizeEmail(email);
      this.password := password;
      passwordModified := password.Some?;
    }

    /** The pre-save hook: only a modified password is hashed; a failing
        hash leaves it as it was and fails the save. */
    method HashPassword(hash: string -> Option<string>) returns (ok: bool)
      modifies this
      ensures email == old(email) && passwordModified == old(passwordModified)
      ensures !old(passwordModified) ==> ok && password == old(password)
      ensures old(passwordModified) ==>
        var h := if old(password).Some? then hash(old(password).value) else None;
        ok == h.Some? && password == (if ok then h else old(password))
    {
      if !passwordModified {
        return true;
      }
      var h := if password.Some? then hash(password.value) else None;
      if h.None? {
        return false;
      }
      password := h;
      ok := true;
    }

    /** `save()`: validation runs first and stops the save with its first
        message; then the hook; a stored document has no modified path. */
    method Save(hash: string -> Option<string>) returns (outcome: SaveOutcome)
      modifies this
      ensures email == old(email)
      ensures FirstError(old(email), old(password)).Some? ==>
        && outcome == Invalid(FirstError(old(email), old(password)).value)
        && password == old(password) && passwordModified == old(passwordModified)
      ensures FirstError(old(email), old(password)).None? && !old(passwordModified) ==>
        outcome == Stored && password == old(password) && !passwordModified
      ensures FirstError(old(email), old(password)).None? && old(passwordModified) ==>
        match hash(old(password).value)
        case None => outcome == Failed && password == old(password) && passwordModified
        case Some(h) => outcome == Stored && password == Some(h) && !passwordModified
    {
      var error := FirstError(email, password);
      if error.Some? {
        return Invalid(error.value);
      }
      var ok := HashPassword(hash);
      if !ok {
        return Failed;
      }
      passwordModified := false;
      outcome := Stored;
    }
  }
}
