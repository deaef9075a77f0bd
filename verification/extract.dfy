/** The lenient JSON extractor `cleanJsonString`: three candidate substrings
    tried in a fixed order, the first one found is handed to JSON.parse, and
    a parse failure yields null without trying the later candidates. */
module Extract {
  import opened Wrappers
  import opened Json
  import opened Text

  /** JSON.parse, an arbitrary partial function: None when it throws. */
  type Parser = string -> Option<Json>

  // ---------------------------------------------------------------------
  // Candidate 1: the regular expression \[\s*{.*}\s*\] with the s flag.

  /** s[i..j] is a match of \[\s*{.*}\s*\] whose `{` is at p and whose
      last `}` is at q (the `.` of the s flag matches every character). */
  predicate ArrayShape(s: string, i: int, p: int, q: int, j: int) {
    && 0 <= i < p < q < j - 1 && j <= |s|
    && s[i] == '[' && s[p] == '{' && s[q] == '}' && s[j - 1] == ']'
    && (forall k :: i < k < p ==> IsSpace(s[k]))
    && (forall k :: q < k < j - 1 ==> IsSpace(s[k]))
  }

  ghost predicate ArrayMatch(s: string, i: int, j: int) {
    exists p, q :: ArrayShape(s, i, p, q, j)
  }

  lemma ArrayMatchBounds(s: string, i: int, j: int)
    requires ArrayMatch(s, i, j)
    ensures 0 <= i < j <= |s| && s[i] == '[' && s[j - 1] == ']'
  {
    var p, q :| ArrayShape(s, i, p, q, j);
  }

  /** `[` at i followed, after white space, by `{`; gives the index of `{`. */
  function OpenBrace(s: string, i: nat): (r: Option<nat>)
    ensures r.Some? ==> (&& i < r.value < |s| && s[i] == '[' && s[r.value] == '{'
                         && forall k :: i < k < r.value ==> IsSpace(s[k]))
    ensures r.Some? <==> i < |s| && s[i] == '[' && SkipSpace(s, i + 1) < |s| && s[SkipSpace(s, i + 1)] == '{'
  {
    if i < |s| && s[i] == '[' && SkipSpace(s, i + 1) < |s| && s[SkipSpace(s, i + 1)] == '{'
    then Some(SkipSpace(s, i + 1)) else None
  }

  /** `}` at q followed, after white space, by `]`; gives the end of the match. */
  function CloseBracket(s: string, q: nat): (r: Option<nat>)
    ensures r.Some? ==> (&& q < r.value - 1 < |s| && s[q] == '}' && s[r.value - 1] == ']'
                         && forall k :: q < k < r.value - 1 ==> IsSpace(s[k]))
  {
    if q < |s| && s[q] == '}' && SkipSpace(s, q + 1) < |s| && s[SkipSpace(s, q + 1)] == ']'
    then Some(SkipSpace(s, q + 1) + 1) else None
  }

  /** Any match whose `[` is at i uses the first non-space after i as its `{`
      and the first non-space after its `}` as its `]`. */
  lemma ShapeDetermined(s: string, i: int, p: int, q: int, j: int)
    requires ArrayShape(s, i, p, q, j)
    ensures OpenBrace(s, i) == Some(p)
    ensures CloseBracket(s, q) == Some(j)
  {
    FirstNonSpace(s, i + 1, p);
    FirstNonSpace(s, q + 1, j - 1);
  }

  /** A non-space character preceded only by white space since k is the one
      SkipSpace finds. */
  lemma FirstNonSpace(s: string, k: nat, p: int)
    requires k <= p < |s| && !IsSpace(s[p])
    requires forall x :: k <= x < p ==> IsSpace(s[x])
    ensures SkipSpace(s, k) == p
  {
    var r := SkipSpace(s, k);
    assert r <= p;
  }

  /** The end of the match that a greedy `.*` finds after the `{` at p: the
      largest q below k at which `}`, white space, `]` follows. */
  function LastClose(s: string, p: nat, k: nat): (r: Option<(nat, nat)>)
    requires k <= |s|
    ensures r.Some? ==> p < r.value.0 < k && CloseBracket(s, r.value.0) == Some(r.value.1)
    ensures r.Some? ==> forall q :: r.value.0 < q < k ==> CloseBracket(s, q).None?
    ensures r.None? ==> forall q :: p < q < k ==> CloseBracket(s, q).None?
    decreases k
  {
    if k <= p + 1 then None
    else if CloseBracket(s, k - 1).Some? then Some((k - 1, CloseBracket(s, k - 1).value))
    else LastClose(s, p, k - 1)
  }

  /** The leftmost match at or after start, with the end the greedy `.*` picks. */
  function ArraySpanFrom(s: string, start: nat): (r: Option<(nat, nat)>)
    requires start <= |s|
    ensures r.Some? ==> start <= r.value.0 && ArrayMatch(s, r.value.0, r.value.1)
    ensures r.Some? ==> forall i, j :: start <= i < r.value.0 ==> !ArrayMatch(s, i, j)
    ensures r.Some? ==> forall j :: ArrayMatch(s, r.value.0, j) ==> j <= r.value.1
    ensures r.None? ==> forall i, j :: start <= i ==> !ArrayMatch(s, i, j)
    decreases |s| - start
  {
    if start == |s| then
      assert forall i, j :: start <= i ==> !ArrayMatch(s, i, j) by {
        forall i, j | ArrayMatch(s, i, j) ensures i < |s| { ArrayMatchBounds(s, i, j); }
      }
      None
    else
      var open := OpenBrace(s, start);
      var close := if open.Some? then LastClose(s, open.value, |s|) else None;
      if close.Some? then
        var q := close.value.0;
        var j := close.value.1;
        assert ArrayShape(s, start, open.value, q, j);
        GreedyEnd(s, start, open.value, q, j);
        Some((start, j))
      else
        NoMatchWithout(s, start, open, close);
        ArraySpanFrom(s, start + 1)
  }

  lemma NoMatchWithout(s: string, start: nat, open: Option<nat>, close: Option<(nat, nat)>)
    requires start < |s| && open == OpenBrace(s, start)
    requires close == if open.Some? then LastClose(s, open.value, |s|) else None
    requires close.None?
    ensures forall j :: !ArrayMatch(s, start, j)
  {
    forall j | ArrayMatch(s, start, j) ensures false {
      var p, q :| ArrayShape(s, start, p, q, j);
      ShapeDetermined(s, start, p, q, j);
    }
  }

  lemma GreedyEnd(s: string, i: nat, p: nat, q: nat, j: nat)
    requires OpenBrace(s, i) == Some(p) && LastClose(s, p, |s|) == Some((q, j))
    ensures forall j' :: ArrayMatch(s, i, j') ==> j' <= j
  {
    forall j' | ArrayMatch(s, i, j') ensures j' <= j {
      var p', q' :| ArrayShape(s, i, p', q', j');
      ShapeDetermined(s, i, p', q', j');
      if q' < q {
        // the `}` at q is not white space, so the `]` after q' comes no later than q
        assert SkipSpace(s, q' + 1) <= q;
      }
    }
  }

  function ArraySpan(s: string): Option<(nat, nat)> { ArraySpanFrom(s, 0) }

  // ---------------------------------------------------------------------
  // Candidate 2: the regular expression \{\s*".*"\s*:.+\} with the s flag.

  /** s[i..j] is a match of \{\s*".*"\s*:.+\} with its first `"` at p,
      its second `"` at q and its `:` at c (`.+` needs one character, so
      the closing `}` at j - 1 comes at least two places after c). */
  predicate ObjectShape(s: string, i: int, p: int, q: int, c: int, j: int) {
    && 0 <= i < p < q < c && c + 2 < j <= |s|
    && s[i] == '{' && s[p] == '"' && s[q] == '"' && s[c] == ':' && s[j - 1] == '}'
    && (forall k :: i < k < p ==> IsSpace(s[k]))
    && (forall k :: q < k < c ==> IsSpace(s[k]))
  }

  ghost predicate ObjectMatch(s: string, i: int, j: int) {
    exists p, q, c :: ObjectShape(s, i, p, q, c, j)
  }

  lemma ObjectMatchBounds(s: string, i: int, j: int)
    requires ObjectMatch(s, i, j)
    ensures 0 <= i < j <= |s| && s[i] == '{' && s[j - 1] == '}'
  {
    var p, q, c :| ObjectShape(s, i, p, q, c, j);
  }

  /** Index of the last `}` of s below k. */
  function LastBrace(s: string, k: nat): (r: Option<nat>)
    requires k <= |s|
    ensures r.Some? ==> r.value < k && s[r.value] == '}'
    ensures r.Some? ==> forall x :: r.value < x < k ==> s[x] != '}'
    ensures r.None? ==> forall x :: 0 <= x < k ==> s[x] != '}'
  {
    if k == 0 then None
    else if s[k - 1] == '}' then Some(k - 1)
    else LastBrace(s, k - 1)
  }

  /** A `"` at some q in [k, |s|) that is followed, after white space, by a
      `:` at c with c + 2 <= limit. */
  predicate QuoteColon(s: string, q: nat, limit: nat)
    requires q < |s|
  {
    s[q] == '"' && SkipSpace(s, q + 1) < |s| && s[SkipSpace(s, q + 1)] == ':'
    && SkipSpace(s, q + 1) + 2 <= limit
  }

  function FindQuoteColon(s: string, k: nat, limit: nat): (r: Option<nat>)
    requires k <= |s|
    ensures r.Some? ==> k <= r.value < |s| && QuoteColon(s, r.value, limit)
    ensures r.None? ==> forall q :: k <= q < |s| ==> !QuoteColon(s, q, limit)
    decreases |s| - k
  {
    if k == |s| then None
    else if QuoteColon(s, k, limit) then Some(k)
    else FindQuoteColon(s, k + 1, limit)
  }

  /** Whether a match starts at i; every match at i ends after the last `}`. */
  predicate ObjectStartsAt(s: string, i: nat)
    requires i < |s|
  {
    var p := SkipSpace(s, i + 1);
    s[i] == '{' && p < |s| && s[p] == '"' && LastBrace(s, |s|).Some?
    && FindQuoteColon(s, p + 1, LastBrace(s, |s|).value).Some?
  }

  lemma ObjectStartsAtSound(s: string, i: nat)
    requires i < |s| && ObjectStartsAt(s, i)
    ensures ObjectMatch(s, i, LastBrace(s, |s|).value + 1)
  {
    var p := SkipSpace(s, i + 1);
    var r := LastBrace(s, |s|).value;
    var q := FindQuoteColon(s, p + 1, r).value;
    var c := SkipSpace(s, q + 1);
    assert ObjectShape(s, i, p, q, c, r + 1);
  }

  lemma ObjectMatchComplete(s: string, i: nat)
    requires i < |s|
    ensures forall j :: ObjectMatch(s, i, j) ==> ObjectStartsAt(s, i) && j <= LastBrace(s, |s|).value + 1
  {
    forall j | ObjectMatch(s, i, j) ensures ObjectStartsAt(s, i) && j <= LastBrace(s, |s|).value + 1 {
      var p, q, c :| ObjectShape(s, i, p, q, c, j);
      FirstNonSpace(s, i + 1, p);
      FirstNonSpace(s, q + 1, c);
      var r := LastBrace(s, |s|);
      assert r.Some? && j - 1 <= r.value;
      assert QuoteColon(s, q, r.value);
    }
  }

  /** The leftmost match at or after start; it always ends at the last `}`. */
  function ObjectSpanFrom(s: string, start: nat): (r: Option<(nat, nat)>)
    requires start <= |s|
    ensures r.Some? ==> start <= r.value.0 && ObjectMatch(s, r.value.0, r.value.1)
    ensures r.Some? ==> forall i, j :: start <= i < r.value.0 ==> !ObjectMatch(s, i, j)
    ensures r.Some? ==> forall j :: ObjectMatch(s, r.value.0, j) ==> j <= r.value.1
    ensures r.None? ==> forall i, j :: start <= i ==> !ObjectMatch(s, i, j)
    decreases |s| - start
  {
    if start == |s| then
      assert forall i, j :: start <= i ==> !ObjectMatch(s, i, j) by {
        forall i, j | ObjectMatch(s, i, j) ensures i < |s| { ObjectMatchBounds(s, i, j); }
      }
      None
    else
      ObjectMatchComplete(s, start);
      if ObjectStartsAt(s, start) then
        ObjectStartsAtSound(s, start);
        Some((start, LastBrace(s, |s|).value + 1))
      else
        ObjectSpanFrom(s, start + 1)
  }

  function ObjectSpan(s: string): Option<(nat, nat)> { ObjectSpanFrom(s, 0) }

  // ---------------------------------------------------------------------
  // Candidate 3: replace(/^[\s\S]*?(\[|\{)/, "$1") then replace(/(\]|\})[\s\S]*$/, "$1").

  predicate IsOpen(c: char) { c == '[' || c == '{' }
  predicate IsClose(c: char) { c == ']' || c == '}' }

  function FirstIndex(s: string, k: nat, want: char -> bool): (r: Option<nat>)
    requires k <= |s|
    ensures r.Some? ==> k <= r.value < |s| && want(s[r.value])
    ensures r.Some? ==> forall x :: k <= x < r.value ==> !want(s[x])
    ensures r.None? ==> forall x :: k <= x < |s| ==> !want(s[x])
    decreases |s| - k
  {
    if k == |s| then None
    else if want(s[k]) then Some(k)
    else FirstIndex(s, k + 1, want)
  }

  /** Drop everything before the first `[`/`{`, then everything after the
      first `]`/`}` that remains; a missing bracket leaves that side alone. */
  function TrimToBrackets(s: string): (r: string)
    ensures |r| <= |s|
    ensures r == [] <==> s == []
  {
    var t := match FirstIndex(s, 0, IsOpen) case Some(k) => s[k..] case None => s;
    match FirstIndex(t, 0, IsClose) case Some(m) => t[..m + 1] case None => t
  }

  /** Where the trimmed piece starts: the first opening bracket, or 0. */
  function TrimStart(s: string): (lo: nat)
    ensures lo <= |s|
    ensures forall x :: 0 <= x < lo ==> !IsOpen(s[x])
    ensures (exists k :: 0 <= k < |s| && IsOpen(s[k])) ==> lo < |s| && IsOpen(s[lo])
    ensures (forall k :: 0 <= k < |s| ==> !IsOpen(s[k])) ==> lo == 0
  {
    match FirstIndex(s, 0, IsOpen) case Some(k) => k case None => 0
  }

  /** Where the trimmed piece ends: just past the first closing bracket at
      or after TrimStart(s), or the end of s when there is none. */
  function TrimEnd(s: string): (hi: nat)
    ensures TrimStart(s) <= hi <= |s|
    ensures forall x :: TrimStart(s) <= x < hi - 1 ==> !IsClose(s[x])
    ensures || (TrimStart(s) < hi && IsClose(s[hi - 1]))
            || (hi == |s| && forall x :: TrimStart(s) <= x < |s| ==> !IsClose(s[x]))
  {
    match FirstIndex(s, TrimStart(s), IsClose) case Some(m) => m + 1 case None => |s|
  }

  /** Searching a suffix finds the same character as searching from its
      start. */
  lemma FirstIndexSuffix(s: string, lo: nat, want: char -> bool)
    requires lo <= |s|
    ensures FirstIndex(s[lo..], 0, want) ==
      match FirstIndex(s, lo, want) case Some(j) => Some(j - lo) case None => None
  {
    var t := s[lo..];
    assert forall x :: 0 <= x < |t| ==> t[x] == s[lo + x];
    match FirstIndex(t, 0, want)
    case Some(m) =>
      assert want(s[lo + m]);
      assert forall x :: lo <= x < lo + m ==> !want(s[x]) by {
        forall x | lo <= x < lo + m ensures !want(s[x]) { assert t[x - lo] == s[x]; }
      }
    case None =>
      assert forall x :: lo <= x < |s| ==> !want(s[x]) by {
        forall x | lo <= x < |s| ensures !want(s[x]) { assert t[x - lo] == s[x]; }
      }
  }

  /** The third candidate is the piece of the input between the first
      opening bracket and the first closing bracket after it. */
  lemma TrimToBracketsSpec(s: string)
    ensures TrimToBrackets(s) == s[TrimStart(s)..TrimEnd(s)]
    ensures (exists k :: 0 <= k < |s| && IsOpen(s[k])) ==>
      TrimToBrackets(s) != [] && IsOpen(TrimToBrackets(s)[0])
    ensures forall x :: 0 <= x < |TrimToBrackets(s)| - 1 ==> !IsClose(TrimToBrackets(s)[x])
  {
    var lo := TrimStart(s);
    var t := s[lo..];
    FirstIndexSuffix(s, lo, IsClose);
    match FirstIndex(t, 0, IsClose)
    case Some(m) => assert t[..m + 1] == s[lo..TrimEnd(s)];
    case None =>
  }

  // ---------------------------------------------------------------------
  // cleanJsonString

  /** The substring cleanJsonString hands to JSON.parse. */
  function Candidate(s: string): (r: string)
  {
    match ArraySpan(s)
    case Some((i, j)) => s[i..j]
    case None =>
      match ObjectSpan(s)
      case Some((i, j)) => s[i..j]
      case None => TrimToBrackets(s)
  }

  /** The candidate is a contiguous piece of the input that starts at a
      bracket whenever the input has one, and is the prefix up to the first
      closing bracket when it has none. */
  lemma CandidateSpec(s: string)
    ensures |Candidate(s)| <= |s|
    ensures exists i, j :: 0 <= i <= j <= |s| && Candidate(s) == s[i..j]
    ensures (exists k :: 0 <= k < |s| && IsOpen(s[k])) ==> Candidate(s) != [] && IsOpen(Candidate(s)[0])
    ensures (forall k :: 0 <= k < |s| ==> !IsOpen(s[k])) ==> Candidate(s) == s[..TrimEnd(s)]
  {
    match ArraySpan(s)
    case Some((i, j)) =>
      ArrayMatchBounds(s, i, j);
      assert Candidate(s) == s[i..j];
    case None =>
      match ObjectSpan(s)
      case Some((i, j)) =>
        ObjectMatchBounds(s, i, j);
        assert Candidate(s) == s[i..j];
      case None =>
        TrimToBracketsSpec(s);
  }

  /** cleanJsonString: JSON.parse of the candidate, or null when it throws. */
  function CleanJson(s: string, parse: Parser): (r: Json)
    ensures r == JNull || parse(Candidate(s)) == Some(r)
    ensures parse(Candidate(s)).Some? ==> r == parse(Candidate(s)).value
    ensures parse(Candidate(s)).None? ==> r == JNull
  {
    match parse(Candidate(s))
    case Some(v) => v
    case None => JNull
  }

  /** First in the candidate order: the leftmost array match, extended as far
      as the greedy `.*` reaches. */
  lemma CandidateIsArrayMatch(s: string)
    requires exists i, j :: ArrayMatch(s, i, j)
    ensures exists i, j :: (&& ArrayMatch(s, i, j) && Candidate(s) == s[i..j]
                            && (forall i', j' :: 0 <= i' < i ==> !ArrayMatch(s, i', j'))
                            && (forall j' :: ArrayMatch(s, i, j') ==> j' <= j))
  {
    var a := ArraySpan(s);
    assert a.Some?;
    var (i, j) := a.value;
    assert ArrayMatch(s, i, j) && Candidate(s) == s[i..j];
  }

  /** Second: with no array match, the leftmost object match, which always
      runs to the last `}` of the text. */
  lemma CandidateIsObjectMatch(s: string)
    requires forall i, j :: !ArrayMatch(s, i, j)
    requires exists i, j :: ObjectMatch(s, i, j)
    ensures exists i, j :: (&& ObjectMatch(s, i, j) && Candidate(s) == s[i..j]
                            && (forall i', j' :: 0 <= i' < i ==> !ObjectMatch(s, i', j'))
                            && (forall j' :: ObjectMatch(s, i, j') ==> j' <= j))
  {
    assert ArraySpan(s).None?;
    var o := ObjectSpan(s);
    assert o.Some?;
    var (i, j) := o.value;
    assert ObjectMatch(s, i, j) && Candidate(s) == s[i..j];
  }

  /** Last: with neither match, the text cut down to its brackets. */
  lemma CandidateIsTrimmed(s: string)
    requires forall i, j :: !ArrayMatch(s, i, j)
    requires forall i, j :: !ObjectMatch(s, i, j)
    ensures Candidate(s) == TrimToBrackets(s)
  {
    assert ArraySpan(s).None?;
    assert ObjectSpan(s).None?;
  }

  /** When an array match exists but does not parse, the result is null: the
      object and bracket candidates are not tried. */
  lemma ArrayParseFailureIsNull(s: string, parse: Parser, i: nat, j: nat)
    requires ArrayMatch(s, i, j)
    requires forall i', j' :: ArrayMatch(s, i', j') ==> parse(s[i'..j']).None?
    ensures CleanJson(s, parse) == JNull
  {
    var a := ArraySpan(s);
    assert a.Some?;
    assert ArrayMatch(s, a.value.0, a.value.1);
  }

  /** Text with no bracket or brace at all parses as a whole, so text that is
      not JSON gives null. */
  lemma NoBracketsParsesWhole(s: string, parse: Parser)
    requires forall k :: 0 <= k < |s| ==> !IsOpen(s[k]) && !IsClose(s[k])
    ensures Candidate(s) == s
    ensures parse(s).None? ==> CleanJson(s, parse) == JNull
  {
    assert ArraySpan(s).None? by {
      forall i, j | ArrayMatch(s, i, j) ensures IsOpen(s[i]) { ArrayMatchBounds(s, i, j); }
    }
    assert ObjectSpan(s).None? by {
      forall i, j | ObjectMatch(s, i, j) ensures IsOpen(s[i]) { ObjectMatchBounds(s, i, j); }
    }
  }
}
