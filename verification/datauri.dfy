/** The upload stage of the scan handler: splitting the `image` field with
    ^data:(.+);base64,(.+)$, and naming the stored file and its URL. */
module DataUri {
  import opened Wrappers
  import opened Json
  import opened Text

  const Marker: string := ";base64,"

  predicate NoLineTerminator(t: string) {
    forall k :: 0 <= k < |t| ==> !IsLineTerminator(t[k])
  }

  /** s is matched by ^data:(.+);base64,(.+)$ with the groups mime and data
      (without the s flag `.` matches no line terminator; without the m flag
      `$` is only the end of the text). */
  predicate IsSplit(s: string, mime: string, data: string) {
    && s == "data:" + mime + Marker + data
    && |mime| > 0 && |data| > 0
    && NoLineTerminator(mime) && NoLineTerminator(data)
  }

  /** Whether ";base64," stands at k of the text after "data:" with at least
      one character before and after it. */
  predicate MarkerAt(r: string, k: int) {
    1 <= k && k + |Marker| < |r| && r[k..k + |Marker|] == Marker
  }

  /** The largest k < bound at which the marker stands. */
  function LastMarker(r: string, bound: int): (k: Option<nat>)
    ensures k.Some? ==> k.value < bound && MarkerAt(r, k.value)
    ensures k.Some? ==> forall x :: k.value < x < bound ==> !MarkerAt(r, x)
    ensures k.None? ==> forall x :: x < bound ==> !MarkerAt(r, x)
    decreases bound
  {
    if bound <= 1 then None
    else if MarkerAt(r, bound - 1) then Some(bound - 1)
    else LastMarker(r, bound - 1)
  }

  /** The two groups the greedy first `(.+)` leaves: the split falls at the
      last ";base64," that leaves a non-empty payload. */
  function Split(s: string): (r: Option<(string, string)>)
    ensures r.Some? ==> IsSplit(s, r.value.0, r.value.1)
    ensures r.Some? ==> forall m, d :: IsSplit(s, m, d) ==> |m| <= |r.value.0|
    ensures r.None? ==> forall m, d :: !IsSplit(s, m, d)
  {
    SplitsAreMarkers(s);
    if |s| < 5 || s[..5] != "data:" || !NoLineTerminator(s[5..]) then None
    else
      var rest := s[5..];
      var k := LastMarker(rest, |rest|);
      if k.None? then None
      else
        var mime, data := rest[..k.value], rest[k.value + |Marker|..];
        assert s == "data:" + mime + Marker + data by {
          assert rest == mime + Marker + data;
          assert s == s[..5] + rest;
        }
        Some((mime, data))
  }

  /** Every split of s places the marker at |mime| of the text after "data:". */
  lemma SplitsAreMarkers(s: string)
    ensures forall m, d :: IsSplit(s, m, d) ==>
      (&& |s| >= 5 && s[..5] == "data:" && NoLineTerminator(s[5..])
       && MarkerAt(s[5..], |m|) && s[5..][..|m|] == m && s[5..][|m| + |Marker|..] == d)
  {
    forall m, d | IsSplit(s, m, d)
      ensures && |s| >= 5 && s[..5] == "data:" && NoLineTerminator(s[5..])
              && MarkerAt(s[5..], |m|) && s[5..][..|m|] == m && s[5..][|m| + |Marker|..] == d
    {
      var t := m + Marker + d;
      assert s == "data:" + t;
      assert s[5..] == t;
      assert t[|m|..|m| + |Marker|] == Marker;
      forall k | 0 <= k < |t| ensures !IsLineTerminator(t[k]) {
        if k < |m| { assert t[k] == m[k]; }
        else if k < |m| + |Marker| { assert t[k] == Marker[k - |m|]; }
        else { assert t[k] == d[k - |m| - |Marker|]; }
      }
    }
  }

  /** `mime.split("/")[1]`: the text between the first and the second `/`
      (or the end); undefined when there is no `/`. */
  function Extension(mime: string): Option<string>
  {
    match FirstSlash(mime, 0)
    case None => None
    case Some(a) =>
      var after := mime[a + 1..];
      match FirstSlash(after, 0)
      case Some(b) => Some(after[..b])
      case None => Some(after)
  }

  predicate NoSlash(t: string) {
    forall k :: 0 <= k < |t| ==> t[k] != '/'
  }

  /** mime is pre "/" ext rest with ext the second field of split("/"). */
  predicate SecondField(mime: string, pre: string, ext: string, rest: string) {
    mime == pre + "/" + ext + rest && NoSlash(pre) && NoSlash(ext) && (rest == [] || rest[0] == '/')
  }

  /** The extension is undefined exactly when the type has no `/`; otherwise
      it is the slash-free segment right after the first `/`. */
  lemma ExtensionSpec(mime: string)
    ensures Extension(mime).None? <==> NoSlash(mime)
    ensures Extension(mime).Some? ==> exists pre, rest :: SecondField(mime, pre, Extension(mime).value, rest)
    ensures Extension(mime).Some? ==> NoSlash(Extension(mime).value) && |Extension(mime).value| < |mime|
  {
    match FirstSlash(mime, 0)
    case None =>
    case Some(a) =>
      var pre, after := mime[..a], mime[a + 1..];
      assert mime == pre + "/" + after;
      assert NoSlash(pre) by {
        forall k | 0 <= k < |pre| ensures pre[k] != '/' { assert pre[k] == mime[k]; }
      }
      match FirstSlash(after, 0)
      case Some(b) =>
        var ext, rest := after[..b], after[b..];
        assert after == ext + rest;
        assert NoSlash(ext) by {
          forall k | 0 <= k < |ext| ensures ext[k] != '/' { assert ext[k] == after[k]; }
        }
        assert SecondField(mime, pre, ext, rest);
      case None =>
        assert mime == pre + "/" + after + [];
        assert SecondField(mime, pre, after, []);
  }

  function FirstSlash(t: string, k: nat): (r: Option<nat>)
    requires k <= |t|
    ensures r.Some? ==> k <= r.value < |t| && t[r.value] == '/'
    ensures r.Some? ==> forall x :: k <= x < r.value ==> t[x] != '/'
    ensures r.None? ==> forall x :: k <= x < |t| ==> t[x] != '/'
    decreases |t| - k
  {
    if k == |t| then None
    else if t[k] == '/' then Some(k)
    else FirstSlash(t, k + 1)
  }

  /** `tool-scan-${Date.now()}.${extension}`; an undefined extension prints
      as "undefined". */
  function FileName(now: nat, mime: string): string
  {
    "tool-scan-" + NatToString(now) + "." + Extension(mime).GetOr("undefined")
  }

  /** The name is "tool-scan-", the time's digits, a dot and the extension
      (or "undefined"), and never holds a `/`, so the file stays in the
      uploads directory whatever media type the client sends. */
  lemma FileNameSpec(now: nat, mime: string)
    ensures NoSlash(FileName(now, mime))
    ensures var r, ext := FileName(now, mime), Extension(mime).GetOr("undefined");
      && |r| > |ext| + 10 && r[..10] == "tool-scan-"
      && r[10..|r| - |ext| - 1] == NatToString(now) && r[|r| - |ext| - 1..] == "." + ext
  {
    var digits := NatToString(now);
    ExtensionSpec(mime);
    var ext := Extension(mime).GetOr("undefined");
    assert NoSlash(digits);
    DottedName("tool-scan-", digits, ext);
  }

  /** The pieces of pre + mid + "." + ext, and no `/` when none has one. */
  lemma DottedName(pre: string, mid: string, ext: string)
    requires NoSlash(pre) && NoSlash(mid) && NoSlash(ext)
    ensures var r := pre + mid + "." + ext;
      && NoSlash(r) && |r| == |pre| + |mid| + 1 + |ext|
      && r[..|pre|] == pre && r[|pre|..|r| - |ext| - 1] == mid && r[|r| - |ext| - 1..] == "." + ext
  {
    var r := pre + mid + "." + ext;
    forall k | 0 <= k < |r| ensures r[k] != '/' {
      if k < |pre| { assert r[k] == pre[k]; }
      else if k < |pre| + |mid| { assert r[k] == mid[k - |pre|]; }
      else if k > |pre| + |mid| { assert r[k] == ext[k - |pre| - |mid| - 1]; }
    }
  }

  /** `${req.protocol}://${req.get("host")}/uploads/${fileName}`. */
  function ImageUrl(protocol: string, host: string, fileName: string): string
  {
    protocol + "://" + host + "/uploads/" + fileName
  }

  /** The URL starts with the protocol and "://", and its last path segment
      is the stored file's name. */
  lemma ImageUrlSpec(protocol: string, host: string, now: nat, mime: string)
    ensures var url := ImageUrl(protocol, host, FileName(now, mime));
      && url[..|protocol| + 3] == protocol + "://"
      && exists k :: 0 <= k < |url| && url[k] == '/' && url[k + 1..] == FileName(now, mime) && NoSlash(url[k + 1..])
  {
    var name := FileName(now, mime);
    FileNameSpec(now, mime);
    var url := ImageUrl(protocol, host, name);
    var k := |url| - |name| - 1;
    assert url == (protocol + "://" + host + "/uploads") + ("/" + name);
    assert url[k..] == "/" + name;
    assert url[k] == url[k..][0];
    assert url[k + 1..] == url[k..][1..];
  }

  /** An image/png upload is stored with the extension png; a type with no
      `/` gives the extension "undefined". */
  lemma FileNameExamples(now: nat)
    ensures FileName(now, "image/png") == "tool-scan-" + NatToString(now) + ".png"
    ensures FileName(now, "png") == "tool-scan-" + NatToString(now) + ".undefined"
  {
    assert FirstSlash("image/png", 0) == Some(5);
    assert "image/png"[6..] == "png";
    assert FirstSlash("png", 0).None?;
  }
}
