/** The building title: the first Google Lens visual match's title, cleaned
    by a chat completion and unquoted (mainBuildingAnalysisPipeline,
    generateBuildingNameFromImage and tittleCleaningofBuilding). */
module Title {
  import opened Wrappers
  import opened Json
  import opened Text
  import opened Extract
  import opened Oracles

  /** data is an object whose visual_matches has a first match (an array's
      first element, or an object's property "0") that is an object with
      title t. */
  predicate HasTitle(data: Json, t: Json) {
    && data.JObj?
    && var vm := Lookup(data.fields, "visual_matches");
    && vm.Some?
    && var m := if vm.value.JArr? && |vm.value.items| > 0 then Some(vm.value.items[0])
                else if vm.value.JObj? then Lookup(vm.value.fields, "0")
                else None;
    && m.Some? && m.value.JObj?
    && Lookup(m.value.fields, "title") == Some(t)
  }

  /** `data?.visual_matches?.[0]?.title || null`, or null when there is no
      SERP key or the Lens request fails. */
  function LensTitle(serpKeySet: bool, lens: Option<Json>): (r: Json)
    ensures r == JNull || Truthy(r)
    ensures Truthy(r) ==> serpKeySet && lens.Some? && HasTitle(lens.value, r)
    ensures serpKeySet && lens.Some? ==> forall t :: HasTitle(lens.value, t) && Truthy(t) ==> r == t
  {
    if !serpKeySet || lens.None? then JNull
    else Or(Prop(First(Prop(lens, "visual_matches")), "title"), JNull)
  }

  predicate IsQuote(c: char) { c == '"' || c == '\'' }

  /** `text.replace(/^["']|["']$/g, "")`: one quote at the start and one at
      the end are removed; a lone quote is removed once. */
  function StripQuotes(t: string): (r: string)
    ensures |r| <= |t| <= |r| + 2
  {
    var a := if |t| > 0 && IsQuote(t[0]) then 1 else 0;
    var b := if |t| > a && IsQuote(t[|t| - 1]) then |t| - 1 else |t|;
    t[a..b]
  }

  lemma StripBothQuotes(open: char, w: string, close: char)
    requires IsQuote(open) && IsQuote(close)
    ensures StripQuotes([open] + w + [close]) == w
  {
    var t := [open] + w + [close];
    assert t[1..|t| - 1] == w;
  }

  lemma StripLeadingQuote(open: char, w: string)
    requires IsQuote(open) && (w == [] || !IsQuote(w[|w| - 1]))
    ensures StripQuotes([open] + w) == w
  {
    var t := [open] + w;
    assert t[1..] == w;
  }

  lemma StripTrailingQuote(w: string, close: char)
    requires IsQuote(close) && (w == [] || !IsQuote(w[0]))
    ensures StripQuotes(w + [close]) == w
  {
    var t := w + [close];
    assert t[..|t| - 1] == w;
  }

  lemma StripUnquoted(w: string)
    requires w == [] || (!IsQuote(w[0]) && !IsQuote(w[|w| - 1]))
    ensures StripQuotes(w) == w
  {
  }

  /** cleanQuotes: the text parsed as JSON, or where that throws, the text
      without its outer quotes. */
  function CleanQuotes(text: string, parse: Parser): (r: Json)
    ensures parse(text).Some? ==> r == parse(text).value
    ensures parse(text).None? ==> r == JStr(StripQuotes(text))
    ensures parse(text).None? ==> r.JStr? && |r.s| <= |text| <= |r.s| + 2
  {
    match parse(text)
    case Some(v) => v
    case None => JStr(StripQuotes(text))
  }

  /** The title cleaner's result: the trimmed reply run through cleanQuotes;
      a failed call or a reply without text throws. */
  function CleanTitle(reply: Option<string>, parse: Parser): (r: Result<Json, string>)
    ensures r.Err? <==> reply.None?
    ensures r.Ok? ==> r.value == CleanQuotes(Trim(reply.value), parse)
  {
    match reply
    case None => Err("Failed to clean title with OpenAI")
    case Some(text) => Ok(CleanQuotes(Trim(text), parse))
  }

  /** The title part of mainBuildingAnalysisPipeline: the calls it makes and
      the cleaned title (None when cleaning did not run), or the error that
      ends the pipeline. */
  datatype TitleRun = TitleRun(calls: seq<Call>, title: Result<Option<Json>, string>)

  function ResolveTitle(o: Oracles): (r: TitleRun)
    ensures (Lens in r.calls) <==> o.serpKeySet
    ensures (TitleCleaner in r.calls) <==> Truthy(LensTitle(o.serpKeySet, o.lens))
    ensures r.title.Ok? && r.title.value.Some? ==> TitleCleaner in r.calls
    ensures r.title.Err? ==> o.cleaner.None?
    ensures forall c :: c in r.calls ==> c == Lens || c == TitleCleaner
    ensures !Truthy(LensTitle(o.serpKeySet, o.lens)) ==> r.title == Ok(None)
    ensures Truthy(LensTitle(o.serpKeySet, o.lens)) ==>
      && (r.title.Ok? <==> o.cleaner.Some?)
      && (r.title.Ok? ==> r.title.value == Some(CleanQuotes(Trim(o.cleaner.value), o.parse)))
  {
    var lensCalls := if o.serpKeySet then [Lens] else [];
    var name := LensTitle(o.serpKeySet, o.lens);
    if !Truthy(name) then TitleRun(lensCalls, Ok(None))
    else
      match CleanTitle(o.cleaner, o.parse)
      case Err(e) => TitleRun(lensCalls + [TitleCleaner], Err(e))
      case Ok(t) => TitleRun(lensCalls + [TitleCleaner], Ok(Some(t)))
  }

  /** `buildingTitle || ""`: the value each building record stores. */
  function StoredTitle(title: Option<Json>): (r: Json)
    ensures title.Some? && Truthy(title.value) ==> r == title.value
    ensures !(title.Some? && Truthy(title.value)) ==> r == JStr("")
  {
    Or(title, JStr(""))
  }

  /** Without a SERP key neither Google Lens nor the cleaner is called, and
      the stored title is "". */
  lemma NoKeyNoTitle(o: Oracles)
    requires !o.serpKeySet
    ensures ResolveTitle(o) == TitleRun([], Ok(None))
    ensures StoredTitle(ResolveTitle(o).title.value) == JStr("")
  {
  }

  /** A Lens answer without a truthy first title skips the cleaner. */
  lemma UntitledMatchSkipsCleaner(o: Oracles)
    requires o.serpKeySet && o.lens.Some?
    requires forall t :: HasTitle(o.lens.value, t) ==> !Truthy(t)
    ensures ResolveTitle(o) == TitleRun([Lens], Ok(None))
  {
  }

  /** A Lens title with a failed cleaner call ends the title part with an
      error after both calls. */
  lemma CleanerFailure(o: Oracles)
    requires o.serpKeySet && Truthy(LensTitle(o.serpKeySet, o.lens)) && o.cleaner.None?
    ensures ResolveTitle(o) == TitleRun([Lens, TitleCleaner], Err("Failed to clean title with OpenAI"))
  {
  }

  /** A quoted answer that is not JSON is stored without its quotes. */
  lemma QuotedAnswerIsUnquoted(o: Oracles, title: Json, w: string)
    requires o.serpKeySet && o.lens.Some? && HasTitle(o.lens.value, title) && Truthy(title)
    requires o.cleaner == Some("'" + w + "'")
    requires o.parse("'" + w + "'").None?
    ensures ResolveTitle(o) == TitleRun([Lens, TitleCleaner], Ok(Some(JStr(w))))
  {
    var text := "'" + w + "'";
    assert LensTitle(o.serpKeySet, o.lens) == title;
    assert Trim(text) == text by {
      TrimPadded([], text, []);
      assert [] + text + [] == text;
    }
    assert StripQuotes(text) == w by {
      StripBothQuotes('\'', w, '\'');
      assert ['\''] + w + ['\''] == text;
    }
    assert CleanTitle(o.cleaner, o.parse) == Ok(JStr(w));
  }
}
