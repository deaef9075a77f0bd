/** Web-search enrichment of analysed items: the query templates, the
    null-on-error search (searchSerpAPI) and the URL lists taken from a
    search's organic_results. */
module Enrich {
  import opened Wrappers
  import opened Json

  /** searchSerpAPI's value: the response body, or null when the request fails. */
  function SearchBody(reply: Option<Json>): (r: Json)
    ensures reply.None? ==> r == JNull
    ensures reply.Some? ==> r == reply.value
  {
    reply.GetOr(JNull)
  }

  /** `items.map((item) => item.link)`: reading a property of null throws;
      other values without a link give undefined (None). */
  function MapLink(items: seq<Json>): (r: Result<seq<Option<Json>>, string>)
    ensures r.Ok? <==> forall i :: 0 <= i < |items| ==> items[i] != JNull
    ensures r.Ok? ==> |r.value| == |items|
    ensures r.Ok? ==> forall i :: 0 <= i < |items| ==> r.value[i] == Prop(Some(items[i]), "link")
  {
    if items == [] then Ok([])
    else
      var last := items[|items| - 1];
      match MapLink(items[..|items| - 1])
      case Err(e) => Err(e)
      case Ok(links) =>
        if last == JNull then Err("TypeError: cannot read properties of null")
        else Ok(links + [Prop(Some(last), "link")])
  }

  /** `.filter((url) => url)` on values that may be undefined. */
  function FilterTruthy(xs: seq<Option<Json>>): (r: seq<Json>)
    ensures |r| <= |xs|
    ensures forall v :: v in r ==> Truthy(v) && Some(v) in xs
    ensures forall i :: 0 <= i < |xs| && xs[i].Some? && Truthy(xs[i].value) ==> xs[i].value in r
  {
    if xs == [] then []
    else
      var rest := FilterTruthy(xs[..|xs| - 1]);
      var last := xs[|xs| - 1];
      assert forall i :: 0 <= i < |xs| - 1 ==> xs[i] == xs[..|xs| - 1][i];
      if last.Some? && Truthy(last.value) then rest + [last.value] else rest
  }

  /** The filter keeps order: it distributes over concatenation. */
  lemma {:induction false} FilterTruthyAppend(a: seq<Option<Json>>, b: seq<Option<Json>>)
    ensures FilterTruthy(a + b) == FilterTruthy(a) + FilterTruthy(b)
    decreases |b|
  {
    if b == [] {
      assert a + b == a;
    } else {
      var b' := b[..|b| - 1];
      assert (a + b)[..|a + b| - 1] == a + b';
      FilterTruthyAppend(a, b');
    }
  }

  /** `(body?.organic_results || []).map((item) => item.link).filter((url) => url)`:
      a falsy or missing list gives [], a truthy non-array throws. */
  function Links(body: Json): (r: Result<seq<Json>, string>)
    ensures r.Ok? ==> forall v :: v in r.value ==> Truthy(v)
    ensures var l := Prop(Some(body), "organic_results"); l.None? || !Truthy(l.value) ==> r == Ok([])
    ensures var l := Prop(Some(body), "organic_results"); l.Some? && Truthy(l.value) && !l.value.JArr? ==> r.Err?
  {
    var list := Or(Prop(Some(body), "organic_results"), JArr([]));
    if !list.JArr? then Err("TypeError: map is not a function")
    else
      match MapLink(list.items)
      case Err(e) => Err(e)
      case Ok(links) => Ok(FilterTruthy(links))
  }

  /** A failed search, or one without organic results, gives an empty list. */
  lemma FailedSearchHasNoLinks(reply: Option<Json>)
    requires reply.None? || (reply.value.JObj? && Lookup(reply.value.fields, "organic_results").None?)
    ensures Links(SearchBody(reply)) == Ok([])
  {
  }

  /** The list is the truthy links of the results, in order: a result whose
      link is truthy contributes exactly that link, any other non-null result
      contributes nothing, and a null result makes the extraction throw. */
  lemma LinksOfResults(body: Json, items: seq<Json>)
    requires body.JObj? && Lookup(body.fields, "organic_results") == Some(JArr(items))
    ensures Links(body).Ok? <==> forall i :: 0 <= i < |items| ==> items[i] != JNull
    ensures Links(body).Ok? ==> Links(body).value == FilterTruthy(MapLink(items).value)
  {
    assert Prop(Some(body), "organic_results") == Some(JArr(items));
    assert Or(Prop(Some(body), "organic_results"), JArr([])) == JArr(items);
  }

  lemma {:induction false} LinksOfConcat(a: seq<Json>, b: seq<Json>)
    requires MapLink(a).Ok? && MapLink(b).Ok?
    ensures MapLink(a + b).Ok?
    ensures FilterTruthy(MapLink(a + b).value) == FilterTruthy(MapLink(a).value) + FilterTruthy(MapLink(b).value)
  {
    assert MapLink(a + b).value == MapLink(a).value + MapLink(b).value;
    FilterTruthyAppend(MapLink(a).value, MapLink(b).value);
  }

  lemma OneLink(item: Json, url: Json)
    requires item.JObj? && Lookup(item.fields, "link") == Some(url)
    ensures MapLink([item]).Ok?
    ensures FilterTruthy(MapLink([item]).value) == if Truthy(url) then [url] else []
  {
    var links := MapLink([item]);
    assert links.Ok? && links.value[0] == Some(url);
    assert links.value == [Some(url)];
    assert [Some(url)][..0] == [] && FilterTruthy([]) == [];
  }

  /** The text after the name in each tool search (youtube, spec sheet,
      certification courses, purchase or rental), in that order. */
  const ToolSuffixes: seq<string> := [
    " Youtube Video Tutorial",
    " specification sheet filetype:pdf",
    " Courses to get certified in tool usage with detailed description",
    " (Amazon / Home Depot / Manufacturer links)"]

  /** The text after the name in each material search (manufacturers,
      installation videos, specifications, related courses), in that order. */
  const MaterialSuffixes: seq<string> := [
    " manufacturers site:.com",
    " installation step by step site:youtube.com",
    " ASTM specifications fire ratings R-values chemical resistance site:.org OR site:.gov OR site:.edu OR site:.com",
    " training material behavior installation performance site:.edu OR site:.org OR site:.com"]

  /** The four queries `${name}<suffix>`: each starts with the name and no
      two are equal, so each URL list comes from its own search. */
  function Queries(name: string, suffixes: seq<string>): (r: seq<string>)
    requires |suffixes| == 4
    requires forall i :: 0 <= i < 4 ==> suffixes[i] != []
    requires forall i, j :: 0 <= i < j < 4 ==> |suffixes[i]| != |suffixes[j]|
    ensures |r| == 4
    ensures forall i :: 0 <= i < 4 ==> |name| < |r[i]| && r[i][..|name|] == name
    ensures forall i, j :: 0 <= i < j < 4 ==> r[i] != r[j]
  {
    var r := seq(4, i requires 0 <= i < 4 => name + suffixes[i]);
    assert forall i :: 0 <= i < 4 ==> |r[i]| == |name| + |suffixes[i]| && r[i][..|name|] == name;
    r
  }

  function ToolQueries(name: string): (r: seq<string>)
    ensures |r| == 4
    ensures forall i :: 0 <= i < 4 ==> |name| < |r[i]| && r[i][..|name|] == name
    ensures forall i, j :: 0 <= i < j < 4 ==> r[i] != r[j]
  {
    Queries(name, ToolSuffixes)
  }

  function MaterialQueries(name: string): (r: seq<string>)
    ensures |r| == 4
    ensures forall i :: 0 <= i < 4 ==> |name| < |r[i]| && r[i][..|name|] == name
    ensures forall i, j :: 0 <= i < j < 4 ==> r[i] != r[j]
  {
    Queries(name, MaterialSuffixes)
  }

  const CoursesPrefix := "Professional courses in "

  /** The building search for courses on the building type. */
  function BuildingQuery(buildingType: string): (r: string)
    ensures |CoursesPrefix| + |buildingType| <= |r|
    ensures r[..|CoursesPrefix|] == CoursesPrefix
    ensures r[|CoursesPrefix|..|CoursesPrefix| + |buildingType|] == buildingType
  {
    CoursesPrefix + buildingType + " design, construction"
  }

  /** The name searched for: `${value || fallback}` with the fallback
      "Unnamed Tool", "Unnamed Material" or "Unnamed Building". */
  function SearchName(value: Option<Json>, fallback: string): (r: string)
    ensures !(value.Some? && Truthy(value.value)) ==> r == fallback
    ensures value.Some? && value.value.JStr? && value.value.s != "" ==> r == value.value.s
    ensures value.Some? && value.value.JNum? && Truthy(value.value) ==> r == value.value.text
  {
    Interpolate(Or(value, JStr(fallback)))
  }
}
