/** The documents the scan handler saves, and how one element of an
    analyzer's array becomes one document: its fields with `|| ""` and
    `|| []` defaults, and for the single-category paths the searches whose
    URL lists the document carries. Field values stay JSON values: the
    schema's casting to strings is not part of this model. */
module Records {
  import opened Wrappers
  import opened Json
  import opened Enrich
  import opened Oracles

  const ToolHeader := "Construction Tools & Equipment\U{1F6E0}\U{FE0F}"
  const ToolSubHeader := "Tools & Equipment\U{1F6E0}\U{FE0F}"
  const CardSubHeader := "Tools & Equipment"
  const BuildingHeader := "Building Materials & Components\U{1F9F1}"
  const BothMaterialHeader := "Building Type\U{1F3E0}"

  /** A tool saved by the tool path (Scan collection). */
  datatype ToolScan = ToolScan(
    mainHeader: string, subHeader: string, imageUrl: string,
    toolName: Json, category: Json, description: Json, primaryUses: Json,
    skillLevel: Json, manufacturers: Json, safetyGuidelines: Json,
    tutorialUrls: seq<Json>, specSheetUrls: seq<Json>,
    certificationCoursesUrls: seq<Json>, purchaseRentalUrls: seq<Json>)

  /** A material saved by the material path (MaterialScan collection). */
  datatype MaterialScan = MaterialScan(
    imageUrl: string,
    materialName: Json, materialCategory: Json, materialDescription: Json,
    applications: Json, handlingNotes: Json, environmentalImpact: Json,
    manufacturersName: seq<Json>, videosGuide: seq<Json>,
    specsName: seq<Json>, relatedCourses: seq<Json>)

  /** A building saved by the building path (BuildingScan collection). */
  datatype BuildingScan = BuildingScan(
    mainHeader: string, subHeader: string, imageUrl: string,
    cleanedTitle: Json, buildingType: Json, description: Json,
    keyFeatures: Json, yearBuilt: Json, historicalSignificance: Json,
    architectDesigner: Json, buildingMaterialsUsed: Json,
    relatedBuildingCodes: Json, similarFamousBuildings: Json,
    specializedCourseUrls: seq<Json>)

  /** A related tool inside a tool card of the combined path. */
  datatype RelatedTool = RelatedTool(
    toolName: Json, category: Json, usage: Json, specsLink: Json,
    specsWebLink: Json, specsPDFLink: Json, safetyGuidelines: Json,
    description: Json, commonApplications: Json, whereToBuy: Json,
    relatedContent: Json, thumbnail: Json)

  /** A tool saved by the combined path (Scan collection). */
  datatype ToolCardScan = ToolCardScan(
    mainHeader: string, subHeader: string, imageUrl: string,
    cardToolName: Json, thumbnail: Json, toolName: Json, category: Json,
    usage: Json, specsLink: Json, specsWebLink: Json, specsPDFLink: Json,
    safetyGuidelines: Json, description: Json, commonApplications: Json,
    whereToBuy: Json, relatedContent: Json, instructionalVideoScript: Json,
    relatedTools: seq<RelatedTool>)

  /** A building saved by the combined path (BuildingScan collection). */
  datatype BothBuildingScan = BothBuildingScan(
    mainHeader: string, subHeader: string, imageUrl: string,
    buildingType: Json, architecturalStyle: Json, historicalFacts: Json,
    constructionMethods: Json, zoningCodeRelevance: Json, learningHubLinks: Json)

  datatype Definition = Definition(term: string, definition: Json)

  /** A material saved by the combined path (MaterialScan collection). */
  datatype BothMaterialScan = BothMaterialScan(
    mainHeader: string, subHeader: string, imageUrl: string,
    materialName: Json, materialCategory: Json, usageAndInstallation: Json,
    manufacturerSpecsLinks: Json, safetyGuidelines: Json, typicalUseCases: Json,
    installedBy: Json, industryDefinitions: seq<Definition>,
    sustainabilityInfo: Json, learningHubLinks: Json)

  datatype Doc =
    | ToolDoc(tool: ToolScan)
    | MaterialDoc(material: MaterialScan)
    | BuildingDoc(building: BuildingScan)
    | ToolCardDoc(card: ToolCardScan)
    | BothBuildingDoc(bothBuilding: BothBuildingScan)
    | BothMaterialDoc(bothMaterial: BothMaterialScan)

  /** `obj?.key || ""`. */
  function Text(obj: Option<Json>, key: string): (r: Json)
    ensures Truthy(r) || r == JStr("")
    ensures Prop(obj, key).Some? && Truthy(Prop(obj, key).value) ==> r == Prop(obj, key).value
    ensures !(Prop(obj, key).Some? && Truthy(Prop(obj, key).value)) ==> r == JStr("")
  {
    Or(Prop(obj, key), JStr(""))
  }

  /** `obj?.key || []`. */
  function List(obj: Option<Json>, key: string): (r: Json)
    ensures Truthy(r)
    ensures Prop(obj, key).Some? && Truthy(Prop(obj, key).value) ==> r == Prop(obj, key).value
    ensures !(Prop(obj, key).Some? && Truthy(Prop(obj, key).value)) ==> r == JArr([])
  {
    Or(Prop(obj, key), JArr([]))
  }

  /** The kinds of element a path saves; a building carries the stored title. */
  datatype Kind = ToolKind | MaterialKind | BuildingKind(title: Json) | CardKind | BothBuildingKind | BothMaterialKind

  /** What handling one element does: the searches it makes and the document
      it saves, or the error that rejects it. */
  datatype Entry = Entry(calls: seq<Call>, doc: Result<Doc, string>)

  const NullError := "TypeError: Cannot read properties of null"

  /** The searches made for a list of queries, in order. */
  function SearchCalls(queries: seq<string>): (r: seq<Call>)
    ensures |r| == |queries|
    ensures forall i :: 0 <= i < |r| ==> r[i] == Search(queries[i])
  {
    seq(|queries|, i requires 0 <= i < |queries| => Search(queries[i]))
  }

  /** The lists of several extractions run in order: all of them, or the
      first extraction error. */
  function Collect(rs: seq<Result<seq<Json>, string>>): (r: Result<seq<seq<Json>>, string>)
    ensures r.Ok? ==> |r.value| == |rs|
  {
    if rs == [] then Ok([])
    else
      match Collect(rs[..|rs| - 1])
      case Err(e) => Err(e)
      case Ok(fs) =>
        match rs[|rs| - 1]
        case Err(e) => Err(e)
        case Ok(l) => Ok(fs + [l])
  }

  /** The extractions succeed exactly when each does, and list i is
      extraction i's. */
  lemma {:induction false} CollectSpec(rs: seq<Result<seq<Json>, string>>)
    ensures Collect(rs).Ok? <==> forall i :: 0 <= i < |rs| ==> rs[i].Ok?
    ensures Collect(rs).Ok? ==> forall i :: 0 <= i < |rs| ==> Collect(rs).value[i] == rs[i].value
  {
    if rs != [] {
      var init := rs[..|rs| - 1];
      CollectSpec(init);
      assert forall i :: 0 <= i < |init| ==> init[i] == rs[i];
    }
  }

  /** The URL list of each query's search, in query order, or the first
      extraction error. */
  function Facets(queries: seq<string>, search: string -> Option<Json>): (r: Result<seq<seq<Json>>, string>)
    ensures r.Ok? ==> |r.value| == |queries|
  {
    Collect(seq(|queries|, i requires 0 <= i < |queries| => Links(SearchBody(search(queries[i])))))
  }

  /** The lists are found exactly when every query's search gives one, and
      list i is query i's. */
  lemma FacetsSpec(queries: seq<string>, search: string -> Option<Json>)
    ensures Facets(queries, search).Ok? <==> forall i :: 0 <= i < |queries| ==> Links(SearchBody(search(queries[i]))).Ok?
    ensures Facets(queries, search).Ok? ==>
      forall i :: 0 <= i < |queries| ==> Facets(queries, search).value[i] == Links(SearchBody(search(queries[i]))).value
  {
    var rs := seq(|queries|, i requires 0 <= i < |queries| => Links(SearchBody(search(queries[i]))));
    assert Facets(queries, search) == Collect(rs);
    assert forall i :: 0 <= i < |queries| ==> rs[i] == Links(SearchBody(search(queries[i])));
    CollectSpec(rs);
  }

  /** The tool path's element: `detailedView.toolName || "Unnamed Tool"`
      names the four searches and the record; a null element throws before
      searching. */
  function ToolEntry(tool: Json, imageUrl: string, search: string -> Option<Json>): (r: Entry)
  {
    if tool == JNull then Entry([], Err(NullError))
    else
      var view := Prop(Some(tool), "detailedView");
      var name := Or(Prop(view, "toolName"), JStr("Unnamed Tool"));
      var queries := ToolQueries(SearchName(Prop(view, "toolName"), "Unnamed Tool"));
      match Facets(queries, search)
      case Err(e) => Entry(SearchCalls(queries), Err(e))
      case Ok(f) =>
        Entry(SearchCalls(queries), Ok(ToolDoc(ToolScan(
          ToolHeader, ToolSubHeader, imageUrl, name,
          Text(view, "category"), Text(view, "description"), Text(view, "primaryUses"),
          Text(view, "skillLevel"), Text(view, "manufacturers"), Text(view, "safetyGuidelines"),
          f[0], f[1], f[2], f[3]))))
  }

  /** The material path's element: `material?.materialName || "Unnamed
      Material"` names the four searches; a null element searches and then
      throws. */
  function MaterialEntry(material: Json, imageUrl: string, search: string -> Option<Json>): (r: Entry)
  {
    var m := Some(material);
    var queries := MaterialQueries(SearchName(Prop(m, "materialName"), "Unnamed Material"));
    match Facets(queries, search)
    case Err(e) => Entry(SearchCalls(queries), Err(e))
    case Ok(f) =>
      if material == JNull then Entry(SearchCalls(queries), Err(NullError))
      else
        Entry(SearchCalls(queries), Ok(MaterialDoc(MaterialScan(
          imageUrl, Text(m, "materialName"), Text(m, "materialCategory"),
          Text(m, "materialDescription"), Text(m, "applications"),
          Text(m, "handlingNotes"), Text(m, "environmentalImpact"),
          f[0], f[1], f[2], f[3]))))
  }

  /** The building path's element: `building?.buildingType || "Unnamed
      Building"` names the one search; a null element searches and then
      throws. */
  function BuildingEntry(building: Json, title: Json, imageUrl: string, search: string -> Option<Json>): (r: Entry)
  {
    var b := Some(building);
    var query := BuildingQuery(SearchName(Prop(b, "buildingType"), "Unnamed Building"));
    match Links(SearchBody(search(query)))
    case Err(e) => Entry([Search(query)], Err(e))
    case Ok(urls) =>
      if building == JNull then Entry([Search(query)], Err(NullError))
      else
        Entry([Search(query)], Ok(BuildingDoc(BuildingScan(
          BuildingHeader, BuildingHeader, imageUrl, title,
          Text(b, "buildingType"), Text(b, "description"), Text(b, "keyFeatures"),
          Text(b, "yearBuilt"), Text(b, "historicalSignificance"),
          Text(b, "architectDesigner"), Text(b, "buildingMaterialsUsed"),
          Text(b, "relatedBuildingCodes"), Text(b, "similarFamousBuildings"),
          urls))))
  }

  /** One related tool: optional chaining makes any element, null included,
      a record of defaults. */
  function Related(related: Json): (r: RelatedTool)
  {
    var view := Prop(Some(related), "detailedView");
    RelatedTool(
      Text(view, "toolName"), Text(view, "category"), Text(view, "usage"),
      Text(view, "specsLink"), Text(view, "specsWebLink"), Text(view, "specsPDFLink"),
      Text(view, "safetyGuidelines"), Text(view, "description"),
      List(view, "commonApplications"), List(view, "whereToBuy"),
      List(view, "relatedContent"), Text(Prop(Some(related), "toolCard"), "thumbnail"))
  }

  /** `relatedTools = []` then `relatedTools.map(...)`: the default applies
      only when the property is missing; anything but an array throws. */
  function RelatedTools(tool: Json): (r: Result<seq<RelatedTool>, string>)
    ensures Prop(Some(tool), "relatedTools").None? ==> r == Ok([])
    ensures Prop(Some(tool), "relatedTools").Some? ==> (r.Ok? <==> Prop(Some(tool), "relatedTools").value.JArr?)
    ensures r.Ok? && Prop(Some(tool), "relatedTools").Some? ==>
      |r.value| == |Prop(Some(tool), "relatedTools").value.items|
    ensures r.Ok? && Prop(Some(tool), "relatedTools").Some? ==>
      forall i :: 0 <= i < |r.value| ==> r.value[i] == Related(Prop(Some(tool), "relatedTools").value.items[i])
  {
    match Prop(Some(tool), "relatedTools")
    case None => Ok([])
    case Some(JArr(items)) => Ok(seq(|items|, i requires 0 <= i < |items| => Related(items[i])))
    case Some(_) => Err("TypeError: relatedTools.map is not a function")
  }

  /** The combined path's tool: destructuring null throws; no searches. */
  function CardEntry(tool: Json, imageUrl: string): (r: Entry)
  {
    if tool == JNull then Entry([], Err(NullError))
    else
      var t := Some(tool);
      var card := Prop(t, "toolCard");
      var view := Prop(t, "detailedView");
      match RelatedTools(tool)
      case Err(e) => Entry([], Err(e))
      case Ok(related) =>
        Entry([], Ok(ToolCardDoc(ToolCardScan(
          ToolHeader, CardSubHeader, imageUrl,
          Text(card, "toolName"), Text(card, "thumbnail"),
          Text(view, "toolName"), Text(view, "category"), Text(view, "usage"),
          Text(view, "specsLink"), Text(view, "specsWebLink"), Text(view, "specsPDFLink"),
          Text(view, "safetyGuidelines"), Text(view, "description"),
          List(view, "commonApplications"), List(view, "whereToBuy"),
          List(view, "relatedContent"), Text(view, "instructionalVideoScript"),
          related))))
  }

  function BothBuildingEntry(building: Json, imageUrl: string): (r: Entry)
  {
    if building == JNull then Entry([], Err(NullError))
    else
      var b := Some(building);
      Entry([], Ok(BothBuildingDoc(BothBuildingScan(
        BuildingHeader, BuildingHeader, imageUrl,
        Text(b, "buildingType"), Text(b, "architecturalStyle"), Text(b, "historicalFacts"),
        Text(b, "constructionMethods"), Text(b, "zoningCodeRelevance"),
        List(b, "learningHubLinks")))))
  }

  /** `Object.entries(material.industryDefinitions || {})` as term and
      definition pairs, in enumeration order. */
  function Definitions(material: Json): (r: seq<Definition>)
    ensures var d := Prop(Some(material), "industryDefinitions");
            d.Some? && d.value.JObj? ==>
              |r| == |d.value.fields| &&
              forall i :: 0 <= i < |r| ==> r[i] == Definition(d.value.fields[i].0, d.value.fields[i].1)
    ensures var d := Prop(Some(material), "industryDefinitions");
            d.Some? && d.value.JArr? ==>
              |r| == |d.value.items| && forall i :: 0 <= i < |r| ==> r[i] == Definition(NatToString(i), d.value.items[i])
    ensures var d := Prop(Some(material), "industryDefinitions");
            d.None? || !Truthy(d.value) ==> r == []
  {
    var entries := Entries(Or(Prop(Some(material), "industryDefinitions"), JObj([])));
    seq(|entries|, i requires 0 <= i < |entries| => Definition(entries[i].0, entries[i].1))
  }

  function BothMaterialEntry(material: Json, imageUrl: string): (r: Entry)
  {
    if material == JNull then Entry([], Err(NullError))
    else
      var m := Some(material);
      Entry([], Ok(BothMaterialDoc(BothMaterialScan(
        BothMaterialHeader, BothMaterialHeader, imageUrl,
        Text(m, "materialName"), Text(m, "materialCategory"), Text(m, "usageAndInstallation"),
        List(m, "manufacturerSpecsLinks"), Text(m, "safetyGuidelines"),
        Text(m, "typicalUseCases"), Text(m, "installedBy"), Definitions(material),
        Text(m, "sustainabilityInfo"), List(m, "learningHubLinks")))))
  }

  /** The element handler of each kind. */
  function EntryOf(kind: Kind, element: Json, imageUrl: string, search: string -> Option<Json>): (r: Entry)
  {
    match kind
    case ToolKind => ToolEntry(element, imageUrl, search)
    case MaterialKind => MaterialEntry(element, imageUrl, search)
    case BuildingKind(title) => BuildingEntry(element, title, imageUrl, search)
    case CardKind => CardEntry(element, imageUrl)
    case BothBuildingKind => BothBuildingEntry(element, imageUrl)
    case BothMaterialKind => BothMaterialEntry(element, imageUrl)
  }

  /** Every kind of element handler rejects a null element. */
  lemma NullElementRejected(kind: Kind, imageUrl: string, search: string -> Option<Json>)
    ensures EntryOf(kind, JNull, imageUrl, search).doc.Err?
  {
  }

  /** The tool name `detailedView.toolName || "Unnamed Tool"` is the one in
      every query and in the record, and query i fills URL list i; the
      element is saved exactly when every URL list can be extracted. A null
      tool makes no search. */
  lemma ToolEntrySpec(tool: Json, imageUrl: string, search: string -> Option<Json>)
    ensures tool == JNull ==> ToolEntry(tool, imageUrl, search) == Entry([], Err(NullError))
    ensures tool != JNull ==>
      var name := Or(Prop(Prop(Some(tool), "detailedView"), "toolName"), JStr("Unnamed Tool"));
      var queries := ToolQueries(SearchName(Prop(Prop(Some(tool), "detailedView"), "toolName"), "Unnamed Tool"));
      var r := ToolEntry(tool, imageUrl, search);
      && r.calls == SearchCalls(queries)
      && (r.doc.Ok? <==> forall i :: 0 <= i < 4 ==> Links(SearchBody(search(queries[i]))).Ok?)
      && (r.doc.Ok? ==>
            && r.doc.value.ToolDoc?
            && r.doc.value.tool.toolName == name
            && r.doc.value.tool.imageUrl == imageUrl
            && r.doc.value.tool.tutorialUrls == Links(SearchBody(search(queries[0]))).value
            && r.doc.value.tool.specSheetUrls == Links(SearchBody(search(queries[1]))).value
            && r.doc.value.tool.certificationCoursesUrls == Links(SearchBody(search(queries[2]))).value
            && r.doc.value.tool.purchaseRentalUrls == Links(SearchBody(search(queries[3]))).value)
  {
    var name := Or(Prop(Prop(Some(tool), "detailedView"), "toolName"), JStr("Unnamed Tool"));
    FacetsSpec(ToolQueries(SearchName(Prop(Prop(Some(tool), "detailedView"), "toolName"), "Unnamed Tool")), search);
  }

  /** A tool without a truthy detailedView.toolName is searched for and
      saved as "Unnamed Tool". */
  lemma UnnamedTool(tool: Json, imageUrl: string, search: string -> Option<Json>)
    requires tool != JNull
    requires var n := Prop(Prop(Some(tool), "detailedView"), "toolName"); n.None? || !Truthy(n.value)
    ensures ToolEntry(tool, imageUrl, search).calls == SearchCalls(ToolQueries("Unnamed Tool"))
    ensures ToolEntry(tool, imageUrl, search).doc.Ok? ==>
      ToolEntry(tool, imageUrl, search).doc.value.tool.toolName == JStr("Unnamed Tool")
  {
  }

  /** A material always makes its four searches, under
      `materialName || "Unnamed Material"`, and is saved exactly when it is
      not null and every URL list can be extracted; list i comes from
      query i. */
  lemma MaterialEntrySpec(material: Json, imageUrl: string, search: string -> Option<Json>)
    ensures
      var queries := MaterialQueries(SearchName(Prop(Some(material), "materialName"), "Unnamed Material"));
      var r := MaterialEntry(material, imageUrl, search);
      && r.calls == SearchCalls(queries)
      && (r.doc.Ok? <==> material != JNull && forall i :: 0 <= i < 4 ==> Links(SearchBody(search(queries[i]))).Ok?)
      && (r.doc.Ok? ==>
            && r.doc.value.MaterialDoc?
            && r.doc.value.material.manufacturersName == Links(SearchBody(search(queries[0]))).value
            && r.doc.value.material.videosGuide == Links(SearchBody(search(queries[1]))).value
            && r.doc.value.material.specsName == Links(SearchBody(search(queries[2]))).value
            && r.doc.value.material.relatedCourses == Links(SearchBody(search(queries[3]))).value)
  {
    FacetsSpec(MaterialQueries(SearchName(Prop(Some(material), "materialName"), "Unnamed Material")), search);
  }

  /** A building makes one search, under `buildingType || "Unnamed
      Building"`, is saved exactly when it is not null and its URL list can
      be extracted, and stores the given title. */
  lemma BuildingEntrySpec(building: Json, title: Json, imageUrl: string, search: string -> Option<Json>)
    ensures
      var query := BuildingQuery(SearchName(Prop(Some(building), "buildingType"), "Unnamed Building"));
      var r := BuildingEntry(building, title, imageUrl, search);
      && r.calls == [Search(query)]
      && (r.doc.Ok? <==> building != JNull && Links(SearchBody(search(query))).Ok?)
      && (r.doc.Ok? ==>
            && r.doc.value.BuildingDoc?
            && r.doc.value.building.cleanedTitle == title
            && r.doc.value.building.specializedCourseUrls == Links(SearchBody(search(query))).value)
  {
  }

  /** A tool card is built exactly when the tool is not null and its
      relatedTools is missing or an array; it makes no search. */
  lemma CardEntrySpec(tool: Json, imageUrl: string)
    ensures CardEntry(tool, imageUrl).calls == []
    ensures CardEntry(tool, imageUrl).doc.Ok? <==>
      tool != JNull && (Prop(Some(tool), "relatedTools").None? || Prop(Some(tool), "relatedTools").value.JArr?)
  {
  }

  /** A building or material of the combined path is built exactly when it
      is not null; neither makes a search. */
  lemma BothEntriesSpec(element: Json, imageUrl: string)
    ensures BothBuildingEntry(element, imageUrl).calls == [] && BothMaterialEntry(element, imageUrl).calls == []
    ensures BothBuildingEntry(element, imageUrl).doc.Ok? <==> element != JNull
    ensures BothMaterialEntry(element, imageUrl).doc.Ok? <==> element != JNull
  {
  }
}
