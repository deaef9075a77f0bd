/** scanImage as a function of its request and of the services' answers:
    the response it sends, the external calls it makes, in order, and the
    documents it saves, in order. */
module Pipeline {
  import opened Wrappers
  import opened Json
  import opened Extract
  import opened DataUri
  import opened Classify
  import opened Oracles
  import opened Title
  import opened Records

  /** The request: the body's image (None when absent), the clock, the
      protocol and host the image URL is built from, and whether writing the
      upload file succeeds. */
  datatype Request = Request(image: Option<Json>, now: nat, protocol: string, host: string, writeOk: bool)

  datatype Body =
    | ErrorBody(error: string)
    | MessageBody(message: string)
    | ToolsBody(savedTools: seq<Doc>, imageUrl: string)
    | MaterialsBody(savedMaterials: seq<Doc>, imageUrl: string)
    | BuildingsBody(savedBuilding: seq<Doc>, imageUrl: string)
    | BothBody(tool: seq<Doc>, building: seq<Doc>, material: seq<Doc>, imageUrl: string)

  /** NoResponse: the handler returns without answering the request. */
  datatype Response = NoResponse | Respond(status: nat, body: Body)

  datatype Run = Run(response: Response, calls: seq<Call>, saved: seq<Doc>)

  /** What `Promise.all` settles to: the calls of all handlers, the
      documents of those that built one, in element order (every handler
      runs to its end whether or not a sibling fails), and ok when none
      failed. */
  datatype Batch = Batch(calls: seq<Call>, saved: seq<Doc>, ok: bool)

  /** `items.map(handler)`: every element's handler is started. */
  function Handled(kind: Kind, items: seq<Json>, imageUrl: string, search: string -> Option<Json>): seq<Entry>
  {
    seq(|items|, i requires 0 <= i < |items| => EntryOf(kind, items[i], imageUrl, search))
  }

  function Settle(entries: seq<Entry>): (r: Batch)
    ensures |r.saved| <= |entries|
    ensures r.ok <==> forall i :: 0 <= i < |entries| ==> entries[i].doc.Ok?
    ensures r.ok ==> |r.saved| == |entries|
  {
    if entries == [] then Batch([], [], true)
    else
      var init := entries[..|entries| - 1];
      assert forall i :: 0 <= i < |init| ==> init[i] == entries[i];
      var b := Settle(init);
      var e := entries[|entries| - 1];
      Batch(b.calls + e.calls, b.saved + (if e.doc.Ok? then [e.doc.value] else []), b.ok && e.doc.Ok?)
  }

  /** `await Promise.all(items.map(handler))`. */
  function SaveAll(kind: Kind, items: seq<Json>, imageUrl: string, search: string -> Option<Json>): Batch
  {
    Settle(Handled(kind, items, imageUrl, search))
  }

  /** When no handler fails, the settled documents are the handlers'
      documents, one per element, in element order. */
  lemma {:induction false} SettleInOrder(entries: seq<Entry>)
    ensures var r := Settle(entries);
      r.ok ==> forall i :: 0 <= i < |entries| ==> r.saved[i] == entries[i].doc.value
  {
    var r := Settle(entries);
    if entries != [] && r.ok {
      var init := entries[..|entries| - 1];
      SettleInOrder(init);
      assert r.saved == Settle(init).saved + [entries[|entries| - 1].doc.value];
      forall i | 0 <= i < |entries|
        ensures r.saved[i] == entries[i].doc.value
      {
        if i < |init| {
          assert init[i] == entries[i];
        }
      }
    }
  }

  /** The batch is ok exactly when every element builds its document, and
      then the saved documents are the elements' documents, one per
      element, in element order. */
  lemma SaveAllSpec(kind: Kind, items: seq<Json>, imageUrl: string, search: string -> Option<Json>)
    ensures var r := SaveAll(kind, items, imageUrl, search);
      && |r.saved| <= |items|
      && (r.ok <==> forall i :: 0 <= i < |items| ==> EntryOf(kind, items[i], imageUrl, search).doc.Ok?)
      && (r.ok ==> |r.saved| == |items|)
      && (r.ok ==> forall i :: 0 <= i < |items| ==> r.saved[i] == EntryOf(kind, items[i], imageUrl, search).doc.value)
  {
    var entries := Handled(kind, items, imageUrl, search);
    assert forall i :: 0 <= i < |items| ==> entries[i] == EntryOf(kind, items[i], imageUrl, search);
    SettleInOrder(entries);
  }

  /** Every settled document is the document of one of the handlers. */
  lemma {:induction false} SettleSavedFrom(entries: seq<Entry>)
    ensures forall d :: d in Settle(entries).saved ==>
      exists i :: 0 <= i < |entries| && entries[i].doc == Ok(d)
  {
    if entries != [] {
      var init := entries[..|entries| - 1];
      SettleSavedFrom(init);
      var e := entries[|entries| - 1];
      assert Settle(entries).saved == Settle(init).saved + (if e.doc.Ok? then [e.doc.value] else []);
      forall d | d in Settle(entries).saved
        ensures exists i :: 0 <= i < |entries| && entries[i].doc == Ok(d)
      {
        if d in Settle(init).saved {
          var i :| 0 <= i < |init| && init[i].doc == Ok(d);
          assert entries[i] == init[i];
        } else {
          assert e.doc == Ok(d);
        }
      }
    }
  }

  /** Settling one more handler appends its calls and its document. */
  lemma SettleStep(entries: seq<Entry>, i: nat)
    requires i < |entries|
    ensures var b := Settle(entries[..i]);
      var e := entries[i];
      Settle(entries[..i + 1])
        == Batch(b.calls + e.calls, b.saved + (if e.doc.Ok? then [e.doc.value] else []), b.ok && e.doc.Ok?)
  {
    assert entries[..i + 1][..i] == entries[..i];
  }

  /** The single-category paths. */
  datatype Path = ToolPath | MaterialPath | BuildingPath

  /** `cleanJsonString(response.choices[0].message.content)`: a null
      content makes the extractor throw, which it turns into null. */
  function ParseReply(content: Option<string>, parse: Parser): (r: Json)
    ensures content.None? ==> r == JNull
    ensures content.Some? ==> r == JNull || parse(Candidate(content.value)) == Some(r)
    ensures content.Some? ==> r == CleanJson(content.value, parse)
  {
    match content
    case None => JNull
    case Some(text) => CleanJson(text, parse)
  }

  function SaveError(path: Path): string {
    match path
    case ToolPath => "Failed to save scan results"
    case MaterialPath => "Failed to save material scan results"
    case BuildingPath => "Failed to save building scan results"
  }

  function Saved(path: Path, docs: seq<Doc>, imageUrl: string): Body {
    match path
    case ToolPath => ToolsBody(docs, imageUrl)
    case MaterialPath => MaterialsBody(docs, imageUrl)
    case BuildingPath => BuildingsBody(docs, imageUrl)
  }

  function KindOf(path: Path, title: Json): Kind {
    match path
    case ToolPath => ToolKind
    case MaterialPath => MaterialKind
    case BuildingPath => BuildingKind(title)
  }

  const InvalidFormat := "Invalid AI response format"
  const AnalysisFailed := "AI analysis failed"
  const CombinedFailed := "Failed to process combined scan results"

  /** A single-category path once its analyzer replied: the shape check,
      then one document per element. */
  function Analyzed(path: Path, content: Option<string>, title: Json, imageUrl: string, o: Oracles): (r: Run)
    ensures !ParseReply(content, o.parse).JArr? ==> r == Run(Respond(500, ErrorBody(InvalidFormat)), [], [])
    ensures ParseReply(content, o.parse).JArr? ==>
      var b := SaveAll(KindOf(path, title), ParseReply(content, o.parse).items, imageUrl, o.search);
      && r.calls == b.calls && r.saved == b.saved
      && r.response == (if b.ok then Respond(200, Saved(path, b.saved, imageUrl)) else Respond(500, ErrorBody(SaveError(path))))
  {
    var parsed := ParseReply(content, o.parse);
    if !parsed.JArr? then Run(Respond(500, ErrorBody(InvalidFormat)), [], [])
    else
      var b := SaveAll(KindOf(path, title), parsed.items, imageUrl, o.search);
      if b.ok then Run(Respond(200, Saved(path, b.saved, imageUrl)), b.calls, b.saved)
      else Run(Respond(500, ErrorBody(SaveError(path))), b.calls, b.saved)
  }

  /** Prefixes the calls made before a stage. */
  function After(calls: seq<Call>, r: Run): Run {
    Run(r.response, calls + r.calls, r.saved)
  }

  /** One category of the combined path: a falsy value saves nothing, a
      truthy value that is not an array throws before saving. */
  function Stage(kind: Kind, parsed: Json, imageUrl: string, search: string -> Option<Json>): (r: Batch)
    ensures !Truthy(parsed) ==> r == Batch([], [], true)
    ensures Truthy(parsed) && !parsed.JArr? ==> r == Batch([], [], false)
  {
    if !Truthy(parsed) then Batch([], [], true)
    else if !parsed.JArr? then Batch([], [], false)
    else SaveAll(kind, parsed.items, imageUrl, search)
  }

  /** A single-category analyzer call: a call that throws is answered
      500, a reply goes on to the shape check. */
  function Reply(path: Path, reply: AnalyzerReply, title: Json, imageUrl: string, o: Oracles): Run
  {
    match reply
    case Threw => Run(Respond(500, ErrorBody(AnalysisFailed)), [], [])
    case Replied(c) => Analyzed(path, c, title, imageUrl, o)
  }

  /** The building route: the title is resolved before the analyzer runs,
      and a failed resolution ends the request. */
  function BuildingRun(imageUrl: string, o: Oracles): Run
  {
    var t := ResolveTitle(o);
    if t.title.Err? then Run(Respond(500, ErrorBody(AnalysisFailed)), t.calls, [])
    else After(t.calls + [BuildingAnalyzer], Reply(BuildingPath, o.building, StoredTitle(t.title.value), imageUrl, o))
  }

  /** The combined path once all three analyzers replied and their
      replies were extracted: tools, then buildings, then materials; the
      first failing stage ends the request with what was saved so far. */
  function Combined(toolResponse: Json, buildingResponse: Json, materialResponse: Json, imageUrl: string, o: Oracles): (r: Run)
  {
    Chained(Stage(CardKind, toolResponse, imageUrl, o.search),
            Stage(BothBuildingKind, buildingResponse, imageUrl, o.search),
            Stage(BothMaterialKind, materialResponse, imageUrl, o.search), imageUrl)
  }

  /** A failed stage ends the combined path with what it saved. */
  function StageFailed(x: Batch): Run {
    Run(Respond(500, ErrorBody(CombinedFailed)), x.calls, x.saved)
  }

  /** Prefixes what an earlier stage called and saved. */
  function Then(x: Batch, r: Run): Run {
    Run(r.response, x.calls + r.calls, x.saved + r.saved)
  }

  /** Documents saved by one stage and then by the rest extend the store
      by both lists in turn. */
  lemma SavedInTurn(docs: seq<Doc>, first: seq<Doc>, rest: seq<Doc>)
    ensures docs + first + rest == docs + (first + rest)
  {
  }

  /** The three stages' batches in sequence: a stage's batch counts only
      when every stage before it succeeded. */
  function Chained(t: Batch, b: Batch, m: Batch, imageUrl: string): Run {
    if !t.ok then StageFailed(t) else Then(t, StagesAfterTools(t.saved, b, m, imageUrl))
  }

  /** The building and material stages, once the tools are saved. */
  function StagesAfterTools(tools: seq<Doc>, b: Batch, m: Batch, imageUrl: string): Run {
    if !b.ok then StageFailed(b) else Then(b, LastStage(tools, b.saved, m, imageUrl))
  }

  /** The material stage, then the combined answer. */
  function LastStage(tools: seq<Doc>, buildings: seq<Doc>, m: Batch, imageUrl: string): Run {
    if !m.ok then StageFailed(m) else Run(Respond(200, BothBody(tools, buildings, m.saved, imageUrl)), m.calls, m.saved)
  }

  /** The "both" route: the three analyzers run together; any of them
      throwing fails the request, otherwise each reply is extracted (a
      null content extracts as if it were empty). */
  function BothRun(imageUrl: string, o: Oracles): Run
  {
    After([ToolAnalyzer, BuildingAnalyzer, MaterialAnalyzer],
      if o.tool.Threw? || o.building.Threw? || o.material.Threw? then
        Run(Respond(500, ErrorBody(CombinedFailed)), [], [])
      else Combined(CleanJson(o.tool.content.GetOr(""), o.parse),
                    CleanJson(o.building.content.GetOr(""), o.parse),
                    CleanJson(o.material.content.GetOr(""), o.parse), imageUrl, o))
  }

  /** Everything after classification, by route. */
  function Routed(route: Route, imageUrl: string, o: Oracles): (r: Run)
  {
    match route
    case ToolRoute => After([ToolAnalyzer], Reply(ToolPath, o.tool, JNull, imageUrl, o))
    case MaterialRoute => After([MaterialAnalyzer], Reply(MaterialPath, o.material, JNull, imageUrl, o))
    case BuildingRoute => BuildingRun(imageUrl, o)
    case BothRoute => BothRun(imageUrl, o)
    case NoneRoute => Run(Respond(500, ErrorBody("Something went wrong")), [], [])
    case Unrouted => Run(NoResponse, [], [])
  }

  /** scanImage. */
  function Scan(req: Request, o: Oracles): (r: Run)
  {
    if req.image.None? || !Truthy(req.image.value) then
      Run(Respond(400, ErrorBody("No image provided")), [], [])
    else if !req.image.value.JStr? then
      Run(Respond(500, ErrorBody("Failed to save image")), [], [])
    else
      match Split(req.image.value.s)
      case None => Run(Respond(400, MessageBody("Invalid base64 image format")), [], [])
      case Some((mime, _)) =>
        if !req.writeOk then Run(Respond(500, ErrorBody("Failed to save image")), [], [])
        else
          var imageUrl := ImageUrl(req.protocol, req.host, FileName(req.now, mime));
          After([Classifier], Routed(RouteOf(Label(o.classifier)), imageUrl, o))
  }

  /** The image URL of an accepted upload. */
  function UploadUrl(req: Request): string
    requires req.image.Some? && req.image.value.JStr? && Split(req.image.value.s).Some?
  {
    ImageUrl(req.protocol, req.host, FileName(req.now, Split(req.image.value.s).value.0))
  }

  /** The upload passes the body check, the data-URI check and the file
      write, so that the image is classified. */
  predicate Accepted(req: Request) {
    && req.image.Some? && Truthy(req.image.value) && req.image.value.JStr?
    && Split(req.image.value.s).Some? && req.writeOk
  }

  /** A missing or empty image is answered 400 before any call. */
  lemma MissingImage(req: Request, o: Oracles)
    requires req.image.None? || !Truthy(req.image.value)
    ensures Scan(req, o) == Run(Respond(400, ErrorBody("No image provided")), [], [])
  {
  }

  /** A string that is not `data:<mime>;base64,<payload>` is answered 400
      before any call. */
  lemma MalformedDataUri(req: Request, o: Oracles)
    requires req.image.Some? && req.image.value.JStr? && req.image.value.s != ""
    requires forall mime, data :: !IsSplit(req.image.value.s, mime, data)
    ensures Scan(req, o) == Run(Respond(400, MessageBody("Invalid base64 image format")), [], [])
  {
  }

  /** A truthy image that is not a string makes `image.match` throw inside
      the upload block, which answers 500 before any call. */
  lemma NonStringImage(req: Request, o: Oracles)
    requires req.image.Some? && Truthy(req.image.value) && !req.image.value.JStr?
    ensures Scan(req, o) == Run(Respond(500, ErrorBody("Failed to save image")), [], [])
  {
  }

  /** Every rejected upload makes no external call and saves nothing; an
      accepted one calls the classifier first. */
  lemma ClassifierFirst(req: Request, o: Oracles)
    ensures !Accepted(req) ==> Scan(req, o).calls == [] && Scan(req, o).saved == []
    ensures Accepted(req) ==> |Scan(req, o).calls| > 0 && Scan(req, o).calls[0] == Classifier
  {
  }

  /** "none" runs no analyzer and ends in the generic 500. */
  lemma NoneLabel(req: Request, o: Oracles)
    requires Accepted(req) && Label(o.classifier) == "none"
    ensures Scan(req, o) == Run(Respond(500, ErrorBody("Something went wrong")), [Classifier], [])
  {
  }

  /** A label other than the five sends no response at all. */
  lemma UnknownLabel(req: Request, o: Oracles)
    requires Accepted(req)
    requires Label(o.classifier) !in {"tool", "material", "building", "both", "none"}
    ensures Scan(req, o) == Run(NoResponse, [Classifier], [])
  {
    assert RouteOf(Label(o.classifier)) == Unrouted;
  }

  /** Only the exact labels "tool", "material", "building" and "both" run an
      analyzer. */
  lemma AnalyzersOnlyForFourLabels(req: Request, o: Oracles)
    requires ToolAnalyzer in Scan(req, o).calls || MaterialAnalyzer in Scan(req, o).calls
             || BuildingAnalyzer in Scan(req, o).calls
    ensures Label(o.classifier) in {"tool", "material", "building", "both"}
  {
    ClassifierFirst(req, o);
    ClassifierOnly(req, o);
  }

  lemma ClassifierOnly(req: Request, o: Oracles)
    ensures Accepted(req) && RouteOf(Label(o.classifier)) in {NoneRoute, Unrouted} ==>
      Scan(req, o).calls == [Classifier]
  {
  }

  /** A single-category path whose extracted value is not an array answers
      500 "Invalid AI response format" and saves nothing. */
  lemma SinglePathNeedsArray(req: Request, o: Oracles)
    requires Accepted(req) && Label(o.classifier) == "tool"
    requires o.tool.Replied? && !ParseReply(o.tool.content, o.parse).JArr?
    ensures Scan(req, o) == Run(Respond(500, ErrorBody(InvalidFormat)), [Classifier, ToolAnalyzer], [])
  {
  }

  /** A material reply that extracts to an array saves the elements'
      documents after the material searches; when none fails the answer is
      200 with exactly one document per element, in element order. */
  lemma MaterialRouteSaves(url: string, o: Oracles, items: seq<Json>)
    requires o.material.Replied? && ParseReply(o.material.content, o.parse) == JArr(items)
    ensures var b := SaveAll(MaterialKind, items, url, o.search);
      Routed(MaterialRoute, url, o) ==
        Run(if b.ok then Respond(200, MaterialsBody(b.saved, url))
            else Respond(500, ErrorBody("Failed to save material scan results")),
            [MaterialAnalyzer] + b.calls, b.saved)
    ensures var b := SaveAll(MaterialKind, items, url, o.search);
      b.ok ==> |b.saved| == |items| && forall i :: 0 <= i < |items| ==> Ok(b.saved[i]) == MaterialEntry(items[i], url, o.search).doc
  {
    SaveAllSpec(MaterialKind, items, url, o.search);
  }

  /** An accepted upload is classified and routed with its image URL. */
  lemma ScanAccepted(req: Request, o: Oracles)
    requires Accepted(req)
    ensures Scan(req, o) == After([Classifier], Routed(RouteOf(Label(o.classifier)), UploadUrl(req), o))
  {
  }

  /** Every document a batch of building elements saves, even when a
      sibling element fails, is a building document with the image URL and
      the given stored title. */
  lemma BuildingBatchStoresTitle(items: seq<Json>, title: Json, url: string, search: string -> Option<Json>)
    ensures forall d :: d in SaveAll(BuildingKind(title), items, url, search).saved ==>
      d.BuildingDoc? && d.building.cleanedTitle == title && d.building.imageUrl == url
  {
    var entries := Handled(BuildingKind(title), items, url, search);
    SettleSavedFrom(entries);
    forall d | d in Settle(entries).saved
      ensures d.BuildingDoc? && d.building.cleanedTitle == title && d.building.imageUrl == url
    {
      var i :| 0 <= i < |entries| && entries[i].doc == Ok(d);
      BuildingEntrySpec(items[i], title, url, search);
    }
  }

  /** The building path after its analyzer replied saves only building
      documents with the image URL and the given stored title. */
  lemma BuildingDocsStoreTitle(content: Option<string>, title: Json, url: string, o: Oracles)
    ensures forall d :: d in Analyzed(BuildingPath, content, title, url, o).saved ==>
      d.BuildingDoc? && d.building.cleanedTitle == title && d.building.imageUrl == url
  {
    var parsed := ParseReply(content, o.parse);
    if parsed.JArr? {
      BuildingBatchStoresTitle(parsed.items, title, url, o.search);
    }
  }

  /** The building route: the title is resolved first, and the saved
      documents all store it (or "" when cleaning did not run). */
  lemma BuildingPathStoresTitle(req: Request, o: Oracles)
    requires Accepted(req) && Label(o.classifier) == "building"
    ensures var t := ResolveTitle(o);
      t.title.Ok? ==> forall d :: d in Scan(req, o).saved ==>
        d.BuildingDoc? && d.building.cleanedTitle == StoredTitle(t.title.value)
  {
    ScanAccepted(req, o);
    var t := ResolveTitle(o);
    if t.title.Ok? && o.building.Replied? {
      BuildingDocsStoreTitle(o.building.content, StoredTitle(t.title.value), UploadUrl(req), o);
    }
  }

  /** A failed title cleaning ends the building path before the analyzer. */
  lemma CleanerFailureStopsBuilding(req: Request, o: Oracles)
    requires Accepted(req) && Label(o.classifier) == "building"
    requires o.serpKeySet && Truthy(LensTitle(o.serpKeySet, o.lens)) && o.cleaner.None?
    ensures Scan(req, o) == Run(Respond(500, ErrorBody(AnalysisFailed)), [Classifier, Lens, TitleCleaner], [])
  {
    CleanerFailureRun(UploadUrl(req), o);
    ScanAccepted(req, o);
  }

  /** The building route with a failed title cleaning. */
  lemma CleanerFailureRun(imageUrl: string, o: Oracles)
    requires o.serpKeySet && Truthy(LensTitle(o.serpKeySet, o.lens)) && o.cleaner.None?
    ensures BuildingRun(imageUrl, o) == Run(Respond(500, ErrorBody(AnalysisFailed)), [Lens, TitleCleaner], [])
  {
    CleanerFailure(o);
  }

  /** In the combined path a failed analyzer fails the request after all
      three were called. */
  lemma CombinedAnalyzerFailure(req: Request, o: Oracles)
    requires Accepted(req) && Label(o.classifier) == "both"
    requires o.tool.Threw? || o.building.Threw? || o.material.Threw?
    ensures Scan(req, o) == Run(Respond(500, ErrorBody(CombinedFailed)),
                                [Classifier, ToolAnalyzer, BuildingAnalyzer, MaterialAnalyzer], [])
  {
    BothRunThrew(UploadUrl(req), o);
    ScanAccepted(req, o);
  }

  /** The combined route with a failed analyzer. */
  lemma BothRunThrew(imageUrl: string, o: Oracles)
    requires o.tool.Threw? || o.building.Threw? || o.material.Threw?
    ensures BothRun(imageUrl, o) == Run(Respond(500, ErrorBody(CombinedFailed)),
                                        [ToolAnalyzer, BuildingAnalyzer, MaterialAnalyzer], [])
  {
  }

  /** An accepted "both" upload whose three analyzers replied runs the
      combined path after calling the classifier and the three analyzers. */
  lemma CombinedRoute(req: Request, o: Oracles)
    requires Accepted(req) && Label(o.classifier) == "both"
    requires o.tool.Replied? && o.building.Replied? && o.material.Replied?
    ensures Scan(req, o) == After([Classifier], After([ToolAnalyzer, BuildingAnalyzer, MaterialAnalyzer],
                                  Combined(CleanJson(o.tool.content.GetOr(""), o.parse),
                                           CleanJson(o.building.content.GetOr(""), o.parse),
                                           CleanJson(o.material.content.GetOr(""), o.parse), UploadUrl(req), o)))
  {
    BothRunReplied(UploadUrl(req), o);
    ScanAccepted(req, o);
  }

  /** The combined route once the three analyzers replied. */
  lemma BothRunReplied(imageUrl: string, o: Oracles)
    requires o.tool.Replied? && o.building.Replied? && o.material.Replied?
    ensures BothRun(imageUrl, o) == After([ToolAnalyzer, BuildingAnalyzer, MaterialAnalyzer],
                                          Combined(CleanJson(o.tool.content.GetOr(""), o.parse),
                                                   CleanJson(o.building.content.GetOr(""), o.parse),
                                                   CleanJson(o.material.content.GetOr(""), o.parse), imageUrl, o))
  {
  }

  /** In the combined path a falsy tool value counts as no tools, and a
      truthy tool value that is not an array fails the whole request before
      anything is saved. */
  lemma CombinedToolShapes(toolResponse: Json, buildingResponse: Json, materialResponse: Json, url: string, o: Oracles)
    ensures Truthy(toolResponse) && !toolResponse.JArr? ==>
      Combined(toolResponse, buildingResponse, materialResponse, url, o) == Run(Respond(500, ErrorBody(CombinedFailed)), [], [])
    ensures var r := Combined(toolResponse, buildingResponse, materialResponse, url, o);
      !Truthy(toolResponse) && r.response.Respond? && r.response.body.BothBody? ==> r.response.body.tool == []
  {
  }
}
