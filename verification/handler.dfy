/** scanImage as the controller runs it: locals assigned step by step
    through a chain of branches with early returns, and documents appended
    to the store as they are saved. */
module ScanHandler {
  import opened Wrappers
  import opened Json
  import opened Extract
  import opened DataUri
  import opened Classify
  import opened Oracles
  import opened Title
  import opened Records
  import opened Pipeline

  /** The three scan collections, as one append-only log of saved documents. */
  class ScanStore {
    var docs: seq<Doc>

    constructor ()
      ensures docs == []
    {
      docs := [];
    }

    /** `await Promise.all(handlers)`: the handlers' documents are saved
        as each settles, in element order, and also returned as the
        awaited array. */
    method SaveEach(entries: seq<Entry>) returns (ok: bool, calls: seq<Call>, saved: seq<Doc>)
      modifies this
      ensures var b := Settle(entries);
        ok == b.ok && calls == b.calls && saved == b.saved
      ensures docs == old(docs) + saved
    {
      ok, calls, saved := true, [], [];
      var i := 0;
      while i < |entries|
        invariant 0 <= i <= |entries|
        invariant var b := Settle(entries[..i]);
          ok == b.ok && calls == b.calls && saved == b.saved
        invariant docs == old(docs) + saved
      {
        var entry := entries[i];
        SettleStep(entries, i);
        calls := calls + entry.calls;
        if entry.doc.Ok? {
          docs := docs + [entry.doc.value];
          saved := saved + [entry.doc.value];
        } else {
          ok := false;
        }
        i := i + 1;
      }
      assert entries[..|entries|] == entries;
    }

    /** One category of the combined path. */
    method SaveStage(kind: Kind, parsed: Json, imageUrl: string, search: string -> Option<Json>) returns (b: Batch)
      modifies this
      ensures b == Stage(kind, parsed, imageUrl, search)
      ensures docs == old(docs) + b.saved
    {
      if !Truthy(parsed) {
        return Batch([], [], true);
      }
      if !parsed.JArr? {
        return Batch([], [], false);
      }
      var ok, calls, saved := SaveEach(Handled(kind, parsed.items, imageUrl, search));
      b := Batch(calls, saved, ok);
    }

    /** A single-category path from its analyzer call on. */
    method SinglePath(path: Path, reply: AnalyzerReply, title: Json, imageUrl: string, o: Oracles)
      returns (response: Response, calls: seq<Call>)
      modifies this
      ensures var r := Reply(path, reply, title, imageUrl, o);
        response == r.response && calls == r.calls && docs == old(docs) + r.saved
    {
      if reply.Threw? {
        return Respond(500, ErrorBody(AnalysisFailed)), [];
      }
      var result := ParseReply(reply.content, o.parse);
      if !result.JArr? {
        return Respond(500, ErrorBody(InvalidFormat)), [];
      }
      var ok, saved;
      ok, calls, saved := SaveEach(Handled(KindOf(path, title), result.items, imageUrl, o.search));
      if ok {
        response := Respond(200, Saved(path, saved, imageUrl));
      } else {
        response := Respond(500, ErrorBody(SaveError(path)));
      }
    }

    /** The building route: title resolution, then the building analyzer. */
    method BuildingScan(imageUrl: string, o: Oracles) returns (response: Response, calls: seq<Call>)
      modifies this
      ensures var r := BuildingRun(imageUrl, o);
        response == r.response && calls == r.calls && docs == old(docs) + r.saved
    {
      var result := ResolveTitle(o);
      calls := result.calls;
      if result.title.Err? {
        return Respond(500, ErrorBody(AnalysisFailed)), calls;
      }
      var buildingTitle := StoredTitle(result.title.value);
      calls := calls + [BuildingAnalyzer];
      var rest;
      response, rest := SinglePath(BuildingPath, o.building, buildingTitle, imageUrl, o);
      calls := calls + rest;
    }

    /** The combined path after all three analyzers replied: the tools
        first, and the other two stages only when the tools were saved. */
    method CombinedPath(toolResponse: Json, buildingResponse: Json, materialResponse: Json, imageUrl: string, o: Oracles)
      returns (response: Response, calls: seq<Call>)
      modifies this
      ensures var r := Combined(toolResponse, buildingResponse, materialResponse, imageUrl, o);
        response == r.response && calls == r.calls && docs == old(docs) + r.saved
    {
      var t := SaveStage(CardKind, toolResponse, imageUrl, o.search);
      if !t.ok {
        return Respond(500, ErrorBody(CombinedFailed)), t.calls;
      }
      ghost var before := old(docs);
      var rest;
      response, rest := BuildingsThenMaterials(t.saved, buildingResponse, materialResponse, imageUrl, o);
      ghost var r := StagesAfterTools(t.saved, Stage(BothBuildingKind, buildingResponse, imageUrl, o.search),
                                      Stage(BothMaterialKind, materialResponse, imageUrl, o.search), imageUrl);
      SavedInTurn(before, t.saved, r.saved);
      calls := t.calls + rest;
    }

    /** The building stage, then the material stage, after the tools. */
    method BuildingsThenMaterials(tools: seq<Doc>, buildingResponse: Json, materialResponse: Json, imageUrl: string, o: Oracles)
      returns (response: Response, calls: seq<Call>)
      modifies this
      ensures var r := StagesAfterTools(tools, Stage(BothBuildingKind, buildingResponse, imageUrl, o.search),
                                        Stage(BothMaterialKind, materialResponse, imageUrl, o.search), imageUrl);
        response == r.response && calls == r.calls && docs == old(docs) + r.saved
    {
      var b := SaveStage(BothBuildingKind, buildingResponse, imageUrl, o.search);
      if !b.ok {
        return Respond(500, ErrorBody(CombinedFailed)), b.calls;
      }
      ghost var before := old(docs);
      var m := SaveStage(BothMaterialKind, materialResponse, imageUrl, o.search);
      SavedInTurn(before, b.saved, m.saved);
      calls := b.calls + m.calls;
      if !m.ok {
        return Respond(500, ErrorBody(CombinedFailed)), calls;
      }
      response := Respond(200, BothBody(tools, b.saved, m.saved, imageUrl));
    }

    /** The "both" route: the three analyzers, then the combined path. */
    method BothScan(imageUrl: string, o: Oracles) returns (response: Response, calls: seq<Call>)
      modifies this
      ensures var r := BothRun(imageUrl, o);
        response == r.response && calls == r.calls && docs == old(docs) + r.saved
    {
      calls := [ToolAnalyzer, BuildingAnalyzer, MaterialAnalyzer];
      if o.tool.Threw? || o.building.Threw? || o.material.Threw? {
        return Respond(500, ErrorBody(CombinedFailed)), calls;
      }
      var toolResponse := CleanJson(o.tool.content.GetOr(""), o.parse);
      var buildingResponse := CleanJson(o.building.content.GetOr(""), o.parse);
      var materialResponse := CleanJson(o.material.content.GetOr(""), o.parse);
      var rest;
      response, rest := CombinedPath(toolResponse, buildingResponse, materialResponse, imageUrl, o);
      calls := calls + rest;
    }

    /** Everything after classification, by route. */
    method Dispatch(route: Route, imageUrl: string, o: Oracles) returns (response: Response, calls: seq<Call>)
      modifies this
      ensures var r := Routed(route, imageUrl, o);
        response == r.response && calls == r.calls && docs == old(docs) + r.saved
    {
      var rest;
      match route
      case BuildingRoute =>
        response, calls := BuildingScan(imageUrl, o);
      case ToolRoute =>
        response, rest := SinglePath(ToolPath, o.tool, JNull, imageUrl, o);
        calls := [ToolAnalyzer] + rest;
      case MaterialRoute =>
        response, rest := SinglePath(MaterialPath, o.material, JNull, imageUrl, o);
        calls := [MaterialAnalyzer] + rest;
      case BothRoute =>
        response, calls := BothScan(imageUrl, o);
      case NoneRoute =>
        response, calls := Respond(500, ErrorBody("Something went wrong")), [];
      case Unrouted =>
        response, calls := NoResponse, [];
    }

    /** scanImage: answers the request as Scan specifies, making its calls
        and appending its saved documents to the store. */
    method ScanImage(req: Request, o: Oracles) returns (response: Response, calls: seq<Call>)
      modifies this
      ensures response == Scan(req, o).response && calls == Scan(req, o).calls
      ensures docs == old(docs) + Scan(req, o).saved
    {
      calls := [];
      var image := req.image;
      if image.None? || !Truthy(image.value) {
        return Respond(400, ErrorBody("No image provided")), calls;
      }
      if !image.value.JStr? {
        return Respond(500, ErrorBody("Failed to save image")), calls;
      }
      var matches := Split(image.value.s);
      if matches.None? {
        return Respond(400, MessageBody("Invalid base64 image format")), calls;
      }
      var imageType := matches.value.0;
      var fileName := FileName(req.now, imageType);
      if !req.writeOk {
        return Respond(500, ErrorBody("Failed to save image")), calls;
      }
      var imageUrl := ImageUrl(req.protocol, req.host, fileName);
      assert Accepted(req) && imageUrl == UploadUrl(req);
      ScanAccepted(req, o);

      var route := RouteOf(Label(o.classifier));
      var rest;
      response, rest := Dispatch(route, imageUrl, o);
      calls := [Classifier] + rest;
    }
  }
}
