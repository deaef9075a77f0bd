/** classifyImageType's normalisation of the model's answer and the label
    dispatch of the scan handler. */
module Classify {
  import opened Wrappers
  import opened Text

  /** The label of an image: the model's text trimmed and lower-cased; any
      failure of the call (including a reply without text) gives "tool".
      The result is not checked against the five labels of the prompt. */
  function Label(reply: Option<string>): (r: string)
    ensures forall k :: 0 <= k < |r| ==> !('A' <= r[k] <= 'Z')
  {
    match reply
    case None => "tool"
    case Some(text) => ToLower(Trim(text))
  }

  /** The branches of the scan handler: only these four exact labels start
      an analysis; "none" is rejected; anything else gets no response. */
  datatype Route = ToolRoute | MaterialRoute | BuildingRoute | BothRoute | NoneRoute | Unrouted

  function RouteOf(name: string): (r: Route)
    ensures r == ToolRoute <==> name == "tool"
    ensures r == MaterialRoute <==> name == "material"
    ensures r == BuildingRoute <==> name == "building"
    ensures r == BothRoute <==> name == "both"
    ensures r == NoneRoute <==> name == "none"
  {
    if name == "building" then BuildingRoute
    else if name == "tool" then ToolRoute
    else if name == "material" then MaterialRoute
    else if name == "both" then BothRoute
    else if name == "none" then NoneRoute
    else Unrouted
  }

  /** A word made of lower-case letters is the label of exactly the answers
      that spell it, in any ASCII letter case, between white space. */
  lemma LabelOfAnswer(text: string, word: string)
    requires word != [] && forall k :: 0 <= k < |word| ==> 'a' <= word[k] <= 'z'
    ensures Label(Some(text)) == word <==> Padded(text, word)
  {
    if Label(Some(text)) == word {
      LabelIsPadded(text);
    }
    if Padded(text, word) {
      PaddedIsLabel(text, word);
    }
  }

  /** text is the word, in any ASCII letter case, between white space. */
  ghost predicate Padded(text: string, word: string) {
    exists a, x, b :: text == a + x + b && AllSpace(a) && AllSpace(b) && ToLower(x) == word
  }

  lemma LabelIsPadded(text: string)
    ensures Padded(text, Label(Some(text)))
  {
    var a, b := TrimSplit(text);
    assert text == a + Trim(text) + b && ToLower(Trim(text)) == Label(Some(text));
  }

  lemma PaddedIsLabel(text: string, word: string)
    requires word != [] && forall k :: 0 <= k < |word| ==> 'a' <= word[k] <= 'z'
    requires Padded(text, word)
    ensures Label(Some(text)) == word
  {
    var a, x, b :| text == a + x + b && AllSpace(a) && AllSpace(b) && ToLower(x) == word;
    LetterEnds(word);
    assert |x| == |word|;
    LowerKeepsSpace(x[0]);
    LowerKeepsSpace(x[|x| - 1]);
    TrimPadded(a, x, b);
    assert Trim(text) == x;
  }

  /** A word of lower-case letters neither starts nor ends with white space. */
  lemma LetterEnds(word: string)
    requires word != [] && forall k :: 0 <= k < |word| ==> 'a' <= word[k] <= 'z'
    ensures !IsSpace(word[0]) && !IsSpace(word[|word| - 1])
  {
    var first, last := word[0], word[|word| - 1];
    assert 'a' <= first <= 'z' && 'a' <= last <= 'z';
  }

  /** Normalising an already normalised label changes nothing. */
  lemma LabelIdempotent(reply: Option<string>)
    ensures Label(Some(Label(reply))) == Label(reply)
  {
    match reply
    case None =>
      TrimPadded([], "tool", []);
      assert [] + "tool" + [] == "tool";
      assert ToLower("tool") == "tool";
    case Some(text) =>
      var t := Trim(text);
      TrimSpec(text);
      LowerOfTrimmed(t);
      ToLowerFixed(ToLower(t));
  }

  /** A failed classification is routed as a tool. */
  lemma FailedClassificationIsTool()
    ensures RouteOf(Label(None)) == ToolRoute
  {
  }

  /** Surrounding white space and letter case do not change the route. */
  lemma PaddedAnswerRoutes()
    ensures RouteOf(Label(Some(" Building\n"))) == BuildingRoute
  {
    TrimBuilding();
    LowerBuilding();
  }

  lemma TrimBuilding()
    ensures Trim(" Building\n") == "Building"
  {
    assert " " + "Building" + "\n" == " Building\n";
    TrimPadded(" ", "Building", "\n");
  }

  lemma LowerBuilding()
    ensures ToLower("Building") == "building"
  {
    assert "Building" == "B" + "uilding" + [];
    LowerConcat("B", "uilding", []);
    ToLowerFixed("uilding");
    assert ToLower("B") == "b" && ToLower([]) == [];
    assert "b" + "uilding" + [] == "building";
  }

  /** Punctuation around the word leaves the image without a route. */
  lemma PunctuatedAnswerIsUnrouted()
    ensures RouteOf(Label(Some("tool."))) == Unrouted
  {
    TrimTool();
    ToLowerFixed("tool.");
  }

  lemma TrimTool()
    ensures Trim("tool.") == "tool."
  {
    assert [] + "tool." + [] == "tool.";
    TrimPadded([], "tool.", []);
  }
}
