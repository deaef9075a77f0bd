# Construction-site image scanner: a Dafny model

This project models the core of a small Express/Mongoose backend, in Dafny 4.11. The backend accepts a
base64 image, has a vision language model label it `tool`, `material`, `building`, `both` or
`none`, and sends the image to the matching analyzer prompts. It extracts JSON from the analyzers'
free-text replies, enriches every extracted entity with SerpAPI web searches, and saves one
document per entity. The core also covers e-mail/password signup and login over a Mongoose user
schema with validators and a pre-save hook that hashes the password.

Every external service is a parameter fixed in advance: OpenAI chat completions, Google Lens,
SerpAPI, `JSON.parse`, bcrypt and `jwt.sign`. The `Oracles` and `Auth.Crypto` datatypes hold
these answers, so each handler becomes a deterministic function of its request. Alongside its
response, each handler yields the trace of external calls it made and the documents it saved.

Modules (one file each):

- `Wrappers`: `Option` and `Result`.
- `Json`: JSON values and JavaScript truthiness, `||`, `?.` and `Object.entries`.
- `Text`: white space, `trim()` and `toLowerCase()` (ASCII capitals and the Kelvin sign).
- `Extract`: `cleanJsonString`. It implements the three regular expressions as shape predicates, with leftmost and greedy match search.
- `DataUri`: the `data:` URI split, the file name and the image URL.
- `Classify`: the classifier label and its route.
- `Oracles`: the service answers and the call trace.
- `Title`: the Google Lens title, `cleanQuotes`, and title cleaning.
- `Enrich`: `searchSerpAPI`, link extraction and the query templates.
- `Records`: one document per extracted element.
- `Pipeline`: `scanImage` as a specification function, with `Promise.all` as an in-order settle.
- `ScanHandler`: `scanImage` as imperative code over a store of saved documents.
- `UserModel`: the user schema, its validators, its setters and its pre-save hook, as a class.
- `Auth`: signup and login, over a map from stored e-mail to account.

Where the code and the written description of the system differ, the model follows the code:

- The classifier's answer is only trimmed and lower-cased; nothing restricts it to the five labels. Any other answer, such as `"tool."`, matches no branch. `scanImage` then returns without ever responding (`Pipeline.UnknownLabel`).
- In the combined (`both`) path, a reply that extracts to `null` counts as an empty list. A reply that extracts to a truthy non-array makes the whole request fail with 500 (`Pipeline.CombinedToolShapes`).
- `cleanJsonString` does not fall through to the object pattern when the array match fails to parse. It returns `null` (`Extract.ArrayParseFailureIsNull`).
- A `none` label reaches the outer handler as a thrown error and is answered 500 "Something went wrong" (`Pipeline.NoneLabel`).

## Model

| member | source | states |
|---|---|---|
| Json.Or | controllers/scanController.js:538-567 | `a \|\| d` is `a` when `a` is present and truthy, and `d` otherwise |
| Json.Lookup | controllers/scanController.js:286 | a property is found iff some field carries that key, and the value found is that field's |
| Json.Prop | controllers/scanController.js:286 | optional chaining gives a value only on an object |
| Json.First | controllers/scanController.js:286 | `?.[0]` gives an array's first element (none for an empty array), an object's own property `"0"`, a string's first character, and nothing for any other value |
| Json.NatToString | controllers/scanController.js:477 | `Date.now()` in a template is a non-empty run of decimal digits with no leading zero |
| Json.NatToStringValue | controllers/scanController.js:477 | the digits written for `Date.now()` read back as exactly that number |
| Json.Entries | controllers/scanController.js:614-619 | `Object.entries` enumerates an object's fields; an array's items and a string's characters keyed by their decimal index; any other value has no entries |
| Json.LookupDistinct | controllers/scanController.js:286 | in an object with distinct keys, as `JSON.parse` builds them, reading a key gives the value bound to it |
| Json.Interpolate | controllers/scanController.js:671-674 | `${v}` inserts a string as it is, a number as its text and an array as its comma-joined elements |
| Json.JoinSnoc | controllers/scanController.js:671-674 | joining one more array element adds a comma and the element's text, nothing for null |
| Json.JoinNulls | controllers/scanController.js:671-674 | an array of n nulls interpolates as n - 1 commas |
| Text.SkipSpace | controllers/scanController.js:78-80 | skips exactly the leading run of white space |
| Text.SkipSpaceBack | controllers/scanController.js:78-80 | skips exactly the trailing run of white space |
| Text.TrimSpec | controllers/scanController.js:78-80 | `trim()` is a slice of its input, with no white space at either end |
| Text.TrimSplit | controllers/scanController.js:78-80 | a string is white space, then its trim, then white space |
| Text.TrimPadded | controllers/scanController.js:78-80 | trimming white-space padding around an unpadded string gives that string back |
| Text.TrimIdempotent | controllers/scanController.js:78-80 | trimming twice is trimming once |
| Text.LowerChar | controllers/scanController.js:78-80 | lower-casing keeps word characters word characters, makes a word character of nothing but the Kelvin sign, and leaves no capital and no Kelvin sign |
| Text.ToLower | controllers/scanController.js:78-80 | `toLowerCase()` keeps the length, maps each character and leaves no upper-case ASCII letter |
| Text.ToLowerFixed | controllers/scanController.js:78-80 | a string without upper-case letters or Kelvin signs is its own lower case |
| Text.LowerKeepsSpace | controllers/scanController.js:78-80 | lower-casing maps white space, and only white space, to white space |
| Text.LowerOfTrimmed | controllers/scanController.js:78-80 | lower-casing a trimmed string leaves it trimmed |
| Extract.ArrayMatchBounds | controllers/scanController.js:19 | a match of the array pattern starts with `[` and ends with `]` |
| Extract.OpenBrace | controllers/scanController.js:19 | `[` followed by optional white space and `{` is recognised exactly |
| Extract.CloseBracket | controllers/scanController.js:19 | `}` followed by optional white space and `]` is recognised exactly |
| Extract.ShapeDetermined | controllers/scanController.js:19 | in a match, the `{` after the `[` and the `]` after the closing `}` are the ones the scanners find |
| Extract.FirstNonSpace | controllers/scanController.js:19 | skipping white space stops at the first non-space character |
| Extract.LastClose | controllers/scanController.js:19 | finds the last `}\s*]` before a bound, or proves there is none |
| Extract.ArraySpanFrom | controllers/scanController.js:19-22 | the array pattern's match is leftmost and greedy, and None iff the pattern does not match |
| Extract.NoMatchWithout | controllers/scanController.js:19 | a start with no `[\s*{` or no later `}\s*]` matches nothing |
| Extract.GreedyEnd | controllers/scanController.js:19 | the match chosen at a start is the longest there |
| Extract.ObjectMatchBounds | controllers/scanController.js:25 | a match of the object pattern starts with `{` and ends with `}` |
| Extract.LastBrace | controllers/scanController.js:25 | finds the last `}` |
| Extract.FindQuoteColon | controllers/scanController.js:25 | finds a `"` followed by white space and `:`, with content before the final brace, or proves there is none |
| Extract.ObjectStartsAtSound | controllers/scanController.js:25 | a start accepted by the search does match, up to the last `}` |
| Extract.ObjectMatchComplete | controllers/scanController.js:25 | every match at a start is accepted by the search and ends no later than the last `}` |
| Extract.ObjectSpanFrom | controllers/scanController.js:24-28 | the object pattern's match is leftmost and greedy, and None iff the pattern does not match |
| Extract.FirstIndex | controllers/scanController.js:31-33 | finds the first character with a property, or proves there is none |
| Extract.TrimToBrackets | controllers/scanController.js:31-33 | the trimmed text is no longer than the input, and empty only for empty input |
| Extract.TrimStart | controllers/scanController.js:32 | the first replace keeps the input from its first `[` or `{`, or from 0 when it has none |
| Extract.TrimEnd | controllers/scanController.js:33 | the second replace cuts just after the first `]` or `}` at or after that start, or keeps to the end when there is none |
| Extract.FirstIndexSuffix | controllers/scanController.js:31-33 | searching the remaining text after the first replace finds the same character as searching the input from that point |
| Extract.TrimToBracketsSpec | controllers/scanController.js:31-33 | the fallback replaces give exactly the input from its first opening bracket through the first closing bracket after it (or to the end when there is none); the piece starts with a bracket when the input has one |
| Extract.CleanJson | controllers/scanController.js:16-41 | the result is the parse of the candidate text when that parse succeeds, and `null` when it fails |
| Extract.CandidateSpec | controllers/scanController.js:16-36 | the text handed to `JSON.parse` is a contiguous piece of the input, starts with a bracket whenever the input has one, and without an opening bracket is the input up to its first closing bracket |
| Extract.CandidateIsArrayMatch | controllers/scanController.js:19-22 | when the array pattern matches, the candidate is the leftmost, greedy array match |
| Extract.CandidateIsObjectMatch | controllers/scanController.js:24-28 | with no array match, the candidate is the leftmost, greedy object match |
| Extract.CandidateIsTrimmed | controllers/scanController.js:30-36 | with neither pattern matching, the candidate is the bracket-trimmed input |
| Extract.ArrayParseFailureIsNull | controllers/scanController.js:19-22 | an array match that fails to parse gives `null`, with no fallback to the object pattern |
| Extract.NoBracketsParsesWhole | controllers/scanController.js:30-40 | text without brackets is parsed whole, and gives `null` when that parse fails |
| DataUri.LastMarker | controllers/scanController.js:469 | finds the last `;base64,` before a bound, or proves there is none |
| DataUri.Split | controllers/scanController.js:469-475 | the split of `data:(.+);base64,(.+)` exists iff the pattern matches, and its media type is the longest possible (greedy) |
| DataUri.SplitsAreMarkers | controllers/scanController.js:469 | every split is at a `;base64,` after `data:`, with no line terminator anywhere |
| DataUri.ExtensionSpec | controllers/scanController.js:476 | the extension is absent iff the media type has no `/`; otherwise it is the slash-free text between the first and second `/`, shorter than the media type |
| DataUri.FirstSlash | controllers/scanController.js:476 | finds the first `/`, or proves there is none |
| DataUri.FileNameSpec | controllers/scanController.js:477-478 | the file name is `tool-scan-`, the time's digits, a dot and the extension (or `undefined`), and never contains `/` |
| DataUri.DottedName | controllers/scanController.js:477 | the pieces of a name built from a prefix, digits, a dot and an extension, and no `/` when no piece has one |
| DataUri.ImageUrlSpec | controllers/scanController.js:483 | the image URL starts with the protocol and `://`, and its last path segment is the stored file's name |
| DataUri.FileNameExamples | controllers/scanController.js:476-477 | `image/png` names `tool-scan-<now>.png`, and a media type without `/` names `tool-scan-<now>.undefined` |
| Classify.Label | controllers/scanController.js:78-84 | the label has no upper-case letter |
| Classify.RouteOf | controllers/scanController.js:497-505 | each route is taken iff the label is exactly its word |
| Classify.LabelOfAnswer | controllers/scanController.js:78-80 | an answer gives a lower-case word iff it is that word in any letter case, padded with white space |
| Classify.LabelIsPadded | controllers/scanController.js:78-80 | every answer is its label, in some letter case, padded with white space |
| Classify.PaddedIsLabel | controllers/scanController.js:78-80 | a padded lower-case word in any case labels as that word |
| Classify.LabelIdempotent | controllers/scanController.js:78-80 | labelling a label changes nothing |
| Classify.FailedClassificationIsTool | controllers/scanController.js:82-85 | a failed classifier call routes to the tool path |
| Classify.PaddedAnswerRoutes | controllers/scanController.js:78-80 | `" Building\n"` routes to the building path |
| Classify.PunctuatedAnswerIsUnrouted | controllers/scanController.js:497-505 | `"tool."` takes no route |
| Title.LensTitle | controllers/scanController.js:272-291 | the Lens title is `null` or truthy; when truthy it is the title of the first visual match (an array's first element or an object's property `"0"`); nothing is fetched without the key |
| Title.StripQuotes | controllers/scanController.js:328 | removes at most one character at each end |
| Title.StripBothQuotes | controllers/scanController.js:328 | a quoted word loses both quotes |
| Title.StripLeadingQuote | controllers/scanController.js:328 | a leading quote alone is removed |
| Title.StripTrailingQuote | controllers/scanController.js:328 | a trailing quote alone is removed |
| Title.StripUnquoted | controllers/scanController.js:328 | an unquoted string is unchanged |
| Title.CleanQuotes | controllers/scanController.js:324-330 | parsable text gives its parse; otherwise the text with one leading and one trailing quote removed, as a string |
| Title.CleanTitle | controllers/scanController.js:323-338 | the cleaner fails iff its call failed; otherwise it is `cleanQuotes` of the trimmed answer |
| Title.ResolveTitle | controllers/scanController.js:255-264 | Lens is called iff the key is set; the cleaner is called iff the Lens title is truthy; a falsy Lens title leaves the title unset; otherwise the title is cleanQuotes of the trimmed cleaner reply, and fails exactly when the cleaner fails |
| Title.StoredTitle | controllers/scanController.js:808 | the stored title is the cleaned title when truthy, and `""` otherwise |
| Title.NoKeyNoTitle | controllers/scanController.js:273-276 | without the key there is no call and the stored title is `""` |
| Title.UntitledMatchSkipsCleaner | controllers/scanController.js:262-264 | a Lens response without a truthy title skips the cleaner |
| Title.CleanerFailure | controllers/scanController.js:261-264 | a truthy Lens title with a failing cleaner call ends the title part with the cleaner's error after the Lens and cleaner calls |
| Title.QuotedAnswerIsUnquoted | controllers/scanController.js:323-331 | a quoted, unparsable cleaner answer is stored without its quotes |
| Enrich.SearchBody | controllers/scanController.js:738-762 | a failed search gives `null`; otherwise the response body |
| Enrich.MapLink | controllers/scanController.js:941-943 | `.map(item => item.link)` succeeds iff no item is `null`, and keeps each item's `link` in order |
| Enrich.FilterTruthy | controllers/scanController.js:943 | `.filter(url => url)` keeps exactly the truthy links |
| Enrich.FilterTruthyAppend | controllers/scanController.js:943 | filtering distributes over concatenation |
| Enrich.Links | controllers/scanController.js:941-959 | every extracted link is truthy; missing or falsy `organic_results` gives no links; truthy `organic_results` that is not an array throws |
| Enrich.FailedSearchHasNoLinks | controllers/scanController.js:755-761 | a failed search, or one without organic results, gives no links |
| Enrich.LinksOfResults | controllers/scanController.js:941-943 | organic results give links iff no result is `null`, and then they give the filtered `link`s |
| Enrich.LinksOfConcat | controllers/scanController.js:941-943 | the links of concatenated results are the concatenated links |
| Enrich.OneLink | controllers/scanController.js:941-943 | one result gives its `link` iff that link is truthy |
| Enrich.Queries | controllers/scanController.js:923-926 | four distinct queries, each extending the name |
| Enrich.ToolQueries | controllers/scanController.js:923-926 | the tool's four queries are distinct and start with the tool name |
| Enrich.MaterialQueries | controllers/scanController.js:671-674 | the material's four queries are distinct and start with the material name |
| Enrich.BuildingQuery | controllers/scanController.js:791 | the course query is the fixed prefix followed by the building type |
| Enrich.SearchName | controllers/scanController.js:669-674 | a missing or falsy name searches under the fallback name; a non-empty string or truthy number searches under its own text |
| Records.Text | controllers/scanController.js:538-547 | a text field is the property when it is present and truthy, and `""` otherwise |
| Records.List | controllers/scanController.js:548-550 | a list field is the property when it is present and truthy, and `[]` otherwise |
| Records.SearchCalls | controllers/scanController.js:933-938 | one search call per query, in query order |
| Records.CollectSpec | controllers/scanController.js:939-957 | extractions run in order succeed iff each does, and list i is extraction i's |
| Records.FacetsSpec | controllers/scanController.js:928-959 | the facets succeed iff every query's links do, and facet i is query i's links |
| Records.RelatedTools | controllers/scanController.js:532 | a missing `relatedTools` defaults to `[]`; a present one maps iff it is an array, and entry i is element i's related-tool record |
| Records.Definitions | controllers/scanController.js:614-619 | definition i is field i (term and value) of an object, or item i of an array with its decimal index as term; a missing or falsy property gives none |
| Records.NullElementRejected | controllers/scanController.js:532 | a `null` element never builds a document |
| Records.ToolEntrySpec | controllers/scanController.js:918-977 | a null tool makes no search; otherwise it makes the four searches under its name and is saved iff every link list extracts, with list i from query i |
| Records.UnnamedTool | controllers/scanController.js:920 | a tool without a truthy name is searched and saved as "Unnamed Tool" |
| Records.MaterialEntrySpec | controllers/scanController.js:667-724 | a material always makes its four searches, and is saved iff it is not null and every link list extracts |
| Records.BuildingEntrySpec | controllers/scanController.js:786-821 | a building makes one search, is saved iff it is not null and its links extract, and stores the given title |
| Records.CardEntrySpec | controllers/scanController.js:529-575 | a combined-path tool makes no search, and its card fails iff the tool is null or its `relatedTools` is present and not an array |
| Records.BothEntriesSpec | controllers/scanController.js:577-624 | a combined-path building or material makes no search and is saved iff it is not null |
| Pipeline.Settle | controllers/scanController.js:530-575 | `Promise.all` succeeds iff every handler does, and then it saves one document per handler |
| Pipeline.SettleInOrder | controllers/scanController.js:530-575 | on success the saved documents are the handlers' documents in element order |
| Pipeline.SaveAllSpec | controllers/scanController.js:917-979 | a batch is ok iff every element builds, and then it saves every element's document in order |
| Pipeline.SettleSavedFrom | controllers/scanController.js:785-823 | every saved document is some handler's document, even when a sibling fails |
| Pipeline.SettleStep | controllers/scanController.js:785-823 | settling one more handler appends its calls and its document |
| Pipeline.ParseReply | controllers/scanController.js:843 | a null content extracts to `null`; otherwise it is `cleanJsonString` of the content: the parse of its candidate, or `null` |
| Pipeline.Analyzed | controllers/scanController.js:839-986 | a reply that is not an array answers 500 "Invalid AI response format"; otherwise every element is handled, giving 200 with the saved documents or a 500 save error |
| Pipeline.Stage | controllers/scanController.js:529-575 | a falsy reply saves nothing, and a truthy non-array fails before any save |
| Pipeline.MissingImage | controllers/scanController.js:462-464 | a missing or falsy image answers 400 and calls nothing |
| Pipeline.MalformedDataUri | controllers/scanController.js:469-472 | a string that is not a base64 data URI answers 400 and calls nothing |
| Pipeline.NonStringImage | controllers/scanController.js:485-488 | a truthy non-string image throws in `match` and answers 500 "Failed to save image" |
| Pipeline.ClassifierFirst | controllers/scanController.js:494 | a rejected upload calls nothing; an accepted one calls the classifier first |
| Pipeline.NoneLabel | controllers/scanController.js:833-837 | `none` answers 500 "Something went wrong" after the classifier alone |
| Pipeline.UnknownLabel | controllers/scanController.js:497-505 | any other label sends no response |
| Pipeline.AnalyzersOnlyForFourLabels | controllers/scanController.js:497-512 | an analyzer runs only when the label is exactly `tool`, `material`, `building` or `both` |
| Pipeline.ClassifierOnly | controllers/scanController.js:833-837 | `none` and unknown labels call only the classifier |
| Pipeline.SinglePathNeedsArray | controllers/scanController.js:839-911 | a tool reply that is not an array answers "Invalid AI response format" and saves nothing |
| Pipeline.MaterialRouteSaves | controllers/scanController.js:664-734 | the material route saves every material's document in order, or answers the save error |
| Pipeline.ScanAccepted | controllers/scanController.js:490-506 | an accepted upload classifies, then follows the route of the label |
| Pipeline.BuildingBatchStoresTitle | controllers/scanController.js:785-823 | every document a building batch saves, even beside a failing element, has the image URL and the given title |
| Pipeline.BuildingDocsStoreTitle | controllers/scanController.js:804-821 | every saved building document has the image URL and the stored title |
| Pipeline.BuildingPathStoresTitle | controllers/scanController.js:497-500 | the building route stores the resolved title in every document |
| Pipeline.CleanerFailureStopsBuilding | controllers/scanController.js:335-338 | a failed title cleaning answers 500 "AI analysis failed" before the building analyzer runs |
| Pipeline.CleanerFailureRun | controllers/scanController.js:335-338 | the building route with a failed title cleaning answers 500 "AI analysis failed" after the Lens and cleaner calls only |
| Pipeline.CombinedAnalyzerFailure | controllers/scanController.js:506-512 | in the combined path, a failed analyzer answers 500 after all three were called |
| Pipeline.BothRunThrew | controllers/scanController.js:506-512 | a failed analyzer makes the combined route answer 500 after the three analyzer calls, saving nothing |
| Pipeline.CombinedRoute | controllers/scanController.js:505-636 | the combined path calls the three analyzers and saves tools, buildings, then materials from the extracted replies |
| Pipeline.BothRunReplied | controllers/scanController.js:506-527 | once the three analyzers replied, the combined route runs the combined path on their extracted replies, after the three calls |
| Pipeline.CombinedToolShapes | controllers/scanController.js:529-575 | a truthy non-array tool value fails before any save; a falsy one gives no tools |
| ScanHandler.ScanStore.constructor | controllers/scanController.js:5-8 | the store starts empty |
| ScanHandler.ScanStore.SaveEach | controllers/scanController.js:530-575 | the loop saves exactly what `Promise.all` settles, in order, and appends it to the store |
| ScanHandler.ScanStore.SaveStage | controllers/scanController.js:529-627 | one combined stage returns its batch and appends its documents |
| ScanHandler.ScanStore.SinglePath | controllers/scanController.js:649-986 | a single-category path answers, calls and saves what its specification says |
| ScanHandler.ScanStore.BuildingScan | controllers/scanController.js:497-500 | the building route matches its specification |
| ScanHandler.ScanStore.CombinedPath | controllers/scanController.js:528-642 | the three stages in order match the combined specification, and the store grows by what was saved |
| ScanHandler.ScanStore.BuildingsThenMaterials | controllers/scanController.js:577-636 | after the tools, the building stage and then the material stage match the combined specification, and the store grows by what they saved |
| ScanHandler.ScanStore.BothScan | controllers/scanController.js:505-643 | the `both` route matches its specification |
| ScanHandler.ScanStore.Dispatch | controllers/scanController.js:497-990 | dispatch on the label matches the routed specification |
| ScanHandler.ScanStore.ScanImage | controllers/scanController.js:458-991 | the response, the call trace and the appended documents are those of the `scanImage` specification |
| UserModel.WordIsDotted | models/userModel.js:12 | a word is a dotted name |
| UserModel.JoinDotted | models/userModel.js:12 | dotted names concatenate |
| UserModel.JoinDottedBy | models/userModel.js:12 | dotted names joined by one `.` or `-` are dotted |
| UserModel.DottedPrefix | models/userModel.js:12 | the part of a dotted name before a separator is dotted |
| UserModel.LastSep | models/userModel.js:12 | finds the last separator before a bound |
| UserModel.WordsAreDotted | models/userModel.js:12 | `\w+([\.-]?\w+)*` matches only dotted names |
| UserModel.DottedAreWords | models/userModel.js:12 | every dotted name matches `\w+([\.-]?\w+)*` |
| UserModel.TldsShape | models/userModel.js:12 | `(\.\w{2,})+` matches a dot, a dotted name, and a final segment of at least two word characters |
| UserModel.DomainOfParts | models/userModel.js:12 | a name followed by top-level segments is a domain |
| UserModel.PartsOfDomain | models/userModel.js:12 | a domain splits into a name and top-level segments |
| UserModel.EmailPatternShape | models/userModel.js:11-14 | the e-mail regular expression matches exactly the addresses of the stated shape |
| UserModel.PatternIsShape | models/userModel.js:12 | a match has the shape |
| UserModel.ShapeIsPattern | models/userModel.js:12 | the shape matches |
| UserModel.PatternFrom | models/userModel.js:12 | the parts around `@` make a match |
| UserModel.OneAt | models/userModel.js:12 | a matching address has exactly one `@` |
| UserModel.LowerKeepsShape | models/userModel.js:9-14 | lower-casing keeps a valid address valid; without a Kelvin sign it also makes no invalid address valid |
| UserModel.DottedLower | models/userModel.js:9-12 | lower-casing keeps dotted names dotted, and without a Kelvin sign makes no others dotted |
| UserModel.DomainLower | models/userModel.js:9-12 | lower-casing keeps domains domains, and without a Kelvin sign makes no others domains |
| UserModel.WordLower | models/userModel.js:9-12 | lower-casing keeps words words, and without a Kelvin sign makes no others words |
| UserModel.Utf16Length | models/userModel.js:25 | `value.length` counts UTF-16 units, between one and two per character |
| UserModel.NormalizeEmail | models/userModel.js:9-10 | the setters keep a given e-mail given |
| UserModel.EmailError | models/userModel.js:5-15 | no error iff the e-mail is given and valid; "Email is required" iff it is missing or empty; "Please enter a valid email address" iff it is non-empty and invalid |
| UserModel.PasswordError | models/userModel.js:16-42 | no error iff the password has at least 8 units, a letter and a digit; required, too short, no letter and no digit each exactly on its condition, in that order |
| UserModel.FirstError | models/userModel.js:4-43 | the e-mail's error comes first, then the password's; none iff both pass |
| UserModel.NormalizeIdempotent | models/userModel.js:9-10 | normalising twice is normalising once |
| UserModel.SettersCommute | models/userModel.js:9-10 | trimming and lower-casing commute, so the setter order does not matter |
| Text.LowerConcat | controllers/scanController.js:78-80 | lower-casing distributes over concatenation |
| Text.LowerAllSpace | controllers/scanController.js:78-80 | lower-cased white space is white space |
| UserModel.UserDocument.constructor | models/userModel.js:4-15 | a new document stores the normalised e-mail and marks a given password modified |
| UserModel.UserDocument.HashPassword | models/userModel.js:45-55 | only a modified password is hashed; a failing hash fails and changes nothing |
| UserModel.UserDocument.Save | models/userModel.js:45-55 | validation comes first and stops the save with its first message; then the hook; a stored document has no modified path |
| Auth.SignupOutcome | controllers/authController.js:7-27 | an existing e-mail and a validation error answer 400 and change nothing; a failed hash answers 500 "Server error" and changes nothing; 201 iff the e-mail is new, the input valid and the hash succeeds |
| Auth.LoginReply | controllers/authController.js:29-69 | the checks in order; a failed signing answers 500 "Server error"; a token iff the e-mail is valid and known, the password matches and signing succeeds, and then 200 "Welcome back!" |
| Auth.SignupAddsOne | controllers/authController.js:15-18 | a successful signup adds exactly one account, under the stored e-mail, with the new id and the hash |
| Auth.SignupKeepsKeyed | controllers/authController.js:7-27 | every account stays filed under its own valid e-mail |
| Auth.SignupOnce | controllers/authController.js:11-13 | a second signup with the same e-mail in any case or padding is refused and changes nothing |
| Auth.SignupThenLogin | controllers/authController.js:29-65 | with a sound hash, an unpadded e-mail without a Kelvin sign and the password just signed up with log in and get the new account's token |
| Auth.LoginHidesWhichFailed | controllers/authController.js:50-56 | an unknown e-mail and a wrong password get the same reply |
| Auth.KelvinSignupCannotLogin | controllers/authController.js:37-41 | an address typed with a Kelvin sign signs up with 201, and logging in with the same address and password answers 400 "Please enter a valid email address" |
| Auth.KelvinStored | models/userModel.js:9-10 | the setters store the Kelvin address as `ka@b.com` |
| Auth.KelvinInvalid | controllers/authController.js:37 | the Kelvin address, as typed, does not match the e-mail pattern |
| Auth.KaShape | models/userModel.js:11-14 | `ka@b.com` matches the e-mail pattern |
| Auth.DomainB | models/userModel.js:12 | `b.com` is a domain |
| Auth.SignupThenLoginNormalized | controllers/authController.js:29-65 | with a sound hash, every e-mail and password that signed up log in under a login that normalises the e-mail first |
| Auth.UserStore.constructor | controllers/authController.js:2 | the collection starts empty |
| Auth.UserStore.Signup | controllers/authController.js:7-27 | the method's reply and new collection are those of the signup specification |
| Auth.UserStore.Login | controllers/authController.js:29-69 | the method's reply is that of the login specification, and it changes nothing |

## Left out

- External services are parameters, not calls: OpenAI (classifier, the three analyzers, the title cleaner), Google Lens, SerpAPI, `JSON.parse`, bcrypt and `jwt.sign`. Prompts, models, timeouts and `max_tokens` are not modelled.
- Timing and order of concurrent work are not modelled. `Promise.all` is an in-order settle without cancellation: every handler whose document builds is saved, even when a sibling fails. Only the order of the saved documents and the call trace are modelled.
- SerpAPI is a function of the query: the same query always gets the same answer within one scan.
- `fs.writeFileSync` is a boolean outcome on the request. `Date.now()`, `req.protocol` and the `host` header are request fields.
- Mongoose saves of scan documents always succeed; database errors are not modelled. The model also leaves out casting to the schema's `String` and `[String]` types, strict mode, `_id` generation and the duplicate-key race behind the unique e-mail index.
- Signup takes the new account's id as a parameter. bcrypt's salt randomness is in the `hash` parameter.
- The `error: err.message` field of the 500 replies, and all `console` logging, are left out.
- The commented-out Apify block (controllers/scanController.js:848-906) is not modelled, since it never runs.
- Text.ToLower: `toLowerCase()` is modelled for the ASCII capitals and U+212A KELVIN SIGN, the one character outside ASCII whose lower case is an ASCII letter. Other characters are left as they are. A full mapping would change some of them (`É` to `é`, `İ` to two characters), but no outcome depends on it: such characters are no `\w`, never occur in a label, and keep an address invalid either way.
- Json.Entries: a string's entries are its Unicode characters, not its UTF-16 code units; the two differ only for characters outside the Basic Multilingual Plane. Json.First takes the first character in the same sense.
- Request bodies that are not JSON strings are left out. An `email` or `password` is either absent or a string, and the scan `image` is a `Json` value.
- Auth.SignupOutcome: a missing e-mail is looked up as `null`. Mongoose's query casting of `{ email: undefined }` is assumed to match no stored account.
- Auth.LoginReply: the lookup key is the trimmed, lower-cased e-mail, as Mongoose applies the schema's setters to query values. The regular expression is tested on the e-mail as given.
- UserModel.FirstError: the reported message assumes Mongoose validates paths in schema order (email, then password), and validators in declaration order within a path.

## Findings

| source | as written | input that shows it | evidently intended | confidence | as-written member | corrected member |
|---|---|---|---|---|---|---|
| controllers/authController.js:37 | login tests the e-mail pattern on the address as typed, while signup validates it after the schema's trim and lowercase setters | `"\u212Aa@b.com"` (Kelvin sign, then `a@b.com`) with a valid password: signup answers 201 and stores `ka@b.com`; login with the same address and password answers 400 "Please enter a valid email address" | an address that signed up can log in as typed, so login checks the address in the form the schema stores it | medium, not executed | Auth.KelvinSignupCannotLogin | Auth.SignupThenLoginNormalized |
