/**
 * The lean system: levels scored from -2 to 2 on an axis, axes with a
 * default level from 1 to 5, generation requests at a level from 1 to 5,
 * the generated component and response, and `MockContentService`, the
 * development stand-in that renders fixed HTML at the requested level.
 */
module Lean {
  import opened Wrappers
  import opened Text

  // ----- models and their validation -----

  /** `LeanLevel`; `score` is validated to lie in [-2, 2]. */
  datatype LeanLevel = LeanLevel(score: int, name: string, description: string, icon: Option<string>)

  /** `LeanAxis`; `levels` is the named-level dictionary in insertion order. */
  datatype LeanAxis = LeanAxis(axisName: string, axisLabel: string, axisIcon: string, defaultLevel: int, levels: seq<(string, LeanLevel)>)

  datatype ComponentType =
    | ArticleContent | DataVisualization | InteractiveDemo | ComparisonTable
    | TimelineWidget | QuizComponent | CodeExample | ConceptMap

  /** The enum's value. */
  function Value(ct: ComponentType): string {
    match ct
    case ArticleContent => "article-content"
    case DataVisualization => "data-visualization"
    case InteractiveDemo => "interactive-demo"
    case ComparisonTable => "comparison-table"
    case TimelineWidget => "timeline-widget"
    case QuizComponent => "quiz-component"
    case CodeExample => "code-example"
    case ConceptMap => "concept-map"
  }

  /** How an f-string prints a member of this `str`-mixed enum: class and member name. */
  function Display(ct: ComponentType): string {
    "ComponentType." +
    match ct
    case ArticleContent => "ARTICLE_CONTENT"
    case DataVisualization => "DATA_VISUALIZATION"
    case InteractiveDemo => "INTERACTIVE_DEMO"
    case ComparisonTable => "COMPARISON_TABLE"
    case TimelineWidget => "TIMELINE_WIDGET"
    case QuizComponent => "QUIZ_COMPONENT"
    case CodeExample => "CODE_EXAMPLE"
    case ConceptMap => "CONCEPT_MAP"
  }

  /** The fields of `GenerationRequest` the services read; `context` as its key/value pairs. */
  datatype GenerationRequest = GenerationRequest(
    articleId: string,
    componentType: ComponentType,
    leanLevel: int,
    leanAxes: seq<LeanAxis>,
    topic: string,
    context: seq<(string, string)>,
    maxLength: Option<int>,
    includeSources: bool,
    interactiveFeatures: bool)

  /** `component_data`; the mock leaves out the article id. */
  datatype ComponentData = ComponentData(leanLevel: int, zScore: int, axis: string, articleId: Option<string>)

  datatype GeneratedComponent = GeneratedComponent(
    componentType: ComponentType,
    componentTag: string,
    htmlContent: string,
    componentData: ComponentData,
    leanLevelUsed: int,
    estimatedReadTime: Option<int>,
    sources: seq<string>,
    aiModelInfo: Option<string>)

  /** `article_metadata` of a successful AI response. */
  datatype ArticleMetadata = ArticleMetadata(modelUsed: string, usageStats: seq<(string, string)>, providerMetadata: seq<(string, string)>)

  datatype GenerationResponse = GenerationResponse(
    success: bool,
    components: seq<GeneratedComponent>,
    articleMetadata: Option<ArticleMetadata>,
    leanAxesUsed: seq<LeanAxis>,
    errors: seq<string>,
    generationTimeMs: Option<int>)

  predicate ValidLevel(l: LeanLevel) {
    -2 <= l.score <= 2
  }

  predicate ValidAxis(a: LeanAxis) {
    && 1 <= a.defaultLevel <= 5
    && (forall i :: 0 <= i < |a.levels| ==> ValidLevel(a.levels[i].1))
  }

  predicate ValidRequest(r: GenerationRequest) {
    1 <= r.leanLevel <= 5
  }

  const ValidationFailed := "validation error"

  /** Constructing a `LeanLevel`: the score bound is checked. */
  function NewLeanLevel(score: int, name: string, description: string, icon: Option<string>): (r: Result<LeanLevel>)
    ensures r.Ok? <==> -2 <= score <= 2
    ensures r.Ok? ==> ValidLevel(r.value) && r.value == LeanLevel(score, name, description, icon)
  {
    if -2 <= score <= 2 then Ok(LeanLevel(score, name, description, icon)) else Err(ValidationFailed)
  }

  /** Constructing a `LeanAxis` from validated levels: the default level bound is checked. */
  function NewLeanAxis(axisName: string, axisLabel: string, axisIcon: string, defaultLevel: int, levels: seq<(string, LeanLevel)>): (r: Result<LeanAxis>)
    requires forall i :: 0 <= i < |levels| ==> ValidLevel(levels[i].1)
    ensures r.Ok? <==> 1 <= defaultLevel <= 5
    ensures r.Ok? ==> ValidAxis(r.value) && r.value == LeanAxis(axisName, axisLabel, axisIcon, defaultLevel, levels)
  {
    if 1 <= defaultLevel <= 5 then Ok(LeanAxis(axisName, axisLabel, axisIcon, defaultLevel, levels)) else Err(ValidationFailed)
  }

  /** Constructing a `GenerationRequest`: the lean level bound is checked. */
  function NewRequest(articleId: string, componentType: ComponentType, leanLevel: int, leanAxes: seq<LeanAxis>, topic: string, maxLength: Option<int>): (r: Result<GenerationRequest>)
    ensures r.Ok? <==> 1 <= leanLevel <= 5
    ensures r.Ok? ==> ValidRequest(r.value) && r.value == GenerationRequest(articleId, componentType, leanLevel, leanAxes, topic, [], maxLength, true, true)
  {
    if 1 <= leanLevel <= 5 then Ok(GenerationRequest(articleId, componentType, leanLevel, leanAxes, topic, [], maxLength, true, true))
    else Err(ValidationFailed)
  }

  // ----- level lookup, shared with the AI content service -----

  const LevelNames: seq<string> := ["basic", "intermediate", "advanced", "expert", "master"]

  /** The message of the `IndexError` raised by an out-of-range list index. */
  const IndexErrorMessage := "list index out of range"

  /** `key in levels` / `levels[key]` on the dictionary. */
  function Lookup(levels: seq<(string, LeanLevel)>, key: string): (r: Option<LeanLevel>)
    ensures r.Some? <==> exists i :: 0 <= i < |levels| && levels[i].0 == key
  {
    if levels == [] then None
    else if levels[0].0 == key then Some(levels[0].1)
    else
      var r := Lookup(levels[1..], key);
      assert forall i :: 1 <= i < |levels| ==> levels[i] == levels[1..][i - 1];
      r
  }

  /** `list(levels.values())`. */
  function Values(levels: seq<(string, LeanLevel)>): (r: seq<LeanLevel>)
    ensures |r| == |levels|
  {
    seq(|levels|, i requires 0 <= i < |levels| => levels[i].1)
  }

  /** The z-score of a level number: 1..5 becomes -2..2. */
  function ZScore(leanLevel: int): int {
    leanLevel - 3
  }

  /**
   * The level shown for `lean_level`: the value of the named key for that
   * level if the axis has it, else the level at that position if there
   * are enough, else the first; None where the lookup raises (no levels).
   */
  function LevelFor(axis: LeanAxis, leanLevel: int): Option<LeanLevel>
    requires 1 <= leanLevel <= 5
  {
    match Lookup(axis.levels, LevelNames[leanLevel - 1])
    case Some(level) => Some(level)
    case None =>
      var values := Values(axis.levels);
      if |values| >= leanLevel then Some(values[leanLevel - 1])
      else if values != [] then Some(values[0])
      else None
  }

  /** The three branches of the lookup, and that it fails exactly on an axis without levels. */
  lemma LevelForCases(axis: LeanAxis, leanLevel: int)
    requires 1 <= leanLevel <= 5
    ensures Lookup(axis.levels, LevelNames[leanLevel - 1]).Some? ==>
              LevelFor(axis, leanLevel) == Lookup(axis.levels, LevelNames[leanLevel - 1])
    ensures Lookup(axis.levels, LevelNames[leanLevel - 1]).None? && |axis.levels| >= leanLevel ==>
              LevelFor(axis, leanLevel) == Some(axis.levels[leanLevel - 1].1)
    ensures Lookup(axis.levels, LevelNames[leanLevel - 1]).None? && 0 < |axis.levels| < leanLevel ==>
              LevelFor(axis, leanLevel) == Some(axis.levels[0].1)
    ensures LevelFor(axis, leanLevel).None? <==> axis.levels == []
  {
  }

  /** On a validated axis the chosen level is validated too, so its score lies in [-2, 2]. */
  lemma LevelForValid(axis: LeanAxis, leanLevel: int)
    requires 1 <= leanLevel <= 5 && ValidAxis(axis) && axis.levels != []
    ensures LevelFor(axis, leanLevel).Some? && ValidLevel(LevelFor(axis, leanLevel).value)
  {
    var key := LevelNames[leanLevel - 1];
    LookupIn(axis.levels, key);
  }

  lemma {:induction false} LookupIn(levels: seq<(string, LeanLevel)>, key: string)
    ensures Lookup(levels, key).Some? ==> exists i :: 0 <= i < |levels| && levels[i] == (key, Lookup(levels, key).value)
  {
    if levels != [] && levels[0].0 != key {
      LookupIn(levels[1..], key);
      if Lookup(levels, key).Some? {
        var i :| 0 <= i < |levels[1..]| && levels[1..][i] == (key, Lookup(levels, key).value);
        assert levels[i + 1] == (key, Lookup(levels, key).value);
      }
    }
  }

  const Underscore := "_"
  const Hyphen := "-"

  /** The tag: the value with `_` replaced by `-`, which leaves every value unchanged. */
  function ComponentTag(ct: ComponentType): string {
    ReplaceAll(Value(ct), Underscore, Hyphen)
  }

  lemma ComponentTagIsValue(ct: ComponentType)
    ensures ComponentTag(ct) == Value(ct)
  {
    assert '_' !in Value(ct);
    ReplaceAbsentChar(Value(ct), '_', Hyphen);
  }

  // ----- the sample axes -----

  const JuniorSenior := LeanAxis("junior-senior", "Experience Level", "\U{1F4BC}", 3, [
    ("intern", LeanLevel(-2, "Intern", "New to field, needs fundamentals", Some("\U{1F393}"))),
    ("junior", LeanLevel(-1, "Junior", "Basic understanding, learning", Some("\U{1F468}\U{200D}\U{1F4BB}"))),
    ("professional", LeanLevel(0, "Professional", "Solid foundation, practical focus", Some("\U{1F4BC}"))),
    ("senior", LeanLevel(1, "Senior", "Deep expertise, strategic thinking", Some("\U{1F3AF}"))),
    ("executive", LeanLevel(2, "Executive", "Leadership perspective, big picture", Some("\U{1F454}")))])

  const LiberalConservative := LeanAxis("liberal-conservative", "Political Perspective", "\U{1F3DB}\U{FE0F}", 3, [
    ("progressive", LeanLevel(-2, "Progressive", "Strong government role, social change", Some("\U{1F30A}"))),
    ("liberal", LeanLevel(-1, "Liberal", "Government solutions, regulated markets", Some("\U{1F535}"))),
    ("centrist", LeanLevel(0, "Centrist", "Balanced approach, pragmatic solutions", Some("\U{2696}\U{FE0F}"))),
    ("conservative", LeanLevel(1, "Conservative", "Traditional values, limited government", Some("\U{1F534}"))),
    ("libertarian", LeanLevel(2, "Libertarian", "Minimal government, maximum freedom", Some("\U{1F5FD}")))])

  const BasicExpert := LeanAxis("basic-expert", "Complexity Level", "\U{1F3AF}", 3, [
    ("basic", LeanLevel(-2, "Basic", "Simple explanations, fundamental concepts", Some("\U{1F4DA}"))),
    ("intermediate", LeanLevel(-1, "Intermediate", "Some background assumed, practical focus", Some("\U{1F4D6}"))),
    ("advanced", LeanLevel(0, "Advanced", "Professional level, technical depth", Some("\U{1F52C}"))),
    ("expert", LeanLevel(1, "Expert", "Specialized knowledge, detailed analysis", Some("\U{1F393}"))),
    ("master", LeanLevel(2, "Master", "Cutting-edge research, theoretical frameworks", Some("\U{1F3C6}")))])

  /** The sample axes are well-formed: default 3 and five levels scored -2..2 in order. */
  predicate WellFormedAxis(a: LeanAxis) {
    && ValidAxis(a)
    && a.defaultLevel == 3
    && |a.levels| == 5
    && (forall i :: 0 <= i < 5 ==> a.levels[i].1.score == i - 2)
  }

  lemma SampleAxesWellFormed()
    ensures WellFormedAxis(JuniorSenior) && WellFormedAxis(LiberalConservative) && WellFormedAxis(BasicExpert)
  {
  }

  /** No key of the axis is one of the level names the lookup tries. */
  predicate NoNamedKeys(a: LeanAxis) {
    forall i :: 0 <= i < |a.levels| ==> a.levels[i].0 !in LevelNames
  }

  lemma ExperienceAndPoliticsUnnamed()
    ensures NoNamedKeys(JuniorSenior) && NoNamedKeys(LiberalConservative)
  {
  }

  lemma ComplexityNamed(i: nat)
    requires i < 5
    ensures BasicExpert.levels[i].0 == LevelNames[i]
  {
  }

  /** The lookup on an axis without named keys is positional. */
  lemma PositionalLevel(axis: LeanAxis, leanLevel: int)
    requires NoNamedKeys(axis) && |axis.levels| == 5 && 1 <= leanLevel <= 5
    ensures LevelFor(axis, leanLevel) == Some(axis.levels[leanLevel - 1].1)
  {
    assert LevelNames[leanLevel - 1] in LevelNames;
  }

  /**
   * On each sample axis the level chosen for every lean level has the
   * score of that lean level's z-score: the complexity axis by its named
   * keys, the other two by position.
   */
  lemma SampleLevelsMatchZScore(axis: LeanAxis, leanLevel: int)
    requires axis == JuniorSenior || axis == LiberalConservative || axis == BasicExpert
    requires 1 <= leanLevel <= 5
    ensures WellFormedAxis(axis)
    ensures LevelFor(axis, leanLevel).Some? && LevelFor(axis, leanLevel).value.score == ZScore(leanLevel)
    ensures LevelFor(axis, leanLevel).value == axis.levels[leanLevel - 1].1
  {
    SampleAxesWellFormed();
    if axis == BasicExpert {
      ComplexityNamed(leanLevel - 1);
      forall j | 0 <= j < leanLevel - 1 ensures axis.levels[j].0 != LevelNames[leanLevel - 1] {
        ComplexityNamed(j);
      }
      LookupFirst(axis.levels, leanLevel - 1, LevelNames[leanLevel - 1]);
    } else {
      ExperienceAndPoliticsUnnamed();
      PositionalLevel(axis, leanLevel);
    }
  }

  /** A key found at index `i` and nowhere before is looked up there. */
  lemma {:induction false} LookupFirst(levels: seq<(string, LeanLevel)>, i: nat, key: string)
    requires i < |levels| && levels[i].0 == key
    requires forall j :: 0 <= j < i ==> levels[j].0 != key
    ensures Lookup(levels, key) == Some(levels[i].1)
  {
    if i > 0 {
      LookupFirst(levels[1..], i - 1, key);
    }
  }

  // ----- MockContentService -----

  /** The mock's sample axes, experience first. */
  function MockAxes(): seq<LeanAxis> {
    [JuniorSenior, LiberalConservative, BasicExpert]
  }

  function ArticleHtml(req: GenerationRequest, level: LeanLevel, z: int, axis: LeanAxis): string {
    "\n        <article-content \n" + ArticleBody(req, level, z, axis)
  }

  function ArticleBody(req: GenerationRequest, level: LeanLevel, z: int, axis: LeanAxis): string {
    "            data-lean-level=\""
    + IntToString(req.leanLevel)
    + "\"\n"
    + "            data-z-score=\""
    + IntToString(z)
    + "\"\n"
    + "            data-axis=\""
    + axis.axisName
    + "\">\n"
    + "            \n"
    + "            <div class=\"content-header\">\n"
    + "                <h2>"
    + req.topic
    + "</h2>\n"
    + "                <span class=\"lean-indicator\">\n"
    + "                    "
    + axis.axisIcon
    + " "
    + level.name
    + "\n"
    + "                </span>\n"
    + "            </div>\n"
    + "            \n"
    + "            <div class=\"content-body\">\n"
    + "                <p>Content adapted for <strong>"
    + level.name
    + "</strong> perspective:</p>\n"
    + "                <p>"
    + level.description
    + "</p>\n"
    + "                \n"
    + "                <!-- Mock content that would come from AI -->\n"
    + "                <div class=\"generated-content\">\n"
    + "                    <p>This is where the AI-generated content would appear, \n"
    + "                    tailored to the "
    + level.name
    + " level with a z-score of "
    + IntToString(z)
    + ".</p>\n"
    + "                </div>\n"
    + "            </div>\n"
    + "            \n"
    + "            <div class=\"content-footer\">\n"
    + "                <small>Generated at "
    + level.name
    + " level</small>\n"
    + "            </div>\n"
    + "        </article-content>\n"
    + "        "
  }

  function DataVizHtml(req: GenerationRequest, level: LeanLevel): string {
    "\n        <data-visualization \n" + DataVizBody(req, level)
  }

  function DataVizBody(req: GenerationRequest, level: LeanLevel): string {
    "            data-complexity=\""
    + IntToString(req.leanLevel)
    + "\"\n"
    + "            data-type=\"chart\">\n"
    + "            \n"
    + "            <div class=\"viz-header\">\n"
    + "                <h3>Data Visualization - "
    + level.name
    + "</h3>\n"
    + "            </div>\n"
    + "            \n"
    + "            <div class=\"viz-container\">\n"
    + "                <!-- Visualization complexity varies by level -->\n"
    + "                <canvas id=\"chart-"
    + req.articleId
    + "\" width=\"400\" height=\"200\"></canvas>\n"
    + "            </div>\n"
    + "            \n"
    + "            <div class=\"viz-controls\">\n"
    + "                <button onclick=\"updateChart("
    + IntToString(req.leanLevel)
    + ")\">Update View</button>\n"
    + "            </div>\n"
    + "        </data-visualization>\n"
    + "        "
  }

  /** The mock's HTML: by component type, with a generic block for the six other types. */
  function MockHtml(req: GenerationRequest, level: LeanLevel, axis: LeanAxis): string {
    if req.componentType == ArticleContent then ArticleHtml(req, level, ZScore(req.leanLevel), axis)
    else if req.componentType == DataVisualization then DataVizHtml(req, level)
    else "<div>Mock " + Display(req.componentType) + " at level " + level.name + "</div>"
  }

  /** The one component the mock builds around its HTML block. */
  function MockComponent(req: GenerationRequest, html: string, axis: LeanAxis): GeneratedComponent {
    GeneratedComponent(
      req.componentType, ComponentTag(req.componentType), html,
      ComponentData(req.leanLevel, ZScore(req.leanLevel), axis.axisName, None),
      req.leanLevel, Some(3 + req.leanLevel), [], None)
  }

  /** `MockContentService.generate_content`; an Err is the `IndexError` of an empty axis list or level table. */
  function MockGenerate(req: GenerationRequest): Result<GenerationResponse>
    requires ValidRequest(req)
  {
    if req.leanAxes == [] then Err(IndexErrorMessage)
    else
      var axis := req.leanAxes[0];
      match LevelFor(axis, req.leanLevel)
      case None => Err(IndexErrorMessage)
      case Some(level) =>
        var component := MockComponent(req, MockHtml(req, level, axis), axis);
        Ok(GenerationResponse(true, [component], None, req.leanAxes, [], Some(150)))
  }

  /**
   * The mock's component is at the requested level with a z-score in
   * [-2, 2], the enum value as its tag, the axis that was used and a read
   * time of 3 + level, which lies in [4, 8].
   */
  lemma MockComponentShape(req: GenerationRequest, html: string, axis: LeanAxis)
    requires ValidRequest(req)
    ensures MockComponent(req, html, axis).componentType == req.componentType
    ensures MockComponent(req, html, axis).htmlContent == html
    ensures MockComponent(req, html, axis).leanLevelUsed == req.leanLevel
    ensures MockComponent(req, html, axis).componentData.axis == axis.axisName
  {
  }

  /** The z-score is the level less three, in [-2, 2]; the read time is 3 + level, in [4, 8]. */
  lemma MockComponentScores(req: GenerationRequest, html: string, axis: LeanAxis)
    requires ValidRequest(req)
    ensures MockComponent(req, html, axis).componentData.zScore == req.leanLevel - 3
    ensures -2 <= MockComponent(req, html, axis).componentData.zScore <= 2
    ensures MockComponent(req, html, axis).estimatedReadTime == Some(3 + req.leanLevel)
    ensures 4 <= MockComponent(req, html, axis).estimatedReadTime.value <= 8
  {
  }

  /** The mock's component carries the enum value of the requested type as its tag. */
  lemma MockComponentTag(req: GenerationRequest, html: string, axis: LeanAxis)
    ensures MockComponent(req, html, axis).componentTag == Value(req.componentType)
  {
    ComponentTagIsValue(req.componentType);
  }

  /**
   * The mock raises only on an empty axis list or an empty level table;
   * otherwise it succeeds with exactly one component, built on the first
   * axis at the level the lookup picks, no errors, the request's axes and
   * 150 ms.
   */
  lemma MockOutcome(req: GenerationRequest)
    requires ValidRequest(req)
    ensures MockGenerate(req).Err? <==> req.leanAxes == [] || req.leanAxes[0].levels == []
    ensures MockGenerate(req).Ok? ==>
              var resp := MockGenerate(req).value;
              && resp.success && resp.errors == []
              && resp.components == [MockComponent(req, MockHtml(req, LevelFor(req.leanAxes[0], req.leanLevel).value, req.leanAxes[0]), req.leanAxes[0])]
              && resp.leanAxesUsed == req.leanAxes
              && resp.generationTimeMs == Some(150)
  {
    if req.leanAxes != [] {
      LevelForCases(req.leanAxes[0], req.leanLevel);
    }
  }

  lemma StartsWithAppend(a: string, b: string)
    ensures StartsWith(a + b, a)
  {
    assert (a + b)[..|a|] == a;
  }

  lemma ArticleOpens(req: GenerationRequest, level: LeanLevel, z: int, axis: LeanAxis)
    ensures StartsWith(ArticleHtml(req, level, z, axis), "\n        <article-content \n")
  {
    StartsWithAppend("\n        <article-content \n", ArticleBody(req, level, z, axis));
  }

  lemma DataVizOpens(req: GenerationRequest, level: LeanLevel)
    ensures StartsWith(DataVizHtml(req, level), "\n        <data-visualization \n")
  {
    StartsWithAppend("\n        <data-visualization \n", DataVizBody(req, level));
  }

  /** The article block opens with its own tag. */
  lemma MockHtmlArticle(req: GenerationRequest, level: LeanLevel, axis: LeanAxis)
    requires req.componentType == ArticleContent
    ensures StartsWith(MockHtml(req, level, axis), "\n        <article-content \n")
  {
    ArticleOpens(req, level, ZScore(req.leanLevel), axis);
  }

  /** The chart block opens with its own tag. */
  lemma MockHtmlChart(req: GenerationRequest, level: LeanLevel, axis: LeanAxis)
    requires req.componentType == DataVisualization
    ensures StartsWith(MockHtml(req, level, axis), "\n        <data-visualization \n")
  {
    DataVizOpens(req, level);
  }

  /** The six other types get the generic block naming the type and the level. */
  lemma MockHtmlOther(req: GenerationRequest, level: LeanLevel, axis: LeanAxis)
    requires req.componentType != ArticleContent && req.componentType != DataVisualization
    ensures MockHtml(req, level, axis) == "<div>Mock " + Display(req.componentType) + " at level " + level.name + "</div>"
  {
  }

  /** `preview_at_level`: an article request on the first sample axis; an Err is the request's validation error. */
  function MockPreview(articleId: string, level: int): Result<string> {
    match NewRequest(articleId, ArticleContent, level, [MockAxes()[0]], "Preview Content", None)
    case Err(e) => Err(e)
    case Ok(req) =>
      match MockGenerate(req)
      case Err(e) => Err(e)
      case Ok(resp) =>
        if resp.success && resp.components != [] then Ok(resp.components[0].htmlContent)
        else Ok("<p>Preview not available</p>")
  }

  /** The preview request at a valid level: the first sample axis, the article type and no context. */
  function PreviewRequest(articleId: string, level: int): GenerationRequest {
    GenerationRequest(articleId, ArticleContent, level, [JuniorSenior], "Preview Content", [], None, true, true)
  }

  /** With the level the lookup picks known, the mock's response is fixed. */
  lemma MockGenerateAt(req: GenerationRequest, chosen: LeanLevel)
    requires ValidRequest(req) && req.leanAxes != [] && LevelFor(req.leanAxes[0], req.leanLevel) == Some(chosen)
    ensures MockGenerate(req) == Ok(GenerationResponse(true, [MockComponent(req, MockHtml(req, chosen, req.leanAxes[0]), req.leanAxes[0])], None, req.leanAxes, [], Some(150)))
  {
  }

  /**
   * A preview at a level from 1 to 5 is the mock's block (an article
   * block, by `MockHtmlArticle`) for the experience axis at the level in
   * that position, never the fallback text; any other level fails
   * validation.
   */
  lemma MockPreviewAtLevel(articleId: string, level: int)
    ensures !(1 <= level <= 5) ==> MockPreview(articleId, level) == Err(ValidationFailed)
    ensures 1 <= level <= 5 ==>
              MockPreview(articleId, level) == Ok(MockHtml(PreviewRequest(articleId, level), JuniorSenior.levels[level - 1].1, JuniorSenior))
  {
    if 1 <= level <= 5 {
      var req := PreviewRequest(articleId, level);
      assert MockAxes()[0] == JuniorSenior;
      SampleLevelsMatchZScore(JuniorSenior, level);
      var chosen := JuniorSenior.levels[level - 1].1;
      MockGenerateAt(req, chosen);
    }
  }
}
