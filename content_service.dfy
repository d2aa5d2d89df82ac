/**
 * The provider-independent half of the AI content service: the prompt data
 * built from a generation request (`BaseAIProvider._prepare_prompt`), the
 * component built from the provider's reply (`_parse_response`), the
 * read-time estimate, and `AIContentService`, which chains the three around
 * the provider call and turns any failure into an unsuccessful response.
 * The provider call itself is a function parameter.
 */
module ContentService {
  import opened Wrappers
  import opened Text
  import opened Lean

  // ----- the default prompt templates -----

  /** The default instruction, opening with a letter rather than a line break. */
  const DefaultInstruction := "G" + "enerate appropriate content for this component type."

  /** The bodies of the four component templates, each of which opens with a line break. */
  const ArticleInstruction := "Create an <article-content> web component with:\n- Proper semantic HTML structure\n- Content adapted to the exact lean level\n- Appropriate data attributes for interactivity\n- Professional styling classes\n"
  const ChartInstruction := "Create a <data-visualization> web component with:\n- Chart or graph appropriate for the complexity level\n- Interactive controls if needed\n- Data attributes for chart configuration\n- Responsive design\n"
  const DemoInstruction := "Create an <interactive-demo> web component with:\n- Hands-on examples matching the lean level\n- JavaScript functionality for interactivity\n- Progressive complexity based on lean level\n- Clear instructions and feedback\n"
  const CodeInstruction := "Create a <code-example> web component with:\n- Syntax-highlighted code blocks\n- Explanatory comments appropriate for lean level\n- Interactive elements if applicable\n- Copy-to-clipboard functionality\n"

  /** The component templates: four of the eight component types have one. */
  function ComponentTemplate(ct: ComponentType): Option<string> {
    match ct
    case ArticleContent => Some("\n" + ArticleInstruction)
    case DataVisualization => Some("\n" + ChartInstruction)
    case InteractiveDemo => Some("\n" + DemoInstruction)
    case CodeExample => Some("\n" + CodeInstruction)
    case _ => None
  }

  /** `component_instructions.get(component_type, default)`. */
  function ComponentInstruction(ct: ComponentType): string {
    ComponentTemplate(ct).GetOr(DefaultInstruction)
  }

  /** `d.get(key, default)` on a dictionary given as its entries in insertion order. */
  function Get<V>(d: seq<(string, V)>, key: string, default: V): V {
    if d == [] then default
    else if d[0].0 == key then d[0].1
    else Get(d[1..], key, default)
  }

  /** The lean instructions by axis, then by level key. */
  const LeanInstructions: seq<(string, seq<(string, string)>)> := [
    ("basic-expert", [
      ("basic", "Use simple language, fundamental concepts, step-by-step explanations. Avoid jargon."),
      ("intermediate", "Moderate complexity, some background assumed, practical examples."),
      ("advanced", "Professional level, technical depth, industry context."),
      ("expert", "Specialized knowledge, detailed analysis, advanced concepts."),
      ("master", "Cutting-edge research, theoretical frameworks, latest developments.")]),
    ("liberal-conservative", [
      ("progressive", "Emphasize government solutions, social programs, collective action."),
      ("liberal", "Support regulated markets, institutional oversight, reform approaches."),
      ("centrist", "Balanced perspective, practical solutions, bipartisan approaches."),
      ("conservative", "Traditional values, market solutions, limited government role."),
      ("libertarian", "Maximum freedom, minimal regulation, individual responsibility.")]),
    ("junior-senior", [
      ("intern", "Entry-level perspective, learning focus, basic concepts."),
      ("junior", "Growing experience, practical application, guided approach."),
      ("professional", "Competent execution, standard practices, reliable methods."),
      ("senior", "Strategic thinking, complex problem-solving, leadership perspective."),
      ("executive", "High-level strategy, business impact, organizational implications.")])]

  /** The lean-specific instruction: looked up by axis name, then by the level's key name. */
  function LeanInstruction(axisName: string, leanLevel: int): string
    requires 1 <= leanLevel <= 5
  {
    Get(Get(LeanInstructions, axisName, []), LevelNames[leanLevel - 1], "")
  }

  /** Every template opens with a line break, which the default sentence does not. */
  lemma TemplateOpensWithNewline(ct: ComponentType)
    ensures ComponentTemplate(ct).Some? ==> |ComponentTemplate(ct).value| > 0 && ComponentTemplate(ct).value[0] == '\n'
  {
    match ct
    case ArticleContent => OpensWithNewline(ArticleInstruction);
    case DataVisualization => OpensWithNewline(ChartInstruction);
    case InteractiveDemo => OpensWithNewline(DemoInstruction);
    case CodeExample => OpensWithNewline(CodeInstruction);
    case _ =>
  }

  lemma OpensWithNewline(body: string)
    ensures |"\n" + body| > 0 && ("\n" + body)[0] == '\n'
  {
  }

  /** Every component type without a template gets the default sentence, and only those. */
  lemma ComponentInstructionDefault(ct: ComponentType)
    ensures ComponentInstruction(ct) == DefaultInstruction <==>
              ct == ComparisonTable || ct == TimelineWidget || ct == QuizComponent || ct == ConceptMap
  {
    TemplateOpensWithNewline(ct);
    assert DefaultInstruction[0] == 'G';
  }

  /**
   * The level key is always one of the complexity names, so only the
   * complexity axis ever gets a lean instruction; the political and
   * experience axes, and any unknown axis, get "".
   */
  lemma {:induction false} LeanInstructionPresent(axisName: string, leanLevel: int)
    requires 1 <= leanLevel <= 5
    ensures LeanInstruction(axisName, leanLevel) != "" <==> axisName == "basic-expert"
  {
    var key := LevelNames[leanLevel - 1];
    var tables := LeanInstructions;
    if axisName == "basic-expert" {
      assert Get(tables, axisName, []) == tables[0].1;
      assert tables[0].1[leanLevel - 1].0 == key;
      GetAt(tables[0].1, leanLevel - 1, key, "");
      assert LeanInstruction(axisName, leanLevel) == tables[0].1[leanLevel - 1].1;
    } else {
      var table := Get(tables, axisName, []);
      GetOneOf(tables, axisName, []);
      assert table == [] || table == tables[1].1 || table == tables[2].1;
      GetMissing(table, key, "");
    }
  }

  /** A key found at index `i` and nowhere before is looked up there. */
  lemma {:induction false} GetAt<V>(d: seq<(string, V)>, i: nat, key: string, default: V)
    requires i < |d| && d[i].0 == key
    requires forall j :: 0 <= j < i ==> d[j].0 != key
    ensures Get(d, key, default) == d[i].1
  {
    if i > 0 {
      GetAt(d[1..], i - 1, key, default);
    }
  }

  /** A key that no entry carries gets the default. */
  lemma {:induction false} GetMissing<V>(d: seq<(string, V)>, key: string, default: V)
    requires forall j :: 0 <= j < |d| ==> d[j].0 != key
    ensures Get(d, key, default) == default
  {
    if d != [] {
      GetMissing(d[1..], key, default);
    }
  }

  /** The looked-up value is one of the entries' values or the default. */
  lemma {:induction false} GetOneOf<V>(d: seq<(string, V)>, key: string, default: V)
    ensures Get(d, key, default) == default || exists j :: 0 <= j < |d| && d[j].0 == key && Get(d, key, default) == d[j].1
  {
    if d != [] && d[0].0 != key {
      GetOneOf(d[1..], key, default);
      if Get(d, key, default) != default {
        var j :| 0 <= j < |d[1..]| && d[1..][j].0 == key && Get(d, key, default) == d[1..][j].1;
        assert d[j + 1] == d[1..][j];
      }
    }
  }

  // ----- prompt data -----

  /** The prompt dictionary handed to the provider. */
  datatype PromptData = PromptData(
    componentType: string,
    topic: string,
    leanAxisName: string,
    leanAxisLabel: string,
    leanLevelName: string,
    leanZScore: int,
    leanLevelDescription: string,
    componentInstructions: string,
    leanInstructions: string,
    context: string)

  /**
   * `_prepare_prompt`: the first axis, the level the named-then-positional
   * lookup picks on it, and the instructions; `dumps` is `json.dumps` of the
   * context. An Err is the `IndexError` of an empty axis list or level table.
   */
  function PreparePrompt(req: GenerationRequest, dumps: seq<(string, string)> -> string): (r: Result<PromptData>)
    requires ValidRequest(req)
    ensures r.Err? <==> req.leanAxes == [] || req.leanAxes[0].levels == []
    ensures r.Err? ==> r.error == IndexErrorMessage
    ensures r.Ok? ==>
              && r.value.leanZScore == req.leanLevel - 3
              && -2 <= r.value.leanZScore <= 2
              && r.value.componentType == Value(req.componentType)
              && r.value.leanAxisName == req.leanAxes[0].axisName
              && (req.context == [] ==> r.value.context == "{}")
  {
    if req.leanAxes == [] then Err(IndexErrorMessage)
    else
      var axis := req.leanAxes[0];
      LevelForCases(axis, req.leanLevel);
      match LevelFor(axis, req.leanLevel)
      case None => Err(IndexErrorMessage)
      case Some(level) =>
        Ok(PromptData(
          Value(req.componentType), req.topic, axis.axisName, axis.axisLabel,
          level.name, ZScore(req.leanLevel), level.description,
          ComponentInstruction(req.componentType),
          LeanInstruction(axis.axisName, req.leanLevel),
          if req.context != [] then dumps(req.context) else "{}"))
  }

  /**
   * The prompt names one of the first axis's own levels; on any of the
   * sample axes it is the level at the requested position, whose score is
   * the prompt's z-score.
   */
  lemma PromptLevel(req: GenerationRequest, dumps: seq<(string, string)> -> string)
    requires ValidRequest(req) && PreparePrompt(req, dumps).Ok?
    ensures exists i :: 0 <= i < |req.leanAxes[0].levels| &&
              PreparePrompt(req, dumps).value.leanLevelName == req.leanAxes[0].levels[i].1.name &&
              PreparePrompt(req, dumps).value.leanLevelDescription == req.leanAxes[0].levels[i].1.description
    ensures req.leanAxes[0] in {JuniorSenior, LiberalConservative, BasicExpert} ==>
              PreparePrompt(req, dumps).value.leanLevelName == req.leanAxes[0].levels[req.leanLevel - 1].1.name &&
              req.leanAxes[0].levels[req.leanLevel - 1].1.score == PreparePrompt(req, dumps).value.leanZScore
  {
    var axis := req.leanAxes[0];
    var key := LevelNames[req.leanLevel - 1];
    LevelForCases(axis, req.leanLevel);
    LookupIn(axis.levels, key);
    if axis in {JuniorSenior, LiberalConservative, BasicExpert} {
      SampleLevelsMatchZScore(axis, req.leanLevel);
    }
  }

  /** The prompt's instructions: the default for untemplated types, and a lean instruction only on the complexity axis. */
  lemma PromptInstructions(req: GenerationRequest, dumps: seq<(string, string)> -> string)
    requires ValidRequest(req) && PreparePrompt(req, dumps).Ok?
    ensures PreparePrompt(req, dumps).value.componentInstructions == DefaultInstruction <==>
              req.componentType == ComparisonTable || req.componentType == TimelineWidget ||
              req.componentType == QuizComponent || req.componentType == ConceptMap
    ensures PreparePrompt(req, dumps).value.leanInstructions != "" <==> req.leanAxes[0].axisName == "basic-expert"
  {
    ComponentInstructionDefault(req.componentType);
    LeanInstructionPresent(req.leanAxes[0].axisName, req.leanLevel);
  }

  // ----- read time -----

  const WordsPerMinute: nat := 200

  /** Python's `round(n / d)`: the nearest integer, ties to the even one. */
  function RoundHalfEven(n: nat, d: nat): nat
    requires d > 0
  {
    var q, rem := n / d, n % d;
    if 2 * rem > d then q + 1
    else if 2 * rem < d then q
    else if q % 2 == 0 then q
    else q + 1
  }

  /** `_estimate_read_time`: whitespace-separated words at 200 a minute, rounded, at least one minute. */
  function EstimateReadTime(content: string): (r: nat)
    ensures r >= 1
  {
    var rounded := RoundHalfEven(WordCount(content), WordsPerMinute);
    if rounded < 1 then 1 else rounded
  }

  function Abs(x: int): nat {
    if x < 0 then -x else x
  }

  /**
   * The estimate is one minute up to 100 words; beyond that it is a whole
   * number of minutes nearest to words / 200, the even one on a tie.
   */
  lemma ReadTimeNearest(content: string)
    ensures WordCount(content) <= 100 ==> EstimateReadTime(content) == 1
    ensures WordCount(content) > 100 ==>
              && (forall m: int :: Abs(200 * EstimateReadTime(content) - WordCount(content)) <= Abs(200 * m - WordCount(content)))
              && (Abs(200 * EstimateReadTime(content) - WordCount(content)) == 100 ==> EstimateReadTime(content) % 2 == 0)
  {
    var n := WordCount(content);
    var r: int := RoundHalfEven(n, WordsPerMinute);
    RoundedNearest(n, r);
    if n > 100 {
      assert r >= 1;
      forall m: int ensures Abs(200 * r - n) <= Abs(200 * m - n) {
        RoundedBeats(n, r, m);
      }
    }
  }

  /** The rounded quotient is within half a divisor of `n`, at least one past 100, and even on a tie. */
  lemma RoundedNearest(n: nat, r: nat)
    requires r == RoundHalfEven(n, 200)
    ensures n <= 100 ==> r == 0
    ensures n > 100 ==> r >= 1
    ensures Abs(200 * r - n) <= 100
    ensures Abs(200 * r - n) == 100 ==> r % 2 == 0
  {
    var q, rem := n / 200, n % 200;
    assert n == 200 * q + rem;
  }

  /** No whole number of minutes is nearer to `n` words than the rounded one. */
  lemma RoundedBeats(n: nat, r: nat, m: int)
    requires r == RoundHalfEven(n, 200)
    ensures Abs(200 * r - n) <= Abs(200 * m - n)
  {
    var q, rem := n / 200, n % 200;
    assert n == 200 * q + rem;
    if m <= q {
      assert 200 * m - n <= -rem;
    } else {
      assert 200 * m - n >= 200 - rem;
    }
  }

  // ----- the component and the response -----

  /** `AIProviderResponse`. */
  datatype ProviderResponse = ProviderResponse(content: string, modelInfo: string,
                                               usageStats: seq<(string, string)>, metadata: seq<(string, string)>)

  /** `_parse_response`; an Err is the `IndexError` of an empty axis list. */
  function ParseResponse(reply: ProviderResponse, req: GenerationRequest): (r: Result<GeneratedComponent>)
    requires ValidRequest(req)
    ensures r.Err? <==> req.leanAxes == []
    ensures r.Ok? ==>
              && r.value.componentType == req.componentType
              && r.value.htmlContent == reply.content
              && r.value.leanLevelUsed == req.leanLevel
              && -2 <= r.value.componentData.zScore <= 2
              && r.value.componentData.articleId == Some(req.articleId)
              && r.value.estimatedReadTime.Some? && r.value.estimatedReadTime.value >= 1
              && r.value.aiModelInfo == Some(reply.modelInfo)
  {
    if req.leanAxes == [] then Err(IndexErrorMessage)
    else
      Ok(GeneratedComponent(
        req.componentType, ComponentTag(req.componentType), reply.content,
        ComponentData(req.leanLevel, ZScore(req.leanLevel), req.leanAxes[0].axisName, Some(req.articleId)),
        req.leanLevel, Some(EstimateReadTime(reply.content)), [], Some(reply.modelInfo)))
  }

  /** The tag of a parsed component is the component type's own value. */
  lemma ParsedTag(reply: ProviderResponse, req: GenerationRequest)
    requires ValidRequest(req) && ParseResponse(reply, req).Ok?
    ensures ParseResponse(reply, req).value.componentTag == Value(req.componentType)
  {
    ComponentTagIsValue(req.componentType);
  }

  const FailurePrefix := "AI generation failed: "

  /**
   * `AIContentService.generate_content`: prompt, provider call, parse; an
   * exception anywhere gives an unsuccessful response with its message.
   * `elapsedMs` is the wall-clock time the source measures.
   */
  function GenerateContent(req: GenerationRequest, dumps: seq<(string, string)> -> string,
                           callApi: PromptData -> Result<ProviderResponse>, elapsedMs: nat): GenerationResponse
    requires ValidRequest(req)
  {
    var outcome: Result<(ProviderResponse, GeneratedComponent)> :=
      match PreparePrompt(req, dumps)
      case Err(e) => Err(e)
      case Ok(prompt) =>
        match callApi(prompt)
        case Err(e) => Err(e)
        case Ok(reply) =>
          match ParseResponse(reply, req)
          case Err(e) => Err(e)
          case Ok(component) => Ok((reply, component));
    match outcome
    case Ok((reply, component)) =>
      GenerationResponse(true, [component], Some(ArticleMetadata(reply.modelInfo, reply.usageStats, reply.metadata)),
                         req.leanAxes, [], Some(elapsedMs))
    case Err(e) =>
      GenerationResponse(false, [], None, req.leanAxes, [FailurePrefix + e], Some(elapsedMs))
  }

  /**
   * The two outcomes: success with exactly one component at the requested
   * level (tag = the type's value, read time at least a minute) and no
   * errors; or failure with no components and one error carrying the
   * prefix. It fails exactly when the axis list or the first level table is
   * empty or the provider call fails. Either way the request's axes are
   * echoed.
   */
  lemma GenerateOutcome(req: GenerationRequest, dumps: seq<(string, string)> -> string,
                        callApi: PromptData -> Result<ProviderResponse>, elapsedMs: nat)
    requires ValidRequest(req)
    ensures var resp := GenerateContent(req, dumps, callApi, elapsedMs);
            && resp.leanAxesUsed == req.leanAxes
            && (resp.success <==> PreparePrompt(req, dumps).Ok? && callApi(PreparePrompt(req, dumps).value).Ok?)
            && (resp.success ==>
                  && resp.errors == [] && |resp.components| == 1
                  && resp.components[0].htmlContent == callApi(PreparePrompt(req, dumps).value).value.content
                  && resp.components[0].componentTag == Value(req.componentType)
                  && resp.components[0].leanLevelUsed == req.leanLevel
                  && resp.components[0].componentData.zScore == req.leanLevel - 3
                  && resp.components[0].estimatedReadTime.value >= 1)
            && (!resp.success ==>
                  && resp.components == [] && |resp.errors| == 1
                  && StartsWith(resp.errors[0], FailurePrefix))
  {
    var resp := GenerateContent(req, dumps, callApi, elapsedMs);
    if PreparePrompt(req, dumps).Ok? {
      var reply := callApi(PreparePrompt(req, dumps).value);
      if reply.Ok? {
        ParsedTag(reply.value, req);
      }
    }
    if !resp.success {
      StartsWithAppend(FailurePrefix, resp.errors[0][|FailurePrefix|..]);
      assert resp.errors[0] == FailurePrefix + resp.errors[0][|FailurePrefix|..];
    }
  }

  /** `AIContentService.get_available_axes`: complexity, politics, experience. */
  function AvailableAxes(): (r: seq<LeanAxis>)
    ensures |r| == 3
    ensures forall i :: 0 <= i < 3 ==> WellFormedAxis(r[i])
    ensures r[0].axisName == "basic-expert" && r[1].axisName == "liberal-conservative" && r[2].axisName == "junior-senior"
  {
    SampleAxesWellFormed();
    [BasicExpert, LiberalConservative, JuniorSenior]
  }

  const PreviewFallback := "<p>Preview not available</p>"

  /** `AIContentService.preview_at_level`: an article request on the first axis; an Err is the request's validation error. */
  function Preview(articleId: string, level: int, dumps: seq<(string, string)> -> string,
                   callApi: PromptData -> Result<ProviderResponse>, elapsedMs: nat): Result<string>
  {
    match NewRequest(articleId, ArticleContent, level, [AvailableAxes()[0]], "Content Preview", Some(500))
    case Err(e) => Err(e)
    case Ok(req) =>
      var resp := GenerateContent(req, dumps, callApi, elapsedMs);
      if resp.success && resp.components != [] then Ok(resp.components[0].htmlContent)
      else Ok(PreviewFallback)
  }

  /** The request a preview at a valid level builds. */
  function PreviewRequest(articleId: string, level: int): GenerationRequest {
    GenerationRequest(articleId, ArticleContent, level, [BasicExpert], "Content Preview", [], Some(500), true, true)
  }

  lemma PreviewBuilds(articleId: string, level: int)
    ensures !(1 <= level <= 5) ==> NewRequest(articleId, ArticleContent, level, [AvailableAxes()[0]], "Content Preview", Some(500)).Err?
    ensures 1 <= level <= 5 ==>
              NewRequest(articleId, ArticleContent, level, [AvailableAxes()[0]], "Content Preview", Some(500)) == Ok(PreviewRequest(articleId, level))
  {
    assert AvailableAxes()[0] == BasicExpert;
  }

  /**
   * A preview at a level from 1 to 5 is the provider's content for a
   * prompt on the complexity axis naming the level at that position, or
   * the fallback when the provider call fails; any other level fails
   * validation.
   */
  lemma PreviewOutcome(articleId: string, level: int, dumps: seq<(string, string)> -> string,
                       callApi: PromptData -> Result<ProviderResponse>, elapsedMs: nat)
    ensures !(1 <= level <= 5) ==> Preview(articleId, level, dumps, callApi, elapsedMs) == Err(ValidationFailed)
    ensures 1 <= level <= 5 ==>
              var prompt := PreparePrompt(PreviewRequest(articleId, level), dumps);
              && prompt.Ok?
              && prompt.value.leanLevelName == BasicExpert.levels[level - 1].1.name
              && Preview(articleId, level, dumps, callApi, elapsedMs) ==
                   if callApi(prompt.value).Ok? then Ok(callApi(prompt.value).value.content) else Ok(PreviewFallback)
  {
    PreviewBuilds(articleId, level);
    if 1 <= level <= 5 {
      var req := PreviewRequest(articleId, level);
      PromptLevel(req, dumps);
      GenerateOutcome(req, dumps, callApi, elapsedMs);
    }
  }
}
