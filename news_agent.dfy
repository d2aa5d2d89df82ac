/**
 * Newscast assembly by `NewsAgent`: the prompt text built from a list of
 * articles, the one-minute headlines segment, the five-minute context
 * segment with its title de-duplication, and the full newscast that feeds
 * the headline stories into the context segment. The news search, the
 * prompt files, the model call and the clock are collaborators passed in.
 */
module NewsAgent {
  import opened Wrappers
  import opened Text

  /**
   * The fields of a `NewsArticle` the agent reads. The title is optional,
   * as in the model class: a JSON `null` arrives as `None`. The other
   * fields only ever reach the prompt, so they are kept as their printed
   * form.
   */
  datatype NewsArticle = NewsArticle(title: Option<string>, source: string, publishedAt: string, description: string, url: string)

  /** `NewscastSegment`. */
  datatype NewscastSegment = NewscastSegment(segmentType: string, content: string, durationEstimate: nat, storiesCovered: seq<string>)

  /** The dictionary returned by `generate_full_newscast`. */
  datatype Newscast = Newscast(headlines: NewscastSegment, context: NewscastSegment)

  /**
   * What the agent talks to. `search(region, category, limit, hours_back)`
   * is `search_headlines`, an Err being a raised exception; the prompts are
   * the two prompt files, an Err being a missing file; `claude(prompt,
   * max_tokens)` is `_call_claude`, which catches its own failures and so
   * always returns text; `today` is the formatted current date;
   * `rejected(stories)` is the text of the `ValidationError` pydantic
   * raises when `stories_covered` holds a `None`.
   */
  datatype Newsroom = Newsroom(
    search: (string, string, int, int) -> Result<seq<NewsArticle>>,
    headlinesPrompt: Result<string>,
    contextPrompt: Result<string>,
    claude: (string, int) -> string,
    today: string,
    rejected: seq<Option<string>> -> string)

  /** Python's `xs[:n]`. */
  function Prefix<T>(xs: seq<T>, n: nat): (r: seq<T>)
    ensures |r| <= n && |r| <= |xs|
    ensures |r| == n || r == xs
    ensures r == xs[..|r|]
  {
    if |xs| <= n then xs else xs[..n]
  }

  function Titles(xs: seq<NewsArticle>): (r: seq<Option<string>>)
    ensures |r| == |xs|
  {
    seq(|xs|, i requires 0 <= i < |xs| => xs[i].title)
  }

  function TitleSet(xs: seq<NewsArticle>): set<Option<string>> {
    set a | a in xs :: a.title
  }

  /**
   * `stories_covered` is a `List[str]`: a list of titles validates only
   * when none of them is `None`, and then holds the titles themselves.
   */
  function Stories(titles: seq<Option<string>>): (r: Option<seq<string>>)
    ensures r.Some? <==> forall i :: 0 <= i < |titles| ==> titles[i].Some?
    ensures r.Some? ==> |r.value| == |titles| && forall i :: 0 <= i < |titles| ==> titles[i] == Some(r.value[i])
  {
    if forall i :: 0 <= i < |titles| ==> titles[i].Some? then
      Some(seq(|titles|, i requires 0 <= i < |titles| => titles[i].value))
    else None
  }

  /** How an f-string prints an optional title. */
  function TitleText(title: Option<string>): string {
    match title
    case None => "None"
    case Some(t) => t
  }

  // ----- _format_articles_for_prompt -----

  /** The block for the article numbered `n`. */
  function Block(n: nat, a: NewsArticle): string {
    "\nARTICLE " + NatToString(n) + ":\nTitle: " + TitleText(a.title) + "\nSource: " + a.source
      + "\nPublished: " + a.publishedAt + "\nDescription: " + a.description + "\nURL: " + a.url + "\n"
  }

  /** One block per article, numbered from 1 in input order. */
  function Blocks(articles: seq<NewsArticle>): (r: seq<string>)
    ensures |r| == |articles|
  {
    seq(|articles|, i requires 0 <= i < |articles| => Block(i + 1, articles[i]))
  }

  function ArticlesText(articles: seq<NewsArticle>): string {
    Join("\n", Blocks(articles))
  }

  /** `_format_articles_for_prompt`: the blocks joined by newlines. */
  method FormatArticlesForPrompt(articles: seq<NewsArticle>) returns (text: string)
    ensures text == ArticlesText(articles)
  {
    var formatted: seq<string> := [];
    var i := 0;
    while i < |articles|
      invariant 0 <= i <= |articles|
      invariant formatted == Blocks(articles)[..i]
    {
      formatted := formatted + [Block(i + 1, articles[i])];
      i := i + 1;
    }
    assert formatted == Blocks(articles);
    text := Join("\n", formatted);
  }

  /** Every article appears in the prompt text under its own number, in its position. */
  lemma ArticlesTextNumbered(articles: seq<NewsArticle>, i: nat)
    requires i < |articles|
    ensures Blocks(articles)[i] == Block(i + 1, articles[i])
    ensures Contains(ArticlesText(articles), Block(i + 1, articles[i]))
  {
    JoinContains("\n", Blocks(articles), i);
  }

  // ----- generate_headlines_segment -----

  const NoNewsText := "No current news available. Technical difficulties in the newsroom."

  /** The headlines segment once the search has returned `articles`. */
  function HeadlinesFrom(env: Newsroom, articles: seq<NewsArticle>): NewscastSegment {
    if articles == [] then NewscastSegment("headlines", NoNewsText, 10, [])
    else
      match env.headlinesPrompt
      case Err(e) => NewscastSegment("headlines", "Headlines segment generation failed: " + e, 10, [])
      case Ok(template) =>
        var prompt := ReplaceAll(ReplaceAll(template, "[DATE]", env.today), "{articles}", ArticlesText(Prefix(articles, 8)));
        var titles := Titles(Prefix(articles, 6));
        match Stories(titles)
        case None => NewscastSegment("headlines", "Headlines segment generation failed: " + env.rejected(titles), 10, [])
        case Some(stories) => NewscastSegment("headlines", env.claude(prompt, 300), 60, stories)
  }

  /** `generate_headlines_segment(region, category)`. */
  function Headlines(env: Newsroom, region: string, category: string): NewscastSegment {
    match env.search(region, category, 10, 24)
    case Err(e) => NewscastSegment("headlines", "Headlines segment generation failed: " + e, 10, [])
    case Ok(articles) => HeadlinesFrom(env, articles)
  }

  method GenerateHeadlinesSegment(env: Newsroom, region: string, category: string) returns (seg: NewscastSegment)
    ensures seg == Headlines(env, region, category)
  {
    var found := env.search(region, category, 10, 24);
    if found.Err? {
      return NewscastSegment("headlines", "Headlines segment generation failed: " + found.error, 10, []);
    }
    var articles := found.value;
    if articles == [] {
      return NewscastSegment("headlines", NoNewsText, 10, []);
    }
    var articlesText := FormatArticlesForPrompt(Prefix(articles, 8));
    if env.headlinesPrompt.Err? {
      return NewscastSegment("headlines", "Headlines segment generation failed: " + env.headlinesPrompt.error, 10, []);
    }
    var prompt := ReplaceAll(env.headlinesPrompt.value, "[DATE]", env.today);
    prompt := ReplaceAll(prompt, "{articles}", articlesText);
    var content := env.claude(prompt, 300);
    var titles := Titles(Prefix(articles, 6));
    var stories := Stories(titles);
    if stories.None? {
      return NewscastSegment("headlines", "Headlines segment generation failed: " + env.rejected(titles), 10, []);
    }
    return NewscastSegment("headlines", content, 60, stories.value);
  }

  /**
   * The four outcomes of the headlines segment: the search fails, finds
   * nothing, or finds articles whose first six titles either all validate
   * or include a `None` that fails the segment's validation.
   */
  lemma HeadlinesCases(env: Newsroom, region: string, category: string)
    ensures env.search(region, category, 10, 24).Err? ==>
              Headlines(env, region, category) ==
              NewscastSegment("headlines", "Headlines segment generation failed: " + env.search(region, category, 10, 24).error, 10, [])
    ensures env.search(region, category, 10, 24) == Ok([]) ==>
              Headlines(env, region, category) == NewscastSegment("headlines", NoNewsText, 10, [])
    ensures env.search(region, category, 10, 24).Ok? && env.search(region, category, 10, 24).value != [] && env.headlinesPrompt.Ok? ==>
              var articles := env.search(region, category, 10, 24).value;
              var seg := Headlines(env, region, category);
              (forall i :: 0 <= i < |articles| && i < 6 ==> articles[i].title.Some?) ==>
                && seg.durationEstimate == 60
                && |seg.storiesCovered| == (if |articles| < 6 then |articles| else 6)
                && (forall i :: 0 <= i < |seg.storiesCovered| ==> Some(seg.storiesCovered[i]) == articles[i].title)
    ensures env.search(region, category, 10, 24).Ok? && env.headlinesPrompt.Ok? ==>
              var articles := env.search(region, category, 10, 24).value;
              (exists i :: 0 <= i < |articles| && i < 6 && articles[i].title.None?) ==>
                Headlines(env, region, category) ==
                NewscastSegment("headlines", "Headlines segment generation failed: " + env.rejected(Titles(Prefix(articles, 6))), 10, [])
  {
    var found := env.search(region, category, 10, 24);
    if found.Ok? && found.value != [] && env.headlinesPrompt.Ok? {
      var articles := found.value;
      var titles := Titles(Prefix(articles, 6));
      assert forall i :: 0 <= i < |titles| ==> titles[i] == articles[i].title;
    }
  }

  /** Only the first eight articles matter: the prompt formats at most eight and the stories are the first six. */
  lemma HeadlinesFirstEight(env: Newsroom, articles: seq<NewsArticle>)
    ensures HeadlinesFrom(env, articles) == HeadlinesFrom(env, Prefix(articles, 8))
  {
    if |articles| > 8 {
      assert Prefix(Prefix(articles, 8), 8) == Prefix(articles, 8);
      assert Prefix(Prefix(articles, 8), 6) == Prefix(articles, 6);
    }
  }

  // ----- generate_context_segment -----

  /** The de-duplication loop's result: articles whose title was not seen before, in order. */
  function Unique(xs: seq<NewsArticle>): seq<NewsArticle>
    decreases |xs|
  {
    if xs == [] then []
    else
      var u := Unique(xs[..|xs| - 1]);
      if xs[|xs| - 1].title in TitleSet(u) then u else u + [xs[|xs| - 1]]
  }

  lemma TitleSetAppend(xs: seq<NewsArticle>, a: NewsArticle)
    ensures TitleSet(xs + [a]) == TitleSet(xs) + {a.title}
  {
    assert forall b :: b in xs + [a] <==> b in xs || b == a;
  }

  /** The loop over `all_articles` with its `seen_titles` set. */
  method DeduplicateByTitle(all: seq<NewsArticle>) returns (unique: seq<NewsArticle>)
    ensures unique == Unique(all)
  {
    var seen: set<Option<string>> := {};
    unique := [];
    var i := 0;
    while i < |all|
      invariant 0 <= i <= |all|
      invariant unique == Unique(all[..i])
      invariant seen == TitleSet(unique)
    {
      var article := all[i];
      assert all[..i + 1][..i] == all[..i];
      if article.title !in seen {
        TitleSetAppend(unique, article);
        unique := unique + [article];
        seen := seen + {article.title};
      }
      i := i + 1;
    }
    assert all[..i] == all;
  }

  /** The first article of `xs` with its title sits at index `i`. */
  ghost predicate FirstOccurrence(xs: seq<NewsArticle>, i: int) {
    0 <= i < |xs| && forall j :: 0 <= j < i ==> xs[j].title != xs[i].title
  }

  /** The indices of the first occurrences, in increasing order. */
  ghost function FirstPositions(xs: seq<NewsArticle>): seq<int>
    decreases |xs|
  {
    if xs == [] then []
    else
      var p := FirstPositions(xs[..|xs| - 1]);
      if FirstOccurrence(xs, |xs| - 1) then p + [|xs| - 1] else p
  }

  /** No title is lost: the kept articles carry exactly the titles of the input. */
  lemma {:induction false} UniqueTitles(xs: seq<NewsArticle>)
    ensures TitleSet(Unique(xs)) == TitleSet(xs)
    decreases |xs|
  {
    if xs != [] {
      var init := xs[..|xs| - 1];
      UniqueTitles(init);
      TitleSetAppend(Unique(init), xs[|xs| - 1]);
      TitleSetAppend(init, xs[|xs| - 1]);
      assert init + [xs[|xs| - 1]] == xs;
    }
  }

  /** No two kept articles share a title. */
  lemma {:induction false} UniqueDistinct(xs: seq<NewsArticle>)
    ensures forall i, j :: 0 <= i < j < |Unique(xs)| ==> Unique(xs)[i].title != Unique(xs)[j].title
    decreases |xs|
  {
    if xs != [] {
      var init := xs[..|xs| - 1];
      UniqueDistinct(init);
      var u := Unique(init);
      var a := xs[|xs| - 1];
      if a.title !in TitleSet(u) {
        forall i | 0 <= i < |u| ensures u[i].title != a.title {
          assert u[i] in u;
        }
      }
    }
  }

  /** The last article is a first occurrence iff its title is absent from the ones before it. */
  lemma LastFirstOccurrence(xs: seq<NewsArticle>)
    requires xs != []
    ensures xs[|xs| - 1].title in TitleSet(xs[..|xs| - 1]) <==> !FirstOccurrence(xs, |xs| - 1)
  {
    var n := |xs| - 1;
    var init := xs[..n];
    if xs[n].title in TitleSet(init) {
      var b :| b in init && b.title == xs[n].title;
      var j :| 0 <= j < n && init[j] == b;
      assert xs[j].title == xs[n].title;
    }
    if !FirstOccurrence(xs, n) {
      var j :| 0 <= j < n && xs[j].title == xs[n].title;
      assert init[j] in init;
    }
  }

  /** Dropping the last article changes no earlier first occurrence. */
  lemma FirstOccurrenceInit(xs: seq<NewsArticle>, i: int)
    requires xs != [] && 0 <= i < |xs| - 1
    ensures FirstOccurrence(xs[..|xs| - 1], i) <==> FirstOccurrence(xs, i)
  {
  }

  /**
   * The kept articles are the inputs at the first-occurrence positions, in
   * input order: the k-th kept article is the input at the k-th position.
   */
  lemma {:induction false} UniqueAtFirstPositions(xs: seq<NewsArticle>)
    ensures |Unique(xs)| == |FirstPositions(xs)|
    ensures forall k :: 0 <= k < |FirstPositions(xs)| ==>
              0 <= FirstPositions(xs)[k] < |xs| && Unique(xs)[k] == xs[FirstPositions(xs)[k]]
    ensures forall k, l :: 0 <= k < l < |FirstPositions(xs)| ==> FirstPositions(xs)[k] < FirstPositions(xs)[l]
    decreases |xs|
  {
    if xs != [] {
      var init := xs[..|xs| - 1];
      UniqueAtFirstPositions(init);
      UniqueTitles(init);
      LastFirstOccurrence(xs);
    }
  }

  /** An index is listed among the first-occurrence positions iff no earlier article has its title. */
  lemma {:induction false} FirstPositionsExact(xs: seq<NewsArticle>)
    ensures forall i :: 0 <= i < |xs| ==> (FirstOccurrence(xs, i) <==> i in FirstPositions(xs))
    ensures forall k :: 0 <= k < |FirstPositions(xs)| ==> 0 <= FirstPositions(xs)[k] < |xs|
    decreases |xs|
  {
    if xs != [] {
      var n := |xs| - 1;
      var init := xs[..n];
      FirstPositionsExact(init);
      forall i | 0 <= i < n ensures FirstOccurrence(init, i) <==> FirstOccurrence(xs, i) {
        FirstOccurrenceInit(xs, i);
      }
    }
  }

  /** Python's truthiness of `focus_stories`: given and non-empty. */
  predicate Truthy(focus: Option<seq<string>>) {
    focus.Some? && focus.value != []
  }

  function FocusText(focus: Option<seq<string>>): string {
    if Truthy(focus) then Join(", ", focus.value) else "Top 2-3 most significant stories"
  }

  /** The three searches, in order; the first exception ends the segment. */
  function Gather(env: Newsroom, region: string): Result<seq<NewsArticle>> {
    match env.search(region, "general", 8, 48)
    case Err(e) => Err(e)
    case Ok(general) =>
      match env.search(region, "politics", 5, 48)
      case Err(e) => Err(e)
      case Ok(political) =>
        match env.search(region, "business", 5, 48)
        case Err(e) => Err(e)
        case Ok(business) => Ok(general + political + business)
  }

  /** The context segment once the de-duplicated articles are known. */
  function ContextFrom(env: Newsroom, unique: seq<NewsArticle>, focus: Option<seq<string>>): NewscastSegment {
    if unique == [] then NewscastSegment("context", "Deep analysis unavailable due to technical issues.", 30, [])
    else
      match env.contextPrompt
      case Err(e) => NewscastSegment("context", "Context analysis failed: " + e, 30, [])
      case Ok(template) =>
        var prompt := ReplaceAll(ReplaceAll(template, "{articles}", ArticlesText(Prefix(unique, 12))), "{focus_stories}", FocusText(focus));
        if Truthy(focus) then NewscastSegment("context", env.claude(prompt, 1200), 300, focus.value)
        else
          var titles := Titles(Prefix(unique, 3));
          match Stories(titles)
          case None => NewscastSegment("context", "Context analysis failed: " + env.rejected(titles), 30, [])
          case Some(stories) => NewscastSegment("context", env.claude(prompt, 1200), 300, stories)
  }

  /** `generate_context_segment(region, focus_stories)`. */
  function Context(env: Newsroom, region: string, focus: Option<seq<string>>): NewscastSegment {
    match Gather(env, region)
    case Err(e) => NewscastSegment("context", "Context analysis failed: " + e, 30, [])
    case Ok(all) => ContextFrom(env, Unique(all), focus)
  }

  method GenerateContextSegment(env: Newsroom, region: string, focus: Option<seq<string>>) returns (seg: NewscastSegment)
    ensures seg == Context(env, region, focus)
  {
    var general := env.search(region, "general", 8, 48);
    if general.Err? {
      return NewscastSegment("context", "Context analysis failed: " + general.error, 30, []);
    }
    var political := env.search(region, "politics", 5, 48);
    if political.Err? {
      return NewscastSegment("context", "Context analysis failed: " + political.error, 30, []);
    }
    var business := env.search(region, "business", 5, 48);
    if business.Err? {
      return NewscastSegment("context", "Context analysis failed: " + business.error, 30, []);
    }
    var unique := DeduplicateByTitle(general.value + political.value + business.value);
    if unique == [] {
      return NewscastSegment("context", "Deep analysis unavailable due to technical issues.", 30, []);
    }
    var articlesText := FormatArticlesForPrompt(Prefix(unique, 12));
    var focusText := FocusText(focus);
    if env.contextPrompt.Err? {
      return NewscastSegment("context", "Context analysis failed: " + env.contextPrompt.error, 30, []);
    }
    var prompt := ReplaceAll(env.contextPrompt.value, "{articles}", articlesText);
    prompt := ReplaceAll(prompt, "{focus_stories}", focusText);
    var content := env.claude(prompt, 1200);
    if Truthy(focus) {
      return NewscastSegment("context", content, 300, focus.value);
    }
    var titles := Titles(Prefix(unique, 3));
    var stories := Stories(titles);
    if stories.None? {
      return NewscastSegment("context", "Context analysis failed: " + env.rejected(titles), 30, []);
    }
    return NewscastSegment("context", content, 300, stories.value);
  }

  /** The first three de-duplicated titles are distinct titles of the input. */
  lemma LeadTitles(all: seq<NewsArticle>)
    ensures var stories := Titles(Prefix(Unique(all), 3));
            && |stories| <= 3
            && (Unique(all) != [] ==> 1 <= |stories|)
            && (forall i, j :: 0 <= i < j < |stories| ==> stories[i] != stories[j])
            && (forall i :: 0 <= i < |stories| ==> stories[i] in TitleSet(all))
  {
    UniqueDistinct(all);
    UniqueTitles(all);
    var u := Unique(all);
    forall i | 0 <= i < |Prefix(u, 3)| ensures Prefix(u, 3)[i].title in TitleSet(all) {
      assert Prefix(u, 3)[i] == u[i];
      assert u[i] in u;
    }
  }

  /**
   * With focus stories a context segment that found articles covers
   * exactly those. Without them it covers the first three distinct titles
   * in the order the searches returned them, unless one of those titles is
   * `None`, which fails the segment's validation.
   */
  lemma ContextStories(env: Newsroom, region: string, focus: Option<seq<string>>)
    requires Gather(env, region).Ok? && Unique(Gather(env, region).value) != [] && env.contextPrompt.Ok?
    ensures Truthy(focus) ==>
              Context(env, region, focus).durationEstimate == 300 && Context(env, region, focus).storiesCovered == focus.value
    ensures !Truthy(focus) ==>
              var all := Gather(env, region).value;
              var titles := Titles(Prefix(Unique(all), 3));
              var seg := Context(env, region, focus);
              (forall i :: 0 <= i < |titles| ==> titles[i].Some?) ==>
                && seg.durationEstimate == 300
                && 1 <= |seg.storiesCovered| <= 3
                && (forall i, j :: 0 <= i < j < |seg.storiesCovered| ==> seg.storiesCovered[i] != seg.storiesCovered[j])
                && (forall i :: 0 <= i < |seg.storiesCovered| ==> Some(seg.storiesCovered[i]) in TitleSet(all))
                && (forall i :: 0 <= i < |seg.storiesCovered| ==> Some(seg.storiesCovered[i]) == titles[i])
    ensures !Truthy(focus) ==>
              var titles := Titles(Prefix(Unique(Gather(env, region).value), 3));
              (exists i :: 0 <= i < |titles| && titles[i].None?) ==>
                Context(env, region, focus) == NewscastSegment("context", "Context analysis failed: " + env.rejected(titles), 30, [])
  {
    LeadTitles(Gather(env, region).value);
  }

  /** Every path that fails or finds nothing yields a 30-second segment with no stories. */
  lemma ContextFailures(env: Newsroom, region: string, focus: Option<seq<string>>)
    ensures Gather(env, region).Err? ==>
              Context(env, region, focus) == NewscastSegment("context", "Context analysis failed: " + Gather(env, region).error, 30, [])
    ensures Gather(env, region).Ok? && Gather(env, region).value == [] ==>
              Context(env, region, focus) == NewscastSegment("context", "Deep analysis unavailable due to technical issues.", 30, [])
  {
  }

  /** A headlines segment covers stories exactly when it has its full minute; otherwise it is the 10-second fallback. */
  lemma HeadlinesDuration(env: Newsroom, region: string, category: string)
    ensures var h := Headlines(env, region, category);
            && (h.durationEstimate == 10 || h.durationEstimate == 60)
            && (h.storiesCovered != [] <==> h.durationEstimate == 60)
  {
    var found := env.search(region, category, 10, 24);
    if found.Ok? && found.value != [] && env.headlinesPrompt.Ok? {
      assert |Prefix(found.value, 6)| > 0;
    }
  }

  /** A context segment covers stories exactly when it has its full five minutes; otherwise it is the 30-second fallback. */
  lemma ContextDuration(env: Newsroom, region: string, focus: Option<seq<string>>)
    ensures var c := Context(env, region, focus);
            && (c.durationEstimate == 30 || c.durationEstimate == 300)
            && (c.storiesCovered != [] <==> c.durationEstimate == 300)
  {
    var all := Gather(env, region);
    if all.Ok? && Unique(all.value) != [] && env.contextPrompt.Ok? {
      assert |Prefix(Unique(all.value), 3)| > 0;
    }
  }

  // ----- generate_full_newscast -----

  function FullNewscast(env: Newsroom, region: string, category: string): Newscast {
    var headlines := Headlines(env, region, category);
    Newscast(headlines, Context(env, region, Some(Prefix(headlines.storiesCovered, 3))))
  }

  method GenerateFullNewscast(env: Newsroom, region: string, category: string) returns (cast: Newscast)
    ensures cast == FullNewscast(env, region, category)
  {
    var headlines := GenerateHeadlinesSegment(env, region, category);
    var focusStories := Prefix(headlines.storiesCovered, 3);
    var context := GenerateContextSegment(env, region, Some(focusStories));
    return Newscast(headlines, context);
  }

  /**
   * The context segment of a full newscast covers the first three headline
   * titles when the headlines segment covered stories, and is the context
   * segment without focus stories when the headlines segment covered none.
   */
  lemma FullNewscastFocus(env: Newsroom, region: string, category: string)
    requires Gather(env, region).Ok? && Unique(Gather(env, region).value) != [] && env.contextPrompt.Ok?
    ensures var articles := env.search(region, category, 10, 24);
            articles.Ok? && articles.value != [] && env.headlinesPrompt.Ok? &&
            (forall i :: 0 <= i < |articles.value| && i < 6 ==> articles.value[i].title.Some?) ==>
              Stories(Titles(Prefix(articles.value, 3))) == Some(FullNewscast(env, region, category).context.storiesCovered)
    ensures Headlines(env, region, category).storiesCovered == [] ==>
              FullNewscast(env, region, category).context == Context(env, region, None)
  {
    var articles := env.search(region, category, 10, 24);
    var h := Headlines(env, region, category);
    if articles.Ok? && articles.value != [] && env.headlinesPrompt.Ok? &&
       (forall i :: 0 <= i < |articles.value| && i < 6 ==> articles.value[i].title.Some?) {
      HeadlinesCases(env, region, category);
      var focus := Prefix(h.storiesCovered, 3);
      var lead := Stories(Titles(Prefix(articles.value, 3)));
      assert lead.Some?;
      assert lead.value == focus;
      ContextStories(env, region, Some(focus));
    }
  }
}
