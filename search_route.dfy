/**
 * The search API's request handling: the POST and GET search endpoints with
 * their score, repository, file-type and limit filtering, and the
 * per-repository file listing. The query encoder and the store's nearest
 * neighbour search are one collaborator passed in as a function.
 */
module SearchRoute {
  import opened Wrappers
  import opened Text
  import opened Paths
  import opened DocProcessor
  import opened Store

  /** `SearchRequest` with the pydantic field types. */
  datatype SearchRequest = SearchRequest(query: string, limit: int, minScore: real,
                                         repoFilter: Option<seq<string>>, fileTypeFilter: Option<seq<string>>)

  /** The field bounds pydantic enforces before the handler runs: `1 <= limit <= 100`, `0 <= min_score <= 1`. */
  predicate ValidRequest(r: SearchRequest) {
    1 <= r.limit <= 100 && 0.0 <= r.minScore <= 1.0
  }

  datatype SearchResult = SearchResult(chunkId: string, content: string, sourceFile: string, repoName: string,
                                       fileType: string, similarityScore: real, metadata: ChunkMeta)

  /** `SearchResponse` without the clock-dependent `processing_time_ms` and `timestamp`. */
  datatype SearchResponse = SearchResponse(query: string, results: seq<SearchResult>, totalResults: nat)

  /** A handler's answer: a body, or an `HTTPException` with its status and detail. */
  datatype Response<T> = Body(body: T) | HttpError(status: int, detail: string)

  /** A filter list that Python treats as set: neither None nor empty. */
  predicate Active(f: Option<seq<string>>) {
    f.Some? && f.value != []
  }

  /** `Path(source_file).suffix.lower()`. */
  function FileExt(sourceFile: string): string {
    Lower(Suffix(sourceFile))
  }

  /**
   * The three `continue` conditions of the filter loop, negated, for an
   * extension function `ext` (the handler uses `FileExt`).
   */
  predicate Passes(req: SearchRequest, ext: string -> string, hit: (DocumentChunk, real)) {
    && !(hit.1 < req.minScore)
    && !(Active(req.repoFilter) && hit.0.repoName !in req.repoFilter.value)
    && !(Active(req.fileTypeFilter) && ext(hit.0.sourceFile) !in req.fileTypeFilter.value)
  }

  /** The `SearchResult` built for a hit. */
  function ToResult(ext: string -> string, hit: (DocumentChunk, real)): SearchResult {
    var c := hit.0;
    SearchResult(c.chunkId, c.content, c.sourceFile, c.repoName, ext(c.sourceFile), hit.1, c.metadata)
  }

  /** `Passes` as a function value, so that the loop functions below share one term. */
  function PassTest(req: SearchRequest, ext: string -> string): ((DocumentChunk, real)) -> bool {
    hit => Passes(req, ext, hit)
  }

  /** `ToResult` as a function value. */
  function Format(ext: string -> string): ((DocumentChunk, real)) -> SearchResult {
    hit => ToResult(ext, hit)
  }

  // The filter loop does not depend on what the test and the formatting are,
  // so it is defined and proved once for any `pass` and `fmt`.

  /** Every hit that passes, formatted, in order (no limit). */
  function Select<H, R>(pass: H -> bool, fmt: H -> R, raw: seq<H>): seq<R> {
    if raw == [] then []
    else if pass(raw[0]) then [fmt(raw[0])] + Select(pass, fmt, raw[1..])
    else Select(pass, fmt, raw[1..])
  }

  /** The loop from `acc` on: skip, append, and stop once `limit` results are in. */
  function SelectUpTo<H, R>(pass: H -> bool, fmt: H -> R, limit: int, raw: seq<H>, acc: seq<R>): seq<R>
    decreases |raw|
  {
    if raw == [] then acc
    else if !pass(raw[0]) then SelectUpTo(pass, fmt, limit, raw[1..], acc)
    else
      var acc' := acc + [fmt(raw[0])];
      if |acc'| >= limit then acc' else SelectUpTo(pass, fmt, limit, raw[1..], acc')
  }

  /** With fewer than `limit` results so far, the loop appends as many of the passing hits, in order, as fit. */
  lemma {:induction false} SelectUpToTakes<H, R>(pass: H -> bool, fmt: H -> R, limit: int, raw: seq<H>, acc: seq<R>)
    requires |acc| < limit
    ensures SelectUpTo(pass, fmt, limit, raw, acc)
            == acc + Select(pass, fmt, raw)[..Min(limit - |acc|, |Select(pass, fmt, raw)|)]
    decreases |raw|
  {
    if raw != [] {
      var rest := Select(pass, fmt, raw[1..]);
      if !pass(raw[0]) {
        SelectUpToTakes(pass, fmt, limit, raw[1..], acc);
      } else {
        var t := fmt(raw[0]);
        assert Select(pass, fmt, raw) == [t] + rest;
        if |acc| + 1 < limit {
          SelectUpToTakes(pass, fmt, limit, raw[1..], acc + [t]);
        }
        PrefixAfterHead(acc, t, rest, limit - |acc|);
      }
    }
  }

  /** Taking `k` from `[t] + rest` after `acc` is taking `t` and then `k - 1` from `rest`. */
  lemma PrefixAfterHead<T>(acc: seq<T>, t: T, rest: seq<T>, k: int)
    requires k >= 1
    ensures acc + [t] + rest[..Min(k - 1, |rest|)] == acc + ([t] + rest)[..Min(k, |rest| + 1)]
    ensures k == 1 ==> acc + [t] == acc + ([t] + rest)[..Min(k, |rest| + 1)]
  {
    var n := Min(k - 1, |rest|);
    assert ([t] + rest)[..n + 1] == [t] + rest[..n];
    assert acc + [t] + rest[..n] == acc + ([t] + rest[..n]);
  }

  /** Every selected result is the formatting of a hit that passes, so there are no more of them than hits. */
  lemma {:induction false} SelectFrom<H, R>(pass: H -> bool, fmt: H -> R, raw: seq<H>)
    ensures |Select(pass, fmt, raw)| <= |raw|
    ensures forall r :: r in Select(pass, fmt, raw) ==> exists h :: h in raw && pass(h) && r == fmt(h)
  {
    if raw != [] {
      SelectFrom(pass, fmt, raw[1..]);
      assert forall h :: h in raw[1..] ==> h in raw;
    }
  }

  /** Selecting from a concatenation selects from each part in turn. */
  lemma {:induction false} SelectAppend<H, R>(pass: H -> bool, fmt: H -> R, xs: seq<H>, ys: seq<H>)
    ensures Select(pass, fmt, xs + ys) == Select(pass, fmt, xs) + Select(pass, fmt, ys)
    decreases |xs|
  {
    if xs == [] {
      assert xs + ys == ys;
    } else {
      var zs := xs + ys;
      assert zs[0] == xs[0];
      assert zs[1..] == xs[1..] + ys;
      SelectAppend(pass, fmt, xs[1..], ys);
      if pass(xs[0]) {
        var t := [fmt(xs[0])];
        assert Select(pass, fmt, zs) == t + (Select(pass, fmt, xs[1..]) + Select(pass, fmt, ys));
        assert Select(pass, fmt, xs) == t + Select(pass, fmt, xs[1..]);
      }
    }
  }

  /** The selection from the first `n` hits, built from the back as the loop builds it. */
  function SelectPrefix<H, R>(pass: H -> bool, fmt: H -> R, raw: seq<H>, n: nat): seq<R>
    requires n <= |raw|
  {
    if n == 0 then []
    else SelectPrefix(pass, fmt, raw, n - 1) + (if pass(raw[n - 1]) then [fmt(raw[n - 1])] else [])
  }

  lemma {:induction false} SelectPrefixIsSelect<H, R>(pass: H -> bool, fmt: H -> R, raw: seq<H>, n: nat)
    requires n <= |raw|
    ensures SelectPrefix(pass, fmt, raw, n) == Select(pass, fmt, raw[..n])
  {
    if n > 0 {
      SelectPrefixIsSelect(pass, fmt, raw, n - 1);
      assert raw[..n] == raw[..n - 1] + [raw[n - 1]];
      SelectAppend(pass, fmt, raw[..n - 1], [raw[n - 1]]);
      assert [raw[n - 1]][1..] == [];
    }
  }

  /** Once the first `k` hits have yielded `limit` results, the loop's answer is exactly those. */
  lemma SelectUpToFull<H, R>(pass: H -> bool, fmt: H -> R, limit: int, raw: seq<H>, k: nat)
    requires k <= |raw| && limit >= 1
    requires |SelectPrefix(pass, fmt, raw, k)| == limit
    ensures SelectUpTo(pass, fmt, limit, raw, []) == SelectPrefix(pass, fmt, raw, k)
  {
    SelectPrefixIsSelect(pass, fmt, raw, k);
    var p := Select(pass, fmt, raw[..k]);
    assert raw == raw[..k] + raw[k..];
    SelectAppend(pass, fmt, raw[..k], raw[k..]);
    SelectUpToTakes(pass, fmt, limit, raw, []);
    assert (p + Select(pass, fmt, raw[k..]))[..limit] == p;
  }

  /** With fewer than `limit` passing hits in all, the loop's answer is all of them. */
  lemma SelectUpToShort<H, R>(pass: H -> bool, fmt: H -> R, limit: int, raw: seq<H>)
    requires |SelectPrefix(pass, fmt, raw, |raw|)| < limit
    ensures SelectUpTo(pass, fmt, limit, raw, []) == SelectPrefix(pass, fmt, raw, |raw|)
  {
    SelectPrefixIsSelect(pass, fmt, raw, |raw|);
    assert raw[..|raw|] == raw;
    SelectUpToTakes(pass, fmt, limit, raw, []);
    assert Select(pass, fmt, raw)[..|Select(pass, fmt, raw)|] == Select(pass, fmt, raw);
  }

  /** Every raw result that passes the filters, formatted, in store order (no limit). */
  function AllPassing(req: SearchRequest, raw: seq<(DocumentChunk, real)>): seq<SearchResult> {
    Select(PassTest(req, FileExt), Format(FileExt), raw)
  }

  /** The filter loop of `search_documents` from `acc` on. */
  function FilterLoop(req: SearchRequest, raw: seq<(DocumentChunk, real)>, acc: seq<SearchResult>): seq<SearchResult> {
    SelectUpTo(PassTest(req, FileExt), Format(FileExt), req.limit, raw, acc)
  }

  /** A hit that passes gives a result that meets the score, repository and file-type filters. */
  lemma PassingMeetsFilters(req: SearchRequest, hit: (DocumentChunk, real))
    requires Passes(req, FileExt, hit)
    ensures MeetsFilters(req, ToResult(FileExt, hit))
  {
  }

  /** What the response promises about each result. */
  predicate MeetsFilters(req: SearchRequest, r: SearchResult) {
    && r.similarityScore >= req.minScore
    && (Active(req.repoFilter) ==> r.repoName in req.repoFilter.value)
    && (Active(req.fileTypeFilter) ==> r.fileType in req.fileTypeFilter.value)
  }

  /**
   * The filter loop of `search_documents` over the raw hits, up to `limit`
   * results, for the extension function `ext` the handler passes
   * (`FileExt`).
   */
  method FilterHits(req: SearchRequest, raw: seq<(DocumentChunk, real)>, ext: string -> string)
    returns (filtered: seq<SearchResult>)
    requires req.limit >= 1
    ensures filtered == SelectUpTo(PassTest(req, ext), Format(ext), req.limit, raw, [])
  {
    filtered := [];
    var i := 0;
    while i < |raw|
      invariant 0 <= i <= |raw|
      invariant filtered == SelectPrefix(PassTest(req, ext), Format(ext), raw, i)
      invariant |filtered| < req.limit
    {
      var (chunk, score) := raw[i];
      if score < req.minScore {
        i := i + 1;
        continue;
      }
      if Active(req.repoFilter) && chunk.repoName !in req.repoFilter.value {
        i := i + 1;
        continue;
      }
      var fileExt := ext(chunk.sourceFile);
      if Active(req.fileTypeFilter) && fileExt !in req.fileTypeFilter.value {
        i := i + 1;
        continue;
      }
      assert PassTest(req, ext)(raw[i]);
      filtered := filtered + [SearchResult(chunk.chunkId, chunk.content, chunk.sourceFile, chunk.repoName,
                                           fileExt, score, chunk.metadata)];
      if |filtered| >= req.limit {
        SelectUpToFull(PassTest(req, ext), Format(ext), req.limit, raw, i + 1);
        break;
      }
      i := i + 1;
    }
    if |filtered| < req.limit {
      SelectUpToShort(PassTest(req, ext), Format(ext), req.limit, raw);
    }
  }

  /** `search_documents` for a request pydantic accepted; `search` answers `vector_store.search(encode(query), k)`. */
  method SearchDocuments(componentsLoaded: bool, req: SearchRequest,
                         search: (string, int) -> Result<seq<(DocumentChunk, real)>>)
    returns (resp: Response<SearchResponse>)
    requires ValidRequest(req)
    ensures !componentsLoaded ==> resp == HttpError(503, "Search components not loaded")
    ensures componentsLoaded && Blank(req.query) ==> resp == HttpError(400, "Query cannot be empty")
    ensures componentsLoaded && !Blank(req.query) ==>
              match search(req.query, req.limit * 2)
              case Err(e) => resp == HttpError(500, "Search failed: " + e)
              case Ok(raw) => resp == Body(SearchResponse(req.query, FilterLoop(req, raw, []),
                                                          |FilterLoop(req, raw, [])|))
  {
    if !componentsLoaded {
      return HttpError(503, "Search components not loaded");
    }
    StripEmptyIffBlank(req.query);
    if Strip(req.query) == [] {
      return HttpError(400, "Query cannot be empty");
    }
    var answer := search(req.query, req.limit * 2);
    if answer.Err? {
      return HttpError(500, "Search failed: " + answer.error);
    }
    var filtered := FilterHits(req, answer.value, FileExt);
    return Body(SearchResponse(req.query, filtered, |filtered|));
  }

  /**
   * What a successful search returns: the first `limit` raw results that
   * pass the filters, in store order, each satisfying them.
   */
  lemma SearchResults(req: SearchRequest, raw: seq<(DocumentChunk, real)>)
    requires ValidRequest(req)
    ensures FilterLoop(req, raw, []) == AllPassing(req, raw)[..Min(req.limit, |AllPassing(req, raw)|)]
    ensures |FilterLoop(req, raw, [])| <= req.limit
    ensures forall r :: r in FilterLoop(req, raw, []) ==> MeetsFilters(req, r)
  {
    var all := AllPassing(req, raw);
    var n := Min(req.limit, |all|);
    assert FilterLoop(req, raw, []) == all[..n] by {
      SelectUpToTakes(PassTest(req, FileExt), Format(FileExt), req.limit, raw, []);
    }
    assert forall r :: r in all ==> MeetsFilters(req, r) by {
      AllPassingMeetsFilters(req, raw);
    }
    assert forall r :: r in all[..n] ==> r in all;
  }

  /** Every passing result meets the filters. */
  lemma AllPassingMeetsFilters(req: SearchRequest, raw: seq<(DocumentChunk, real)>)
    ensures forall r :: r in AllPassing(req, raw) ==> MeetsFilters(req, r)
  {
    SelectFrom(PassTest(req, FileExt), Format(FileExt), raw);
    forall r | r in AllPassing(req, raw) ensures MeetsFilters(req, r) {
      var h :| h in raw && PassTest(req, FileExt)(h) && r == Format(FileExt)(h);
      PassingMeetsFilters(req, h);
    }
  }

  /** `repo.split(',') if repo else None`. */
  function ParamList(param: Option<string>): (r: Option<seq<string>>)
    ensures param.None? || param.value == "" ==> r.None?
    ensures r.Some? ==> Join(",", r.value) == param.value
  {
    if param.None? || param.value == "" then None
    else
      JoinSplitOn(param.value, ',');
      Some(SplitOn(param.value, ','))
  }

  /** The request `search_documents_get` builds from its query parameters. */
  function GetRequest(q: string, limit: int, minScore: real, repo: Option<string>, fileType: Option<string>): SearchRequest {
    SearchRequest(q, limit, minScore, ParamList(repo), ParamList(fileType))
  }

  /** `search_documents_get`: split the comma-separated filters and run the POST handler. */
  method SearchDocumentsGet(componentsLoaded: bool, q: string,
                            search: (string, int) -> Result<seq<(DocumentChunk, real)>>,
                            limit: int := 10, minScore: real := 0.0,
                            repo: Option<string> := None, fileType: Option<string> := None)
    returns (resp: Response<SearchResponse>)
    requires 1 <= limit <= 100 && 0.0 <= minScore <= 1.0
    ensures !componentsLoaded ==> resp == HttpError(503, "Search components not loaded")
    ensures componentsLoaded && Blank(q) ==> resp == HttpError(400, "Query cannot be empty")
    ensures componentsLoaded && !Blank(q) && search(q, limit * 2).Err? ==>
              resp == HttpError(500, "Search failed: " + search(q, limit * 2).error)
    ensures componentsLoaded && !Blank(q) && search(q, limit * 2).Ok? ==>
              resp == Body(SearchResponse(q, FilterLoop(GetRequest(q, limit, minScore, repo, fileType),
                                                        search(q, limit * 2).value, []),
                                          |FilterLoop(GetRequest(q, limit, minScore, repo, fileType),
                                                      search(q, limit * 2).value, [])|))
  {
    var request := GetRequest(q, limit, minScore, repo, fileType);
    resp := SearchDocuments(componentsLoaded, request, search);
  }

  /** One entry of the `files` list of `get_repository_info`. */
  datatype RepoFile = RepoFile(path: string, hash: string, processedAt: string, chunkCount: nat)

  /** The body of `get_repository_info`, with the file list as a set (the dict order is not kept). */
  datatype RepositoryInfo = RepositoryInfo(name: string, files: set<RepoFile>, totalFiles: nat, totalChunks: nat)

  /** The keys of `files` that start with `repo_name/`. */
  function KeysUnder(files: map<string, FileInfo>, repoName: string): set<string> {
    set k | k in files && StartsWith(k, repoName + "/")
  }

  /** The listing entry for one key: the path after the prefix and the stored file fields. */
  function Entry(files: map<string, FileInfo>, prefix: string, k: string): RepoFile
    requires k in files && StartsWith(k, prefix)
  {
    RepoFile(k[|prefix|..], files[k].fileHash, files[k].processedAt, files[k].chunkCount)
  }

  /** The entries for a set of keys under `prefix`. */
  function Entries(files: map<string, FileInfo>, prefix: string, keys: set<string>): set<RepoFile>
    requires forall k :: k in keys ==> k in files && StartsWith(k, prefix)
  {
    set k | k in keys :: Entry(files, prefix, k)
  }

  /** The file entries of `files` under `repo_name/`. */
  function RepoFiles(files: map<string, FileInfo>, repoName: string): set<RepoFile> {
    Entries(files, repoName + "/", KeysUnder(files, repoName))
  }

  /** The keys of `seen` under `prefix`. */
  function Under(seen: set<string>, prefix: string): set<string> {
    set k | k in seen && StartsWith(k, prefix)
  }

  lemma UnderStep(seen: set<string>, key: string, prefix: string)
    ensures Under(seen + {key}, prefix) == if StartsWith(key, prefix) then Under(seen, prefix) + {key} else Under(seen, prefix)
  {
  }

  lemma EntriesStep(files: map<string, FileInfo>, prefix: string, keys: set<string>, key: string)
    requires forall k :: k in keys ==> k in files && StartsWith(k, prefix)
    requires key in files && StartsWith(key, prefix)
    ensures Entries(files, prefix, keys + {key}) == Entries(files, prefix, keys) + {Entry(files, prefix, key)}
  {
  }

  /** The listing loop of `get_repository_info` over the stored file keys. */
  method ListRepoFiles(files: map<string, FileInfo>, prefix: string) returns (listed: set<RepoFile>, count: nat)
    ensures listed == Entries(files, prefix, Under(files.Keys, prefix))
    ensures count == |Under(files.Keys, prefix)|
  {
    listed := {};
    ghost var seen: set<string> := {};
    count := 0;
    var remaining := files.Keys;
    while remaining != {}
      invariant remaining <= files.Keys
      invariant seen == files.Keys - remaining
      invariant listed == Entries(files, prefix, Under(seen, prefix))
      invariant count == |Under(seen, prefix)|
      decreases |remaining|
    {
      var key :| key in remaining;
      UnderStep(seen, key, prefix);
      if StartsWith(key, prefix) {
        var info := files[key];
        EntriesStep(files, prefix, Under(seen, prefix), key);
        listed := listed + {RepoFile(key[|prefix|..], info.fileHash, info.processedAt, info.chunkCount)};
        count := count + 1;
      }
      remaining := remaining - {key};
      seen := seen + {key};
    }
    assert seen == files.Keys;
  }

  /** `get_repository_info`: 503 without a store, 404 for a repo the stats do not list, else its files and counts. */
  method GetRepositoryInfo(store: VectorStore?, repoName: string) returns (resp: Response<RepositoryInfo>)
    ensures store == null ==> resp == HttpError(503, "Vector store not loaded")
    ensures store != null && repoName !in store.metadata.repos ==> resp == HttpError(404, "Repository not found")
    ensures store != null && repoName in store.metadata.repos ==>
              && resp.Body?
              && resp.body.name == repoName
              && resp.body.files == RepoFiles(store.metadata.files, repoName)
              && resp.body.totalFiles == |KeysUnder(store.metadata.files, repoName)|
              && resp.body.totalChunks == store.metadata.repos[repoName].totalChunks
  {
    if store == null {
      return HttpError(503, "Vector store not loaded");
    }
    var stats := store.GetStats();
    if repoName !in stats.repos {
      return HttpError(404, "Repository not found");
    }
    var listed, count := ListRepoFiles(store.metadata.files, repoName + "/");
    assert Under(store.metadata.files.Keys, repoName + "/") == KeysUnder(store.metadata.files, repoName);
    return Body(RepositoryInfo(repoName, listed, count, stats.repos[repoName].chunks));
  }

  /** The listing has one entry per matching key, so `total_files` is its size. */
  lemma RepoFilesCount(files: map<string, FileInfo>, repoName: string)
    ensures |RepoFiles(files, repoName)| == |KeysUnder(files, repoName)|
  {
    EntriesCount(files, repoName + "/", KeysUnder(files, repoName));
  }

  lemma EntriesCount(files: map<string, FileInfo>, prefix: string, keys: set<string>)
    requires forall k :: k in keys ==> k in files && StartsWith(k, prefix)
    ensures |Entries(files, prefix, keys)| == |keys|
    decreases |keys|
  {
    if keys != {} {
      var x :| x in keys;
      var rest := keys - {x};
      EntriesCount(files, prefix, rest);
      EntriesStep(files, prefix, rest, x);
      assert rest + {x} == keys;
      assert Entry(files, prefix, x) !in Entries(files, prefix, rest) by {
        forall k | k in rest ensures Entry(files, prefix, k) != Entry(files, prefix, x) {
          assert k == prefix + k[|prefix|..];
          assert x == prefix + x[|prefix|..];
        }
      }
    }
  }
}
