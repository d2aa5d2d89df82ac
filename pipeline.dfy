/**
 * The ingestion driver: which repositories run, how the file list and the
 * repository list are cut into batches, how `process_repository` counts
 * skipped, processed and failed files, and how `main_async` adds up the
 * per-repository results and picks the exit status. The processor and the
 * store are collaborators passed in as functions; every batch runs in
 * order.
 */
module Pipeline {
  import opened Wrappers
  import opened Text
  import opened DocProcessor
  import opened Store

  // ----- repository selection -----

  /** One entry of `config['repositories']`; a key the file leaves out is None. */
  datatype RepoConfig = RepoConfig(name: Option<string>, url: Option<string>, enabled: Option<bool>)

  /** `should_process_repo`: enabled (by default) and, when targets are given, named among them. */
  function ShouldProcessRepo(cfg: RepoConfig, targets: seq<string>): (r: bool)
    ensures r <==> cfg.enabled.GetOr(true) && (targets != [] ==> cfg.name.GetOr("") in targets)
  {
    if !cfg.enabled.GetOr(true) then false
    else if targets != [] then cfg.name.GetOr("") in targets
    else true
  }

  /** `[repo for repo in repositories if should_process_repo(repo, targets)]`. */
  function Selected(repos: seq<RepoConfig>, targets: seq<string>): seq<RepoConfig> {
    if repos == [] then []
    else (if ShouldProcessRepo(repos[0], targets) then [repos[0]] else []) + Selected(repos[1..], targets)
  }

  /** `[s.strip() for s in pieces if s.strip()]`. */
  function StrippedNonEmpty(pieces: seq<string>): seq<string> {
    if pieces == [] then []
    else (if Strip(pieces[0]) != [] then [Strip(pieces[0])] else []) + StrippedNonEmpty(pieces[1..])
  }

  /** The `--target-repos` argument parsed: comma-separated, stripped, empty entries dropped. */
  function TargetRepos(arg: string): seq<string> {
    StrippedNonEmpty(SplitOn(arg, ','))
  }

  lemma StripTrimmed(s: string)
    requires Trimmed(s)
    ensures Strip(s) == s
  {
  }

  lemma {:induction false} StrippedNonEmptyFacts(pieces: seq<string>)
    requires forall i :: 0 <= i < |pieces| ==> ',' !in pieces[i]
    ensures forall i :: 0 <= i < |StrippedNonEmpty(pieces)| ==>
              Trimmed(StrippedNonEmpty(pieces)[i]) && ',' !in StrippedNonEmpty(pieces)[i]
  {
    if pieces != [] {
      StrippedNonEmptyFacts(pieces[1..]);
      var p := pieces[0];
      if Strip(p) != [] {
        TrimmedStrip(p);
        LStripFacts(p);
        RStripFacts(LStrip(p));
        assert forall c :: c in Strip(p) ==> c in LStrip(p);
        assert forall c :: c in LStrip(p) ==> c in p;
      }
    }
  }

  /** Every parsed target is a non-empty stripped name without a comma. */
  lemma TargetReposFacts(arg: string)
    ensures forall i :: 0 <= i < |TargetRepos(arg)| ==> Trimmed(TargetRepos(arg)[i]) && ',' !in TargetRepos(arg)[i]
  {
    SplitOnPieces(arg, ',');
    StrippedNonEmptyFacts(SplitOn(arg, ','));
  }

  lemma {:induction false} StrippedTrimmed(names: seq<string>)
    requires forall i :: 0 <= i < |names| ==> Trimmed(names[i])
    ensures StrippedNonEmpty(names) == names
  {
    if names != [] {
      StripTrimmed(names[0]);
      StrippedTrimmed(names[1..]);
    }
  }

  /** Joining stripped comma-free names with commas and parsing the result gives the names back. */
  lemma TargetReposJoin(names: seq<string>)
    requires forall i :: 0 <= i < |names| ==> Trimmed(names[i]) && ',' !in names[i]
    ensures TargetRepos(Join(",", names)) == names
  {
    if names == [] {
      assert SplitOn("", ',') == [""];
    } else {
      SplitOnJoin(names, ',');
      StrippedTrimmed(names);
    }
  }

  // ----- batching: `for i in range(0, len(xs), size): xs[i:i + size]` -----

  function BatchesFrom<T>(xs: seq<T>, start: nat, size: nat): seq<seq<T>>
    requires size > 0
    decreases |xs| - start
  {
    if start >= |xs| then []
    else [xs[start..Min(start + size, |xs|)]] + BatchesFrom(xs, start + size, size)
  }

  /** The slices `range(0, len(xs), size)` produces; a negative step gives none. */
  function Batches<T>(xs: seq<T>, size: int): seq<seq<T>>
    requires size != 0
  {
    if size < 0 then [] else BatchesFrom(xs, 0, size)
  }

  function Flatten<T>(bs: seq<seq<T>>): seq<T> {
    if bs == [] then [] else bs[0] + Flatten(bs[1..])
  }

  lemma {:induction false} BatchesFromFacts<T>(xs: seq<T>, start: nat, size: nat)
    requires size > 0
    requires start <= |xs|
    ensures Flatten(BatchesFrom(xs, start, size)) == xs[start..]
    ensures forall j :: 0 <= j < |BatchesFrom(xs, start, size)| ==> 1 <= |BatchesFrom(xs, start, size)[j]| <= size
    ensures |BatchesFrom(xs, start, size)| == (|xs| - start + size - 1) / size
  {
    BatchesFromFlatten(xs, start, size);
    BatchesFromSizes(xs, start, size);
    BatchesFromCount(xs, start, size);
  }

  lemma {:induction false} BatchesFromFlatten<T>(xs: seq<T>, start: nat, size: nat)
    requires size > 0
    requires start <= |xs|
    ensures Flatten(BatchesFrom(xs, start, size)) == xs[start..]
    decreases |xs| - start
  {
    if start < |xs| {
      var stop := Min(start + size, |xs|);
      var bs := BatchesFrom(xs, start, size);
      assert bs[1..] == BatchesFrom(xs, start + size, size);
      if start + size <= |xs| {
        BatchesFromFlatten(xs, start + size, size);
        assert xs[start..] == xs[start..stop] + xs[start + size..];
      } else {
        assert xs[start..] == xs[start..stop];
      }
    }
  }

  lemma {:induction false} BatchesFromSizes<T>(xs: seq<T>, start: nat, size: nat)
    requires size > 0
    ensures forall j :: 0 <= j < |BatchesFrom(xs, start, size)| ==> 1 <= |BatchesFrom(xs, start, size)[j]| <= size
    decreases |xs| - start
  {
    if start < |xs| {
      var bs := BatchesFrom(xs, start, size);
      var later := BatchesFrom(xs, start + size, size);
      assert bs == [xs[start..Min(start + size, |xs|)]] + later;
      BatchesFromSizes(xs, start + size, size);
      forall j | 0 <= j < |bs| ensures 1 <= |bs[j]| <= size {
        if j > 0 {
          assert bs[j] == later[j - 1];
        }
      }
    }
  }

  lemma {:induction false} BatchesFromCount<T>(xs: seq<T>, start: nat, size: nat)
    requires size > 0
    requires start <= |xs|
    ensures |BatchesFrom(xs, start, size)| == BatchCount(|xs| - start, size)
    decreases |xs| - start
  {
    if start < |xs| {
      assert |BatchesFrom(xs, start, size)| == 1 + |BatchesFrom(xs, start + size, size)|;
      if start + size <= |xs| {
        BatchesFromCount(xs, start + size, size);
        BatchCountStep(|xs| - start, size);
      } else {
        assert BatchesFrom(xs, start + size, size) == [];
        BatchCountLast(|xs| - start, size);
      }
    } else {
      BatchCountZero(size);
    }
  }

  /** `(n + size - 1) // size`, the number of batches of `size` in `n` items. */
  function BatchCount(n: int, size: int): int
    requires size > 0
  {
    (n + size - 1) / size
  }

  lemma BatchCountZero(size: int)
    requires size > 0
    ensures BatchCount(0, size) == 0
  {
    DivSmall(size - 1, size);
  }

  lemma BatchCountLast(n: int, size: int)
    requires size > 0 && 1 <= n <= size
    ensures BatchCount(n, size) == 1
  {
    DivSmall(n - 1, size);
    DivStep(n - 1, size);
  }

  lemma BatchCountStep(n: int, size: int)
    requires size > 0 && n >= size
    ensures BatchCount(n, size) == 1 + BatchCount(n - size, size)
  {
    DivStep(n - 1, size);
  }

  lemma DivSmall(a: int, s: int)
    requires 0 <= a < s
    ensures a / s == 0
  {
    var q, r := a / s, a % s;
    assert a == q * s + r;
    MulSign(q, s);
  }

  lemma DivStep(a: int, s: int)
    requires a >= 0 && s > 0
    ensures (a + s) / s == a / s + 1
  {
    var q, r := a / s, a % s;
    var q2, r2 := (a + s) / s, (a + s) % s;
    var k := q2 - q - 1;
    assert k * s == r - r2 by {
      assert a == q * s + r && a + s == q2 * s + r2;
      assert k * s == q2 * s - q * s - s;
    }
    MulSign(k, s);
    assert k == 0;
  }

  lemma MulSign(k: int, s: int)
    requires s > 0
    ensures k >= 1 ==> k * s >= s
    ensures k <= -1 ==> k * s <= -s
  {
    if k >= 1 {
      assert k * s == s + (k - 1) * s;
    } else if k <= -1 {
      assert k * s == -s + (k + 1) * s;
    }
  }

  /**
   * Batching covers the list exactly once and in order, with every batch
   * holding between 1 and `size` items; their number is the
   * `(len + size - 1) // size` the progress line reports.
   */
  lemma BatchesCover<T>(xs: seq<T>, size: int)
    requires size > 0
    ensures Flatten(Batches(xs, size)) == xs
    ensures forall j :: 0 <= j < |Batches(xs, size)| ==> 1 <= |Batches(xs, size)[j]| <= size
    ensures |Batches(xs, size)| == (|xs| + size - 1) / size
  {
    BatchesFromFacts(xs, 0, size);
    assert xs[0..] == xs;
  }

  // ----- process_repository -----

  /** What `download_file_from_github_async` hands back through `gather`: a path, another value, or an exception. */
  datatype Downloaded = LocalPath(path: string) | NotAPath | DownloadRaised(message: string)

  /** The processor and store calls `process_repository` makes, for one repository. */
  datatype Collaborators = Collaborators(
    processRepository: Result<seq<DocumentChunk>>,
    repoFiles: Result<seq<string>>,
    download: string -> Downloaded,
    fileHash: string -> Result<string>,
    fileStatus: (string, string, string) -> FileStatus,
    processFile: string -> Result<seq<DocumentChunk>>)

  /** The dictionary `process_repository` returns. */
  datatype RepoResult = RepoResult(repoName: string, filesProcessed: nat, chunksAdded: nat,
                                   filesUpdated: nat, filesSkipped: nat, errors: seq<string>)

  /** The counters of one run, the local files handed to processing and the chunk lists given to `add_chunks`. */
  datatype Tally = Tally(processed: nat, chunks: nat, skipped: nat, errors: seq<string>,
                         handed: seq<string>, stored: seq<seq<DocumentChunk>>)

  const NoTally := Tally(0, 0, 0, [], [], [])

  /** A tally during the check loop of one batch, with the files queued for processing. */
  datatype Checked = Checked(tally: Tally, tasks: seq<string>)

  /** A run of `process_repository`: its result (Err when the task raised) and what it handed on. */
  datatype Run = Run(result: Result<RepoResult>, handed: seq<string>, stored: seq<seq<DocumentChunk>>)

  function CheckError(path: string, e: string): string { "Error checking " + path + ": " + e }
  function ProcessError(path: string, e: string): string { "Error processing " + path + ": " + e }
  function RepoError(name: string, e: string): string { "Error processing repository " + name + ": " + e }

  /** The check of one downloaded file: skip it when unchanged, queue it otherwise. */
  function CheckFile(env: Collaborators, repo: string, c: Checked, path: string): Checked {
    match env.download(path)
    case LocalPath(local) =>
      if local == "" then c
      else (
        match env.fileHash(local)
        case Err(e) => c.(tally := c.tally.(errors := c.tally.errors + [CheckError(path, e)]))
        case Ok(h) =>
          if env.fileStatus(path, repo, h) == Unchanged then c.(tally := c.tally.(skipped := c.tally.skipped + 1))
          else c.(tasks := c.tasks + [local]))
    case _ => c
  }

  function CheckAll(env: Collaborators, repo: string, c: Checked, batch: seq<string>): Checked
    decreases |batch|
  {
    if batch == [] then c else CheckAll(env, repo, CheckFile(env, repo, c, batch[0]), batch[1..])
  }

  /** One processing result: a non-empty list is stored and counted, an exception is recorded. */
  function CollectOne(t: Tally, out: Result<seq<DocumentChunk>>, path: string): Tally {
    match out
    case Ok(cs) =>
      if cs != [] then t.(processed := t.processed + 1, chunks := t.chunks + |cs|, stored := t.stored + [cs]) else t
    case Err(e) => t.(errors := t.errors + [ProcessError(path, e)])
  }

  /** `zip(batch_chunks, batch_files)`: results are labelled by position in the batch. */
  function Collect(t: Tally, outs: seq<Result<seq<DocumentChunk>>>, labels: seq<string>): Tally
    decreases |outs|
  {
    if outs == [] || labels == [] then t else Collect(CollectOne(t, outs[0], labels[0]), outs[1..], labels[1..])
  }

  function Outputs(env: Collaborators, tasks: seq<string>): seq<Result<seq<DocumentChunk>>> {
    seq(|tasks|, j requires 0 <= j < |tasks| => env.processFile(tasks[j]))
  }

  /** One batch of the incremental mode: check every file, then process the queued ones. */
  function RunBatch(env: Collaborators, repo: string, t: Tally, batch: seq<string>): Tally {
    var c := CheckAll(env, repo, Checked(t, []), batch);
    var t1 := c.tally.(handed := c.tally.handed + c.tasks);
    if c.tasks == [] then t1 else Collect(t1, Outputs(env, c.tasks), batch)
  }

  function RunBatches(env: Collaborators, repo: string, t: Tally, batches: seq<seq<string>>): Tally
    decreases |batches|
  {
    if batches == [] then t else RunBatches(env, repo, RunBatch(env, repo, t, batches[0]), batches[1..])
  }

  const FileBatchSize: nat := 10

  function FromTally(name: string, t: Tally): RepoResult {
    RepoResult(name, t.processed, t.chunks, 0, t.skipped, t.errors)
  }

  /** What `process_repository` does for one configuration entry. */
  function RepoRun(cfg: RepoConfig, forceRebuild: bool, env: Collaborators): Run {
    if cfg.name.None? || cfg.url.None? then Run(Err("KeyError"), [], [])
    else
      var name := cfg.name.value;
      if forceRebuild then
        match env.processRepository
        case Err(e) => Run(Ok(RepoResult(name, 0, 0, 0, 0, [RepoError(name, e)])), [], [])
        case Ok(cs) =>
          if cs == [] then Run(Ok(RepoResult(name, 0, 0, 0, 0, [])), [], [])
          else Run(Ok(RepoResult(name, |set c | c in cs :: c.sourceFile|, |cs|, 0, 0, [])), [], [cs])
      else
        match env.repoFiles
        case Err(e) => Run(Ok(RepoResult(name, 0, 0, 0, 0, [RepoError(name, e)])), [], [])
        case Ok(files) =>
          var t := RunBatches(env, name, NoTally, Batches(files, FileBatchSize));
          Run(Ok(FromTally(name, t)), t.handed, t.stored)
  }

  /** The check loop of one batch. */
  method CheckBatch(env: Collaborators, repo: string, t: Tally, batch: seq<string>) returns (c: Checked)
    ensures c == CheckAll(env, repo, Checked(t, []), batch)
  {
    var downloads := seq(|batch|, k requires 0 <= k < |batch| => env.download(batch[k]));
    c := Checked(t, []);
    var k := 0;
    while k < |batch|
      invariant 0 <= k <= |batch|
      invariant CheckAll(env, repo, c, batch[k..]) == CheckAll(env, repo, Checked(t, []), batch)
      decreases |batch| - k
    {
      assert batch[k..][1..] == batch[k + 1..];
      var path := batch[k];
      match downloads[k] {
      case LocalPath(local) =>
        if local != "" {
          match env.fileHash(local)
          case Err(e) =>
            c := c.(tally := c.tally.(errors := c.tally.errors + [CheckError(path, e)]));
          case Ok(h) =>
            if env.fileStatus(path, repo, h) == Unchanged {
              c := c.(tally := c.tally.(skipped := c.tally.skipped + 1));
            } else {
              c := c.(tasks := c.tasks + [local]);
            }
        }
      case NotAPath =>
      case DownloadRaised(_) =>
      }
      k := k + 1;
    }
  }

  /** The result loop of one batch. */
  method CollectBatch(t: Tally, outs: seq<Result<seq<DocumentChunk>>>, labels: seq<string>) returns (t': Tally)
    ensures t' == Collect(t, outs, labels)
  {
    t' := t;
    var j := 0;
    while j < |outs| && j < |labels|
      invariant 0 <= j <= |outs| && j <= |labels|
      invariant Collect(t', outs[j..], labels[j..]) == Collect(t, outs, labels)
      decreases |outs| - j
    {
      assert outs[j..][1..] == outs[j + 1..];
      assert labels[j..][1..] == labels[j + 1..];
      match outs[j] {
      case Ok(cs) =>
        if cs != [] {
          t' := t'.(processed := t'.processed + 1, chunks := t'.chunks + |cs|, stored := t'.stored + [cs]);
        }
      case Err(e) =>
        t' := t'.(errors := t'.errors + [ProcessError(labels[j], e)]);
      }
      j := j + 1;
    }
  }

  /**
   * `process_repository`: a missing `name` or `url` raises; with
   * `force_rebuild` the whole repository is processed at once; otherwise the
   * files go in batches of 10 through the check and processing loops.
   */
  method ProcessRepository(cfg: RepoConfig, forceRebuild: bool, env: Collaborators) returns (run: Run)
    ensures run == RepoRun(cfg, forceRebuild, env)
  {
    if cfg.name.None? || cfg.url.None? {
      return Run(Err("KeyError"), [], []);
    }
    var name := cfg.name.value;
    if forceRebuild {
      match env.processRepository
      case Err(e) =>
        return Run(Ok(RepoResult(name, 0, 0, 0, 0, [RepoError(name, e)])), [], []);
      case Ok(cs) =>
        if cs == [] {
          return Run(Ok(RepoResult(name, 0, 0, 0, 0, [])), [], []);
        }
        return Run(Ok(RepoResult(name, |set c | c in cs :: c.sourceFile|, |cs|, 0, 0, [])), [], [cs]);
    }
    match env.repoFiles
    case Err(e) =>
      return Run(Ok(RepoResult(name, 0, 0, 0, 0, [RepoError(name, e)])), [], []);
    case Ok(files) =>
      var t := NoTally;
      var i := 0;
      while i < |files|
        invariant RunBatches(env, name, t, BatchesFrom(files, i, FileBatchSize))
                  == RunBatches(env, name, NoTally, Batches(files, FileBatchSize))
        decreases |files| - i
      {
        var batch := files[i..Min(i + FileBatchSize, |files|)];
        var c := CheckBatch(env, name, t, batch);
        t := c.tally.(handed := c.tally.handed + c.tasks);
        if c.tasks != [] {
          var outs := Outputs(env, c.tasks);
          t := CollectBatch(t, outs, batch);
        }
        i := i + FileBatchSize;
      }
      return Run(Ok(FromTally(name, t)), t.handed, t.stored);
  }

  // ----- properties of process_repository -----

  function SumLens(ls: seq<seq<DocumentChunk>>): nat {
    if ls == [] then 0 else SumLens(ls[..|ls| - 1]) + |ls[|ls| - 1]|
  }

  /** The counters agree with what was stored: one processed file per non-empty list, chunks summed. */
  predicate Consistent(t: Tally) {
    && t.processed == |t.stored|
    && t.chunks == SumLens(t.stored)
    && forall i :: 0 <= i < |t.stored| ==> t.stored[i] != []
  }

  lemma CollectOneConsistent(t: Tally, out: Result<seq<DocumentChunk>>, path: string)
    requires Consistent(t)
    ensures Consistent(CollectOne(t, out, path))
  {
    if out.Ok? && out.value != [] {
      var s := t.stored + [out.value];
      assert s[..|s| - 1] == t.stored;
    }
  }

  lemma {:induction false} CollectConsistent(t: Tally, outs: seq<Result<seq<DocumentChunk>>>, labels: seq<string>)
    requires Consistent(t)
    ensures Consistent(Collect(t, outs, labels))
    decreases |outs|
  {
    if outs != [] && labels != [] {
      CollectOneConsistent(t, outs[0], labels[0]);
      CollectConsistent(CollectOne(t, outs[0], labels[0]), outs[1..], labels[1..]);
    }
  }

  lemma {:induction false} CheckAllKeeps(env: Collaborators, repo: string, c: Checked, batch: seq<string>)
    ensures CheckAll(env, repo, c, batch).tally.processed == c.tally.processed
    ensures CheckAll(env, repo, c, batch).tally.chunks == c.tally.chunks
    ensures CheckAll(env, repo, c, batch).tally.stored == c.tally.stored
    ensures CheckAll(env, repo, c, batch).tally.handed == c.tally.handed
    decreases |batch|
  {
    if batch != [] {
      CheckAllKeeps(env, repo, CheckFile(env, repo, c, batch[0]), batch[1..]);
    }
  }

  lemma {:induction false} RunBatchesConsistent(env: Collaborators, repo: string, t: Tally, bs: seq<seq<string>>)
    requires Consistent(t)
    ensures Consistent(RunBatches(env, repo, t, bs))
    decreases |bs|
  {
    if bs != [] {
      var c := CheckAll(env, repo, Checked(t, []), bs[0]);
      CheckAllKeeps(env, repo, Checked(t, []), bs[0]);
      var t1 := c.tally.(handed := c.tally.handed + c.tasks);
      assert Consistent(t1);
      if c.tasks != [] {
        CollectConsistent(t1, Outputs(env, c.tasks), bs[0]);
      }
      RunBatchesConsistent(env, repo, RunBatch(env, repo, t, bs[0]), bs[1..]);
    }
  }

  /**
   * The counters of a run: `files_updated` stays 0, and each non-empty list
   * handed to `add_chunks` counts one processed file and its length in chunks.
   */
  lemma RepoRunCounters(cfg: RepoConfig, forceRebuild: bool, env: Collaborators)
    ensures var run := RepoRun(cfg, forceRebuild, env);
            run.result.Ok? ==>
              && run.result.value.filesUpdated == 0
              && run.result.value.chunksAdded == SumLens(run.stored)
              && (forall i :: 0 <= i < |run.stored| ==> run.stored[i] != [])
              && (!forceRebuild ==> run.result.value.filesProcessed == |run.stored|)
  {
    if cfg.name.Some? && cfg.url.Some? {
      if forceRebuild {
        if env.processRepository.Ok? && env.processRepository.value != [] {
          assert [env.processRepository.value][..0] == [];
        }
      } else if env.repoFiles.Ok? {
        RunBatchesConsistent(env, cfg.name.value, NoTally, Batches(env.repoFiles.value, FileBatchSize));
      }
    }
  }

  // ----- the error list of process_repository -----

  /** How many processing results are exceptions. */
  function ErrCount(outs: seq<Result<seq<DocumentChunk>>>): nat {
    if outs == [] then 0 else (if outs[0].Err? then 1 else 0) + ErrCount(outs[1..])
  }

  /** Collecting keeps the earlier errors and adds one message per exception among the results zipped with a label. */
  lemma {:induction false} CollectErrors(t: Tally, outs: seq<Result<seq<DocumentChunk>>>, labels: seq<string>)
    ensures |Collect(t, outs, labels).errors| == |t.errors| + ErrCount(outs[..Min(|outs|, |labels|)])
    ensures Collect(t, outs, labels).errors[..|t.errors|] == t.errors
    decreases |outs|
  {
    var m := Min(|outs|, |labels|);
    if m > 0 {
      var t1 := CollectOne(t, outs[0], labels[0]);
      CollectErrors(t1, outs[1..], labels[1..]);
      assert outs[..m][0] == outs[0];
      assert outs[..m][1..] == outs[1..][..Min(|outs[1..]|, |labels[1..]|)];
      assert t1.errors[..|t.errors|] == t.errors;
    }
  }

  /** The check of `path` records "Error checking": it downloaded to a local path, but hashing that path raised. */
  predicate HashFails(env: Collaborators, path: string) {
    && env.download(path).LocalPath?
    && env.download(path).path != ""
    && env.fileHash(env.download(path).path).Err?
  }

  /** The check of `path` queues its local copy: downloaded, hashed, and not reported unchanged. */
  predicate Queues(env: Collaborators, repo: string, path: string) {
    && env.download(path).LocalPath?
    && env.download(path).path != ""
    && env.fileHash(env.download(path).path).Ok?
    && env.fileStatus(path, repo, env.fileHash(env.download(path).path).value) != Unchanged
  }

  function HashErrors(env: Collaborators, batch: seq<string>): nat {
    if batch == [] then 0 else (if HashFails(env, batch[0]) then 1 else 0) + HashErrors(env, batch[1..])
  }

  /** The local copies a batch queues, in batch order. */
  function Queued(env: Collaborators, repo: string, batch: seq<string>): seq<string> {
    if batch == [] then []
    else (if Queues(env, repo, batch[0]) then [env.download(batch[0]).path] else []) + Queued(env, repo, batch[1..])
  }

  /** The check loop queues exactly `Queued` and records one error per failed hash. */
  lemma {:induction false} CheckAllErrors(env: Collaborators, repo: string, c: Checked, batch: seq<string>)
    ensures CheckAll(env, repo, c, batch).tasks == c.tasks + Queued(env, repo, batch)
    ensures |CheckAll(env, repo, c, batch).tally.errors| == |c.tally.errors| + HashErrors(env, batch)
    ensures |Queued(env, repo, batch)| <= |batch|
    decreases |batch|
  {
    if batch != [] {
      var c' := CheckFile(env, repo, c, batch[0]);
      CheckAllErrors(env, repo, c', batch[1..]);
    }
  }

  /** The errors one batch adds: its failed hashes and the exceptions among its processing results. */
  function BatchErrors(env: Collaborators, repo: string, batch: seq<string>): nat {
    HashErrors(env, batch) + ErrCount(Outputs(env, Queued(env, repo, batch)))
  }

  function RunErrors(env: Collaborators, repo: string, bs: seq<seq<string>>): nat {
    if bs == [] then 0 else BatchErrors(env, repo, bs[0]) + RunErrors(env, repo, bs[1..])
  }

  /** The batches add, to the errors already recorded, exactly their failed hashes and processing exceptions. */
  lemma {:induction false} RunBatchesErrors(env: Collaborators, repo: string, t: Tally, bs: seq<seq<string>>)
    ensures |RunBatches(env, repo, t, bs).errors| == |t.errors| + RunErrors(env, repo, bs)
    decreases |bs|
  {
    if bs != [] {
      var b := bs[0];
      var c := CheckAll(env, repo, Checked(t, []), b);
      CheckAllErrors(env, repo, Checked(t, []), b);
      var t1 := c.tally.(handed := c.tally.handed + c.tasks);
      var outs := Outputs(env, c.tasks);
      assert c.tasks == Queued(env, repo, b);
      if c.tasks != [] {
        CollectErrors(t1, outs, b);
        assert outs[..Min(|outs|, |b|)] == outs;
      } else {
        assert outs == [];
      }
      assert |RunBatch(env, repo, t, b).errors| == |t.errors| + BatchErrors(env, repo, b);
      RunBatchesErrors(env, repo, RunBatch(env, repo, t, b), bs[1..]);
    }
  }

  /**
   * The errors of a run: in the incremental mode one per failed hash and
   * one per processing exception; one repository error when the listing or
   * the whole-repository processing raises; none otherwise.
   */
  lemma RepoRunErrors(cfg: RepoConfig, forceRebuild: bool, env: Collaborators)
    ensures var run := RepoRun(cfg, forceRebuild, env);
            var name := cfg.name.GetOr("");
            run.result.Ok? ==>
              && (forceRebuild ==>
                    run.result.value.errors == if env.processRepository.Err? then [RepoError(name, env.processRepository.error)] else [])
              && (!forceRebuild && env.repoFiles.Err? ==> run.result.value.errors == [RepoError(name, env.repoFiles.error)])
              && (!forceRebuild && env.repoFiles.Ok? ==>
                    |run.result.value.errors| == RunErrors(env, name, Batches(env.repoFiles.value, FileBatchSize)))
  {
    if cfg.name.Some? && cfg.url.Some? && !forceRebuild && env.repoFiles.Ok? {
      RunBatchesErrors(env, cfg.name.value, NoTally, Batches(env.repoFiles.value, FileBatchSize));
    }
  }

  /**
   * A file may be handed to processing only when it downloaded to a
   * non-empty local path whose hash the store does not report as unchanged.
   */
  ghost predicate Eligible(env: Collaborators, repo: string, files: seq<string>, local: string) {
    exists p :: p in files && env.download(p) == LocalPath(local) && local != ""
      && env.fileHash(local).Ok? && env.fileStatus(p, repo, env.fileHash(local).value) != Unchanged
  }

  lemma {:induction false} CheckAllEligible(env: Collaborators, repo: string, files: seq<string>, c: Checked,
                                            batch: seq<string>)
    requires forall p :: p in batch ==> p in files
    requires forall l :: l in c.tasks ==> Eligible(env, repo, files, l)
    ensures forall l :: l in CheckAll(env, repo, c, batch).tasks ==> Eligible(env, repo, files, l)
    decreases |batch|
  {
    if batch != [] {
      var p := batch[0];
      assert p in files;
      var c' := CheckFile(env, repo, c, p);
      forall l | l in c'.tasks ensures Eligible(env, repo, files, l) {
        if l !in c.tasks {
          assert env.download(p) == LocalPath(l);
        }
      }
      assert forall q :: q in batch[1..] ==> q in batch;
      CheckAllEligible(env, repo, files, c', batch[1..]);
    }
  }

  lemma {:induction false} RunBatchesEligible(env: Collaborators, repo: string, files: seq<string>, t: Tally,
                                              bs: seq<seq<string>>)
    requires forall j, p :: 0 <= j < |bs| && p in bs[j] ==> p in files
    requires forall l :: l in t.handed ==> Eligible(env, repo, files, l)
    ensures forall l :: l in RunBatches(env, repo, t, bs).handed ==> Eligible(env, repo, files, l)
    decreases |bs|
  {
    if bs != [] {
      var c := CheckAll(env, repo, Checked(t, []), bs[0]);
      CheckAllEligible(env, repo, files, Checked(t, []), bs[0]);
      CheckAllKeeps(env, repo, Checked(t, []), bs[0]);
      var t1 := c.tally.(handed := c.tally.handed + c.tasks);
      CollectKeepsHanded(t1, Outputs(env, c.tasks), bs[0]);
      RunBatchesEligible(env, repo, files, RunBatch(env, repo, t, bs[0]), bs[1..]);
    }
  }

  lemma {:induction false} CollectKeepsHanded(t: Tally, outs: seq<Result<seq<DocumentChunk>>>, labels: seq<string>)
    ensures Collect(t, outs, labels).handed == t.handed
    ensures Collect(t, outs, labels).skipped == t.skipped
    decreases |outs|
  {
    if outs != [] && labels != [] {
      CollectKeepsHanded(CollectOne(t, outs[0], labels[0]), outs[1..], labels[1..]);
    }
  }

  lemma FlattenMember<T>(bs: seq<seq<T>>, j: int, x: T)
    requires 0 <= j < |bs| && x in bs[j]
    ensures x in Flatten(bs)
    decreases |bs|
  {
    if j > 0 {
      FlattenMember(bs[1..], j - 1, x);
    }
  }

  /** An unchanged file is never handed to `process_file_async`. */
  lemma UnchangedNeverProcessed(cfg: RepoConfig, env: Collaborators)
    requires env.repoFiles.Ok?
    ensures forall l :: l in RepoRun(cfg, false, env).handed ==>
              Eligible(env, cfg.name.GetOr(""), env.repoFiles.value, l)
  {
    if cfg.name.Some? && cfg.url.Some? {
      var files := env.repoFiles.value;
      var bs := Batches(files, FileBatchSize);
      BatchesCover(files, FileBatchSize);
      forall j, p | 0 <= j < |bs| && p in bs[j] ensures p in files {
        FlattenMember(bs, j, p);
      }
      RunBatchesEligible(env, cfg.name.value, files, NoTally, bs);
    }
  }

  /** Whether the check loop skips `path` as unchanged. */
  predicate SkippedFile(env: Collaborators, repo: string, path: string) {
    && env.download(path).LocalPath?
    && env.download(path).path != ""
    && env.fileHash(env.download(path).path).Ok?
    && env.fileStatus(path, repo, env.fileHash(env.download(path).path).value) == Unchanged
  }

  function CountSkipped(env: Collaborators, repo: string, files: seq<string>): nat {
    if files == [] then 0 else (if SkippedFile(env, repo, files[0]) then 1 else 0) + CountSkipped(env, repo, files[1..])
  }

  lemma {:induction false} CountSkippedAppend(env: Collaborators, repo: string, a: seq<string>, b: seq<string>)
    ensures CountSkipped(env, repo, a + b) == CountSkipped(env, repo, a) + CountSkipped(env, repo, b)
    decreases |a|
  {
    if a != [] {
      assert (a + b)[1..] == a[1..] + b;
      assert (a + b)[0] == a[0];
      CountSkippedAppend(env, repo, a[1..], b);
    } else {
      assert a + b == b;
    }
  }

  lemma {:induction false} CheckAllSkipped(env: Collaborators, repo: string, c: Checked, batch: seq<string>)
    ensures CheckAll(env, repo, c, batch).tally.skipped == c.tally.skipped + CountSkipped(env, repo, batch)
    decreases |batch|
  {
    if batch != [] {
      CheckAllSkipped(env, repo, CheckFile(env, repo, c, batch[0]), batch[1..]);
    }
  }

  lemma {:induction false} RunBatchesSkipped(env: Collaborators, repo: string, t: Tally, bs: seq<seq<string>>)
    ensures RunBatches(env, repo, t, bs).skipped == t.skipped + CountSkipped(env, repo, Flatten(bs))
    decreases |bs|
  {
    if bs != [] {
      var c := CheckAll(env, repo, Checked(t, []), bs[0]);
      CheckAllSkipped(env, repo, Checked(t, []), bs[0]);
      var t1 := c.tally.(handed := c.tally.handed + c.tasks);
      CollectKeepsHanded(t1, Outputs(env, c.tasks), bs[0]);
      RunBatchesSkipped(env, repo, RunBatch(env, repo, t, bs[0]), bs[1..]);
      CountSkippedAppend(env, repo, bs[0], Flatten(bs[1..]));
    }
  }

  /** `files_skipped` counts exactly the files the store reports unchanged. */
  lemma SkippedCount(cfg: RepoConfig, env: Collaborators)
    requires cfg.name.Some? && cfg.url.Some? && env.repoFiles.Ok?
    ensures RepoRun(cfg, false, env).result.Ok?
    ensures RepoRun(cfg, false, env).result.value.filesSkipped
            == CountSkipped(env, cfg.name.value, env.repoFiles.value)
  {
    BatchesCover(env.repoFiles.value, FileBatchSize);
    RunBatchesSkipped(env, cfg.name.value, NoTally, Batches(env.repoFiles.value, FileBatchSize));
  }

  // ----- main_async -----

  datatype Totals = Totals(reposProcessed: nat, filesProcessed: nat, chunksAdded: nat, filesUpdated: nat,
                           filesSkipped: nat, totalErrors: nat, repoResults: seq<RepoResult>)

  const NoTotals := Totals(0, 0, 0, 0, 0, 0, [])

  /** How `main_async` ends: nothing selected, `range()` refusing a zero step, or a summary and exit status. */
  datatype Outcome = NoRepositories | RangeError | Completed(totals: Totals, exitStatus: nat)

  /** One gathered result: a dict is added in, an exception counts one error. */
  function AddResult(t: Totals, r: Result<RepoResult>): Totals {
    match r
    case Ok(v) =>
      Totals(t.reposProcessed + 1, t.filesProcessed + v.filesProcessed, t.chunksAdded + v.chunksAdded,
             t.filesUpdated + v.filesUpdated, t.filesSkipped + v.filesSkipped, t.totalErrors + |v.errors|,
             t.repoResults + [v])
    case Err(_) => t.(totalErrors := t.totalErrors + 1)
  }

  function Aggregate(t: Totals, rs: seq<Result<RepoResult>>): Totals
    decreases |rs|
  {
    if rs == [] then t else Aggregate(AddResult(t, rs[0]), rs[1..])
  }

  function Gathered(runRepo: RepoConfig -> Result<RepoResult>, repos: seq<RepoConfig>): seq<Result<RepoResult>> {
    seq(|repos|, k requires 0 <= k < |repos| => runRepo(repos[k]))
  }

  function AggregateBatches(t: Totals, bs: seq<seq<RepoConfig>>, runRepo: RepoConfig -> Result<RepoResult>): Totals
    decreases |bs|
  {
    if bs == [] then t else AggregateBatches(Aggregate(t, Gathered(runRepo, bs[0])), bs[1..], runRepo)
  }

  /** What `main_async` computes, with `runRepo` standing for `process_repository` on one entry. */
  function MainRun(targetArg: string, repos: seq<RepoConfig>, batchSize: int,
                   runRepo: RepoConfig -> Result<RepoResult>): Outcome {
    var selected := Selected(repos, TargetRepos(targetArg));
    if selected == [] then NoRepositories
    else if batchSize == 0 then RangeError
    else
      var totals := AggregateBatches(NoTotals, Batches(selected, batchSize), runRepo);
      Completed(totals, if totals.totalErrors > 0 then 1 else 0)
  }

  /** The aggregation loop over one batch of gathered results. */
  method AddBatch(t: Totals, results: seq<Result<RepoResult>>) returns (totals: Totals)
    ensures totals == Aggregate(t, results)
  {
    totals := t;
    var j := 0;
    while j < |results|
      invariant 0 <= j <= |results|
      invariant Aggregate(totals, results[j..]) == Aggregate(t, results)
      decreases |results| - j
    {
      assert results[j..][1..] == results[j + 1..];
      match results[j] {
      case Ok(v) =>
        totals := Totals(totals.reposProcessed + 1, totals.filesProcessed + v.filesProcessed,
                         totals.chunksAdded + v.chunksAdded, totals.filesUpdated + v.filesUpdated,
                         totals.filesSkipped + v.filesSkipped, totals.totalErrors + |v.errors|,
                         totals.repoResults + [v]);
      case Err(_) =>
        totals := totals.(totalErrors := totals.totalErrors + 1);
      }
      j := j + 1;
    }
  }

  method MainAsync(targetArg: string, repos: seq<RepoConfig>, batchSize: int,
                   runRepo: RepoConfig -> Result<RepoResult>) returns (outcome: Outcome)
    ensures outcome == MainRun(targetArg, repos, batchSize, runRepo)
  {
    var targets := TargetRepos(targetArg);
    var selected := Selected(repos, targets);
    if selected == [] {
      return NoRepositories;
    }
    if batchSize == 0 {
      return RangeError;
    }
    var totals := NoTotals;
    if batchSize > 0 {
      var i := 0;
      while i < |selected|
        invariant AggregateBatches(totals, BatchesFrom(selected, i, batchSize), runRepo)
                  == AggregateBatches(NoTotals, Batches(selected, batchSize), runRepo)
        decreases |selected| - i
      {
        var batch := selected[i..Min(i + batchSize, |selected|)];
        var results := Gathered(runRepo, batch);
        totals := AddBatch(totals, results);
        i := i + batchSize;
      }
    }
    var status := if totals.totalErrors > 0 then 1 else 0;
    return Completed(totals, status);
  }

  // ----- properties of main_async -----

  lemma {:induction false} AggregateAppend(t: Totals, a: seq<Result<RepoResult>>, b: seq<Result<RepoResult>>)
    ensures Aggregate(t, a + b) == Aggregate(Aggregate(t, a), b)
    decreases |a|
  {
    if a != [] {
      assert (a + b)[1..] == a[1..] + b;
      assert (a + b)[0] == a[0];
      AggregateAppend(AddResult(t, a[0]), a[1..], b);
    } else {
      assert a + b == b;
    }
  }

  lemma {:induction false} AggregateBatchesFlat(t: Totals, bs: seq<seq<RepoConfig>>,
                                                runRepo: RepoConfig -> Result<RepoResult>)
    ensures AggregateBatches(t, bs, runRepo) == Aggregate(t, Gathered(runRepo, Flatten(bs)))
    decreases |bs|
  {
    if bs != [] {
      AggregateBatchesFlat(Aggregate(t, Gathered(runRepo, bs[0])), bs[1..], runRepo);
      AggregateAppend(t, Gathered(runRepo, bs[0]), Gathered(runRepo, Flatten(bs[1..])));
      assert Gathered(runRepo, bs[0] + Flatten(bs[1..]))
             == Gathered(runRepo, bs[0]) + Gathered(runRepo, Flatten(bs[1..]));
    }
  }

  /** Batching the repositories does not change the totals: they are those of one pass over the selection. */
  lemma MainRunSequential(targetArg: string, repos: seq<RepoConfig>, batchSize: int,
                          runRepo: RepoConfig -> Result<RepoResult>)
    requires batchSize > 0
    requires Selected(repos, TargetRepos(targetArg)) != []
    ensures MainRun(targetArg, repos, batchSize, runRepo).Completed?
    ensures MainRun(targetArg, repos, batchSize, runRepo).totals
            == Aggregate(NoTotals, Gathered(runRepo, Selected(repos, TargetRepos(targetArg))))
  {
    var selected := Selected(repos, TargetRepos(targetArg));
    BatchesCover(selected, batchSize);
    AggregateBatchesFlat(NoTotals, Batches(selected, batchSize), runRepo);
  }

  /** A negative `--max-concurrent-repos` runs no repository and ends with status 0. */
  lemma MainRunNegativeBatch(targetArg: string, repos: seq<RepoConfig>, batchSize: int,
                             runRepo: RepoConfig -> Result<RepoResult>)
    requires batchSize < 0
    requires Selected(repos, TargetRepos(targetArg)) != []
    ensures MainRun(targetArg, repos, batchSize, runRepo) == Completed(NoTotals, 0)
  {
  }

  /** A result that counts towards `total_errors`: an exception, or a dict with errors. */
  predicate Failed(r: Result<RepoResult>) {
    r.Err? || r.value.errors != []
  }

  /**
   * The totals add up the dict results in order, and `total_errors` is
   * positive exactly when some result failed.
   */
  lemma {:induction false} AggregateFacts(t: Totals, rs: seq<Result<RepoResult>>)
    ensures Aggregate(t, rs).totalErrors > 0 <==>
              t.totalErrors > 0 || exists i :: 0 <= i < |rs| && Failed(rs[i])
    ensures Aggregate(t, rs).totalErrors >= t.totalErrors
    ensures |Aggregate(t, rs).repoResults| == |t.repoResults| + Aggregate(t, rs).reposProcessed - t.reposProcessed
    ensures Aggregate(t, rs).reposProcessed <= t.reposProcessed + |rs|
    ensures (forall i :: 0 <= i < |rs| && rs[i].Ok? ==> rs[i].value.filesUpdated == 0) ==>
              Aggregate(t, rs).filesUpdated == t.filesUpdated
    decreases |rs|
  {
    if rs != [] {
      AggregateFacts(AddResult(t, rs[0]), rs[1..]);
      assert forall i :: 0 < i < |rs| ==> rs[i] == rs[1..][i - 1];
      if exists i :: 0 <= i < |rs| && Failed(rs[i]) {
        var i :| 0 <= i < |rs| && Failed(rs[i]);
        if i > 0 {
          assert Failed(rs[1..][i - 1]);
        }
      }
    }
  }

  /** The exit status is 1 exactly when some repository result failed. */
  lemma ExitStatusIff(targetArg: string, repos: seq<RepoConfig>, batchSize: int,
                      runRepo: RepoConfig -> Result<RepoResult>)
    requires batchSize > 0
    requires Selected(repos, TargetRepos(targetArg)) != []
    ensures var selected := Selected(repos, TargetRepos(targetArg));
            MainRun(targetArg, repos, batchSize, runRepo).exitStatus == 1 <==>
              exists i :: 0 <= i < |selected| && Failed(runRepo(selected[i]))
  {
    var selected := Selected(repos, TargetRepos(targetArg));
    MainRunSequential(targetArg, repos, batchSize, runRepo);
    var rs := Gathered(runRepo, selected);
    AggregateFacts(NoTotals, rs);
    if exists i :: 0 <= i < |selected| && Failed(runRepo(selected[i])) {
      var i :| 0 <= i < |selected| && Failed(runRepo(selected[i]));
      assert Failed(rs[i]);
    }
  }
}
