/**
 * `VectorStore`: document chunks in a FAISS inner-product index, aligned row
 * by row with the list of chunks, plus the `files`/`repos` metadata record.
 * The index keeps its dimension and its rows; normalisation and the
 * similarity scores are FAISS internals, so `search` takes the nearest
 * neighbour answer as an oracle.
 */
module Store {
  import opened Wrappers
  import opened DocProcessor

  /** `metadata["files"][key]`. */
  datatype FileInfo = FileInfo(fileHash: string, processedAt: string, chunkCount: nat)

  /** `metadata["repos"][name]`. */
  datatype RepoInfo = RepoInfo(files: seq<string>, totalChunks: nat)

  /** The `files` and `repos` parts of the metadata document. */
  datatype Metadata = Metadata(files: map<string, FileInfo>, repos: map<string, RepoInfo>)

  /** An `IndexFlatIP`: its dimension and the vectors added to it, in order. */
  datatype FlatIndex = FlatIndex(dim: nat, rows: seq<Embedding>)

  /** The three strings `get_file_status` returns. */
  datatype FileStatus = New | Updated | Unchanged

  /** One `(score, row)` pair of the FAISS answer; the row is -1 for padding. */
  datatype Hit = Hit(score: real, row: int)

  datatype RepoStats = RepoStats(files: nat, chunks: nat)

  datatype Stats = Stats(totalChunks: nat, totalFiles: nat, totalRepos: nat, indexSize: nat,
                         repos: map<string, RepoStats>)

  /** `f"{repo_name}/{source_file}"`. */
  function FileKey(repoName: string, sourceFile: string): string {
    repoName + "/" + sourceFile
  }

  predicate NoDup<T(==)>(s: seq<T>) {
    forall i, j :: 0 <= i < j < |s| ==> s[i] != s[j]
  }

  function Min(a: int, b: int): int {
    if a <= b then a else b
  }

  // ----- chunk filters -----

  /** `[chunk for chunk in chunks if chunk.embedding is not None]`. */
  function Embedded(cs: seq<DocumentChunk>): seq<DocumentChunk> {
    if cs == [] then []
    else (if cs[0].embedding.Some? then [cs[0]] else []) + Embedded(cs[1..])
  }

  lemma {:induction false} EmbeddedFacts(cs: seq<DocumentChunk>)
    ensures |Embedded(cs)| <= |cs|
    ensures forall c :: c in Embedded(cs) <==> c in cs && c.embedding.Some?
  {
    if cs != [] {
      EmbeddedFacts(cs[1..]);
      assert forall c :: c in cs <==> c == cs[0] || c in cs[1..];
    }
  }

  /** A list whose chunks all carry embeddings is its own filter. */
  lemma {:induction false} EmbeddedAll(cs: seq<DocumentChunk>)
    requires forall i :: 0 <= i < |cs| ==> cs[i].embedding.Some?
    ensures Embedded(cs) == cs
  {
    if cs != [] {
      EmbeddedAll(cs[1..]);
    }
  }

  /** The rows the index holds for a list of embedded chunks. */
  function Rows(cs: seq<DocumentChunk>): seq<Embedding> {
    seq(|cs|, i requires 0 <= i < |cs| => cs[i].embedding.GetOr([]))
  }

  lemma RowsAppend(a: seq<DocumentChunk>, b: seq<DocumentChunk>)
    ensures Rows(a + b) == Rows(a) + Rows(b)
  {
  }

  predicate BelongsTo(c: DocumentChunk, filePath: string, repoName: string) {
    c.sourceFile == filePath && c.repoName == repoName
  }

  /** `chunks_to_keep` of `update_file`: the chunks of other files, in order. */
  function Keep(cs: seq<DocumentChunk>, filePath: string, repoName: string): seq<DocumentChunk> {
    if cs == [] then []
    else
      var last := cs[|cs| - 1];
      Keep(cs[..|cs| - 1], filePath, repoName) + (if BelongsTo(last, filePath, repoName) then [] else [last])
  }

  /** The kept chunks are exactly the chunks of other files. */
  lemma {:induction false} KeepFacts(cs: seq<DocumentChunk>, filePath: string, repoName: string)
    ensures |Keep(cs, filePath, repoName)| <= |cs|
    ensures forall c :: c in Keep(cs, filePath, repoName) <==> c in cs && !BelongsTo(c, filePath, repoName)
  {
    if cs != [] {
      var init := cs[..|cs| - 1];
      KeepFacts(init, filePath, repoName);
      assert cs == init + [cs[|cs| - 1]];
      assert forall c :: c in cs <==> c in init || c == cs[|cs| - 1];
    }
  }

  /** Removing nothing leaves the list as it was. */
  lemma {:induction false} KeepAll(cs: seq<DocumentChunk>, filePath: string, repoName: string)
    requires |Keep(cs, filePath, repoName)| == |cs|
    ensures Keep(cs, filePath, repoName) == cs
  {
    if cs != [] {
      var init := cs[..|cs| - 1];
      KeepFacts(init, filePath, repoName);
      KeepAll(init, filePath, repoName);
      assert cs == init + [cs[|cs| - 1]];
    }
  }

  /** The dimension every embedding added next must have: the index's, or the first one's. */
  predicate DimsAgree(dim: Option<nat>, cs: seq<DocumentChunk>) {
    forall i :: 0 <= i < |cs| ==>
      |cs[i].embedding.GetOr([])| == (if dim.Some? then dim.value else |cs[0].embedding.GetOr([])|)
  }

  /** What `_rebuild_index` leaves in `self.index` for the given chunks. */
  function Rebuilt(cs: seq<DocumentChunk>): Option<FlatIndex> {
    var valid := Embedded(cs);
    if cs == [] || valid == [] then None
    else Some(FlatIndex(|valid[0].embedding.GetOr([])|, Rows(valid)))
  }

  // ----- metadata -----

  /** The metadata update of `add_chunks` for one chunk. */
  function Record(m: Metadata, c: DocumentChunk): Metadata {
    var key := FileKey(c.repoName, c.sourceFile);
    var count := if key in m.files then m.files[key].chunkCount else 0;
    var repo := if c.repoName in m.repos then m.repos[c.repoName] else RepoInfo([], 0);
    var files := if c.sourceFile in repo.files then repo.files else repo.files + [c.sourceFile];
    Metadata(m.files[key := FileInfo(c.fileHash, c.metadata.processedAt, count + 1)],
             m.repos[c.repoName := RepoInfo(files, repo.totalChunks + 1)])
  }

  /** The metadata update for a list of chunks, in order. */
  function RecordAll(m: Metadata, cs: seq<DocumentChunk>): Metadata {
    if cs == [] then m else Record(RecordAll(m, cs[..|cs| - 1]), cs[|cs| - 1])
  }

  /** How many of the chunks belong to the file key `key`. */
  function CountKey(cs: seq<DocumentChunk>, key: string): nat {
    if cs == [] then 0
    else CountKey(cs[..|cs| - 1], key) + (if FileKey(cs[|cs| - 1].repoName, cs[|cs| - 1].sourceFile) == key then 1 else 0)
  }

  /** How many of the chunks belong to the repository `repoName`. */
  function CountRepo(cs: seq<DocumentChunk>, repoName: string): nat {
    if cs == [] then 0
    else CountRepo(cs[..|cs| - 1], repoName) + (if cs[|cs| - 1].repoName == repoName then 1 else 0)
  }

  /**
   * The bookkeeping `add_chunks` keeps: every repo's file list is free of
   * duplicates and lists exactly the source files ever added under that
   * repo, and every added chunk has its file entry.
   */
  ghost predicate MetaValid(m: Metadata, added: seq<DocumentChunk>) {
    && (forall r :: r in m.repos ==> NoDup(m.repos[r].files))
    && (forall r, f :: r in m.repos && f in m.repos[r].files ==>
          exists c :: c in added && c.repoName == r && c.sourceFile == f)
    && (forall c :: c in added ==>
          && FileKey(c.repoName, c.sourceFile) in m.files
          && c.repoName in m.repos
          && c.sourceFile in m.repos[c.repoName].files)
  }

  lemma RecordKeepsNoDup(m: Metadata, c: DocumentChunk)
    requires forall r :: r in m.repos ==> NoDup(m.repos[r].files)
    ensures forall r :: r in Record(m, c).repos ==> NoDup(Record(m, c).repos[r].files)
  {
    var repo := if c.repoName in m.repos then m.repos[c.repoName] else RepoInfo([], 0);
    if c.sourceFile !in repo.files {
      var files := repo.files + [c.sourceFile];
      forall i, j | 0 <= i < j < |files| ensures files[i] != files[j] {
        if j == |files| - 1 {
          assert files[i] == repo.files[i];
        }
      }
    }
  }

  lemma RecordKeepsValid(m: Metadata, added: seq<DocumentChunk>, c: DocumentChunk)
    requires MetaValid(m, added)
    ensures MetaValid(Record(m, c), added + [c])
  {
    RecordKeepsNoDup(m, c);
    var m' := Record(m, c);
    var added' := added + [c];
    forall r, f | r in m'.repos && f in m'.repos[r].files
      ensures exists d :: d in added' && d.repoName == r && d.sourceFile == f
    {
      if r == c.repoName && f == c.sourceFile {
        assert c in added';
      } else {
        assert r in m.repos && f in m.repos[r].files;
        var d :| d in added && d.repoName == r && d.sourceFile == f;
        assert d in added';
      }
    }
  }

  lemma {:induction false} RecordAllKeepsValid(m: Metadata, added: seq<DocumentChunk>, cs: seq<DocumentChunk>)
    requires MetaValid(m, added)
    ensures MetaValid(RecordAll(m, cs), added + cs)
  {
    if cs != [] {
      var init := cs[..|cs| - 1];
      RecordAllKeepsValid(m, added, init);
      RecordKeepsValid(RecordAll(m, init), added + init, cs[|cs| - 1]);
      assert added + init + [cs[|cs| - 1]] == added + cs;
    }
  }

  /**
   * Per file key: the entry's `chunk_count` grows by the number of chunks
   * of that file and takes the hash of the last one; a key no chunk belongs
   * to keeps its entry, or stays absent.
   */
  lemma {:induction false} RecordAllFiles(m: Metadata, cs: seq<DocumentChunk>, key: string)
    ensures CountKey(cs, key) == 0 ==>
              (key in RecordAll(m, cs).files <==> key in m.files)
              && (key in m.files ==> RecordAll(m, cs).files[key] == m.files[key])
    ensures CountKey(cs, key) > 0 ==>
              && key in RecordAll(m, cs).files
              && RecordAll(m, cs).files[key].chunkCount
                 == (if key in m.files then m.files[key].chunkCount else 0) + CountKey(cs, key)
  {
    if cs != [] {
      RecordAllFiles(m, cs[..|cs| - 1], key);
    }
  }

  /** Per repository: `total_chunks` grows by the number of its chunks; other repos are untouched. */
  lemma {:induction false} RecordAllRepos(m: Metadata, cs: seq<DocumentChunk>, repoName: string)
    ensures CountRepo(cs, repoName) == 0 ==>
              (repoName in RecordAll(m, cs).repos <==> repoName in m.repos)
              && (repoName in m.repos ==> RecordAll(m, cs).repos[repoName] == m.repos[repoName])
    ensures CountRepo(cs, repoName) > 0 ==>
              && repoName in RecordAll(m, cs).repos
              && RecordAll(m, cs).repos[repoName].totalChunks
                 == (if repoName in m.repos then m.repos[repoName].totalChunks else 0) + CountRepo(cs, repoName)
  {
    if cs != [] {
      RecordAllRepos(m, cs[..|cs| - 1], repoName);
    }
  }

  /** When all chunks of a file carry one hash, the file entry records that hash. */
  lemma {:induction false} RecordAllHash(m: Metadata, cs: seq<DocumentChunk>, key: string, hash: string)
    requires CountKey(cs, key) > 0
    requires forall i :: 0 <= i < |cs| && FileKey(cs[i].repoName, cs[i].sourceFile) == key ==> cs[i].fileHash == hash
    ensures key in RecordAll(m, cs).files && RecordAll(m, cs).files[key].fileHash == hash
  {
    var last := cs[|cs| - 1];
    if FileKey(last.repoName, last.sourceFile) != key {
      RecordAllHash(m, cs[..|cs| - 1], key, hash);
    }
  }

  /** Counters only grow: no file or repo entry disappears or loses chunks. */
  lemma {:induction false} RecordAllMonotone(m: Metadata, cs: seq<DocumentChunk>)
    ensures forall k :: k in m.files ==>
              k in RecordAll(m, cs).files && RecordAll(m, cs).files[k].chunkCount >= m.files[k].chunkCount
    ensures forall r :: r in m.repos ==>
              r in RecordAll(m, cs).repos && RecordAll(m, cs).repos[r].totalChunks >= m.repos[r].totalChunks
  {
    if cs != [] {
      RecordAllMonotone(m, cs[..|cs| - 1]);
    }
  }

  /** The hits that name a stored row, paired with their chunks, in FAISS order. */
  function HitsIn(chunks: seq<DocumentChunk>, hits: seq<Hit>): seq<(DocumentChunk, real)> {
    if hits == [] then []
    else
      var h := hits[|hits| - 1];
      HitsIn(chunks, hits[..|hits| - 1]) + (if 0 <= h.row < |chunks| then [(chunks[h.row], h.score)] else [])
  }

  /** No more results than hits, and each result is a stored chunk with its hit's score. */
  lemma {:induction false} HitsInFacts(chunks: seq<DocumentChunk>, hits: seq<Hit>)
    ensures |HitsIn(chunks, hits)| <= |hits|
    ensures forall j :: 0 <= j < |HitsIn(chunks, hits)| ==>
              exists h :: h in hits && 0 <= h.row < |chunks| && HitsIn(chunks, hits)[j] == (chunks[h.row], h.score)
  {
    if hits != [] {
      var init := hits[..|hits| - 1];
      HitsInFacts(chunks, init);
      forall h | h in init ensures h in hits {
        assert h == hits[..|hits| - 1][IndexOf(init, h)];
      }
    }
  }

  /**
   * `ps` lists, in increasing order, exactly the positions of the hits that
   * name a stored row, and result `j` is the chunk and score of hit `ps[j]`.
   */
  predicate RankMap(chunks: seq<DocumentChunk>, hits: seq<Hit>, ps: seq<nat>, results: seq<(DocumentChunk, real)>) {
    && |ps| == |results|
    && (forall j :: 0 <= j < |ps| ==>
          ps[j] < |hits| && 0 <= hits[ps[j]].row < |chunks| && results[j] == (chunks[hits[ps[j]].row], hits[ps[j]].score))
    && (forall j, j' :: 0 <= j < j' < |ps| ==> ps[j] < ps[j'])
    && (forall i :: 0 <= i < |hits| && 0 <= hits[i].row < |chunks| ==> i in ps)
  }

  lemma {:induction false} HitsInPositions(chunks: seq<DocumentChunk>, hits: seq<Hit>) returns (ps: seq<nat>)
    ensures RankMap(chunks, hits, ps, HitsIn(chunks, hits))
  {
    if hits == [] {
      ps := [];
    } else {
      var n := |hits| - 1;
      var qs := HitsInPositions(chunks, hits[..n]);
      assert hits == hits[..n] + [hits[n]];
      ps := RankMapStep(chunks, hits[..n], hits[n], qs, HitsIn(chunks, hits[..n]));
    }
  }

  /** One more hit: its position joins the map exactly when it names a stored row. */
  lemma RankMapStep(chunks: seq<DocumentChunk>, init: seq<Hit>, h: Hit, qs: seq<nat>, rs: seq<(DocumentChunk, real)>)
    returns (ps: seq<nat>)
    requires RankMap(chunks, init, qs, rs)
    ensures RankMap(chunks, init + [h], ps, rs + (if 0 <= h.row < |chunks| then [(chunks[h.row], h.score)] else []))
  {
    if 0 <= h.row < |chunks| {
      ps := RankMapKeep(chunks, init, h, qs, rs);
    } else {
      RankMapDrop(chunks, init, h, qs, rs);
      ps := qs;
    }
  }

  lemma RankMapKeep(chunks: seq<DocumentChunk>, init: seq<Hit>, h: Hit, qs: seq<nat>, rs: seq<(DocumentChunk, real)>)
    returns (ps: seq<nat>)
    requires RankMap(chunks, init, qs, rs)
    requires 0 <= h.row < |chunks|
    ensures RankMap(chunks, init + [h], ps, rs + [(chunks[h.row], h.score)])
  {
    var hits := init + [h];
    var n := |init|;
    var results := rs + [(chunks[h.row], h.score)];
    ps := qs + [n];
    assert forall j :: 0 <= j < |qs| ==> ps[j] == qs[j] && results[j] == rs[j] && hits[qs[j]] == init[qs[j]];
    assert forall j, j' :: 0 <= j < j' < |ps| ==> ps[j] < ps[j'] by {
      assert forall j :: 0 <= j < |qs| ==> qs[j] < n;
    }
    assert forall i :: 0 <= i < |hits| && 0 <= hits[i].row < |chunks| ==> i in ps by {
      assert forall i :: 0 <= i < n ==> hits[i] == init[i];
    }
  }

  lemma RankMapDrop(chunks: seq<DocumentChunk>, init: seq<Hit>, h: Hit, qs: seq<nat>, rs: seq<(DocumentChunk, real)>)
    requires RankMap(chunks, init, qs, rs)
    requires !(0 <= h.row < |chunks|)
    ensures RankMap(chunks, init + [h], qs, rs + [])
  {
    var hits := init + [h];
    assert forall j :: 0 <= j < |qs| ==> hits[qs[j]] == init[qs[j]];
    assert rs + [] == rs;
    assert forall i :: 0 <= i < |init| ==> hits[i] == init[i];
  }

  /**
   * `search` keeps every hit that names a stored row and drops the `-1`
   * padding, in FAISS rank order: the results are the valid hits at
   * increasing positions, each paired with its chunk.
   */
  lemma HitsInRanked(chunks: seq<DocumentChunk>, hits: seq<Hit>)
    ensures exists ps :: RankMap(chunks, hits, ps, HitsIn(chunks, hits))
    ensures forall i :: 0 <= i < |hits| && 0 <= hits[i].row < |chunks| ==>
              (chunks[hits[i].row], hits[i].score) in HitsIn(chunks, hits)
  {
    var ps := HitsInPositions(chunks, hits);
    forall i | 0 <= i < |hits| && 0 <= hits[i].row < |chunks|
      ensures (chunks[hits[i].row], hits[i].score) in HitsIn(chunks, hits)
    {
      var j :| 0 <= j < |ps| && ps[j] == i;
      assert HitsIn(chunks, hits)[j] == (chunks[hits[i].row], hits[i].score);
    }
  }

  function IndexOf<T(==)>(s: seq<T>, x: T): (i: nat)
    requires x in s
    ensures i < |s| && s[i] == x
  {
    if s[0] == x then 0 else 1 + IndexOf(s[1..], x)
  }

  /** With FAISS answering exactly `min(k, len(chunks))` hits, `search` returns at most that many. */
  lemma SearchBound(chunks: seq<DocumentChunk>, hits: seq<Hit>, k: int)
    requires |hits| == Min(k, |chunks|)
    ensures |HitsIn(chunks, hits)| <= k && |HitsIn(chunks, hits)| <= |chunks|
  {
    HitsInFacts(chunks, hits);
  }

  /**
   * A flat index names each stored row at most once (only the `-1` padding
   * repeats); then no two results come from the same stored row.
   */
  lemma SearchDistinctRows(chunks: seq<DocumentChunk>, hits: seq<Hit>) returns (rows: seq<int>)
    requires forall i, j :: 0 <= i < j < |hits| && 0 <= hits[i].row ==> hits[i].row != hits[j].row
    ensures |rows| == |HitsIn(chunks, hits)|
    ensures forall j :: 0 <= j < |rows| ==> 0 <= rows[j] < |chunks| && HitsIn(chunks, hits)[j].0 == chunks[rows[j]]
    ensures forall j, j' :: 0 <= j < j' < |rows| ==> rows[j] != rows[j']
  {
    var ps := HitsInPositions(chunks, hits);
    rows := seq(|ps|, j requires 0 <= j < |ps| => hits[ps[j]].row);
  }

  lemma {:induction false} NoDupCard<T>(s: seq<T>)
    requires NoDup(s)
    ensures |set x | x in s| == |s|
  {
    if s != [] {
      var init := s[..|s| - 1];
      assert NoDup(init);
      NoDupCard(init);
      assert s == init + [s[|s| - 1]];
      assert (set x | x in s) == (set x | x in init) + {s[|s| - 1]};
    }
  }

  function DimOf(index: Option<FlatIndex>): Option<nat> {
    if index.Some? then Some(index.value.dim) else None
  }

  /**
   * The index is present exactly when there are chunks, and then holds one
   * row per chunk, in order, all of the index's dimension; every chunk
   * carries its embedding.
   */
  predicate IndexMatches(index: Option<FlatIndex>, chunks: seq<DocumentChunk>) {
    && (forall i :: 0 <= i < |chunks| ==> chunks[i].embedding.Some?)
    && (index.None? <==> chunks == [])
    && (index.Some? ==>
          && index.value.rows == Rows(chunks)
          && forall i :: 0 <= i < |chunks| ==> |chunks[i].embedding.GetOr([])| == index.value.dim)
  }

  /** `self.index.add(embeddings)`, creating the index with the first embedding's dimension. */
  function AddRows(index: Option<FlatIndex>, valid: seq<DocumentChunk>): Option<FlatIndex>
    requires valid != []
  {
    match index
    case Some(ix) => Some(FlatIndex(ix.dim, ix.rows + Rows(valid)))
    case None => Some(FlatIndex(|valid[0].embedding.GetOr([])|, Rows(valid)))
  }

  /** Adding the rows of embedded chunks of the right dimension keeps the index aligned. */
  lemma AddRowsMatches(index: Option<FlatIndex>, chunks: seq<DocumentChunk>, cs: seq<DocumentChunk>)
    requires IndexMatches(index, chunks)
    requires Embedded(cs) != []
    requires DimsAgree(DimOf(index), Embedded(cs))
    ensures IndexMatches(AddRows(index, Embedded(cs)), chunks + Embedded(cs))
  {
    var valid := Embedded(cs);
    EmbeddedFacts(cs);
    assert forall i :: 0 <= i < |valid| ==> valid[i] in valid;
    RowsAppend(chunks, valid);
    var all := chunks + valid;
    forall i | 0 <= i < |all|
      ensures all[i].embedding.Some?
      ensures |all[i].embedding.GetOr([])| == AddRows(index, valid).value.dim
    {
      if i >= |chunks| {
        assert all[i] == valid[i - |chunks|];
      }
    }
  }

  /** The chunks left by `update_file` are aligned with the rebuilt index, which keeps its dimension. */
  lemma RebuiltMatches(index: Option<FlatIndex>, chunks: seq<DocumentChunk>, filePath: string, repoName: string)
    requires IndexMatches(index, chunks)
    requires Keep(chunks, filePath, repoName) != []
    ensures IndexMatches(Rebuilt(Keep(chunks, filePath, repoName)), Keep(chunks, filePath, repoName))
    ensures DimOf(Rebuilt(Keep(chunks, filePath, repoName))) == DimOf(index)
  {
    var keep := Keep(chunks, filePath, repoName);
    KeepFacts(chunks, filePath, repoName);
    assert forall j :: 0 <= j < |keep| ==> keep[j] in chunks;
    EmbeddedAll(keep);
    assert keep[0] in chunks;
  }

  class VectorStore {
    var index: Option<FlatIndex>
    var chunks: seq<DocumentChunk>
    var metadata: Metadata
    /** Every chunk ever added, in order: what the repo file lists account for. */
    ghost var added: seq<DocumentChunk>

    /** The index is aligned with the chunks and the metadata accounts for every added chunk. */
    ghost predicate Valid()
      reads this
    {
      IndexMatches(index, chunks) && MetaValid(metadata, added)
    }

    /** A store with no index file, no chunk file and the default metadata. */
    constructor()
      ensures Valid()
      ensures index == None && chunks == [] && metadata == Metadata(map[], map[]) && added == []
    {
      index := None;
      chunks := [];
      metadata := Metadata(map[], map[]);
      added := [];
    }

    /**
     * `add_chunks`: appends the embedded chunks in input order, adds their
     * rows (creating the index with their dimension on first use) and
     * records each in the metadata; with none embedded nothing changes.
     */
    method AddChunks(cs: seq<DocumentChunk>)
      requires Valid()
      requires DimsAgree(DimOf(index), Embedded(cs))
      modifies this
      ensures Valid()
      ensures chunks == old(chunks) + Embedded(cs)
      ensures metadata == RecordAll(old(metadata), Embedded(cs))
      ensures added == old(added) + Embedded(cs)
      ensures index == if Embedded(cs) == [] then old(index) else AddRows(old(index), Embedded(cs))
    {
      if cs == [] {
        return;
      }
      var valid := Embedded(cs);
      if valid == [] {
        return;
      }
      AddRowsMatches(index, chunks, cs);
      RecordAllKeepsValid(metadata, added, valid);
      index := AddRows(index, valid);
      chunks := chunks + valid;
      RecordChunks(valid);
      added := added + valid;
    }

    /** The metadata loop of `add_chunks`. */
    method RecordChunks(valid: seq<DocumentChunk>)
      modifies this`metadata
      ensures metadata == RecordAll(old(metadata), valid)
    {
      var i := 0;
      while i < |valid|
        invariant 0 <= i <= |valid|
        invariant metadata == RecordAll(old(metadata), valid[..i])
      {
        assert valid[..i + 1][..i] == valid[..i];
        metadata := Record(metadata, valid[i]);
        i := i + 1;
      }
      assert valid[..i] == valid;
    }

    /** `_rebuild_index`: a fresh index over the embedded chunks, or none. */
    method RebuildIndex()
      modifies this`index
      ensures index == Rebuilt(chunks)
    {
      if chunks == [] {
        index := None;
        return;
      }
      var valid := Embedded(chunks);
      if valid == [] {
        index := None;
        return;
      }
      index := Some(FlatIndex(|valid[0].embedding.GetOr([])|, Rows(valid)));
    }

    /**
     * `update_file`: drops every chunk of `filePath` in `repoName`, keeping
     * the others in order, rebuilds the index (or drops it when nothing is
     * left) and adds the new chunks; the metadata is only added to.
     */
    method UpdateFile(filePath: string, repoName: string, newChunks: seq<DocumentChunk>)
      requires Valid()
      requires DimsAgree(if Keep(chunks, filePath, repoName) == [] then None else DimOf(index), Embedded(newChunks))
      modifies this
      ensures Valid()
      ensures chunks == Keep(old(chunks), filePath, repoName) + Embedded(newChunks)
      ensures metadata == RecordAll(old(metadata), Embedded(newChunks))
      ensures added == old(added) + Embedded(newChunks)
    {
      var keep: seq<DocumentChunk> := [];
      var removed := 0;
      var i := 0;
      while i < |chunks|
        invariant 0 <= i <= |chunks|
        invariant keep == Keep(chunks[..i], filePath, repoName)
        invariant removed == i - |keep|
      {
        assert chunks[..i + 1][..i] == chunks[..i];
        if chunks[i].sourceFile == filePath && chunks[i].repoName == repoName {
          removed := removed + 1;
        } else {
          keep := keep + [chunks[i]];
        }
        i := i + 1;
      }
      assert chunks[..i] == chunks;
      if removed == 0 {
        KeepAll(chunks, filePath, repoName);
      } else {
        if keep != [] {
          RebuiltMatches(index, chunks, filePath, repoName);
        }
        chunks := keep;
        if chunks != [] {
          RebuildIndex();
        } else {
          index := None;
        }
      }
      AddChunks(newChunks);
    }

    /**
     * `search`: [] without an index or chunks; otherwise the FAISS answer for
     * `min(k, len(chunks))` neighbours, keeping the hits that name a stored
     * row. `knn` is the index's nearest-neighbour answer for the query.
     */
    method Search(query: Embedding, k: int, knn: (Embedding, int) -> seq<Hit>)
      returns (results: seq<(DocumentChunk, real)>)
      ensures index.None? || chunks == [] ==> results == []
      ensures index.Some? && chunks != [] ==> results == HitsIn(chunks, knn(query, Min(k, |chunks|)))
    {
      if index.None? || |chunks| == 0 {
        return [];
      }
      var hits := knn(query, Min(k, |chunks|));
      results := [];
      var j := 0;
      while j < |hits|
        invariant 0 <= j <= |hits|
        invariant results == HitsIn(chunks, hits[..j])
      {
        assert hits[..j + 1][..j] == hits[..j];
        if hits[j].row >= 0 && hits[j].row < |chunks| {
          results := results + [(chunks[hits[j].row], hits[j].score)];
        }
        j := j + 1;
      }
      assert hits[..j] == hits;
    }

    /** `get_file_status`: "new", "updated" or "unchanged" by the stored hash. */
    function GetFileStatus(filePath: string, repoName: string, currentHash: string): (r: FileStatus)
      reads this
      ensures r == New <==> FileKey(repoName, filePath) !in metadata.files
      ensures r == Updated <==>
                FileKey(repoName, filePath) in metadata.files
                && metadata.files[FileKey(repoName, filePath)].fileHash != currentHash
      ensures r == Unchanged <==>
                FileKey(repoName, filePath) in metadata.files
                && metadata.files[FileKey(repoName, filePath)].fileHash == currentHash
    {
      var key := FileKey(repoName, filePath);
      if key !in metadata.files then New
      else if metadata.files[key].fileHash != currentHash then Updated
      else Unchanged
    }

    /** `get_stats`: counts of chunks, files, repos and index rows, and per-repo file and chunk counts. */
    function GetStats(): (r: Stats)
      reads this
      ensures Valid() ==> r.indexSize == r.totalChunks
      ensures r.repos.Keys == metadata.repos.Keys
    {
      Stats(|chunks|, |metadata.files|, |metadata.repos|,
            if index.Some? then |index.value.rows| else 0,
            map name | name in metadata.repos ::
              RepoStats(|metadata.repos[name].files|, metadata.repos[name].totalChunks))
    }
  }

  /** The per-repo file count of `get_stats` is the number of distinct source files ever added to that repo. */
  lemma StatsCountDistinctFiles(store: VectorStore, repoName: string)
    requires store.Valid()
    requires repoName in store.metadata.repos
    ensures store.GetStats().repos[repoName].files
            == |set c | c in store.added && c.repoName == repoName :: c.sourceFile|
  {
    var files := store.metadata.repos[repoName].files;
    NoDupCard(files);
    assert (set x | x in files) == (set c | c in store.added && c.repoName == repoName :: c.sourceFile);
  }
}
