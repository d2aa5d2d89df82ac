/**
 * Chunking and file dispatch of `DocumentProcessor`: the sentence splitter,
 * the overlapping chunker, the extension dispatch of `process_file` and the
 * tree filter of `get_repo_files`. Text extraction, hashing, embedding and
 * HTTP are collaborators passed in as functions.
 */
module DocProcessor {
  import opened Wrappers
  import opened Text
  import opened Paths

  /** An embedding vector (its numeric values are never inspected here). */
  type Embedding = seq<real>

  datatype ChunkMeta = ChunkMeta(fileType: string, chunkIndex: nat, processedAt: string)

  datatype DocumentChunk = DocumentChunk(
    content: string,
    sourceFile: string,
    repoName: string,
    chunkId: string,
    fileHash: string,
    metadata: ChunkMeta,
    embedding: Option<Embedding>)

  /** `self.chunk_size`: the approximate number of words per chunk. */
  const ChunkSize: nat := 100

  // ----- re.split(r'[.!?]+', text) -----

  predicate IsTerminal(c: char) {
    c == '.' || c == '!' || c == '?'
  }

  /**
   * Python's `re.split(r'[.!?]+', text)`: the text between maximal runs of
   * sentence-terminal punctuation, with an empty first (last) fragment when
   * the text starts (ends) with such a run.
   */
  function SplitSentences(text: string): (r: seq<string>)
    ensures |r| >= 1
    ensures forall i, j :: 0 <= i < |r| && 0 <= j < |r[i]| ==> !IsTerminal(r[i][j])
  {
    if text == [] then [""]
    else
      var rest := SplitSentences(text[1..]);
      if !IsTerminal(text[0]) then
        var head := [text[0]] + rest[0];
        assert forall j :: 1 <= j < |head| ==> head[j] == rest[0][j - 1];
        [head] + rest[1..]
      else if text[1..] != [] && IsTerminal(text[1]) then rest
      else [""] + rest
  }

  /** The text with every sentence-terminal character removed. */
  function Unpunctuated(text: string): string {
    if text == [] then []
    else (if IsTerminal(text[0]) then [] else [text[0]]) + Unpunctuated(text[1..])
  }

  /** The number of maximal runs of terminal characters, each counted at its last character. */
  function TerminalRuns(text: string): nat {
    if text == [] then 0
    else (if IsTerminal(text[0]) && (|text| == 1 || !IsTerminal(text[1])) then 1 else 0) + TerminalRuns(text[1..])
  }

  /**
   * The split loses only the terminators: joining the fragments gives back
   * the text without them, and there is one fragment more than there are
   * runs of terminators.
   */
  lemma SplitSentencesRebuild(text: string)
    ensures Join("", SplitSentences(text)) == Unpunctuated(text)
    ensures |SplitSentences(text)| == TerminalRuns(text) + 1
  {
    SplitSentencesJoin(text);
    SplitSentencesCount(text);
  }

  lemma {:induction false} SplitSentencesJoin(text: string)
    ensures Join("", SplitSentences(text)) == Unpunctuated(text)
    decreases |text|
  {
    if text != [] {
      var rest := SplitSentences(text[1..]);
      var tail := Join("", rest[1..]);
      SplitSentencesJoin(text[1..]);
      assert Join("", rest) == rest[0] + tail by {
        JoinUnseparated(rest[0], rest[1..]);
        assert [rest[0]] + rest[1..] == rest;
      }
      if !IsTerminal(text[0]) {
        var head := [text[0]] + rest[0];
        assert Join("", SplitSentences(text)) == head + tail by {
          assert SplitSentences(text) == [head] + rest[1..];
          JoinUnseparated(head, rest[1..]);
        }
        assert Unpunctuated(text) == [text[0]] + Unpunctuated(text[1..]);
      } else if text[1..] != [] && IsTerminal(text[1]) {
        assert SplitSentences(text) == rest;
      } else {
        assert Join("", SplitSentences(text)) == Join("", rest) by {
          assert SplitSentences(text) == [""] + rest;
          JoinUnseparated("", rest);
        }
      }
    }
  }

  lemma {:induction false} SplitSentencesCount(text: string)
    ensures |SplitSentences(text)| == TerminalRuns(text) + 1
    decreases |text|
  {
    if text != [] {
      SplitSentencesCount(text[1..]);
    }
  }

  /** `"".join([x] + xs)` is `x` followed by `"".join(xs)`. */
  lemma JoinUnseparated(x: string, xs: seq<string>)
    ensures Join("", [x] + xs) == x + Join("", xs)
  {
    if xs == [] {
      assert [x] + xs == [x];
    } else {
      assert ([x] + xs)[1..] == xs;
    }
  }

  /** The fragments of a blank text are blank. */
  lemma {:induction false} BlankSentences(text: string, i: nat)
    requires Blank(text)
    requires i < |SplitSentences(text)|
    ensures Blank(SplitSentences(text)[i])
    decreases |text|
  {
    if text != [] {
      assert Blank(text[1..]) by {
        forall j | 0 <= j < |text| - 1 ensures IsSpace(text[1..][j]) {
          assert text[1..][j] == text[j + 1];
        }
      }
      var rest := SplitSentences(text[1..]);
      assert !IsTerminal(text[0]);
      if i == 0 {
        BlankSentences(text[1..], 0);
        var head := [text[0]] + rest[0];
        forall j | 0 <= j < |head| ensures IsSpace(head[j]) {
          if j > 0 {
            assert head[j] == rest[0][j - 1];
          }
        }
      } else {
        BlankSentences(text[1..], i);
      }
    }
  }

  // ----- chunk_text -----

  /** The chunk id `f"{repo_name}_{Path(file_path).stem}_{index}"`. */
  function ChunkId(repoName: string, filePath: string, index: nat): string {
    repoName + "_" + Stem(filePath) + "_" + NatToString(index)
  }

  function MakeChunk(content: string, filePath: string, repoName: string, fileHash: string,
                     index: nat, processedAt: string): DocumentChunk
  {
    DocumentChunk(content, filePath, repoName, ChunkId(repoName, filePath, index), fileHash,
                  ChunkMeta(Suffix(filePath), index, processedAt), None)
  }

  /** The chunks built from `contents` in order: index `k` for the `k`-th content, no embedding yet. */
  function MakeChunks(contents: seq<string>, filePath: string, repoName: string, fileHash: string,
                      processedAt: string): seq<DocumentChunk>
  {
    seq(|contents|, k requires 0 <= k < |contents| => MakeChunk(contents[k], filePath, repoName, fileHash, k, processedAt))
  }

  lemma MakeChunksAppend(contents: seq<string>, c: string, filePath: string, repoName: string,
                         fileHash: string, processedAt: string)
    ensures MakeChunks(contents + [c], filePath, repoName, fileHash, processedAt)
            == MakeChunks(contents, filePath, repoName, fileHash, processedAt)
               + [MakeChunk(c, filePath, repoName, fileHash, |contents|, processedAt)]
  {
  }

  /** The chunker's state between fragments: the contents emitted so far and the running buffer. */
  datatype ScanState = ScanState(emitted: seq<string>, buffer: string)

  function Max0(i: int): nat {
    if i < 0 then 0 else i
  }

  /** The test of `chunk_text` for emitting: the buffer is not empty and would exceed `ChunkSize`. */
  predicate Overflows(buffer: string, f: string) {
    WordCount(buffer) + WordCount(f) > ChunkSize && buffer != []
  }

  /** One iteration of the loop of `chunk_text`, on fragment `i`. */
  function ScanStep(sentences: seq<string>, i: nat, st: ScanState): ScanState
    requires i < |sentences|
  {
    var f := Strip(sentences[i]);
    if f == [] then st
    else if Overflows(st.buffer, f) then
      ScanState(st.emitted + [Strip(st.buffer)], Join(" ", sentences[Max0(i - 2)..i]) + " " + f)
    else
      ScanState(st.emitted, st.buffer + " " + f)
  }

  /** The state after the first `n` fragments. */
  function Scan(sentences: seq<string>, n: nat): ScanState
    requires n <= |sentences|
  {
    if n == 0 then ScanState([], "") else ScanStep(sentences, n - 1, Scan(sentences, n - 1))
  }

  lemma ScanUnfold(sentences: seq<string>, n: nat)
    requires 0 < n <= |sentences|
    ensures Scan(sentences, n) == ScanStep(sentences, n - 1, Scan(sentences, n - 1))
  {
  }

  /** The final buffer, emitted as the last chunk when it is not blank. */
  function Flush(st: ScanState): seq<string> {
    st.emitted + (if Strip(st.buffer) != [] then [Strip(st.buffer)] else [])
  }

  /** The contents of the chunks `chunk_text` emits for `text`, in order. */
  function ChunkContents(text: string): seq<string> {
    if Strip(text) == [] then []
    else
      var sentences := SplitSentences(text);
      Flush(Scan(sentences, |sentences|))
  }

  /**
   * A chunk is emitted at a fragment exactly when that fragment is not blank
   * and `Overflows` holds; the buffer is then reseeded with the raw fragments
   * `max(0, i - 2)` to `i - 1`, joined with spaces, and the stripped fragment.
   * Otherwise nothing is emitted, and a non-empty buffer extended in place
   * stays within `ChunkSize` words.
   */
  lemma ScanStepEmits(sentences: seq<string>, i: nat, st: ScanState)
    requires i < |sentences|
    ensures var f := Strip(sentences[i]);
            var st' := ScanStep(sentences, i, st);
            var emits := f != [] && st.buffer != [] && WordCount(st.buffer) + WordCount(f) > ChunkSize;
            && (|st'.emitted| == |st.emitted| + 1 <==> emits)
            && (emits ==> st' == ScanState(st.emitted + [Strip(st.buffer)],
                                            Join(" ", sentences[Max0(i - 2)..i]) + " " + f))
            && (!emits ==> st'.emitted == st.emitted)
            && (!emits && f != [] && st.buffer != [] ==> WordCount(st'.buffer) <= ChunkSize)
  {
    var f := Strip(sentences[i]);
    if f != [] && !Overflows(st.buffer, f) {
      WordCountJoin(st.buffer, f);
    }
  }

  /** The buffer either is empty or ends with a non-space character. */
  predicate BufferShape(b: string) {
    b == [] || !IsSpace(b[|b| - 1])
  }

  /** What the loop keeps: the buffer's shape, and chunks that are stripped and non-empty. */
  ghost predicate ScanShape(st: ScanState) {
    BufferShape(st.buffer) && forall k :: 0 <= k < |st.emitted| ==> Trimmed(st.emitted[k])
  }

  /** `g` occurs in an emitted chunk or in the stripped, non-empty buffer. */
  ghost predicate Covered(st: ScanState, g: string) {
    (exists k :: 0 <= k < |st.emitted| && Contains(st.emitted[k], g))
    || (st.buffer != [] && Contains(Strip(st.buffer), g))
  }

  /** Extending a non-empty buffer keeps every fragment it held. */
  lemma ExtendBuffer(b: string, f: string, g: string)
    requires b != [] && BufferShape(b) && Trimmed(f)
    requires Contains(Strip(b), g)
    ensures Contains(Strip(b + " " + f), g)
  {
    StripExtend(b, f);
    ContainsExtend(Strip(b), f, g);
  }

  /** Extending a non-empty buffer adds `f`. */
  lemma ExtendBufferAdds(b: string, f: string)
    requires b != [] && BufferShape(b) && Trimmed(f)
    ensures Contains(Strip(b + " " + f), f)
  {
    StripExtend(b, f);
    ContainsSuffix(Strip(b) + " ", f);
  }

  /** A buffer ending in a trimmed fragment has the right shape and holds the fragment. */
  lemma ReseedBuffer(j: string, f: string)
    requires Trimmed(f)
    ensures BufferShape(j + " " + f)
    ensures Contains(Strip(j + " " + f), f)
  {
    var y := j + " " + f;
    assert y[|y| - 1] == f[|f| - 1];
    StripAppend(j, f);
    if Blank(j) {
      ContainsSuffix([], f);
      assert [] + f == f;
    } else {
      ContainsSuffix(LStrip(j) + " ", f);
    }
  }

  /** Emitting the buffer and reseeding keeps the shape. */
  lemma EmitShape(emitted: seq<string>, b: string, j: string, f: string)
    requires ScanShape(ScanState(emitted, b)) && b != [] && Trimmed(f)
    ensures ScanShape(ScanState(emitted + [Strip(b)], j + " " + f))
  {
    LStripOfNonBlankEnd(b);
    ReseedBuffer(j, f);
  }

  /** The two non-trivial outcomes of `ScanStep`, written out. */
  lemma ScanStepCases(sentences: seq<string>, i: nat, st: ScanState)
    requires i < |sentences|
    ensures var f := Strip(sentences[i]);
            && (f == [] ==> ScanStep(sentences, i, st) == st)
            && (f != [] && Overflows(st.buffer, f) ==>
                  ScanStep(sentences, i, st) ==
                  ScanState(st.emitted + [Strip(st.buffer)], Join(" ", sentences[Max0(i - 2)..i]) + " " + f))
            && (f != [] && !Overflows(st.buffer, f) ==>
                  ScanStep(sentences, i, st) == ScanState(st.emitted, st.buffer + " " + f))
  {
  }

  lemma ScanStepShape(sentences: seq<string>, i: nat, st: ScanState)
    requires i < |sentences|
    requires ScanShape(st)
    ensures ScanShape(ScanStep(sentences, i, st))
    ensures st.emitted <= ScanStep(sentences, i, st).emitted
  {
    var f := Strip(sentences[i]);
    ScanStepCases(sentences, i, st);
    if f != [] {
      TrimmedStrip(sentences[i]);
      if Overflows(st.buffer, f) {
        EmitShape(st.emitted, st.buffer, Join(" ", sentences[Max0(i - 2)..i]), f);
      } else {
        ReseedBuffer(st.buffer, f);
      }
    }
  }

  /** A fragment covered before a step stays covered after it. */
  lemma ScanStepKeepsCovered(sentences: seq<string>, i: nat, st: ScanState, g: string)
    requires i < |sentences|
    requires ScanShape(st)
    requires Covered(st, g)
    ensures Covered(ScanStep(sentences, i, st), g)
  {
    var st' := ScanStep(sentences, i, st);
    var f := Strip(sentences[i]);
    ScanStepCases(sentences, i, st);
    ScanStepShape(sentences, i, st);
    if exists k :: 0 <= k < |st.emitted| && Contains(st.emitted[k], g) {
      var k :| 0 <= k < |st.emitted| && Contains(st.emitted[k], g);
      assert st'.emitted[k] == st.emitted[k];
    } else if f != [] {
      TrimmedStrip(sentences[i]);
      if Overflows(st.buffer, f) {
        assert st'.emitted[|st.emitted|] == Strip(st.buffer);
      } else if st.buffer != [] {
        ExtendBuffer(st.buffer, f, g);
      }
    }
  }

  /** After the step on fragment `i`, that fragment, if not blank, is covered. */
  lemma ScanStepCovers(sentences: seq<string>, i: nat, st: ScanState)
    requires i < |sentences|
    requires ScanShape(st)
    requires Strip(sentences[i]) != []
    ensures Covered(ScanStep(sentences, i, st), Strip(sentences[i]))
  {
    var f := Strip(sentences[i]);
    ScanStepCases(sentences, i, st);
    TrimmedStrip(sentences[i]);
    if Overflows(st.buffer, f) {
      ReseedBuffer(Join(" ", sentences[Max0(i - 2)..i]), f);
    } else if st.buffer == [] {
      ReseedBuffer(st.buffer, f);
    } else {
      ExtendBufferAdds(st.buffer, f);
    }
    assert ScanStep(sentences, i, st).buffer != [];
  }

  /** Every non-blank fragment before `n` is covered in `st`. */
  ghost predicate AllCovered(sentences: seq<string>, n: nat, st: ScanState)
    requires n <= |sentences|
  {
    forall j :: 0 <= j < n && Strip(sentences[j]) != [] ==> Covered(st, Strip(sentences[j]))
  }

  /** The step on fragment `i` keeps the earlier fragments covered and covers fragment `i`. */
  lemma ScanStepAllCovered(sentences: seq<string>, i: nat, st: ScanState)
    requires i < |sentences|
    requires ScanShape(st) && AllCovered(sentences, i, st)
    ensures AllCovered(sentences, i + 1, ScanStep(sentences, i, st))
  {
    forall j | 0 <= j < i + 1 && Strip(sentences[j]) != []
      ensures Covered(ScanStep(sentences, i, st), Strip(sentences[j]))
    {
      if j == i {
        ScanStepCovers(sentences, i, st);
      } else {
        ScanStepKeepsCovered(sentences, i, st, Strip(sentences[j]));
      }
    }
  }

  /** Flushing a well-shaped state yields trimmed chunks that hold everything covered. */
  lemma FlushCovers(st: ScanState, g: string)
    requires ScanShape(st)
    ensures forall k :: 0 <= k < |Flush(st)| ==> Trimmed(Flush(st)[k])
    ensures Covered(st, g) ==> exists k :: 0 <= k < |Flush(st)| && Contains(Flush(st)[k], g)
  {
    var r := Flush(st);
    if Strip(st.buffer) != [] {
      TrimmedStrip(st.buffer);
    }
    if Covered(st, g) {
      if exists k :: 0 <= k < |st.emitted| && Contains(st.emitted[k], g) {
        var k :| 0 <= k < |st.emitted| && Contains(st.emitted[k], g);
        assert r[k] == st.emitted[k];
      } else {
        LStripOfNonBlankEnd(st.buffer);
        assert r[|st.emitted|] == Strip(st.buffer);
      }
    }
  }

  lemma {:induction false} ScanInvariant(sentences: seq<string>, n: nat)
    requires n <= |sentences|
    ensures ScanShape(Scan(sentences, n)) && AllCovered(sentences, n, Scan(sentences, n))
    decreases n
  {
    if n > 0 {
      var m: nat := n - 1;
      ScanInvariant(sentences, m);
      ScanStepShape(sentences, m, Scan(sentences, m));
      ScanStepAllCovered(sentences, m, Scan(sentences, m));
      ScanUnfold(sentences, m + 1);
    }
  }

  /**
   * Every chunk is stripped and non-empty, and every non-blank sentence
   * fragment of the text appears, stripped, in some chunk: chunking loses no
   * sentence.
   */
  lemma ChunkContentsCover(text: string)
    ensures Blank(text) ==> ChunkContents(text) == []
    ensures forall k :: 0 <= k < |ChunkContents(text)| ==> Trimmed(ChunkContents(text)[k])
    ensures forall i :: 0 <= i < |SplitSentences(text)| && !Blank(SplitSentences(text)[i]) ==>
              exists k :: 0 <= k < |ChunkContents(text)| && Contains(ChunkContents(text)[k], Strip(SplitSentences(text)[i]))
  {
    var sentences := SplitSentences(text);
    StripEmptyIffBlank(text);
    if Strip(text) == [] {
      forall i | 0 <= i < |sentences| ensures Blank(sentences[i]) {
        BlankSentences(text, i);
      }
    } else {
      var st := Scan(sentences, |sentences|);
      assert ChunkContents(text) == Flush(st);
      ScanInvariant(sentences, |sentences|);
      FlushAll(sentences, st);
    }
  }

  /** Flushing the final state gives trimmed chunks that hold every non-blank fragment. */
  lemma FlushAll(sentences: seq<string>, st: ScanState)
    requires ScanShape(st) && AllCovered(sentences, |sentences|, st)
    ensures forall k :: 0 <= k < |Flush(st)| ==> Trimmed(Flush(st)[k])
    ensures forall i :: 0 <= i < |sentences| && !Blank(sentences[i]) ==>
              exists k :: 0 <= k < |Flush(st)| && Contains(Flush(st)[k], Strip(sentences[i]))
  {
    FlushCovers(st, "");
    forall i | 0 <= i < |sentences| && !Blank(sentences[i])
      ensures exists k :: 0 <= k < |Flush(st)| && Contains(Flush(st)[k], Strip(sentences[i]))
    {
      StripEmptyIffBlank(sentences[i]);
      FlushCovers(st, Strip(sentences[i]));
    }
  }

  /**
   * `chunk_text`: splits `text` into sentence fragments and accumulates them
   * into overlapping chunks. `fileHash` is the hash of the file at
   * `filePath` and `processedAt` the extraction timestamp.
   */
  method ChunkText(text: string, filePath: string, repoName: string, fileHash: string, processedAt: string)
    returns (chunks: seq<DocumentChunk>)
    ensures chunks == MakeChunks(ChunkContents(text), filePath, repoName, fileHash, processedAt)
  {
    if Strip(text) == [] {
      return [];
    }
    var sentences := SplitSentences(text);
    ghost var emitted: seq<string>;
    var current: string;
    chunks, emitted, current := ScanFragments(sentences, filePath, repoName, fileHash, processedAt);
    assert ChunkContents(text) == Flush(ScanState(emitted, current));
    if Strip(current) != [] {
      chunks := AppendChunk(chunks, emitted, Strip(current), filePath, repoName, fileHash, processedAt);
    }
  }

  /** The loop of `chunk_text` over the fragments, before the final flush. */
  method ScanFragments(sentences: seq<string>, filePath: string, repoName: string, fileHash: string, processedAt: string)
    returns (chunks: seq<DocumentChunk>, ghost emitted: seq<string>, current: string)
    ensures ScanState(emitted, current) == Scan(sentences, |sentences|)
    ensures chunks == MakeChunks(emitted, filePath, repoName, fileHash, processedAt)
  {
    chunks := [];
    emitted := [];
    current := "";
    var i := 0;
    while i < |sentences|
      invariant 0 <= i <= |sentences|
      invariant Scan(sentences, i) == ScanState(emitted, current)
      invariant chunks == MakeChunks(emitted, filePath, repoName, fileHash, processedAt)
    {
      chunks, emitted, current := ChunkFragment(sentences, i, chunks, emitted, current,
                                                filePath, repoName, fileHash, processedAt);
      ScanUnfold(sentences, i + 1);
      i := i + 1;
    }
  }

  /**
   * One pass of `chunk_text`'s loop: a blank fragment is skipped; one that
   * would overflow the buffer emits it as a chunk and reseeds it with the
   * overlap; any other is appended to the buffer.
   */
  method ChunkFragment(sentences: seq<string>, i: nat, chunks: seq<DocumentChunk>, ghost emitted: seq<string>,
                       current: string, filePath: string, repoName: string, fileHash: string, processedAt: string)
    returns (chunks': seq<DocumentChunk>, ghost emitted': seq<string>, current': string)
    requires i < |sentences|
    requires chunks == MakeChunks(emitted, filePath, repoName, fileHash, processedAt)
    ensures ScanState(emitted', current') == ScanStep(sentences, i, ScanState(emitted, current))
    ensures chunks' == MakeChunks(emitted', filePath, repoName, fileHash, processedAt)
  {
    chunks', emitted', current' := chunks, emitted, current;
    var sentence := Strip(sentences[i]);
    if sentence != [] {
      if Overflows(current, sentence) {
        chunks' := AppendChunk(chunks, emitted, Strip(current), filePath, repoName, fileHash, processedAt);
        emitted' := emitted + [Strip(current)];
        current' := Join(" ", sentences[Max0(i - 2)..i]) + " " + sentence;
      } else {
        current' := current + " " + sentence;
      }
    }
  }

  /** Appends the chunk for `content` at the next index. */
  method AppendChunk(chunks: seq<DocumentChunk>, ghost emitted: seq<string>, content: string,
                     filePath: string, repoName: string, fileHash: string, processedAt: string)
    returns (longer: seq<DocumentChunk>)
    requires chunks == MakeChunks(emitted, filePath, repoName, fileHash, processedAt)
    ensures longer == MakeChunks(emitted + [content], filePath, repoName, fileHash, processedAt)
  {
    MakeChunksAppend(emitted, content, filePath, repoName, fileHash, processedAt);
    longer := chunks + [MakeChunk(content, filePath, repoName, fileHash, |chunks|, processedAt)];
  }

  /** Chunk ids of one file differ from each other, because the indexes do. */
  lemma ChunkIdsDistinct(repoName: string, filePath: string, i: nat, j: nat)
    requires i != j
    ensures ChunkId(repoName, filePath, i) != ChunkId(repoName, filePath, j)
  {
    NatToStringInjective(i, j);
    var p := repoName + "_" + Stem(filePath) + "_";
    assert (p + NatToString(i))[|p|..] == NatToString(i);
    assert (p + NatToString(j))[|p|..] == NatToString(j);
  }

  // ----- process_file -----

  /** The extractors `process_file` dispatches to. */
  datatype Format = Pdf | Docx | Markdown

  /** The if/elif chain of `process_file` on the lowercased suffix. */
  function FormatOf(ext: string): (r: Option<Format>)
    ensures r == Some(Pdf) <==> ext == ".pdf"
    ensures r == Some(Docx) <==> ext == ".docx" || ext == ".doc"
    ensures r == Some(Markdown) <==> ext == ".md" || ext == ".markdown"
  {
    if ext == ".pdf" then Some(Pdf)
    else if ext == ".docx" || ext == ".doc" then Some(Docx)
    else if ext == ".md" || ext == ".markdown" then Some(Markdown)
    else None
  }

  /** `chunk.embedding = model.encode(chunk.content)` for each chunk; None where the encoder raised. */
  function WithEmbeddings(chunks: seq<DocumentChunk>, embed: string -> Option<Embedding>): seq<DocumentChunk> {
    seq(|chunks|, k requires 0 <= k < |chunks| => chunks[k].(embedding := embed(chunks[k].content)))
  }

  /**
   * `process_file`: dispatches on the lowercased suffix, extracts the text
   * (`extract` never raises: a failing extractor gives ""), chunks it and
   * embeds every chunk; `embed` yielding None stands for the encoder raising.
   */
  method ProcessFile(filePath: string, repoName: string,
                     extract: (Format, string) -> string, fileHash: string, processedAt: string,
                     embed: string -> Option<Embedding>)
    returns (chunks: seq<DocumentChunk>)
    ensures FormatOf(Lower(Suffix(filePath))).None? ==> chunks == []
    ensures FormatOf(Lower(Suffix(filePath))).Some? ==>
              chunks == WithEmbeddings(
                MakeChunks(ChunkContents(extract(FormatOf(Lower(Suffix(filePath))).value, filePath)),
                           filePath, repoName, fileHash, processedAt),
                embed)
  {
    var format := FormatOf(Lower(Suffix(filePath)));
    if format.None? {
      return [];
    }
    var text := extract(format.value, filePath);
    if text == "" {
      assert Strip(text) == [];
      return [];
    }
    var plain := ChunkText(text, filePath, repoName, fileHash, processedAt);
    chunks := EmbedChunks(plain, embed);
  }

  /** The embedding loop of `process_file`: every chunk gets the encoder's output for its content. */
  method EmbedChunks(plain: seq<DocumentChunk>, embed: string -> Option<Embedding>) returns (chunks: seq<DocumentChunk>)
    ensures chunks == WithEmbeddings(plain, embed)
  {
    chunks := [];
    var k := 0;
    while k < |plain|
      invariant 0 <= k <= |plain|
      invariant chunks == WithEmbeddings(plain[..k], embed)
    {
      chunks := chunks + [plain[k].(embedding := embed(plain[k].content))];
      k := k + 1;
    }
    assert plain[..k] == plain;
  }

  /**
   * What `process_file` promises about its chunks: they are in index order
   * with the shared file fields, each keeps its content whatever the encoder
   * does, and only the embedding depends on `embed`.
   */
  lemma ProcessedChunks(contents: seq<string>, filePath: string, repoName: string, fileHash: string,
                        processedAt: string, embed: string -> Option<Embedding>)
    ensures var r := WithEmbeddings(MakeChunks(contents, filePath, repoName, fileHash, processedAt), embed);
            && |r| == |contents|
            && forall k :: 0 <= k < |r| ==>
                 && r[k].content == contents[k]
                 && r[k].sourceFile == filePath && r[k].repoName == repoName && r[k].fileHash == fileHash
                 && r[k].metadata.chunkIndex == k && r[k].chunkId == ChunkId(repoName, filePath, k)
                 && r[k].embedding == embed(contents[k])
  {
  }

  // ----- get_repo_files -----

  datatype TreeItem = TreeItem(kind: string, path: string)

  /** What `requests.get` gives for the tree API: a 200 with the `tree` list, another status, or an exception. */
  datatype TreeResponse = TreeOk(tree: seq<TreeItem>) | TreeStatus(code: int) | TreeRaised(message: string)

  const DefaultFileTypes: seq<string> := [".pdf", ".docx", ".doc", ".md", ".markdown"]
  const GitHubPrefix: string := "https://github.com/"

  predicate AllowedPath(path: string, fileTypes: seq<string>) {
    exists ft :: ft in fileTypes && EndsWith(Lower(path), ft)
  }

  /** The blob paths of `tree` whose lowercased path ends with an allowed type, in tree order. */
  function TreeFiles(tree: seq<TreeItem>, fileTypes: seq<string>): seq<string> {
    if tree == [] then []
    else
      var rest := TreeFiles(tree[1..], fileTypes);
      if tree[0].kind == "blob" && AllowedPath(tree[0].path, fileTypes) then [tree[0].path] + rest else rest
  }

  /** The listing keeps exactly the allowed blob paths of the tree and never grows. */
  lemma {:induction false} TreeFilesFacts(tree: seq<TreeItem>, fileTypes: seq<string>)
    ensures |TreeFiles(tree, fileTypes)| <= |tree|
    ensures forall p :: p in TreeFiles(tree, fileTypes) <==>
              exists it :: it in tree && it.kind == "blob" && it.path == p && AllowedPath(p, fileTypes)
  {
    if tree != [] {
      TreeFilesFacts(tree[1..], fileTypes);
      assert forall it :: it in tree <==> it == tree[0] || it in tree[1..];
    }
  }

  /** The inner loop of `get_repo_files`: keep the allowed blobs of one tree listing. */
  method FilterTree(tree: seq<TreeItem>, fileTypes: seq<string>) returns (files: seq<string>)
    ensures files == TreeFiles(tree, fileTypes)
  {
    files := [];
    var k := 0;
    while k < |tree|
      invariant 0 <= k <= |tree|
      invariant files + TreeFiles(tree[k..], fileTypes) == TreeFiles(tree, fileTypes)
    {
      var item := tree[k];
      assert tree[k..][1..] == tree[k + 1..];
      if item.kind == "blob" && AllowedPath(item.path, fileTypes) {
        files := files + [item.path];
      }
      k := k + 1;
    }
    assert tree[k..] == [];
  }

  function TreeUrl(repoPath: string, branch: string): string {
    "https://api.github.com/repos/" + repoPath + "/git/trees/" + branch + "?recursive=1"
  }

  /** The branches `get_repo_files` tries, in order. */
  const Branches: seq<string> := ["main", "master"]

  /** The filtered listing of the first branch whose tree request answers 200, or []. */
  function TryBranches(repoPath: string, branches: seq<string>, fileTypes: seq<string>,
                       fetch: string -> TreeResponse): seq<string>
    decreases |branches|
  {
    if branches == [] then []
    else
      match fetch(TreeUrl(repoPath, branches[0]))
      case TreeOk(tree) => TreeFiles(tree, fileTypes)
      case _ => TryBranches(repoPath, branches[1..], fileTypes, fetch)
  }

  /** The result `get_repo_files` returns, given what the HTTP client answers for each URL. */
  function RepoFiles(repoUrl: string, fileTypes: Option<seq<string>>, fetch: string -> TreeResponse): seq<string> {
    if !StartsWith(repoUrl, GitHubPrefix) then []
    else TryBranches(ReplaceAll(repoUrl, GitHubPrefix, ""), Branches, fileTypes.GetOr(DefaultFileTypes), fetch)
  }

  /** Whatever the client answers, the result lists only allowed blob paths of one tree. */
  lemma {:induction false} TryBranchesAllowed(repoPath: string, branches: seq<string>, fileTypes: seq<string>,
                                              fetch: string -> TreeResponse)
    ensures forall p :: p in TryBranches(repoPath, branches, fileTypes, fetch) ==> AllowedPath(p, fileTypes)
    decreases |branches|
  {
    if branches != [] {
      match fetch(TreeUrl(repoPath, branches[0]))
      case TreeOk(tree) => TreeFilesFacts(tree, fileTypes);
      case _ => TryBranchesAllowed(repoPath, branches[1..], fileTypes, fetch);
    }
  }

  /**
   * `get_repo_files`: tries the `main` then the `master` tree and filters the
   * first listing that answers 200; a non-GitHub URL gives [].
   */
  method GetRepoFiles(repoUrl: string, fileTypes: Option<seq<string>>, fetch: string -> TreeResponse)
    returns (files: seq<string>)
    ensures files == RepoFiles(repoUrl, fileTypes, fetch)
  {
    var types := if fileTypes.None? then DefaultFileTypes else fileTypes.value;
    if !StartsWith(repoUrl, GitHubPrefix) {
      return [];
    }
    var repoPath := ReplaceAll(repoUrl, GitHubPrefix, "");
    var b := 0;
    while b < |Branches|
      invariant 0 <= b <= |Branches|
      invariant TryBranches(repoPath, Branches[b..], types, fetch) == TryBranches(repoPath, Branches, types, fetch)
    {
      var response := fetch(TreeUrl(repoPath, Branches[b]));
      if response.TreeOk? {
        files := FilterTree(response.tree, types);
        return;
      }
      assert Branches[b..][1..] == Branches[b + 1..];
      b := b + 1;
    }
    return [];
  }

  /** What `get_repo_files` promises: only allowed blob paths, and nothing for a non-GitHub URL. */
  lemma RepoFilesAllowed(repoUrl: string, fileTypes: Option<seq<string>>, fetch: string -> TreeResponse)
    ensures !StartsWith(repoUrl, GitHubPrefix) ==> RepoFiles(repoUrl, fileTypes, fetch) == []
    ensures forall p :: p in RepoFiles(repoUrl, fileTypes, fetch) ==> AllowedPath(p, fileTypes.GetOr(DefaultFileTypes))
  {
    if StartsWith(repoUrl, GitHubPrefix) {
      TryBranchesAllowed(ReplaceAll(repoUrl, GitHubPrefix, ""), Branches, fileTypes.GetOr(DefaultFileTypes), fetch);
    }
  }

  /** The message of the NameError every `requests.get` call raises in this file. */
  const RequestsMissing: string := "name 'requests' is not defined"

  /** The HTTP client as doc_processor.py has it: the name `requests` is unbound. */
  function UnboundRequests(url: string): TreeResponse {
    TreeRaised(RequestsMissing)
  }

  lemma {:induction false} TryBranchesUnbound(repoPath: string, branches: seq<string>, fileTypes: seq<string>)
    ensures TryBranches(repoPath, branches, fileTypes, UnboundRequests) == []
    decreases |branches|
  {
    if branches != [] {
      TryBranchesUnbound(repoPath, branches[1..], fileTypes);
    }
  }

  /**
   * `requests` is never imported by doc_processor.py, so every HTTP call of
   * `get_repo_files` raises NameError inside its try block: as written the
   * function returns [] for every repository URL.
   */
  lemma RepoFilesAsWritten(repoUrl: string, fileTypes: Option<seq<string>>)
    ensures RepoFiles(repoUrl, fileTypes, UnboundRequests) == []
  {
    if StartsWith(repoUrl, GitHubPrefix) {
      TryBranchesUnbound(ReplaceAll(repoUrl, GitHubPrefix, ""), Branches, fileTypes.GetOr(DefaultFileTypes));
    }
  }

  /** A tree with one Markdown file: listed with a working client, lost as written. */
  lemma RepoFilesCounterexample()
    ensures RepoFiles("https://github.com/u/r", None, UnboundRequests) == []
    ensures RepoFiles("https://github.com/u/r", None, (url: string) => TreeOk([TreeItem("blob", "a.md")])) == ["a.md"]
  {
    RepoFilesAsWritten("https://github.com/u/r", None);
    assert EndsWith(Lower("a.md"), ".md");
    assert AllowedPath("a.md", DefaultFileTypes);
    assert StartsWith("https://github.com/u/r", GitHubPrefix);
  }
}
