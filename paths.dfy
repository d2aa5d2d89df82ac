/** The parts of `pathlib.PurePosixPath` the core uses: `name`, `suffix` and `stem`. */
module Paths {
  import opened Text

  /** Index of the last occurrence of `c` in `s`, or -1 (Python's `str.rfind`). */
  function RFind(s: string, c: char): (i: int)
    ensures -1 <= i < |s|
  {
    if s == [] then -1
    else if s[|s| - 1] == c then |s| - 1
    else RFind(s[..|s| - 1], c)
  }

  /** `RFind` lands on `c` when it finds anything. */
  lemma {:induction false} RFindHit(s: string, c: char)
    ensures RFind(s, c) >= 0 ==> s[RFind(s, c)] == c
    decreases |s|
  {
    if s != [] && s[|s| - 1] != c {
      var t := s[..|s| - 1];
      RFindHit(t, c);
      if RFind(t, c) >= 0 {
        assert s[RFind(t, c)] == t[RFind(t, c)];
      }
    }
  }

  /** No `c` comes after the index `RFind` returns. */
  lemma {:induction false} RFindAfter(s: string, c: char, j: int)
    requires RFind(s, c) < j < |s|
    ensures s[j] != c
    decreases |s|
  {
    if s[|s| - 1] != c && j < |s| - 1 {
      var t := s[..|s| - 1];
      RFindAfter(t, c, j);
      assert s[j] == t[j];
    }
  }

  /**
   * The final path component: everything after the last '/'. A path ending
   * in '/' gives "" here, where `pathlib` first drops the trailing slash;
   * repository file paths never end in '/'.
   */
  function Name(path: string): string {
    var i := RFind(path, '/');
    path[i + 1..]
  }

  /** The name holds no '/' and ends the path. */
  lemma NameFacts(path: string)
    ensures '/' !in Name(path)
    ensures EndsWith(path, Name(path))
  {
    var i := RFind(path, '/');
    var n := path[i + 1..];
    forall k | 0 <= k < |n| ensures n[k] != '/' {
      assert n[k] == path[i + 1 + k];
      RFindAfter(path, '/', i + 1 + k);
    }
    assert path[|path| - |n|..] == n;
  }

  /** True when the name has a dot that `suffix` treats as starting an extension. */
  predicate HasSuffix(name: string) {
    0 < RFind(name, '.') < |name| - 1
  }

  /** `Path(path).suffix`: the last extension with its dot, or "". */
  function Suffix(path: string): string {
    var name := Name(path);
    if HasSuffix(name) then name[RFind(name, '.')..] else ""
  }

  /** `Path(path).stem`: the name without its last extension. */
  function Stem(path: string): string {
    var name := Name(path);
    if HasSuffix(name) then name[..RFind(name, '.')] else name
  }

  /** The stem followed by the suffix is the name; a suffix starts with '.' and has no other dot. */
  lemma StemSuffix(path: string)
    ensures Stem(path) + Suffix(path) == Name(path)
    ensures Suffix(path) == "" || (Suffix(path)[0] == '.' && 2 <= |Suffix(path)| && '.' !in Suffix(path)[1..])
  {
    var name := Name(path);
    if HasSuffix(name) {
      var i := RFind(name, '.');
      RFindHit(name, '.');
      assert name[..i] + name[i..] == name;
      var sfx := name[i..];
      forall j | 0 <= j < |sfx| - 1 ensures sfx[1..][j] != '.' {
        assert sfx[1..][j] == name[i + 1 + j];
        RFindAfter(name, '.', i + 1 + j);
      }
    }
  }
}
