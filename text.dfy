/**
 * The few Python `str` operations the core relies on, written out so that
 * their edge cases are explicit: `isspace`, `strip`, `split()`, `split(sep)`,
 * `join`, `lower`, `replace`, `startswith`/`endswith` and `str(int)`.
 */
module Text {

  /** Python's `str.isspace` for one character (the full Unicode set it accepts). */
  predicate IsSpace(c: char) {
    c == ' ' || c == '\t' || c == '\n' || c == '\r' || c == '\U{B}' || c == '\U{C}'
    || ('\U{1C}' <= c <= '\U{1F}') || c == '\U{85}' || c == '\U{A0}' || c == '\U{1680}'
    || ('\U{2000}' <= c <= '\U{200A}') || c == '\U{2028}' || c == '\U{2029}'
    || c == '\U{202F}' || c == '\U{205F}' || c == '\U{3000}'
  }

  /** True when `not s.strip()` in Python: the string is empty or whitespace only. */
  predicate Blank(s: string) {
    forall i :: 0 <= i < |s| ==> IsSpace(s[i])
  }

  /** A string that `strip()` leaves alone and that is not empty. */
  predicate Trimmed(s: string) {
    s != [] && !IsSpace(s[0]) && !IsSpace(s[|s| - 1])
  }

  /** Python's `s.lstrip()`. */
  function LStrip(s: string): string {
    if s != [] && IsSpace(s[0]) then LStrip(s[1..]) else s
  }

  /** Python's `s.rstrip()`. */
  function RStrip(s: string): string {
    if s != [] && IsSpace(s[|s| - 1]) then RStrip(s[..|s| - 1]) else s
  }

  /** `lstrip()` removes a blank prefix and nothing more. */
  lemma {:induction false} LStripFacts(s: string)
    ensures |LStrip(s)| <= |s| && LStrip(s) == s[|s| - |LStrip(s)|..]
    ensures LStrip(s) == [] || !IsSpace(LStrip(s)[0])
    ensures Blank(s[..|s| - |LStrip(s)|])
    decreases |s|
  {
    if s != [] && IsSpace(s[0]) {
      LStripFacts(s[1..]);
      var r := LStrip(s[1..]);
      forall i | 0 <= i < |s| - |r| ensures IsSpace(s[i]) {
        if i > 0 {
          assert s[1..][..|s| - 1 - |r|][i - 1] == s[i];
        }
      }
    } else {
      assert s[|s| - |s|..] == s;
    }
  }

  /** `rstrip()` removes a blank suffix and nothing more. */
  lemma {:induction false} RStripFacts(s: string)
    ensures |RStrip(s)| <= |s| && RStrip(s) == s[..|RStrip(s)|]
    ensures RStrip(s) == [] || !IsSpace(RStrip(s)[|RStrip(s)| - 1])
    ensures Blank(s[|RStrip(s)|..])
    decreases |s|
  {
    if s != [] && IsSpace(s[|s| - 1]) {
      var t := s[..|s| - 1];
      RStripFacts(t);
      var r := RStrip(t);
      assert t[..|r|] == s[..|r|];
      forall i | 0 <= i < |s| - |r| ensures IsSpace(s[|r|..][i]) {
        if i < |s| - 1 - |r| {
          assert s[|r|..][i] == t[|r|..][i];
        }
      }
    } else {
      assert s[..|s|] == s;
    }
  }

  /** Python's `s.strip()`. */
  function Strip(s: string): string {
    RStrip(LStrip(s))
  }

  /** The leading run of non-space characters removed. */
  function DropWord(s: string): (r: string)
    ensures |r| <= |s|
    ensures r == [] || IsSpace(r[0])
  {
    if s != [] && !IsSpace(s[0]) then DropWord(s[1..]) else s
  }

  /** Python's `len(s.split())`: the number of maximal runs of non-space characters. */
  function WordCount(s: string): nat
    decreases |s|
  {
    if s == [] then 0
    else if IsSpace(s[0]) then WordCount(s[1..])
    else 1 + WordCount(DropWord(s))
  }

  /** Python's `sep.join(xs)`. */
  function Join(sep: string, xs: seq<string>): string {
    if xs == [] then ""
    else if |xs| == 1 then xs[0]
    else xs[0] + sep + Join(sep, xs[1..])
  }

  /** Python's `s.split(sep)` for a one-character separator (never an empty list). */
  function SplitOn(s: string, sep: char): (r: seq<string>)
    ensures |r| >= 1
  {
    if s == [] then [""]
    else if s[0] == sep then [""] + SplitOn(s[1..], sep)
    else
      var rest := SplitOn(s[1..], sep);
      [[s[0]] + rest[0]] + rest[1..]
  }

  predicate StartsWith(s: string, prefix: string) {
    |prefix| <= |s| && s[..|prefix|] == prefix
  }

  predicate EndsWith(s: string, suffix: string) {
    |suffix| <= |s| && s[|s| - |suffix|..] == suffix
  }

  /** Python's `str.lower()` on the ASCII letters; other characters are kept. */
  function Lower(s: string): (r: string)
    ensures |r| == |s|
  {
    seq(|s|, i requires 0 <= i < |s| => LowerChar(s[i]))
  }

  function LowerChar(c: char): char {
    if 'A' <= c <= 'Z' then (c as int + 32) as char else c
  }

  /** Python's `s.replace(old, new)`: every non-overlapping occurrence, left to right. */
  function ReplaceAll(s: string, target: string, repl: string): string
    requires target != []
    decreases |s|
  {
    if |s| < |target| then s
    else if s[..|target|] == target then repl + ReplaceAll(s[|target|..], target, repl)
    else [s[0]] + ReplaceAll(s[1..], target, repl)
  }

  function Digit(d: nat): char
    requires d < 10
  {
    "0123456789"[d]
  }

  /** Python's `str(n)` for a non-negative integer. */
  function NatToString(n: nat): (r: string)
    ensures r != []
  {
    if n < 10 then [Digit(n)] else NatToString(n / 10) + [Digit(n % 10)]
  }

  lemma DigitInjective(a: nat, b: nat)
    requires a < 10 && b < 10 && Digit(a) == Digit(b)
    ensures a == b
  {
  }

  /** Distinct numbers print differently. */
  lemma {:induction false} NatToStringInjective(i: nat, j: nat)
    requires i != j
    ensures NatToString(i) != NatToString(j)
    decreases i + j
  {
    if i < 10 && j < 10 {
      if NatToString(i) == NatToString(j) {
        assert NatToString(i)[0] == Digit(i);
        DigitInjective(i, j);
      }
    } else if i >= 10 && j >= 10 {
      var si, sj := NatToString(i), NatToString(j);
      if si == sj {
        assert si[|si| - 1] == Digit(i % 10) && sj[|sj| - 1] == Digit(j % 10);
        DigitInjective(i % 10, j % 10);
        assert si[..|si| - 1] == NatToString(i / 10);
        assert sj[..|sj| - 1] == NatToString(j / 10);
        if i / 10 != j / 10 {
          NatToStringInjective(i / 10, j / 10);
        }
      }
    } else {
      assert |NatToString(i)| != |NatToString(j)|;
    }
  }

  /** Python's `str(i)` for any integer. */
  function IntToString(i: int): string {
    if i < 0 then "-" + NatToString(-i) else NatToString(i)
  }

  /** `t` occurs in `s` starting at index `k`. */
  predicate OccursAt(s: string, t: string, k: nat) {
    k + |t| <= |s| && s[k..k + |t|] == t
  }

  /** Python's `t in s`. */
  ghost predicate Contains(s: string, t: string) {
    exists k: nat :: OccursAt(s, t, k)
  }

  // ----- lemmas -----

  lemma ContainsSuffix(p: string, t: string)
    ensures Contains(p + t, t)
  {
    assert OccursAt(p + t, t, |p|);
  }

  lemma ContainsInPrefix(s: string, u: string, t: string)
    requires Contains(s, t)
    requires |s| <= |u| && u[..|s|] == s
    ensures Contains(u, t)
  {
    var k: nat :| OccursAt(s, t, k);
    assert u[k..k + |t|] == s[k..k + |t|];
    assert OccursAt(u, t, k);
  }

  lemma ContainsAfter(p: string, s: string, t: string)
    requires Contains(s, t)
    ensures Contains(p + s, t)
  {
    var k: nat :| OccursAt(s, t, k);
    assert (p + s)[|p| + k..|p| + k + |t|] == s[k..k + |t|];
    assert OccursAt(p + s, t, |p| + k);
  }

  /** Every piece of `sep.join(xs)` occurs in it. */
  lemma {:induction false} JoinContains(sep: string, xs: seq<string>, i: nat)
    requires i < |xs|
    ensures Contains(Join(sep, xs), xs[i])
    decreases |xs|
  {
    if |xs| == 1 {
      assert OccursAt(Join(sep, xs), xs[0], 0);
    } else if i == 0 {
      assert OccursAt(Join(sep, xs), xs[0], 0);
    } else {
      JoinContains(sep, xs[1..], i - 1);
      ContainsAfter(xs[0] + sep, Join(sep, xs[1..]), xs[i]);
    }
  }

  lemma {:induction false} DropWordAppend(a: string, b: string)
    requires b != [] && IsSpace(b[0])
    ensures DropWord(a + b) == DropWord(a) + b
    decreases |a|
  {
    if a == [] {
      assert a + b == b;
    } else if IsSpace(a[0]) {
    } else {
      assert (a + b)[1..] == a[1..] + b;
      DropWordAppend(a[1..], b);
    }
  }

  /** The word count of `a + " " + b` is the sum of the word counts. */
  lemma {:induction false} WordCountJoin(a: string, b: string)
    ensures WordCount(a + " " + b) == WordCount(a) + WordCount(b)
    decreases |a|
  {
    if a == [] {
      assert a + " " + b == " " + b;
      assert (" " + b)[1..] == b;
    } else if IsSpace(a[0]) {
      assert (a + " " + b)[1..] == a[1..] + " " + b;
      WordCountJoin(a[1..], b);
    } else {
      assert a + " " + b == a + (" " + b);
      DropWordAppend(a, " " + b);
      var d := DropWord(a);
      assert d + (" " + b) == d + " " + b;
      WordCountJoin(d, b);
    }
  }

  lemma {:induction false} LStripOfNonBlankEnd(s: string)
    requires s != [] && !IsSpace(s[|s| - 1])
    ensures Trimmed(LStrip(s)) && Strip(s) == LStrip(s)
    decreases |s|
  {
    if IsSpace(s[0]) {
      LStripOfNonBlankEnd(s[1..]);
    } else {
      assert RStrip(s) == s;
    }
  }

  /**
   * Appending `" " + f`, for a trimmed `f`, to a buffer: stripping the result
   * gives `f` alone when the buffer is blank, and otherwise the left-stripped
   * buffer, a space and `f`.
   */
  lemma {:induction false} StripAppend(x: string, f: string)
    requires Trimmed(f)
    ensures Strip(x + " " + f) == if Blank(x) then f else LStrip(x) + " " + f
    decreases |x|
  {
    if x == [] {
      assert x + " " + f == " " + f;
      assert (" " + f)[1..] == f;
      assert LStrip(f) == f;
    } else if IsSpace(x[0]) {
      assert (x + " " + f)[1..] == x[1..] + " " + f;
      StripAppend(x[1..], f);
      if !Blank(x) {
        var i :| 0 <= i < |x| && !IsSpace(x[i]);
        assert x[1..][i - 1] == x[i];
      } else {
        assert Blank(x[1..]) by {
          forall i | 0 <= i < |x| - 1 ensures IsSpace(x[1..][i]) {
            assert x[1..][i] == x[i + 1];
          }
        }
      }
    } else {
      assert !Blank(x) by { assert !IsSpace(x[0]); }
      assert LStrip(x + " " + f) == x + " " + f;
    }
    var y := x + " " + f;
    LStripOfNonBlankEnd(y);
  }

  /** `strip()` gives "" exactly for blank strings. */
  lemma StripEmptyIffBlank(s: string)
    ensures Strip(s) == [] <==> Blank(s)
  {
    LStripFacts(s);
    var l := LStrip(s);
    RStripFacts(l);
    if l != [] {
      assert !IsSpace(l[0]);
      assert s[|s| - |l|] == l[0];
    } else {
      assert s[..|s|] == s;
    }
  }

  /** A non-empty `strip()` result starts and ends with non-space characters. */
  lemma TrimmedStrip(s: string)
    requires Strip(s) != []
    ensures Trimmed(Strip(s))
  {
    LStripFacts(s);
    var l := LStrip(s);
    RStripFacts(l);
    var r := RStrip(l);
    assert r[0] == l[0];
  }

  /** Stripping a string that ends in a non-space, extended by a space and a trimmed `f`. */
  lemma StripExtend(b: string, f: string)
    requires b != [] && !IsSpace(b[|b| - 1]) && Trimmed(f)
    ensures Strip(b + " " + f) == Strip(b) + " " + f
  {
    StripAppend(b, f);
    assert !Blank(b) by { assert !IsSpace(b[|b| - 1]); }
    LStripOfNonBlankEnd(b);
  }

  /** Appending `" " + f` keeps what `b` contains and adds `f`. */
  lemma ContainsExtend(b: string, f: string, g: string)
    requires Contains(b, g)
    ensures Contains(b + " " + f, g)
    ensures Contains(b + " " + f, f)
  {
    var k: nat :| OccursAt(b, g, k);
    var y := b + " " + f;
    assert y[k..k + |g|] == b[k..k + |g|];
    assert OccursAt(y, g, k);
    assert OccursAt(y, f, |b| + 1);
  }

  lemma {:induction false} SplitOnPlain(a: string, sep: char)
    requires sep !in a
    ensures SplitOn(a, sep) == [a]
    decreases |a|
  {
    if a != [] {
      assert a[0] != sep;
      SplitOnPlain(a[1..], sep);
      assert a == [a[0]] + a[1..];
    }
  }

  lemma {:induction false} SplitOnPiece(a: string, sep: char, rest: string)
    requires sep !in a
    ensures SplitOn(a + [sep] + rest, sep) == [a] + SplitOn(rest, sep)
    decreases |a|
  {
    if a == [] {
      assert a + [sep] + rest == [sep] + rest;
      assert ([sep] + rest)[1..] == rest;
    } else {
      assert (a + [sep] + rest)[1..] == a[1..] + [sep] + rest;
      assert (a + [sep] + rest)[0] == a[0] != sep;
      SplitOnPiece(a[1..], sep, rest);
      assert a == [a[0]] + a[1..];
    }
  }

  /** Splitting a joined list of separator-free pieces gives the pieces back. */
  lemma {:induction false} SplitOnJoin(xs: seq<string>, sep: char)
    requires xs != []
    requires forall i :: 0 <= i < |xs| ==> sep !in xs[i]
    ensures SplitOn(Join([sep], xs), sep) == xs
    decreases |xs|
  {
    assert sep !in xs[0];
    if |xs| == 1 {
      SplitOnPlain(xs[0], sep);
    } else {
      var tail := xs[1..];
      assert forall i :: 0 <= i < |tail| ==> sep !in tail[i] by {
        forall i | 0 <= i < |tail| ensures sep !in tail[i] {
          assert tail[i] == xs[i + 1];
        }
      }
      SplitOnJoin(tail, sep);
      var rest := Join([sep], tail);
      assert Join([sep], xs) == xs[0] + [sep] + rest;
      SplitOnPiece(xs[0], sep, rest);
      assert [xs[0]] + tail == xs;
    }
  }

  /** Joining the pieces of a split with the separator gives the string back. */
  lemma {:induction false} JoinSplitOn(s: string, sep: char)
    ensures Join([sep], SplitOn(s, sep)) == s
    decreases |s|
  {
    if s != [] {
      JoinSplitOn(s[1..], sep);
      var rest := SplitOn(s[1..], sep);
      if s[0] == sep {
        assert s == [sep] + s[1..];
      } else {
        var r := [[s[0]] + rest[0]] + rest[1..];
        if |rest| == 1 {
          assert s == [s[0]] + s[1..];
        } else {
          assert r[1..] == rest[1..];
          assert Join([sep], rest) == rest[0] + [sep] + Join([sep], rest[1..]);
          assert s == [s[0]] + s[1..];
        }
      }
    }
  }

  /** The pieces of a split never contain the separator. */
  lemma {:induction false} SplitOnPieces(s: string, sep: char)
    ensures forall i :: 0 <= i < |SplitOn(s, sep)| ==> sep !in SplitOn(s, sep)[i]
    decreases |s|
  {
    if s != [] {
      SplitOnPieces(s[1..], sep);
    }
  }

  lemma {:induction false} ReplaceAbsentChar(s: string, c: char, repl: string)
    requires c !in s
    ensures ReplaceAll(s, [c], repl) == s
    decreases |s|
  {
    if |s| >= 1 {
      assert s[..1] == [s[0]];
      ReplaceAbsentChar(s[1..], c, repl);
      assert s == [s[0]] + s[1..];
    }
  }
}
