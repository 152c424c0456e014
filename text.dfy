/**
 * The string primitives of the Go standard library that the plugin relies on,
 * over ASCII strings: strings.Index, strings.LastIndex, strings.Replace (with
 * n = -1), strings.Join, strings.ToLower on one character, and the line
 * splitting that bufio.Scanner performs with its default ScanLines splitter.
 */
module Text {
  import opened Seqs

  /** `pat` occurs in `s` starting at offset `i`. */
  predicate OccursAt(s: string, pat: string, i: int) {
    0 <= i && i + |pat| <= |s| && s[i..i + |pat|] == pat
  }

  /** `pat` occurs nowhere in `s`. */
  ghost predicate Absent(s: string, pat: string) {
    forall j :: !OccursAt(s, pat, j)
  }

  /** strings.Index: the offset of the first occurrence of `pat` in `s`, or -1. */
  function IndexOf(s: string, pat: string): (r: int)
    ensures r == -1 || OccursAt(s, pat, r)
    ensures r == -1 ==> Absent(s, pat)
    ensures forall j :: 0 <= j < r ==> !OccursAt(s, pat, j)
  {
    IndexFrom(s, pat, 0)
  }

  /** The first occurrence of `pat` in `s` at an offset of at least `k`, or -1. */
  function IndexFrom(s: string, pat: string, k: nat): (r: int)
    ensures r == -1 || (k <= r && OccursAt(s, pat, r))
    ensures forall j :: k <= j && (r == -1 || j < r) ==> !OccursAt(s, pat, j)
    decreases |s| - k
  {
    if k + |pat| > |s| then -1
    else if s[k..k + |pat|] == pat then k
    else IndexFrom(s, pat, k + 1)
  }

  /** strings.LastIndex: the offset of the last occurrence of `pat` in `s`, or -1. */
  function LastIndexOf(s: string, pat: string): (r: int)
    ensures r == -1 || OccursAt(s, pat, r)
    ensures forall j :: r < j ==> !OccursAt(s, pat, j)
  {
    if |pat| > |s| then -1 else LastFrom(s, pat, |s| - |pat|)
  }

  /** The last occurrence of `pat` in `s` at an offset of at most `k`, or -1. */
  function LastFrom(s: string, pat: string, k: int): (r: int)
    requires -1 <= k && k + |pat| <= |s|
    ensures r == -1 || (r <= k && OccursAt(s, pat, r))
    ensures forall j :: r < j <= k ==> !OccursAt(s, pat, j)
    decreases k + 1
  {
    if k < 0 then -1
    else if s[k..k + |pat|] == pat then k
    else LastFrom(s, pat, k - 1)
  }

  /**
   * strings.Replace(s, from, to, -1): every non-overlapping occurrence of
   * `from`, found left to right, is replaced by `to`.
   */
  function ReplaceAll(s: string, from: string, to: string): string
    requires |from| > 0
    decreases |s|
  {
    if |s| < |from| then s
    else if s[..|from|] == from then to + ReplaceAll(s[|from|..], from, to)
    else [s[0]] + ReplaceAll(s[1..], from, to)
  }

  /** An occurrence in a suffix is an occurrence in the whole text, shifted. */
  lemma OccursInSuffix(s: string, k: int, pat: string, j: int)
    requires 0 <= k <= |s|
    ensures OccursAt(s[k..], pat, j) <==> j >= 0 && OccursAt(s, pat, k + j)
  {
    if j >= 0 && j + |pat| <= |s| - k {
      assert s[k..][j..j + |pat|] == s[k + j..k + j + |pat|];
    }
  }

  /** An occurrence of a non-empty pattern starts with the pattern's first character. */
  lemma OccursStartsWith(s: string, pat: string, i: int)
    requires |pat| > 0
    ensures OccursAt(s, pat, i) ==> s[i] == pat[0]
  {
    if OccursAt(s, pat, i) {
      assert s[i..i + |pat|][0] == s[i];
    }
  }

  /** Text in which `from` does not occur comes out of the replacement unchanged. */
  lemma {:induction false} ReplaceAllWithoutMatch(s: string, from: string, to: string)
    requires |from| > 0 && Absent(s, from)
    ensures ReplaceAll(s, from, to) == s
    decreases |s|
  {
    if |s| >= |from| {
      assert !OccursAt(s, from, 0);
      forall j ensures !OccursAt(s[1..], from, j) {
        OccursInSuffix(s, 1, from, j);
      }
      ReplaceAllWithoutMatch(s[1..], from, to);
    }
  }

  /**
   * Conditions under which replacing `from` by `to` cannot leave or create
   * an occurrence of `from`: both start with the same character, which
   * occurs nowhere else in either, and `to` does not begin with `from`.
   */
  ghost predicate SafeReplacement(from: string, to: string) {
    && |from| > 0
    && |to| >= |from|
    && to[0] == from[0]
    && (forall i :: 1 <= i < |from| ==> from[i] != from[0])
    && (forall i :: 1 <= i < |to| ==> to[i] != from[0])
    && to[..|from|] != from
  }

  /**
   * A string `w` without the first character of `from` that begins the
   * replaced text already began the original text.
   */
  lemma {:induction false} PrefixSurvivesReplacement(t: string, w: string, from: string, to: string)
    requires SafeReplacement(from, to)
    requires forall i :: 0 <= i < |w| ==> w[i] != from[0]
    ensures |w| <= |ReplaceAll(t, from, to)| && ReplaceAll(t, from, to)[..|w|] == w ==>
              |w| <= |t| && t[..|w|] == w
    decreases |t|
  {
    var r := ReplaceAll(t, from, to);
    if |w| > 0 && |t| >= |from| && |w| <= |r| && r[..|w|] == w {
      assert r[0] == w[0];
      if t[..|from|] == from {
        assert false;
      } else {
        var r' := ReplaceAll(t[1..], from, to);
        assert r == [t[0]] + r';
        assert r'[..|w| - 1] == w[1..];
        PrefixSurvivesReplacement(t[1..], w[1..], from, to);
        assert t[..|w|] == [t[0]] + t[1..][..|w| - 1];
      }
    }
  }

  /** After a safe replacement no occurrence of `from` remains. */
  lemma {:induction false} ReplaceAllRemovesEveryMatch(s: string, from: string, to: string)
    requires SafeReplacement(from, to)
    ensures Absent(ReplaceAll(s, from, to), from)
    decreases |s|
  {
    var r := ReplaceAll(s, from, to);
    if |s| < |from| {
      forall j ensures !OccursAt(r, from, j) { }
    } else if s[..|from|] == from {
      var x := ReplaceAll(s[|from|..], from, to);
      ReplaceAllRemovesEveryMatch(s[|from|..], from, to);
      assert r == to + x;
      assert r[|to|..] == x;
      forall q ensures !OccursAt(r, from, q) {
        if q >= |to| {
          OccursInSuffix(r, |to|, from, q - |to|);
        } else if q > 0 {
          OccursStartsWith(r, from, q);
          assert r[q] == to[q];
        } else if |r| >= |from| {
          assert r[..|from|] == to[..|from|];
        }
      }
    } else {
      var x := ReplaceAll(s[1..], from, to);
      ReplaceAllRemovesEveryMatch(s[1..], from, to);
      assert r == [s[0]] + x;
      assert r[1..] == x;
      forall q ensures !OccursAt(r, from, q) {
        if q > 0 {
          OccursInSuffix(r, 1, from, q - 1);
        } else {
          var w := from[1..];
          PrefixSurvivesReplacement(s[1..], w, from, to);
          assert |r| >= |from| ==> r[..|from|] == [s[0]] + x[..|w|];
          assert from == [from[0]] + w;
          assert s[..|from|] == [s[0]] + s[1..][..|w|];
        }
      }
    }
  }

  /** strings.Join: the parts with `sep` between each two neighbours. */
  function Join(parts: seq<string>, sep: string): string {
    if |parts| == 0 then ""
    else if |parts| == 1 then parts[0]
    else parts[0] + sep + Join(parts[1..], sep)
  }

  /**
   * The tokens bufio.Scanner yields with ScanLines: the text is cut at every
   * "\n" and one carriage return before it is dropped; a final piece without
   * a newline is a line too, but the empty piece after a final newline is not.
   */
  function Lines(s: string): (ls: seq<string>)
    ensures forall i :: 0 <= i < |ls| ==> '\n' !in ls[i]
    decreases |s|
  {
    if s == [] then []
    else
      var i := IndexOf(s, "\n");
      if i < 0 then
        assert forall j :: 0 <= j < |s| ==> s[j] != '\n' by {
          forall j | 0 <= j < |s| ensures s[j] != '\n' {
            assert !OccursAt(s, "\n", j);
            assert s[j..j + 1] == [s[j]];
          }
        }
        [DropCR(s)]
      else
        NoNewlineBefore(s, i);
        [DropCR(s[..i])] + Lines(s[i + 1..])
  }

  /** A trailing carriage return removed, as ScanLines does to each line. */
  function DropCR(s: string): (r: string)
    ensures forall c :: c in r ==> c in s
  {
    if |s| > 0 && s[|s| - 1] == '\r' then s[..|s| - 1] else s
  }

  /** Before the first "\n" of `s` there is no newline character. */
  lemma NoNewlineBefore(s: string, i: int)
    requires i == IndexOf(s, "\n") && i >= 0
    ensures '\n' !in s[..i] && s[i] == '\n'
  {
    forall j | 0 <= j < i ensures s[j] != '\n' {
      assert !OccursAt(s, "\n", j);
      assert s[j..j + 1] == [s[j]];
    }
    assert s[i..i + 1] == "\n";
  }

  /** Each line followed by "\n": the inverse of `Lines`. */
  function Unlines(ls: seq<string>): string {
    if ls == [] then "" else ls[0] + "\n" + Unlines(ls[1..])
  }

  /** Joining lines works piece by piece. */
  lemma {:induction false} UnlinesAppend(a: seq<string>, b: seq<string>)
    ensures Unlines(a + b) == Unlines(a) + Unlines(b)
    decreases |a|
  {
    if a == [] {
      assert a + b == b;
    } else {
      assert (a + b)[0] == a[0];
      assert (a + b)[1..] == a[1..] + b;
      UnlinesAppend(a[1..], b);
    }
  }

  /** An occurrence inside a slice is an occurrence in the whole text, shifted. */
  lemma OccursInSlice(s: string, a: int, b: int, pat: string, j: int)
    requires 0 <= a <= b <= |s|
    ensures OccursAt(s[a..b], pat, j) ==> OccursAt(s, pat, a + j) && a + j + |pat| <= b
  {
    if OccursAt(s[a..b], pat, j) {
      var u := s[a..b];
      forall t | 0 <= t < |u| ensures u[t] == s[a + t] { }
      assert s[a..b][j..j + |pat|] == s[a + j..a + j + |pat|];
    }
  }

  /**
   * Splitting a text without carriage returns into lines loses nothing but
   * the distinction between a text that ends with a newline and one that
   * does not.
   */
  lemma {:induction false} UnlinesOfLines(s: string)
    requires '\r' !in s
    ensures Unlines(Lines(s)) == if s == [] || s[|s| - 1] == '\n' then s else s + "\n"
    decreases |s|
  {
    if s != [] {
      var i := IndexOf(s, "\n");
      if i < 0 {
        DropNoCR(s);
        LastLine(s);
      } else {
        var rest := s[i + 1..];
        assert forall c :: c in rest ==> c in s;
        UnlinesOfLines(rest);
        assert forall c :: c in s[..i] ==> c in s;
        DropNoCR(s[..i]);
        GlueLine(s, i);
      }
    }
  }

  /** A text ending where it did before is rebuilt from its first line and the rest. */
  lemma GlueLine(s: string, i: int)
    requires s != [] && i == IndexOf(s, "\n") && i >= 0 && DropCR(s[..i]) == s[..i]
    requires var rest := s[i + 1..];
      Unlines(Lines(rest)) == if rest == [] || rest[|rest| - 1] == '\n' then rest else rest + "\n"
    ensures Unlines(Lines(s)) == if s[|s| - 1] == '\n' then s else s + "\n"
  {
    var rest := s[i + 1..];
    var t := Unlines(Lines(rest));
    FirstLine(s, i, t);
    NoNewlineBefore(s, i);
    hide Lines, Unlines;
    assert s == s[..i] + "\n" + rest;
    if rest == [] {
      assert t == [];
    } else if rest[|rest| - 1] == '\n' {
      assert t == rest;
      assert s[|s| - 1] == '\n';
    } else {
      assert s[|s| - 1] == rest[|rest| - 1];
      assert s[..i] + "\n" + (rest + "\n") == s + "\n";
    }
  }

  /** A non-empty text without a newline is one line. */
  lemma LastLine(s: string)
    requires s != [] && IndexOf(s, "\n") < 0 && DropCR(s) == s
    ensures s[|s| - 1] != '\n' && Unlines(Lines(s)) == s + "\n"
  {
    NoFinalNewline(s);
    SingleLine(s);
    hide Lines, Unlines, IndexOf, DropCR;
    UnlinesSingle(s);
  }

  /** A text without a newline does not end with one. */
  lemma NoFinalNewline(s: string)
    requires s != [] && IndexOf(s, "\n") < 0
    ensures s[|s| - 1] != '\n'
  {
    assert !OccursAt(s, "\n", |s| - 1);
    assert s[|s| - 1..|s|] == [s[|s| - 1]];
  }

  /** A text without a newline splits into itself, less a final CR. */
  lemma SingleLine(s: string)
    requires s != [] && IndexOf(s, "\n") < 0
    ensures Lines(s) == [DropCR(s)]
  {
  }

  /** One line is joined with a single trailing newline. */
  lemma UnlinesSingle(s: string)
    ensures Unlines([s]) == s + "\n"
  {
    assert [s][1..] == [];
    assert Unlines([s]) == s + "\n" + Unlines([]);
  }

  /** A text with a newline starts with the line that ends at its first newline. */
  lemma FirstLine(s: string, i: int, tail: string)
    requires s != [] && i == IndexOf(s, "\n") && i >= 0 && DropCR(s[..i]) == s[..i]
    requires tail == Unlines(Lines(s[i + 1..]))
    ensures Unlines(Lines(s)) == s[..i] + "\n" + tail
  {
    var ls := Lines(s);
    assert ls == [DropCR(s[..i])] + Lines(s[i + 1..]);
    assert ls[1..] == Lines(s[i + 1..]);
  }

  lemma DropNoCR(s: string)
    requires '\r' !in s
    ensures DropCR(s) == s
  {
    if |s| > 0 {
      assert s[|s| - 1] in s;
    }
  }

  predicate IsUpper(c: char) {
    'A' <= c <= 'Z'
  }

  /** strings.ToLower restricted to one ASCII character. */
  function ToLower(c: char): (r: char)
    ensures !IsUpper(r)
    ensures IsUpper(c) ==> 'a' <= r <= 'z' && r as int - c as int == 'a' as int - 'A' as int
    ensures !IsUpper(c) ==> r == c
  {
    if IsUpper(c) then (c as int + ('a' as int - 'A' as int)) as char else c
  }
}
