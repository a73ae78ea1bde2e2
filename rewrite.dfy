/**
 * The two kinds of regular-expression replacement that the Markdown converter
 * performs with `String.prototype.replace`:
 *
 *  - a global replacement of a fixed pattern (`/\n\n/g`, `/<p><li>/g`,
 *    `/<\/h([1-6])><\/p>/g`, ...), scanned left to right, matches never
 *    overlapping;
 *  - a multi-line replacement `/^...$/gm` that rewrites each line on its own,
 *    where a line is delimited by the JavaScript line terminators.
 *
 * Only these shapes are modelled, not a general regular-expression engine.
 */
module Rewrite {
  import opened Js

  /** One position of a pattern: a literal character or a range such as `[1-6]`. */
  datatype CharClass = Is(c: char) | Range(lo: char, hi: char)

  predicate Accepts(cc: CharClass, ch: char) {
    match cc
    case Is(c) => ch == c
    case Range(lo, hi) => lo <= ch <= hi
  }

  /** The pattern of a regular expression without quantifiers: one class per character. */
  type Pattern = seq<CharClass>

  /** A replacement template: literal text, or `$1` where the group is the one character at `offset` in the match. */
  datatype Part = Text(s: string) | CharOfMatch(offset: nat)

  /** Every `CharOfMatch` of the template names a position inside a match of `pat`. */
  predicate FitsPattern(rep: seq<Part>, pat: Pattern) {
    forall k :: 0 <= k < |rep| && rep[k].CharOfMatch? ==> rep[k].offset < |pat|
  }

  /** `pat[k..]` agrees with `s` from `i + k` on, as far as `s` reaches. */
  predicate Agrees(s: string, i: nat, pat: Pattern, k: nat)
    requires k <= |pat|
    decreases |pat| - k
  {
    k == |pat| || i + k >= |s| || (Accepts(pat[k], s[i + k]) && Agrees(s, i, pat, k + 1))
  }

  /** `pat` matches `s` at position `i`. */
  predicate MatchAt(s: string, i: nat, pat: Pattern) {
    i + |pat| <= |s| && Agrees(s, i, pat, 0)
  }

  /** The replacement text for a match at position `i` of `s`. */
  function Expand(rep: seq<Part>, s: string, i: nat): string {
    if rep == [] then ""
    else
      (match rep[0]
       case Text(t) => t
       case CharOfMatch(k) => if i + k < |s| then [s[i + k]] else "")
      + Expand(rep[1..], s, i)
  }

  /** `s[i..]` after replacing every match of `pat`, scanning left to right (the `g` flag). */
  function ReplaceFrom(s: string, i: nat, pat: Pattern, rep: seq<Part>): string
    requires |pat| > 0
    decreases |s| - i
  {
    if i >= |s| then ""
    else if MatchAt(s, i, pat) then Expand(rep, s, i) + ReplaceFrom(s, i + |pat|, pat, rep)
    else [s[i]] + ReplaceFrom(s, i + 1, pat, rep)
  }

  /** `s.replace(/pat/g, rep)` */
  function ReplaceAll(s: string, pat: Pattern, rep: seq<Part>): string
    requires |pat| > 0
  {
    ReplaceFrom(s, 0, pat, rep)
  }

  /**
   * No suffix of `a` that starts at or after `i` is a proper prefix of a match:
   * whatever follows `a`, no match can begin inside `a` and end after it.
   */
  predicate NoStraddleFrom(a: string, i: nat, pat: Pattern)
    decreases |a| - i
  {
    i >= |a| || ((i + |pat| <= |a| || !Agrees(a, i, pat, 0)) && NoStraddleFrom(a, i + 1, pat))
  }

  /** `t` agrees with `pat[j..j + |t|]` from its `k`-th character on. */
  predicate Fits(t: string, pat: Pattern, j: nat, k: nat)
    requires j + |t| <= |pat|
    decreases |t| - k
  {
    k >= |t| || (Accepts(pat[j + k], t[k]) && Fits(t, pat, j, k + 1))
  }

  /** `t` fits no window of `pat` that starts at `j` or later and ends before the last character. */
  predicate InnerFree(t: string, pat: Pattern, j: nat)
    decreases |pat| - j
  {
    j + |t| >= |pat| || (!Fits(t, pat, j, 0) && InnerFree(t, pat, j + 1))
  }

  // ---------------------------------------------------------------------------
  // Lemmas about the global replacement

  lemma AgreesShift(a: string, b: string, i: nat, pat: Pattern, k: nat)
    requires k <= |pat|
    ensures Agrees(a + b, |a| + i, pat, k) == Agrees(b, i, pat, k)
    decreases |pat| - k
  {
    if k < |pat| && |a| + i + k < |a + b| {
      AgreesShift(a, b, i, pat, k + 1);
    }
  }

  lemma AgreesInside(a: string, b: string, i: nat, pat: Pattern, k: nat)
    requires k <= |pat| && i + |pat| <= |a|
    ensures Agrees(a + b, i, pat, k) == Agrees(a, i, pat, k)
    decreases |pat| - k
  {
    if k < |pat| {
      AgreesInside(a, b, i, pat, k + 1);
    }
  }

  lemma AgreesCut(a: string, b: string, i: nat, pat: Pattern, k: nat)
    requires k <= |pat| && Agrees(a + b, i, pat, k)
    ensures Agrees(a, i, pat, k)
    decreases |pat| - k
  {
    if k < |pat| && i + k < |a| {
      AgreesCut(a, b, i, pat, k + 1);
    }
  }

  lemma ExpandShift(rep: seq<Part>, a: string, b: string, i: nat)
    ensures Expand(rep, a + b, |a| + i) == Expand(rep, b, i)
    decreases |rep|
  {
    if rep != [] {
      ExpandShift(rep[1..], a, b, i);
    }
  }

  lemma ExpandInside(rep: seq<Part>, pat: Pattern, a: string, b: string, i: nat)
    requires FitsPattern(rep, pat) && i + |pat| <= |a|
    ensures Expand(rep, a + b, i) == Expand(rep, a, i)
    decreases |rep|
  {
    if rep != [] {
      assert FitsPattern(rep[1..], pat) by {
        forall k | 0 <= k < |rep[1..]| && rep[1..][k].CharOfMatch?
          ensures rep[1..][k].offset < |pat|
        {
          assert rep[1..][k] == rep[k + 1];
        }
      }
      ExpandInside(rep[1..], pat, a, b, i);
    }
  }

  /** Replacing in `a + b` from inside `b` only sees `b`. */
  lemma {:induction false} ReplaceShift(a: string, b: string, j: nat, pat: Pattern, rep: seq<Part>)
    requires |pat| > 0
    ensures ReplaceFrom(a + b, |a| + j, pat, rep) == ReplaceFrom(b, j, pat, rep)
    decreases |b| - j
  {
    if j < |b| {
      AgreesShift(a, b, j, pat, 0);
      ExpandShift(rep, a, b, j);
      if MatchAt(b, j, pat) {
        ReplaceShift(a, b, j + |pat|, pat, rep);
      } else {
        ReplaceShift(a, b, j + 1, pat, rep);
      }
    }
  }

  lemma {:induction false} NoStraddleLater(a: string, i: nat, j: nat, pat: Pattern)
    requires NoStraddleFrom(a, i, pat) && i <= j
    ensures NoStraddleFrom(a, j, pat)
    decreases j - i
  {
    if i < j && i < |a| {
      NoStraddleLater(a, i + 1, j, pat);
    }
  }

  lemma {:induction false} NoStraddleShift(a: string, b: string, j: nat, pat: Pattern)
    ensures NoStraddleFrom(a + b, |a| + j, pat) == NoStraddleFrom(b, j, pat)
    decreases |b| - j
  {
    if j < |b| {
      AgreesShift(a, b, j, pat, 0);
      NoStraddleShift(a, b, j + 1, pat);
    }
  }

  /** Replacement distributes over a concatenation when no match can straddle the seam. */
  lemma {:induction false} ReplaceConcatFrom(a: string, b: string, i: nat, pat: Pattern, rep: seq<Part>)
    requires |pat| > 0 && FitsPattern(rep, pat)
    requires i <= |a| && NoStraddleFrom(a, i, pat)
    ensures ReplaceFrom(a + b, i, pat, rep) == ReplaceFrom(a, i, pat, rep) + ReplaceFrom(b, 0, pat, rep)
    decreases |a| - i
  {
    if i == |a| {
      ReplaceShift(a, b, 0, pat, rep);
    } else {
      var next, out := ConcatStep(a, b, i, pat, rep);
      NoStraddleLater(a, i, next, pat);
      ReplaceConcatFrom(a, b, next, pat, rep);
      Regroup(out, ReplaceFrom(a, next, pat, rep), ReplaceFrom(b, 0, pat, rep), []);
    }
  }

  /** One step of the scan over `a + b` is the same step as over `a`. */
  lemma ConcatStep(a: string, b: string, i: nat, pat: Pattern, rep: seq<Part>) returns (next: nat, out: string)
    requires |pat| > 0 && FitsPattern(rep, pat)
    requires i < |a| && NoStraddleFrom(a, i, pat)
    ensures i < next <= |a|
    ensures ReplaceFrom(a + b, i, pat, rep) == out + ReplaceFrom(a + b, next, pat, rep)
    ensures ReplaceFrom(a, i, pat, rep) == out + ReplaceFrom(a, next, pat, rep)
  {
    assert MatchAt(a + b, i, pat) == MatchAt(a, i, pat) by {
      if i + |pat| <= |a| {
        AgreesInside(a, b, i, pat, 0);
      } else if Agrees(a + b, i, pat, 0) {
        AgreesCut(a, b, i, pat, 0);
      }
    }
    if MatchAt(a, i, pat) {
      ExpandInside(rep, pat, a, b, i);
      next, out := i + |pat|, Expand(rep, a, i);
      assert ReplaceFrom(a + b, i, pat, rep) == Expand(rep, a + b, i) + ReplaceFrom(a + b, next, pat, rep);
    } else {
      next, out := i + 1, [a[i]];
      assert (a + b)[i] == a[i];
      assert ReplaceFrom(a + b, i, pat, rep) == [(a + b)[i]] + ReplaceFrom(a + b, next, pat, rep);
    }
  }

  lemma ReplaceConcat(a: string, b: string, pat: Pattern, rep: seq<Part>)
    requires |pat| > 0 && FitsPattern(rep, pat) && NoStraddleFrom(a, 0, pat)
    ensures ReplaceAll(a + b, pat, rep) == ReplaceAll(a, pat, rep) + ReplaceAll(b, pat, rep)
  {
    ReplaceConcatFrom(a, b, 0, pat, rep);
  }

  /** No match of `pat` begins in `s` at `i` or later. */
  predicate NoMatchFrom(s: string, i: nat, pat: Pattern)
    decreases |s| - i
  {
    i >= |s| || (!MatchAt(s, i, pat) && NoMatchFrom(s, i + 1, pat))
  }

  /** Text without a match is copied unchanged. */
  lemma {:induction false} ReplaceNoMatch(s: string, i: nat, pat: Pattern, rep: seq<Part>)
    requires |pat| > 0 && i <= |s| && NoMatchFrom(s, i, pat)
    ensures ReplaceFrom(s, i, pat, rep) == s[i..]
    decreases |s| - i
  {
    if i < |s| {
      ReplaceNoMatch(s, i + 1, pat, rep);
    }
  }

  /** Text none of whose characters can start a match. */
  predicate Inert(x: string, pat: Pattern)
    requires |pat| > 0
  {
    forall k :: 0 <= k < |x| ==> !Accepts(pat[0], x[k])
  }

  lemma {:induction false} InertFrom(x: string, i: nat, pat: Pattern, rep: seq<Part>)
    requires |pat| > 0 && Inert(x, pat) && i <= |x|
    ensures NoStraddleFrom(x, i, pat)
    ensures ReplaceFrom(x, i, pat, rep) == x[i..]
    decreases |x| - i
  {
    if i < |x| {
      InertFrom(x, i + 1, pat, rep);
    }
  }

  /** Text that cannot start a match is copied unchanged. */
  lemma ReplaceInert(x: string, b: string, pat: Pattern, rep: seq<Part>)
    requires |pat| > 0 && FitsPattern(rep, pat) && Inert(x, pat)
    ensures ReplaceAll(x + b, pat, rep) == x + ReplaceAll(b, pat, rep)
  {
    InertFrom(x, 0, pat, rep);
    ReplaceConcat(x, b, pat, rep);
  }

  lemma {:induction false} InnerFreeAt(t: string, pat: Pattern, j: nat, j': nat)
    requires InnerFree(t, pat, j) && j <= j' && j' + |t| < |pat|
    ensures !Fits(t, pat, j', 0)
    decreases j' - j
  {
    if j < j' {
      InnerFreeAt(t, pat, j + 1, j');
    }
  }

  lemma {:induction false} AgreesAdvance(s: string, i: nat, pat: Pattern, k: nat, k': nat)
    requires k <= k' < |pat| && i + k' < |s| && Agrees(s, i, pat, k)
    ensures Agrees(s, i, pat, k')
    decreases k' - k
  {
    if k < k' {
      AgreesAdvance(s, i, pat, k + 1, k');
    }
  }

  lemma {:induction false} AgreesThenFits(c: string, t: string, i: nat, pat: Pattern, m: nat)
    requires i < |c| && |c| - i + |t| < |pat| && m <= |t|
    requires Agrees(c + t, i, pat, |c| - i + m)
    ensures Fits(t, pat, |c| - i, m)
    decreases |t| - m
  {
    if m < |t| {
      assert (c + t)[i + (|c| - i + m)] == t[m];
      AgreesThenFits(c, t, i, pat, m + 1);
    }
  }

  /**
   * A closing text `t` that no match can straddle, and that fits nowhere strictly
   * inside the pattern, keeps any text ending in it free of straddling matches.
   */
  lemma {:induction false} NoStraddleTail(c: string, t: string, i: nat, pat: Pattern)
    requires NoStraddleFrom(t, 0, pat) && InnerFree(t, pat, 1) && i <= |c|
    ensures NoStraddleFrom(c + t, i, pat)
    decreases |c| - i
  {
    if i == |c| {
      NoStraddleShift(c, t, 0, pat);
    } else {
      if i + |pat| > |c + t| && Agrees(c + t, i, pat, 0) {
        AgreesAdvance(c + t, i, pat, 0, |c| - i);
        AgreesThenFits(c, t, i, pat, 0);
        InnerFreeAt(t, pat, 1, |c| - i);
        assert false;
      }
      NoStraddleTail(c, t, i + 1, pat);
    }
  }

  /**
   * The workhorse for fragments of the shape `open + text + close` where the
   * text cannot start a match: the replacement acts on `open` and `close` alone.
   */
  lemma Framed(open: string, x: string, close: string, pat: Pattern, rep: seq<Part>)
    requires |pat| > 0 && FitsPattern(rep, pat) && Inert(x, pat)
    requires NoStraddleFrom(open, 0, pat)
    ensures ReplaceAll(open + x + close, pat, rep)
         == ReplaceAll(open, pat, rep) + x + ReplaceAll(close, pat, rep)
  {
    assert open + x + close == open + (x + close);
    ReplaceConcat(open, x + close, pat, rep);
    ReplaceInert(x, close, pat, rep);
  }

  // ---------------------------------------------------------------------------
  // Multi-line (`/^...$/gm`) rewriting

  /** The JavaScript line terminators, where `^` and `$` match under the `m` flag. */
  predicate IsLineTerminator(c: char) {
    c == '\n' || c == '\r' || c == '\U{2028}' || c == '\U{2029}'
  }

  predicate SingleLine(s: string) {
    forall k :: 0 <= k < |s| ==> !IsLineTerminator(s[k])
  }

  lemma SingleLineConcat(a: string, b: string)
    requires SingleLine(a) && SingleLine(b)
    ensures SingleLine(a + b)
  {
    forall k | 0 <= k < |a + b| ensures !IsLineTerminator((a + b)[k]) {
      if k >= |a| {
        assert (a + b)[k] == b[k - |a|];
      }
    }
  }

  /** The rewrite a `/^...$/gm` replacement applies to one line. */
  datatype LineRule =
    | /** `/^marker(.*$)/gm` replaced by `open$1close` */
      MarkerLine(marker: string, open: string, close: string)
    | /** `/^(.+)$/gm` replaced by `open$1close` */
      NonEmptyLine(open: string, close: string)

  function ApplyRule(r: LineRule, line: string): string {
    match r
    case MarkerLine(m, o, c) =>
      if |m| <= |line| && line[..|m|] == m then o + line[|m|..] + c else line
    case NonEmptyLine(o, c) =>
      if line != "" then o + line + c else line
  }

  /** A rule whose tags are single lines keeps a line a single line. */
  lemma RuleKeepsLine(r: LineRule, line: string)
    requires SingleLine(line) && SingleLine(r.open) && SingleLine(r.close)
    ensures SingleLine(ApplyRule(r, line))
  {
    if r.MarkerLine? && |r.marker| <= |line| && line[..|r.marker|] == r.marker {
      var rest := line[|r.marker|..];
      assert forall k :: 0 <= k < |rest| ==> rest[k] == line[|r.marker| + k];
      SingleLineConcat(r.open, rest);
      SingleLineConcat(r.open + rest, r.close);
    } else if r.NonEmptyLine? && line != "" {
      SingleLineConcat(r.open, line);
      SingleLineConcat(r.open + line, r.close);
    }
  }

  /** Index of the first line terminator in `s`, or `|s|` if there is none. */
  function LineEnd(s: string): (j: nat)
    ensures j <= |s|
    ensures SingleLine(s[..j])
    ensures j < |s| ==> IsLineTerminator(s[j])
  {
    if s == [] then 0
    else if IsLineTerminator(s[0]) then 0
    else
      var j := 1 + LineEnd(s[1..]);
      assert s[..j] == [s[0]] + s[1..][..j - 1];
      j
  }

  /** `s.replace(/^...$/gm, ...)`: every line rewritten on its own, terminators kept. */
  function MapLines(s: string, r: LineRule): string
    decreases |s|
  {
    var j := LineEnd(s);
    if j == |s| then ApplyRule(r, s)
    else ApplyRule(r, s[..j]) + [s[j]] + MapLines(s[j + 1..], r)
  }

  lemma {:induction false} LineEndOf(a: string, t: char, b: string)
    requires SingleLine(a) && IsLineTerminator(t)
    ensures LineEnd(a + [t] + b) == |a|
    decreases |a|
  {
    if a != [] {
      assert (a + [t] + b)[1..] == a[1..] + [t] + b;
      LineEndOf(a[1..], t, b);
    }
  }

  lemma {:induction false} LineEndWhole(a: string)
    requires SingleLine(a)
    ensures LineEnd(a) == |a|
    decreases |a|
  {
    if a != [] {
      LineEndWhole(a[1..]);
    }
  }

  lemma MapLinesOne(a: string, r: LineRule)
    requires SingleLine(a)
    ensures MapLines(a, r) == ApplyRule(r, a)
  {
    LineEndWhole(a);
  }

  lemma MapLinesCons(a: string, t: char, b: string, r: LineRule)
    requires SingleLine(a) && IsLineTerminator(t)
    ensures MapLines(a + [t] + b, r) == ApplyRule(r, a) + [t] + MapLines(b, r)
  {
    var s := a + [t] + b;
    LineEndOf(a, t, b);
    assert s[..|a|] == a;
    assert s[|a| + 1..] == b;
  }

  /** A blank line between two lines is kept: the empty line in between stays empty. */
  lemma MapLinesBlank(a: string, b: string, r: LineRule)
    requires SingleLine(a) && ApplyRule(r, []) == []
    ensures MapLines(a + "\n\n" + b, r) == ApplyRule(r, a) + "\n\n" + MapLines(b, r)
  {
    var nl: string := ['\n'];
    assert "\n\n" == nl + nl;
    Regroup(a, nl, nl, b);
    MapLinesCons(a, '\n', nl + b, r);
    MapLinesCons([], '\n', b, r);
    Regroup([], nl, [], b);
    Regroup(ApplyRule(r, a), nl, nl, MapLines(b, r));
  }
}
