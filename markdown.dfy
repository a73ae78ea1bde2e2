/**
 * The minimal Markdown converter of the portal (`parseMarkdown`): a chain of ten
 * regular-expression replacements, modelled one by one, and a line-by-line
 * reference rendering that the chain is proved to produce.
 */
module Markdown {
  import opened Js
  import opened Rewrite

  // ---------------------------------------------------------------------------
  // The converter, as written: ten replacements in order

  const HeadingOne := MarkerLine("# ", "<h1>", "</h1>")        // /^# (.*$)/gm
  const HeadingTwo := MarkerLine("## ", "<h2>", "</h2>")       // /^## (.*$)/gm
  const HeadingThree := MarkerLine("### ", "<h3>", "</h3>")    // /^### (.*$)/gm
  const Bullet := MarkerLine("* ", "<li>", "</li>")            // /^\* (.*$)/gm
  const Paragraphs := NonEmptyLine("<p>", "</p>")              // /^(.+)$/gm

  /** `/\n\n/g` */
  const BlankLine: Pattern := [Is('\n'), Is('\n')]
  /** `/<p><li>/g` */
  const ParaItem: Pattern := [Is('<'), Is('p'), Is('>'), Is('<'), Is('l'), Is('i'), Is('>')]
  /** `/<\/li><\/p>/g` */
  const ItemPara: Pattern := [Is('<'), Is('/'), Is('l'), Is('i'), Is('>'), Is('<'), Is('/'), Is('p'), Is('>')]
  /** `/<p><h/g` */
  const ParaHeading: Pattern := [Is('<'), Is('p'), Is('>'), Is('<'), Is('h')]
  /** `/<\/h([1-6])><\/p>/g`, replaced by `</h$1>` */
  const HeadingPara: Pattern :=
    [Is('<'), Is('/'), Is('h'), Range('1', '6'), Is('>'), Is('<'), Is('/'), Is('p'), Is('>')]
  const HeadingClose: seq<Part> := [Text("</h"), CharOfMatch(3), Text(">")]

  function ParseMarkdown(markdown: string): string {
    var s1 := MapLines(markdown, HeadingOne);
    var s2 := MapLines(s1, HeadingTwo);
    var s3 := MapLines(s2, HeadingThree);
    var s4 := MapLines(s3, Bullet);
    var s5 := ReplaceAll(s4, BlankLine, [Text("</p><p>")]);
    var s6 := MapLines(s5, Paragraphs);
    var s7 := ReplaceAll(s6, ParaItem, [Text("<ul><li>")]);
    var s8 := ReplaceAll(s7, ItemPara, [Text("</li></ul>")]);
    var s9 := ReplaceAll(s8, ParaHeading, [Text("<h")]);
    ReplaceAll(s9, HeadingPara, HeadingClose)
  }

  // ---------------------------------------------------------------------------
  // The reference: what each line of a document becomes

  /** A line the converter handles as intended: non-empty, with no markup of its own. */
  predicate CleanLine(line: string) {
    line != [] && SingleLine(line) && forall k :: 0 <= k < |line| ==> line[k] != '<'
  }

  datatype LineKind = Heading(level: nat) | ListItem | Plain

  predicate Marked(line: string, marker: string) {
    |marker| <= |line| && line[..|marker|] == marker
  }

  /** `# `, `## ` and `### ` open headings; `* ` opens a list item; anything else, `####` included, is text. */
  function KindOf(line: string): LineKind {
    if Marked(line, "# ") then Heading(1)
    else if Marked(line, "## ") then Heading(2)
    else if Marked(line, "### ") then Heading(3)
    else if Marked(line, "* ") then ListItem
    else Plain
  }

  /** The text of a line after its marker. */
  function Body(line: string): string {
    match KindOf(line)
    case Heading(n) => if n + 1 <= |line| then line[n + 1..] else []
    case ListItem => line[2..]
    case Plain => line
  }

  /** One line rendered: a heading, a one-item list, or a paragraph. */
  function RenderLine(line: string): string {
    match KindOf(line)
    case Heading(n) =>
      (if n == 1 then "<h1>" else if n == 2 then "<h2>" else "<h3>") + Body(line)
      + (if n == 1 then "</h1>" else if n == 2 then "</h2>" else "</h3>")
    case ListItem => "<ul><li>" + Body(line) + "</li></ul>"
    case Plain => "<p>" + line + "</p>"
  }

  /**
   * Lines joined by `narrow`, or by `wide` where `blank` says so: a document
   * whose lines are separated by newlines or by single blank lines is
   * `Join(lines, blank, "\n\n", "\n")`.
   */
  function Join(ls: seq<string>, blank: seq<bool>, wide: string, narrow: string): string
    requires |ls| >= 1 && |blank| == |ls| - 1
    decreases |ls|
  {
    if |ls| == 1 then ls[0]
    else ls[0] + (if blank[0] then wide else narrow) + Join(ls[1..], blank[1..], wide, narrow)
  }

  function RenderLines(ls: seq<string>): (r: seq<string>)
    ensures |r| == |ls|
  {
    seq(|ls|, i requires 0 <= i < |ls| => RenderLine(ls[i]))
  }

  // ---------------------------------------------------------------------------
  // The shape of each line between the steps of the converter

  /**
   * The markup around the body of a line after step `n`: 4 is after the four
   * marker rules, 6 after paragraph wrapping, 7 to 10 after each of the last
   * four replacements.
   */
  function Open(n: nat, k: LineKind): string {
    match k
    case Heading(l) =>
      if n < 6 then (if l == 1 then "<h1>" else if l == 2 then "<h2>" else "<h3>")
      else if n < 9 then (if l == 1 then "<p><h1>" else if l == 2 then "<p><h2>" else "<p><h3>")
      else (if l == 1 then "<h1>" else if l == 2 then "<h2>" else "<h3>")
    case ListItem => if n < 6 then "<li>" else if n < 7 then "<p><li>" else "<ul><li>"
    case Plain => if n < 6 then "" else "<p>"
  }

  function Close(n: nat, k: LineKind): string {
    match k
    case Heading(l) =>
      if n < 6 || n >= 10 then (if l == 1 then "</h1>" else if l == 2 then "</h2>" else "</h3>")
      else (if l == 1 then "</h1></p>" else if l == 2 then "</h2></p>" else "</h3></p>")
    case ListItem => if n < 6 then "</li>" else if n < 8 then "</li></p>" else "</li></ul>"
    case Plain => if n < 6 then "" else "</p>"
  }

  function Stage(n: nat, line: string): string {
    Open(n, KindOf(line)) + Body(line) + Close(n, KindOf(line))
  }

  function Stages(n: nat, ls: seq<string>): (r: seq<string>)
    ensures |r| == |ls|
  {
    seq(|ls|, i requires 0 <= i < |ls| => Stage(n, ls[i]))
  }

  function MapRule(ls: seq<string>, r: LineRule): (out: seq<string>)
    ensures |out| == |ls|
  {
    seq(|ls|, i requires 0 <= i < |ls| => ApplyRule(r, ls[i]))
  }

  /** The pattern and template of step `n + 1`, for `n` from 6 to 9. */
  function StepPattern(n: nat): Pattern {
    if n == 6 then ParaItem else if n == 7 then ItemPara else if n == 8 then ParaHeading else HeadingPara
  }

  function StepTemplate(n: nat): seq<Part> {
    if n == 6 then [Text("<ul><li>")]
    else if n == 7 then [Text("</li></ul>")]
    else if n == 8 then [Text("<h")]
    else HeadingClose
  }

  predicate KnownKind(k: LineKind) {
    k.Heading? ==> 1 <= k.level <= 3
  }

  // ---------------------------------------------------------------------------
  // Per-line facts

  lemma KindOfKnown(line: string)
    ensures KnownKind(KindOf(line))
  {
  }

  lemma CleanBody(line: string)
    requires CleanLine(line)
    ensures SingleLine(Body(line)) && forall k :: 0 <= k < |Body(line)| ==> Body(line)[k] != '<'
  {
    var b := Body(line);
    var d := |line| - |b|;
    assert b == line[d..];
    forall k | 0 <= k < |b| ensures b[k] == line[d + k] { }
  }

  /** A marker rule leaves alone a line that differs from the marker at some position `j`. */
  lemma Unmarked(line: string, m: string, o: string, c: string, j: nat)
    requires j < |line| && j < |m| && line[j] != m[j]
    ensures ApplyRule(MarkerLine(m, o, c), line) == line
  {
    if |m| <= |line| {
      assert line[..|m|][j] != m[j];
    }
  }

  lemma MarkersOnHeading1(line: string)
    requires CleanLine(line) && KindOf(line) == Heading(1)
    ensures ApplyRule(Bullet, ApplyRule(HeadingThree, ApplyRule(HeadingTwo, ApplyRule(HeadingOne, line))))
         == Stage(4, line)
  {
    assert line[..2] == "# ";
    var h := Stage(4, line);
    assert h[0] == '<';
    Unmarked(h, "## ", "<h2>", "</h2>", 0);
    Unmarked(h, "### ", "<h3>", "</h3>", 0);
    Unmarked(h, "* ", "<li>", "</li>", 0);
  }

  lemma MarkersOnHeading2(line: string)
    requires CleanLine(line) && KindOf(line) == Heading(2)
    ensures ApplyRule(Bullet, ApplyRule(HeadingThree, ApplyRule(HeadingTwo, ApplyRule(HeadingOne, line))))
         == Stage(4, line)
  {
    assert line[..3] == "## " && line[1] == '#';
    var h := Stage(4, line);
    assert h[0] == '<';
    Unmarked(line, "# ", "<h1>", "</h1>", 1);
    Unmarked(h, "### ", "<h3>", "</h3>", 0);
    Unmarked(h, "* ", "<li>", "</li>", 0);
  }

  lemma MarkersOnHeading3(line: string)
    requires CleanLine(line) && KindOf(line) == Heading(3)
    ensures ApplyRule(Bullet, ApplyRule(HeadingThree, ApplyRule(HeadingTwo, ApplyRule(HeadingOne, line))))
         == Stage(4, line)
  {
    assert line[..4] == "### " && line[1] == '#' && line[2] == '#';
    var h := Stage(4, line);
    assert h[0] == '<';
    Unmarked(line, "# ", "<h1>", "</h1>", 1);
    Unmarked(line, "## ", "<h2>", "</h2>", 2);
    Unmarked(h, "### ", "<h3>", "</h3>", 0);
    Unmarked(h, "* ", "<li>", "</li>", 0);
  }

  lemma MarkersOnItem(line: string)
    requires CleanLine(line) && KindOf(line) == ListItem
    ensures ApplyRule(Bullet, ApplyRule(HeadingThree, ApplyRule(HeadingTwo, ApplyRule(HeadingOne, line))))
         == Stage(4, line)
  {
    assert line[..2] == "* ";
    Unmarked(line, "# ", "<h1>", "</h1>", 0);
    Unmarked(line, "## ", "<h2>", "</h2>", 0);
    Unmarked(line, "### ", "<h3>", "</h3>", 0);
  }

  /** The four marker rules turn a clean line into its step-4 shape. */
  lemma MarkersOnLine(line: string)
    requires CleanLine(line)
    ensures ApplyRule(Bullet, ApplyRule(HeadingThree, ApplyRule(HeadingTwo, ApplyRule(HeadingOne, line))))
         == Stage(4, line)
  {
    match KindOf(line)
    case Heading(n) =>
      if n == 1 {
        MarkersOnHeading1(line);
      } else if n == 2 {
        MarkersOnHeading2(line);
      } else {
        MarkersOnHeading3(line);
      }
    case ListItem => MarkersOnItem(line);
    case Plain =>
  }

  lemma MarkersKeepLine(line: string)
    requires SingleLine(line)
    ensures SingleLine(ApplyRule(HeadingOne, line))
    ensures SingleLine(ApplyRule(HeadingTwo, ApplyRule(HeadingOne, line)))
    ensures SingleLine(ApplyRule(HeadingThree, ApplyRule(HeadingTwo, ApplyRule(HeadingOne, line))))
  {
    assert SingleLine("<h1>") && SingleLine("</h1>") && SingleLine("<h2>") && SingleLine("</h2>");
    assert SingleLine("<h3>") && SingleLine("</h3>");
    RuleKeepsLine(HeadingOne, line);
    RuleKeepsLine(HeadingTwo, ApplyRule(HeadingOne, line));
    RuleKeepsLine(HeadingThree, ApplyRule(HeadingTwo, ApplyRule(HeadingOne, line)));
  }

  lemma StageLine(n: nat, line: string)
    requires CleanLine(line) && n >= 4
    ensures Stage(n, line) != [] && SingleLine(Stage(n, line))
  {
    CleanBody(line);
    KindOfKnown(line);
    var o, x, c := Open(n, KindOf(line)), Body(line), Close(n, KindOf(line));
    assert Stage(n, line) == o + x + c;
    assert SingleLine(o) && SingleLine(c);
    assert x == [] ==> KindOf(line) != Plain;
  }

  /** Paragraph wrapping puts `<p>` and `</p>` around the step-4 tags. */
  lemma WrapTags(k: LineKind)
    requires KnownKind(k)
    ensures Open(6, k) == "<p>" + Open(4, k) && Close(6, k) == Close(4, k) + "</p>"
  {
    match k
    case Heading(l) =>
      if l == 1 {
        assert "<p><h1>" == "<p>" + "<h1>" && "</h1></p>" == "</h1>" + "</p>";
      } else if l == 2 {
        assert "<p><h2>" == "<p>" + "<h2>" && "</h2></p>" == "</h2>" + "</p>";
      } else {
        assert "<p><h3>" == "<p>" + "<h3>" && "</h3></p>" == "</h3>" + "</p>";
      }
    case ListItem =>
      assert "<p><li>" == "<p>" + "<li>" && "</li></p>" == "</li>" + "</p>";
    case Plain =>
  }

  /** Paragraph wrapping of a step-4 line gives its step-6 shape. */
  lemma WrapLine(line: string)
    requires CleanLine(line)
    ensures Stage(6, line) == "<p>" + Stage(4, line) + "</p>"
  {
    KindOfKnown(line);
    WrapTags(KindOf(line));
  }

  /**
   * What a replacement step needs of the markup around a line: it rewrites the
   * opening tags `o` to `o'` and the closing tags `c` to `c'`, and no match can
   * begin in `o`, or in the body before `c`, and end beyond them.
   */
  predicate OpenRewrite(o: string, o': string, pat: Pattern, rep: seq<Part>)
    requires |pat| > 0
  {
    NoStraddleFrom(o, 0, pat) && ReplaceAll(o, pat, rep) == o'
  }

  predicate CloseRewrite(c: string, c': string, pat: Pattern, rep: seq<Part>)
    requires |pat| > 0
  {
    NoStraddleFrom(c, 0, pat) && InnerFree(c, pat, 1) && ReplaceAll(c, pat, rep) == c'
  }

  // The tag facts, one small computation on literals per step, kind of line and
  // side (kept apart: the solver handles each alone far more cheaply than together).

  lemma Step7OpenHeading1()
    ensures OpenRewrite("<p><h1>", "<p><h1>", ParaItem, [Text("<ul><li>")])
  {
    assert NoStraddleFrom("<p><h1>", 0, ParaItem);
    assert NoMatchFrom("<p><h1>", 0, ParaItem);
    ReplaceNoMatch("<p><h1>", 0, ParaItem, [Text("<ul><li>")]);
  }

  lemma Step7CloseHeading1()
    ensures CloseRewrite("</h1></p>", "</h1></p>", ParaItem, [Text("<ul><li>")])
  {
    assert NoStraddleFrom("</h1></p>", 0, ParaItem) && InnerFree("</h1></p>", ParaItem, 1);
    assert NoMatchFrom("</h1></p>", 0, ParaItem);
    ReplaceNoMatch("</h1></p>", 0, ParaItem, [Text("<ul><li>")]);
  }

  lemma Step7OpenHeading2()
    ensures OpenRewrite("<p><h2>", "<p><h2>", ParaItem, [Text("<ul><li>")])
  {
    assert NoStraddleFrom("<p><h2>", 0, ParaItem);
    assert NoMatchFrom("<p><h2>", 0, ParaItem);
    ReplaceNoMatch("<p><h2>", 0, ParaItem, [Text("<ul><li>")]);
  }

  lemma Step7CloseHeading2()
    ensures CloseRewrite("</h2></p>", "</h2></p>", ParaItem, [Text("<ul><li>")])
  {
    assert NoStraddleFrom("</h2></p>", 0, ParaItem) && InnerFree("</h2></p>", ParaItem, 1);
    assert NoMatchFrom("</h2></p>", 0, ParaItem);
    ReplaceNoMatch("</h2></p>", 0, ParaItem, [Text("<ul><li>")]);
  }

  lemma Step7OpenHeading3()
    ensures OpenRewrite("<p><h3>", "<p><h3>", ParaItem, [Text("<ul><li>")])
  {
    assert NoStraddleFrom("<p><h3>", 0, ParaItem);
    assert NoMatchFrom("<p><h3>", 0, ParaItem);
    ReplaceNoMatch("<p><h3>", 0, ParaItem, [Text("<ul><li>")]);
  }

  lemma Step7CloseHeading3()
    ensures CloseRewrite("</h3></p>", "</h3></p>", ParaItem, [Text("<ul><li>")])
  {
    assert NoStraddleFrom("</h3></p>", 0, ParaItem) && InnerFree("</h3></p>", ParaItem, 1);
    assert NoMatchFrom("</h3></p>", 0, ParaItem);
    ReplaceNoMatch("</h3></p>", 0, ParaItem, [Text("<ul><li>")]);
  }

  lemma Step7OpenItem()
    ensures OpenRewrite("<p><li>", "<ul><li>", ParaItem, [Text("<ul><li>")])
  {
    assert NoStraddleFrom("<p><li>", 0, ParaItem);
    assert ReplaceAll("<p><li>", ParaItem, [Text("<ul><li>")]) == "<ul><li>";
  }

  lemma Step7CloseItem()
    ensures CloseRewrite("</li></p>", "</li></p>", ParaItem, [Text("<ul><li>")])
  {
    assert NoStraddleFrom("</li></p>", 0, ParaItem) && InnerFree("</li></p>", ParaItem, 1);
    assert NoMatchFrom("</li></p>", 0, ParaItem);
    ReplaceNoMatch("</li></p>", 0, ParaItem, [Text("<ul><li>")]);
  }

  lemma Step7ClosePara()
    ensures CloseRewrite("</p>", "</p>", ParaItem, [Text("<ul><li>")])
  {
    assert NoStraddleFrom("</p>", 0, ParaItem) && InnerFree("</p>", ParaItem, 1);
    assert NoMatchFrom("</p>", 0, ParaItem);
    ReplaceNoMatch("</p>", 0, ParaItem, [Text("<ul><li>")]);
  }

  lemma Step8OpenHeading1()
    ensures OpenRewrite("<p><h1>", "<p><h1>", ItemPara, [Text("</li></ul>")])
  {
    assert NoStraddleFrom("<p><h1>", 0, ItemPara);
    assert NoMatchFrom("<p><h1>", 0, ItemPara);
    ReplaceNoMatch("<p><h1>", 0, ItemPara, [Text("</li></ul>")]);
  }

  lemma Step8CloseHeading1()
    ensures CloseRewrite("</h1></p>", "</h1></p>", ItemPara, [Text("</li></ul>")])
  {
    assert NoStraddleFrom("</h1></p>", 0, ItemPara) && InnerFree("</h1></p>", ItemPara, 1);
    assert NoMatchFrom("</h1></p>", 0, ItemPara);
    ReplaceNoMatch("</h1></p>", 0, ItemPara, [Text("</li></ul>")]);
  }

  lemma Step8OpenHeading2()
    ensures OpenRewrite("<p><h2>", "<p><h2>", ItemPara, [Text("</li></ul>")])
  {
    assert NoStraddleFrom("<p><h2>", 0, ItemPara);
    assert NoMatchFrom("<p><h2>", 0, ItemPara);
    ReplaceNoMatch("<p><h2>", 0, ItemPara, [Text("</li></ul>")]);
  }

  lemma Step8CloseHeading2()
    ensures CloseRewrite("</h2></p>", "</h2></p>", ItemPara, [Text("</li></ul>")])
  {
    assert NoStraddleFrom("</h2></p>", 0, ItemPara) && InnerFree("</h2></p>", ItemPara, 1);
    assert NoMatchFrom("</h2></p>", 0, ItemPara);
    ReplaceNoMatch("</h2></p>", 0, ItemPara, [Text("</li></ul>")]);
  }

  lemma Step8OpenHeading3()
    ensures OpenRewrite("<p><h3>", "<p><h3>", ItemPara, [Text("</li></ul>")])
  {
    assert NoStraddleFrom("<p><h3>", 0, ItemPara);
    assert NoMatchFrom("<p><h3>", 0, ItemPara);
    ReplaceNoMatch("<p><h3>", 0, ItemPara, [Text("</li></ul>")]);
  }

  lemma Step8CloseHeading3()
    ensures CloseRewrite("</h3></p>", "</h3></p>", ItemPara, [Text("</li></ul>")])
  {
    assert NoStraddleFrom("</h3></p>", 0, ItemPara) && InnerFree("</h3></p>", ItemPara, 1);
    assert NoMatchFrom("</h3></p>", 0, ItemPara);
    ReplaceNoMatch("</h3></p>", 0, ItemPara, [Text("</li></ul>")]);
  }

  lemma Step8OpenItem()
    ensures OpenRewrite("<ul><li>", "<ul><li>", ItemPara, [Text("</li></ul>")])
  {
    assert NoStraddleFrom("<ul><li>", 0, ItemPara);
    assert NoMatchFrom("<ul><li>", 0, ItemPara);
    ReplaceNoMatch("<ul><li>", 0, ItemPara, [Text("</li></ul>")]);
  }

  lemma Step8CloseItem()
    ensures CloseRewrite("</li></p>", "</li></ul>", ItemPara, [Text("</li></ul>")])
  {
    assert NoStraddleFrom("</li></p>", 0, ItemPara) && InnerFree("</li></p>", ItemPara, 1);
    assert ReplaceAll("</li></p>", ItemPara, [Text("</li></ul>")]) == "</li></ul>";
  }

  lemma Step8OpenPara()
    ensures OpenRewrite("<p>", "<p>", ItemPara, [Text("</li></ul>")])
  {
    assert NoStraddleFrom("<p>", 0, ItemPara);
    assert NoMatchFrom("<p>", 0, ItemPara);
    ReplaceNoMatch("<p>", 0, ItemPara, [Text("</li></ul>")]);
  }

  lemma Step8ClosePara()
    ensures CloseRewrite("</p>", "</p>", ItemPara, [Text("</li></ul>")])
  {
    assert NoStraddleFrom("</p>", 0, ItemPara) && InnerFree("</p>", ItemPara, 1);
    assert NoMatchFrom("</p>", 0, ItemPara);
    ReplaceNoMatch("</p>", 0, ItemPara, [Text("</li></ul>")]);
  }

  lemma Step9OpenHeading1()
    ensures OpenRewrite("<p><h1>", "<h1>", ParaHeading, [Text("<h")])
  {
    assert NoStraddleFrom("<p><h1>", 0, ParaHeading);
    assert ReplaceAll("<p><h1>", ParaHeading, [Text("<h")]) == "<h1>";
  }

  lemma Step9CloseHeading1()
    ensures CloseRewrite("</h1></p>", "</h1></p>", ParaHeading, [Text("<h")])
  {
    assert NoStraddleFrom("</h1></p>", 0, ParaHeading) && InnerFree("</h1></p>", ParaHeading, 1);
    assert NoMatchFrom("</h1></p>", 0, ParaHeading);
    ReplaceNoMatch("</h1></p>", 0, ParaHeading, [Text("<h")]);
  }

  lemma Step9OpenHeading2()
    ensures OpenRewrite("<p><h2>", "<h2>", ParaHeading, [Text("<h")])
  {
    assert NoStraddleFrom("<p><h2>", 0, ParaHeading);
    assert ReplaceAll("<p><h2>", ParaHeading, [Text("<h")]) == "<h2>";
  }

  lemma Step9CloseHeading2()
    ensures CloseRewrite("</h2></p>", "</h2></p>", ParaHeading, [Text("<h")])
  {
    assert NoStraddleFrom("</h2></p>", 0, ParaHeading) && InnerFree("</h2></p>", ParaHeading, 1);
    assert NoMatchFrom("</h2></p>", 0, ParaHeading);
    ReplaceNoMatch("</h2></p>", 0, ParaHeading, [Text("<h")]);
  }

  lemma Step9OpenHeading3()
    ensures OpenRewrite("<p><h3>", "<h3>", ParaHeading, [Text("<h")])
  {
    assert NoStraddleFrom("<p><h3>", 0, ParaHeading);
    assert ReplaceAll("<p><h3>", ParaHeading, [Text("<h")]) == "<h3>";
  }

  lemma Step9CloseHeading3()
    ensures CloseRewrite("</h3></p>", "</h3></p>", ParaHeading, [Text("<h")])
  {
    assert NoStraddleFrom("</h3></p>", 0, ParaHeading) && InnerFree("</h3></p>", ParaHeading, 1);
    assert NoMatchFrom("</h3></p>", 0, ParaHeading);
    ReplaceNoMatch("</h3></p>", 0, ParaHeading, [Text("<h")]);
  }

  lemma Step9OpenItem()
    ensures OpenRewrite("<ul><li>", "<ul><li>", ParaHeading, [Text("<h")])
  {
    assert NoStraddleFrom("<ul><li>", 0, ParaHeading);
    assert NoMatchFrom("<ul><li>", 0, ParaHeading);
    ReplaceNoMatch("<ul><li>", 0, ParaHeading, [Text("<h")]);
  }

  lemma Step9CloseItem()
    ensures CloseRewrite("</li></ul>", "</li></ul>", ParaHeading, [Text("<h")])
  {
    assert NoStraddleFrom("</li></ul>", 0, ParaHeading) && InnerFree("</li></ul>", ParaHeading, 1);
    assert NoMatchFrom("</li></ul>", 0, ParaHeading);
    ReplaceNoMatch("</li></ul>", 0, ParaHeading, [Text("<h")]);
  }

  lemma Step9ClosePara()
    ensures CloseRewrite("</p>", "</p>", ParaHeading, [Text("<h")])
  {
    assert NoStraddleFrom("</p>", 0, ParaHeading) && InnerFree("</p>", ParaHeading, 1);
    assert NoMatchFrom("</p>", 0, ParaHeading);
    ReplaceNoMatch("</p>", 0, ParaHeading, [Text("<h")]);
  }

  lemma Step10OpenHeading1()
    ensures OpenRewrite("<h1>", "<h1>", HeadingPara, HeadingClose)
  {
    assert NoStraddleFrom("<h1>", 0, HeadingPara);
    assert NoMatchFrom("<h1>", 0, HeadingPara);
    ReplaceNoMatch("<h1>", 0, HeadingPara, HeadingClose);
  }

  lemma Step10CloseHeading1()
    ensures CloseRewrite("</h1></p>", "</h1>", HeadingPara, HeadingClose)
  {
    assert NoStraddleFrom("</h1></p>", 0, HeadingPara) && InnerFree("</h1></p>", HeadingPara, 1);
    assert ReplaceAll("</h1></p>", HeadingPara, HeadingClose) == "</h1>";
  }

  lemma Step10OpenHeading2()
    ensures OpenRewrite("<h2>", "<h2>", HeadingPara, HeadingClose)
  {
    assert NoStraddleFrom("<h2>", 0, HeadingPara);
    assert NoMatchFrom("<h2>", 0, HeadingPara);
    ReplaceNoMatch("<h2>", 0, HeadingPara, HeadingClose);
  }

  lemma Step10CloseHeading2()
    ensures CloseRewrite("</h2></p>", "</h2>", HeadingPara, HeadingClose)
  {
    assert NoStraddleFrom("</h2></p>", 0, HeadingPara) && InnerFree("</h2></p>", HeadingPara, 1);
    assert ReplaceAll("</h2></p>", HeadingPara, HeadingClose) == "</h2>";
  }

  lemma Step10OpenHeading3()
    ensures OpenRewrite("<h3>", "<h3>", HeadingPara, HeadingClose)
  {
    assert NoStraddleFrom("<h3>", 0, HeadingPara);
    assert NoMatchFrom("<h3>", 0, HeadingPara);
    ReplaceNoMatch("<h3>", 0, HeadingPara, HeadingClose);
  }

  lemma Step10CloseHeading3()
    ensures CloseRewrite("</h3></p>", "</h3>", HeadingPara, HeadingClose)
  {
    assert NoStraddleFrom("</h3></p>", 0, HeadingPara) && InnerFree("</h3></p>", HeadingPara, 1);
    assert ReplaceAll("</h3></p>", HeadingPara, HeadingClose) == "</h3>";
  }

  lemma Step10OpenItem()
    ensures OpenRewrite("<ul><li>", "<ul><li>", HeadingPara, HeadingClose)
  {
    assert NoStraddleFrom("<ul><li>", 0, HeadingPara);
    assert NoMatchFrom("<ul><li>", 0, HeadingPara);
    ReplaceNoMatch("<ul><li>", 0, HeadingPara, HeadingClose);
  }

  lemma Step10CloseItem()
    ensures CloseRewrite("</li></ul>", "</li></ul>", HeadingPara, HeadingClose)
  {
    assert NoStraddleFrom("</li></ul>", 0, HeadingPara) && InnerFree("</li></ul>", HeadingPara, 1);
    assert NoMatchFrom("</li></ul>", 0, HeadingPara);
    ReplaceNoMatch("</li></ul>", 0, HeadingPara, HeadingClose);
  }

  lemma Step10OpenPara()
    ensures OpenRewrite("<p>", "<p>", HeadingPara, HeadingClose)
  {
    assert NoStraddleFrom("<p>", 0, HeadingPara);
    assert NoMatchFrom("<p>", 0, HeadingPara);
    ReplaceNoMatch("<p>", 0, HeadingPara, HeadingClose);
  }

  lemma Step10ClosePara()
    ensures CloseRewrite("</p>", "</p>", HeadingPara, HeadingClose)
  {
    assert NoStraddleFrom("</p>", 0, HeadingPara) && InnerFree("</p>", HeadingPara, 1);
    assert NoMatchFrom("</p>", 0, HeadingPara);
    ReplaceNoMatch("</p>", 0, HeadingPara, HeadingClose);
  }

  lemma TagsStep(n: nat, k: LineKind)
    requires 6 <= n <= 9 && KnownKind(k)
    ensures CloseRewrite(Close(n, k), Close(n + 1, k), StepPattern(n), StepTemplate(n))
    ensures !ParagraphShielded(n, k) ==> OpenRewrite(Open(n, k), Open(n + 1, k), StepPattern(n), StepTemplate(n))
  {
    match k
    case Heading(l) =>
      if l == 1 {
        if n == 6 { Step7OpenHeading1(); Step7CloseHeading1(); }
        else if n == 7 { Step8OpenHeading1(); Step8CloseHeading1(); }
        else if n == 8 { Step9OpenHeading1(); Step9CloseHeading1(); }
        else { Step10OpenHeading1(); Step10CloseHeading1(); }
      } else if l == 2 {
        if n == 6 { Step7OpenHeading2(); Step7CloseHeading2(); }
        else if n == 7 { Step8OpenHeading2(); Step8CloseHeading2(); }
        else if n == 8 { Step9OpenHeading2(); Step9CloseHeading2(); }
        else { Step10OpenHeading2(); Step10CloseHeading2(); }
      } else {
        if n == 6 { Step7OpenHeading3(); Step7CloseHeading3(); }
        else if n == 7 { Step8OpenHeading3(); Step8CloseHeading3(); }
        else if n == 8 { Step9OpenHeading3(); Step9CloseHeading3(); }
        else { Step10OpenHeading3(); Step10CloseHeading3(); }
      }
    case ListItem =>
      if n == 6 { Step7OpenItem(); Step7CloseItem(); }
      else if n == 7 { Step8OpenItem(); Step8CloseItem(); }
      else if n == 8 { Step9OpenItem(); Step9CloseItem(); }
      else { Step10OpenItem(); Step10CloseItem(); }
    case Plain =>
      if n == 6 { Step7ClosePara(); }
      else if n == 7 { Step8OpenPara(); Step8ClosePara(); }
      else if n == 8 { Step9ClosePara(); }
      else { Step10OpenPara(); Step10ClosePara(); }
  }

  /**
   * Steps 7 and 9 look for `<p><li>` and `<p><h`, which begin like a paragraph's
   * own `<p>`: there the opening tag is safe only because the line after it
   * does not start with `<`.
   */
  predicate ParagraphShielded(n: nat, k: LineKind) {
    k.Plain? && (n == 6 || n == 8)
  }

  lemma ParagraphOpen(y: string, pat: Pattern, rep: seq<Part>)
    requires pat == ParaItem || pat == ParaHeading
    requires y != [] && y[0] != '<' && NoStraddleFrom(y, 0, pat)
    ensures NoStraddleFrom("<p>" + y, 0, pat)
    ensures ReplaceAll("<p>" + y, pat, rep) == "<p>" + ReplaceAll(y, pat, rep)
  {
    var s := "<p>" + y;
    assert !Agrees(s, 0, pat, 0) by {
      assert s[3] == y[0];
      if Agrees(s, 0, pat, 0) {
        AgreesAdvance(s, 0, pat, 0, 3);
      }
    }
    assert !Agrees(s, 1, pat, 0) && !Agrees(s, 2, pat, 0) by {
      assert s[1] == 'p' && s[2] == '>';
    }
    NoStraddleShift("<p>", y, 0, pat);
    ReplaceShift("<p>", y, 0, pat, rep);
    assert ReplaceFrom(s, 2, pat, rep) == ">" + ReplaceFrom(s, 3, pat, rep);
    assert ReplaceFrom(s, 1, pat, rep) == "p" + ReplaceFrom(s, 2, pat, rep);
    assert ReplaceFrom(s, 0, pat, rep) == "<" + ReplaceFrom(s, 1, pat, rep);
  }

  lemma StepLine(n: nat, line: string)
    requires 6 <= n <= 9 && CleanLine(line)
    ensures NoStraddleFrom(Stage(n, line), 0, StepPattern(n))
    ensures ReplaceAll(Stage(n, line), StepPattern(n), StepTemplate(n)) == Stage(n + 1, line)
  {
    var k := KindOf(line);
    KindOfKnown(line);
    CleanBody(line);
    var pat, rep := StepPattern(n), StepTemplate(n);
    var o, x, c := Open(n, k), Body(line), Close(n, k);
    TagsStep(n, k);
    assert FitsPattern(rep, pat);
    assert Inert(x, pat);
    if ParagraphShielded(n, k) {
      assert Stage(n, line) == o + (x + c);
      NoStraddleTail(x, c, 0, pat);
      ReplaceInert(x, c, pat, rep);
      ParagraphOpen(x + c, pat, rep);
    } else {
      Framed(o, x, c, pat, rep);
      NoStraddleTail(o + x, c, 0, pat);
    }
  }

  // ---------------------------------------------------------------------------
  // Whole-document steps

  lemma {:induction false} MapLinesJoin(ls: seq<string>, blank: seq<bool>, r: LineRule)
    requires |ls| >= 1 && |blank| == |ls| - 1
    requires forall i :: 0 <= i < |ls| ==> SingleLine(ls[i])
    requires ApplyRule(r, []) == []
    ensures MapLines(Join(ls, blank, "\n\n", "\n"), r) == Join(MapRule(ls, r), blank, "\n\n", "\n")
    decreases |ls|
  {
    if |ls| == 1 {
      MapLinesOne(ls[0], r);
    } else {
      var rest := Join(ls[1..], blank[1..], "\n\n", "\n");
      JoinUnfold(ls, blank, "\n\n", "\n");
      JoinUnfold(MapRule(ls, r), blank, "\n\n", "\n");
      MapLinesJoin(ls[1..], blank[1..], r);
      assert MapRule(ls, r)[1..] == MapRule(ls[1..], r);
      if blank[0] {
        MapLinesBlank(ls[0], rest, r);
      } else {
        MapLinesCons(ls[0], '\n', rest, r);
      }
    }
  }

  lemma {:induction false} BlankLinesJoin(ts: seq<string>, blank: seq<bool>)
    requires |ts| >= 1 && |blank| == |ts| - 1
    requires forall i :: 0 <= i < |ts| ==> ts[i] != [] && SingleLine(ts[i])
    ensures ReplaceAll(Join(ts, blank, "\n\n", "\n"), BlankLine, [Text("</p><p>")])
         == Join(ts, blank, "</p><p>", "\n")
    decreases |ts|
  {
    var rep := [Text("</p><p>")];
    assert FitsPattern(rep, BlankLine);
    assert Inert(ts[0], BlankLine);
    if |ts| == 1 {
      ReplaceInert(ts[0], [], BlankLine, rep);
      assert ts[0] + [] == ts[0];
    } else {
      var rest := Join(ts[1..], blank[1..], "\n\n", "\n");
      BlankLinesJoin(ts[1..], blank[1..]);
      var sep := if blank[0] then "\n\n" else "\n";
      assert Join(ts, blank, "\n\n", "\n") == ts[0] + (sep + rest);
      ReplaceInert(ts[0], sep + rest, BlankLine, rep);
      assert rest[0] == ts[1][0];
      ReplaceShift(sep, rest, 0, BlankLine, rep);
      if blank[0] {
        assert MatchAt(sep + rest, 0, BlankLine);
        assert Expand(rep, sep + rest, 0) == "</p><p>";
        assert ReplaceAll(sep + rest, BlankLine, rep) == "</p><p>" + ReplaceAll(rest, BlankLine, rep);
      } else {
        assert !MatchAt(sep + rest, 0, BlankLine);
        assert ReplaceAll(sep + rest, BlankLine, rep) == "\n" + ReplaceAll(rest, BlankLine, rep);
      }
    }
  }

  lemma JoinUnfold(ls: seq<string>, blank: seq<bool>, wide: string, narrow: string)
    requires |ls| >= 2 && |blank| == |ls| - 1
    ensures Join(ls, blank, wide, narrow)
         == ls[0] + (if blank[0] then wide else narrow) + Join(ls[1..], blank[1..], wide, narrow)
  {
  }

  /** A line and the paragraph that continues it after a blank line merge into one paragraph. */
  lemma WrapWide(c: string, t0: string, t1: string, r1: string, w1: string, q1: string)
    requires w1 == "<p>" + t1 + "</p>"
    requires MapLines(c + t0 + "</p><p>" + t1 + r1, Paragraphs) == "<p>" + (c + t0 + "</p><p>") + t1 + "</p>" + q1
    ensures MapLines(c + t0 + ("</p><p>" + t1 + r1), Paragraphs) == "<p>" + c + t0 + "</p>" + ("" + w1 + q1)
  {
    Regroup(c + t0, "</p><p>", t1, r1);
    var p0 := "<p>" + c + t0 + "</p>";
    calc {
      "<p>" + (c + t0 + "</p><p>") + t1 + "</p>" + q1;
      { Regroup("<p>", c, t0, "</p><p>"); }
      "<p>" + c + t0 + "</p><p>" + t1 + "</p>" + q1;
      { assert "</p><p>" == "</p>" + "<p>"; Regroup("<p>" + c + t0, "</p>", "<p>", []); }
      p0 + "<p>" + t1 + "</p>" + q1;
      { Regroup(p0, "<p>", t1, "</p>"); }
      p0 + w1 + q1;
      { Regroup(p0, w1, q1, []); assert "" + w1 == w1; }
      p0 + ("" + w1 + q1);
    }
  }

  /** A line followed by a newline is wrapped on its own. */
  lemma WrapNarrow(c: string, t0: string, t1: string, r1: string, w1: string, q1: string)
    requires SingleLine(c + t0) && t0 != [] && MapLines(t1 + r1, Paragraphs) == w1 + q1
    ensures MapLines(c + t0 + ("\n" + t1 + r1), Paragraphs) == "<p>" + c + t0 + "</p>" + ("\n" + w1 + q1)
  {
    var a := c + t0;
    Regroup(a, "\n", t1, r1);
    MapLinesCons(a, '\n', t1 + r1, Paragraphs);
    Regroup("<p>" + c + t0 + "</p>", "\n", w1, q1);
    Regroup("<p>", c, t0, []);
  }

  /** `Join` without its first line. */
  function JoinRest(ls: seq<string>, blank: seq<bool>, wide: string, narrow: string): string
    requires |ls| >= 1 && |blank| == |ls| - 1
    decreases |ls|
  {
    if |ls| == 1 then []
    else (if blank[0] then wide else narrow) + ls[1] + JoinRest(ls[1..], blank[1..], wide, narrow)
  }

  lemma {:induction false} JoinSplit(ls: seq<string>, blank: seq<bool>, wide: string, narrow: string)
    requires |ls| >= 1 && |blank| == |ls| - 1
    ensures Join(ls, blank, wide, narrow) == ls[0] + JoinRest(ls, blank, wide, narrow)
    decreases |ls|
  {
    if |ls| > 1 {
      JoinSplit(ls[1..], blank[1..], wide, narrow);
    }
  }

  /**
   * Paragraph wrapping, with `c` the already-open start of the first physical
   * line and `ws` the lines wrapped one by one.
   */
  lemma {:induction false} WrapJoin(c: string, ts: seq<string>, ws: seq<string>, blank: seq<bool>)
    requires |ts| >= 1 && |ws| == |ts| && |blank| == |ts| - 1 && SingleLine(c)
    requires forall i :: 0 <= i < |ts| ==> ts[i] != [] && SingleLine(ts[i]) && ws[i] == "<p>" + ts[i] + "</p>"
    ensures MapLines(c + ts[0] + JoinRest(ts, blank, "</p><p>", "\n"), Paragraphs)
         == "<p>" + c + ts[0] + "</p>" + JoinRest(ws, blank, "", "\n")
    decreases |ts|
  {
    SingleLineConcat(c, ts[0]);
    if |ts| == 1 {
      MapLinesOne(c + ts[0], Paragraphs);
      assert c + ts[0] + [] == c + ts[0];
    } else {
      var r1 := JoinRest(ts[1..], blank[1..], "</p><p>", "\n");
      var q1 := JoinRest(ws[1..], blank[1..], "", "\n");
      if blank[0] {
        var c' := c + ts[0] + "</p><p>";
        assert SingleLine("</p><p>");
        SingleLineConcat(c + ts[0], "</p><p>");
        WrapJoin(c', ts[1..], ws[1..], blank[1..]);
        WrapWide(c, ts[0], ts[1], r1, ws[1], q1);
      } else {
        WrapJoin([], ts[1..], ws[1..], blank[1..]);
        Regroup([], ts[1], "<p>", []);
        assert ws[1] == "<p>" + ts[1] + "</p>";
        WrapNarrow(c, ts[0], ts[1], r1, ws[1], q1);
      }
    }
  }

  lemma {:induction false} ReplaceJoin(ps: seq<string>, qs: seq<string>, blank: seq<bool>,
                                       pat: Pattern, rep: seq<Part>)
    requires |ps| >= 1 && |qs| == |ps| && |blank| == |ps| - 1
    requires |pat| > 0 && FitsPattern(rep, pat) && !Accepts(pat[0], '\n')
    requires forall i :: 0 <= i < |ps| ==>
      NoStraddleFrom(ps[i], 0, pat) && ReplaceAll(ps[i], pat, rep) == qs[i]
    ensures ReplaceAll(Join(ps, blank, "", "\n"), pat, rep) == Join(qs, blank, "", "\n")
    decreases |ps|
  {
    if |ps| == 1 {
      ReplaceConcat(ps[0], [], pat, rep);
      assert ps[0] + [] == ps[0];
    } else {
      var rest := Join(ps[1..], blank[1..], "", "\n");
      ReplaceJoin(ps[1..], qs[1..], blank[1..], pat, rep);
      var sep := if blank[0] then "" else "\n";
      assert Join(ps, blank, "", "\n") == ps[0] + (sep + rest);
      ReplaceConcat(ps[0], sep + rest, pat, rep);
      assert Inert(sep, pat);
      ReplaceInert(sep, rest, pat, rep);
    }
  }

  /** Steps 1 to 4: the marker rules act line by line. */
  lemma MarkerSteps(lines: seq<string>, blank: seq<bool>)
    requires |lines| >= 1 && |blank| == |lines| - 1
    requires forall i :: 0 <= i < |lines| ==> CleanLine(lines[i])
    ensures MapLines(MapLines(MapLines(MapLines(Join(lines, blank, "\n\n", "\n"),
              HeadingOne), HeadingTwo), HeadingThree), Bullet)
         == Join(Stages(4, lines), blank, "\n\n", "\n")
  {
    var l1 := MapRule(lines, HeadingOne);
    var l2 := MapRule(l1, HeadingTwo);
    var l3 := MapRule(l2, HeadingThree);
    var l4 := MapRule(l3, Bullet);
    forall i | 0 <= i < |lines|
      ensures SingleLine(l1[i]) && SingleLine(l2[i]) && SingleLine(l3[i])
      ensures l4[i] == Stage(4, lines[i])
    {
      MarkersOnLine(lines[i]);
      MarkersKeepLine(lines[i]);
    }
    MapLinesJoin(lines, blank, HeadingOne);
    MapLinesJoin(l1, blank, HeadingTwo);
    MapLinesJoin(l2, blank, HeadingThree);
    MapLinesJoin(l3, blank, Bullet);
    assert l4 == Stages(4, lines);
  }

  /** Steps 5 and 6: blank lines close and reopen paragraphs, then every line is wrapped. */
  lemma ParagraphSteps(lines: seq<string>, blank: seq<bool>)
    requires |lines| >= 1 && |blank| == |lines| - 1
    requires forall i :: 0 <= i < |lines| ==> CleanLine(lines[i])
    ensures MapLines(ReplaceAll(Join(Stages(4, lines), blank, "\n\n", "\n"), BlankLine, [Text("</p><p>")]),
              Paragraphs)
         == Join(Stages(6, lines), blank, "", "\n")
  {
    var ts, ws := Stages(4, lines), Stages(6, lines);
    forall i | 0 <= i < |lines|
      ensures ts[i] != [] && SingleLine(ts[i]) && ws[i] == "<p>" + ts[i] + "</p>"
    {
      StageLine(4, lines[i]);
      WrapLine(lines[i]);
    }
    BlankLinesJoin(ts, blank);
    JoinSplit(ts, blank, "</p><p>", "\n");
    JoinSplit(ws, blank, "", "\n");
    WrapJoin([], ts, ws, blank);
    Regroup([], ts[0], "<p>", []);
    assert ws[0] == "<p>" + ts[0] + "</p>";
  }

  lemma StepShape(n: nat)
    requires 6 <= n <= 9
    ensures |StepPattern(n)| > 0 && !Accepts(StepPattern(n)[0], '\n')
    ensures FitsPattern(StepTemplate(n), StepPattern(n))
  {
  }

  lemma LastSteps(n: nat, lines: seq<string>, blank: seq<bool>)
    requires 6 <= n <= 9 && |lines| >= 1 && |blank| == |lines| - 1
    requires forall i :: 0 <= i < |lines| ==> CleanLine(lines[i])
    ensures ReplaceAll(Join(Stages(n, lines), blank, "", "\n"), StepPattern(n), StepTemplate(n))
         == Join(Stages(n + 1, lines), blank, "", "\n")
  {
    var ps, qs := Stages(n, lines), Stages(n + 1, lines);
    forall i | 0 <= i < |lines|
      ensures NoStraddleFrom(ps[i], 0, StepPattern(n))
      ensures ReplaceAll(ps[i], StepPattern(n), StepTemplate(n)) == qs[i]
    {
      StepLine(n, lines[i]);
    }
    StepShape(n);
    ReplaceJoin(ps, qs, blank, StepPattern(n), StepTemplate(n));
  }

  lemma FinalStage(lines: seq<string>)
    ensures Stages(10, lines) == RenderLines(lines)
  {
    forall i | 0 <= i < |lines| ensures Stages(10, lines)[i] == RenderLines(lines)[i] {
      KindOfKnown(lines[i]);
    }
  }

  /**
   * The converter on a document of clean lines separated by newlines or by
   * single blank lines: every line is rendered on its own (a heading without a
   * paragraph, a one-item list, or a paragraph), lines stay separated by a
   * newline, and a blank line only removes the separator.
   */
  lemma ParseMarkdownRendersLines(lines: seq<string>, blank: seq<bool>)
    requires |lines| >= 1 && |blank| == |lines| - 1
    requires forall i :: 0 <= i < |lines| ==> CleanLine(lines[i])
    ensures ParseMarkdown(Join(lines, blank, "\n\n", "\n")) == Join(RenderLines(lines), blank, "", "\n")
  {
    var s4 := Join(Stages(4, lines), blank, "\n\n", "\n");
    var s6 := Join(Stages(6, lines), blank, "", "\n");
    var s7 := Join(Stages(7, lines), blank, "", "\n");
    var s8 := Join(Stages(8, lines), blank, "", "\n");
    var s9 := Join(Stages(9, lines), blank, "", "\n");
    MarkerSteps(lines, blank);
    ParagraphSteps(lines, blank);
    LastSteps(6, lines, blank);
    assert ReplaceAll(s6, ParaItem, [Text("<ul><li>")]) == s7;
    LastSteps(7, lines, blank);
    assert ReplaceAll(s7, ItemPara, [Text("</li></ul>")]) == s8;
    LastSteps(8, lines, blank);
    assert ReplaceAll(s8, ParaHeading, [Text("<h")]) == s9;
    LastSteps(9, lines, blank);
    assert ReplaceAll(s9, HeadingPara, HeadingClose) == Join(Stages(10, lines), blank, "", "\n");
    FinalStage(lines);
  }

  /** A single clean line is rendered by `RenderLine`. */
  lemma ParseMarkdownLine(line: string)
    requires CleanLine(line)
    ensures ParseMarkdown(line) == RenderLine(line)
  {
    ParseMarkdownRendersLines([line], []);
    assert RenderLines([line]) == [RenderLine(line)];
  }
  /** `####` is not a heading marker: such a line becomes a paragraph, hashes included. */
  lemma DeepHeadingIsParagraph(line: string)
    requires CleanLine(line) && Marked(line, "####")
    ensures ParseMarkdown(line) == "<p>" + line + "</p>"
  {
    assert line[1] == '#' && line[2] == '#' && line[3] == '#';
    assert KindOf(line) == Plain;
    ParseMarkdownLine(line);
  }

  /** A heading and a paragraph set apart by a blank line: the blank line disappears. */
  lemma ParseMarkdownExample()
    ensures ParseMarkdown("# Hello\n\nWorld") == "<h1>Hello</h1><p>World</p>"
  {
    var lines := ["# Hello", "World"];
    ExampleLines(lines);
    ParseMarkdownRendersLines(lines, [true]);
    ExampleJoins(lines, RenderLines(lines));
  }

  lemma ExampleLines(lines: seq<string>)
    requires lines == ["# Hello", "World"]
    ensures CleanLine(lines[0]) && CleanLine(lines[1])
    ensures RenderLines(lines) == ["<h1>Hello</h1>", "<p>World</p>"]
  {
    assert KindOf(lines[0]) == Heading(1) && Body(lines[0]) == "Hello";
    assert RenderLine(lines[0]) == "<h1>Hello</h1>";
    assert lines[1][0] == 'W' && KindOf(lines[1]) == Plain;
    assert RenderLine(lines[1]) == "<p>World</p>";
  }

  lemma ExampleJoins(lines: seq<string>, rendered: seq<string>)
    requires lines == ["# Hello", "World"] && rendered == ["<h1>Hello</h1>", "<p>World</p>"]
    ensures Join(lines, [true], "\n\n", "\n") == "# Hello\n\nWorld"
    ensures Join(rendered, [true], "", "\n") == "<h1>Hello</h1><p>World</p>"
  {
    assert Join(lines[1..], [], "\n\n", "\n") == "World";
    assert Join(rendered[1..], [], "", "\n") == "<p>World</p>";
  }
}
