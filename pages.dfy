/**
 * The JSON page format and the HTML the portal generates from it
 * (`generateHtmlFromJson` and its hero, section, grid, card and list helpers).
 * Each generator is specified by a function that spells out the markup; the
 * generators that build their output with a loop are methods proved to
 * produce exactly that markup.
 */
module Pages {
  import opened Wrappers
  import opened Js

  // ---------------------------------------------------------------------------
  // The page document. Every field is optional; an array field that is absent
  // or not an array is `None`.

  datatype Button = Button(text: Option<string>, link: Option<string>, className: Option<string>)

  datatype Hero = Hero(
    className: Option<string>, title: Option<string>, subtitle: Option<string>,
    description: Option<string>, buttons: Option<seq<Button>>)

  datatype SectionItem = SectionItem(title: Option<string>, content: Option<string>, link: Option<string>)

  datatype Section = Section(
    className: Option<string>, title: Option<string>, content: Option<string>,
    items: Option<seq<SectionItem>>)

  datatype GridItem = GridItem(
    icon: Option<string>, title: Option<string>, description: Option<string>, link: Option<string>)

  datatype Grid = Grid(
    className: Option<string>, title: Option<string>, columns: Option<int>,
    items: Option<seq<GridItem>>)

  datatype Card = Card(
    className: Option<string>, image: Option<string>, title: Option<string>,
    content: Option<string>, link: Option<string>)

  /** A list entry is either a bare string or an object with a title and a content. */
  datatype ListItem = TextItem(text: string) | EntryItem(title: Option<string>, content: Option<string>)

  /** `kind` is the list's `type` field. */
  datatype ContentList = ContentList(
    className: Option<string>, title: Option<string>, kind: Option<string>,
    items: Option<seq<ListItem>>)

  datatype Page = Page(
    title: Option<string>, subtitle: Option<string>, hero: Option<Hero>,
    sections: Option<seq<Section>>, grid: Option<Grid>, cards: Option<seq<Card>>,
    lists: Option<seq<ContentList>>)

  // ---------------------------------------------------------------------------
  // Array helpers: `forEach` with `html +=`, and `map(...).join(sep)`

  /** The fragments of `xs`, in array order, end to end. */
  function Concat<T>(xs: seq<T>, f: T -> string): string
    decreases |xs|
  {
    if xs == [] then "" else Concat(xs[..|xs| - 1], f) + f(xs[|xs| - 1])
  }

  /** `Array.prototype.join`: the strings with `sep` between neighbours. */
  function JoinWith(xs: seq<string>, sep: string): string
    decreases |xs|
  {
    if |xs| == 0 then ""
    else if |xs| == 1 then xs[0]
    else JoinWith(xs[..|xs| - 1], sep) + sep + xs[|xs| - 1]
  }

  /** Concatenation follows the array: the fragments of `a + b` are those of `a`, then those of `b`. */
  lemma {:induction false} ConcatAppend<T>(a: seq<T>, b: seq<T>, f: T -> string)
    ensures Concat(a + b, f) == Concat(a, f) + Concat(b, f)
    decreases |b|
  {
    if b == [] {
      assert a + b == a;
    } else {
      var b' := b[..|b| - 1];
      ConcatAppend(a, b', f);
      assert (a + b)[..|a + b| - 1] == a + b';
    }
  }

  /** Joining two non-empty runs puts exactly one separator between them. */
  lemma {:induction false} JoinWithAppend(a: seq<string>, b: seq<string>, sep: string)
    requires a != [] && b != []
    ensures JoinWith(a + b, sep) == JoinWith(a, sep) + sep + JoinWith(b, sep)
    decreases |b|
  {
    if |b| == 1 {
      assert (a + b)[..|a + b| - 1] == a;
    } else {
      var b' := b[..|b| - 1];
      JoinWithAppend(a, b', sep);
      assert (a + b)[..|a + b| - 1] == a + b';
    }
  }

  /** Advances a `forEach` accumulator by one element. */
  lemma ConcatStep<T>(xs: seq<T>, i: nat, f: T -> string)
    requires i < |xs|
    ensures Concat(xs[..i + 1], f) == Concat(xs[..i], f) + f(xs[i])
  {
    assert xs[..i + 1][..i] == xs[..i];
  }

  // ---------------------------------------------------------------------------
  // Hero (`generateHeroHtml`)

  function ButtonHtml(b: Button): string {
    "<a href=\"" + Or(b.link, "#") + "\" class=\"btn " + Or(b.className, "") + "\">" + Show(b.text) + "</a>"
  }

  function ButtonLinks(bs: seq<Button>): (r: seq<string>)
    ensures |r| == |bs|
  {
    seq(|bs|, i requires 0 <= i < |bs| => ButtonHtml(bs[i]))
  }

  /** The hero's buttons, joined by single spaces; nothing when `buttons` is not an array. */
  function ButtonRow(buttons: Option<seq<Button>>): string {
    if buttons.Some? then JoinWith(ButtonLinks(buttons.value), " ") else ""
  }

  function HeroHtml(h: Hero): string {
    "\n            <div class=\"" + Or(h.className, "hero-section") + "\">\n                "
    + (if Truthy(h.title) then "<h1>" + h.title.value + "</h1>" else "") + "\n                "
    + (if Truthy(h.subtitle) then "<p class=\"hero-subtitle\">" + h.subtitle.value + "</p>" else "")
    + "\n                "
    + (if Truthy(h.description) then "<p class=\"hero-description\">" + h.description.value + "</p>" else "")
    + "\n                " + ButtonRow(h.buttons) + "\n            </div>\n        "
  }

  /** Two groups of buttons render as the first group, one space, then the second. */
  lemma ButtonRowAppend(a: seq<Button>, b: seq<Button>)
    requires a != [] && b != []
    ensures ButtonRow(Some(a + b)) == ButtonRow(Some(a)) + " " + ButtonRow(Some(b))
  {
    assert ButtonLinks(a + b) == ButtonLinks(a) + ButtonLinks(b);
    JoinWithAppend(ButtonLinks(a), ButtonLinks(b), " ");
  }

  /** A button whose link is absent or empty points at `#`. */
  lemma ButtonWithoutLink(b: Button)
    requires !Truthy(b.link)
    ensures |ButtonHtml(b)| >= 11 && ButtonHtml(b)[..11] == "<a href=\"#\""
  {
    var tail := "\" class=\"btn " + Or(b.className, "") + "\">" + Show(b.text) + "</a>";
    assert ButtonHtml(b) == "<a href=\"#" + tail;
  }

  /** A button without a text shows `undefined`. */
  lemma ButtonWithoutText(b: Button)
    requires b.text.None?
    ensures |ButtonHtml(b)| >= 13 && ButtonHtml(b)[|ButtonHtml(b)| - 13..] == "undefined</a>"
  {
    var front := "<a href=\"" + Or(b.link, "#") + "\" class=\"btn " + Or(b.className, "") + "\">";
    assert ButtonHtml(b) == front + "undefined</a>";
  }

  /** A button with no fields at all is the bare link. */
  lemma BareButton()
    ensures ButtonHtml(Button(None, None, None)) == "<a href=\"#\" class=\"btn \">undefined</a>"
  {
  }

  // ---------------------------------------------------------------------------
  // Sections (`generateSectionHtml`)

  function SectionItemHtml(item: SectionItem): string {
    "<div class=\"section-item\">\n                    "
    + (if Truthy(item.title) then "<h3>" + item.title.value + "</h3>" else "") + "\n                    "
    + (if Truthy(item.content) then "<p>" + item.content.value + "</p>" else "") + "\n                    "
    + (if Truthy(item.link) then "<a href=\"" + item.link.value + "\" class=\"btn btn-secondary\">Learn More</a>" else "")
    + "\n                </div>"
  }

  /** The opening tag, then the heading and the content block when the section has them. */
  function SectionOpen(s: Section): string {
    "<div class=\"content-section " + Or(s.className, "") + "\">"
    + (if Truthy(s.title) then "<h2>" + s.title.value + "</h2>" else "")
    + (if Truthy(s.content) then "<div class=\"section-content\">" + s.content.value + "</div>" else "")
  }

  /** The items, when `items` is an array, in one `section-items` block. */
  function SectionItems(items: Option<seq<SectionItem>>): string {
    if items.Some? then "<div class=\"section-items\">" + Concat(items.value, SectionItemHtml) + "</div>" else ""
  }

  function SectionHtml(s: Section): string {
    SectionOpen(s) + SectionItems(s.items) + "</div>"
  }

  method GenerateSectionHtml(section: Section) returns (html: string)
    ensures html == SectionHtml(section)
  {
    html := SectionOpen(section);
    if section.items.Some? {
      var items := section.items.value;
      ghost var open := html;
      html := html + "<div class=\"section-items\">";
      var i := 0;
      while i < |items|
        invariant 0 <= i <= |items|
        invariant html == open + "<div class=\"section-items\">" + Concat(items[..i], SectionItemHtml)
      {
        ConcatStep(items, i, SectionItemHtml);
        Regroup(open + "<div class=\"section-items\">", Concat(items[..i], SectionItemHtml), SectionItemHtml(items[i]), []);
        html := html + SectionItemHtml(items[i]);
        i := i + 1;
      }
      assert items[..i] == items;
      Regroup(open, "<div class=\"section-items\">", Concat(items, SectionItemHtml), "</div>");
      html := html + "</div>";
    } else {
      Regroup([], [], [], html);
    }
    html := html + "</div>";
  }

  // ---------------------------------------------------------------------------
  // Grid (`generateGridHtml`)

  function GridItemHtml(item: GridItem): string {
    "<div class=\"grid-item\">\n                    "
    + (if Truthy(item.icon) then "<div class=\"grid-icon\">" + item.icon.value + "</div>" else "") + "\n                    "
    + (if Truthy(item.title) then "<h3>" + item.title.value + "</h3>" else "") + "\n                    "
    + (if Truthy(item.description) then "<p>" + item.description.value + "</p>" else "") + "\n                    "
    + (if Truthy(item.link) then "<a href=\"" + item.link.value + "\" class=\"grid-link\">View</a>" else "")
    + "\n                </div>"
  }

  /** `grid-cols-N` for a truthy column count, `grid-auto` otherwise. */
  function GridClass(columns: Option<int>): string {
    if TruthyNumber(columns) then "grid-cols-" + NumberText(columns.value) else "grid-auto"
  }

  function GridOpen(g: Grid): string {
    "<div class=\"grid-container " + Or(g.className, "") + "\">"
    + (if Truthy(g.title) then "<h2 class=\"grid-title\">" + g.title.value + "</h2>" else "")
    + "<div class=\"grid " + GridClass(g.columns) + "\">"
  }

  function GridItems(items: Option<seq<GridItem>>): string {
    if items.Some? then Concat(items.value, GridItemHtml) else ""
  }

  function GridHtml(g: Grid): string {
    GridOpen(g) + GridItems(g.items) + "</div></div>"
  }

  method GenerateGridHtml(grid: Grid) returns (html: string)
    ensures html == GridHtml(grid)
  {
    html := GridOpen(grid);
    if grid.items.Some? {
      var items := grid.items.value;
      var i := 0;
      while i < |items|
        invariant 0 <= i <= |items|
        invariant html == GridOpen(grid) + Concat(items[..i], GridItemHtml)
      {
        ConcatStep(items, i, GridItemHtml);
        Regroup(GridOpen(grid), Concat(items[..i], GridItemHtml), GridItemHtml(items[i]), []);
        html := html + GridItemHtml(items[i]);
        i := i + 1;
      }
      assert items[..i] == items;
    } else {
      Regroup([], [], html, []);
    }
    html := html + "</div></div>";
  }

  /** The column class names the count exactly, and only a zero or absent count falls back to `grid-auto`. */
  lemma GridClassColumns(columns: Option<int>)
    ensures GridClass(columns) == "grid-auto" <==> !TruthyNumber(columns)
    ensures TruthyNumber(columns) ==>
      |GridClass(columns)| > 10 && GridClass(columns)[..10] == "grid-cols-"
      && ParseNumber(GridClass(columns)[10..]) == Some(columns.value)
  {
    if TruthyNumber(columns) {
      var c := GridClass(columns);
      assert c[..10] == "grid-cols-";
      assert c[10..] == NumberText(columns.value);
      NumberTextRoundTrip(columns.value);
      assert c[5] != "grid-auto"[5];
    }
  }

  // ---------------------------------------------------------------------------
  // Cards (`generateCardHtml`)

  function CardHtml(c: Card): string {
    "\n            <div class=\"card " + Or(c.className, "") + "\">\n                "
    + (if Truthy(c.image) then "<img src=\"" + c.image.value + "\" alt=\"" + Or(c.title, "") + "\" class=\"card-image\">" else "")
    + "\n                <div class=\"card-content\">\n                    "
    + (if Truthy(c.title) then "<h3 class=\"card-title\">" + c.title.value + "</h3>" else "") + "\n                    "
    + (if Truthy(c.content) then "<p class=\"card-text\">" + c.content.value + "</p>" else "") + "\n                    "
    + (if Truthy(c.link) then "<a href=\"" + c.link.value + "\" class=\"btn card-btn\">Read More</a>" else "")
    + "\n                </div>\n            </div>\n        "
  }

  // ---------------------------------------------------------------------------
  // Lists (`generateListHtml`)

  /** `ol` exactly when the list's type is `ordered`. */
  function ListTag(kind: Option<string>): string {
    if kind == Some("ordered") then "ol" else "ul"
  }

  /** A bare string is one `<li>`; an object shows its title in `<strong>` and its content in `<span>`. */
  function ListItemHtml(item: ListItem): string {
    match item
    case TextItem(s) => "<li>" + s + "</li>"
    case EntryItem(title, content) =>
      "<li>\n                        "
      + (if Truthy(title) then "<strong>" + title.value + "</strong>" else "") + "\n                        "
      + (if Truthy(content) then "<span>" + content.value + "</span>" else "")
      + "\n                    </li>"
  }

  function ListOpen(l: ContentList): string {
    "<div class=\"list-container " + Or(l.className, "") + "\">"
    + (if Truthy(l.title) then "<h3 class=\"list-title\">" + l.title.value + "</h3>" else "")
    + "<" + ListTag(l.kind) + " class=\"content-list\">"
  }

  function ListItems(items: Option<seq<ListItem>>): string {
    if items.Some? then Concat(items.value, ListItemHtml) else ""
  }

  function ListHtml(l: ContentList): string {
    ListOpen(l) + ListItems(l.items) + "</" + ListTag(l.kind) + "></div>"
  }

  method GenerateListHtml(list: ContentList) returns (html: string)
    ensures html == ListHtml(list)
  {
    var listType := if list.kind == Some("ordered") then "ol" else "ul";
    html := ListOpen(list);
    if list.items.Some? {
      var items := list.items.value;
      var i := 0;
      while i < |items|
        invariant 0 <= i <= |items|
        invariant html == ListOpen(list) + Concat(items[..i], ListItemHtml)
      {
        ConcatStep(items, i, ListItemHtml);
        Regroup(ListOpen(list), Concat(items[..i], ListItemHtml), ListItemHtml(items[i]), []);
        html := html + ListItemHtml(items[i]);
        i := i + 1;
      }
      assert items[..i] == items;
    } else {
      Regroup([], [], html, []);
    }
    html := html + "</" + listType + "></div>";
  }

  // ---------------------------------------------------------------------------
  // The page (`generateHtmlFromJson`)

  /** The title block, present only for a truthy title; the subtitle is optional inside it. */
  function HeaderHtml(p: Page): string {
    if Truthy(p.title) then
      "<div class=\"page-header\">\n                <h1>" + p.title.value + "</h1>\n                "
      + (if Truthy(p.subtitle) then "<p class=\"subtitle\">" + p.subtitle.value + "</p>" else "")
      + "\n            </div>"
    else ""
  }

  function HeroPart(p: Page): string {
    if p.hero.Some? then HeroHtml(p.hero.value) else ""
  }

  function SectionsPart(p: Page): string {
    if p.sections.Some? then Concat(p.sections.value, SectionHtml) else ""
  }

  function GridPart(p: Page): string {
    if p.grid.Some? then GridHtml(p.grid.value) else ""
  }

  /** An array of cards always gets its `cards-container`, even when empty. */
  function CardsPart(p: Page): string {
    if p.cards.Some? then "<div class=\"cards-container\">" + Concat(p.cards.value, CardHtml) + "</div>" else ""
  }

  function ListsPart(p: Page): string {
    if p.lists.Some? then Concat(p.lists.value, ListHtml) else ""
  }

  /** The fragments in page order: hero, header, sections, grid, cards, lists. */
  function PageBody(p: Page): string {
    HeroPart(p) + HeaderHtml(p) + SectionsPart(p) + GridPart(p) + CardsPart(p) + ListsPart(p)
  }

  /** The page inside its tab-scoped wrapper. */
  function PageHtml(p: Page, tabId: string): string {
    "<div class=\"content-section " + tabId + "-content\">" + PageBody(p) + "</div>"
  }

  /** A `forEach` whose callback appends the rendering of each element to `html`. */
  method AppendEach<T>(prefix: string, xs: seq<T>, render: T -> string) returns (html: string)
    ensures html == prefix + Concat(xs, render)
  {
    html := prefix;
    var i := 0;
    while i < |xs|
      invariant 0 <= i <= |xs|
      invariant html == prefix + Concat(xs[..i], render)
    {
      ConcatStep(xs, i, render);
      Regroup(prefix, Concat(xs[..i], render), render(xs[i]), []);
      html := html + render(xs[i]);
      i := i + 1;
    }
    assert xs[..i] == xs;
  }

  /**
   * Builds the header and the sections first and puts the hero in front of
   * them afterwards, so the hero still comes first.
   */
  method GenerateHtmlFromJson(data: Page, tabId: string) returns (html: string)
    ensures html == PageHtml(data, tabId)
  {
    html := HeaderHtml(data);
    if data.sections.Some? {
      html := AppendEach(html, data.sections.value, SectionHtml);
    } else {
      Regroup([], [], html, []);
    }
    if data.hero.Some? {
      html := HeroHtml(data.hero.value) + html;
    }
    Regroup(HeroPart(data), HeaderHtml(data), SectionsPart(data), []);
    ghost var front := HeroPart(data) + HeaderHtml(data) + SectionsPart(data);
    assert html == front;
    if data.grid.Some? {
      var g := GenerateGridHtml(data.grid.value);
      html := html + g;
    } else {
      Regroup([], [], html, []);
    }
    ghost var upToGrid := front + GridPart(data);
    assert html == upToGrid;
    if data.cards.Some? {
      html := AppendEach(html + "<div class=\"cards-container\">", data.cards.value, CardHtml);
      Regroup(upToGrid, "<div class=\"cards-container\">", Concat(data.cards.value, CardHtml), "</div>");
      html := html + "</div>";
    } else {
      Regroup([], [], html, []);
    }
    ghost var upToCards := upToGrid + CardsPart(data);
    assert html == upToCards;
    if data.lists.Some? {
      html := AppendEach(html, data.lists.value, ListHtml);
    } else {
      Regroup([], [], html, []);
    }
    assert html == PageBody(data);
    html := "<div class=\"content-section " + tabId + "-content\">" + html + "</div>";
  }

  /** A page with no fields renders to the bare wrapper. */
  lemma EmptyPageHtml(tabId: string)
    ensures PageHtml(Page(None, None, None, None, None, None, None), tabId)
         == "<div class=\"content-section " + tabId + "-content\"></div>"
  {
    var p := Page(None, None, None, None, None, None, None);
    assert PageBody(p) == [];
  }

  /** Sections render in array order: the sections of `a + b` are those of `a`, then those of `b`. */
  lemma SectionsInOrder(p: Page, a: seq<Section>, b: seq<Section>)
    requires p.sections == Some(a + b)
    ensures SectionsPart(p) == Concat(a, SectionHtml) + Concat(b, SectionHtml)
  {
    ConcatAppend(a, b, SectionHtml);
  }
}
