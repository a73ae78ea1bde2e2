/**
 * The portal's configuration (`app.json`): the application record and the
 * navigation tabs. Also here: the fallback configuration, tab lookup, the
 * update of the `active` flags, the navigation order, the resource paths a
 * tab declares, and the placeholder page for a tab without content.
 */
module Tabs {
  import opened Wrappers
  import opened Js

  /** Where a tab's page comes from: `source` is `json`, `markdown` or `html`. */
  datatype ContentRef = ContentRef(source: Option<string>, path: Option<string>, file: Option<string>)

  /** A stylesheet or script a tab declares. */
  datatype ResourceRef = ResourceRef(path: Option<string>, file: Option<string>)

  /** `kind` is the tab's `type` field. */
  datatype Tab = Tab(
    id: string, name: Option<string>, title: Option<string>, icon: Option<string>,
    active: bool, kind: Option<string>, order: Option<int>,
    content: Option<ContentRef>, styles: Option<ResourceRef>, scripts: Option<ResourceRef>)

  datatype AppInfo = AppInfo(name: Option<string>, version: Option<string>)

  /** `app` and `navigation.tabs`. */
  datatype Config = Config(app: Option<AppInfo>, tabs: seq<Tab>)

  /** The configuration used when `app.json` cannot be fetched or parsed. */
  function FallbackConfig(): Config {
    Config(
      Some(AppInfo(Some("CDM Documentation Portal"), Some("1.0.0"))),
      [Tab("homepage", Some("Home"), Some("CDM Documentation Home"), None, true, Some("dynamic"), Some(1),
           None, None, None)])
  }

  // ---------------------------------------------------------------------------
  // Lookup (`Array.prototype.find`)

  /** The index of the first tab satisfying `p`. */
  function FirstWhere(tabs: seq<Tab>, p: Tab -> bool): (r: Option<nat>)
    ensures r.Some? ==> r.value < |tabs| && p(tabs[r.value])
    ensures r.Some? ==> forall j :: 0 <= j < r.value ==> !p(tabs[j])
    ensures r.None? ==> forall j :: 0 <= j < |tabs| ==> !p(tabs[j])
    decreases |tabs|
  {
    if tabs == [] then None
    else if p(tabs[0]) then Some(0)
    else
      var rest := FirstWhere(tabs[1..], p);
      if rest.Some? then Some(rest.value + 1) else None
  }

  predicate HasId(t: Tab, id: string) {
    t.id == id
  }

  predicate IsActive(t: Tab) {
    t.active
  }

  /** The first tab whose id is `id`, if any. */
  function Find(tabs: seq<Tab>, id: string): (r: Option<Tab>)
    ensures r.None? <==> forall i :: 0 <= i < |tabs| ==> tabs[i].id != id
    ensures r.Some? ==> exists i :: 0 <= i < |tabs| && tabs[i] == r.value && r.value.id == id
                                     && forall j :: 0 <= j < i ==> tabs[j].id != id
  {
    var k := FirstWhere(tabs, t => HasId(t, id));
    if k.Some? then Some(tabs[k.value]) else None
  }

  /** The first active tab, if any. */
  function FindActive(tabs: seq<Tab>): (r: Option<Tab>)
    ensures r.None? <==> forall i :: 0 <= i < |tabs| ==> !tabs[i].active
    ensures r.Some? ==> exists i :: 0 <= i < |tabs| && tabs[i] == r.value && r.value.active
                                     && forall j :: 0 <= j < i ==> !tabs[j].active
  {
    var k := FirstWhere(tabs, IsActive);
    if k.Some? then Some(tabs[k.value]) else None
  }

  predicate UniqueIds(tabs: seq<Tab>) {
    forall i, j :: 0 <= i < j < |tabs| ==> tabs[i].id != tabs[j].id
  }

  // ---------------------------------------------------------------------------
  // The `active` flags (`updateActiveTab`)

  /** Every tab with its `active` flag set to whether its id is `id`. */
  function ActivateTabs(tabs: seq<Tab>, id: string): (r: seq<Tab>)
    ensures |r| == |tabs|
  {
    seq(|tabs|, i requires 0 <= i < |tabs| => tabs[i].(active := tabs[i].id == id))
  }

  /**
   * With distinct ids, activating a known id leaves exactly one active tab,
   * the one with that id; every other field of every tab is unchanged.
   */
  lemma ActivateExclusive(tabs: seq<Tab>, id: string)
    requires UniqueIds(tabs) && Find(tabs, id).Some?
    ensures exists i :: 0 <= i < |tabs| && ActivateTabs(tabs, id)[i].active && ActivateTabs(tabs, id)[i].id == id
    ensures forall i, j :: 0 <= i < |tabs| && 0 <= j < |tabs| ==>
              (ActivateTabs(tabs, id)[i].active && ActivateTabs(tabs, id)[j].active ==> i == j)
    ensures forall i :: 0 <= i < |tabs| ==> ActivateTabs(tabs, id)[i].(active := tabs[i].active) == tabs[i]
  {
    var r := ActivateTabs(tabs, id);
    var i :| 0 <= i < |tabs| && tabs[i].id == id;
    assert r[i].active;
  }

  /** After activating a known id, looking it up finds the same tab, now active. */
  lemma FindActivated(tabs: seq<Tab>, id: string)
    requires Find(tabs, id).Some?
    ensures Find(ActivateTabs(tabs, id), id) == Some(Find(tabs, id).value.(active := true))
  {
    var r := ActivateTabs(tabs, id);
    var i :| 0 <= i < |tabs| && tabs[i] == Find(tabs, id).value && tabs[i].id == id
             && forall j :: 0 <= j < i ==> tabs[j].id != id;
    assert r[i] == tabs[i].(active := true);
    var k :| 0 <= k < |r| && r[k] == Find(r, id).value && r[k].id == id
             && forall j :: 0 <= j < k ==> r[j].id != id;
    assert k == i;
  }

  /** An id no tab has switches every flag off. */
  lemma ActivateUnknown(tabs: seq<Tab>, id: string)
    requires Find(tabs, id).None?
    ensures forall i :: 0 <= i < |tabs| ==> !ActivateTabs(tabs, id)[i].active
  {
  }

  // ---------------------------------------------------------------------------
  // Navigation order: a stable sort by `order || 0`

  function OrderKey(t: Tab): int {
    NumberOr0(t.order)
  }

  predicate SortedByOrder(s: seq<Tab>) {
    forall i, j :: 0 <= i < j < |s| ==> OrderKey(s[i]) <= OrderKey(s[j])
  }

  /** Inserts `t` after every tab whose key is not above its own. */
  function InsertByOrder(s: seq<Tab>, t: Tab): seq<Tab>
    decreases |s|
  {
    if s == [] then [t]
    else if OrderKey(s[|s| - 1]) <= OrderKey(t) then s + [t]
    else InsertByOrder(s[..|s| - 1], t) + [s[|s| - 1]]
  }

  /** The tabs in the order the navigation bar lists them. */
  function NavigationOrder(tabs: seq<Tab>): seq<Tab>
    decreases |tabs|
  {
    if tabs == [] then [] else InsertByOrder(NavigationOrder(tabs[..|tabs| - 1]), tabs[|tabs| - 1])
  }

  /** The tabs of `s` whose key is `k`, in their order in `s`. */
  function WithKey(s: seq<Tab>, k: int): seq<Tab>
    decreases |s|
  {
    if s == [] then []
    else WithKey(s[..|s| - 1], k) + (if OrderKey(s[|s| - 1]) == k then [s[|s| - 1]] else [])
  }

  lemma {:induction false} InsertMultiset(s: seq<Tab>, t: Tab)
    ensures multiset(InsertByOrder(s, t)) == multiset(s) + multiset{t}
    decreases |s|
  {
    if s != [] && OrderKey(s[|s| - 1]) > OrderKey(t) {
      var init, last := s[..|s| - 1], s[|s| - 1];
      assert s == init + [last];
      InsertMultiset(init, t);
    }
  }

  /** Inserting below a bound keeps every key below it. */
  lemma {:induction false} InsertBelow(s: seq<Tab>, t: Tab, m: int)
    requires forall i :: 0 <= i < |s| ==> OrderKey(s[i]) <= m
    requires OrderKey(t) <= m
    ensures forall i :: 0 <= i < |InsertByOrder(s, t)| ==> OrderKey(InsertByOrder(s, t)[i]) <= m
    decreases |s|
  {
    if s != [] && OrderKey(s[|s| - 1]) > OrderKey(t) {
      var init, last := s[..|s| - 1], s[|s| - 1];
      InsertBelow(init, t, m);
      assert InsertByOrder(s, t) == InsertByOrder(init, t) + [last];
    }
  }

  lemma {:induction false} InsertSorted(s: seq<Tab>, t: Tab)
    requires SortedByOrder(s)
    ensures SortedByOrder(InsertByOrder(s, t))
    decreases |s|
  {
    if s != [] && OrderKey(s[|s| - 1]) > OrderKey(t) {
      var init, last := s[..|s| - 1], s[|s| - 1];
      assert SortedByOrder(init);
      InsertSorted(init, t);
      InsertBelow(init, t, OrderKey(last));
      var r := InsertByOrder(init, t);
      assert InsertByOrder(s, t) == r + [last];
      forall i, j | 0 <= i < j < |r| + 1 ensures OrderKey((r + [last])[i]) <= OrderKey((r + [last])[j]) {
        assert (r + [last])[i] == r[i];
      }
    }
  }

  lemma WithKeySnoc(s: seq<Tab>, x: Tab, k: int)
    ensures WithKey(s + [x], k) == WithKey(s, k) + (if OrderKey(x) == k then [x] else [])
  {
    assert (s + [x])[..|s|] == s;
  }

  lemma {:induction false} InsertWithKey(s: seq<Tab>, t: Tab, k: int)
    ensures WithKey(InsertByOrder(s, t), k) == WithKey(s, k) + (if OrderKey(t) == k then [t] else [])
    decreases |s|
  {
    if s == [] {
      WithKeySnoc([], t, k);
      assert [] + [t] == [t];
    } else if OrderKey(s[|s| - 1]) <= OrderKey(t) {
      WithKeySnoc(s, t, k);
    } else {
      var init, last := s[..|s| - 1], s[|s| - 1];
      var tk: seq<Tab> := if OrderKey(t) == k then [t] else [];
      var lk: seq<Tab> := if OrderKey(last) == k then [last] else [];
      InsertWithKey(init, t, k);
      var r := InsertByOrder(init, t);
      assert InsertByOrder(s, t) == r + [last];
      WithKeySnoc(r, last, k);
      assert WithKey(s, k) == WithKey(init, k) + lk;
      // `t` and `last` have different keys, so at most one of them is kept
      assert tk == [] || lk == [];
      assert WithKey(r + [last], k) == WithKey(init, k) + tk + lk;
    }
  }

  /** The navigation is sorted by `order || 0`. */
  lemma {:induction false} NavigationOrderSorted(tabs: seq<Tab>)
    ensures SortedByOrder(NavigationOrder(tabs))
    decreases |tabs|
  {
    if tabs != [] {
      var init := tabs[..|tabs| - 1];
      NavigationOrderSorted(init);
      InsertSorted(NavigationOrder(init), tabs[|tabs| - 1]);
    }
  }

  /** The navigation lists every configured tab, each as often as it is configured. */
  lemma {:induction false} NavigationOrderPermutes(tabs: seq<Tab>)
    ensures multiset(NavigationOrder(tabs)) == multiset(tabs)
    decreases |tabs|
  {
    if tabs != [] {
      var init, last := tabs[..|tabs| - 1], tabs[|tabs| - 1];
      NavigationOrderPermutes(init);
      InsertMultiset(NavigationOrder(init), last);
      assert tabs == init + [last];
    }
  }

  /** The sort is stable: tabs with the same key keep their configured order. */
  lemma {:induction false} NavigationOrderStable(tabs: seq<Tab>, k: int)
    ensures WithKey(NavigationOrder(tabs), k) == WithKey(tabs, k)
    decreases |tabs|
  {
    if tabs != [] {
      var init := tabs[..|tabs| - 1];
      NavigationOrderStable(init, k);
      InsertWithKey(NavigationOrder(init), tabs[|tabs| - 1], k);
    }
  }

  // ---------------------------------------------------------------------------
  // Resource paths

  /** `${tab.content.path || 'json/'}${tab.content.file}` */
  function JsonUrl(c: ContentRef): string {
    Or(c.path, "json/") + Show(c.file)
  }

  /** `markdown/${tab.content.file}`: the content path is not used. */
  function MarkdownUrl(c: ContentRef): string {
    "markdown/" + Show(c.file)
  }

  /** `${tab.content.path || ''}${tab.content.file}` */
  function HtmlUrl(c: ContentRef): string {
    Or(c.path, "") + Show(c.file)
  }

  /** `${tab.styles.path || 'css/'}${tab.styles.file}` */
  function StyleHref(r: ResourceRef): string {
    Or(r.path, "css/") + Show(r.file)
  }

  /** `${tab.scripts.path || 'js/'}${tab.scripts.file}` */
  function ScriptSrc(r: ResourceRef): string {
    Or(r.path, "js/") + Show(r.file)
  }

  /** The element ids of a tab's stylesheet and script. */
  function StyleId(t: Tab): string {
    "style-" + t.id
  }

  function ScriptId(t: Tab): string {
    "script-" + t.id
  }

  // ---------------------------------------------------------------------------
  // The placeholder page (`getEmptyTabContent`)

  /** `tab.title || tab.name`, as it prints. */
  function TabLabel(t: Tab): string {
    Or(t.title, Show(t.name))
  }

  /** `${tab.content?.path || 'json/'}${tab.content?.file || tab.id + '.json'}` */
  function ContentHint(t: Tab): string {
    if t.content.Some? then Or(t.content.value.path, "json/") + Or(t.content.value.file, t.id + ".json")
    else "json/" + t.id + ".json"
  }

  /** `${tab.styles?.path || 'css/'}${tab.styles?.file || tab.id + '.css'}` */
  function StyleHint(t: Tab): string {
    if t.styles.Some? then Or(t.styles.value.path, "css/") + Or(t.styles.value.file, t.id + ".css")
    else "css/" + t.id + ".css"
  }

  /** `${tab.scripts?.path || 'js/'}${tab.scripts?.file || tab.id + '.js'}` */
  function ScriptHint(t: Tab): string {
    if t.scripts.Some? then Or(t.scripts.value.path, "js/") + Or(t.scripts.value.file, t.id + ".js")
    else "js/" + t.id + ".js"
  }

  /** The icon characters exactly as the source file holds them. */
  const PlaceholderIcon: string := "\U{00F0}\U{0178}\U{201C}\U{201E}"

  /**
   * The placeholder: the tab's label as heading, the three files to create,
   * and an example page document using the label and the name.
   */
  function EmptyTabContent(t: Tab): string {
    "\n"
    + Spaces(12) + "<div class=\"content-section empty-tab\">\n"
    + Spaces(16) + "<div class=\"empty-state\">\n"
    + Spaces(20) + "<div class=\"empty-icon\">" + PlaceholderIcon + "</div>\n"
    + Spaces(20) + "<h2>" + TabLabel(t) + "</h2>\n"
    + Spaces(20) + "<p class=\"empty-message\">This tab is ready for content!</p>\n"
    + Spaces(20) + "<div class=\"empty-instructions\">\n"
    + Spaces(24) + "<h3>To add content, create these files:</h3>\n"
    + Spaces(24) + "<ul class=\"file-list\">\n"
    + Spaces(28) + "<li>\n"
    + Spaces(32) + "<code>" + ContentHint(t) + "</code>\n"
    + Spaces(32) + "<span class=\"file-desc\">- Page content and structure</span>\n"
    + Spaces(28) + "</li>\n"
    + Spaces(28) + "<li>\n"
    + Spaces(32) + "<code>" + StyleHint(t) + "</code>\n"
    + Spaces(32) + "<span class=\"file-desc\">- Custom styles for this tab</span>\n"
    + Spaces(28) + "</li>\n"
    + Spaces(28) + "<li>\n"
    + Spaces(32) + "<code>" + ScriptHint(t) + "</code>\n"
    + Spaces(32) + "<span class=\"file-desc\">- Interactive functionality</span>\n"
    + Spaces(28) + "</li>\n"
    + Spaces(24) + "</ul>\n"
    + Spaces(20) + "</div>\n"
    + Spaces(20) + "<div class=\"empty-example\">\n"
    + Spaces(24) + "<h4>Example JSON structure:</h4>\n"
    + Spaces(24) + "<pre class=\"code-block\">{\n  \"title\": \"" + TabLabel(t) + "\",\n  \"subtitle\": \"Welcome to " + Show(t.name) + "\",\n  \"hero\": {\n    \"title\": \"Hero Section Title\",\n    \"description\": \"Hero description\"\n  },\n  \"sections\": [\n    {\n      \"title\": \"Section Title\",\n      \"content\": \"Section content here...\"\n    }\n  ]\n}</pre>\n"
    + Spaces(20) + "</div>\n"
    + Spaces(16) + "</div>\n"
    + Spaces(12) + "</div>\n"
    + Spaces(8)
  }

  /**
   * The placeholder names the file the JSON adapter fetches exactly when the
   * tab declares a non-empty file name; otherwise it suggests `<id>.json`
   * while the adapter asks for `undefined` or for the bare path.
   */
  lemma ContentHintMatchesFetch(t: Tab)
    requires t.content.Some?
    ensures ContentHint(t) == JsonUrl(t.content.value) <==> Truthy(t.content.value.file)
  {
    var c := t.content.value;
    var p := Or(c.path, "json/");
    if !Truthy(c.file) {
      var hint := ContentHint(t);
      assert hint == p + (t.id + ".json");
      if c.file.None? {
        assert hint[|hint| - 1] == 'n';
        assert JsonUrl(c)[|JsonUrl(c)| - 1] == 'd';
      } else {
        assert |JsonUrl(c)| == |p| < |hint|;
      }
    }
  }

  /** The same rule for the stylesheet the style loader attaches. */
  lemma StyleHintMatchesHref(t: Tab)
    requires t.styles.Some?
    ensures StyleHint(t) == StyleHref(t.styles.value) <==> Truthy(t.styles.value.file)
  {
    var r := t.styles.value;
    var p := Or(r.path, "css/");
    if !Truthy(r.file) {
      var hint := StyleHint(t);
      assert hint == p + (t.id + ".css");
      if r.file.None? {
        assert hint[|hint| - 1] == 's';
        assert StyleHref(r)[|StyleHref(r)| - 1] == 'd';
      } else {
        assert |StyleHref(r)| == |p| < |hint|;
      }
    }
  }

  /** The same rule for the script the script loader attaches. */
  lemma ScriptHintMatchesSrc(t: Tab)
    requires t.scripts.Some?
    ensures ScriptHint(t) == ScriptSrc(t.scripts.value) <==> Truthy(t.scripts.value.file)
  {
    var r := t.scripts.value;
    var p := Or(r.path, "js/");
    if !Truthy(r.file) {
      var hint := ScriptHint(t);
      assert hint == p + (t.id + ".js");
      if r.file.None? {
        assert hint[|hint| - 1] == 's';
        assert ScriptSrc(r)[|ScriptSrc(r)| - 1] == 'd';
      } else {
        assert |ScriptSrc(r)| == |p| < |hint|;
      }
    }
  }

  /**
   * The fallback configuration has one tab, `homepage`, active and without
   * content; its placeholder is headed by its title and suggests the default
   * file names.
   */
  lemma FallbackHome()
    ensures |FallbackConfig().tabs| == 1
    ensures Find(FallbackConfig().tabs, "homepage") == Some(FallbackConfig().tabs[0])
    ensures FindActive(FallbackConfig().tabs) == Some(FallbackConfig().tabs[0])
    ensures FallbackConfig().tabs[0].content.None?
    ensures TabLabel(FallbackConfig().tabs[0]) == "CDM Documentation Home"
    ensures ContentHint(FallbackConfig().tabs[0]) == "json/homepage.json"
    ensures StyleHint(FallbackConfig().tabs[0]) == "css/homepage.css"
    ensures ScriptHint(FallbackConfig().tabs[0]) == "js/homepage.js"
  {
  }
}
