/**
 * The portal controller (`CDMApp`): the configuration, the current tab, the
 * content cache and the parts of the page it writes, with the operations that
 * switch tabs, load their content and manage the cache.
 */
module Portal {
  import opened Wrappers
  import opened Js
  import opened Pages
  import opened Tabs
  import Markdown

  /**
   * What the network answers for a URL: a parsed JSON page or a text body, or
   * nothing when the request fails or the JSON does not parse.
   */
  datatype Network = Network(json: string -> Option<Page>, text: string -> Option<string>)

  // ---------------------------------------------------------------------------
  // Content, as a function of the tab and the network

  /** The URL a tab's content adapter fetches; a tab without a known source fetches nothing. */
  function ContentRequest(t: Tab): Option<string> {
    if t.content.None? then None
    else if t.content.value.source == Some("json") then Some(JsonUrl(t.content.value))
    else if t.content.value.source == Some("markdown") then Some(MarkdownUrl(t.content.value))
    else if t.content.value.source == Some("html") then Some(HtmlUrl(t.content.value))
    else None
  }

  function RequestsOf(t: Tab): seq<string> {
    if ContentRequest(t).Some? then [ContentRequest(t).value] else []
  }

  /**
   * What the adapters produce for a tab: the generated page, the converted
   * Markdown or the HTML text verbatim, and the placeholder `empty(t)` when
   * the fetch fails or the tab names no known source.
   */
  function AdapterContent(net: Network, empty: Tab -> string, t: Tab): string {
    if t.content.None? then empty(t)
    else
      var c := t.content.value;
      if c.source == Some("json") then
        (match net.json(JsonUrl(c))
         case None => empty(t)
         case Some(p) => PageHtml(p, t.id))
      else if c.source == Some("markdown") then
        (match net.text(MarkdownUrl(c))
         case None => empty(t)
         case Some(md) => Markdown.ParseMarkdown(md))
      else if c.source == Some("html") then
        (match net.text(HtmlUrl(c))
         case None => empty(t)
         case Some(h) => h)
      else empty(t)
  }

  /** A cached page when there is one, else the adapters' result. */
  function CachedContent(cache: map<string, string>, net: Network, empty: Tab -> string, t: Tab): string {
    if t.id in cache then cache[t.id] else AdapterContent(net, empty, t)
  }

  /** The fetches a content lookup makes: none on a cache hit. */
  function MissRequests(cache: map<string, string>, t: Tab): seq<string> {
    if t.id in cache then [] else RequestsOf(t)
  }

  /**
   * A lookup stores what it returns, so a second lookup of the same tab
   * returns the identical string and fetches nothing, whatever the network
   * answers by then.
   */
  lemma SecondLookupHits(cache: map<string, string>, net: Network, net': Network, empty: Tab -> string, t: Tab)
    ensures CachedContent(cache[t.id := CachedContent(cache, net, empty, t)], net', empty, t) == CachedContent(cache, net, empty, t)
    ensures MissRequests(cache[t.id := CachedContent(cache, net, empty, t)], t) == []
  {
  }

  /** When the fetch fails, or there is nothing to fetch, the tab shows its placeholder. */
  lemma FailedFetchShowsPlaceholder(net: Network, empty: Tab -> string, t: Tab)
    requires ContentRequest(t).None?
          || (t.content.value.source == Some("json") && net.json(ContentRequest(t).value).None?)
          || (t.content.value.source != Some("json") && net.text(ContentRequest(t).value).None?)
    ensures AdapterContent(net, empty, t) == empty(t)
  {
  }

  /** The HTML adapter returns the fetched text unchanged. */
  lemma HtmlVerbatim(net: Network, empty: Tab -> string, t: Tab, body: string)
    requires t.content.Some? && t.content.value.source == Some("html")
    requires net.text(HtmlUrl(t.content.value)) == Some(body)
    ensures AdapterContent(net, empty, t) == body && ContentRequest(t) == Some(HtmlUrl(t.content.value))
  {
  }

  /** The Markdown adapter reads from `markdown/` whatever path the tab declares. */
  lemma MarkdownIgnoresPath(t: Tab, path: Option<string>)
    requires t.content.Some? && t.content.value.source == Some("markdown")
    ensures ContentRequest(t.(content := Some(t.content.value.(path := path)))) == ContentRequest(t)
    ensures |ContentRequest(t).value| >= 9 && ContentRequest(t).value[..9] == "markdown/"
  {
  }

  // ---------------------------------------------------------------------------
  // The first tab shown (`loadInitialContent`)

  /** `window.location.hash.slice(1)` */
  function HashTab(locationHash: string): string {
    if |locationHash| >= 1 then locationHash[1..] else ""
  }

  /**
   * `hash && find(id === hash) ? hash : find(active)?.id || tabs[0]?.id`;
   * `None` is `undefined`.
   */
  function InitialTab(hash: string, tabs: seq<Tab>): Option<string> {
    if hash != "" && Find(tabs, hash).Some? then Some(hash)
    else if FindActive(tabs).Some? && FindActive(tabs).value.id != "" then Some(FindActive(tabs).value.id)
    else if |tabs| > 0 then Some(tabs[0].id)
    else None
  }

  predicate HashNamesTab(hash: string, tabs: seq<Tab>) {
    hash != "" && exists i :: 0 <= i < |tabs| && tabs[i].id == hash
  }

  predicate FirstActive(tabs: seq<Tab>, i: int) {
    0 <= i < |tabs| && tabs[i].active && forall j :: 0 <= j < i ==> !tabs[j].active
  }

  /**
   * The initial tab is the URL hash when it names a tab; otherwise the first
   * active tab, when its id is not empty; otherwise the first tab; and with
   * no tabs there is none.
   */
  lemma InitialTabPriority(hash: string, tabs: seq<Tab>)
    ensures HashNamesTab(hash, tabs) ==> InitialTab(hash, tabs) == Some(hash)
    ensures forall i :: !HashNamesTab(hash, tabs) && FirstActive(tabs, i) && tabs[i].id != "" ==>
              InitialTab(hash, tabs) == Some(tabs[i].id)
    ensures forall i :: !HashNamesTab(hash, tabs) && FirstActive(tabs, i) && tabs[i].id == "" ==>
              InitialTab(hash, tabs) == Some(tabs[0].id)
    ensures !HashNamesTab(hash, tabs) && (forall i :: 0 <= i < |tabs| ==> !tabs[i].active) && |tabs| > 0 ==>
              InitialTab(hash, tabs) == Some(tabs[0].id)
    ensures tabs == [] ==> InitialTab(hash, tabs) == None
  {
    var a := FindActive(tabs);
    if a.Some? {
      var k :| 0 <= k < |tabs| && tabs[k] == a.value && a.value.active && forall j :: 0 <= j < k ==> !tabs[j].active;
      assert FirstActive(tabs, k);
      forall i | FirstActive(tabs, i) ensures i == k {
      }
    }
  }

  /** Whatever the initial tab is, a tab has that id. */
  lemma InitialTabKnown(hash: string, tabs: seq<Tab>)
    requires InitialTab(hash, tabs).Some?
    ensures Find(tabs, InitialTab(hash, tabs).value).Some?
  {
    var x := InitialTab(hash, tabs).value;
    if !(hash != "" && Find(tabs, hash).Some?) {
      if FindActive(tabs).Some? && FindActive(tabs).value.id != "" {
        var k :| 0 <= k < |tabs| && tabs[k] == FindActive(tabs).value;
        assert tabs[k].id == x;
      } else {
        assert tabs[0].id == x;
      }
    }
  }

  // ---------------------------------------------------------------------------
  // What the controller writes into the page

  const LoadingHtml := "<div class=\"loading\">Loading content...</div>"

  /** `showError(message)`: the message inside an error card. */
  function ErrorHtml(message: string): string {
    "\n" + Spaces(16) + "<div class=\"content-section\">\n" + Spaces(20) + "<h2>Error</h2>\n" + Spaces(20) + "<div class=\"card\">\n" + Spaces(24) + "<p>"
    + message + "</p>\n" + Spaces(20) + "</div>\n" + Spaces(16) + "</div>\n" + Spaces(12)
  }

  /** `${tab.title || tab.name} - ${app.name}` */
  function PageTitle(t: Tab, app: AppInfo): string {
    TabLabel(t) + " - " + Show(app.name)
  }

  /**
   * The tab-specific elements after loading a tab that declares a resource:
   * only the tab's own element remains, and one already attached keeps its URL.
   */
  function Attach(elements: map<string, string>, elementId: string, url: string): map<string, string> {
    map[elementId := if elementId in elements then elements[elementId] else url]
  }

  function StylesAfter(styles: map<string, string>, t: Tab): map<string, string> {
    if t.styles.Some? then Attach(styles, StyleId(t), StyleHref(t.styles.value)) else styles
  }

  function ScriptsAfter(scripts: map<string, string>, t: Tab): map<string, string> {
    if t.scripts.Some? then Attach(scripts, ScriptId(t), ScriptSrc(t.scripts.value)) else scripts
  }

  /** A tab that declares a stylesheet leaves exactly its own `style-<id>` element attached. */
  lemma StylesAfterOwnOnly(styles: map<string, string>, t: Tab)
    ensures t.styles.Some? ==> StylesAfter(styles, t).Keys == {"style-" + t.id}
    ensures t.styles.Some? && "style-" + t.id !in styles ==> StylesAfter(styles, t)["style-" + t.id] == StyleHref(t.styles.value)
    ensures t.styles.None? ==> StylesAfter(styles, t) == styles
  {
  }

  /** A tab that declares a script leaves exactly its own `script-<id>` element attached. */
  lemma ScriptsAfterOwnOnly(scripts: map<string, string>, t: Tab)
    ensures t.scripts.Some? ==> ScriptsAfter(scripts, t).Keys == {"script-" + t.id}
    ensures t.scripts.Some? && "script-" + t.id !in scripts ==> ScriptsAfter(scripts, t)["script-" + t.id] == ScriptSrc(t.scripts.value)
    ensures t.scripts.None? ==> ScriptsAfter(scripts, t) == scripts
  {
  }

  // ---------------------------------------------------------------------------
  // Loading a tab (`loadTabContent`), as a function of the state before

  /**
   * What `loadTabContent` writes or records: the content region and its
   * `fade-in` class, the document title, the attached elements, the cache and
   * the fetched URLs.
   */
  datatype PageState = PageState(
    region: string, fadeIn: bool, title: string,
    styles: map<string, string>, scripts: map<string, string>,
    cache: map<string, string>, requests: seq<string>)

  /** The state before anything is loaded. */
  const Blank := PageState("", false, "", map[], map[], map[], [])

  /**
   * The state after loading `tab`. Without a content container nothing
   * happens. Otherwise the tab's resources are attached, its page is looked up
   * (and cached), and the page and the title `title || name - app name` are
   * shown; without an application record the title cannot be built and the
   * error card replaces the page.
   */
  function LoadTab(net: Network, empty: Tab -> string, hasContainer: bool, app: Option<AppInfo>, tab: Tab, s: PageState): PageState {
    if !hasContainer then s
    else
      var content := CachedContent(s.cache, net, empty, tab);
      PageState(
        if app.Some? then content else ErrorHtml("Failed to load " + Show(tab.name) + " content"),
        true,
        if app.Some? then PageTitle(tab, app.value) else s.title,
        StylesAfter(s.styles, tab), ScriptsAfter(s.scripts, tab),
        s.cache[tab.id := content], s.requests + MissRequests(s.cache, tab))
  }

  /**
   * Loading the same tab again changes nothing, whatever its `active` flag is
   * by then: the page comes from the cache, nothing is fetched, and the
   * attached elements are already the tab's own.
   */
  lemma LoadTabIdempotent(net: Network, empty: Tab -> string, hasContainer: bool, app: Option<AppInfo>, tab: Tab, again: Tab, s: PageState)
    requires again == tab.(active := again.active)
    ensures var s1 := LoadTab(net, empty, hasContainer, app, tab, s);
            LoadTab(net, empty, hasContainer, app, again, s1) == s1
  {
    if hasContainer {
      var s1 := LoadTab(net, empty, hasContainer, app, tab, s);
      var s2 := LoadTab(net, empty, hasContainer, app, again, s1);
      assert again.id == tab.id && again.styles == tab.styles && again.scripts == tab.scripts;
      assert MissRequests(s1.cache, again) == [];
      assert s2.requests == s1.requests;
      assert s2.cache == s1.cache;
      assert s2.styles == s1.styles;
      assert s2.scripts == s1.scripts;
    }
  }

  /** A reload after evicting the tab fetches its URL again and leaves every other cached page as it was. */
  lemma ReloadFetchesAgain(net: Network, empty: Tab -> string, app: Option<AppInfo>, tab: Tab, s: PageState)
    ensures var s1 := LoadTab(net, empty, true, app, tab, s.(cache := s.cache - {tab.id}));
            && s1.requests == s.requests + RequestsOf(tab)
            && s1.cache[tab.id] == AdapterContent(net, empty, tab)
            && forall k :: k != tab.id ==> (k in s1.cache <==> k in s.cache) && (k in s.cache ==> s1.cache[k] == s.cache[k])
  {
  }

  // ---------------------------------------------------------------------------
  // The controller

  class CdmApp {
    /** The network the adapters fetch from. */
    const net: Network
    /** Whether the page has a `content-container` element. */
    const hasContainer: bool
    /** `getEmptyTabContent`: the page shown for a tab without content. */
    const emptyTabContent: Tab -> string

    var config: Config
    var currentTab: string
    /** `contentCache`: tab id to page. */
    var contentCache: map<string, string>
    /** The content container's markup and its `fade-in` class. */
    var region: string
    var fadeIn: bool
    /** `document.title` */
    var title: string
    /** The tab ids pushed onto the browser history, oldest first. */
    var history: seq<string>
    /** The attached `style-*` and `script-*` elements, by id, with their URLs. */
    var styles: map<string, string>
    var scripts: map<string, string>
    /** The content URLs fetched, oldest first. */
    var requests: seq<string>

    /** The part of the state that loading a tab writes. */
    function State(): PageState
      reads this
    {
      PageState(region, fadeIn, title, styles, scripts, contentCache, requests)
    }

    /**
     * Loads the configuration (`loaded` is `None` when `app.json` cannot be
     * fetched or parsed) and shows the initial tab.
     */
    constructor (net: Network, loaded: Option<Config>, hasContainer: bool, locationHash: string)
      ensures this.net == net && this.hasContainer == hasContainer
      ensures emptyTabContent == EmptyTabContent
      ensures history == []
      ensures var base := if loaded.Some? then loaded.value else FallbackConfig();
              var initial := InitialTab(HashTab(locationHash), base.tabs);
              if Truthy(initial) then
                && currentTab == initial.value && config == base.(tabs := ActivateTabs(base.tabs, initial.value))
                && Find(base.tabs, initial.value).Some?
                && State() == LoadTab(net, EmptyTabContent, hasContainer, base.app, Find(base.tabs, initial.value).value, Blank)
              else
                currentTab == "homepage" && config == base && State() == Blank
    {
      this.net := net;
      this.hasContainer := hasContainer;
      emptyTabContent := EmptyTabContent;
      config := Config(None, []);
      currentTab := "homepage";
      contentCache := map[];
      region := "";
      fadeIn := false;
      title := "";
      history := [];
      styles := map[];
      scripts := map[];
      requests := [];
      new;
      LoadConfig(loaded);
      LoadInitialContent(locationHash);
    }

    /** `loadConfig`: any failure falls back to the built-in configuration. */
    method LoadConfig(loaded: Option<Config>)
      modifies this`config
      ensures config == if loaded.Some? then loaded.value else FallbackConfig()
    {
      if loaded.Some? {
        config := loaded.value;
      } else {
        config := FallbackConfig();
      }
    }

    method ShowLoading()
      modifies this`region, this`fadeIn
      ensures hasContainer ==> region == LoadingHtml && !fadeIn
      ensures !hasContainer ==> region == old(region) && fadeIn == old(fadeIn)
    {
      if hasContainer {
        region := LoadingHtml;
        fadeIn := false;
      }
    }

    method ShowError(message: string)
      modifies this`region
      ensures region == if hasContainer then ErrorHtml(message) else old(region)
    {
      if hasContainer {
        region := ErrorHtml(message);
      }
    }

    /** Sets every tab's `active` flag to whether its id is `activeTabId`, one tab at a time. */
    method UpdateActiveTab(activeTabId: string)
      modifies this`config
      ensures config == old(config).(tabs := ActivateTabs(old(config).tabs, activeTabId))
    {
      var i := 0;
      while i < |config.tabs|
        invariant 0 <= i <= |config.tabs| == |old(config).tabs|
        invariant config.app == old(config).app
        invariant forall k :: 0 <= k < i ==> config.tabs[k] == old(config).tabs[k].(active := old(config).tabs[k].id == activeTabId)
        invariant forall k :: i <= k < |config.tabs| ==> config.tabs[k] == old(config).tabs[k]
      {
        var tab := config.tabs[i];
        config := config.(tabs := config.tabs[i := tab.(active := tab.id == activeTabId)]);
        i := i + 1;
      }
      assert config.tabs == ActivateTabs(old(config).tabs, activeTabId);
    }

    /** Removes every other tab's stylesheet, then attaches this tab's unless it is already there. */
    method LoadTabStyles(tab: Tab)
      modifies this`styles
      ensures styles == StylesAfter(old(styles), tab)
    {
      if tab.styles.None? {
        return;
      }
      var styleId := StyleId(tab);
      styles := map k | k in styles && k == styleId :: styles[k];
      if styleId !in styles {
        styles := styles[styleId := StyleHref(tab.styles.value)];
      }
    }

    /** Removes every other tab's script, then attaches this tab's unless it is already there. */
    method LoadTabScripts(tab: Tab)
      modifies this`scripts
      ensures scripts == ScriptsAfter(old(scripts), tab)
    {
      if tab.scripts.None? {
        return;
      }
      var scriptId := ScriptId(tab);
      scripts := map k | k in scripts && k == scriptId :: scripts[k];
      if scriptId !in scripts {
        scripts := scripts[scriptId := ScriptSrc(tab.scripts.value)];
      }
    }

    /** `loadJsonContent`: the generated page, or the placeholder when the fetch fails. */
    method LoadJsonContent(tab: Tab) returns (html: string)
      requires tab.content.Some?
      modifies this`requests
      ensures requests == old(requests) + [JsonUrl(tab.content.value)]
      ensures html == match net.json(JsonUrl(tab.content.value))
                      case None => emptyTabContent(tab)
                      case Some(p) => PageHtml(p, tab.id)
    {
      var jsonFile := JsonUrl(tab.content.value);
      requests := requests + [jsonFile];
      var data := net.json(jsonFile);
      if data.None? {
        html := emptyTabContent(tab);
      } else {
        html := GenerateHtmlFromJson(data.value, tab.id);
      }
    }

    /** `loadMarkdownContent`: the converted text, or the placeholder when the fetch fails. */
    method LoadMarkdownContent(tab: Tab) returns (html: string)
      requires tab.content.Some?
      modifies this`requests
      ensures requests == old(requests) + [MarkdownUrl(tab.content.value)]
      ensures html == match net.text(MarkdownUrl(tab.content.value))
                      case None => emptyTabContent(tab)
                      case Some(md) => Markdown.ParseMarkdown(md)
    {
      var markdownFile := MarkdownUrl(tab.content.value);
      requests := requests + [markdownFile];
      var text := net.text(markdownFile);
      if text.None? {
        html := emptyTabContent(tab);
      } else {
        html := Markdown.ParseMarkdown(text.value);
      }
    }

    /** `loadHtmlContent`: the fetched text as it is, or the placeholder when the fetch fails. */
    method LoadHtmlContent(tab: Tab) returns (html: string)
      requires tab.content.Some?
      modifies this`requests
      ensures requests == old(requests) + [HtmlUrl(tab.content.value)]
      ensures html == match net.text(HtmlUrl(tab.content.value))
                      case None => emptyTabContent(tab)
                      case Some(h) => h
    {
      var htmlFile := HtmlUrl(tab.content.value);
      requests := requests + [htmlFile];
      var text := net.text(htmlFile);
      if text.None? {
        html := emptyTabContent(tab);
      } else {
        html := text.value;
      }
    }

    /**
     * `getTabContent`: a cached page is returned without fetching; otherwise
     * the adapter's result, placeholder included, is cached and returned.
     */
    method GetTabContent(tab: Tab) returns (content: string)
      modifies this`contentCache, this`requests
      ensures content == CachedContent(old(contentCache), net, emptyTabContent, tab)
      ensures contentCache == old(contentCache)[tab.id := content]
      ensures requests == old(requests) + MissRequests(old(contentCache), tab)
    {
      if tab.id in contentCache {
        content := contentCache[tab.id];
        assert contentCache == contentCache[tab.id := content];
        return;
      }
      if tab.content.Some? && tab.content.value.source == Some("json") {
        content := LoadJsonContent(tab);
      } else if tab.content.Some? && tab.content.value.source == Some("markdown") {
        content := LoadMarkdownContent(tab);
      } else if tab.content.Some? && tab.content.value.source == Some("html") {
        content := LoadHtmlContent(tab);
      } else {
        content := emptyTabContent(tab);
      }
      contentCache := contentCache[tab.id := content];
    }

    /**
     * `loadTabContent`: shows the loading state, attaches the tab's
     * resources, then shows its content and sets the document title. Without
     * an application record the title cannot be built, and the error card
     * replaces the content.
     */
    method LoadTabContent(tab: Tab)
      modifies this`region, this`fadeIn, this`title, this`styles, this`scripts, this`contentCache, this`requests
      ensures !hasContainer ==> unchanged(this)
      ensures State() == LoadTab(net, emptyTabContent, hasContainer, config.app, tab, old(State()))
    {
      if !hasContainer {
        return;
      }
      ShowLoading();
      LoadTabStyles(tab);
      LoadTabScripts(tab);
      var content := GetTabContent(tab);
      region := content;
      fadeIn := true;
      if config.app.Some? {
        title := PageTitle(tab, config.app.value);
      } else {
        ShowError("Failed to load " + Show(tab.name) + " content");
      }
    }

    /**
     * `switchTab`: an unknown id changes nothing. A known id becomes the only
     * active one, its content is loaded, and it becomes the current tab; the
     * history gets an entry only when asked for.
     */
    method SwitchTab(tabId: string, updateHistory: bool)
      modifies this
      ensures Find(old(config).tabs, tabId).None? ==> unchanged(this)
      ensures Find(old(config).tabs, tabId).Some? ==>
        var tab := Find(old(config).tabs, tabId).value;
        && config == old(config).(tabs := ActivateTabs(old(config).tabs, tabId))
        && currentTab == tabId
        && history == old(history) + (if updateHistory then [tabId] else [])
        && State() == LoadTab(net, emptyTabContent, hasContainer, old(config).app, tab, old(State()))
    {
      var found := Find(config.tabs, tabId);
      if found.None? {
        return;
      }
      var tab := found.value;
      UpdateActiveTab(tabId);
      LoadTabContent(tab);
      if updateHistory {
        history := history + [tabId];
      }
      currentTab := tabId;
    }

    /** `clearCache` */
    method ClearCache()
      modifies this`contentCache
      ensures contentCache == map[]
    {
      contentCache := map[];
    }

    /**
     * `refreshContent`: drops the current tab's cached page and loads it
     * again, fetching afresh; other cached pages, the history and the
     * current tab stay as they were.
     */
    method RefreshContent()
      modifies this`region, this`fadeIn, this`title, this`styles, this`scripts, this`contentCache, this`requests
      ensures forall k :: k != currentTab ==>
                (k in contentCache <==> k in old(contentCache))
                && (k in contentCache ==> contentCache[k] == old(contentCache)[k])
      ensures Find(config.tabs, currentTab).None? ==>
                State() == old(State()).(cache := old(contentCache) - {currentTab})
      ensures Find(config.tabs, currentTab).Some? ==>
                State() == LoadTab(net, emptyTabContent, hasContainer, config.app, Find(config.tabs, currentTab).value,
                                   old(State()).(cache := old(contentCache) - {currentTab}))
    {
      contentCache := contentCache - {currentTab};
      var found := Find(config.tabs, currentTab);
      if found.Some? {
        LoadTabContent(found.value);
      }
    }

    /** The `popstate` handler: a history entry naming a tab switches to it without a new entry. */
    method PopState(stateTab: Option<string>)
      modifies this
      ensures history == old(history)
      ensures !Truthy(stateTab) || Find(old(config).tabs, stateTab.value).None? ==> unchanged(this)
      ensures Truthy(stateTab) && Find(old(config).tabs, stateTab.value).Some? ==>
                && currentTab == stateTab.value
                && config == old(config).(tabs := ActivateTabs(old(config).tabs, stateTab.value))
                && State() == LoadTab(net, emptyTabContent, hasContainer, old(config).app,
                                      Find(old(config).tabs, stateTab.value).value, old(State()))
    {
      if Truthy(stateTab) {
        SwitchTab(stateTab.value, false);
      }
    }

    /** `loadInitialContent`: switches, without a history entry, to the initial tab if there is one. */
    method LoadInitialContent(locationHash: string)
      modifies this
      ensures history == old(history)
      ensures var initial := InitialTab(HashTab(locationHash), old(config).tabs);
              if Truthy(initial) then
                && currentTab == initial.value && config == old(config).(tabs := ActivateTabs(old(config).tabs, initial.value))
                && Find(old(config).tabs, initial.value).Some?
                && State() == LoadTab(net, emptyTabContent, hasContainer, old(config).app,
                                      Find(old(config).tabs, initial.value).value, old(State()))
              else
                unchanged(this)
    {
      var initial := InitialTab(HashTab(locationHash), config.tabs);
      if Truthy(initial) {
        InitialTabKnown(HashTab(locationHash), config.tabs);
        SwitchTab(initial.value, false);
      }
    }
  }
}
