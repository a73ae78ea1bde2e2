# CDM documentation portal: the tab controller

This project models the `CDMApp` class of `global.js`. The class is the controller of a single-page documentation portal. It:

- reads a navigation configuration (`app.json`, or a built-in fallback);
- keeps one tab active;
- attaches each tab's own stylesheet and script;
- fetches the tab's content as JSON, Markdown or HTML;
- turns that content into HTML and caches it per tab;
- writes the result into the page, together with the document title and a browser-history entry.

The modules follow the structure of the source:

- `Wrappers`: `Option`.
- `Js`: the JavaScript rules the code relies on:
  - truthiness and `||` on text and number fields;
  - how an absent field prints inside a template literal (`undefined`);
  - how an integer prints (plain decimal digits, as JavaScript prints integers below 10^21 in magnitude), with a parser that reads it back.
- `Rewrite`: the two kinds of `String.prototype.replace` that `parseMarkdown` uses:
  - a global replacement of a fixed pattern, scanned left to right without overlaps;
  - a multi-line `/^...$/gm` replacement that rewrites each line on its own.

  Line terminators are the JavaScript ones: `\n`, `\r`, U+2028 and U+2029.
- `Markdown`: `parseMarkdown` exactly as its ten replacements chain together. A line-by-line reference rendering (`RenderLine`) is proved to be what that chain produces.
- `Pages`: the JSON page document and the HTML generated from it (`generateHtmlFromJson` and its hero, section, grid, card and list helpers).
  - Each generator is specified by a function that spells out its markup.
  - The generators that accumulate `html +=` in a `forEach` are methods with loops, proved to produce exactly that markup.
- `Tabs`: the tab descriptors and the configuration, covering:
  - the fallback configuration;
  - lookup by id and by `active`;
  - the `active`-flag update;
  - the ordering of the navigation bar;
  - the URL rules of the three content adapters and of the style and script loaders;
  - the placeholder page (`getEmptyTabContent`).
- `Portal`: the `CDMApp` class. Its state is:
  - the configuration, `currentTab` and `contentCache`;
  - the content region's markup and its `fade-in` class;
  - `document.title`;
  - the history entries pushed;
  - the attached `style-*` and `script-*` elements, by id, with their URLs.

  Alongside the class sit pure functions. They say what a content lookup returns, which URLs it fetches, and which tab is shown first.

The network is a parameter of the controller (`Network`): two total functions from a URL to an optional result.

- `json` gives the parsed page, or nothing when the fetch fails, the status is not OK or the body does not parse.
- `text` gives the body text, or nothing on failure.

The controller logs every content URL it fetches in `requests`. This log is what "a cache hit fetches nothing" is stated about.

The constructor takes the configuration as loaded (`None` when `app.json` cannot be fetched or parsed) and the URL fragment. It then runs `loadConfig` and `loadInitialContent`, in the order `init` runs them.

Four places where the code's behaviour is easy to misread:

- Markdown list items: each `* x` line becomes its own `<ul><li>x</li></ul>` (global.js:486-490). Consecutive items are therefore not merged into one list.
- Initial tab: the first active tab is used only when its id is not empty (global.js:593). With no tabs, or when the chosen id is empty, nothing is switched to.
- The `active` flag: `updateActiveTab` sets it on every tab whose id matches (global.js:153-155). It is exclusive only when ids are unique, so `Tabs.ActivateExclusive` requires unique ids.
- The error card: it replaces the content only when something throws after the content is written. In the model the only such case is a configuration without `app` (global.js:180, 182-185).

The placeholder's icon is kept as the characters the source file holds (`\U{00F0}\U{0178}\U{201C}\U{201E}`, a doubly-encoded emoji).

## Model

| member | source | states |
|---|---|---|
| Js.NumberTextRoundTrip | global.js:387 | a number printed into a template (`${n}`) reads back as that number, so distinct column counts print distinct class names |
| Tabs.Find | global.js:121 | `tabs.find(t => t.id === id)`: absent exactly when no tab has the id; otherwise the first tab of the list with that id |
| Tabs.FindActive | global.js:593 | `tabs.find(t => t.active)`: absent exactly when no tab is active; otherwise the first active tab of the list |
| Tabs.FallbackHome | global.js:43-62 | the fallback configuration has exactly one tab, `homepage`: active, without content, labelled `CDM Documentation Home`, with placeholder hints `json/homepage.json`, `css/homepage.css` and `js/homepage.js` |
| Tabs.ActivateExclusive | global.js:143-156 | with unique ids and a known id: the tab with that id is active, every other tab is inactive, and no other field of any tab changes |
| Tabs.ActivateUnknown | global.js:153-155 | an id no tab has leaves every tab inactive |
| Tabs.NavigationOrderSorted | global.js:94 | the navigation order is sorted by `order`, a missing or zero order counting as 0 |
| Tabs.NavigationOrderPermutes | global.js:94 | the navigation lists every configured tab exactly as often as it is configured |
| Tabs.NavigationOrderStable | global.js:94 | the sort is stable: tabs with equal keys keep their configured order |
| Tabs.ContentHintMatchesFetch | global.js:510 | the content file the placeholder suggests is the URL the JSON adapter fetches (global.js:275) if and only if the tab declares a non-empty `content.file` |
| Tabs.StyleHintMatchesHref | global.js:514 | the stylesheet the placeholder suggests is the one the style loader attaches (global.js:203) if and only if the tab declares a non-empty `styles.file` |
| Tabs.ScriptHintMatchesSrc | global.js:518 | the script the placeholder suggests is the one the script loader attaches (global.js:230) if and only if the tab declares a non-empty `scripts.file` |
| Pages.ButtonRowAppend | global.js:344-347 | two non-empty groups of hero buttons render as the first group, a single space, then the second group |
| Pages.ButtonWithoutLink | global.js:346 | every button whose link is absent or empty points at `#` |
| Pages.ButtonWithoutText | global.js:346 | every button without a text shows `undefined` as its label |
| Pages.BareButton | global.js:346 | a button with no fields is exactly `<a href="#" class="btn ">undefined</a>` |
| Pages.GenerateSectionHtml | global.js:353-378 | the section markup: class, optional heading and content, then, when `items` is an array, every item in array order in one `section-items` block |
| Pages.GenerateGridHtml | global.js:380-402 | the grid markup: container, optional title, the column class, then every item in array order |
| Pages.GridClassColumns | global.js:387 | the class is `grid-auto` if and only if `columns` is absent or zero; otherwise it is `grid-cols-` followed by a numeral that reads back as `columns` |
| Pages.GenerateListHtml | global.js:417-442 | the list markup: `ol` exactly when `type` is `ordered`, else `ul`; a string item is `<li>s</li>`; an object item has its title in `<strong>` and its content in `<span>`; items in array order |
| Pages.AppendEach | global.js:303-305 | a `forEach` appending each element's rendering yields the prefix followed by every rendering in array order |
| Pages.GenerateHtmlFromJson | global.js:290-336 | the page is the `content-section <id>-content` wrapper around, in order: hero, title/subtitle header, sections, grid, one `cards-container`, lists; absent and non-array fields contribute nothing |
| Pages.EmptyPageHtml | global.js:290-336 | a page document with no fields renders to the bare wrapper |
| Pages.SectionsInOrder | global.js:301-306 | sections render in array order: those of `a + b` are those of `a` followed by those of `b` |
| Markdown.ParseMarkdownRendersLines | global.js:480-493 | for clean lines separated by newlines or single blank lines: every line is rendered on its own, as a heading without a paragraph, a one-item list, or a paragraph; a newline separator stays, a blank line disappears |
| Markdown.ParseMarkdownLine | global.js:480-493 | a single clean line becomes `<h1>`/`<h2>`/`<h3>` for `# `/`## `/`### `, `<ul><li>…</li></ul>` for `* `, and `<p>…</p>` otherwise |
| Markdown.DeepHeadingIsParagraph | global.js:483-488 | a `####` line is not a heading: it becomes a paragraph, hashes included |
| Markdown.ParseMarkdownExample | global.js:480-493 | `# Hello`, a blank line and `World` convert to `<h1>Hello</h1><p>World</p>` |
| Portal.SecondLookupHits | global.js:243-271 | a lookup stores what it returns, placeholder included; a second lookup of the same tab returns the identical string and fetches nothing, whatever the network answers by then |
| Portal.FailedFetchShowsPlaceholder | global.js:254-266 | a tab without a known content source, or whose fetch fails, gets the placeholder |
| Portal.HtmlVerbatim | global.js:444-459 | the HTML adapter fetches `path + file` and returns the body unchanged |
| Portal.MarkdownIgnoresPath | global.js:463 | the Markdown adapter fetches from `markdown/` whatever `content.path` says |
| Tabs.FindActivated | global.js:120-156 | after activating a known id, looking the id up again finds the same tab, now active |
| Portal.LoadTabIdempotent | global.js:158-271 | loading a tab a second time, whatever its `active` flag by then, changes nothing: same region, title, elements and cache, and no fetch |
| Portal.ReloadFetchesAgain | global.js:634-640 | loading a tab after evicting it fetches its URL again, caches the adapter's fresh result, and keeps every other cached page |
| Portal.InitialTabPriority | global.js:588-598 | the initial tab is the URL fragment if it names a tab; else the first active tab when its id is not empty; else the first tab; with no tabs there is none |
| Portal.InitialTabKnown | global.js:591-596 | whatever initial tab is chosen is the id of a configured tab |
| Portal.StylesAfterOwnOnly | global.js:188-214 | after loading a tab that declares `styles`, the attached style ids are exactly `{style-<id>}`, with a new element pointing at the tab's stylesheet; a tab without `styles` leaves them as they were |
| Portal.ScriptsAfterOwnOnly | global.js:216-241 | the same for `scripts` and `script-<id>` |
| Portal.CdmApp.constructor | global.js:4-27 | starts with an empty history; configuration from `app.json` or the fallback; the initial tab, if any, is current and the only active one, and the page state is that tab loaded into an empty page (`LoadTab` from `Blank`); with no initial tab the page state stays empty |
| Portal.CdmApp.LoadConfig | global.js:29-41 | the loaded configuration, or the fallback when loading fails |
| Portal.CdmApp.ShowLoading | global.js:558-564 | with a content container: the loading message, without `fade-in`; without one, nothing changes |
| Portal.CdmApp.ShowError | global.js:566-578 | with a content container: the message inside the error card; without one, nothing changes |
| Portal.CdmApp.UpdateActiveTab | global.js:143-156 | each tab's `active` flag becomes whether its id is the given one; nothing else in the configuration changes |
| Portal.CdmApp.LoadTabStyles | global.js:188-214 | the style elements become `StylesAfter`: only the tab's own remains, and one already attached keeps its URL |
| Portal.CdmApp.LoadTabScripts | global.js:216-241 | the script elements become `ScriptsAfter`, by the same rule |
| Portal.CdmApp.LoadJsonContent | global.js:273-288 | fetches `file` under `path`, or under `json/` when `path` is empty or absent; returns the generated page, or the placeholder when the fetch fails |
| Portal.CdmApp.LoadMarkdownContent | global.js:461-478 | fetches `markdown/` + file; returns the converted text, or the placeholder when the fetch fails |
| Portal.CdmApp.LoadHtmlContent | global.js:444-459 | fetches `file` under `path`, or `file` alone when `path` is empty or absent; returns the text unchanged, or the placeholder when the fetch fails |
| Portal.CdmApp.GetTabContent | global.js:243-271 | a cache hit returns the stored page and fetches nothing; a miss stores and returns the adapter's result, placeholder included, having fetched only that adapter's URL |
| Portal.CdmApp.LoadTabContent | global.js:158-186 | the whole new page state is `LoadTab` of the old one: without a content container nothing changes; otherwise the tab's resources are attached, its page is cached and shown with `fade-in`, and the title becomes the tab's title (its name when the title is empty) followed by ` - ` and the app name, or the error card is shown when there is no app record |
| Portal.CdmApp.SwitchTab | global.js:120-141 | an unknown id changes nothing at all; a known id becomes the only active one and the current tab, the page state becomes `LoadTab` of the old one for that tab (region, title, elements, cache and fetches), and a history entry is added only when asked for |
| Portal.CdmApp.ClearCache | global.js:628-631 | the cache is empty |
| Portal.CdmApp.RefreshContent | global.js:634-640 | only the current tab's cache entry is dropped; when the tab exists, the page state becomes `LoadTab` of the state with that entry dropped (so the page is refetched, stored and shown again, with its title and elements); every other entry, the history and the current tab are unchanged |
| Portal.CdmApp.PopState | global.js:75-79 | a history entry naming a known tab switches to it without adding a history entry: that tab becomes current and the only active one, and the page state becomes `LoadTab` for it; anything else changes nothing |
| Portal.CdmApp.LoadInitialContent | global.js:588-598 | switches, without a history entry, to the initial tab if there is one: it becomes current and the only active one, and the page state becomes `LoadTab` for it; otherwise nothing changes |

## Left out

- Real DOM work is not modelled: `querySelectorAll`, `classList` on the navigation links, element creation and `onload`/`onerror`. Elements are the abstract fields described above. A stylesheet or script that fails to load is not distinguished, because the source resolves either way.
- `fetch`, `response.json()`/`text()` and the promise plumbing are not modelled. The network is the `Network` parameter, and an adapter's `try`/`catch` becomes the `None` case.
- Event wiring is not modelled: the click listener, `debounce`, `handleResize` and `setTimeout`. Only the `popstate` handler is modelled, as `PopState`.
- `generateNavigation` (global.js:87-118), which only writes markup, is left out. The order it lists the tabs in is modelled (`NavigationOrder`).
- `updateFooter` is left out: it reads the clock and formats a locale-dependent date.
- Overlapping asynchronous `switchTab` calls are not modelled: the model runs each call to completion.
- `getErrorContent` is not modelled: nothing calls it.
- The `console` logging is not modelled.
- The history entry the page was opened with carries no state: `loadInitialContent` shows the initial tab without replacing that entry's state (global.js:588-598). Going back to it delivers a `null` state, which `PopState(None)` treats as changing nothing, so the page keeps showing the tab it last showed. The model reproduces this and has no lemma of its own for it.
- The URL the history entry carries (`url.hash = tabId`) is not modelled. The history is the sequence of tab ids pushed.
- Non-string values in text fields of the JSON documents are not modelled. Every text field is a string or absent.
- Pages.GridClassColumns: `columns` is modelled as an integer printed as plain digits, which is what the source prints only for integers below 10^21 in magnitude. A string column count (`"3"`, or a truthy `"0"` that gives `grid-cols-0`), a fractional one (`grid-cols-2.5`), and a number from 10^21 up (printed as `1e+21`) are not modelled.
- `null` elements inside `sections`, `items`, `cards`, `lists` or the hero's `buttons` are not modelled. In the source they make the generator throw, and the JSON adapter then shows the placeholder (global.js:284-287).
- A `buttons`, `items`, `sections`, `cards` or `lists` field that is present but not an array is modelled as absent, which is what `Array.isArray` makes of it.
- Configurations without `navigation` are not modelled: `init` then falls into its own error path. Configurations with non-integer `order` values are not modelled either.
- A general regular-expression engine is not modelled. Only the line-anchored and literal replacements `parseMarkdown` uses are.
- Tab objects are values. The source shares them between the configuration and its callers, and `updateActiveTab` mutates them in place. The model instead rebuilds the configuration's tab list.
- `getEmptyTabContent` is held by the controller as the function field `emptyTabContent`, so the controller's contracts refer to the placeholder without spelling it out. The constructor fixes the field to `Tabs.EmptyTabContent`.
- Tabs.EmptyTabContent: no lemma locates the heading or the three `<code>` lines inside the rendered placeholder. The placeholder is written out line by line, and its label and three hints are stated separately: `Tabs.ContentHintMatchesFetch`, `Tabs.StyleHintMatchesHref`, `Tabs.ScriptHintMatchesSrc` and `Tabs.FallbackHome`.
- Markdown.ParseMarkdownRendersLines: proved only for documents of clean lines. A clean line is non-empty and single-line and contains no `<`; lines are separated by one newline or by one blank line, and the document does not end in a newline. Other inputs, a final newline included, are converted by `Markdown.ParseMarkdown` as written, but no lemma describes the result.
- js/media.js and js/homepage.js are not part of this model: they decorate the page after the controller has rendered it.
