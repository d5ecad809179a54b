/**
 * selenium_qt_browser/browser.py: the browser window's tab list.  A tab is
 * a title and a widget; only some widget classes carry a `tab_type`
 * attribute (BrowserTab, NotePage, NotePageExc, AIBrowserTab, and the
 * resource monitor, which the window tags itself); AIChatTab and
 * TerminalTab have none.
 */
module Browser {
  import opened Common
  import opened TabTypes
  import Json
  import Spreadsheet

  /** A key of a spreadsheet's `data` dict: a (row, col) tuple or, after a restore, a string. */
  datatype SheetKey = CellKey(cell: Spreadsheet.Cell) | TextKey(text: string)

  /**
   * One widget in a chat tab's layout.  `ChatMessage` in chat.py keeps its
   * labels in local variables, so `exposesLabels` is false for every
   * message it creates.
   */
  datatype ChatLine = ChatLine(sender: string, message: string, exposesLabels: bool)

  datatype Widget =
    | BrowserTab(url: string)
    | ChatTab(lines: seq<ChatLine>)
    | TerminalTab
    | NotePageTab(text: string)
    | NotePageExcTab(sheet: map<SheetKey, Json.Json>)
    | ResourceMonitorTab
    | AiBrowserTab

  datatype Tab = Tab(title: string, widget: Widget)

  /** The widget's `tab_type` attribute, when it has one. */
  function TypeOf(w: Widget): Option<TabType> {
    match w
    case BrowserTab(_) => Some(Browser)
    case ChatTab(_) => None
    case TerminalTab => None
    case NotePageTab(_) => Some(NotePage)
    case NotePageExcTab(_) => Some(NotePageExc)
    case ResourceMonitorTab => Some(ResourceMonitor)
    case AiBrowserTab => Some(AiBrowser)
  }

  const DefaultStartUrl := "https://www.google.com"

  /** `ChatMessage(sender, message)` as `AIChatTab.add_message` creates it. */
  function NewChatLine(sender: string, message: string): ChatLine {
    ChatLine(sender, message, false)
  }

  /** A fresh AIChatTab shows the two assistants' welcome messages. */
  function WelcomeLines(): seq<ChatLine> {
    [NewChatLine("AI 1", "Hello! I'm AI Assistant 1. How can I help you today?"),
     NewChatLine("AI 2", "Hi there! I'm AI Assistant 2. Feel free to ask me anything!")]
  }

  // ----- URL and title helpers -----

  predicate HasScheme(url: string) {
    StartsWith(url, "http://") || StartsWith(url, "https://") || StartsWith(url, "file://")
  }

  /** `BrowserTab.navigate_to`: URLs without an http, https or file scheme get "https://" in front. */
  function NormalizeUrl(url: string): (r: string)
    ensures HasScheme(r)
    ensures HasScheme(url) ==> r == url
    ensures !HasScheme(url) ==> r == "https://" + url
  {
    if HasScheme(url) then url
    else
      assert StartsWith("https://" + url, "https://");
      "https://" + url
  }

  /** Normalising twice is normalising once. */
  lemma NormalizeIdempotent(url: string)
    ensures NormalizeUrl(NormalizeUrl(url)) == NormalizeUrl(url)
  {
  }

  /** `on_title_changed`: titles longer than 20 characters become their first 20 plus "...". */
  function TruncateTitle(title: string): (r: string)
    ensures |title| <= 20 ==> r == title
    ensures |title| > 20 ==> |r| == 23 && r[..20] == title[..20] && r[20..] == "..."
  {
    if |title| > 20 then title[..20] + "..." else title
  }

  /** A truncated title is a fixed point: truncating it again changes nothing. */
  lemma TruncateIdempotent(title: string)
    ensures TruncateTitle(TruncateTitle(title)) == TruncateTitle(title)
    ensures |TruncateTitle(title)| <= 23
  {
    if |title| > 20 {
      var t := TruncateTitle(title);
      assert t[..20] + "..." == t;
    }
  }

  // ----- the tab widget as a value -----

  /** The QTabWidget's pages and current index (-1 when there are no pages). */
  datatype TabState = TabState(tabs: seq<Tab>, current: int)

  predicate ValidState(s: TabState) {
    if s.tabs == [] then s.current == -1 else 0 <= s.current < |s.tabs|
  }

  /** `addTab` followed by `setCurrentIndex` on the new page. */
  function Added(s: TabState, t: Tab): (r: TabState)
    ensures ValidState(r) && r.tabs == s.tabs + [t] && r.current == |s.tabs|
  {
    TabState(s.tabs + [t], |s.tabs|)
  }

  /**
   * `QTabWidget.removeTab(index)`: an index outside the pages is ignored;
   * otherwise the page goes, and a removed current page hands over to the
   * page to its right, or to its left when it was the last.
   */
  function Removed(s: TabState, index: int): (r: TabState)
    requires ValidState(s)
    ensures ValidState(r)
    ensures 0 <= index < |s.tabs| ==> r.tabs == s.tabs[..index] + s.tabs[index + 1..]
    ensures !(0 <= index < |s.tabs|) ==> r == s
  {
    if !(0 <= index < |s.tabs|) then s
    else
      var tabs := s.tabs[..index] + s.tabs[index + 1..];
      var cur :=
        if tabs == [] then -1
        else if index < s.current then s.current - 1
        else if index == s.current && index == |tabs| then index - 1
        else if index == s.current then index
        else s.current;
      TabState(tabs, cur)
  }

  /** The page a lone-tab close looks at: the current one, or none in an empty window. */
  function Current(s: TabState): Option<Tab>
    requires ValidState(s)
  {
    if s.tabs == [] then None else Some(s.tabs[s.current])
  }

  /** The lone tabs `close_tab` leaves open: those tagged chat, terminal, resource monitor or AI browser. */
  predicate KeptWhenAlone(w: Widget) {
    TypeOf(w) == Some(Chat) || TypeOf(w) == Some(Terminal) ||
    TypeOf(w) == Some(ResourceMonitor) || TypeOf(w) == Some(AiBrowser)
  }

  /** What `BrowserWindow.close_tab(index)` does to the pages. */
  function Closed(s: TabState, index: int, startUrl: string): (r: TabState)
    requires ValidState(s)
    ensures ValidState(r)
  {
    if |s.tabs| > 1 then Removed(s, index)
    else
      match Current(s)
      case Some(t) =>
        if t.widget.BrowserTab? then
          TabState([Tab(t.title, BrowserTab(NormalizeUrl(startUrl)))], 0)
        else if KeptWhenAlone(t.widget) then s
        else Added(Removed(s, 0), Tab("Web Browser", BrowserTab(NormalizeUrl(startUrl))))
      case None => Added(s, Tab("Web Browser", BrowserTab(NormalizeUrl(startUrl))))
  }

  /** With more than one page, close_tab removes exactly the page at a valid index. */
  lemma CloseRemovesExactlyOne(s: TabState, index: int, startUrl: string)
    requires ValidState(s) && |s.tabs| > 1 && 0 <= index < |s.tabs|
    ensures var r := Closed(s, index, startUrl);
      |r.tabs| == |s.tabs| - 1 &&
      (forall i :: 0 <= i < index ==> r.tabs[i] == s.tabs[i]) &&
      (forall i :: index <= i < |r.tabs| ==> r.tabs[i] == s.tabs[i + 1])
  {
  }

  /**
   * close_tab never takes the window below one page: a lone browser tab
   * goes home, a lone tagged chat, terminal, monitor or AI-browser tab
   * stays, and any other lone tab is replaced by a new browser tab.
   */
  lemma CloseKeepsAPage(s: TabState, index: int, startUrl: string)
    requires ValidState(s)
    ensures |Closed(s, index, startUrl).tabs| >= 1
    ensures |s.tabs| == 1 ==> |Closed(s, index, startUrl).tabs| == 1
    ensures |s.tabs| == 1 && s.tabs[0].widget.BrowserTab? ==>
      Closed(s, index, startUrl).tabs[0] == Tab(s.tabs[0].title, BrowserTab(NormalizeUrl(startUrl)))
    ensures |s.tabs| == 1 && !s.tabs[0].widget.BrowserTab? && !KeptWhenAlone(s.tabs[0].widget) ==>
      Closed(s, index, startUrl).tabs == [Tab("Web Browser", BrowserTab(NormalizeUrl(startUrl)))]
  {
  }

  /** `close_tab(0)` applied `n` times. */
  function CloseFirstRepeatedly(s: TabState, n: nat, startUrl: string): (r: TabState)
    requires ValidState(s)
    ensures ValidState(r)
    decreases n
  {
    if n == 0 then s else CloseFirstRepeatedly(Closed(s, 0, startUrl), n - 1, startUrl)
  }

  /**
   * Hence `while count > 0: close_tab(0)` cannot stop once the window has a
   * page: after any number of turns there is still at least one.
   */
  lemma {:induction false} ClearingLoopNeverEmpties(s: TabState, n: nat, startUrl: string)
    requires ValidState(s) && |s.tabs| >= 1
    ensures |CloseFirstRepeatedly(s, n, startUrl).tabs| >= 1
    decreases n
  {
    if n > 0 {
      CloseKeepsAPage(s, 0, startUrl);
      ClearingLoopNeverEmpties(Closed(s, 0, startUrl), n - 1, startUrl);
    }
  }

  /** The entries of the "New Tab Type" selector, in order. */
  const SelectorItems := ["Web Browser", "AI Chat", "Terminal", "NotePage", "NotePage Exc", "Resource Monitor", "AI Browser"]

  /** The page each add method appends: its title and a fresh widget. */
  function NewTabFor(t: TabType, startUrl: string): Tab {
    match t
    case Browser => Tab("Web Browser", BrowserTab(NormalizeUrl(startUrl)))
    case Chat => Tab("AI Chat", ChatTab(WelcomeLines()))
    case Terminal => Tab("Terminal", TerminalTab)
    case NotePage => Tab("NotePage", NotePageTab(""))
    case NotePageExc => Tab("NotePage Exc", NotePageExcTab(map[]))
    case ResourceMonitor => Tab("Resource Monitor", ResourceMonitorTab)
    case AiBrowser => Tab("AI Browser", AiBrowserTab)
  }

  /** `add_new_tab_of_selected_type`: the selector text names the kind of page to add. */
  function SelectedType(text: string): (r: Option<TabType>)
    ensures r.Some? <==> text in SelectorItems
  {
    if text == "Web Browser" then Some(Browser)
    else if text == "AI Chat" then Some(Chat)
    else if text == "Terminal" then Some(Terminal)
    else if text == "NotePage" then Some(NotePage)
    else if text == "NotePage Exc" then Some(NotePageExc)
    else if text == "Resource Monitor" then Some(ResourceMonitor)
    else if text == "AI Browser" then Some(AiBrowser)
    else None
  }

  /** Each selector entry adds a page of its own kind, carrying the entry as its title. */
  lemma SelectorEntriesMatchTitles(i: nat)
    requires i < |SelectorItems|
    ensures SelectedType(SelectorItems[i]).Some?
    ensures NewTabFor(SelectedType(SelectorItems[i]).value, DefaultStartUrl).title == SelectorItems[i]
  {
  }

  /** The pages a window opens with when no session was restored: browser, chat, terminal; browser current. */
  function DefaultTabs(startUrl: string): (r: TabState)
    ensures ValidState(r) && |r.tabs| == 3 && r.current == 0
    ensures r.tabs[0].widget == BrowserTab(NormalizeUrl(startUrl))
    ensures r.tabs[1].widget.ChatTab? && r.tabs[2].widget == TerminalTab
  {
    TabState([NewTabFor(Browser, startUrl), NewTabFor(Chat, startUrl), NewTabFor(Terminal, startUrl)], 0)
  }

  /** `current_tab().navigate_to(...)` on a page other than a browser page: it has no such method. */
  datatype InitError = NoNavigateTo

  /**
   * The fallback of `__init__` after `load_last_session` returned false:
   * the three default pages are appended to whatever a failed restore left,
   * page 0 is made current and sent to start_url.
   */
  function WithDefaultTabs(s: TabState, startUrl: string): (r: Result<TabState, InitError>)
    ensures s.tabs == [] ==> r == Ok(DefaultTabs(startUrl))
    ensures r.Ok? <==> s.tabs == [] || s.tabs[0].widget.BrowserTab?
    ensures r.Ok? ==> ValidState(r.value) && r.value.current == 0 && |r.value.tabs| == |s.tabs| + 3
    ensures r.Ok? ==> r.value.tabs[0].widget == BrowserTab(NormalizeUrl(startUrl))
    ensures r.Ok? && s.tabs != [] ==> r.value.tabs[1..] == s.tabs[1..] + DefaultTabs(startUrl).tabs
  {
    var added := s.tabs + DefaultTabs(startUrl).tabs;
    match added[0].widget
    case BrowserTab(_) =>
      assert s.tabs == [] ==> added == DefaultTabs(startUrl).tabs && added[0 := added[0]] == added;
      Ok(TabState(added[0 := Tab(added[0].title, BrowserTab(NormalizeUrl(startUrl)))], 0))
    case _ => Err(NoNavigateTo)
  }

  class BrowserWindow {
    var tabs: seq<Tab>
    var current: int
    var startUrl: string

    function State(): TabState
      reads this
    {
      TabState(tabs, current)
    }

    ghost predicate Valid()
      reads this
    {
      ValidState(State())
    }

    /** `__init__` up to the session restore: no pages yet; start_url defaults to Google. */
    constructor (startUrl0: Option<string>)
      ensures Valid() && tabs == []
      ensures startUrl == if startUrl0.Some? && startUrl0.value != "" then startUrl0.value else DefaultStartUrl
    {
      tabs := [];
      current := -1;
      startUrl := if startUrl0.Some? && startUrl0.value != "" then startUrl0.value else DefaultStartUrl;
    }

    /** `add_new_tab(url)`: a browser page, made current, navigated to `url` or to start_url when `url` is empty. */
    method AddNewTab(url: Option<string>) returns (index: nat)
      requires Valid()
      modifies this`tabs, this`current
      ensures Valid() && index == |old(tabs)| && current == index
      ensures tabs == old(tabs) + [Tab("Web Browser", BrowserTab(NormalizeUrl(
        if url.Some? && url.value != "" then url.value else startUrl)))]
    {
      var target := if url.Some? && url.value != "" then url.value else startUrl;
      tabs := tabs + [Tab("Web Browser", BrowserTab(NormalizeUrl(target)))];
      index := |tabs| - 1;
      current := index;
    }

    /** `add_new_chat_tab`, `add_new_terminal_tab` and the other add methods: append the page and make it current. */
    method AddNewTabOfType(t: TabType) returns (index: nat)
      requires Valid()
      modifies this`tabs, this`current
      ensures Valid() && State() == Added(old(State()), NewTabFor(t, startUrl)) && index == current
    {
      tabs := tabs + [NewTabFor(t, startUrl)];
      index := |tabs| - 1;
      current := index;
    }

    /** `add_new_tab_of_selected_type`: unknown selector text adds nothing. */
    method AddNewTabOfSelectedType(text: string) returns (index: Option<nat>)
      requires Valid()
      modifies this`tabs, this`current
      ensures Valid()
      ensures SelectedType(text).None? ==> index.None? && State() == old(State())
      ensures SelectedType(text).Some? ==>
        index == Some(|old(tabs)|) && State() == Added(old(State()), NewTabFor(SelectedType(text).value, startUrl))
    {
      match SelectedType(text)
      case None =>
        index := None;
      case Some(t) =>
        var i := AddNewTabOfType(t);
        index := Some(i);
    }

    /** `close_tab(index)`. */
    method CloseTab(index: int)
      requires Valid()
      modifies this`tabs, this`current
      ensures Valid() && State() == Closed(old(State()), index, startUrl)
    {
      if |tabs| > 1 {
        var r := Removed(State(), index);
        tabs, current := r.tabs, r.current;
      } else if tabs == [] {
        var _ := AddNewTab(Some(startUrl));
      } else {
        var t := tabs[current];
        if t.widget.BrowserTab? {
          tabs := [Tab(t.title, BrowserTab(NormalizeUrl(startUrl)))];
        } else if KeptWhenAlone(t.widget) {
        } else {
          tabs, current := [], -1;
          var _ := AddNewTab(Some(startUrl));
        }
      }
    }

    /** `on_title_changed`: the page's title, truncated, becomes the tab text. */
    method SetTitleFromPage(index: int, title: string)
      requires Valid()
      modifies this`tabs
      ensures Valid() && current == old(current)
      ensures 0 <= index < |old(tabs)| ==> tabs == old(tabs)[index := Tab(TruncateTitle(title), old(tabs)[index].widget)]
      ensures !(0 <= index < |old(tabs)|) ==> tabs == old(tabs)
    {
      if 0 <= index < |tabs| {
        tabs := tabs[index := Tab(TruncateTitle(title), tabs[index].widget)];
      }
    }

    /** `navigate_to` on a browser page. */
    method NavigateTab(index: int, url: string)
      requires Valid()
      modifies this`tabs
      ensures Valid() && current == old(current)
      ensures 0 <= index < |old(tabs)| && old(tabs)[index].widget.BrowserTab? ==>
        tabs == old(tabs)[index := Tab(old(tabs)[index].title, BrowserTab(NormalizeUrl(url)))]
      ensures !(0 <= index < |old(tabs)| && old(tabs)[index].widget.BrowserTab?) ==> tabs == old(tabs)
    {
      if 0 <= index < |tabs| && tabs[index].widget.BrowserTab? {
        tabs := tabs[index := Tab(tabs[index].title, BrowserTab(NormalizeUrl(url)))];
      }
    }

    /** The default pages of `__init__` when no session was restored; false where `navigate_to` raises. */
    method OpenDefaultTabs() returns (ok: bool)
      requires Valid()
      modifies this`tabs, this`current
      ensures Valid()
      ensures ok <==> WithDefaultTabs(old(State()), startUrl).Ok?
      ensures ok ==> State() == WithDefaultTabs(old(State()), startUrl).value
    {
      var _ := AddNewTab(Some(startUrl));
      var _ := AddNewTabOfType(Chat);
      var _ := AddNewTabOfType(Terminal);
      current := 0;
      ok := tabs[0].widget.BrowserTab?;
      NavigateTab(0, startUrl);
      if old(tabs) != [] {
        assert tabs[1..] == old(tabs)[1..] + DefaultTabs(startUrl).tabs;
      }
    }
  }
}
