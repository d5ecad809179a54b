/**
 * selenium_qt_browser/controller.py: direct programmatic control of the
 * browser window.  Besides doing what the api module's controller does,
 * it keeps a registry of callbacks per event name and calls them after
 * each successful action.  A callback is foreign code: it is modelled by
 * an identifier, and calling it by recording the call.
 */
module Controller {
  import opened Common
  import opened TabTypes
  import opened Json
  import opened Browser
  import opened Api

  type CallbackId = nat

  /** One call `callback(data)`. */
  datatype Invocation = Invocation(callback: CallbackId, data: Json)

  /** `callbacks.get(event, [])`. */
  function Registered(callbacks: map<string, seq<CallbackId>>, event: string): seq<CallbackId> {
    if event in callbacks then callbacks[event] else []
  }

  /** The calls `trigger_callback` makes: each callback of the list, in order, with the same data. */
  function Invocations(cbs: seq<CallbackId>, data: Json): (r: seq<Invocation>)
    ensures |r| == |cbs|
  {
    seq(|cbs|, i requires 0 <= i < |cbs| => Invocation(cbs[i], data))
  }

  /** `register_callback`'s update of the registry. */
  function WithCallback(callbacks: map<string, seq<CallbackId>>, event: string, cb: CallbackId): map<string, seq<CallbackId>> {
    callbacks[event := Registered(callbacks, event) + [cb]]
  }

  /**
   * Registering appends to that event's list only: triggering the event
   * afterwards calls the earlier callbacks in order and then the new one,
   * and every other event calls what it did before.
   */
  lemma RegisterAppends(callbacks: map<string, seq<CallbackId>>, event: string, cb: CallbackId, other: string, data: Json)
    ensures Invocations(Registered(WithCallback(callbacks, event, cb), event), data) ==
      Invocations(Registered(callbacks, event), data) + [Invocation(cb, data)]
    ensures other != event ==>
      Registered(WithCallback(callbacks, event, cb), other) == Registered(callbacks, other)
  {
    var before := Registered(callbacks, event);
    assert Registered(WithCallback(callbacks, event, cb), event) == before + [cb];
  }

  /** An event nobody registered for calls nothing. */
  lemma UnregisteredCallsNothing(callbacks: map<string, seq<CallbackId>>, event: string, data: Json)
    requires event !in callbacks
    ensures Invocations(Registered(callbacks, event), data) == []
  {
  }

  // ----- page information as the controller reports it -----

  /** controller.py reports the lowercased tag name as the element's type, without classifying it. */
  function ElementEntry(d: ElementData): map<string, Json> {
    map["id" := JStr(d.id), "type" := JStr(Lower(d.tagName)), "text" := JStr(d.text),
        "attributes" := JObj(StringsToJson(d.attributes)), "position" := PairToJson(d.position),
        "size" := PairToJson(d.size), "is_visible" := JBool(d.isVisible)]
  }

  function ElementEntries(ds: seq<ElementData>): (r: seq<Json>)
    ensures |r| == |ds|
  {
    seq(|ds|, i requires 0 <= i < |ds| => JObj(ElementEntry(ds[i])))
  }

  function PageEntries(p: PageData): map<string, Json> {
    map["title" := JStr(p.title), "url" := JStr(p.url), "elements" := JArr(ElementEntries(p.elements))]
  }

  /**
   * The controller's entry agrees with the api module's dict except for
   * the type: for the tags that name their own kind, and no role
   * "button", the two types coincide; a div with role "button" is "div"
   * here and "button" there.
   */
  lemma EntryAgreesWithToDict(d: ElementData)
    ensures var mine := ElementEntry(d); var theirs := ToDict(ElementOf(d));
      mine.Keys == theirs.Keys &&
      (forall k :: k in mine && k != "type" ==> mine[k] == theirs[k]) &&
      (!RoleButton(d.attributes) && FromValue(Lower(d.tagName)).Some? && FromValue(Lower(d.tagName)).value in TagKinds ==>
        mine["type"] == theirs["type"])
    ensures Lower(d.tagName) == "div" && RoleButton(d.attributes) ==>
      ElementEntry(d)["type"] == JStr("div") && ToDict(ElementOf(d))["type"] == JStr("button")
  {
    var t := Lower(d.tagName);
    var theirs := ToDict(ElementOf(d));
    assert ElementEntry(d) == theirs["type" := JStr(t)];
    if !RoleButton(d.attributes) && FromValue(t).Some? && FromValue(t).value in TagKinds {
      ClassifyByTag(d.tagName, d.elemType, d.attributes, FromValue(t).value);
    }
    if RoleButton(d.attributes) {
      assert Classify(d.tagName, d.elemType, d.attributes) == Button;
    }
  }

  // ----- the controller -----

  /** The `element_clicked` notice: the arguments and the page information after the click. */
  function ClickNotice(elementId: Option<string>, selector: Option<string>, position: Option<(int, int)>, pageInfo: map<string, Json>): Json {
    JObj(map[
      "element_id" := (if elementId.Some? then JStr(elementId.value) else JNull),
      "selector" := (if selector.Some? then JStr(selector.value) else JNull),
      "position" := (if position.Some? then JArr([JInt(position.value.0), JInt(position.value.1)]) else JNull),
      "page_info" := JObj(pageInfo)])
  }

  /** The page `create_tab` adds: a browser page goes to `url`, or to start_url when none is given. */
  function CreatedTab(t: TabType, url: Option<string>, startUrl: string): Tab {
    if t == Browser then Tab("Web Browser", BrowserTab(NormalizeUrl(if Given(url) then url.value else startUrl)))
    else NewTabFor(t, startUrl)
  }

  /** The dict `create_tab` returns; only the browser result carries `url or start_url`. */
  function CreatedResult(t: TabType, index: nat, url: Option<string>, startUrl: string): map<string, Json> {
    var base := map["tab_index" := JInt(index), "tab_type" := JStr(Name(t))];
    if t == Browser then base["url" := JStr(if Given(url) then url.value else startUrl)] else base
  }

  /**
   * A created browser page opens the URL the result reports, normalised;
   * with no URL given both are the window's start page.
   */
  lemma CreatedBrowserOpensReportedUrl(index: nat, url: Option<string>, startUrl: string)
    ensures var r := CreatedResult(Browser, index, url, startUrl);
      "url" in r && r["url"].JStr? &&
      CreatedTab(Browser, url, startUrl).widget == BrowserTab(NormalizeUrl(r["url"].s))
    ensures !Given(url) ==> CreatedResult(Browser, index, url, startUrl)["url"] == JStr(startUrl)
  {
  }

  class BrowserController {
    const window: BrowserWindow
    var callbacks: map<string, seq<CallbackId>>
    /** Every callback call made so far, in order. */
    var invoked: seq<Invocation>

    constructor (window: BrowserWindow)
      ensures this.window == window && callbacks == map[] && invoked == []
    {
      this.window := window;
      callbacks := map[];
      invoked := [];
    }

    /** `register_callback`. */
    method RegisterCallback(event: string, cb: CallbackId)
      modifies this`callbacks
      ensures callbacks == WithCallback(old(callbacks), event, cb)
    {
      if event !in callbacks {
        callbacks := callbacks[event := []];
      }
      callbacks := callbacks[event := callbacks[event] + [cb]];
    }

    /** `trigger_callback`: each callback registered for `event`, in registration order. */
    method TriggerCallback(event: string, data: Json)
      modifies this`invoked
      ensures invoked == old(invoked) + Invocations(Registered(callbacks, event), data)
    {
      if event in callbacks {
        var cbs := callbacks[event];
        var i := 0;
        while i < |cbs|
          invariant 0 <= i <= |cbs|
          invariant invoked == old(invoked) + Invocations(cbs[..i], data)
        {
          assert Invocations(cbs[..i + 1], data) == Invocations(cbs[..i], data) + [Invocation(cbs[i], data)];
          invoked := invoked + [Invocation(cbs[i], data)];
          i := i + 1;
        }
        assert cbs[..i] == cbs;
      }
    }

    /** `get_tabs_info`. */
    method GetTabsInfo() returns (r: map<string, Json>)
      requires window.Valid()
      ensures r == TabsInfo(window.State())
    {
      r := ListTabs(window);
    }

    /** `switch_to_tab`: an index outside the pages is an error, changes nothing and calls nothing. */
    method SwitchToTab(index: int) returns (r: map<string, Json>)
      requires window.Valid()
      modifies window`current, this`invoked
      ensures window.Valid() && window.tabs == old(window.tabs)
      ensures OutOfRange(index, |window.tabs|) ==>
        r == RangeError(index) && window.current == old(window.current) && invoked == old(invoked)
      ensures !OutOfRange(index, |window.tabs|) ==>
        window.current == index &&
        r == map["tab_index" := JInt(index), "tab_type" := JStr(TypeName(window.tabs[index].widget))] &&
        invoked == old(invoked) + Invocations(Registered(callbacks, "tab_switched"), JObj(r))
    {
      if index < 0 || index >= |window.tabs| {
        return RangeError(index);
      }
      window.current := index;
      r := map["tab_index" := JInt(index), "tab_type" := JStr(TypeName(window.tabs[window.current].widget))];
      TriggerCallback("tab_switched", JObj(r));
    }

    /**
     * `create_tab(tab_type, url)`: browser, chat or terminal, case-insensitively.
     * Anything else is an error with no page and no call.
     */
    method CreateTab(tabType: string, url: Option<string>) returns (r: map<string, Json>)
      requires window.Valid()
      modifies window`tabs, window`current, this`invoked
      ensures window.Valid() && window.startUrl == old(window.startUrl)
      ensures CreatedKind(tabType).None? ==>
        r == ErrorDict("Unknown tab type: " + tabType) && window.State() == old(window.State()) && invoked == old(invoked)
      ensures CreatedKind(tabType).Some? ==>
        window.State() == Added(old(window.State()), CreatedTab(CreatedKind(tabType).value, url, window.startUrl)) &&
        r == CreatedResult(CreatedKind(tabType).value, |old(window.tabs)|, url, window.startUrl) &&
        invoked == old(invoked) + Invocations(Registered(callbacks, "tab_created"), JObj(r))
    {
      r := OpenTab(tabType, url);
      if CreatedKind(tabType).Some? {
        TriggerCallback("tab_created", JObj(r));
      }
    }

    /** The page-adding part of `create_tab`. */
    method OpenTab(tabType: string, url: Option<string>) returns (r: map<string, Json>)
      requires window.Valid()
      modifies window`tabs, window`current
      ensures window.Valid()
      ensures CreatedKind(tabType).None? ==>
        r == ErrorDict("Unknown tab type: " + tabType) && window.State() == old(window.State())
      ensures CreatedKind(tabType).Some? ==>
        window.State() == Added(old(window.State()), CreatedTab(CreatedKind(tabType).value, url, window.startUrl)) &&
        r == CreatedResult(CreatedKind(tabType).value, |old(window.tabs)|, url, window.startUrl)
    {
      var kind := CreatedKind(tabType);
      if kind == Some(Browser) {
        r := OpenBrowserTab(url);
      } else if kind.Some? {
        var index := window.AddNewTabOfType(kind.value);
        r := map["tab_index" := JInt(index), "tab_type" := JStr(Name(kind.value))];
      } else {
        r := ErrorDict("Unknown tab type: " + tabType);
      }
    }

    /** The "browser" branch of `create_tab`. */
    method OpenBrowserTab(url: Option<string>) returns (r: map<string, Json>)
      requires window.Valid()
      modifies window`tabs, window`current
      ensures window.Valid()
      ensures window.State() == Added(old(window.State()), CreatedTab(Browser, url, window.startUrl))
      ensures r == CreatedResult(Browser, |old(window.tabs)|, url, window.startUrl)
    {
      var index := window.AddNewTab(url);
      r := map["tab_index" := JInt(index), "tab_type" := JStr("BROWSER"),
               "url" := JStr(if url.Some? && url.value != "" then url.value else window.startUrl)];
    }

    /** `close_tab`: an index outside the pages is an error, changes nothing and calls nothing. */
    method CloseTab(index: int) returns (r: map<string, Json>)
      requires window.Valid()
      modifies window`tabs, window`current, this`invoked
      ensures window.Valid()
      ensures OutOfRange(index, |old(window.tabs)|) ==>
        r == RangeError(index) && window.State() == old(window.State()) && invoked == old(invoked)
      ensures !OutOfRange(index, |old(window.tabs)|) ==>
        window.State() == Closed(old(window.State()), index, window.startUrl) &&
        r == map["closed_tab_index" := JInt(index), "remaining_tabs" := JInt(|window.tabs|)] &&
        invoked == old(invoked) + Invocations(Registered(callbacks, "tab_closed"), JObj(r))
    {
      if index < 0 || index >= |window.tabs| {
        return RangeError(index);
      }
      window.CloseTab(index);
      r := map["closed_tab_index" := JInt(index), "remaining_tabs" := JInt(|window.tabs|)];
      TriggerCallback("tab_closed", JObj(r));
    }

    /**
     * `get_page_info`; `js` is what the page script handed back.  The
     * "page_info_retrieved" callbacks see the response.
     */
    method GetPageInfo(js: Option<PageData>) returns (r: map<string, Json>)
      requires window.Valid()
      modifies this`invoked
      ensures !CurrentIsBrowser(window.State()) ==> r == ErrorDict(NoBrowserTab) && invoked == old(invoked)
      ensures CurrentIsBrowser(window.State()) && js.None? ==>
        r == ErrorDict("Failed to extract page information") && invoked == old(invoked)
      ensures CurrentIsBrowser(window.State()) && js.Some? ==>
        r == PageEntries(js.value) &&
        invoked == old(invoked) + Invocations(Registered(callbacks, "page_info_retrieved"), JObj(r))
    {
      if !CurrentIsBrowser(window.State()) {
        return ErrorDict(NoBrowserTab);
      }
      if js.None? {
        return ErrorDict("Failed to extract page information");
      }
      var page := js.value;
      var elements: seq<Json> := [];
      var i := 0;
      while i < |page.elements|
        invariant 0 <= i <= |page.elements|
        invariant elements == ElementEntries(page.elements[..i])
      {
        elements := elements + [JObj(ElementEntry(page.elements[i]))];
        i := i + 1;
      }
      assert page.elements[..i] == page.elements;
      r := map["title" := JStr(page.title), "url" := JStr(page.url), "elements" := JArr(elements)];
      TriggerCallback("page_info_retrieved", JObj(r));
    }

    /**
     * `click_element`: the target is chosen by `ClickTargetOf`; `clicked`
     * is whether the page script found and clicked an element and `after`
     * what the page script reports afterwards.
     */
    method ClickElement(elementId: Option<string>, selector: Option<string>, position: Option<(int, int)>,
                        clicked: bool, after: Option<PageData>) returns (r: map<string, Json>)
      requires window.Valid()
      modifies this`invoked
      ensures !CurrentIsBrowser(window.State()) ==> r == ErrorDict(NoBrowserTab) && invoked == old(invoked)
      ensures CurrentIsBrowser(window.State()) && ClickTargetOf(elementId, selector, position).Err? ==>
        r == ErrorDict(ClickTargetOf(elementId, selector, position).error) && invoked == old(invoked)
      ensures CurrentIsBrowser(window.State()) && ClickTargetOf(elementId, selector, position).Ok? && !clicked ==>
        r == ErrorDict("Element not found or not clickable") && invoked == old(invoked)
      ensures CurrentIsBrowser(window.State()) && ClickTargetOf(elementId, selector, position).Ok? && clicked && after.Some? ==>
        r == PageEntries(after.value) &&
        invoked == old(invoked) + Invocations(Registered(callbacks, "page_info_retrieved"), JObj(r)) +
          Invocations(Registered(callbacks, "element_clicked"), ClickNotice(elementId, selector, position, r))
      ensures CurrentIsBrowser(window.State()) && ClickTargetOf(elementId, selector, position).Ok? && clicked && after.None? ==>
        r == ErrorDict("Failed to extract page information") &&
        invoked == old(invoked) + Invocations(Registered(callbacks, "element_clicked"), ClickNotice(elementId, selector, position, r))
    {
      if !CurrentIsBrowser(window.State()) {
        return ErrorDict(NoBrowserTab);
      }
      var target := ClickTargetOf(elementId, selector, position);
      if target.Err? {
        return ErrorDict(target.error);
      }
      if !clicked {
        return ErrorDict("Element not found or not clickable");
      }
      r := GetPageInfo(after);
      TriggerCallback("element_clicked", ClickNotice(elementId, selector, position, r));
    }

    /**
     * `execute_terminal_command`, with the terminal page found by its
     * class (`CurrentIsTerminal`) and the terminal's text before and
     * after the command as parameters.
     */
    method ExecuteTerminalCommand(command: string, previous: string, current: string) returns (r: map<string, Json>)
      requires window.Valid()
      modifies this`invoked
      ensures !CurrentIsTerminal(window.State()) ==> r == ErrorDict(NoTerminalTab) && invoked == old(invoked)
      ensures CurrentIsTerminal(window.State()) ==>
        r == CommandResult(command, previous, current) &&
        invoked == old(invoked) + Invocations(Registered(callbacks, "terminal_command_executed"), JObj(r))
    {
      if !CurrentIsTerminal(window.State()) {
        return ErrorDict(NoTerminalTab);
      }
      var output: string;
      if StartsWith(current, previous) {
        output := Strip(current[|previous|..]);
      } else {
        output := current;
      }
      r := map["command" := JStr(command), "output" := JStr(output)];
      TriggerCallback("terminal_command_executed", JObj(r));
    }

    /** `get_current_directory`: "pwd", then the stripped output. */
    method GetCurrentDirectory(previous: string, current: string) returns (r: map<string, Json>)
      requires window.Valid()
      modifies this`invoked
      ensures !CurrentIsTerminal(window.State()) ==> r == ErrorDict(NoTerminalTab) && invoked == old(invoked)
      ensures CurrentIsTerminal(window.State()) ==>
        r == DirectoryResult(CommandResult("pwd", previous, current)) &&
        invoked == old(invoked) +
          Invocations(Registered(callbacks, "terminal_command_executed"), JObj(CommandResult("pwd", previous, current))) +
          Invocations(Registered(callbacks, "current_directory_retrieved"), JObj(r))
    {
      if !CurrentIsTerminal(window.State()) {
        return ErrorDict(NoTerminalTab);
      }
      var result := ExecuteTerminalCommand("pwd", previous, current);
      var output := result["output"];
      r := map["current_directory" := JStr(Strip(output.s))];
      TriggerCallback("current_directory_retrieved", JObj(r));
    }
  }

  /** The module-level `_controller`. */
  class ControllerSlot {
    var controller: BrowserController?

    constructor ()
      ensures controller == null
    {
      controller := null;
    }

    /**
     * `get_controller(browser_window)`: the first call that passes a
     * window creates the controller; every later call returns that same
     * controller, whatever it passes.
     */
    method GetController(window: BrowserWindow?) returns (c: BrowserController?)
      modifies this
      ensures old(controller) != null ==> c == old(controller) && controller == old(controller)
      ensures old(controller) == null && window == null ==> c == null && controller == null
      ensures old(controller) == null && window != null ==>
        c != null && fresh(c) && c.window == window && c.callbacks == map[] && controller == c
    {
      if controller == null && window != null {
        controller := new BrowserController(window);
      }
      c := controller;
    }
  }
}
