/**
 * selenium_qt_browser/api.py: the programmatic interface to the browser
 * window.  Page elements reported by the page script are classified into
 * element kinds and turned into dicts; the terminal interface reports only
 * the output a command added; `BrowserController` checks tab indices and
 * routes commands.  Results are the dicts the source returns, with an
 * "error" entry on failure.
 */
module Api {
  import opened Common
  import opened TabTypes
  import opened Json
  import opened Browser

  /** `{"error": message}`. */
  function ErrorDict(message: string): map<string, Json> {
    map["error" := JStr(message)]
  }

  predicate IsError(r: map<string, Json>) {
    "error" in r
  }

  // ----- element kinds -----

  datatype ElementType = Button | Link | Input | Textarea | Select | Checkbox | Radio | Div | Span | Image | Other

  /** `ElementType.value`. */
  function Value(t: ElementType): string {
    match t
    case Button => "button"
    case Link => "a"
    case Input => "input"
    case Textarea => "textarea"
    case Select => "select"
    case Checkbox => "checkbox"
    case Radio => "radio"
    case Div => "div"
    case Span => "span"
    case Image => "img"
    case Other => "other"
  }

  /** `ElementType(value)`: the member whose value is `v`, if any. */
  function FromValue(v: string): (r: Option<ElementType>)
    ensures r.Some? ==> Value(r.value) == v
  {
    if v == "button" then Some(Button)
    else if v == "a" then Some(Link)
    else if v == "input" then Some(Input)
    else if v == "textarea" then Some(Textarea)
    else if v == "select" then Some(Select)
    else if v == "checkbox" then Some(Checkbox)
    else if v == "radio" then Some(Radio)
    else if v == "div" then Some(Div)
    else if v == "span" then Some(Span)
    else if v == "img" then Some(Image)
    else if v == "other" then Some(Other)
    else None
  }

  /** Values are distinct, so an emitted value names its kind. */
  lemma ValueRoundTrip(t: ElementType)
    ensures FromValue(Value(t)) == Some(t)
  {
  }

  /** `attributes.get("role") == "button"`. */
  predicate RoleButton(attributes: map<string, string>) {
    "role" in attributes && attributes["role"] == "button"
  }

  /** The kinds a tag name selects by being that kind's value. */
  const TagKinds := [Link, Textarea, Select, Div, Span, Image]

  /** The classification chain of `get_page_info`, on the lowercased tag name and input type. */
  function Classify(tagName: string, elemType: string, attributes: map<string, string>): ElementType {
    var tag := Lower(tagName);
    var ty := Lower(elemType);
    if tag == "button" || RoleButton(attributes) then Button
    else if tag == "a" then Link
    else if tag == "input" then
      (if ty == "checkbox" then Checkbox else if ty == "radio" then Radio else Input)
    else if tag == "textarea" then Textarea
    else if tag == "select" then Select
    else if tag == "div" then Div
    else if tag == "span" then Span
    else if tag == "img" then Image
    else Other
  }

  /** BUTTON is checked first: a button tag or role "button" wins over every other rule. */
  lemma ClassifyButtonFirst(tagName: string, elemType: string, attributes: map<string, string>)
    ensures Classify(tagName, elemType, attributes) == Button <==>
      Lower(tagName) == Value(Button) || RoleButton(attributes)
  {
  }

  /**
   * Without role "button", the tags a, textarea, select, div, span and img
   * select the kind whose value they are, and only they do.
   */
  lemma ClassifyByTag(tagName: string, elemType: string, attributes: map<string, string>, k: ElementType)
    requires !RoleButton(attributes) && k in TagKinds
    ensures Classify(tagName, elemType, attributes) == k <==> Lower(tagName) == Value(k)
  {
    var tag := Lower(tagName);
    assert tag == Value(k) ==> tag != "button" && tag != "input";
    match k
    case Link =>
    case Textarea =>
    case Select =>
    case Div =>
    case Span =>
    case Image =>
  }

  /**
   * An input element without role "button" is CHECKBOX or RADIO when its
   * lowercased type says so, and INPUT otherwise.
   */
  lemma ClassifyInput(tagName: string, elemType: string, attributes: map<string, string>)
    requires !RoleButton(attributes) && Lower(tagName) == "input"
    ensures var r := Classify(tagName, elemType, attributes);
      (r == Checkbox || r == Radio || r == Input) &&
      (r == Checkbox <==> Lower(elemType) == Value(Checkbox)) &&
      (r == Radio <==> Lower(elemType) == Value(Radio))
  {
  }

  /** OTHER is exactly the case where no rule matched. */
  lemma ClassifyOther(tagName: string, elemType: string, attributes: map<string, string>)
    ensures Classify(tagName, elemType, attributes) == Other <==>
      !RoleButton(attributes) && Lower(tagName) !in ["button", "a", "input", "textarea", "select", "div", "span", "img"]
  {
  }

  // ----- elements as dicts -----

  datatype WebElement = WebElement(
    id: string,
    kind: ElementType,
    text: string,
    attributes: map<string, string>,
    position: (real, real),
    size: (real, real),
    isVisible: bool)

  function StringsToJson(m: map<string, string>): (r: map<string, Json>)
    ensures r.Keys == m.Keys
  {
    map k | k in m :: JStr(m[k])
  }

  /** A dict whose values are all strings, read back as such. */
  function JsonToStrings(m: map<string, Json>): Option<map<string, string>> {
    if forall k :: k in m ==> m[k].JStr? then Some(map k | k in m :: m[k].s) else None
  }

  function PairToJson(p: (real, real)): Json {
    JArr([JFloat(p.0), JFloat(p.1)])
  }

  function JsonToPair(j: Json): Option<(real, real)> {
    if j.JArr? && |j.items| == 2 && j.items[0].JFloat? && j.items[1].JFloat? then
      Some((j.items[0].x, j.items[1].x))
    else None
  }

  /** `WebElement.to_dict`: every field, with the kind written as its string value. */
  function ToDict(e: WebElement): (r: map<string, Json>)
    ensures r.Keys == {"id", "type", "text", "attributes", "position", "size", "is_visible"}
  {
    map["id" := JStr(e.id), "type" := JStr(Value(e.kind)), "text" := JStr(e.text),
        "attributes" := JObj(StringsToJson(e.attributes)), "position" := PairToJson(e.position),
        "size" := PairToJson(e.size), "is_visible" := JBool(e.isVisible)]
  }

  /** Reading an element back from its dict; the partner of `ToDict`. */
  function FromDict(d: map<string, Json>): Option<WebElement> {
    if "id" in d && d["id"].JStr? && "type" in d && d["type"].JStr? && FromValue(d["type"].s).Some? &&
       "text" in d && d["text"].JStr? && "attributes" in d && d["attributes"].JObj? &&
       JsonToStrings(d["attributes"].fields).Some? &&
       "position" in d && JsonToPair(d["position"]).Some? && "size" in d && JsonToPair(d["size"]).Some? &&
       "is_visible" in d && d["is_visible"].JBool?
    then
      Some(WebElement(d["id"].s, FromValue(d["type"].s).value, d["text"].s,
        JsonToStrings(d["attributes"].fields).value, JsonToPair(d["position"]).value,
        JsonToPair(d["size"]).value, d["is_visible"].b))
    else None
  }

  /** The dict loses nothing: reading it back gives the element. */
  lemma ToDictRoundTrip(e: WebElement)
    ensures FromDict(ToDict(e)) == Some(e)
  {
    var d := ToDict(e);
    ValueRoundTrip(e.kind);
    var back := map k | k in StringsToJson(e.attributes) :: StringsToJson(e.attributes)[k].s;
    assert back == e.attributes;
    assert JsonToStrings(d["attributes"].fields) == Some(e.attributes);
  }

  // ----- get_page_info -----

  /** One entry of the page script's `elements` list. */
  datatype ElementData = ElementData(
    id: string,
    tagName: string,
    elemType: string,
    text: string,
    attributes: map<string, string>,
    position: (real, real),
    size: (real, real),
    isVisible: bool)

  /** What the page script returns: the page's title and URL and its interactive elements. */
  datatype PageData = PageData(title: string, url: string, elements: seq<ElementData>)

  /** The `WebElement` built from one script entry. */
  function ElementOf(d: ElementData): WebElement {
    WebElement(d.id, Classify(d.tagName, d.elemType, d.attributes), d.text, d.attributes, d.position, d.size, d.isVisible)
  }

  function ElementDicts(ds: seq<ElementData>): (r: seq<Json>)
    ensures |r| == |ds|
  {
    seq(|ds|, i requires 0 <= i < |ds| => JObj(ToDict(ElementOf(ds[i]))))
  }

  /** The dict `get_page_info` returns on success. */
  function PageResponse(p: PageData): map<string, Json> {
    map["title" := JStr(p.title), "url" := JStr(p.url), "elements" := JArr(ElementDicts(p.elements))]
  }

  /**
   * The reported elements are the script's, in order and one for one:
   * each reads back as the classified element, so its "type" is the value
   * of the kind its tag selects.
   */
  lemma PageResponseElements(p: PageData, i: nat)
    requires i < |p.elements|
    ensures var items := PageResponse(p)["elements"].items;
      |items| == |p.elements| && items[i].JObj? &&
      FromDict(items[i].fields) == Some(ElementOf(p.elements[i])) &&
      items[i].fields["type"] == JStr(Value(Classify(p.elements[i].tagName, p.elements[i].elemType, p.elements[i].attributes)))
  {
    ToDictRoundTrip(ElementOf(p.elements[i]));
  }

  /** `_get_current_browser_tab`: the current page, when its `tab_type` is BROWSER. */
  predicate CurrentIsBrowser(s: TabState)
    requires ValidState(s)
  {
    s.tabs != [] && TypeOf(s.tabs[s.current].widget) == Some(Browser)
  }

  const NoBrowserTab := "No browser tab is currently active"

  /** `BrowserAPI`: the window it drives and the last page information it returned. */
  class BrowserApi {
    const window: BrowserWindow
    var lastResponse: map<string, Json>

    constructor (window: BrowserWindow)
      ensures this.window == window && lastResponse == map[]
    {
      this.window := window;
      lastResponse := map[];
    }

    /**
     * `get_page_info`.  `js` is what the page script handed back, None
     * when it returned nothing; running the script is not modelled.
     */
    method GetPageInfo(js: Option<PageData>) returns (r: map<string, Json>)
      requires window.Valid()
      modifies this`lastResponse
      ensures !CurrentIsBrowser(window.State()) ==> r == ErrorDict(NoBrowserTab) && lastResponse == old(lastResponse)
      ensures CurrentIsBrowser(window.State()) && js.None? ==>
        r == ErrorDict("Failed to extract page information") && lastResponse == old(lastResponse)
      ensures CurrentIsBrowser(window.State()) && js.Some? ==> r == PageResponse(js.value) && lastResponse == r
    {
      if !CurrentIsBrowser(window.State()) {
        return ErrorDict(NoBrowserTab);
      }
      if js.None? {
        return ErrorDict("Failed to extract page information");
      }
      var page := js.value;
      var elements: seq<Json> := [];
      var i := 0;
      while i < |page.elements|
        invariant 0 <= i <= |page.elements|
        invariant elements == ElementDicts(page.elements[..i])
      {
        var d := page.elements[i];
        var e := WebElement(d.id, Classify(d.tagName, d.elemType, d.attributes), d.text, d.attributes,
          d.position, d.size, d.isVisible);
        elements := elements + [JObj(ToDict(e))];
        i := i + 1;
      }
      assert page.elements[..i] == page.elements;
      r := map["title" := JStr(page.title), "url" := JStr(page.url), "elements" := JArr(elements)];
      lastResponse := r;
    }
  }

  // ----- click and fill targets -----

  /** How `click_element` finds its element. */
  datatype ClickTarget = ById(id: string) | BySelector(selector: string) | AtPoint(x: int, y: int)

  /** A string argument that is given and non-empty (Python truthiness). */
  predicate Given(s: Option<string>) {
    s.Some? && s.value != ""
  }

  /**
   * `click_element`'s choice: element_id when given, else selector, else
   * position (a pair is always truthy); none of them is an error.
   */
  function ClickTargetOf(elementId: Option<string>, selector: Option<string>, position: Option<(int, int)>): (r: Result<ClickTarget, string>)
    ensures r.Err? <==> !Given(elementId) && !Given(selector) && position.None?
  {
    if Given(elementId) then Ok(ById(elementId.value))
    else if Given(selector) then Ok(BySelector(selector.value))
    else if position.Some? then Ok(AtPoint(position.value.0, position.value.1))
    else Err("Must provide element_id, selector, or position")
  }

  /** element_id has priority over selector, and both over position. */
  lemma ClickPriority(elementId: Option<string>, selector: Option<string>, position: Option<(int, int)>)
    ensures Given(elementId) ==> ClickTargetOf(elementId, selector, position) == Ok(ById(elementId.value))
    ensures !Given(elementId) && Given(selector) ==>
      ClickTargetOf(elementId, selector, position) == Ok(BySelector(selector.value))
    ensures !Given(elementId) && !Given(selector) && position.Some? ==>
      ClickTargetOf(elementId, selector, position) == Ok(AtPoint(position.value.0, position.value.1))
  {
  }

  // ----- terminal output -----

  /**
   * The output a command added: when the terminal's text still starts with
   * what it held before, the rest, stripped; otherwise all of it.
   */
  function OutputDiff(previous: string, current: string): (r: string)
    ensures |r| <= |current|
  {
    if StartsWith(current, previous) then Strip(current[|previous|..]) else current
  }

  /** Text appended after the previous output is reported stripped, and nothing else is. */
  lemma OutputDiffAppended(previous: string, added: string)
    ensures OutputDiff(previous, previous + added) == Strip(added)
  {
    assert (previous + added)[..|previous|] == previous;
    assert (previous + added)[|previous|..] == added;
  }

  /** When the earlier text is no longer a prefix (the terminal was cleared), everything is reported. */
  lemma OutputDiffRewritten(previous: string, current: string)
    requires !StartsWith(current, previous)
    ensures OutputDiff(previous, current) == current
  {
  }

  /** Running a command that prints nothing but blanks reports the empty string. */
  lemma OutputDiffBlank(previous: string, added: string)
    requires AllSpace(added)
    ensures OutputDiff(previous, previous + added) == []
  {
    OutputDiffAppended(previous, added);
    StripAllSpace(added);
  }

  /**
   * `_get_current_terminal_tab` as written: the current page when its
   * `tab_type` is TERMINAL.  No terminal page carries a `tab_type`.
   */
  predicate TaggedCurrent(s: TabState, t: TabType)
    requires ValidState(s)
  {
    s.tabs != [] && TypeOf(s.tabs[s.current].widget) == Some(t)
  }

  /** Hence, as written, terminal and chat commands find no tab even when one is current. */
  lemma TerminalAndChatNeverFound(s: TabState)
    requires ValidState(s)
    ensures !TaggedCurrent(s, Terminal) && !TaggedCurrent(s, Chat)
  {
  }

  /** The lookup as intended: the current page when it is a terminal page. */
  predicate CurrentIsTerminal(s: TabState)
    requires ValidState(s)
  {
    s.tabs != [] && s.tabs[s.current].widget.TerminalTab?
  }

  /**
   * Whenever the current page is a terminal, the corrected lookup finds it
   * while the lookup as written does not.
   */
  lemma CurrentTerminalFound(s: TabState)
    requires ValidState(s) && s.tabs != [] && s.tabs[s.current].widget == TerminalTab
    ensures CurrentIsTerminal(s) && !TaggedCurrent(s, Terminal)
  {
  }

  const NoTerminalTab := "No terminal tab is currently active"

  /** The result of `execute_command` once a terminal page is found. */
  function CommandResult(command: string, previous: string, current: string): map<string, Json> {
    map["command" := JStr(command), "output" := JStr(OutputDiff(previous, current))]
  }

  /**
   * `get_current_directory` from the result of running "pwd": an error is
   * passed through unchanged, otherwise the output is stripped.
   */
  function DirectoryResult(result: map<string, Json>): (r: map<string, Json>)
    ensures IsError(result) ==> r == result
  {
    if IsError(result) then result
    else
      var output := Get(result, "output", JStr(""));
      map["current_directory" := JStr(Strip(if output.JStr? then output.s else ""))]
  }

  /** A directory reported after "pwd" printed `dir` is `dir` without surrounding blanks. */
  lemma DirectoryAfterPwd(previous: string, printed: string)
    ensures DirectoryResult(CommandResult("pwd", previous, previous + printed)) ==
      map["current_directory" := JStr(Strip(printed))]
  {
    OutputDiffAppended(previous, printed);
    var result := CommandResult("pwd", previous, previous + printed);
    assert !IsError(result) && Get(result, "output", JStr("")) == JStr(Strip(printed));
    StripFixed(Strip(printed));
  }

  /**
   * `TerminalAPI`: the window and the output of the last command.  The
   * terminal's text before and after a command is a parameter: running
   * the shell is not modelled.  The terminal page is found by its class
   * (`CurrentIsTerminal`), as intended.
   */
  class TerminalApi {
    const window: BrowserWindow
    var lastOutput: string

    constructor (window: BrowserWindow)
      ensures this.window == window && lastOutput == ""
    {
      this.window := window;
      lastOutput := "";
    }

    /** `execute_command`: the command and only the output it added. */
    method ExecuteCommand(command: string, previous: string, current: string) returns (r: map<string, Json>)
      requires window.Valid()
      modifies this`lastOutput
      ensures !CurrentIsTerminal(window.State()) ==> r == ErrorDict(NoTerminalTab) && lastOutput == old(lastOutput)
      ensures CurrentIsTerminal(window.State()) ==>
        r == CommandResult(command, previous, current) && lastOutput == OutputDiff(previous, current)
    {
      if !CurrentIsTerminal(window.State()) {
        return ErrorDict(NoTerminalTab);
      }
      var output: string;
      if StartsWith(current, previous) {
        output := Strip(current[|previous|..]);
      } else {
        output := current;
      }
      lastOutput := output;
      r := map["command" := JStr(command), "output" := JStr(output)];
    }

    /** `get_current_directory`, with the terminal's text around the "pwd" command as parameters. */
    method GetCurrentDirectory(previous: string, current: string) returns (r: map<string, Json>)
      requires window.Valid()
      modifies this`lastOutput
      ensures !CurrentIsTerminal(window.State()) ==> r == ErrorDict(NoTerminalTab) && lastOutput == old(lastOutput)
      ensures CurrentIsTerminal(window.State()) ==>
        r == DirectoryResult(CommandResult("pwd", previous, current)) && lastOutput == OutputDiff(previous, current)
    {
      if !CurrentIsTerminal(window.State()) {
        return ErrorDict(NoTerminalTab);
      }
      var result := ExecuteCommand("pwd", previous, current);
      if "error" in result {
        return result;
      }
      var output := result["output"];
      r := map["current_directory" := JStr(Strip(output.s))];
    }
  }

  // ----- tabs -----

  /** The `type` the controller reports: the `tab_type` name, or "unknown" when there is none. */
  function TypeName(w: Widget): string {
    match TypeOf(w)
    case Some(t) => Name(t)
    case None => "unknown"
  }

  /** The entry `get_tabs_info` builds for page `i`. */
  function TabInfo(i: nat, t: Tab): map<string, Json> {
    var base := map["index" := JInt(i), "title" := JStr(t.title), "type" := JStr(TypeName(t.widget))];
    if TypeOf(t.widget) == Some(Browser) && t.widget.BrowserTab? then base["url" := JStr(t.widget.url)] else base
  }

  function TabInfos(tabs: seq<Tab>): (r: seq<Json>)
    ensures |r| == |tabs|
  {
    seq(|tabs|, i requires 0 <= i < |tabs| => JObj(TabInfo(i, tabs[i])))
  }

  /** The dict `get_tabs_info` returns. */
  function TabsInfo(s: TabState): map<string, Json> {
    map["current_tab" := JInt(s.current), "tabs" := JArr(TabInfos(s.tabs))]
  }

  /**
   * Every page is listed, in order, under its own index and title; its type
   * is "unknown" exactly when it has no `tab_type`, and only browser pages
   * carry a URL.
   */
  lemma TabsInfoListsEveryTab(s: TabState, i: nat)
    requires i < |s.tabs|
    ensures var items := TabsInfo(s)["tabs"].items;
      |items| == |s.tabs| && items[i].JObj? &&
      items[i].fields["index"] == JInt(i) && items[i].fields["title"] == JStr(s.tabs[i].title) &&
      (items[i].fields["type"] == JStr("unknown") <==> TypeOf(s.tabs[i].widget).None?) &&
      ("url" in items[i].fields <==> s.tabs[i].widget.BrowserTab?)
  {
    var w := s.tabs[i].widget;
    if TypeOf(w).Some? {
      match TypeOf(w).value {
        case Browser =>
        case Chat =>
        case Terminal =>
        case NotePage =>
        case NotePageExc =>
        case ResourceMonitor =>
        case AiBrowser =>
      }
    }
  }

  /** The loop of `get_tabs_info` over the window's pages. */
  method ListTabs(window: BrowserWindow) returns (r: map<string, Json>)
    requires window.Valid()
    ensures r == TabsInfo(window.State())
  {
    var tabs: seq<Json> := [];
    var i := 0;
    while i < |window.tabs|
      invariant 0 <= i <= |window.tabs|
      invariant tabs == TabInfos(window.tabs[..i])
    {
      var t := window.tabs[i];
      var info := map["index" := JInt(i), "title" := JStr(t.title), "type" := JStr(TypeName(t.widget))];
      if TypeOf(t.widget) == Some(Browser) && t.widget.BrowserTab? {
        info := info["url" := JStr(t.widget.url)];
      }
      tabs := tabs + [JObj(info)];
      i := i + 1;
    }
    assert window.tabs[..i] == window.tabs;
    r := map["current_tab" := JInt(window.current), "tabs" := JArr(tabs)];
  }

  /** `tab_index < 0 or tab_index >= count`. */
  predicate OutOfRange(index: int, count: nat) {
    index < 0 || index >= count
  }

  function RangeError(index: int): map<string, Json> {
    ErrorDict("Tab index " + IntToString(index) + " out of range")
  }

  /** The kinds of page `create_tab` accepts, matched case-insensitively. */
  function CreatedKind(tabType: string): (r: Option<TabType>)
    ensures r.Some? <==> Lower(tabType) in ["browser", "chat", "terminal"]
    ensures r.Some? ==> Lower(tabType) == Lower(Name(r.value))
  {
    var t := Lower(tabType);
    if t == "browser" then Some(Browser)
    else if t == "chat" then Some(Chat)
    else if t == "terminal" then Some(Terminal)
    else None
  }

  // ----- routing -----

  /** What `execute_command` ends up calling. */
  datatype Call =
    | PageInfo | Click | Fill | NavigateTo | Back | Forward | Reload
    | RunInTerminal | CurrentDirectory | SendMessage
    | SwitchTab(index: int) | CreateTab(tabType: string) | CloseTab(index: int) | ListAllTabs
    | Fail(message: string)

  /** The (command type, command) pairs that reach a handler. */
  const Commands := [
    ("browser", "get_page_info"), ("browser", "click_element"), ("browser", "fill_input"),
    ("browser", "navigate"), ("browser", "go_back"), ("browser", "go_forward"), ("browser", "refresh"),
    ("terminal", "execute_command"), ("terminal", "get_current_directory"),
    ("chat", "send_message"),
    ("tab", "switch"), ("tab", "create"), ("tab", "close"), ("tab", "get_info")]

  /**
   * `execute_command` and the three routers below it.  Tab commands take
   * `tab_index` (default 0) and `tab_type` (default "browser") from the
   * keyword arguments.
   */
  function Route(commandType: string, command: string, tabIndex: Option<int>, tabType: Option<string>): (r: Call)
    ensures r.Fail? <==> (commandType, command) !in Commands
  {
    if commandType == "browser" then
      if command == "get_page_info" then PageInfo
      else if command == "click_element" then Click
      else if command == "fill_input" then Fill
      else if command == "navigate" then NavigateTo
      else if command == "go_back" then Back
      else if command == "go_forward" then Forward
      else if command == "refresh" then Reload
      else Fail("Unknown browser command: " + command)
    else if commandType == "terminal" then
      if command == "execute_command" then RunInTerminal
      else if command == "get_current_directory" then CurrentDirectory
      else Fail("Unknown terminal command: " + command)
    else if commandType == "chat" then
      if command == "send_message" then SendMessage
      else Fail("Unknown chat command: " + command)
    else if commandType == "tab" then
      if command == "switch" then SwitchTab(if tabIndex.Some? then tabIndex.value else 0)
      else if command == "create" then CreateTab(if tabType.Some? then tabType.value else "browser")
      else if command == "close" then CloseTab(if tabIndex.Some? then tabIndex.value else 0)
      else if command == "get_info" then ListAllTabs
      else Fail("Unknown tab command: " + command)
    else Fail("Unknown command type: " + commandType)
  }

  /** An unknown command type is reported by name; so is an unknown command of a known type. */
  lemma RouteErrors(commandType: string, command: string, tabIndex: Option<int>, tabType: Option<string>)
    ensures commandType !in ["browser", "terminal", "chat", "tab"] ==>
      Route(commandType, command, tabIndex, tabType) == Fail("Unknown command type: " + commandType)
    ensures commandType == "tab" && (commandType, command) !in Commands ==>
      Route(commandType, command, tabIndex, tabType) == Fail("Unknown tab command: " + command)
  {
  }

  /** Missing keyword arguments fall back to tab 0 and a browser tab. */
  lemma TabDefaults(tabIndex: Option<int>, tabType: Option<string>)
    ensures Route("tab", "switch", None, tabType) == SwitchTab(0)
    ensures Route("tab", "close", None, tabType) == CloseTab(0)
    ensures Route("tab", "create", tabIndex, None) == CreateTab("browser")
  {
  }

  /** The result `execute_command` returns for an unroutable command. */
  function FailResult(c: Call): map<string, Json>
    requires c.Fail?
  {
    ErrorDict(c.message)
  }

  /** api.py's `BrowserController`: tab commands on the window it drives. */
  class BrowserController {
    const window: BrowserWindow

    constructor (window: BrowserWindow)
      ensures this.window == window
    {
      this.window := window;
    }

    /** `switch_to_tab`: an index outside the pages is an error and changes nothing. */
    method SwitchToTab(index: int) returns (r: map<string, Json>)
      requires window.Valid()
      modifies window`current
      ensures window.Valid() && window.tabs == old(window.tabs)
      ensures OutOfRange(index, |window.tabs|) ==> r == RangeError(index) && window.current == old(window.current)
      ensures !OutOfRange(index, |window.tabs|) ==>
        window.current == index &&
        r == map["tab_index" := JInt(index), "tab_type" := JStr(TypeName(window.tabs[index].widget))]
    {
      if index < 0 || index >= |window.tabs| {
        return RangeError(index);
      }
      window.current := index;
      r := map["tab_index" := JInt(index), "tab_type" := JStr(TypeName(window.tabs[window.current].widget))];
    }

    /** `create_tab`: a browser page at start_url, a chat page or a terminal page; anything else is an error. */
    method CreateTab(tabType: string) returns (r: map<string, Json>)
      requires window.Valid()
      modifies window`tabs, window`current
      ensures window.Valid()
      ensures CreatedKind(tabType).None? ==>
        r == ErrorDict("Unknown tab type: " + tabType) && window.State() == old(window.State())
      ensures CreatedKind(tabType).Some? ==>
        window.State() == Added(old(window.State()), NewTabFor(CreatedKind(tabType).value, window.startUrl)) &&
        r == map["tab_index" := JInt(|old(window.tabs)|), "tab_type" := JStr(Name(CreatedKind(tabType).value))]
    {
      var t := Lower(tabType);
      if t == "browser" {
        var index := window.AddNewTab(None);
        r := map["tab_index" := JInt(index), "tab_type" := JStr("BROWSER")];
      } else if t == "chat" {
        var index := window.AddNewTabOfType(Chat);
        r := map["tab_index" := JInt(index), "tab_type" := JStr("CHAT")];
      } else if t == "terminal" {
        var index := window.AddNewTabOfType(Terminal);
        r := map["tab_index" := JInt(index), "tab_type" := JStr("TERMINAL")];
      } else {
        r := ErrorDict("Unknown tab type: " + tabType);
      }
    }

    /** `close_tab`: an index outside the pages is an error and changes nothing. */
    method CloseTab(index: int) returns (r: map<string, Json>)
      requires window.Valid()
      modifies window`tabs, window`current
      ensures window.Valid()
      ensures OutOfRange(index, |old(window.tabs)|) ==> r == RangeError(index) && window.State() == old(window.State())
      ensures !OutOfRange(index, |old(window.tabs)|) ==>
        window.State() == Closed(old(window.State()), index, window.startUrl) &&
        r == map["closed_tab_index" := JInt(index), "remaining_tabs" := JInt(|window.tabs|)]
    {
      if index < 0 || index >= |window.tabs| {
        return RangeError(index);
      }
      window.CloseTab(index);
      r := map["closed_tab_index" := JInt(index), "remaining_tabs" := JInt(|window.tabs|)];
    }

    /**
     * `execute_command` for the "tab" commands and for unroutable
     * commands; the page, terminal and chat calls are the methods above
     * and in `BrowserApi` and `TerminalApi`, and `r` is None for them.
     */
    method ExecuteCommand(commandType: string, command: string, tabIndex: Option<int>, tabType: Option<string>)
      returns (r: Option<map<string, Json>>)
      requires window.Valid()
      modifies window`tabs, window`current
      ensures window.Valid()
      ensures var c := Route(commandType, command, tabIndex, tabType);
        (c.Fail? ==> r == Some(FailResult(c)) && window.State() == old(window.State())) &&
        (c.ListAllTabs? ==> r == Some(TabsInfo(window.State())) && window.State() == old(window.State())) &&
        (c.SwitchTab? && OutOfRange(c.index, |old(window.tabs)|) ==>
          r == Some(RangeError(c.index)) && window.State() == old(window.State())) &&
        (c.SwitchTab? && !OutOfRange(c.index, |old(window.tabs)|) ==>
          window.tabs == old(window.tabs) && window.current == c.index &&
          r == Some(map["tab_index" := JInt(c.index), "tab_type" := JStr(TypeName(window.tabs[c.index].widget))])) &&
        (c.CloseTab? && OutOfRange(c.index, |old(window.tabs)|) ==>
          r == Some(RangeError(c.index)) && window.State() == old(window.State())) &&
        (c.CloseTab? && !OutOfRange(c.index, |old(window.tabs)|) ==>
          window.State() == Closed(old(window.State()), c.index, window.startUrl) &&
          r == Some(map["closed_tab_index" := JInt(c.index), "remaining_tabs" := JInt(|window.tabs|)])) &&
        (c.CreateTab? && CreatedKind(c.tabType).None? ==>
          r == Some(ErrorDict("Unknown tab type: " + c.tabType)) && window.State() == old(window.State())) &&
        (c.CreateTab? && CreatedKind(c.tabType).Some? ==>
          window.State() == Added(old(window.State()), NewTabFor(CreatedKind(c.tabType).value, window.startUrl)) &&
          r == Some(map["tab_index" := JInt(|old(window.tabs)|), "tab_type" := JStr(Name(CreatedKind(c.tabType).value))])) &&
        (!c.Fail? && !c.SwitchTab? && !c.CreateTab? && !c.CloseTab? && !c.ListAllTabs? ==>
          r.None? && window.State() == old(window.State()))
    {
      var c := Route(commandType, command, tabIndex, tabType);
      match c {
        case Fail(message) =>
          r := Some(ErrorDict(message));
        case SwitchTab(index) =>
          var d := SwitchToTab(index);
          r := Some(d);
        case CreateTab(t) =>
          var d := CreateTab(t);
          r := Some(d);
        case CloseTab(index) =>
          var d := CloseTab(index);
          r := Some(d);
        case ListAllTabs =>
          var d := ListTabs(window);
          r := Some(d);
        case _ =>
          r := None;
      }
    }
  }
}
