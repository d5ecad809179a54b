/**
 * selenium_qt_browser/ai_browser_middleware.py: `AIBrowserMiddleware`, the
 * component between the r1-1776 model and the browser controller.  It
 * subscribes to the controller's events, queues them and keeps the last ten
 * in its context, turns the context into a prompt, cuts the model's reply
 * down to one JSON object and maps that object to one controller call.
 *
 * The model's reply, the loader's success and the clock are parameters;
 * the processing thread, its lock and `json.loads` are not modelled.
 */
module Middleware {
  import opened Common
  import opened Json
  import ModelConfig
  import Api
  import Controller

  /** `max_history_length`. */
  const MaxHistoryLength := 10
  /** The prompt lists at most this many page elements ... */
  const ShownElements := 10
  /** ... and at most this many recent events. */
  const ShownEvents := 5
  /** Element text longer than this is cut. */
  const TextLimit := 50

  /** The dict `_add_event` queues: the event's name, its data and `time.time()`. */
  datatype Event = Event(eventType: string, data: Json, timestamp: real)

  // ----- rendering values into the prompt -----

  /** An f-string's rendering of a value; floats, lists and dicts are shown as "?". */
  function Show(j: Json): string {
    match j
    case JNull => "None"
    case JBool(b) => if b then "True" else "False"
    case JInt(i) => IntToString(i)
    case JStr(s) => s
    case _ => "?"
  }

  /** `d.get(key, default)` on a context entry; an entry that is not a dict reads as empty. */
  function Field(d: Json, key: string, default: Json): Json {
    if d.JObj? then Get(d.fields, key, default) else default
  }

  /** `acc` followed by each of `lines` in turn: the text `+=` builds. */
  function Joined(acc: string, lines: seq<string>): string {
    if lines == [] then acc else Joined(acc, lines[..|lines| - 1]) + lines[|lines| - 1]
  }

  lemma JoinedSnoc(acc: string, lines: seq<string>, x: string)
    ensures Joined(acc, lines + [x]) == Joined(acc, lines) + x
  {
    assert (lines + [x])[..|lines|] == lines;
  }

  /** The loops' step: one more line of a list. */
  lemma JoinedPrefix(acc: string, lines: seq<string>, i: nat)
    requires i < |lines|
    ensures Joined(acc, lines[..i + 1]) == Joined(acc, lines[..i]) + lines[i]
  {
    assert lines[..i + 1][..i] == lines[..i];
  }

  lemma JoinedPair(acc: string, a: string, b: string)
    ensures Joined(acc, [a]) == acc + a
    ensures Joined(acc, [a, b]) == acc + a + b
  {
    assert [a, b][..1] == [a];
    assert [a][..0] == [];
  }

  /** Joining two lists one after the other is joining them together. */
  lemma {:induction false} JoinedAppend(acc: string, a: seq<string>, b: seq<string>)
    ensures Joined(acc, a + b) == Joined(Joined(acc, a), b)
    decreases |b|
  {
    if b == [] {
      assert a + b == a;
    } else {
      assert (a + b)[..|a + b| - 1] == a + b[..|b| - 1];
      JoinedAppend(acc, a, b[..|b| - 1]);
    }
  }

  // ----- the prompt, section by section -----

  const Header := "You are an AI assistant that can control a web browser. " +
    "Here is the current state of the browser:\n\n"

  const Instructions :=
    "\nBased on the current state of the browser, what action would you like to take? " +
    "You can navigate to a URL, click on elements, fill input fields, etc. " +
    "Please respond with a JSON object containing the action you want to take. " +
    "For example:\n\n" +
    "{\"action\": \"navigate\", \"url\": \"https://www.example.com\"}\n" +
    "{\"action\": \"click\", \"selector\": \"#search-button\"}\n" +
    "{\"action\": \"fill\", \"selector\": \"#search-input\", \"text\": \"example search\"}\n\n" +
    "Your response (JSON only):"

  /** Whether the context's current tab index points into its tab list. */
  predicate CurrentInRange(currentTab: Json, tabs: Json) {
    currentTab.JInt? && tabs.JArr? && 0 <= currentTab.i < |tabs.items|
  }

  /**
   * The current-tab lines: present only when the index is in range; the URL
   * line only for a "BROWSER" tab that has a url.
   */
  function TabLines(currentTab: Json, tabs: Json): (r: seq<string>)
    ensures |r| > 0 <==> CurrentInRange(currentTab, tabs)
    ensures |r| <= 2
    ensures |r| == 2 <==>
      CurrentInRange(currentTab, tabs) &&
      Field(tabs.items[currentTab.i], "type", JNull) == JStr("BROWSER") &&
      Truthy(Field(tabs.items[currentTab.i], "url", JNull))
    ensures |r| == 2 ==> r[1] == "URL: " + Show(Field(tabs.items[currentTab.i], "url", JNull)) + "\n"
  {
    if CurrentInRange(currentTab, tabs) then
      var tab := tabs.items[currentTab.i];
      var head := "Current Tab: " + Show(Field(tab, "title", JNull)) + " (Type: " + Show(Field(tab, "type", JNull)) + ")\n";
      if Field(tab, "type", JNull) == JStr("BROWSER") && Truthy(Field(tab, "url", JNull)) then
        [head, "URL: " + Show(Field(tab, "url", JNull)) + "\n"]
      else
        [head]
    else
      []
  }

  /** `text[:50] + "..."` for text longer than 50 characters, else the text. */
  function Truncated(text: string): (r: string)
    ensures |r| <= TextLimit + 3
    ensures |text| <= TextLimit ==> r == text
    ensures |text| > TextLimit ==> |r| == TextLimit + 3 && r[..TextLimit] == text[..TextLimit] && r[TextLimit..] == "..."
  {
    if |text| > TextLimit then text[..TextLimit] + "..." else text
  }

  /** The line for element `i` (numbered from one): its type, id and cut text where present. */
  function ElementLine(i: nat, elem: Json): string {
    var id := Field(elem, "id", JStr(""));
    var text := Field(elem, "text", JStr(""));
    NatToString(i + 1) + ". " + Show(Field(elem, "type", JStr(""))) +
      (if Truthy(id) then " (id='" + Show(id) + "')" else "") +
      (if Truthy(text) then ": '" + Truncated(Show(text)) + "'" else "") +
      "\n"
  }

  /** One line for each of the first ten elements, in order. */
  function ShownLines(elements: seq<Json>): (r: seq<string>)
    ensures |r| == if |elements| < ShownElements then |elements| else ShownElements
    ensures forall i :: 0 <= i < |r| ==> r[i] == ElementLine(i, elements[i])
  {
    var shown := Take(elements, ShownElements);
    seq(|shown|, i requires 0 <= i < |shown| => ElementLine(i, shown[i]))
  }

  /** The "... and N more elements" line, present when there are more than ten. */
  function MoreLine(elements: seq<Json>): (r: seq<string>)
    ensures |r| == 1 <==> |elements| > ShownElements
    ensures |r| <= 1
    ensures |r| == 1 ==> r[0] == MoreText(|elements| - ShownElements)
  {
    if |elements| > ShownElements then [MoreText(|elements| - ShownElements)] else []
  }

  function MoreText(n: nat): string {
    "... and " + NatToString(n) + " more elements\n"
  }

  function PageTitleLine(title: Json): string {
    "\nPage Title: " + Show(title) + "\n"
  }

  function PageUrlLine(url: Json): string {
    "Page URL: " + Show(url) + "\n"
  }

  const ElementsHeading := "\nInteractive Elements:\n"

  /** The page's element list, when it has a non-empty one. */
  function PageElements(pageInfo: map<string, Json>): seq<Json> {
    var elements := Get(pageInfo, "elements", JArr([]));
    if elements.JArr? then elements.items else []
  }

  /** Whether the page section is shown at all: the page info has a title and a url. */
  predicate PageShown(pageInfo: map<string, Json>) {
    Truthy(Get(pageInfo, "title", JNull)) && Truthy(Get(pageInfo, "url", JNull))
  }

  /** The element part of the page section: a heading, the element lines and the "more" line. */
  function ElementSection(items: seq<Json>): (r: seq<string>)
    ensures r == [] <==> items == []
  {
    if |items| > 0 then [ElementsHeading] + (ShownLines(items) + MoreLine(items)) else []
  }

  /** The page lines: only when the page info has a title and a url. */
  function PageLines(pageInfo: map<string, Json>): (r: seq<string>)
    ensures r != [] <==> PageShown(pageInfo)
  {
    if PageShown(pageInfo) then
      [PageTitleLine(Get(pageInfo, "title", JNull)), PageUrlLine(Get(pageInfo, "url", JNull))] +
        ElementSection(PageElements(pageInfo))
    else
      []
  }

  /** The event kinds that produce a line under "Recent Actions". */
  predicate Described(eventType: string) {
    eventType == "navigated" || eventType == "element_clicked" || eventType == "input_filled"
  }

  /** The line for one event, if its kind is described. */
  function EventLine(e: Event): (r: Option<string>)
    ensures r.Some? <==> Described(e.eventType)
  {
    var id := Field(e.data, "element_id", JStr(""));
    var selector := Field(e.data, "selector", JStr(""));
    if e.eventType == "navigated" then
      Some("- Navigated to: " + Show(Field(e.data, "url", JNull)) + "\n")
    else if e.eventType == "element_clicked" then
      Some(if Truthy(id) then "- Clicked element with id: '" + Show(id) + "'\n"
           else if Truthy(selector) then "- Clicked element with selector: '" + Show(selector) + "'\n"
           else "- Clicked element\n")
    else if e.eventType == "input_filled" then
      var text := Show(Field(e.data, "text", JStr("")));
      Some(if Truthy(id) then "- Filled input with id '" + Show(id) + "' with text: '" + text + "'\n"
           else if Truthy(selector) then "- Filled input with selector '" + Show(selector) + "' with text: '" + text + "'\n"
           else "- Filled input with text: '" + text + "'\n")
    else
      None
  }

  /** The lines of the described events, in order. */
  function EventLines(events: seq<Event>): (r: seq<string>)
    ensures |r| <= |events|
  {
    if events == [] then []
    else
      var last := events[|events| - 1];
      EventLines(events[..|events| - 1]) + (if EventLine(last).Some? then [EventLine(last).value] else [])
  }

  /** The number of events of a described kind. */
  function DescribedCount(events: seq<Event>): nat {
    if events == [] then 0
    else DescribedCount(events[..|events| - 1]) + (if Described(events[|events| - 1].eventType) then 1 else 0)
  }

  /** Each described event gives exactly one line, and each line comes from one, in order. */
  lemma {:induction false} EventLinesCount(events: seq<Event>)
    ensures |EventLines(events)| == DescribedCount(events)
    ensures forall i :: 0 <= i < |events| && !Described(events[i].eventType) ==>
      DescribedCount(events) < |events|
  {
    if events != [] {
      var init := events[..|events| - 1];
      EventLinesCount(init);
      forall i | 0 <= i < |events| && !Described(events[i].eventType)
        ensures DescribedCount(events) < |events|
      {
        if i < |init| {
          assert init[i] == events[i];
        }
      }
    }
  }

  /** The history section: a heading and the lines of the last five events. */
  function HistoryLines(history: seq<Event>): (r: seq<string>)
    ensures history == [] <==> r == []
    ensures |r| <= ShownEvents + 1
  {
    if history == [] then [] else ["\nRecent Actions:\n"] + EventLines(LastN(history, ShownEvents))
  }

  /**
   * An event of a kind the prompt does not describe, such as the
   * "page_info_retrieved" notice of every context update, still takes one
   * of the five "Recent Actions" places: at most four lines follow the heading.
   */
  lemma UndescribedEventTakesAPlace(history: seq<Event>, e: Event)
    requires !Described(e.eventType)
    ensures |HistoryLines(LastN(history + [e], MaxHistoryLength))| <= ShownEvents
  {
    var all := history + [e];
    LastNOfLastN(all, MaxHistoryLength, ShownEvents);
    var shown := LastN(all, ShownEvents);
    assert shown[|shown| - 1] == e;
    assert EventLines(shown) == EventLines(shown[..|shown| - 1]);
  }

  /** The context the prompt is built from. */
  datatype Context = Context(pageInfo: map<string, Json>, history: seq<Event>, currentTab: Json, tabs: Json)

  /** The prompt's lines. */
  function PromptLines(c: Context): seq<string> {
    [Header] + TabLines(c.currentTab, c.tabs) + PageLines(c.pageInfo) + HistoryLines(c.history) + [Instructions]
  }

  /** `_context_to_prompt`. */
  function Prompt(c: Context): string {
    Joined("", PromptLines(c))
  }

  /** The prompt as its sections appended in turn. */
  lemma PromptText(c: Context)
    ensures Prompt(c) ==
      Joined(Joined(Joined(Header, TabLines(c.currentTab, c.tabs)), PageLines(c.pageInfo)), HistoryLines(c.history)) +
      Instructions
  {
    var a := [Header];
    var b := TabLines(c.currentTab, c.tabs);
    var d := PageLines(c.pageInfo);
    var e := HistoryLines(c.history);
    JoinedPair("", Header, Header);
    assert "" + Header == Header;
    JoinedAppend("", a, b);
    JoinedAppend("", a + b, d);
    JoinedAppend("", a + b + d, e);
    JoinedSnoc("", a + b + d + e, Instructions);
  }

  /**
   * The prompt is bounded whatever the context holds: at most two tab
   * lines, ten element lines plus the "more" line, and five event lines.
   */
  lemma PromptBounded(c: Context)
    ensures |PromptLines(c)| <= 2 + 2 + 3 + ShownElements + ShownEvents + 2
  {
    var e := Get(c.pageInfo, "elements", JArr([]));
    if e.JArr? {
      assert |ShownLines(e.items)| <= ShownElements;
    }
  }

  /** Events older than the last five never change the prompt. */
  lemma PromptIgnoresOlderEvents(c: Context, older: seq<Event>)
    requires |c.history| >= ShownEvents
    ensures Prompt(c.(history := older + c.history)) == Prompt(c)
  {
    LastNIgnoresOlder(older, c.history, ShownEvents);
  }

  // ----- the reply -----

  /**
   * The JSON text of a reply: `response[len(prompt):]`, stripped, and cut
   * just after the first "}" when it starts with "{" and has one.
   */
  function ExtractJson(response: string, prompt: string): (r: string)
    ensures var s := Strip(Drop(response, |prompt|));
      r <= s &&
      (StartsWith(s, "{") && Contains(s, "}") ==>
         |r| > 0 && r[|r| - 1] == '}' && !Contains(r[..|r| - 1], "}")) &&
      (!(StartsWith(s, "{") && Contains(s, "}")) ==> r == s)
  {
    FirstObject(Strip(Drop(response, |prompt|)))
  }

  /** The text up to and including the first "}" when it starts with "{" and has one; else all of it. */
  function FirstObject(s: string): (r: string)
    ensures r <= s
    ensures StartsWith(s, "{") && Contains(s, "}") ==>
      |r| > 0 && r[|r| - 1] == '}' && !Contains(r[..|r| - 1], "}")
    ensures !(StartsWith(s, "{") && Contains(s, "}")) ==> r == s
  {
    if StartsWith(s, "{") && Contains(s, "}") then
      var i := Find(s, "}").value;
      assert s[..i + 1][..i] == s[..i];
      PrefixBeforeFirst(s, "}", i);
      s[..i + 1]
    else
      s
  }

  /**
   * A reply that is the prompt followed by one flat JSON object (no "}"
   * inside it) and any further text ending in a visible character yields
   * exactly that object.
   */
  lemma ExtractJsonOfReply(prompt: string, body: string, rest: string)
    requires !Contains(body, "}")
    requires rest == [] || !IsSpace(rest[|rest| - 1])
    ensures ExtractJson(prompt + "{" + body + "}" + rest, prompt) == "{" + body + "}"
  {
    var reply := "{" + body + "}" + rest;
    assert prompt + "{" + body + "}" + rest == prompt + reply;
    assert Drop(prompt + reply, |prompt|) == reply;
    ReplyStripped(body, rest);
    FirstObjectOfReply(body, rest);
  }

  lemma ReplyStripped(body: string, rest: string)
    requires rest == [] || !IsSpace(rest[|rest| - 1])
    ensures Strip("{" + body + "}" + rest) == "{" + body + "}" + rest
  {
    var reply := "{" + body + "}" + rest;
    assert reply[0] == '{' && reply[|reply| - 1] == if rest == [] then '}' else rest[|rest| - 1];
    StripFixed(reply);
  }

  lemma FirstObjectOfReply(body: string, rest: string)
    requires !Contains(body, "}")
    ensures FirstObject("{" + body + "}" + rest) == "{" + body + "}"
  {
    var reply := "{" + body + "}" + rest;
    assert StartsWith(reply, "{");
    FirstBrace(body, rest);
    assert reply[..|body| + 2] == "{" + body + "}";
  }

  /** The first "}" of a flat object followed by anything is the object's own. */
  lemma FirstBrace(body: string, rest: string)
    requires !Contains(body, "}")
    ensures Find("{" + body + "}" + rest, "}") == Some(|body| + 1)
  {
    var reply := "{" + body + "}" + rest;
    assert OccursAt(reply, "}", |body| + 1);
    forall j | 0 <= j < |body| + 1
      ensures !OccursAt(reply, "}", j)
    {
      if OccursAt(reply, "}", j) {
        assert reply[j] == '}' && j >= 1 && reply[j] == body[j - 1];
        assert OccursAt(body, "}", j - 1);
      }
    }
  }

  // ----- actions -----

  /** How a click names its element: the first of element_id, selector and position that is given. */
  datatype Target = ById(id: Json) | BySelector(selector: Json) | AtPoint(position: Json)

  /** The controller call `_execute_action` makes for one action dict. */
  datatype ActionCall =
    | Navigate(url: Json)
    | Click(target: Target)
    | Fill(text: Json, target: Target)
    | GoBack
    | GoForward
    | Refresh
    | SwitchTo(index: int)
    | CreateNew(tabType: Json, url: Json)
    | CloseAt(index: int)
    | RunCommand(command: Json)
    | SendChat(message: Json, ai: Json)
    /** A known action whose required argument is missing or negative: nothing is called. */
    | NoCall
    /** An unknown action name: only a warning is logged. */
    | Unknown(actionType: string)
    /** The action raised (a non-string name, an index that cannot be compared with 0): the error is logged. */
    | Failed

  /** `action.get(key, default)`. */
  function Arg(action: map<string, Json>, key: string, default: Json): Json {
    Get(action, key, default)
  }

  /** `tab_index >= 0` on `action.get("tab_index", -1)`; a bool counts as 0 or 1. */
  function IndexArg(action: map<string, Json>): (r: Result<Option<int>, string>)
    ensures r.Ok? && r.value.Some? ==> r.value.value >= 0
    ensures Arg(action, "tab_index", JInt(-1)).JInt? ==>
      r == if Arg(action, "tab_index", JInt(-1)).i >= 0 then Ok(Some(Arg(action, "tab_index", JInt(-1)).i)) else Ok(None)
    ensures Arg(action, "tab_index", JInt(-1)).JBool? ==>
      r == Ok(Some(if Arg(action, "tab_index", JInt(-1)).b then 1 else 0))
  {
    match Arg(action, "tab_index", JInt(-1))
    case JInt(i) => Ok(if i >= 0 then Some(i) else None)
    case JBool(b) => Ok(Some(if b then 1 else 0))
    case JFloat(x) => if x >= 0.0 then Err("a float tab index reaches the tab widget") else Ok(None)
    case _ => Err("tab_index cannot be compared with 0")
  }

  /** The click branch. */
  function ClickCall(action: map<string, Json>): (r: ActionCall)
    ensures r.Click? || r == NoCall
    ensures r == NoCall <==>
      !Truthy(Arg(action, "element_id", JStr(""))) && !Truthy(Arg(action, "selector", JStr(""))) &&
      !Truthy(Arg(action, "position", JNull))
    ensures Truthy(Arg(action, "element_id", JStr(""))) ==> r == Click(ById(Arg(action, "element_id", JStr(""))))
    ensures !Truthy(Arg(action, "element_id", JStr(""))) && Truthy(Arg(action, "selector", JStr(""))) ==>
      r == Click(BySelector(Arg(action, "selector", JStr(""))))
  {
    var id := Arg(action, "element_id", JStr(""));
    var selector := Arg(action, "selector", JStr(""));
    var position := Arg(action, "position", JNull);
    if Truthy(id) then Click(ById(id))
    else if Truthy(selector) then Click(BySelector(selector))
    else if Truthy(position) then Click(AtPoint(position))
    else NoCall
  }

  /** The fill branch: text and an element are both needed; element_id wins over selector. */
  function FillCall(action: map<string, Json>): (r: ActionCall)
    ensures r.Fill? || r == NoCall
    ensures r.Fill? <==>
      Truthy(Arg(action, "text", JStr(""))) &&
      (Truthy(Arg(action, "element_id", JStr(""))) || Truthy(Arg(action, "selector", JStr(""))))
    ensures r.Fill? ==>
      r.text == Arg(action, "text", JStr("")) &&
      (r.target.ById? <==> Truthy(Arg(action, "element_id", JStr(""))))
  {
    var id := Arg(action, "element_id", JStr(""));
    var selector := Arg(action, "selector", JStr(""));
    var text := Arg(action, "text", JStr(""));
    if Truthy(text) && (Truthy(id) || Truthy(selector)) then
      if Truthy(id) then Fill(text, ById(id)) else Fill(text, BySelector(selector))
    else
      NoCall
  }

  /** The switch_tab and close_tab branches. */
  function IndexCall(action: map<string, Json>, close: bool): (r: ActionCall)
    ensures r.SwitchTo? ==> !close && r.index >= 0
    ensures r.CloseAt? ==> close && r.index >= 0
    ensures r.SwitchTo? || r.CloseAt? || r == NoCall || r == Failed
  {
    match IndexArg(action)
    case Err(_) => Failed
    case Ok(None) => NoCall
    case Ok(Some(i)) => if close then CloseAt(i) else SwitchTo(i)
  }

  /** A call that happens only when its one argument is given. */
  function IfGiven(arg: Json, call: ActionCall): ActionCall {
    if Truthy(arg) then call else NoCall
  }

  /** The call for a lower-cased action name. */
  function CallFor(name: string, args: map<string, Json>): (r: ActionCall)
    ensures r.Unknown? <==> name !in KnownActions
    ensures r.Unknown? ==> r.actionType == name
    ensures r.Navigate? ==> name == "navigate" && Truthy(r.url)
    ensures r.SwitchTo? ==> name == "switch_tab" && r.index >= 0
    ensures r.CloseAt? ==> name == "close_tab" && r.index >= 0
    ensures name == "create_tab" ==>
      r == CreateNew(Arg(args, "tab_type", JStr("browser")), Arg(args, "url", JNull))
  {
    if name == "navigate" then IfGiven(Arg(args, "url", JStr("")), Navigate(Arg(args, "url", JStr(""))))
    else if name == "click" then ClickCall(args)
    else if name == "fill" then FillCall(args)
    else if name == "back" then GoBack
    else if name == "forward" then GoForward
    else if name == "refresh" then Refresh
    else if name == "switch_tab" then IndexCall(args, false)
    else if name == "create_tab" then CreateNew(Arg(args, "tab_type", JStr("browser")), Arg(args, "url", JNull))
    else if name == "close_tab" then IndexCall(args, true)
    else if name == "terminal" then IfGiven(Arg(args, "command", JStr("")), RunCommand(Arg(args, "command", JStr(""))))
    else if name == "chat" then
      IfGiven(Arg(args, "message", JStr("")), SendChat(Arg(args, "message", JStr("")), Arg(args, "ai", JStr("Both AIs"))))
    else Unknown(name)
  }

  const KnownActions := ["navigate", "click", "fill", "back", "forward", "refresh", "switch_tab",
                         "create_tab", "close_tab", "terminal", "chat"]

  /**
   * `_execute_action`: the action name is lower-cased before dispatch; the
   * branches read only the other entries of the dict.
   */
  function ActionOf(action: map<string, Json>): (r: ActionCall)
    ensures !Arg(action, "action", JStr("")).JStr? ==> r == Failed
    ensures Arg(action, "action", JStr("")).JStr? ==>
      r == CallFor(Lower(Arg(action, "action", JStr("")).s), action - {"action"})
  {
    match Arg(action, "action", JStr(""))
    case JStr(s) => CallFor(Lower(s), action - {"action"})
    case _ => Failed
  }

  lemma LowerTwice(s: string)
    ensures Lower(Lower(s)) == Lower(s)
  {
    assert forall i :: 0 <= i < |s| ==> LowerChar(LowerChar(s[i])) == LowerChar(s[i]);
  }

  /** The action name is matched case-insensitively: lower-casing it first changes nothing. */
  lemma ActionNameCaseInsensitive(action: map<string, Json>, name: string)
    ensures ActionOf(action["action" := JStr(Lower(name))]) == ActionOf(action["action" := JStr(name)])
  {
    LowerTwice(name);
    ActionOfName(action, name);
    ActionOfName(action, Lower(name));
  }

  /** Setting the action name to `s` dispatches on `s` lower-cased with the other entries as arguments. */
  lemma ActionOfName(action: map<string, Json>, s: string)
    ensures ActionOf(action["action" := JStr(s)]) == CallFor(Lower(s), action - {"action"})
  {
    var a := action["action" := JStr(s)];
    assert Arg(a, "action", JStr("")) == JStr(s);
    assert a - {"action"} == action - {"action"};
  }

  /**
   * For string arguments the middleware picks the same click target as the
   * controller's own `click_element` does when given both.
   */
  lemma ClickAgreesWithController(action: map<string, Json>, id: string, selector: string)
    requires action == map["action" := JStr("click"), "element_id" := JStr(id), "selector" := JStr(selector)]
    ensures id != "" ==>
      ActionOf(action) == Click(ById(JStr(id))) &&
      Api.ClickTargetOf(Some(id), Some(selector), None) == Ok(Api.ById(id))
    ensures id == "" && selector != "" ==>
      ActionOf(action) == Click(BySelector(JStr(selector))) &&
      Api.ClickTargetOf(Some(id), Some(selector), None) == Ok(Api.BySelector(selector))
    ensures id == "" && selector == "" ==>
      ActionOf(action) == NoCall && Api.ClickTargetOf(Some(id), Some(selector), None).Err?
  {
    assert Lower("click") == "click";
    assert Arg(action, "action", JStr("")) == JStr("click");
    var args := action - {"action"};
    assert args == map["element_id" := JStr(id), "selector" := JStr(selector)];
    assert Arg(args, "element_id", JStr("")) == JStr(id);
    assert Arg(args, "selector", JStr("")) == JStr(selector);
    assert Arg(args, "position", JNull) == JNull;
    assert CallFor("click", args) == ClickCall(args);
    assert ActionOf(action) == ClickCall(args);
  }

  // ----- the fallback loader -----

  /** The basic configuration of the fallback loader. */
  const FallbackBase: ModelConfig.Config :=
    map[ModelConfig.TorchDtype := ModelConfig.Float16, ModelConfig.DeviceMap := ModelConfig.Text("auto")]

  /**
   * The fallback loader's keyword arguments: float16 on device_map "auto",
   * with a non-empty force_config merged over them key by key.
   */
  function FallbackLoaderConfig(force: Option<ModelConfig.Config>): (r: ModelConfig.Config)
    ensures force.Some? ==> forall k :: k in force.value ==> k in r && r[k] == force.value[k]
    ensures r.Keys == FallbackBase.Keys + (if force.Some? then force.value.Keys else {})
    ensures (force.None? || ModelConfig.TorchDtype !in force.value) ==> ModelConfig.TorchDtype in r && r[ModelConfig.TorchDtype] == ModelConfig.Float16
    ensures (force.None? || ModelConfig.DeviceMap !in force.value) ==> ModelConfig.DeviceMap in r && r[ModelConfig.DeviceMap] == ModelConfig.Text("auto")
  {
    if force.Some? && |force.value| > 0 then ModelConfig.Merge(FallbackBase, force.value) else FallbackBase
  }

  // ----- subscriptions -----

  /** The events `register_callbacks` subscribes to, in order; handler `base + k` handles event `k`. */
  const HandledEvents := ["page_info_retrieved", "element_clicked", "input_filled", "navigated",
                          "navigated_back", "navigated_forward", "page_refreshed", "tab_switched",
                          "tab_created", "tab_closed", "terminal_command_executed", "chat_message_sent"]

  /** The registry after subscribing handlers `base`, `base + 1`, ... to `events` in order. */
  function Subscribed(callbacks: map<string, seq<Controller.CallbackId>>, events: seq<string>, base: nat): map<string, seq<Controller.CallbackId>> {
    if events == [] then callbacks
    else Controller.WithCallback(Subscribed(callbacks, events[..|events| - 1], base), events[|events| - 1], base + |events| - 1)
  }

  /**
   * Subscribing distinct events adds, to each event's list, exactly the one
   * handler at that event's position, after the callbacks already there.
   */
  lemma {:induction false} SubscribedAddsOneEach(callbacks: map<string, seq<Controller.CallbackId>>, events: seq<string>, base: nat, e: string)
    requires forall i, j :: 0 <= i < j < |events| ==> events[i] != events[j]
    ensures e !in events ==> Controller.Registered(Subscribed(callbacks, events, base), e) == Controller.Registered(callbacks, e)
    ensures forall k :: 0 <= k < |events| && events[k] == e ==>
      Controller.Registered(Subscribed(callbacks, events, base), e) == Controller.Registered(callbacks, e) + [base + k]
    decreases |events|
  {
    if events != [] {
      var init := events[..|events| - 1];
      var last := events[|events| - 1];
      SubscribedAddsOneEach(callbacks, init, base, e);
      if e == last {
        assert e !in init;
      } else {
        forall k | 0 <= k < |events| && events[k] == e
          ensures k < |init| && init[k] == e
        {
        }
      }
    }
  }

  /** The loop over `elements[:10]`, then the "more" line. */
  method AppendElementLines(before: string, items: seq<Json>) returns (prompt: string)
    ensures prompt == Joined(before, ShownLines(items) + MoreLine(items))
  {
    prompt := before;
    var shown := Take(items, ShownElements);
    var i := 0;
    while i < |shown|
      invariant 0 <= i <= |shown|
      invariant prompt == Joined(before, ShownLines(items)[..i])
    {
      JoinedPrefix(before, ShownLines(items), i);
      prompt := prompt + ElementLine(i, shown[i]);
      i := i + 1;
    }
    assert ShownLines(items)[..i] == ShownLines(items);
    JoinedAppend(before, ShownLines(items), MoreLine(items));
    if |items| > ShownElements {
      JoinedPair(prompt, MoreText(|items| - ShownElements), "");
      prompt := prompt + MoreText(|items| - ShownElements);
    }
  }

  lemma EventLinesStep(events: seq<Event>, i: nat)
    requires i < |events|
    ensures EventLines(events[..i + 1]) ==
      EventLines(events[..i]) + (if EventLine(events[i]).Some? then [EventLine(events[i]).value] else [])
  {
    assert events[..i + 1][..i] == events[..i];
  }

  /** The loop over `history[-5:]`: one line for each described event. */
  method AppendEventLines(before: string, events: seq<Event>) returns (prompt: string)
    ensures prompt == Joined(before, EventLines(events))
  {
    prompt := before;
    var i := 0;
    while i < |events|
      invariant 0 <= i <= |events|
      invariant prompt == Joined(before, EventLines(events[..i]))
    {
      var line := EventLine(events[i]);
      EventLinesStep(events, i);
      if line.Some? {
        JoinedSnoc(before, EventLines(events[..i]), line.value);
        prompt := prompt + line.value;
      } else {
        assert EventLines(events[..i + 1]) == EventLines(events[..i]);
      }
      i := i + 1;
    }
    assert events[..i] == events;
  }

  class AIMiddleware {
    const controller: Controller.BrowserController
    /** The id of the handler for `HandledEvents[0]`; the others follow. */
    const handlerBase: nat
    var eventQueue: seq<Event>
    var history: seq<Event>
    var pageInfo: map<string, Json>
    var currentTab: Json
    var tabs: Json
    var modelLoaded: bool
    var running: bool

    /** The history never holds more than ten events. */
    predicate Valid()
      reads this
    {
      |history| <= MaxHistoryLength
    }

    function Snapshot(): Context
      reads this
    {
      Context(pageInfo, history, currentTab, tabs)
    }

    /** `__init__`: subscribes to the controller's events; the context and queue start empty. */
    constructor (controller: Controller.BrowserController, handlerBase: nat)
      modifies controller`callbacks
      ensures Valid() && this.controller == controller && this.handlerBase == handlerBase
      ensures eventQueue == [] && history == [] && pageInfo == map[] && currentTab == JNull && tabs == JArr([])
      ensures !modelLoaded && !running
      ensures controller.callbacks == Subscribed(old(controller.callbacks), HandledEvents, handlerBase)
    {
      this.controller := controller;
      this.handlerBase := handlerBase;
      eventQueue := [];
      history := [];
      pageInfo := map[];
      currentTab := JNull;
      tabs := JArr([]);
      modelLoaded := false;
      running := false;
      new;
      RegisterCallbacks();
    }

    /** `register_callbacks`. */
    method RegisterCallbacks()
      modifies controller`callbacks
      ensures controller.callbacks == Subscribed(old(controller.callbacks), HandledEvents, handlerBase)
    {
      var i := 0;
      while i < |HandledEvents|
        invariant 0 <= i <= |HandledEvents|
        invariant controller.callbacks == Subscribed(old(controller.callbacks), HandledEvents[..i], handlerBase)
      {
        assert HandledEvents[..i + 1][..i] == HandledEvents[..i];
        controller.RegisterCallback(HandledEvents[i], handlerBase + i);
        i := i + 1;
      }
      assert HandledEvents[..i] == HandledEvents;
    }

    /**
     * `_add_event`: the event is queued and added to the history, which is
     * then cut back to its last ten entries.
     */
    method AddEvent(eventType: string, data: Json, now: real)
      requires Valid()
      modifies this`eventQueue, this`history
      ensures Valid()
      ensures eventQueue == old(eventQueue) + [Event(eventType, data, now)]
      ensures history == LastN(old(history) + [Event(eventType, data, now)], MaxHistoryLength)
    {
      var event := Event(eventType, data, now);
      eventQueue := eventQueue + [event];
      history := history + [event];
      if |history| > MaxHistoryLength {
        history := history[|history| - MaxHistoryLength..];
      }
    }

    /** The handler `handlerBase + k`, for example `on_navigated`: adds an event named after what it handles. */
    method OnEvent(k: nat, data: Json, now: real)
      requires Valid() && k < |HandledEvents|
      modifies this`eventQueue, this`history
      ensures Valid()
      ensures eventQueue == old(eventQueue) + [Event(HandledEvents[k], data, now)]
      ensures history == LastN(old(history) + [Event(HandledEvents[k], data, now)], MaxHistoryLength)
    {
      AddEvent(HandledEvents[k], data, now);
    }

    /** `_get_events`: everything queued, in order; the queue is left empty. */
    method GetEvents() returns (events: seq<Event>)
      modifies this`eventQueue
      ensures events == old(eventQueue) && eventQueue == []
    {
      events := eventQueue;
      eventQueue := [];
    }

    /**
     * `_update_context`: the tab fields from `get_tabs_info`'s dict, the page
     * info only when the current tab is a browser page (`page` is then what
     * `get_page_info` returned).  A successful query notifies the
     * "page_info_retrieved" subscribers, and this middleware is one of them:
     * its own handler queues the response as an event at time `now`.
     */
    method UpdateContext(tabsInfo: map<string, Json>, page: Option<map<string, Json>>, now: real)
      requires Valid()
      modifies this`currentTab, this`tabs, this`pageInfo, this`eventQueue, this`history
      ensures Valid()
      ensures currentTab == Get(tabsInfo, "current_tab", JNull) && tabs == Get(tabsInfo, "tabs", JArr([]))
      ensures pageInfo == if page.Some? then page.value else old(pageInfo)
      ensures page.Some? && !Api.IsError(page.value) ==>
        eventQueue == old(eventQueue) + [Event("page_info_retrieved", JObj(page.value), now)] &&
        history == LastN(old(history) + [Event("page_info_retrieved", JObj(page.value), now)], MaxHistoryLength)
      ensures page.None? || Api.IsError(page.value) ==> eventQueue == old(eventQueue) && history == old(history)
    {
      currentTab := Get(tabsInfo, "current_tab", JNull);
      tabs := Get(tabsInfo, "tabs", JArr([]));
      if page.Some? {
        if !Api.IsError(page.value) {
          OnEvent(0, JObj(page.value), now);
        }
        pageInfo := page.value;
      }
    }

    /** `_context_to_prompt`. */
    method ContextToPrompt() returns (prompt: string)
      ensures prompt == Prompt(Snapshot())
    {
      PromptText(Snapshot());
      prompt := Header;
      prompt := AppendTab(prompt);
      prompt := AppendPage(prompt);
      prompt := AppendHistory(prompt);
      prompt := prompt + Instructions;
    }

    /** The current-tab section of `_context_to_prompt`. */
    method AppendTab(before: string) returns (prompt: string)
      ensures prompt == Joined(before, TabLines(currentTab, tabs))
    {
      prompt := before;
      if CurrentInRange(currentTab, tabs) {
        var tab := tabs.items[currentTab.i];
        var head := "Current Tab: " + Show(Field(tab, "title", JNull)) + " (Type: " + Show(Field(tab, "type", JNull)) + ")\n";
        var urlLine := "URL: " + Show(Field(tab, "url", JNull)) + "\n";
        JoinedPair(before, head, urlLine);
        prompt := prompt + head;
        if Field(tab, "type", JNull) == JStr("BROWSER") && Truthy(Field(tab, "url", JNull)) {
          prompt := prompt + urlLine;
        }
      }
    }

    /** The page section of `_context_to_prompt`. */
    method AppendPage(before: string) returns (prompt: string)
      ensures prompt == Joined(before, PageLines(pageInfo))
    {
      prompt := before;
      var title := Get(pageInfo, "title", JNull);
      var url := Get(pageInfo, "url", JNull);
      if Truthy(title) && Truthy(url) {
        var items := PageElements(pageInfo);
        JoinedPair(before, PageTitleLine(title), PageUrlLine(url));
        JoinedAppend(before, [PageTitleLine(title), PageUrlLine(url)], ElementSection(items));
        prompt := prompt + PageTitleLine(title);
        prompt := prompt + PageUrlLine(url);
        var elements := Get(pageInfo, "elements", JArr([]));
        if elements.JArr? && |elements.items| > 0 {
          JoinedAppend(prompt, [ElementsHeading], ShownLines(items) + MoreLine(items));
          JoinedPair(prompt, ElementsHeading, ElementsHeading);
          prompt := prompt + ElementsHeading;
          prompt := AppendElementLines(prompt, elements.items);
        }
      }
    }

    /** The history section of `_context_to_prompt`. */
    method AppendHistory(before: string) returns (prompt: string)
      ensures prompt == Joined(before, HistoryLines(history))
    {
      prompt := before;
      if history != [] {
        var recent := if |history| > ShownEvents then history[|history| - ShownEvents..] else history;
        assert recent == LastN(history, ShownEvents);
        JoinedAppend(before, ["\nRecent Actions:\n"], EventLines(recent));
        JoinedPair(before, "\nRecent Actions:\n", "");
        prompt := prompt + "\nRecent Actions:\n";
        prompt := AppendEventLines(prompt, recent);
      }
    }

    /**
     * `load_model`: nothing when a model is loaded already; otherwise the
     * flag follows whether the loader (r1_1776_utils, or the fallback
     * loader with `FallbackLoaderConfig`) succeeded; a failure is raised.
     */
    method LoadModel(loaderSucceeds: bool) returns (ok: bool)
      modifies this`modelLoaded
      ensures old(modelLoaded) ==> ok && modelLoaded
      ensures !old(modelLoaded) ==> ok == loaderSucceeds && modelLoaded == loaderSucceeds
    {
      if modelLoaded {
        return true;
      }
      if loaderSucceeds {
        modelLoaded := true;
      }
      ok := loaderSucceeds;
    }

    /** `unload_model`. */
    method UnloadModel()
      modifies this`modelLoaded
      ensures !modelLoaded
    {
      if modelLoaded {
        modelLoaded := false;
      }
    }

    /**
     * `start`: nothing when running already; otherwise the model is loaded
     * if need be, and the loop runs only when a model is then loaded (a
     * failed load raises before `running` is set).
     */
    method Start(loaderSucceeds: bool) returns (ok: bool)
      modifies this`modelLoaded, this`running
      ensures old(running) ==> ok && running && modelLoaded == old(modelLoaded)
      ensures !old(running) ==>
        modelLoaded == (old(modelLoaded) || loaderSucceeds) && running == modelLoaded && ok == modelLoaded
    {
      if running {
        return true;
      }
      if !modelLoaded {
        ok := LoadModel(loaderSucceeds);
        if !ok {
          return false;
        }
      }
      running := true;
      ok := true;
    }

    /** `stop`: nothing when not running. */
    method Stop()
      modifies this`running
      ensures !running
    {
      if running {
        running := false;
      }
    }
  }

  /**
   * A history kept by `AddEvent` is always the last ten events ever added,
   * so the prompt's five come from the newest ones.
   */
  lemma HistoryKeepsLatest(all: seq<Event>, e: Event)
    ensures LastN(LastN(all, MaxHistoryLength) + [e], MaxHistoryLength) == LastN(all + [e], MaxHistoryLength)
    ensures LastN(LastN(all + [e], MaxHistoryLength), ShownEvents) == LastN(all + [e], ShownEvents)
  {
    LastNAppend(all, e, MaxHistoryLength);
    LastNOfLastN(all + [e], MaxHistoryLength, ShownEvents);
  }

  /** The handler subscribed for an event queues an event of that same name. */
  lemma HandlerMatchesEvent(callbacks: map<string, seq<Controller.CallbackId>>, base: nat, k: nat)
    requires k < |HandledEvents|
    ensures Controller.Registered(Subscribed(callbacks, HandledEvents, base), HandledEvents[k]) ==
      Controller.Registered(callbacks, HandledEvents[k]) + [base + k]
  {
    SubscribedAddsOneEach(callbacks, HandledEvents, base, HandledEvents[k]);
  }
}
