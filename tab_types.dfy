/** The kinds of tab the browser window hosts (selenium_qt_browser/tab_types.py). */
module TabTypes {
  import opened Common

  datatype TabType = Browser | Chat | Terminal | NotePage | NotePageExc | ResourceMonitor | AiBrowser

  /** `TabType.name`, the text stored in session files and reported by the controller. */
  function Name(t: TabType): string {
    match t
    case Browser => "BROWSER"
    case Chat => "CHAT"
    case Terminal => "TERMINAL"
    case NotePage => "NOTEPAGE"
    case NotePageExc => "NOTEPAGE_EXC"
    case ResourceMonitor => "RESOURCE_MONITOR"
    case AiBrowser => "AI_BROWSER"
  }

  /** The inverse of `Name`: `TabType[name]`, or nothing for text that names no member. */
  function FromName(s: string): (r: Option<TabType>)
    ensures r.Some? ==> Name(r.value) == s
  {
    if s == "BROWSER" then Some(Browser)
    else if s == "CHAT" then Some(Chat)
    else if s == "TERMINAL" then Some(Terminal)
    else if s == "NOTEPAGE" then Some(NotePage)
    else if s == "NOTEPAGE_EXC" then Some(NotePageExc)
    else if s == "RESOURCE_MONITOR" then Some(ResourceMonitor)
    else if s == "AI_BROWSER" then Some(AiBrowser)
    else None
  }

  /** Names are distinct, so a stored name identifies its type. */
  lemma NameRoundTrip(t: TabType)
    ensures FromName(Name(t)) == Some(t)
  {
  }
}
