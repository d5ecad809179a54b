/**
 * The note-taking tab: the word count shown in its status bar, and the
 * Markdown-like formatting its editor applies to the current line when
 * Enter is pressed (headers, bullets and `*`-delimited bold runs), with the
 * original line kept so that a click can restore it.
 */
module NotePage {
  import opened Common

  // ----- word count -----

  predicate NoSpace(w: string) { forall i :: 0 <= i < |w| ==> !IsSpace(w[i]) }

  /** Length of the run of non-space characters at the start of `s`. */
  function WordLength(s: string): (n: nat)
    ensures n <= |s|
    ensures NoSpace(s[..n])
    ensures n < |s| ==> IsSpace(s[n])
    ensures s != [] && !IsSpace(s[0]) ==> n >= 1
  {
    if s == [] || IsSpace(s[0]) then 0
    else
      var m := WordLength(s[1..]);
      assert s[..1 + m] == [s[0]] + s[1..][..m];
      1 + m
  }

  /** Python's `str.split()` with no argument: the maximal runs of non-space characters, in order. */
  function Words(s: string): (r: seq<string>)
    ensures forall k :: 0 <= k < |r| ==> r[k] != [] && NoSpace(r[k])
    decreases |s|
  {
    if s == [] then []
    else if IsSpace(s[0]) then Words(s[1..])
    else
      var n := WordLength(s);
      [s[..n]] + Words(s[n..])
  }

  /** A text has no words exactly when it is blank. */
  lemma {:induction false} WordsEmptyIffBlank(s: string)
    ensures Words(s) == [] <==> AllSpace(s)
    decreases |s|
  {
    if s != [] && IsSpace(s[0]) {
      WordsEmptyIffBlank(s[1..]);
      assert AllSpace(s) <==> AllSpace(s[1..]) by {
        assert forall i :: 0 < i < |s| ==> s[i] == s[1..][i - 1];
      }
    }
  }

  /** `len(text.split()) if text else 0`. */
  function WordCount(text: string): (n: nat)
    ensures n == 0 <==> AllSpace(text)
  {
    WordsEmptyIffBlank(text);
    if text == [] then 0 else |Words(text)|
  }

  lemma WordLengthOfWord(w: string, rest: string)
    requires NoSpace(w)
    requires rest == [] || IsSpace(rest[0])
    ensures WordLength(w + rest) == |w|
    decreases |w|
  {
    if w != [] {
      assert (w + rest)[1..] == w[1..] + rest;
      WordLengthOfWord(w[1..], rest);
    }
  }

  /** Splitting words joined by single spaces gives the words back. */
  lemma {:induction false} WordsOfJoined(ws: seq<string>)
    requires |ws| >= 1
    requires forall k :: 0 <= k < |ws| ==> ws[k] != [] && NoSpace(ws[k])
    ensures Words(Join(ws, ' ')) == ws
  {
    var w := ws[0];
    if |ws| == 1 {
      WordLengthOfWord(w, []);
      assert w + [] == w;
      assert w[|w|..] == [];
    } else {
      var rest := Join(ws[1..], ' ');
      var s := w + [' '] + rest;
      assert s == w + ([' '] + rest);
      WordLengthOfWord(w, [' '] + rest);
      assert s[..|w|] == w;
      assert s[|w|..] == [' '] + rest;
      assert ([' '] + rest)[1..] == rest;
      WordsOfJoined(ws[1..]);
      assert [w] + ws[1..] == ws;
    }
  }

  /** The note tab's status bar: the status message and the word count label. */
  class NotePage {
    var status: string
    var wordCountLabel: string

    constructor()
      ensures status == "Ready" && wordCountLabel == "Words: 0"
    {
      status := "Ready";
      wordCountLabel := "Words: 0";
    }

    /** Recounts the words of the editor's plain text, passed in as `text`. */
    method UpdateWordCount(text: string)
      modifies this`wordCountLabel
      ensures wordCountLabel == "Words: " + NatToString(WordCount(text))
    {
      var count := if text == [] then 0 else |Words(text)|;
      wordCountLabel := "Words: " + NatToString(count);
    }

    method UpdateStatus(message: string)
      modifies this`status
      ensures status == message
    {
      status := message;
    }
  }

  // ----- the bold parse -----

  /** A run of the formatted line and whether it is set in bold. */
  datatype Part = Part(text: string, bold: bool)

  /** The text with every occurrence of `c` removed. */
  function Without(s: string, c: char): (r: string)
    ensures c !in r && |r| <= |s|
  {
    if s == [] then [] else Without(s[..|s| - 1], c) + (if s[|s| - 1] == c then [] else [s[|s| - 1]])
  }

  function Concat(segments: seq<string>): string {
    if segments == [] then [] else Concat(segments[..|segments| - 1]) + segments[|segments| - 1]
  }

  function Texts(parts: seq<Part>): string {
    if parts == [] then [] else Texts(parts[..|parts| - 1]) + parts[|parts| - 1].text
  }

  /**
   * The runs of a line split at its `*`s: segment `j` becomes a part when it
   * is not empty, in bold when `j` is odd.
   */
  function Pieces(segments: seq<string>): (r: seq<Part>)
    ensures forall k :: 0 <= k < |r| ==> r[k].text != []
    ensures |r| <= |segments|
  {
    if segments == [] then []
    else
      var n := |segments| - 1;
      Pieces(segments[..n]) + (if segments[n] == [] then [] else [Part(segments[n], n % 2 == 1)])
  }

  /** The parts `format_bold` inserts for a line. */
  function BoldParts(text: string): seq<Part> {
    Pieces(Split(text, '*'))
  }

  /** Extends the last segment of a split by `c`. */
  function ExtendLast(p: seq<string>, c: char): seq<string>
    requires |p| >= 1
  {
    p[..|p| - 1] + [p[|p| - 1] + [c]]
  }

  /** Prepending a character that is no separator extends the first segment. */
  function ExtendFirst(a: char, p: seq<string>): seq<string>
    requires |p| >= 1
  {
    [[a] + p[0]] + p[1..]
  }

  lemma ExtendFirstNewSegment(a: char, p: seq<string>)
    requires |p| >= 1
    ensures ExtendFirst(a, p + [""]) == ExtendFirst(a, p) + [""]
  {
    assert (p + [""])[1..] == p[1..] + [""];
  }

  lemma ExtendFirstLast(a: char, p: seq<string>, c: char)
    requires |p| >= 1
    ensures ExtendFirst(a, ExtendLast(p, c)) == ExtendLast(ExtendFirst(a, p), c)
  {
    var m := |p| - 1;
    if m == 0 {
      assert [a] + (p[0] + [c]) == ([a] + p[0]) + [c];
    } else {
      var q := ExtendLast(p, c);
      assert q[0] == p[0] && q[1..] == p[1..m] + [p[m] + [c]];
      var e := ExtendFirst(a, p);
      assert e[..|e| - 1] == [[a] + p[0]] + p[1..m];
    }
  }

  lemma NewFirstLast(p: seq<string>, c: char)
    requires |p| >= 1
    ensures [""] + ExtendLast(p, c) == ExtendLast([""] + p, c)
  {
    assert ([""] + p)[..|p|] == [""] + p[..|p| - 1];
  }

  /** Appending one character to a text adds an empty segment to its split, or extends the last one. */
  lemma {:induction false} SplitSnoc(s: string, c: char, sep: char)
    ensures Split(s + [c], sep) == if c == sep then Split(s, sep) + [""] else ExtendLast(Split(s, sep), c)
    decreases |s|
  {
    if s != [] {
      var a, s' := s[0], s[1..];
      assert (s + [c])[1..] == s' + [c];
      SplitSnoc(s', c, sep);
      var p' := Split(s', sep);
      if a == sep && c == sep {
        assert [""] + (p' + [""]) == ([""] + p') + [""];
      } else if a == sep {
        NewFirstLast(p', c);
      } else if c == sep {
        ExtendFirstNewSegment(a, p');
      } else {
        ExtendFirstLast(a, p', c);
      }
    } else {
      assert [c][1..] == [];
      assert [c] + "" == "" + [c];
    }
  }

  lemma {:induction false} ConcatSplit(s: string, sep: char)
    ensures Concat(Split(s, sep)) == Without(s, sep)
    decreases |s|
  {
    if s != [] {
      var init := s[..|s| - 1];
      var c := s[|s| - 1];
      assert s == init + [c];
      SplitSnoc(init, c, sep);
      ConcatSplit(init, sep);
      var p := Split(init, sep);
      if c == sep {
        assert (p + [""])[..|p|] == p;
      } else {
        var q := p[..|p| - 1] + [p[|p| - 1] + [c]];
        assert q[..|q| - 1] == p[..|p| - 1];
        assert Concat(p) == Concat(p[..|p| - 1]) + p[|p| - 1];
      }
    }
  }

  lemma {:induction false} TextsOfPieces(segments: seq<string>)
    ensures Texts(Pieces(segments)) == Concat(segments)
  {
    if segments != [] {
      var n := |segments| - 1;
      TextsOfPieces(segments[..n]);
      var before := Pieces(segments[..n]);
      if segments[n] != [] {
        var r := before + [Part(segments[n], n % 2 == 1)];
        assert r[..|r| - 1] == before;
      } else {
        assert before + [] == before;
      }
    }
  }

  /** The parts together spell the line with its `*`s removed. */
  lemma BoldPartsSpellText(text: string)
    ensures Texts(BoldParts(text)) == Without(text, '*')
  {
    TextsOfPieces(Split(text, '*'));
    ConcatSplit(text, '*');
  }

  /** Where segment `j` of a split starts in the text. */
  function SegmentStart(s: string, sep: char, j: nat): (p: nat)
    requires j < |Split(s, sep)|
    ensures p <= |s|
    decreases |s|
  {
    if s == [] || j == 0 then 0
    else if s[0] == sep then 1 + SegmentStart(s[1..], sep, j - 1)
    else 1 + SegmentStart(s[1..], sep, j)
  }

  /** Segment `j` of a split sits at `SegmentStart` with exactly `j` separators before it. */
  predicate SitsAt(s: string, sep: char, w: string, p: nat, j: nat) {
    p + |w| <= |s| && s[p..p + |w|] == w && CountChar(s[..p], sep) == j
  }

  lemma {:induction false} SegmentAt(s: string, sep: char, j: nat)
    requires j < |Split(s, sep)|
    ensures SitsAt(s, sep, Split(s, sep)[j], SegmentStart(s, sep, j), j)
    decreases |s|
  {
    if s != [] {
      var rest := Split(s[1..], sep);
      if s[0] == sep && j > 0 {
        var p' := SegmentStart(s[1..], sep, j - 1);
        assert SegmentStart(s, sep, j) == 1 + p' && Split(s, sep)[j] == rest[j - 1];
        SegmentAt(s[1..], sep, j - 1);
        ShiftSegment(s, sep, p', rest[j - 1], j - 1);
      } else if s[0] != sep {
        var p' := SegmentStart(s[1..], sep, j);
        SegmentAt(s[1..], sep, j);
        if j == 0 {
          assert SegmentStart(s, sep, j) == 0 && Split(s, sep)[0] == [s[0]] + rest[0];
          assert s[..1 + |rest[0]|] == [s[0]] + s[1..][..|rest[0]|];
        } else {
          assert SegmentStart(s, sep, j) == 1 + p' && Split(s, sep)[j] == rest[j];
          ShiftSegment(s, sep, p', rest[j], j);
        }
      } else {
        assert SegmentStart(s, sep, j) == 0 && Split(s, sep)[0] == "";
      }
    }
  }

  /** A segment found at `p` in the tail of `s` sits at `1 + p` in `s`, after one more character. */
  lemma ShiftSegment(s: string, sep: char, p: nat, w: string, j: nat)
    requires s != [] && SitsAt(s[1..], sep, w, p, j)
    ensures SitsAt(s, sep, w, 1 + p, j + if s[0] == sep then 1 else 0)
  {
    assert s[..1 + p][1..] == s[1..][..p];
    assert s[1 + p..1 + p + |w|] == s[1..][p..p + |w|];
  }

  /** Each part is a non-empty segment `j`, bold exactly when `j` is odd. */
  lemma {:induction false} PieceOrigin(segments: seq<string>, k: nat) returns (j: nat)
    requires k < |Pieces(segments)|
    ensures j < |segments| && Pieces(segments)[k] == Part(segments[j], j % 2 == 1)
  {
    var n := |segments| - 1;
    if k < |Pieces(segments[..n])| {
      j := PieceOrigin(segments[..n], k);
    } else {
      j := n;
    }
  }

  /** A part of the bold parse occurs in the line, and is bold exactly when an odd number of `*`s precede it. */
  lemma BoldIffOddStarsBefore(text: string, k: nat) returns (p: nat)
    requires k < |BoldParts(text)|
    ensures var part := BoldParts(text)[k];
      p + |part.text| <= |text| && text[p..p + |part.text|] == part.text
      && (part.bold <==> CountChar(text[..p], '*') % 2 == 1)
  {
    var j := PieceOrigin(Split(text, '*'), k);
    SegmentAt(text, '*', j);
    p := SegmentStart(text, '*', j);
  }

  /**
   * After reading `prefix`: the finished parts, the run being collected and
   * whether it is bold agree with the split of `prefix` at its `*`s.
   */
  predicate ParsedSoFar(prefix: string, parts: seq<Part>, current: string, isBold: bool) {
    var segs := Split(prefix, '*');
    current == segs[|segs| - 1] && isBold == ((|segs| - 1) % 2 == 1)
    && parts == Pieces(segs[..|segs| - 1])
  }

  lemma StarStep(prefix: string, parts: seq<Part>, current: string, isBold: bool)
    requires ParsedSoFar(prefix, parts, current, isBold)
    ensures ParsedSoFar(prefix + ['*'], parts + (if current != [] then [Part(current, isBold)] else []), "", !isBold)
  {
    SplitSnoc(prefix, '*', '*');
    var segs := Split(prefix, '*');
    assert (segs + [""])[..|segs|] == segs;
  }

  lemma CharStep(prefix: string, c: char, parts: seq<Part>, current: string, isBold: bool)
    requires c != '*' && ParsedSoFar(prefix, parts, current, isBold)
    ensures ParsedSoFar(prefix + [c], parts, current + [c], isBold)
  {
    SplitSnoc(prefix, c, '*');
    var segs := Split(prefix, '*');
    var next := segs[..|segs| - 1] + [current + [c]];
    assert next[..|next| - 1] == segs[..|segs| - 1];
  }

  lemma ParsedAll(text: string, parts: seq<Part>, current: string, isBold: bool)
    requires ParsedSoFar(text, parts, current, isBold)
    ensures parts + (if current != [] then [Part(current, isBold)] else []) == BoldParts(text)
  {
  }

  /** The `for char in text` loop of `format_bold`. */
  method ParseBold(text: string) returns (parts: seq<Part>)
    ensures parts == BoldParts(text)
  {
    parts := [];
    var isBold := false;
    var current := "";
    var i := 0;
    while i < |text|
      invariant 0 <= i <= |text|
      invariant ParsedSoFar(text[..i], parts, current, isBold)
    {
      assert text[..i + 1] == text[..i] + [text[i]];
      if text[i] == '*' {
        StarStep(text[..i], parts, current, isBold);
        if current != [] {
          parts := parts + [Part(current, isBold)];
          current := "";
        }
        isBold := !isBold;
      } else {
        CharStep(text[..i], text[i], parts, current, isBold);
        current := current + [text[i]];
      }
      i := i + 1;
    }
    assert text[..i] == text;
    ParsedAll(text, parts, current, isBold);
    if current != [] {
      parts := parts + [Part(current, isBold)];
    }
  }

  // ----- classifying a line -----

  /** What pressing Enter does to the current line. */
  datatype Formatting =
    | Heading(level: nat, text: string, pointSize: nat)
    | ListItem(text: string)
    | BoldRuns(parts: seq<Part>)
    | Unformatted

  /** `format_header`'s font sizes. */
  function HeaderSize(level: nat): nat {
    if level == 1 then 18 else if level == 2 then 16 else 14
  }

  /** The stripped line's first matching rule, in `apply_markdown_formatting`'s order. */
  function Classify(line: string): (f: Formatting)
    ensures f.Heading? ==> 1 <= f.level <= 3 && f.pointSize == HeaderSize(f.level)
    ensures f.BoldRuns? ==>
      CountChar(Strip(line), '*') >= 2 && Texts(f.parts) == Without(Strip(line), '*')
  {
    var t := Strip(line);
    if StartsWith(t, "# ") then Heading(1, t[2..], HeaderSize(1))
    else if StartsWith(t, "## ") then Heading(2, t[3..], HeaderSize(2))
    else if StartsWith(t, "### ") then Heading(3, t[4..], HeaderSize(3))
    else if StartsWith(t, "- ") then ListItem("• " + t[2..])
    else if CountChar(t, '*') >= 2 then BoldPartsSpellText(t); BoldRuns(BoldParts(t))
    else Unformatted
  }

  /** The status bar message after formatting. */
  function StatusMessage(f: Formatting): string {
    match f
    case Heading(level, _, _) =>
      if level == 1 then "Header 1 formatted" else if level == 2 then "Header 2 formatted" else "Header 3 formatted"
    case ListItem(_) => "List item formatted"
    case BoldRuns(_) => "Bold text formatted"
    case Unformatted => "Ready"
  }

  /** The marker that opens a header of the given level. */
  function HeaderMarker(level: nat): string {
    if level == 1 then "# " else if level == 2 then "## " else "### "
  }

  /** A header written as its marker and a text is recognised with that level and size. */
  lemma HeadingRecognised(level: nat, body: string)
    requires 1 <= level <= 3
    requires body != [] && !IsSpace(body[|body| - 1])
    ensures Classify(HeaderMarker(level) + body) == Heading(level, body, HeaderSize(level))
  {
    var line := HeaderMarker(level) + body;
    StripFixed(line);
    assert Strip(line) == line;
    if level == 1 {
      assert line[..2] == "# " && line[2..] == body;
      assert StartsWith(line, "# ");
    } else if level == 2 {
      assert line[1] == '#';
      assert !StartsWith(line, "# ");
      assert line[..3] == "## " && line[3..] == body;
      assert StartsWith(line, "## ");
    } else {
      assert line[1] == '#' && line[2] == '#';
      assert !StartsWith(line, "# ") && !StartsWith(line, "## ");
      assert line[..4] == "### " && line[4..] == body;
      assert StartsWith(line, "### ");
    }
  }

  /** A bullet written as `- ` and its text becomes that text after a bullet sign. */
  lemma BulletRecognised(body: string)
    requires body != [] && !IsSpace(body[|body| - 1])
    ensures Classify("- " + body) == ListItem("• " + body)
  {
    var line := "- " + body;
    StripFixed(line);
    assert line[2..] == body;
  }

  /** A header marker with no text after it is left unformatted: the strip removes the space the rule needs. */
  lemma BareHeaderMarkerUnformatted()
    ensures Classify("# ") == Unformatted
  {
    assert IsStripOf("# ", "#", 0);
    StripFixed("#");
    assert CountChar("#", '*') == 0;
  }

  /** Likewise a bullet marker with no text after it. */
  lemma BareBulletMarkerUnformatted()
    ensures Classify("- ") == Unformatted
  {
    assert IsStripOf("- ", "-", 0);
    StripFixed("-");
    assert CountChar("-", '*') == 0;
  }

  /** Formatting looks only at the stripped line. */
  lemma ClassifyIgnoresSurroundingSpace(line: string)
    ensures Classify(Strip(line)) == Classify(line)
    ensures Strip(Strip(line)) == Strip(line)
  {
    StripFixed(Strip(line));
  }

  /** The editor of the note tab, with the original text of each formatted line by block position. */
  class MarkdownTextEdit {
    const notepage: NotePage
    var editingBlock: bool
    var originalText: map<nat, string>

    /** Every remembered line is already stripped. */
    predicate Valid()
      reads this
    {
      forall p :: p in originalText ==> Strip(originalText[p]) == originalText[p]
    }

    constructor(notepage: NotePage)
      ensures this.notepage == notepage && !editingBlock && originalText == map[]
      ensures Valid()
    {
      this.notepage := notepage;
      editingBlock := false;
      originalText := map[];
    }

    /** Enter on the block at `position` whose text is `blockText`; the formatting applied, if any. */
    method ApplyMarkdownFormatting(position: nat, blockText: string) returns (f: Option<Formatting>)
      requires Valid()
      modifies this`editingBlock, this`originalText, notepage`status
      ensures Valid()
      ensures editingBlock == old(editingBlock)
      ensures old(editingBlock) ==>
        f.None? && originalText == old(originalText) && notepage.status == old(notepage.status)
      ensures !old(editingBlock) ==>
        f == Some(Classify(blockText))
        && originalText == old(originalText)[position := Strip(blockText)]
        && notepage.status == StatusMessage(f.value)
    {
      if editingBlock {
        return None;
      }
      var t := Strip(blockText);
      StripFixed(t);
      originalText := originalText[position := t];
      var g: Formatting;
      if StartsWith(t, "# ") {
        editingBlock := true;
        g := Heading(1, t[2..], HeaderSize(1));
        editingBlock := false;
      } else if StartsWith(t, "## ") {
        editingBlock := true;
        g := Heading(2, t[3..], HeaderSize(2));
        editingBlock := false;
      } else if StartsWith(t, "### ") {
        editingBlock := true;
        g := Heading(3, t[4..], HeaderSize(3));
        editingBlock := false;
      } else if StartsWith(t, "- ") {
        editingBlock := true;
        g := ListItem("• " + t[2..]);
        editingBlock := false;
      } else if CountChar(t, '*') >= 2 {
        editingBlock := true;
        var parts := ParseBold(t);
        g := BoldRuns(parts);
        editingBlock := false;
      } else {
        g := Unformatted;
      }
      notepage.UpdateStatus(StatusMessage(g));
      f := Some(g);
    }

    /** A click on the block at `position`: the remembered original text it is reverted to, if any. */
    method RevertOnClick(position: nat) returns (restored: Option<string>)
      modifies this`editingBlock
      ensures restored == if position in originalText then Some(originalText[position]) else None
      ensures editingBlock == if position in originalText then false else old(editingBlock)
    {
      restored := None;
      if position in originalText {
        editingBlock := true;
        restored := Some(originalText[position]);
        editingBlock := false;
      }
    }
  }
}
