/** The reader of pipe-delimited data tables: one pass over the text, calling back once for each line that holds
    data. */
module ScrTable {

  predicate IsBreak(c: char) {
    c == '\n' || c == '\r'
  }

  predicate IsSpace(c: char) {
    c == ' ' || c == '\t'
  }

  // ---- What a text means -----------------------------------------------------------------------------------

  function TrimLeft(s: string): string {
    if s != "" && IsSpace(s[0]) then TrimLeft(s[1..]) else s
  }

  function TrimRight(s: string): string {
    if s != "" && IsSpace(s[|s| - 1]) then TrimRight(s[..|s| - 1]) else s
  }

  function Trim(s: string): string {
    TrimRight(TrimLeft(s))
  }

  function TrimAll(cells: seq<string>): (tokens: seq<string>)
    ensures |tokens| == |cells|
  {
    seq(|cells|, i requires 0 <= i < |cells| => Trim(cells[i]))
  }

  /** Where the first of the characters `stop` accepts is, or the end. */
  function Find(s: string, stop: char -> bool): (at: nat)
    ensures at <= |s| && (at < |s| ==> stop(s[at])) && forall i | 0 <= i < at :: !stop(s[i])
  {
    if s == "" || stop(s[0]) then 0 else 1 + Find(s[1..], stop)
  }

  function Split(line: string): seq<string>
    decreases |line|
  {
    var p := Find(line, c => c == '|');
    if p == |line| then [line] else [line[..p]] + Split(line[p + 1..])
  }

  /** Drops the empty tokens at the end. */
  function Strip(tokens: seq<string>): (kept: seq<string>)
    ensures |kept| <= |tokens| && kept == tokens[..|kept|]
  {
    if tokens != [] && tokens[|tokens| - 1] == "" then Strip(tokens[..|tokens| - 1]) else tokens
  }

  function RowOf(line: string): seq<string> {
    Strip(TrimAll(Split(line)))
  }

  function IfAny(row: seq<string>): (rows: seq<seq<string>>)
    ensures |rows| == if row == [] then 0 else 1
  {
    if row == [] then [] else [row]
  }

  /** The text after its first line break; a carriage return and line feed count as one. */
  function AfterBreak(s: string): string
    requires s != ""
  {
    if |s| > 1 && s[0] == '\r' && s[1] == '\n' then s[2..] else s[1..]
  }

  /** The rows of a text: its lines' tokens, without the lines that have none. */
  function Rows(text: string): seq<seq<string>>
    decreases |text|
  {
    if text == "" then []
    else
      var e := Find(text, IsBreak);
      IfAny(RowOf(text[..e])) + if e == |text| then [] else Rows(AfterBreak(text[e..]))
  }

  // ---- The one pass ---------------------------------------------------------------------------------------------

  method MakeToken(text: string, start: nat, end: nat) returns (token: string)
    requires start <= end <= |text|
    ensures token == Trim(text[start..end])
  {
    var s, e := start, end;
    while s < e && IsSpace(text[s])
      invariant start <= s <= e
      invariant TrimLeft(text[start..e]) == TrimLeft(text[s..e])
    {
      assert text[s..e][1..] == text[s + 1..e];
      s := s + 1;
    }
    while e > s && IsSpace(text[e - 1])
      invariant s <= e <= end
      invariant TrimRight(text[s..end]) == TrimRight(text[s..e])
    {
      assert text[s..e][..e - s - 1] == text[s..e - 1];
      e := e - 1;
    }
    token := text[s..e];
  }

  lemma StripAppend(tokens: seq<string>, token: string)
    ensures Strip(tokens + [token]) == if token == "" then Strip(tokens) else tokens + [token]
  {
    assert (tokens + [token])[..|tokens|] == tokens;
  }

  lemma FindIs(s: string, stop: char -> bool, at: nat)
    requires at <= |s| && (at < |s| ==> stop(s[at])) && forall i | 0 <= i < at :: !stop(s[i])
    ensures Find(s, stop) == at
  {
  }

  lemma {:induction false} SpacesTrim(s: string)
    requires forall i | 0 <= i < |s| :: IsSpace(s[i])
    ensures TrimLeft(s) == "" && Trim(s) == ""
  {
    if s != "" {
      SpacesTrim(s[1..]);
    }
  }

  lemma BlankHasNoRow(line: string)
    requires forall i | 0 <= i < |line| :: IsSpace(line[i])
    ensures RowOf(line) == []
  {
    FindIs(line, c => c == '|', |line|);
    SpacesTrim(line);
    assert TrimAll([line]) == [""];
    StripAppend([], "");
    assert [] + [""] == [""];
  }

  lemma SplitAt(text: string, from: nat, p: nat, end: nat)
    requires from <= p < end <= |text| && text[p] == '|' && forall i | from <= i < p :: text[i] != '|'
    ensures TrimAll(Split(text[from..end])) == [Trim(text[from..p])] + TrimAll(Split(text[p + 1..end]))
  {
    hide Trim, Find;
    var line := text[from..end];
    FindIs(line, c => c == '|', p - from);
    assert line[..p - from] == text[from..p];
    assert line[p - from + 1..] == text[p + 1..end];
    TrimFirst(text[from..p], Split(text[p + 1..end]));
  }

  lemma TrimFirst(cell: string, cells: seq<string>)
    ensures TrimAll([cell] + cells) == [Trim(cell)] + TrimAll(cells)
  {
  }

  lemma SplitLast(cell: string)
    requires forall i | 0 <= i < |cell| :: cell[i] != '|'
    ensures TrimAll(Split(cell)) == [Trim(cell)]
  {
    FindIs(cell, c => c == '|', |cell|);
  }

  /** Reads one line from `start`: its tokens without trailing empty ones, and where it ends. */
  method ReadLine(text: string, start: nat) returns (tokens: seq<string>, i: nat)
    requires start <= |text|
    ensures start <= i <= |text| && i == start + Find(text[start..], IsBreak)
    ensures tokens == RowOf(text[start..i])
  {
    hide Split, Strip, TrimAll, Trim, Find;
    ghost var end := start + Find(text[start..], IsBreak);
    tokens, i := [], start;
    var tokenStart, lastNonEmptyLen, hasContent := start, 0, false;
    assert [] + TrimAll(Split(text[start..end])) == TrimAll(Split(text[start..end]));
    while i < |text| && !IsBreak(text[i])
      invariant start <= tokenStart <= i <= end
      invariant forall k | tokenStart <= k < i :: text[k] != '|'
      invariant TrimAll(Split(text[start..end])) == tokens + TrimAll(Split(text[tokenStart..end]))
      invariant lastNonEmptyLen == |Strip(tokens)|
      invariant !hasContent ==> tokens == [] && forall k | start <= k < i :: IsSpace(text[k])
    {
      assert text[i] == text[start..][i - start];
      if text[i] == '|' {
        var token := MakeToken(text, tokenStart, i);
        SplitAt(text, tokenStart, i, end);
        StripAppend(tokens, token);
        tokens := tokens + [token];
        if token != "" {
          lastNonEmptyLen := |tokens|;
        }
        hasContent := true;
        tokenStart := i + 1;
      } else if !IsSpace(text[i]) {
        hasContent := true;
      }
      i := i + 1;
    }
    if hasContent {
      var trailing := MakeToken(text, tokenStart, i);
      SplitLast(text[tokenStart..end]);
      StripAppend(tokens, trailing);
      tokens := tokens + [trailing];
      if trailing != "" {
        lastNonEmptyLen := |tokens|;
      }
      tokens := tokens[..lastNonEmptyLen];
    } else {
      BlankHasNoRow(text[start..end]);
    }
  }

  lemma RowsFrom(text: string, i: nat, e: nat)
    requires i < |text| && e == i + Find(text[i..], IsBreak)
    ensures Rows(text[i..]) == IfAny(RowOf(text[i..e])) + if e == |text| then [] else Rows(AfterBreak(text[e..]))
  {
    hide RowOf, Find, IfAny;
    var s, p := text[i..], e - i;
    assert s[..p] == text[i..e];
    assert s[p..] == text[e..];
  }

  /** Rows with their indices. */
  function Numbered(rows: seq<seq<string>>): (calls: seq<(nat, seq<string>)>)
    ensures |calls| == |rows|
  {
    seq(|rows|, k requires 0 <= k < |rows| => (k, rows[k]))
  }

  lemma NumberedAppend(rows: seq<seq<string>>, row: seq<string>)
    ensures Numbered(rows + IfAny(row)) == if row == [] then Numbered(rows) else Numbered(rows) + [(|rows|, row)]
  {
    if row == [] {
      assert rows + IfAny(row) == rows;
    }
  }

  /** The position after the line break at `e`. */
  method SkipBreak(text: string, e: nat) returns (next: nat)
    requires e < |text|
    ensures e < next <= |text| && text[next..] == AfterBreak(text[e..])
  {
    next := if text[e] == '\r' && e + 1 < |text| && text[e + 1] == '\n' then e + 2 else e + 1;
  }

  /** The rows of a text are those read so far, then those of the rest. */
  predicate RowsSoFar(text: string, done: seq<seq<string>>, i: nat)
    requires i <= |text|
  {
    done + Rows(text[i..]) == Rows(text)
  }

  lemma NothingRead(text: string)
    ensures RowsSoFar(text, [], 0) && Numbered([]) == []
  {
    assert text[0..] == text && [] + Rows(text) == Rows(text);
  }

  lemma LineRead(text: string, i: nat, e: nat, next: nat, done: seq<seq<string>>)
    requires i < |text| && e == i + Find(text[i..], IsBreak) && next <= |text| && RowsSoFar(text, done, i)
    requires if e == |text| then next == e else text[next..] == AfterBreak(text[e..])
    ensures RowsSoFar(text, done + IfAny(RowOf(text[i..e])), next)
  {
    RowsFrom(text, i, e);
    NoRowsLeft(text);
    hide RowOf, Find, IfAny, AfterBreak, Rows;
    Associates(done, IfAny(RowOf(text[i..e])), Rows(text[next..]));
  }

  lemma NoRowsLeft(text: string)
    ensures text[|text|..] == "" && Rows("") == []
  {
  }

  lemma Associates(a: seq<seq<string>>, b: seq<seq<string>>, c: seq<seq<string>>)
    ensures a + (b + c) == (a + b) + c
  {
  }

  lemma AllRead(text: string, done: seq<seq<string>>)
    requires RowsSoFar(text, done, |text|)
    ensures done == Rows(text)
  {
    assert text[|text|..] == "" && done + [] == done;
  }

  /** The calls made, in order: the index of the row and its tokens. */
  method Parse(text: string) returns (calls: seq<(nat, seq<string>)>)
    ensures calls == Numbered(Rows(text))
  {
    hide RowOf, Rows, Find, Numbered, AfterBreak, IfAny, RowsSoFar;
    calls := [];
    var i, lineIndex := 0, 0;
    ghost var done: seq<seq<string>> := [];
    NothingRead(text);
    while i < |text|
      invariant i <= |text| && lineIndex == |done|
      invariant RowsSoFar(text, done, i)
      invariant calls == Numbered(done)
    {
      var tokens, e := ReadLine(text, i);
      var next := e;
      if e < |text| {
        next := SkipBreak(text, e);
      }
      LineRead(text, i, e, next, done);
      NumberedAppend(done, tokens);
      if tokens != [] {
        calls := calls + [(lineIndex, tokens)];
        lineIndex := lineIndex + 1;
      }
      done := done + IfAny(tokens);
      i := next;
    }
    AllRead(text, done);
  }

  // ---- Round trip -------------------------------------------------------------------------------------------

  /** Text that can stand between pipes on one line. */
  predicate Plain(cell: string) {
    forall i | 0 <= i < |cell| :: cell[i] != '|' && !IsBreak(cell[i])
  }

  function Joined(cells: seq<string>): string
    requires cells != []
  {
    if |cells| == 1 then cells[0] else cells[0] + "|" + Joined(cells[1..])
  }

  lemma {:induction false} SplitJoined(cells: seq<string>)
    requires cells != [] && forall i | 0 <= i < |cells| :: Plain(cells[i])
    ensures Split(Joined(cells)) == cells
    ensures forall i | 0 <= i < |Joined(cells)| :: !IsBreak(Joined(cells)[i])
    decreases |cells|
  {
    hide Split, IsBreak;
    assert Plain(cells[0]);
    PlainHasNoBreak(cells[0]);
    if |cells| == 1 {
      SplitWhole(cells[0]);
      assert cells == [cells[0]];
    } else {
      var rest := cells[1..];
      assert forall i | 0 <= i < |rest| :: rest[i] == cells[i + 1];
      SplitJoined(rest);
      SplitFirst(cells[0], Joined(rest));
      assert cells == [cells[0]] + rest;
      NoBreaksBetween(cells[0], Joined(rest));
    }
  }

  lemma PlainHasNoBreak(cell: string)
    requires Plain(cell)
    ensures !IsBreak('|') && forall i | 0 <= i < |cell| :: !IsBreak(cell[i])
  {
  }

  lemma NoBreaksBetween(cell: string, rest: string)
    requires !IsBreak('|') && forall i | 0 <= i < |cell| :: !IsBreak(cell[i])
    requires forall i | 0 <= i < |rest| :: !IsBreak(rest[i])
    ensures forall i | 0 <= i < |cell + "|" + rest| :: !IsBreak((cell + "|" + rest)[i])
  {
    hide IsBreak;
  }

  lemma SplitWhole(line: string)
    requires Plain(line)
    ensures Split(line) == [line]
  {
    FindIs(line, c => c == '|', |line|);
  }

  lemma SplitFirst(cell: string, rest: string)
    requires Plain(cell)
    ensures Split(cell + "|" + rest) == [cell] + Split(rest)
  {
    var line := cell + "|" + rest;
    FindIs(line, c => c == '|', |cell|);
    assert line[..|cell|] == cell && line[|cell| + 1..] == rest;
  }

  datatype Ending = Lf | Cr | CrLf

  function Break(e: Ending): string {
    match e
    case Lf => "\n"
    case Cr => "\r"
    case CrLf => "\r\n"
  }

  datatype Line = Line(cells: seq<string>, ending: Ending)

  predicate WellFormed(cells: seq<string>) {
    cells != [] && forall i | 0 <= i < |cells| :: Plain(cells[i])
  }

  /** A document: its terminated lines and what follows the last line break. */
  function Render(lines: seq<Line>, last: seq<string>): string
    requires WellFormed(last) && forall i | 0 <= i < |lines| :: WellFormed(lines[i].cells)
    decreases |lines|
  {
    if lines == [] then Joined(last)
    else
      assert WellFormed(lines[0].cells);
      Joined(lines[0].cells) + Break(lines[0].ending) + Render(lines[1..], last)
  }

  function Meaning(lines: seq<Line>, last: seq<string>): seq<seq<string>>
    decreases |lines|
  {
    if lines == [] then IfAny(Strip(TrimAll(last)))
    else IfAny(Strip(TrimAll(lines[0].cells))) + Meaning(lines[1..], last)
  }

  lemma RowsAt(text: string, p: nat)
    requires text != "" && p <= |text| && (p < |text| ==> IsBreak(text[p]))
             && forall i | 0 <= i < p :: !IsBreak(text[i])
    ensures Rows(text) == IfAny(RowOf(text[..p])) + if p == |text| then [] else Rows(AfterBreak(text[p..]))
  {
    FindIs(text, IsBreak, p);
    hide RowOf, Find, IfAny, AfterBreak;
  }

  lemma RowsOfOneLine(line: string)
    requires forall i | 0 <= i < |line| :: !IsBreak(line[i])
    ensures Rows(line) == IfAny(RowOf(line))
  {
    if line == "" {
      BlankHasNoRow(line);
    } else {
      RowsAt(line, |line|);
      assert line[..|line|] == line;
    }
  }

  /** A line feed at the start of a text is one more blank line. */
  lemma LineFeedAddsNothing(rest: string)
    ensures Rows("\n" + rest) == Rows(rest)
  {
    hide Rows, RowOf;
    var text := "\n" + rest;
    RowsAt(text, 0);
    BlankHasNoRow("");
    assert text[..0] == "" && text[0..] == text && text[1..] == rest;
    assert [] + Rows(rest) == Rows(rest);
  }

  lemma RowsOfFirstLine(line: string, ending: Ending, rest: string)
    requires forall i | 0 <= i < |line| :: !IsBreak(line[i])
    ensures Rows(line + Break(ending) + rest) == IfAny(RowOf(line)) + Rows(rest)
  {
    hide Rows, RowOf, IfAny;
    var text := line + Break(ending) + rest;
    RowsAt(text, |line|);
    var tail := text[|line|..];
    assert text[..|line|] == line && tail == Break(ending) + rest;
    if ending == Cr && rest != "" && rest[0] == '\n' {
      LineFeedAddsNothing(rest[1..]);
      assert rest == "\n" + rest[1..] && AfterBreak(tail) == rest[1..];
    } else {
      assert AfterBreak(tail) == rest;
    }
  }

  /** Reading a rendered document gives back the trimmed cells of its lines, whatever the line endings. */
  lemma {:induction false} RenderedParses(lines: seq<Line>, last: seq<string>)
    requires WellFormed(last) && forall i | 0 <= i < |lines| :: WellFormed(lines[i].cells)
    ensures Rows(Render(lines, last)) == Meaning(lines, last)
    decreases |lines|
  {
    hide Rows, TrimAll, Strip, Split;
    if lines == [] {
      SplitJoined(last);
      RowsOfOneLine(Joined(last));
    } else {
      SplitJoined(lines[0].cells);
      RowsOfFirstLine(Joined(lines[0].cells), lines[0].ending, Render(lines[1..], last));
      RenderedParses(lines[1..], last);
    }
  }

  // ---- Printing rows ----------------------------------------------------------------------------------------

  predicate Spaces(s: string) {
    forall i | 0 <= i < |s| :: IsSpace(s[i])
  }

  /** A token as a printer writes it: no pipe or line break, no space around it. */
  predicate Token(t: string) {
    Plain(t) && (t != "" ==> !IsSpace(t[0]) && !IsSpace(t[|t| - 1]))
  }

  datatype Padded = Padded(left: string, token: string, right: string)

  /** A printed row: its tokens with the blanks around them, then any number of blank cells after trailing pipes. */
  datatype Printed = Printed(padded: seq<Padded>, trailing: seq<string>)

  predicate Printable(p: Printed) {
    (forall i | 0 <= i < |p.padded| ::
       Spaces(p.padded[i].left) && Token(p.padded[i].token) && Spaces(p.padded[i].right))
    && (forall i | 0 <= i < |p.trailing| :: Spaces(p.trailing[i]))
    && p.padded + [] != [] && p.padded[|p.padded| - 1].token != ""
  }

  function Tokens(p: Printed): (tokens: seq<string>)
    ensures |tokens| == |p.padded|
  {
    seq(|p.padded|, i requires 0 <= i < |p.padded| => p.padded[i].token)
  }

  function CellsOf(p: Printed): seq<string> {
    seq(|p.padded|, i requires 0 <= i < |p.padded| => p.padded[i].left + p.padded[i].token + p.padded[i].right)
        + p.trailing
  }

  lemma {:induction false} PaddingTrims(left: string, t: string, right: string)
    requires Spaces(left) && Token(t) && Spaces(right)
    ensures Trim(left + t + right) == t
    decreases |left|, |right|
  {
    var s := left + t + right;
    if left != "" {
      assert s[1..] == left[1..] + t + right;
      PaddingTrims(left[1..], t, right);
    } else if t == "" {
      assert s == right;
      SpacesTrim(right);
    } else {
      assert TrimLeft(s) == s == t + right;
      RightPaddingTrims(t, right);
    }
  }

  lemma {:induction false} RightPaddingTrims(t: string, right: string)
    requires t != "" && !IsSpace(t[|t| - 1]) && Spaces(right)
    ensures TrimRight(t + right) == t
    decreases |right|
  {
    if right != "" {
      assert (t + right)[..|t + right| - 1] == t + right[..|right| - 1];
      RightPaddingTrims(t, right[..|right| - 1]);
    } else {
      assert t + right == t;
    }
  }

  lemma {:induction false} StripTrailing(tokens: seq<string>, more: seq<string>)
    requires tokens != [] && tokens[|tokens| - 1] != "" && forall i | 0 <= i < |more| :: more[i] == ""
    ensures Strip(tokens + more) == tokens
    decreases |more|
  {
    if more != [] {
      assert (tokens + more)[..|tokens + more| - 1] == tokens + more[..|more| - 1];
      StripTrailing(tokens, more[..|more| - 1]);
    } else {
      assert tokens + more == tokens;
    }
  }

  /** The cells of a printed row give its tokens back. */
  lemma PrintedRowReads(p: Printed)
    requires Printable(p)
    ensures WellFormed(CellsOf(p)) && Strip(TrimAll(CellsOf(p))) == Tokens(p)
  {
    hide Trim;
    hide Strip;
    var cells := CellsOf(p);
    forall i | 0 <= i < |cells| ensures Plain(cells[i])
           && Trim(cells[i]) == if i < |p.padded| then p.padded[i].token else "" {
      if i < |p.padded| {
        PaddingTrims(p.padded[i].left, p.padded[i].token, p.padded[i].right);
      } else {
        SpacesTrim(cells[i]);
      }
    }
    var blank := seq(|p.trailing|, _ => "");
    assert TrimAll(cells) == Tokens(p) + blank;
    StripTrailing(Tokens(p), blank);
  }

  datatype Item = Blank(cells: seq<string>, after: Ending) | Row(row: Printed, ending: Ending)

  predicate Proper(item: Item) {
    match item
    case Blank(cells, _) => cells != [] && forall i | 0 <= i < |cells| :: Spaces(cells[i])
    case Row(p, _) => Printable(p)
  }

  function LineOf(item: Item): Line {
    match item
    case Blank(cells, e) => Line(cells, e)
    case Row(p, e) => Line(CellsOf(p), e)
  }

  function LinesOf(items: seq<Item>): (lines: seq<Line>)
    ensures |lines| == |items|
  {
    seq(|items|, i requires 0 <= i < |items| => LineOf(items[i]))
  }

  function RowsPrinted(items: seq<Item>): seq<seq<string>>
    decreases |items|
  {
    if items == [] then [] else (if items[0].Row? then [Tokens(items[0].row)] else []) + RowsPrinted(items[1..])
  }

  lemma BlankCellsRead(cells: seq<string>)
    requires cells != [] && forall i | 0 <= i < |cells| :: Spaces(cells[i])
    ensures WellFormed(cells) && Strip(TrimAll(cells)) == []
  {
    forall i | 0 <= i < |cells| ensures Plain(cells[i]) && Trim(cells[i]) == "" {
      SpacesTrim(cells[i]);
    }
    AllEmptyStrips(TrimAll(cells));
  }

  lemma {:induction false} AllEmptyStrips(tokens: seq<string>)
    requires forall i | 0 <= i < |tokens| :: tokens[i] == ""
    ensures Strip(tokens) == []
  {
    if tokens != [] {
      AllEmptyStrips(tokens[..|tokens| - 1]);
    }
  }

  lemma {:induction false} PrintedMeans(items: seq<Item>, last: seq<string>)
    requires forall i | 0 <= i < |items| :: Proper(items[i])
    requires last != [] && forall i | 0 <= i < |last| :: Spaces(last[i])
    ensures WellFormed(last) && forall i | 0 <= i < |items| :: WellFormed(LinesOf(items)[i].cells)
    ensures Meaning(LinesOf(items), last) == RowsPrinted(items)
    decreases |items|
  {
    BlankCellsRead(last);
    if items != [] {
      PrintedMeans(items[1..], last);
      assert LinesOf(items) == [LineOf(items[0])] + LinesOf(items[1..]);
      match items[0] {
        case Blank(cells, _) => BlankCellsRead(cells);
        case Row(p, _) => PrintedRowReads(p);
      }
    }
  }

  /** Rows printed with any padding, trailing pipes, line endings and blank lines between them are read back exactly. */
  lemma PrintedRowsParse(items: seq<Item>, last: seq<string>)
    requires forall i | 0 <= i < |items| :: Proper(items[i])
    requires last != [] && forall i | 0 <= i < |last| :: Spaces(last[i])
    ensures WellFormed(last) && forall i | 0 <= i < |items| :: WellFormed(LinesOf(items)[i].cells)
    ensures Rows(Render(LinesOf(items), last)) == RowsPrinted(items)
  {
    PrintedMeans(items, last);
    RenderedParses(LinesOf(items), last);
  }

  lemma PrintedRow(p: Printed)
    requires Printable(p)
    ensures WellFormed(CellsOf(p)) && RowOf(Joined(CellsOf(p))) == Tokens(p)
    ensures forall i | 0 <= i < |Joined(CellsOf(p))| :: !IsBreak(Joined(CellsOf(p))[i])
  {
    PrintedRowReads(p);
    SplitJoined(CellsOf(p));
    hide Split, Joined, Strip, TrimAll, CellsOf, Tokens;
  }

  lemma JoinedThree(a: string, b: string, c: string)
    ensures Joined([a, b, c]) == a + ("|" + (b + ("|" + c)))
  {
    assert [a, b, c][1..] == [b, c] && [b, c][1..] == [c];
    assert Joined([b, c]) == b + "|" + c;
  }

  lemma SwordRow()
    ensures RowOf("7 | Sword\t|") == ["7", "Sword"]
    ensures forall i | 0 <= i < |"7 | Sword\t|"| :: !IsBreak("7 | Sword\t|"[i])
  {
    hide RowOf, Joined, IsBreak;
    var p := Printed([Padded("", "7", " "), Padded(" ", "Sword", "\t")], [""]);
    SwordPrints();
    PrintedRow(p);
    assert Tokens(p) == ["7", "Sword"];
  }

  lemma SwordPrints()
    ensures var p := Printed([Padded("", "7", " "), Padded(" ", "Sword", "\t")], [""]);
            Printable(p) && CellsOf(p) == ["7 ", " Sword\t", ""] && Joined(CellsOf(p)) == "7 | Sword\t|"
  {
    var p := Printed([Padded("", "7", " "), Padded(" ", "Sword", "\t")], [""]);
    JoinedThree("7 ", " Sword\t", "");
    hide Joined;
    assert "" + "7" + " " == "7 " && " " + "Sword" + "\t" == " Sword\t";
    assert CellsOf(p)[0] == "7 " && CellsOf(p)[1] == " Sword\t" && CellsOf(p)[2] == "";
  }

  lemma ShieldRow()
    ensures RowOf("||Shield") == ["", "", "Shield"]
    ensures forall i | 0 <= i < |"||Shield"| :: !IsBreak("||Shield"[i])
  {
    hide RowOf, Joined, IsBreak;
    var p := Printed([Padded("", "", ""), Padded("", "", ""), Padded("", "Shield", "")], []);
    ShieldPrints();
    PrintedRow(p);
    assert Tokens(p) == ["", "", "Shield"];
  }

  lemma ShieldPrints()
    ensures var p := Printed([Padded("", "", ""), Padded("", "", ""), Padded("", "Shield", "")], []);
            Printable(p) && CellsOf(p) == ["", "", "Shield"] && Joined(CellsOf(p)) == "||Shield"
  {
    var p := Printed([Padded("", "", ""), Padded("", "", ""), Padded("", "Shield", "")], []);
    JoinedThree("", "", "Shield");
    hide Joined;
    assert "" + "" + "" == "" && "" + "Shield" + "" == "Shield";
    assert CellsOf(p)[0] == "" && CellsOf(p)[1] == "" && CellsOf(p)[2] == "Shield";
  }

  /** One text in full: blanks, tabs and a trailing pipe go, empty cells in front stay, a line of empty cells gives
      no row, whatever ends the lines. */
  lemma KnownText()
    ensures Rows("7 | Sword\t|" + "\r\n" + ("| " + "\n" + "||Shield")) == [["7", "Sword"], ["", "", "Shield"]]
  {
    hide RowOf, Rows;
    SwordRow();
    ShieldRow();
    BlankCellsRead(["", " "]);
    SplitJoined(["", " "]);
    assert Joined(["", " "]) == "| ";
    PipeHasNoRow();
    RowsOfFirstLine("7 | Sword\t|", CrLf, "| " + "\n" + "||Shield");
    RowsOfFirstLine("| ", Lf, "||Shield");
    RowsOfOneLine("||Shield");
  }

  lemma PipeHasNoRow()
    ensures RowOf("| ") == []
  {
    BlankCellsRead(["", " "]);
    SplitJoined(["", " "]);
    assert Joined(["", " "]) == "" + "|" + " " == "| ";
  }
}
