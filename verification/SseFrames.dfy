/** From the text of a stream to its frames, and the whole way to the message. */
module SseFrames {
  import opened Wrappers
  import opened Json
  import opened MessageReassembly
  import opened Text

  /** The pieces between blank lines, cut at the leftmost ones. */
  function Pieces(text: string): (pieces: seq<string>)
    ensures pieces != []
  {
    if |text| < 2 then [text]
    else if text[0] == '\n' && text[1] == '\n' then [""] + Pieces(text[2..])
    else
      var rest := Pieces(text[1..]);
      [[text[0]] + rest[0]] + rest[1..]
  }

  function FirstNewline(text: string): (n: nat)
    ensures n <= |text| && '\n' !in text[..n] && (n < |text| ==> text[n] == '\n')
  {
    if text == [] || text[0] == '\n' then 0 else 1 + FirstNewline(text[1..])
  }

  function WithoutReturn(line: string): string {
    if line != [] && line[|line| - 1] == '\r' then line[..|line| - 1] else line
  }

  /** The lines of a piece; only a line that ends in a newline loses a carriage
      return. */
  function Lines(text: string): seq<string> {
    if text == [] then []
    else
      var n := FirstNewline(text);
      if n == |text| then [text] else [WithoutReturn(text[..n])] + Lines(text[n + 1..])
  }

  datatype Fields = Fields(eventType: string, data: string)

  const EVENT := "event:"
  const DATA := "data:"

  function FieldStep(f: Fields, line: string): Fields {
    if ":" <= line then f
    else if EVENT <= line then f.(eventType := Trim(line[|EVENT|..]))
    else if DATA <= line then f.(data := (if f.data == "" then "" else f.data + "\n") + TrimStart(line[|DATA|..]))
    else f
  }

  function FieldsOf(lines: seq<string>): Fields {
    if lines == [] then Fields("", "") else FieldStep(FieldsOf(lines[..|lines| - 1]), lines[|lines| - 1])
  }

  /** The frame of a piece; none when it has no data or its data is no JSON. */
  function FrameOf(piece: string, read: Parser): Option<Frame> {
    var f := FieldsOf(Lines(piece));
    if Trim(f.data) == "" || read(f.data).None? then None else Some(Frame(f.eventType, read(f.data).value))
  }

  /** What each piece gives. */
  function Parsed(pieces: seq<string>, read: Parser): (parsed: seq<Option<Frame>>)
    ensures |parsed| == |pieces|
    ensures forall i :: 0 <= i < |parsed| ==> parsed[i] == FrameOf(pieces[i], read)
  {
    seq(|pieces|, i requires 0 <= i < |pieces| => FrameOf(pieces[i], read))
  }

  /** The frames that are there. */
  function Present(parsed: seq<Option<Frame>>): seq<Frame> {
    if parsed == [] then []
    else
      var earlier, last := Present(parsed[..|parsed| - 1]), parsed[|parsed| - 1];
      if last.Some? then earlier + [last.value] else earlier
  }

  function FramesOf(pieces: seq<string>, read: Parser): seq<Frame> { Present(Parsed(pieces, read)) }

  /** The reading half of the aggregation loop. */
  method ReadFrames(text: string, read: Parser) returns (frames: seq<Frame>)
    ensures frames == FramesOf(Pieces(text), read)
  {
    frames := [];
    var pieces := Pieces(text);
    ghost var parsed := Parsed(pieces, read);
    for i := 0 to |pieces|
      invariant frames == Present(parsed[..i])
    {
      assert parsed[..i + 1][..i] == parsed[..i];
      var eventType, data := "", "";
      var lines := Lines(pieces[i]);
      for j := 0 to |lines|
        invariant Fields(eventType, data) == FieldsOf(lines[..j])
      {
        assert lines[..j + 1][..j] == lines[..j];
        if ":" <= lines[j] {
          continue;
        }
        if EVENT <= lines[j] {
          eventType := Trim(lines[j][|EVENT|..]);
        } else if DATA <= lines[j] {
          if data != "" {
            data := data + "\n";
          }
          data := data + TrimStart(lines[j][|DATA|..]);
        }
      }
      assert lines[..|lines|] == lines;
      if Trim(data) == "" {
        continue;
      }
      var value := read(data);
      if value.Some? {
        frames := frames + [Frame(eventType, value.value)];
      }
    }
    assert parsed[..|pieces|] == parsed;
  }

  // What a server writes, and reading it back.

  /** A line of an event. */
  datatype Line = Comment(text: string) | Name(text: string) | Data(text: string) | Unknown(text: string)

  function TextOf(l: Line): string {
    match l
    case Comment(text) => ":" + text
    case Name(text) => "event:" + text
    case Data(text) => "data:" + text
    case Unknown(text) => text
  }

  predicate OneLine(s: string) { '\n' !in s }

  /** One line of its kind; it does not end in a carriage return of its own. */
  predicate Clean(l: Line) {
    && OneLine(l.text)
    && (l.text != "" ==> l.text[|l.text| - 1] != '\r')
    && (l.Unknown? ==> l.text != "" && !(":" <= l.text) && !("event:" <= l.text) && !("data:" <= l.text))
  }

  /** An event as a server writes it. `crlf`: the lines but the last end in a
      carriage return and a newline. */
  datatype Entry = Entry(lines: seq<Line>, crlf: bool) {
    predicate Valid() { lines != [] && AllClean(lines) }
  }

  predicate AllClean(lines: seq<Line>) { forall i :: 0 <= i < |lines| ==> Clean(lines[i]) }

  function PieceOf(lines: seq<Line>, crlf: bool): string
    requires lines != []
  {
    if |lines| == 1 then TextOf(lines[0])
    else TextOf(lines[0]) + (if crlf then "\r\n" else "\n") + PieceOf(lines[1..], crlf)
  }

  predicate AllValid(entries: seq<Entry>) { forall i :: 0 <= i < |entries| ==> entries[i].Valid() }

  function Written(entries: seq<Entry>): string
    requires AllValid(entries)
  {
    if entries == [] then "" else PieceOf(entries[0].lines, entries[0].crlf) + "\n\n" + Written(entries[1..])
  }

  /** The last name given, without surrounding space. */
  function NameIn(lines: seq<Line>): string {
    if lines == [] then "" else if lines[|lines| - 1].Name? then Trim(lines[|lines| - 1].text) else NameIn(lines[..|lines| - 1])
  }

  /** The data lines, without the space before each, as one text of several lines;
      empty lines before the first one with data do not count. */
  function DataIn(lines: seq<Line>): string {
    if lines == [] then ""
    else
      var earlier, l := DataIn(lines[..|lines| - 1]), lines[|lines| - 1];
      if !l.Data? then earlier else if earlier == "" then TrimStart(l.text) else earlier + "\n" + TrimStart(l.text)
  }

  /** The frame of an event; none when it has no data or its data is no JSON. */
  function Meaning(e: Entry, read: Parser): Option<Frame> {
    var data := DataIn(e.lines);
    if Blank(data) || read(data).None? then None else Some(Frame(NameIn(e.lines), read(data).value))
  }

  function Meanings(entries: seq<Entry>, read: Parser): seq<Frame> {
    if entries == [] then []
    else
      var rest := Meanings(entries[1..], read);
      if Meaning(entries[0], read).Some? then [Meaning(entries[0], read).value] + rest else rest
  }

  /** No blank line starts in the text, not even with a newline after it. */
  predicate Solid(text: string) { forall i :: 0 <= i < |text| && text[i] == '\n' ==> i + 1 < |text| && text[i + 1] != '\n' }

  lemma SolidTail(text: string)
    requires Solid(text) && text != []
    ensures Solid(text[1..])
  {
    forall i | 0 <= i < |text[1..]| && text[1..][i] == '\n'
      ensures i + 1 < |text[1..]| && text[1..][i + 1] != '\n'
    {
      assert text[i + 1] == '\n';
    }
  }

  lemma {:induction false} PiecesAfterSolid(text: string, rest: string)
    requires Solid(text)
    ensures Pieces(text + "\n\n" + rest) == [text] + Pieces(rest)
  {
    var all := text + "\n\n" + rest;
    if text == [] {
      assert all[0] == '\n' && all[1] == '\n' && all[2..] == rest;
    } else {
      assert all[1..] == text[1..] + "\n\n" + rest;
      assert all[0] == text[0] && (|text| > 1 ==> all[1] == text[1]);
      SolidTail(text);
      PiecesAfterSolid(text[1..], rest);
      assert [text[0]] + text[1..] == text;
    }
  }

  lemma LineText(l: Line)
    requires Clean(l)
    ensures OneLine(TextOf(l)) && TextOf(l) != "" && TextOf(l)[|TextOf(l)| - 1] != '\r'
  {
  }

  /** A line without newlines, a line break, and a text that begins otherwise. */
  lemma JoinsSolid(first: string, lineBreak: string, rest: string)
    requires OneLine(first) && (lineBreak == "\n" || lineBreak == "\r\n") && Solid(rest) && rest != "" && rest[0] != '\n'
    ensures Solid(first + lineBreak + rest)
  {
    var text := first + lineBreak + rest;
    var n := |first| + |lineBreak|;
    assert forall j :: 0 <= j < |first| ==> text[j] == first[j];
    forall i | 0 <= i < |text| && text[i] == '\n'
      ensures i + 1 < |text| && text[i + 1] != '\n'
    {
      if i < n {
        assert i == n - 1 && text[i + 1] == rest[0];
      } else {
        assert text[i] == rest[i - n];
        assert text[i + 1] == rest[i - n + 1];
      }
    }
  }

  lemma {:induction false} PieceIsSolid(lines: seq<Line>, crlf: bool)
    requires lines != [] && AllClean(lines)
    ensures var piece := PieceOf(lines, crlf); Solid(piece) && piece != "" && piece[0] != '\n'
  {
    LineText(lines[0]);
    if |lines| > 1 {
      PieceIsSolid(lines[1..], crlf);
      JoinsSolid(TextOf(lines[0]), if crlf then "\r\n" else "\n", PieceOf(lines[1..], crlf));
    }
  }

  lemma {:induction false} FirstNewlineIs(line: string, rest: string)
    requires OneLine(line)
    ensures FirstNewline(line + "\n" + rest) == |line|
  {
    if line != [] {
      assert line[0] in line;
      assert (line + "\n" + rest)[1..] == line[1..] + "\n" + rest;
      FirstNewlineIs(line[1..], rest);
    }
  }

  lemma LineSplits(line: string, crlf: bool, rest: string)
    requires OneLine(line) && line != "" && line[|line| - 1] != '\r'
    ensures Lines(line + (if crlf then "\r\n" else "\n") + rest) == [line] + Lines(rest)
  {
    var ended := if crlf then line + "\r" else line;
    var text := ended + "\n" + rest;
    assert line + (if crlf then "\r\n" else "\n") + rest == text;
    FirstNewlineIs(ended, rest);
    assert text[..|ended|] == ended && text[|ended| + 1..] == rest;
    assert WithoutReturn(ended) == line;
  }

  function TextsOf(lines: seq<Line>): (texts: seq<string>)
    ensures |texts| == |lines|
    ensures forall i :: 0 <= i < |texts| ==> texts[i] == TextOf(lines[i])
  {
    seq(|lines|, i requires 0 <= i < |lines| => TextOf(lines[i]))
  }

  lemma LastLine(line: string)
    requires OneLine(line) && line != ""
    ensures Lines(line) == [line]
  {
  }

  lemma TextsCons(lines: seq<Line>)
    requires lines != []
    ensures TextsOf(lines) == [TextOf(lines[0])] + TextsOf(lines[1..])
    ensures |lines| == 1 ==> TextsOf(lines) == [TextOf(lines[0])]
  {
  }

  lemma {:induction false} PieceLines(lines: seq<Line>, crlf: bool)
    requires lines != [] && AllClean(lines)
    ensures Lines(PieceOf(lines, crlf)) == TextsOf(lines)
  {
    LineText(lines[0]);
    TextsCons(lines);
    if |lines| == 1 {
      LastLine(TextOf(lines[0]));
    } else {
      PieceLines(lines[1..], crlf);
      LineSplits(TextOf(lines[0]), crlf, PieceOf(lines[1..], crlf));
    }
  }

  /** What one line adds to the fields read so far. */
  lemma LineStep(f: Fields, l: Line)
    requires Clean(l)
    ensures FieldStep(f, TextOf(l)) ==
            match l
            case Name(text) => f.(eventType := Trim(text))
            case Data(text) => f.(data := if f.data == "" then TrimStart(text) else f.data + "\n" + TrimStart(text))
            case _ => f
  {
    var line := TextOf(l);
    if l.Name? {
      assert line[0] == 'e' && line[..|EVENT|] == EVENT && line[|EVENT|..] == l.text;
    } else if l.Data? {
      assert line[0] == 'd' && line[..|DATA|] == DATA && line[|DATA|..] == l.text;
      assert "" + TrimStart(l.text) == TrimStart(l.text);
    } else if l.Comment? {
      assert line[..1] == ":";
    }
  }

  lemma {:induction false} FieldsMean(lines: seq<Line>)
    requires AllClean(lines)
    ensures FieldsOf(TextsOf(lines)) == Fields(NameIn(lines), DataIn(lines))
  {
    if lines != [] {
      var earlier, l := lines[..|lines| - 1], lines[|lines| - 1];
      FieldsMean(earlier);
      assert TextsOf(lines)[..|earlier|] == TextsOf(earlier);
      LineStep(FieldsOf(TextsOf(earlier)), l);
    }
  }

  lemma PieceReads(e: Entry, read: Parser)
    requires e.Valid()
    ensures FrameOf(PieceOf(e.lines, e.crlf), read) == Meaning(e, read)
  {
    PieceLines(e.lines, e.crlf);
    FieldsMean(e.lines);
    TrimsToNothing(DataIn(e.lines));
  }

  lemma {:induction false} PresentCons(first: Option<Frame>, rest: seq<Option<Frame>>)
    ensures Present([first] + rest) == (if first.Some? then [first.value] else []) + Present(rest)
  {
    var all := [first] + rest;
    if rest == [] {
      assert all[..0] == [];
    } else {
      PresentCons(first, rest[..|rest| - 1]);
      assert all[..|rest|] == [first] + rest[..|rest| - 1];
      assert all[|rest|] == rest[|rest| - 1];
    }
  }

  lemma ConsReads(piece: string, rest: seq<string>, read: Parser)
    ensures var first := FrameOf(piece, read);
            FramesOf([piece] + rest, read) == (if first.Some? then [first.value] else []) + FramesOf(rest, read)
  {
    var parsed := Parsed([piece] + rest, read);
    assert parsed == [FrameOf(piece, read)] + Parsed(rest, read);
    PresentCons(FrameOf(piece, read), Parsed(rest, read));
  }

  lemma NothingReads(pieces: seq<string>, read: Parser)
    requires |pieces| == 1 && pieces[0] == []
    ensures FramesOf(pieces, read) == []
  {
    assert Lines(pieces[0]) == [];
    assert FieldsOf([]).data == "" && Trim("") == "";
    var parsed := Parsed(pieces, read);
    assert parsed[0].None? && parsed[..|parsed| - 1] == [];
    assert Present(parsed) == Present(parsed[..|parsed| - 1]);
  }

  lemma WrittenPieces(first: Entry, rest: seq<Entry>)
    requires first.Valid() && AllValid(rest)
    ensures Pieces(Written([first] + rest)) == [PieceOf(first.lines, first.crlf)] + Pieces(Written(rest))
  {
    PieceIsSolid(first.lines, first.crlf);
    PiecesAfterSolid(PieceOf(first.lines, first.crlf), Written(rest));
    assert ([first] + rest)[1..] == rest;
  }

  /** Whatever events a server writes, with comments, unknown lines, several data
      lines and either line break, what is read is what they mean. */
  lemma {:induction false} WrittenReads(entries: seq<Entry>, read: Parser)
    requires AllValid(entries)
    ensures FramesOf(Pieces(Written(entries)), read) == Meanings(entries, read)
  {
    if entries == [] {
      NothingReads(Pieces(Written(entries)), read);
    } else {
      var first, rest := entries[0], entries[1..];
      assert entries == [first] + rest;
      WrittenReads(rest, read);
      PieceReads(first, read);
      WrittenPieces(first, rest);
      ConsReads(PieceOf(first.lines, first.crlf), Pieces(Written(rest)), read);
    }
  }

  /** The whole function: from the text of the stream to the body. */
  method SynthesizeText(text: string, read: Parser, parse: Parser) returns (body: Json, isError: bool)
    ensures var frames := FramesOf(Pieces(text), read);
            && (isError <==> exists i :: 0 <= i < |frames| && IsError(frames[i]))
            && (forall i :: 0 <= i < |frames| && IsError(frames[i]) && (forall k :: i < k < |frames| ==> !IsError(frames[k]))
                  ==> body == frames[i].value)
            && (!isError ==> body == Message(HeadOf(Events(frames)), Finalized(Content(Events(frames)), parse)))
  {
    var frames := ReadFrames(text, read);
    body, isError := Synthesize(frames, parse);
  }
}
