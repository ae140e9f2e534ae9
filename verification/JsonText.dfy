/** JSON text (RFC 8259): the trees that texts stand for, with members in text
    order and keys possibly repeated, and a reader of compact texts, which have
    no insignificant white space. */
module JsonText {
  import opened Wrappers
  import opened Json

  datatype Member = Member(key: string, value: Raw)

  datatype Raw =
    | Scalar(value: Json)
    | Sequence(items: seq<Raw>)
    | Entries(entries: seq<Member>)

  /** A reader's result: what was read and the text after it. */
  type Parsed<+T> = Option<(T, string)>

  predicate Starts(text: string, c: char) { text != [] && text[0] == c }

  // Strings (section 7).

  function HexValue(c: char): Option<nat> {
    if '0' <= c <= '9' then Some(c as int - '0' as int)
    else if 'a' <= c <= 'f' then Some(c as int - 'a' as int + 10)
    else if 'A' <= c <= 'F' then Some(c as int - 'A' as int + 10)
    else None
  }

  /** The code point of four hexadecimal digits; surrogates are refused. */
  function HexFour(digits: string): Option<char>
    requires |digits| == 4
  {
    var a, b, c, d := HexValue(digits[0]), HexValue(digits[1]), HexValue(digits[2]), HexValue(digits[3]);
    if a.None? || b.None? || c.None? || d.None? then None
    else
      var code := ((a.value * 16 + b.value) * 16 + c.value) * 16 + d.value;
      if 0xD800 <= code < 0xE000 then None else Some(code as char)
  }

  function Unescaped(letter: char): Option<char> {
    match letter
    case '"' => Some('"')
    case '\\' => Some('\\')
    case '/' => Some('/')
    case 'b' => Some('\U{0008}')
    case 'f' => Some('\U{000C}')
    case 'n' => Some('\U{000A}')
    case 'r' => Some('\U{000D}')
    case 't' => Some('\U{0009}')
    case _ => None
  }

  /** One character inside a string; the closing quote is none. */
  function ReadChar(text: string): (r: Parsed<char>)
    ensures r.Some? ==> |r.value.1| < |text|
  {
    if text == [] || text[0] == '"' || text[0] < '\U{0020}' then None
    else if text[0] != '\\' then Some((text[0], text[1..]))
    else if |text| >= 6 && text[1] == 'u' then
      var c := HexFour(text[2..6]);
      if c.None? then None else Some((c.value, text[6..]))
    else if |text| >= 2 then
      var c := Unescaped(text[1]);
      if c.None? then None else Some((c.value, text[2..]))
    else None
  }

  /** The characters up to the closing quote. */
  function ReadChars(text: string): (r: Parsed<string>)
    ensures r.Some? ==> |r.value.1| < |text|
    decreases |text|
  {
    if Starts(text, '"') then Some(([], text[1..]))
    else
      var c := ReadChar(text);
      if c.None? then None
      else
        var cs := ReadChars(c.value.1);
        if cs.None? then None else Some(([c.value.0] + cs.value.0, cs.value.1))
  }

  function ReadString(text: string): (r: Parsed<string>)
    ensures r.Some? ==> |r.value.1| < |text|
  {
    if Starts(text, '"') then ReadChars(text[1..]) else None
  }

  // Numbers (section 6).

  predicate NumberChar(c: char) { Digit(c) || c == '-' || c == '+' || c == '.' || c == 'e' || c == 'E' }

  function NumberEnd(text: string): (n: nat)
    ensures n <= |text|
  {
    if text == [] || !NumberChar(text[0]) then 0 else 1 + NumberEnd(text[1..])
  }

  function ReadNumber(text: string): (r: Parsed<Json>)
    ensures r.Some? ==> |r.value.1| < |text|
  {
    var n := NumberEnd(text);
    if n > 0 && IsNumberToken(text[..n]) then Some((Num(text[..n]), text[n..])) else None
  }

  // Values (sections 3 to 5).

  /** A literal name or a number. */
  function ReadWord(text: string): (r: Parsed<Json>)
    ensures r.Some? ==> |r.value.1| < |text|
  {
    if "null" <= text then Some((Null, text[4..]))
    else if "true" <= text then Some((Bool(true), text[4..]))
    else if "false" <= text then Some((Bool(false), text[5..]))
    else ReadNumber(text)
  }

  function ReadValue(text: string): (r: Parsed<Raw>)
    ensures r.Some? ==> |r.value.1| < |text|
    decreases |text|, 0
  {
    if Starts(text, '"') then
      var s := ReadString(text);
      if s.None? then None else Some((Scalar(Str(s.value.0)), s.value.1))
    else if Starts(text, '[') then
      if Starts(text[1..], ']') then Some((Sequence([]), text[2..]))
      else
        var items := ReadItems(text[1..]);
        if items.None? then None else Some((Sequence(items.value.0), items.value.1))
    else if Starts(text, '{') then
      if Starts(text[1..], '}') then Some((Entries([]), text[2..]))
      else
        var entries := ReadEntries(text[1..]);
        if entries.None? then None else Some((Entries(entries.value.0), entries.value.1))
    else
      var scalar := ReadWord(text);
      if scalar.None? then None else Some((Scalar(scalar.value.0), scalar.value.1))
  }

  /** One or more values separated by commas, up to the closing bracket. */
  function ReadItems(text: string): (r: Parsed<seq<Raw>>)
    ensures r.Some? ==> |r.value.1| < |text|
    decreases |text|, 1
  {
    var item := ReadValue(text);
    if item.None? then None
    else
      var (value, rest) := item.value;
      if Starts(rest, ']') then Some(([value], rest[1..]))
      else if Starts(rest, ',') then
        var items := ReadItems(rest[1..]);
        if items.None? then None else Some(([value] + items.value.0, items.value.1))
      else None
  }

  /** One member: a string, a colon and a value. */
  function ReadMember(text: string): (r: Parsed<Member>)
    ensures r.Some? ==> |r.value.1| < |text|
    decreases |text|, 1
  {
    var key := ReadString(text);
    if key.None? || !Starts(key.value.1, ':') then None
    else
      var value := ReadValue(key.value.1[1..]);
      if value.None? then None else Some((Member(key.value.0, value.value.0), value.value.1))
  }

  /** One or more members separated by commas, up to the closing brace. */
  function ReadEntries(text: string): (r: Parsed<seq<Member>>)
    ensures r.Some? ==> |r.value.1| < |text|
    decreases |text|, 2
  {
    var member := ReadMember(text);
    if member.None? then None
    else
      var (entry, rest) := member.value;
      if Starts(rest, '}') then Some(([entry], rest[1..]))
      else if Starts(rest, ',') then
        var entries := ReadEntries(rest[1..]);
        if entries.None? then None else Some(([entry] + entries.value.0, entries.value.1))
      else None
  }

  /** The tree of a whole text. */
  function ReadText(text: string): Option<Raw> {
    var r := ReadValue(text);
    if r.None? || r.value.1 != [] then None else Some(r.value.0)
  }

  // What the trees stand for.

  predicate WellFormed(raw: Raw) {
    match raw
    case Scalar(v) => !v.Arr? && !v.Obj?
    case Sequence(items) => forall i :: 0 <= i < |items| ==> WellFormed(items[i])
    case Entries(entries) => forall i :: 0 <= i < |entries| ==> WellFormed(entries[i].value)
  }

  /** No object at any depth repeats a key. */
  predicate NoRepeatedKey(raw: Raw) {
    match raw
    case Scalar(_) => true
    case Sequence(items) => forall i :: 0 <= i < |items| ==> NoRepeatedKey(items[i])
    case Entries(entries) =>
      && (forall i :: 0 <= i < |entries| ==> NoRepeatedKey(entries[i].value))
      && (forall i, j :: 0 <= i < j < |entries| ==> entries[i].key != entries[j].key)
  }

  /** In every object at any depth the keys ascend. */
  predicate KeysAscend(raw: Raw) {
    match raw
    case Scalar(_) => true
    case Sequence(items) => forall i :: 0 <= i < |items| ==> KeysAscend(items[i])
    case Entries(entries) =>
      && (forall i :: 0 <= i < |entries| ==> KeysAscend(entries[i].value))
      && (forall i, j :: 0 <= i < j < |entries| ==> Before(entries[i].key, entries[j].key))
  }
}
