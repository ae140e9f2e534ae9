/** The canonical bytes behind the request digest: a compact, key-sorted print
    of a JSON value (sections 4 and 7 of RFC 8259), and the reader that refuses
    repeated keys.

    Text is a sequence of code points; UTF-8 encoding is injective and left out. */
module CanonicalJson {
  import opened Wrappers
  import opened Json
  import opened JsonText

  function HexDigit(n: nat): char
    requires n < 16
  {
    "0123456789abcdef"[n]
  }

  /** The letter of a two-character escape. */
  function ShortEscape(c: char): Option<char> {
    if c == '"' then Some('"')
    else if c == '\\' then Some('\\')
    else if c == '\U{0008}' then Some('b')
    else if c == '\U{000C}' then Some('f')
    else if c == '\n' then Some('n')
    else if c == '\r' then Some('r')
    else if c == '\t' then Some('t')
    else None
  }

  /** A character inside a printed string. */
  function EscapeChar(c: char): (e: string)
    ensures e != [] && e[0] != '"'
  {
    if ShortEscape(c).Some? then ['\\', ShortEscape(c).value]
    else if c < ' ' then ['\\', 'u', '0', '0', HexDigit(c as int / 16), HexDigit(c as int % 16)]
    else [c]
  }

  /** The characters of `s`, escaped, followed by `rest`. */
  function EscapeTo(s: string, rest: string): string {
    if s == [] then rest else EscapeChar(s[0]) + EscapeTo(s[1..], rest)
  }

  function EmitString(s: string, rest: string): string { "\"" + EscapeTo(s, "\"" + rest) }

  /** The compact text of `v`, followed by `rest`; object members are written in
      the order of their sorted keys. */
  function Emit(v: Json, rest: string): string
    decreases v, 1, 0
  {
    match v
    case Null => "null" + rest
    case Bool(b) => (if b then "true" else "false") + rest
    case Num(token) => token + rest
    case Str(text) => EmitString(text, rest)
    case Arr(elements) => "[" + EmitElements(elements, true, rest)
    case Obj(members) => "{" + EmitMembers(v, SortedKeys(members.Keys), true, rest)
  }

  function EmitElements(elements: seq<Json>, first: bool, rest: string): string
    decreases elements, 0, 0
  {
    if elements == [] then "]" + rest
    else (if first then "" else ",") + Emit(elements[0], EmitElements(elements[1..], false, rest))
  }

  function EmitMembers(v: Json, keys: seq<string>, first: bool, rest: string): string
    requires v.Obj? && forall k :: k in keys ==> k in v.members
    decreases v, 0, |keys|
  {
    if keys == [] then "}" + rest
    else
      (if first then "" else ",")
      + EmitString(keys[0], ":" + Emit(v.members[keys[0]], EmitMembers(v, keys[1..], false, rest)))
  }

  function CanonicalBytes(v: Json): string { Emit(v, "") }

  // The printed text is JSON: it is read back, member by member and in the order
  // of the keys, as the value it was printed from.

  /** The tree of `v` with the members of every object in the order of their keys. */
  function Ordered(v: Json): Raw {
    match v
    case Arr(elements) => Sequence(seq(|elements|, i requires 0 <= i < |elements| => Ordered(elements[i])))
    case Obj(members) =>
      var keys := SortedKeys(members.Keys);
      Entries(seq(|keys|, i requires 0 <= i < |keys| => assert keys[i] in members; Member(keys[i], Ordered(members[keys[i]]))))
    case _ => Scalar(v)
  }

  function OrderedItems(elements: seq<Json>): (items: seq<Raw>)
    ensures |items| == |elements|
    ensures forall i :: 0 <= i < |items| ==> items[i] == Ordered(elements[i])
  {
    seq(|elements|, i requires 0 <= i < |elements| => Ordered(elements[i]))
  }

  function OrderedEntries(members: map<string, Json>, keys: seq<string>): (entries: seq<Member>)
    requires forall k :: k in keys ==> k in members
    ensures |entries| == |keys|
    ensures forall i :: 0 <= i < |entries| ==> entries[i] == Member(keys[i], Ordered(members[keys[i]]))
  {
    seq(|keys|, i requires 0 <= i < |keys| => Member(keys[i], Ordered(members[keys[i]])))
  }

  lemma OrderedItemsStep(elements: seq<Json>)
    requires elements != []
    ensures OrderedItems(elements) == [Ordered(elements[0])] + OrderedItems(elements[1..])
    ensures |elements| == 1 ==> OrderedItems(elements) == [Ordered(elements[0])]
  {
  }

  lemma OrderedEntriesStep(members: map<string, Json>, keys: seq<string>)
    requires keys != [] && forall k :: k in keys ==> k in members
    ensures OrderedEntries(members, keys)
            == [Member(keys[0], Ordered(members[keys[0]]))] + OrderedEntries(members, keys[1..])
    ensures |keys| == 1 ==> OrderedEntries(members, keys) == [Member(keys[0], Ordered(members[keys[0]]))]
  {
  }

  lemma HexDigitReads(n: nat)
    requires n < 16
    ensures HexValue(HexDigit(n)) == Some(n)
  {
  }

  lemma ControlReads(c: char, rest: string)
    requires c < ' ' && ShortEscape(c).None?
    ensures ReadChar(EscapeChar(c) + rest) == Some((c, rest))
  {
    var text := EscapeChar(c) + rest;
    var digits := ['0', '0', HexDigit(c as int / 16), HexDigit(c as int % 16)];
    assert EscapeChar(c) == ['\\', 'u'] + digits;
    assert text[2..6] == digits && text[6..] == rest;
    HexDigitReads(c as int / 16);
    HexDigitReads(c as int % 16);
    assert HexFour(digits) == Some(c);
  }

  lemma EscapedReads(c: char, rest: string)
    ensures ReadChar(EscapeChar(c) + rest) == Some((c, rest))
  {
    var text := EscapeChar(c) + rest;
    if ShortEscape(c).Some? {
      assert text[0] == '\\' && text[1] == ShortEscape(c).value && text[2..] == rest;
      assert Unescaped(ShortEscape(c).value) == Some(c);
    } else if c < ' ' {
      ControlReads(c, rest);
    } else {
      assert text[0] == c && text[1..] == rest;
    }
  }

  /** No shorter text inside a string stands for the character, and hexadecimal
      digits are lower-case. */
  lemma EscapedShortest(c: char, text: string)
    requires ReadChar(text) == Some((c, ""))
    ensures |EscapeChar(c)| <= |text|
    ensures |EscapeChar(c)| > 1 ==> forall d :: d in EscapeChar(c) ==> !('A' <= d <= 'F')
  {
  }

  lemma {:induction false} EscapeReads(s: string, rest: string)
    ensures ReadChars(EscapeTo(s, "\"" + rest)) == Some((s, rest))
  {
    var text := EscapeTo(s, "\"" + rest);
    if s == [] {
      assert text[1..] == rest;
    } else {
      var later := EscapeTo(s[1..], "\"" + rest);
      assert text[0] == EscapeChar(s[0])[0];
      EscapedReads(s[0], later);
      EscapeReads(s[1..], rest);
      assert s == [s[0]] + s[1..];
    }
  }

  lemma StringReads(s: string, rest: string)
    ensures ReadString(EmitString(s, rest)) == Some((s, rest))
  {
    assert EmitString(s, rest)[1..] == EscapeTo(s, "\"" + rest);
    EscapeReads(s, rest);
  }

  /** What can follow a value: nothing, or a character that ends one. */
  predicate Boundary(rest: string) { rest == [] || rest[0] == ',' || rest[0] == ']' || rest[0] == '}' }

  predicate NumberText(s: string) { forall i :: 0 <= i < |s| ==> NumberChar(s[i]) }

  lemma JoinedText(s: string, t: string)
    requires NumberText(s) && NumberText(t)
    ensures NumberText(s + t)
  {
  }

  lemma {:induction false} NumberEnds(token: string, rest: string)
    requires NumberText(token) && Boundary(rest)
    ensures NumberEnd(token + rest) == |token|
  {
    if token == [] {
      assert token + rest == rest;
    } else {
      assert (token + rest)[1..] == token[1..] + rest;
      NumberEnds(token[1..], rest);
    }
  }

  lemma ExponentChars(s: string)
    requires IsExponent(s)
    ensures NumberText(s)
  {
    if s != [] {
      var skip := if |s| > 1 && (s[1] == '+' || s[1] == '-') then 2 else 1;
      assert NumberText(s[..skip]) && NumberText(s[skip..]);
      JoinedText(s[..skip], s[skip..]);
      assert s[..skip] + s[skip..] == s;
    }
  }

  /** Digits at the front and number characters after them. */
  lemma DigitsThen(s: string, rest: string)
    requires rest == s[DigitsOf(s)..] && NumberText(rest)
    ensures NumberText(s)
  {
    var digits := s[..DigitsOf(s)];
    assert NumberText(digits);
    JoinedText(digits, rest);
    assert digits + rest == s;
  }

  lemma AfterFirst(s: string)
    requires s != [] && NumberChar(s[0]) && NumberText(s[1..])
    ensures NumberText(s)
  {
    JoinedText([s[0]], s[1..]);
    assert [s[0]] + s[1..] == s;
  }

  lemma FractionChars(s: string)
    requires IsFraction(s)
    ensures NumberText(s)
  {
    if s != [] && s[0] == '.' {
      var digits := s[1..];
      var exponent := digits[DigitsOf(digits)..];
      assert exponent == s[1 + DigitsOf(digits)..];
      ExponentChars(exponent);
      DigitsThen(digits, exponent);
      AfterFirst(s);
    } else {
      ExponentChars(s);
    }
  }

  lemma UnsignedChars(unsigned: string)
    requires var n := DigitsOf(unsigned); n > 0 && IsFraction(unsigned[n..])
    ensures Digit(unsigned[0]) && NumberText(unsigned)
  {
    var fraction := unsigned[DigitsOf(unsigned)..];
    FractionChars(fraction);
    DigitsThen(unsigned, fraction);
  }

  lemma NumberChars(token: NumberToken)
    ensures token != [] && (Digit(token[0]) || token[0] == '-')
    ensures NumberText(token)
  {
    if token[0] == '-' {
      UnsignedChars(token[1..]);
      AfterFirst(token);
    } else {
      UnsignedChars(token);
    }
  }

  lemma NumberReads(token: NumberToken, rest: string)
    requires Boundary(rest)
    ensures ReadValue(token + rest) == Some((Scalar(Num(token)), rest))
  {
    var text := token + rest;
    NumberChars(token);
    NumberEnds(token, rest);
    assert text[0] == token[0] && text[..|token|] == token && text[|token|..] == rest;
    assert ReadWord(text) == ReadNumber(text) == Some((Num(token), rest));
  }

  lemma WordRead(word: string, v: Json, rest: string)
    requires (word, v) == ("null", Null) || (word, v) == ("true", Bool(true)) || (word, v) == ("false", Bool(false))
    ensures ReadValue(word + rest) == Some((Scalar(v), rest))
  {
    var text := word + rest;
    assert text[..|word|] == word && text[|word|..] == rest && text[0] == word[0];
    assert ReadWord(text) == Some((v, rest));
  }

  lemma WordReads(v: Json, rest: string)
    requires v.Null? || v.Bool?
    ensures ReadValue(Emit(v, rest)) == Some((Scalar(v), rest))
  {
    WordRead(if v.Null? then "null" else if v.b then "true" else "false", v, rest);
  }

  /** A printed value does not begin like the end of a list. */
  lemma EmitHead(v: Json, rest: string)
    ensures var text := Emit(v, rest); text != [] && text[0] != ']'
  {
    if v.Num? {
      NumberChars(v.token);
      assert Emit(v, rest)[0] == v.token[0];
    }
  }

  lemma LastItemReads(text: string, value: Raw, rest: string)
    requires ReadValue(text) == Some((value, "]" + rest))
    ensures ReadItems(text) == Some(([value], rest))
  {
    assert ("]" + rest)[1..] == rest;
  }

  lemma MoreItemsRead(text: string, value: Raw, later: string, items: seq<Raw>, rest: string)
    requires ReadValue(text) == Some((value, "," + later)) && ReadItems(later) == Some((items, rest))
    ensures ReadItems(text) == Some(([value] + items, rest))
  {
    assert ("," + later)[1..] == later && ("," + later)[0] == ',';
  }

  /** What follows the first of the printed elements. */
  lemma ElementsStep(elements: seq<Json>, rest: string)
    requires elements != []
    ensures var later := EmitElements(elements[1..], false, rest);
            && EmitElements(elements, true, rest) == Emit(elements[0], later) && Boundary(later)
            && later == if |elements| == 1 then "]" + rest else "," + EmitElements(elements[1..], true, rest)
  {
    var later := EmitElements(elements[1..], false, rest);
    assert "" + Emit(elements[0], later) == Emit(elements[0], later);
    if |elements| > 1 {
      var second := Emit(elements[1], EmitElements(elements[1..][1..], false, rest));
      assert "" + second == second;
    }
  }

  lemma {:induction false} ItemsRead(elements: seq<Json>, rest: string)
    requires elements != []
    ensures ReadItems(EmitElements(elements, true, rest)) == Some((OrderedItems(elements), rest))
    decreases elements, 0, 0
  {
    var text, later := EmitElements(elements, true, rest), EmitElements(elements[1..], false, rest);
    ElementsStep(elements, rest);
    OrderedItemsStep(elements);
    EmitReads(elements[0], later);
    assert ReadValue(text) == Some((Ordered(elements[0]), later));
    if |elements| == 1 {
      LastItemReads(text, Ordered(elements[0]), rest);
    } else {
      ItemsRead(elements[1..], rest);
      MoreItemsRead(text, Ordered(elements[0]), EmitElements(elements[1..], true, rest), OrderedItems(elements[1..]), rest);
    }
  }

  lemma {:induction false} MemberReads(v: Json, key: string, rest: string)
    requires v.Obj? && key in v.members && Boundary(rest)
    ensures ReadMember(EmitString(key, ":" + Emit(v.members[key], rest)))
            == Some((Member(key, Ordered(v.members[key])), rest))
    decreases v, 0, 0
  {
    var value := Emit(v.members[key], rest);
    StringReads(key, ":" + value);
    assert (":" + value)[1..] == value;
    EmitReads(v.members[key], rest);
  }

  lemma LastEntryReads(text: string, entry: Member, rest: string)
    requires ReadMember(text) == Some((entry, "}" + rest))
    ensures ReadEntries(text) == Some(([entry], rest))
  {
    assert ("}" + rest)[1..] == rest;
  }

  lemma MoreEntriesRead(text: string, entry: Member, later: string, entries: seq<Member>, rest: string)
    requires ReadMember(text) == Some((entry, "," + later)) && ReadEntries(later) == Some((entries, rest))
    ensures ReadEntries(text) == Some(([entry] + entries, rest))
  {
    assert ("," + later)[1..] == later && ("," + later)[0] == ',';
  }

  /** What follows the first of the printed members. */
  lemma MembersStep(v: Json, keys: seq<string>, rest: string)
    requires v.Obj? && keys != [] && forall k :: k in keys ==> k in v.members
    ensures var later := EmitMembers(v, keys[1..], false, rest);
            && EmitMembers(v, keys, true, rest) == EmitString(keys[0], ":" + Emit(v.members[keys[0]], later))
            && Boundary(later)
            && later == if |keys| == 1 then "}" + rest else "," + EmitMembers(v, keys[1..], true, rest)
  {
    var later := EmitMembers(v, keys[1..], false, rest);
    var first := EmitString(keys[0], ":" + Emit(v.members[keys[0]], later));
    assert "" + first == first;
    if |keys| > 1 {
      var second := EmitString(keys[1], ":" + Emit(v.members[keys[1]], EmitMembers(v, keys[1..][1..], false, rest)));
      assert "" + second == second;
    }
  }

  lemma {:induction false} EntriesRead(v: Json, keys: seq<string>, rest: string)
    requires v.Obj? && keys != [] && forall k :: k in keys ==> k in v.members
    ensures ReadEntries(EmitMembers(v, keys, true, rest)) == Some((OrderedEntries(v.members, keys), rest))
    decreases v, 0, |keys|
  {
    var text, later := EmitMembers(v, keys, true, rest), EmitMembers(v, keys[1..], false, rest);
    var entry := Member(keys[0], Ordered(v.members[keys[0]]));
    MembersStep(v, keys, rest);
    OrderedEntriesStep(v.members, keys);
    MemberReads(v, keys[0], later);
    assert ReadMember(text) == Some((entry, later));
    if |keys| == 1 {
      LastEntryReads(text, entry, rest);
    } else {
      EntriesRead(v, keys[1..], rest);
      MoreEntriesRead(text, entry, EmitMembers(v, keys[1..], true, rest), OrderedEntries(v.members, keys[1..]), rest);
    }
  }

  lemma ListReads(inner: string, items: seq<Raw>, rest: string)
    requires inner != [] && inner[0] != ']' && ReadItems(inner) == Some((items, rest))
    ensures ReadValue("[" + inner) == Some((Sequence(items), rest))
  {
    var text := "[" + inner;
    assert text[1..] == inner && text[0] == '[' && text[1] == inner[0];
  }

  lemma ObjectReads(inner: string, entries: seq<Member>, rest: string)
    requires inner != [] && inner[0] != '}' && ReadEntries(inner) == Some((entries, rest))
    ensures ReadValue("{" + inner) == Some((Entries(entries), rest))
  {
    var text := "{" + inner;
    assert text[1..] == inner && text[0] == '{' && text[1] == inner[0];
  }

  lemma NothingReads(rest: string)
    ensures ReadValue("[" + "]" + rest) == Some((Sequence([]), rest))
    ensures ReadValue("{" + "}" + rest) == Some((Entries([]), rest))
  {
    var list, record := "[" + "]" + rest, "{" + "}" + rest;
    assert list[..2] == "[]" && list[2..] == rest && list[0] == '[';
    assert record[..2] == "{}" && record[2..] == rest && record[0] == '{';
  }

  lemma {:induction false} ArrReads(v: Json, rest: string)
    requires v.Arr?
    ensures ReadValue(Emit(v, rest)) == Some((Ordered(v), rest))
    decreases v, 1, 0
  {
    var inner := EmitElements(v.elements, true, rest);
    if v.elements == [] {
      NothingReads(rest);
      assert Emit(v, rest) == "[" + ("]" + rest) == "[" + "]" + rest;
      assert Ordered(v) == Sequence([]);
    } else {
      ElementsStep(v.elements, rest);
      EmitHead(v.elements[0], EmitElements(v.elements[1..], false, rest));
      ItemsRead(v.elements, rest);
      ListReads(inner, OrderedItems(v.elements), rest);
      assert Ordered(v) == Sequence(OrderedItems(v.elements));
    }
  }

  lemma {:induction false} ObjReads(v: Json, rest: string)
    requires v.Obj?
    ensures ReadValue(Emit(v, rest)) == Some((Ordered(v), rest))
    decreases v, 1, 0
  {
    var keys := SortedKeys(v.members.Keys);
    var inner := EmitMembers(v, keys, true, rest);
    if keys == [] {
      NothingReads(rest);
      assert Emit(v, rest) == "{" + ("}" + rest) == "{" + "}" + rest;
      assert Ordered(v).entries == [];
    } else {
      MembersStep(v, keys, rest);
      EntriesRead(v, keys, rest);
      ObjectReads(inner, OrderedEntries(v.members, keys), rest);
      assert Ordered(v).entries == OrderedEntries(v.members, keys);
    }
  }

  /** The printed text reads, by the grammar of JSON, as the value itself followed
      by what follows it. */
  lemma {:induction false} EmitReads(v: Json, rest: string)
    requires Boundary(rest)
    ensures ReadValue(Emit(v, rest)) == Some((Ordered(v), rest))
    decreases v, 2, 0
  {
    match v {
      case Num(token) => NumberReads(token, rest);
      case Str(text) => StringReads(text, rest);
      case Arr(_) => ArrReads(v, rest);
      case Obj(_) => ObjReads(v, rest);
      case _ => WordReads(v, rest);
    }
  }

  // What a text stands for.

  /** What a generic parser makes of the text: the last of repeated keys wins. */
  function ValueOf(raw: Raw): Json {
    match raw
    case Scalar(v) => v
    case Sequence(items) => Arr(seq(|items|, i requires 0 <= i < |items| => ValueOf(items[i])))
    case Entries(entries) =>
      Obj(MapOf(seq(|entries|, i requires 0 <= i < |entries| => (entries[i].key, ValueOf(entries[i].value)))))
  }

  type Pairs = seq<(string, Json)>

  function MapOf(pairs: Pairs): map<string, Json> {
    if pairs == [] then map[]
    else
      var last := pairs[|pairs| - 1];
      MapOf(pairs[..|pairs| - 1])[last.0 := last.1]
  }

  ghost predicate DistinctKeys(pairs: Pairs) {
    forall i, j :: 0 <= i < j < |pairs| ==> pairs[i].0 != pairs[j].0
  }

  /** `xs` has no pair that `ys` does not have. */
  ghost predicate Included(xs: Pairs, ys: Pairs) {
    forall i :: 0 <= i < |xs| ==> xs[i] in ys
  }

  lemma {:induction false} MapOfLookup(pairs: Pairs, k: string) returns (i: nat)
    requires k in MapOf(pairs)
    ensures i < |pairs| && pairs[i] == (k, MapOf(pairs)[k])
  {
    i := |pairs| - 1;
    if pairs[i].0 != k {
      i := MapOfLookup(pairs[..i], k);
    }
  }

  lemma {:induction false} MapOfIn(pairs: Pairs, i: nat)
    requires i < |pairs|
    ensures pairs[i].0 in MapOf(pairs)
    ensures DistinctKeys(pairs) ==> MapOf(pairs)[pairs[i].0] == pairs[i].1
  {
    var n := |pairs| - 1;
    if i < n {
      MapOfIn(pairs[..n], i);
    }
  }

  /** A map forgets only the order of its pairs. */
  lemma MapOfEqual(xs: Pairs, ys: Pairs)
    requires DistinctKeys(xs) && DistinctKeys(ys)
    ensures Included(xs, ys) && Included(ys, xs) <==> MapOf(xs) == MapOf(ys)
  {
    if Included(xs, ys) && Included(ys, xs) {
      IncludedMaps(xs, ys);
      IncludedMaps(ys, xs);
      assert MapOf(xs).Keys == MapOf(ys).Keys;
    }
    if MapOf(xs) == MapOf(ys) {
      MapsIncluded(xs, ys);
      MapsIncluded(ys, xs);
    }
  }

  lemma IncludedMaps(xs: Pairs, ys: Pairs)
    requires DistinctKeys(ys) && Included(xs, ys)
    ensures forall k :: k in MapOf(xs) ==> k in MapOf(ys) && MapOf(xs)[k] == MapOf(ys)[k]
  {
    forall k | k in MapOf(xs)
      ensures k in MapOf(ys) && MapOf(xs)[k] == MapOf(ys)[k]
    {
      var i := MapOfLookup(xs, k);
      var j :| 0 <= j < |ys| && xs[i] == ys[j];
      MapOfIn(ys, j);
    }
  }

  lemma MapsIncluded(xs: Pairs, ys: Pairs)
    requires DistinctKeys(xs) && MapOf(xs) == MapOf(ys)
    ensures Included(xs, ys)
  {
    forall i | 0 <= i < |xs|
      ensures xs[i] in ys
    {
      MapOfIn(xs, i);
      var j := MapOfLookup(ys, xs[i].0);
    }
  }

  function PairsOf(entries: seq<Member>): (pairs: Pairs)
    ensures |pairs| == |entries|
    ensures forall i :: 0 <= i < |pairs| ==> pairs[i] == (entries[i].key, ValueOf(entries[i].value))
    ensures ValueOf(Entries(entries)) == Obj(MapOf(pairs))
  {
    var pairs := seq(|entries|, i requires 0 <= i < |entries| => (entries[i].key, ValueOf(entries[i].value)));
    assert ValueOf(Entries(entries)) == Obj(MapOf(pairs)) by {
      assert pairs == seq(|entries|, i requires 0 <= i < |entries| => (entries[i].key, ValueOf(entries[i].value)));
    }
    pairs
  }

  lemma AscendingDistinct(keys: seq<string>, i: nat, j: nat)
    requires Ascending(keys) && i < j < |keys|
    ensures keys[i] != keys[j]
  {
    BeforeTotal(keys[i], keys[i]);
  }

  lemma MembersRestored(members: map<string, Json>, keys: seq<string>, pairs: Pairs)
    requires Ascending(keys) && (forall k :: k in keys <==> k in members)
    requires |pairs| == |keys| && forall i :: 0 <= i < |keys| ==> pairs[i] == (keys[i], members[keys[i]])
    ensures MapOf(pairs) == members
  {
    forall i, j | 0 <= i < j < |pairs|
      ensures pairs[i].0 != pairs[j].0
    {
      AscendingDistinct(keys, i, j);
    }
    forall k | k in MapOf(pairs)
      ensures k in members && MapOf(pairs)[k] == members[k]
    {
      var i := MapOfLookup(pairs, k);
    }
    forall k | k in members
      ensures k in MapOf(pairs)
    {
      var i :| 0 <= i < |keys| && keys[i] == k;
      MapOfIn(pairs, i);
    }
  }

  lemma {:induction false} OrderedArr(v: Json)
    requires v.Arr?
    ensures ValueOf(Ordered(v)) == v && KeysAscend(Ordered(v))
    decreases v, 0
  {
    forall i | 0 <= i < |v.elements|
      ensures ValueOf(Ordered(v.elements[i])) == v.elements[i] && KeysAscend(Ordered(v.elements[i]))
    {
      OrderedValue(v.elements[i]);
    }
    assert ValueOf(Ordered(v)).elements == v.elements;
  }

  lemma {:induction false} OrderedObj(v: Json)
    requires v.Obj?
    ensures ValueOf(Ordered(v)) == v && KeysAscend(Ordered(v))
    decreases v, 0
  {
    var keys, entries := SortedKeys(v.members.Keys), Ordered(v).entries;
    forall i | 0 <= i < |keys|
      ensures entries[i].key == keys[i] && keys[i] in v.members
      ensures ValueOf(entries[i].value) == v.members[keys[i]] && KeysAscend(entries[i].value)
    {
      OrderedValue(v.members[keys[i]]);
    }
    MembersRestored(v.members, keys, PairsOf(entries));
  }

  /** Putting members in order changes no value. */
  lemma {:induction false} OrderedValue(v: Json)
    ensures ValueOf(Ordered(v)) == v && KeysAscend(Ordered(v))
    decreases v, 1
  {
    match v
    case Arr(_) => OrderedArr(v);
    case Obj(_) => OrderedObj(v);
    case _ =>
  }

  lemma {:induction false} AscendingNotRepeated(raw: Raw)
    requires KeysAscend(raw)
    ensures NoRepeatedKey(raw)
  {
    match raw
    case Scalar(_) =>
    case Sequence(items) =>
      forall i | 0 <= i < |items|
        ensures NoRepeatedKey(items[i])
      {
        AscendingNotRepeated(items[i]);
      }
    case Entries(entries) =>
      forall i | 0 <= i < |entries|
        ensures NoRepeatedKey(entries[i].value)
      {
        AscendingNotRepeated(entries[i].value);
      }
      forall i, j | 0 <= i < j < |entries|
        ensures entries[i].key != entries[j].key
      {
        BeforeTotal(entries[i].key, entries[i].key);
      }
  }

  /** Canonical bytes are compact JSON text with ascending keys at every depth and
      none repeated, and the text stands for the value it was printed from. */
  lemma CanonicalReads(v: Json)
    ensures var raw := ReadText(CanonicalBytes(v));
            raw.Some? && ValueOf(raw.value) == v && KeysAscend(raw.value) && NoRepeatedKey(raw.value)
  {
    EmitReads(v, "");
    OrderedValue(v);
    AscendingNotRepeated(Ordered(v));
  }

  /** The value of a compact text; the last of repeated keys wins. */
  function ReadJson(text: string): Option<Json> {
    var raw := ReadText(text);
    if raw.None? then None else Some(ValueOf(raw.value))
  }

  /** Whatever follows it, a printed value can be read in one way only. */
  lemma EmitUnique(a: Json, b: Json, x: string, y: string)
    requires Emit(a, x) == Emit(b, y) && Boundary(x) && Boundary(y)
    ensures a == b && x == y
  {
    EmitReads(a, x);
    EmitReads(b, y);
    OrderedValue(a);
    OrderedValue(b);
  }

  /** Canonical bytes are injective: they decide equality of values. */
  lemma CanonicalInjective(v: Json, w: Json)
    ensures CanonicalBytes(v) == CanonicalBytes(w) <==> v == w
  {
    if CanonicalBytes(v) == CanonicalBytes(w) {
      EmitUnique(v, w, "", "");
    }
  }

  // The digest of a request.

  const UNDIGESTED: set<string> := {"dispatch_key", "payload_digest"}

  /** The bytes that are hashed for a request object. */
  function DigestBytes(request: map<string, Json>): string {
    CanonicalBytes(Obj(request - UNDIGESTED))
  }

  /** Two requests are hashed from the same bytes exactly when they agree on
      every member but the dispatch key and the digest itself. */
  lemma DigestBytesDecide(r: map<string, Json>, s: map<string, Json>)
    ensures DigestBytes(r) == DigestBytes(s) <==> forall k :: k !in {"dispatch_key", "payload_digest"} ==> SameAt(r, s, k)
  {
    var r', s' := r - UNDIGESTED, s - UNDIGESTED;
    CanonicalInjective(Obj(r'), Obj(s'));
    SameMaps(r', s');
    forall k
      ensures SameAt(r', s', k) <==> k in {"dispatch_key", "payload_digest"} || SameAt(r, s, k)
    {
      DigestedAt(r, s, k);
    }
  }

  lemma DigestedAt(r: map<string, Json>, s: map<string, Json>, k: string)
    ensures SameAt(r - UNDIGESTED, s - UNDIGESTED, k) <==> k in {"dispatch_key", "payload_digest"} || SameAt(r, s, k)
  {
  }

  // Reading text without ambiguity.

  /** The reader of untrusted text: it accepts exactly the texts in which no
      object repeats a key, and then reads what a generic parser would. */
  method UniqueJson(raw: Raw) returns (r: Option<Json>)
    ensures r.Some? <==> NoRepeatedKey(raw)
    ensures r.Some? ==> r.value == ValueOf(raw)
    decreases raw, 1
  {
    match raw {
      case Scalar(v) => r := Some(v);
      case Sequence(items) => r := VisitSeq(raw);
      case Entries(entries) => r := VisitMap(raw);
    }
  }

  method VisitSeq(raw: Raw) returns (r: Option<Json>)
    requires raw.Sequence?
    ensures r.Some? <==> NoRepeatedKey(raw)
    ensures r.Some? ==> r.value == ValueOf(raw)
    decreases raw, 0
  {
    var items := raw.items;
    var values: seq<Json> := [];
    for i := 0 to |items|
      invariant |values| == i
      invariant forall k :: 0 <= k < i ==> NoRepeatedKey(items[k]) && values[k] == ValueOf(items[k])
    {
      var item := UniqueJson(items[i]);
      if item.None? {
        return None;
      }
      values := values + [item.value];
    }
    assert values == ValueOf(raw).elements;
    return Some(Arr(values));
  }

  method VisitMap(raw: Raw) returns (r: Option<Json>)
    requires raw.Entries?
    ensures r.Some? <==> NoRepeatedKey(raw)
    ensures r.Some? ==> r.value == ValueOf(raw)
    decreases raw, 0
  {
    var entries := raw.entries;
    var values: map<string, Json> := map[];
    ghost var pairs := PairsOf(entries);
    for i := 0 to |entries|
      invariant values == MapOf(pairs[..i])
      invariant forall k :: 0 <= k < i ==> NoRepeatedKey(entries[k].value)
      invariant forall k, l :: 0 <= k < l < i ==> entries[k].key != entries[l].key
    {
      var value := UniqueJson(entries[i].value);
      if value.None? {
        return None;
      }
      assert pairs[..i + 1][..i] == pairs[..i];
      if entries[i].key in values {
        ghost var k := MapOfLookup(pairs[..i], entries[i].key);
        return None;
      }
      forall k | 0 <= k < i
        ensures entries[k].key != entries[i].key
      {
        MapOfIn(pairs[..i], k);
      }
      values := values[entries[i].key := value.value];
    }
    assert pairs[..|entries|] == pairs;
    return Some(Obj(values));
  }

  /** The same tree, whatever the order of members. */
  ghost predicate SameTree(a: Raw, b: Raw)
    decreases a, 1
  {
    match (a, b)
    case (Scalar(v), Scalar(w)) => v == w
    case (Sequence(xs), Sequence(ys)) =>
      |xs| == |ys| && forall i :: 0 <= i < |xs| ==> SameTree(xs[i], ys[i])
    case (Entries(xs), Entries(ys)) =>
      AllRight(xs, ys) && AllLeft(xs, ys)
    case _ => false
  }

  ghost predicate AllRight(xs: seq<Member>, ys: seq<Member>)
    decreases xs, 1
  {
    forall i :: 0 <= i < |xs| ==> HasRight(xs[i], ys)
  }

  ghost predicate AllLeft(xs: seq<Member>, ys: seq<Member>)
    decreases xs, 1
  {
    forall j :: 0 <= j < |ys| ==> HasLeft(xs, ys[j])
  }

  /** The member `x` of the left object has a counterpart in the right one. */
  ghost predicate HasRight(x: Member, ys: seq<Member>)
    decreases x, 0
  {
    exists j :: 0 <= j < |ys| && x.key == ys[j].key && SameTree(x.value, ys[j].value)
  }

  ghost predicate HasLeft(xs: seq<Member>, y: Member)
    decreases xs, 0
  {
    exists i :: 0 <= i < |xs| && xs[i].key == y.key && SameTree(xs[i].value, y.value)
  }

  lemma {:induction false} SameTreeSameValue(a: Raw, b: Raw)
    requires WellFormed(a) && WellFormed(b) && NoRepeatedKey(a) && NoRepeatedKey(b)
    ensures SameTree(a, b) <==> ValueOf(a) == ValueOf(b)
  {
    match (a, b) {
      case (Sequence(xs), Sequence(ys)) =>
        forall i | 0 <= i < |xs| && i < |ys|
          ensures SameTree(xs[i], ys[i]) <==> ValueOf(xs[i]) == ValueOf(ys[i])
        {
          SameTreeSameValue(xs[i], ys[i]);
        }
        SequenceValues(xs, ys);
      case (Entries(xs), Entries(ys)) =>
        forall i, j | 0 <= i < |xs| && 0 <= j < |ys|
          ensures SameTree(xs[i].value, ys[j].value) <==> ValueOf(xs[i].value) == ValueOf(ys[j].value)
        {
          SameTreeSameValue(xs[i].value, ys[j].value);
        }
        EntriesSame(xs, ys, PairsOf(xs), PairsOf(ys));
      case _ =>
    }
  }

  lemma EntriesSame(xs: seq<Member>, ys: seq<Member>, ps: Pairs, qs: Pairs)
    requires SameTrees(xs, ys, ps, qs) && DistinctKeys(ps) && DistinctKeys(qs)
    ensures SameTree(Entries(xs), Entries(ys)) <==> MapOf(ps) == MapOf(qs)
  {
    RightPairs(xs, ys, ps, qs);
    LeftPairs(xs, ys, ps, qs);
    MapOfEqual(ps, qs);
  }

  ghost predicate SameTrees(xs: seq<Member>, ys: seq<Member>, ps: Pairs, qs: Pairs) {
    && |xs| == |ps| && (forall i :: 0 <= i < |xs| ==> ps[i].0 == xs[i].key)
    && |ys| == |qs| && (forall j :: 0 <= j < |ys| ==> qs[j].0 == ys[j].key)
    && forall i, j :: 0 <= i < |xs| && 0 <= j < |ys| ==> (SameTree(xs[i].value, ys[j].value) <==> ps[i].1 == qs[j].1)
  }

  lemma RightPairs(xs: seq<Member>, ys: seq<Member>, ps: Pairs, qs: Pairs)
    requires SameTrees(xs, ys, ps, qs)
    ensures AllRight(xs, ys) <==> Included(ps, qs)
  {
    forall i | 0 <= i < |xs|
      ensures HasRight(xs[i], ys) <==> ps[i] in qs
    {
      RightPair(xs[i], ys, ps[i], qs);
    }
  }

  lemma LeftPairs(xs: seq<Member>, ys: seq<Member>, ps: Pairs, qs: Pairs)
    requires SameTrees(xs, ys, ps, qs)
    ensures AllLeft(xs, ys) <==> Included(qs, ps)
  {
    forall j | 0 <= j < |ys|
      ensures HasLeft(xs, ys[j]) <==> qs[j] in ps
    {
      LeftPair(xs, ys[j], ps, qs[j]);
    }
  }

  lemma RightPair(x: Member, ys: seq<Member>, p: (string, Json), qs: Pairs)
    requires |ys| == |qs| && p.0 == x.key
    requires forall j :: 0 <= j < |ys| ==> qs[j].0 == ys[j].key && (SameTree(x.value, ys[j].value) <==> p.1 == qs[j].1)
    ensures HasRight(x, ys) <==> p in qs
  {
    if p in qs {
      var j :| 0 <= j < |qs| && p == qs[j];
      assert SameTree(x.value, ys[j].value);
    }
  }

  lemma LeftPair(xs: seq<Member>, y: Member, ps: Pairs, q: (string, Json))
    requires |xs| == |ps| && q.0 == y.key
    requires forall i :: 0 <= i < |xs| ==> ps[i].0 == xs[i].key && (SameTree(xs[i].value, y.value) <==> ps[i].1 == q.1)
    ensures HasLeft(xs, y) <==> q in ps
  {
    if q in ps {
      var i :| 0 <= i < |ps| && q == ps[i];
      assert SameTree(xs[i].value, y.value);
    }
  }

  lemma SequenceValues(xs: seq<Raw>, ys: seq<Raw>)
    ensures ValueOf(Sequence(xs)) == ValueOf(Sequence(ys)) <==>
            |xs| == |ys| && forall i :: 0 <= i < |xs| ==> ValueOf(xs[i]) == ValueOf(ys[i])
  {
    var vs, ws := ValueOf(Sequence(xs)).elements, ValueOf(Sequence(ys)).elements;
    assert |vs| == |xs| && forall i :: 0 <= i < |xs| ==> vs[i] == ValueOf(xs[i]);
    assert |ws| == |ys| && forall i :: 0 <= i < |ys| ==> ws[i] == ValueOf(ys[i]);
    if vs == ws {
      assert forall i :: 0 <= i < |xs| ==> vs[i] == ws[i];
    }
  }

  /** For unambiguous texts, canonical bytes are equal exactly when the texts
      are the same tree, member order aside. */
  lemma CanonicalIgnoresOrder(a: Raw, b: Raw)
    requires WellFormed(a) && WellFormed(b) && NoRepeatedKey(a) && NoRepeatedKey(b)
    ensures CanonicalBytes(ValueOf(a)) == CanonicalBytes(ValueOf(b)) <==> SameTree(a, b)
  {
    SameTreeSameValue(a, b);
    CanonicalInjective(ValueOf(a), ValueOf(b));
  }
}
