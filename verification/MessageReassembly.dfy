/** Putting a streamed Anthropic message back together. */
module MessageReassembly {
  import opened Wrappers
  import opened Json

  type Members = map<string, Json>

  /** A server-sent event whose data parsed as JSON. */
  datatype Frame = Frame(eventType: string, value: Json)

  function Get(v: Json, key: string): Option<Json> {
    if v.Obj? && key in v.members then Some(v.members[key]) else None
  }

  function StrOf(v: Option<Json>): Option<string> {
    if v.Some? && v.value.Str? then Some(v.value.text) else None
  }

  function ObjOf(v: Option<Json>): Option<Members> {
    if v.Some? && v.value.Obj? then Some(v.value.members) else None
  }

  function Kind(v: Json): Option<string> { StrOf(Get(v, "type")) }

  function Decimal(s: string): Option<nat> {
    if s == [] then Some(0)
    else
      var front := Decimal(s[..|s| - 1]);
      var c := s[|s| - 1];
      if front.None? || !('0' <= c <= '9') then None else Some(front.value * 10 + (c as int - '0' as int))
  }

  /** The `index` member as an unsigned 64-bit integer, else 0. */
  function IndexOf(v: Json): nat {
    var index := Get(v, "index");
    if index.Some? && index.value.Num? then
      var n := Decimal(index.value.token);
      if n.Some? && n.value < 0x1_0000_0000_0000_0000 then n.value else 0
    else 0
  }

  datatype Event =
    | Failure(value: Json)
    | MessageStart(start: Option<Members>)
    | BlockStart(index: nat, block: Option<Json>)
    | BlockDelta(index: nat, delta: Option<Json>)
    | MessageDelta(change: Option<Json>, used: Option<Members>)
    | Ignored

  function Classify(f: Frame): Event {
    if f.eventType == "error" || Kind(f.value) == Some("error") then Failure(f.value)
    else
      match Kind(f.value)
      case Some("message_start") => MessageStart(ObjOf(Get(f.value, "message")))
      case Some("content_block_start") => BlockStart(IndexOf(f.value), Get(f.value, "content_block"))
      case Some("content_block_delta") => BlockDelta(IndexOf(f.value), Get(f.value, "delta"))
      case Some("message_delta") => MessageDelta(Get(f.value, "delta"), ObjOf(Get(f.value, "usage")))
      case _ => Ignored
  }

  // Blocks.

  const EMPTY_TEXT: Json := Obj(map["type" := Str("text"), "text" := Str("")])

  /** The member a delta extends, by the delta's type. */
  function ExtendedField(delta: Json): Option<string> {
    match Kind(delta)
    case Some("text_delta") => Some("text")
    case Some("thinking_delta") => Some("thinking")
    case Some("signature_delta") => Some("signature")
    case Some("input_json_delta") => Some("partial_json")
    case _ => None
  }

  /** The member and the text that a delta adds to it, when it adds any. */
  function Addition(delta: Option<Json>): Option<(string, string)> {
    if delta.None? || ExtendedField(delta.value).None? then None
    else
      var field := ExtendedField(delta.value).value;
      var text := StrOf(Get(delta.value, field));
      if text.None? then None else Some((field, text.value))
  }

  function TextIn(members: Members, field: string): string {
    if field in members && members[field].Str? then members[field].text else ""
  }

  function ApplyDelta(block: Json, delta: Option<Json>): Json {
    var addition := Addition(delta);
    if addition.None? || !block.Obj? then block
    else
      var (field, text) := addition.value;
      Obj(block.members[field := Str(TextIn(block.members, field) + text)])
  }

  /** Parsing of the accumulated argument text; None when it is not JSON. */
  type Parser = string -> Option<Json>

  /** No tool call keeps its streaming-only member, and each has an object as
      its arguments. */
  function FinalizeToolUse(block: Json, parse: Parser): (done: Json)
    ensures Kind(done) == Kind(block)
    ensures Kind(done) == Some("tool_use") ==> Get(done, "partial_json").None? && ObjOf(Get(done, "input")).Some?
  {
    if Kind(block) != Some("tool_use") then block
    else
      var partial := StrOf(Get(block, "partial_json"));
      var members := block.members - {"partial_json"};
      var input := ObjOf(Get(Obj(members), "input"));
      if input.Some? && input.value != map[] then Obj(members)
      else
        var parsed := if partial.Some? then parse(partial.value) else None;
        Obj(members["input" := if parsed.Some? && parsed.value.Obj? then parsed.value else Obj(map[])])
  }

  // The three parts of the aggregation.

  function Padded(content: seq<Json>, index: nat): (padded: seq<Json>)
    ensures |padded| == if index < |content| then |content| else index + 1
    ensures forall k :: 0 <= k < |padded| ==> padded[k] == if k < |content| then content[k] else EMPTY_TEXT
  {
    if index < |content| then content
    else content + seq(index + 1 - |content|, _ => EMPTY_TEXT)
  }

  function ContentStep(content: seq<Json>, e: Event): seq<Json> {
    match e
    case BlockStart(index, block) =>
      var padded := Padded(content, index);
      if block.Some? then padded[index := block.value] else padded
    case BlockDelta(index, delta) =>
      var padded := Padded(content, index);
      padded[index := ApplyDelta(padded[index], delta)]
    case _ => content
  }

  datatype Head = Head(fields: Members, stopReason: Option<Json>, stopSequence: Option<Json>, usage: Json)

  const KEPT: seq<string> := ["id", "type", "role", "model"]
  const NO_USAGE: Json := Obj(map["input_tokens" := Num("0"), "output_tokens" := Num("0")])
  const NO_HEAD := Head(map[], None, None, NO_USAGE)

  function Selected(start: Members): Members { map k | k in start && k in KEPT :: start[k] }

  function HeadStep(h: Head, e: Event): Head {
    match e
    case MessageStart(Some(start)) =>
      h.(fields := h.fields + Selected(start), usage := if "usage" in start then start["usage"] else h.usage)
    case MessageDelta(change, used) =>
      var reason := if change.Some? then Get(change.value, "stop_reason") else None;
      var sequence := if change.Some? then Get(change.value, "stop_sequence") else None;
      h.(stopReason := if reason.Some? then reason else h.stopReason,
         stopSequence := if sequence.Some? then sequence else h.stopSequence,
         usage := if used.Some? && h.usage.Obj? then Obj(h.usage.members + used.value) else h.usage)
    case _ => h
  }

  function FailureStep(failure: Option<Json>, e: Event): Option<Json> {
    if e.Failure? then Some(e.value) else failure
  }

  function Content(events: seq<Event>): seq<Json> {
    if events == [] then [] else ContentStep(Content(events[..|events| - 1]), events[|events| - 1])
  }

  function HeadOf(events: seq<Event>): Head {
    if events == [] then NO_HEAD else HeadStep(HeadOf(events[..|events| - 1]), events[|events| - 1])
  }

  /** The last failure among the events. */
  function LastFailure(events: seq<Event>): Option<Json> {
    if events == [] then None else FailureStep(LastFailure(events[..|events| - 1]), events[|events| - 1])
  }

  function OrElse(v: Option<Json>, other: Json): Json { if v.Some? then v.value else other }

  const DEFAULTS: Members :=
    map["id" := Str("msg_ai_fence_stream"), "type" := Str("message"), "role" := Str("assistant")]

  /** The members of a message that only the end of the stream settles. */
  function Ending(h: Head, content: seq<Json>): Members {
    map["content" := Arr(content), "stop_reason" := OrElse(h.stopReason, Null),
        "stop_sequence" := OrElse(h.stopSequence, Null), "usage" := h.usage]
  }

  function Message(h: Head, content: seq<Json>): Json { Obj(DEFAULTS + h.fields + Ending(h, content)) }

  function Finalized(content: seq<Json>, parse: Parser): (done: seq<Json>)
    ensures |done| == |content|
    ensures forall i :: 0 <= i < |done| ==> done[i] == FinalizeToolUse(content[i], parse)
  {
    seq(|content|, i requires 0 <= i < |content| => FinalizeToolUse(content[i], parse))
  }

  function Events(frames: seq<Frame>): (events: seq<Event>)
    ensures |events| == |frames|
    ensures forall i :: 0 <= i < |events| ==> events[i] == Classify(frames[i])
  {
    seq(|frames|, i requires 0 <= i < |frames| => Classify(frames[i]))
  }

  /** The aggregation loop. The body is the last error, when there is one, and
      otherwise the message. */
  method Synthesize(frames: seq<Frame>, parse: Parser) returns (body: Json, isError: bool)
    ensures isError <==> exists i :: 0 <= i < |frames| && IsError(frames[i])
    ensures forall i :: 0 <= i < |frames| && IsError(frames[i]) && (forall k :: i < k < |frames| ==> !IsError(frames[k]))
              ==> body == frames[i].value
    ensures !isError ==> body == Message(HeadOf(Events(frames)), Finalized(Content(Events(frames)), parse))
  {
    var head := NO_HEAD;
    var content: seq<Json> := [];
    var streamError: Option<Json> := None;
    ghost var events := Events(frames);
    for n := 0 to |frames|
      invariant content == Content(events[..n])
      invariant head == HeadOf(events[..n])
      invariant streamError == LastFailure(events[..n])
    {
      assert events[..n + 1][..n] == events[..n];
      var e := Classify(frames[n]);
      if e.Failure? {
        streamError := Some(e.value);
      } else {
        head := AggregateHead(head, e);
        content := AggregateContent(content, e);
      }
    }
    assert events[..|events|] == events;
    NoFailureIs(frames);
    if streamError.Some? {
      forall i | 0 <= i < |frames| && IsError(frames[i]) && forall k :: i < k < |frames| ==> !IsError(frames[k])
        ensures streamError == Some(frames[i].value)
      {
        LastFailureIs(frames, i);
      }
      return streamError.value, true;
    }
    content := FinalizeContent(content, parse);
    return Message(head, content), false;
  }

  /** What the start and the delta of a message change. */
  method AggregateHead(before: Head, e: Event) returns (head: Head)
    ensures head == HeadStep(before, e)
  {
    var fields, stopReason, stopSequence, usage := before.fields, before.stopReason, before.stopSequence, before.usage;
    if e.MessageStart? && e.start.Some? {
      fields := fields + Selected(e.start.value);
      if "usage" in e.start.value {
        usage := e.start.value["usage"];
      }
    } else if e.MessageDelta? {
      if e.change.Some? {
        if Get(e.change.value, "stop_reason").Some? {
          stopReason := Get(e.change.value, "stop_reason");
        }
        if Get(e.change.value, "stop_sequence").Some? {
          stopSequence := Get(e.change.value, "stop_sequence");
        }
      }
      if e.used.Some? && usage.Obj? {
        usage := Obj(usage.members + e.used.value);
      }
    }
    return Head(fields, stopReason, stopSequence, usage);
  }

  /** What the start and the deltas of a block change. */
  method AggregateContent(before: seq<Json>, e: Event) returns (content: seq<Json>)
    ensures content == ContentStep(before, e)
  {
    content := before;
    if e.BlockStart? {
      content := EnsureContentIndex(content, e.index);
      if e.block.Some? {
        content := content[e.index := e.block.value];
      }
    } else if e.BlockDelta? {
      content := EnsureContentIndex(content, e.index);
      content := content[e.index := ApplyDelta(content[e.index], e.delta)];
    }
  }

  method FinalizeContent(before: seq<Json>, parse: Parser) returns (content: seq<Json>)
    ensures content == Finalized(before, parse)
  {
    content := before;
    for i := 0 to |content|
      invariant |content| == |before|
      invariant forall k :: 0 <= k < i ==> content[k] == FinalizeToolUse(before[k], parse)
      invariant forall k :: i <= k < |content| ==> content[k] == before[k]
    {
      content := content[i := FinalizeToolUse(content[i], parse)];
    }
  }

  method EnsureContentIndex(content: seq<Json>, index: nat) returns (padded: seq<Json>)
    ensures padded == Padded(content, index)
  {
    padded := content;
    while |padded| <= index
      invariant |content| <= |padded|
      invariant |padded| <= if index < |content| then |content| else index + 1
      invariant forall k :: 0 <= k < |padded| ==> padded[k] == if k < |content| then content[k] else EMPTY_TEXT
    {
      padded := padded + [EMPTY_TEXT];
    }
  }

  // Interleaving: a block depends only on its own events, in their order.

  datatype BlockEvent = Begin(block: Option<Json>) | Extend(delta: Option<Json>)

  function Concerning(e: Event, i: nat): Option<BlockEvent> {
    match e
    case BlockStart(index, block) => if index == i then Some(Begin(block)) else None
    case BlockDelta(index, delta) => if index == i then Some(Extend(delta)) else None
    case _ => None
  }

  /** The events of block i, in order. */
  function BlockEvents(events: seq<Event>, i: nat): seq<BlockEvent> {
    if events == [] then []
    else
      var earlier := BlockEvents(events[..|events| - 1], i);
      var last := Concerning(events[|events| - 1], i);
      if last.Some? then earlier + [last.value] else earlier
  }

  function BlockStep(b: Json, e: BlockEvent): Json {
    match e
    case Begin(block) => OrElse(block, b)
    case Extend(delta) => ApplyDelta(b, delta)
  }

  function BlockAfter(own: seq<BlockEvent>): Json {
    if own == [] then EMPTY_TEXT else BlockStep(BlockAfter(own[..|own| - 1]), own[|own| - 1])
  }

  /** One more than the largest index any event names. */
  function Extent(events: seq<Event>): nat {
    if events == [] then 0
    else
      var earlier := Extent(events[..|events| - 1]);
      var e := events[|events| - 1];
      if (e.BlockStart? || e.BlockDelta?) && earlier <= e.index then e.index + 1 else earlier
  }

  lemma {:induction false} ContentExtent(events: seq<Event>)
    ensures |Content(events)| == Extent(events)
  {
    if events != [] {
      ContentExtent(events[..|events| - 1]);
    }
  }

  /** One event does to a block what its own part of it says. */
  lemma StepByBlock(content: seq<Json>, e: Event, i: nat)
    ensures var after := ContentStep(content, e);
            var before := if i < |content| then content[i] else EMPTY_TEXT;
            && |content| <= |after|
            && (i < |after| ==> after[i] == if Concerning(e, i).Some? then BlockStep(before, Concerning(e, i).value) else before)
            && (i >= |after| ==> Concerning(e, i).None?)
  {
  }

  lemma BlockAfterSnoc(own: seq<BlockEvent>, e: BlockEvent)
    ensures BlockAfter(own + [e]) == BlockStep(BlockAfter(own), e)
  {
    assert (own + [e])[..|own|] == own;
  }

  lemma {:induction false} ContentByBlock(events: seq<Event>, i: nat)
    ensures i < |Content(events)| ==> Content(events)[i] == BlockAfter(BlockEvents(events, i))
    ensures i >= |Content(events)| ==> BlockEvents(events, i) == []
  {
    if events != [] {
      var earlier, e := events[..|events| - 1], events[|events| - 1];
      var own := BlockEvents(earlier, i);
      ContentByBlock(earlier, i);
      StepByBlock(Content(earlier), e, i);
      if Concerning(e, i).Some? {
        BlockAfterSnoc(own, Concerning(e, i).value);
      }
      assert BlockAfter([]) == EMPTY_TEXT;
    }
  }

  // Chunking: deltas add up to the concatenation of their texts.

  function Extensions(deltas: seq<Option<Json>>): (own: seq<BlockEvent>)
    ensures |own| == |deltas|
    ensures forall i :: 0 <= i < |own| ==> own[i] == Extend(deltas[i])
  {
    seq(|deltas|, i requires 0 <= i < |deltas| => Extend(deltas[i]))
  }

  /** The texts that the deltas add to a field, joined. */
  function Joined(deltas: seq<Option<Json>>, field: string): string {
    if deltas == [] then ""
    else
      var a := Addition(deltas[|deltas| - 1]);
      Joined(deltas[..|deltas| - 1], field) + (if a.Some? && a.value.0 == field then a.value.1 else "")
  }

  predicate Extended(deltas: seq<Option<Json>>, field: string) {
    deltas != [] && (Extended(deltas[..|deltas| - 1], field)
                     || (Addition(deltas[|deltas| - 1]).Some? && Addition(deltas[|deltas| - 1]).value.0 == field))
  }

  function Streamed(start: Members, deltas: seq<Option<Json>>): Json {
    BlockAfter([Begin(Some(Obj(start)))] + Extensions(deltas))
  }

  /** What streaming makes of the member `f`. */
  ghost predicate Grown(raw: Json, start: Members, deltas: seq<Option<Json>>, f: string) {
    && raw.Obj?
    && if Extended(deltas, f) then f in raw.members && raw.members[f] == Str(TextIn(start, f) + Joined(deltas, f))
       else (f in raw.members <==> f in start) && (f in start ==> raw.members[f] == start[f])
  }

  lemma StreamedSnoc(start: Members, earlier: seq<Option<Json>>, last: Option<Json>)
    ensures Streamed(start, earlier + [last]) == ApplyDelta(Streamed(start, earlier), last)
  {
    var begin := [Begin(Some(Obj(start)))];
    BlockAfterSnoc(begin + Extensions(earlier), Extend(last));
    assert begin + Extensions(earlier + [last]) == begin + Extensions(earlier) + [Extend(last)];
  }

  lemma StreamedNothing(start: Members)
    ensures Streamed(start, []) == Obj(start)
  {
    var begin := [Begin(Some(Obj(start)))];
    BlockAfterSnoc([], begin[0]);
    assert [] + begin == begin && begin + Extensions([]) == begin;
  }

  lemma JoinedSnoc(earlier: seq<Option<Json>>, last: Option<Json>, f: string)
    ensures var a := Addition(last);
            var adds := a.Some? && a.value.0 == f;
            && Joined(earlier + [last], f) == Joined(earlier, f) + (if adds then a.value.1 else "")
            && (Extended(earlier + [last], f) <==> Extended(earlier, f) || adds)
  {
    assert (earlier + [last])[..|earlier|] == earlier;
  }

  predicate Adds(delta: Option<Json>, f: string) { Addition(delta).Some? && Addition(delta).value.0 == f }

  /** One delta changes the member that it names and no other. */
  lemma AppliedMember(raw: Json, delta: Option<Json>, f: string)
    requires raw.Obj?
    ensures var v := ApplyDelta(raw, delta);
            && v.Obj?
            && (if Adds(delta, f) then
                  f in v.members && v.members[f] == Str(TextIn(raw.members, f) + Addition(delta).value.1)
                else (f in v.members <==> f in raw.members) && (f in raw.members ==> v.members[f] == raw.members[f]))
  {
  }

  lemma GrownSnoc(raw: Json, start: Members, earlier: seq<Option<Json>>, last: Option<Json>, f: string)
    requires Grown(raw, start, earlier, f) && (!Extended(earlier, f) ==> Joined(earlier, f) == "")
    ensures Grown(ApplyDelta(raw, last), start, earlier + [last], f)
  {
    JoinedSnoc(earlier, last, f);
    AppliedMember(raw, last, f);
    if Adds(last, f) {
      var text := Addition(last).value.1;
      assert TextIn(raw.members, f) == TextIn(start, f) + Joined(earlier, f);
      assert TextIn(start, f) + Joined(earlier, f) + text == TextIn(start, f) + (Joined(earlier, f) + text);
    }
  }

  /** Whatever the chunking and whatever the order of deltas for different
      fields: a field that deltas name holds its first text followed by theirs,
      and every other field is as it was. */
  lemma {:induction false} ChunksJoin(start: Members, deltas: seq<Option<Json>>, f: string)
    ensures Grown(Streamed(start, deltas), start, deltas, f)
    ensures !Extended(deltas, f) ==> Joined(deltas, f) == ""
  {
    if deltas == [] {
      StreamedNothing(start);
    } else {
      var earlier, last := deltas[..|deltas| - 1], deltas[|deltas| - 1];
      ChunksJoin(start, earlier, f);
      assert deltas == earlier + [last];
      StreamedSnoc(start, earlier, last);
      GrownSnoc(Streamed(start, earlier), start, earlier, last, f);
      JoinedSnoc(earlier, last, f);
    }
  }

  // The round trip.

  /** The members of a block that streaming may touch. */
  const STREAMED: set<string> := {"text", "thinking", "signature", "partial_json"}

  /** A start event and deltas that stream the block: the start has every other
      member as it is, and each streamed member is cut into the start's text and
      chunks at will. For a tool call the arguments are cut the same way, into
      the text of the object, unless the start already carries them. */
  ghost predicate Streams(block: Members, start: Members, deltas: seq<Option<Json>>, parse: Parser) {
    if Kind(Obj(block)) == Some("tool_use") then
      && "partial_json" !in block && "input" in block && block["input"].Obj?
      && (forall f :: f !in {"partial_json", "input"} ==> SameMember(block, start, deltas, f))
      && (if ObjOf(Get(Obj(start), "input")).Some? && start["input"] != Obj(map[]) then start["input"] == block["input"]
          else if Extended(deltas, "partial_json") then
            parse(TextIn(start, "partial_json") + Joined(deltas, "partial_json")) == Some(block["input"])
          else block["input"] == Obj(map[]) && "partial_json" !in start)
    else forall f :: SameMember(block, start, deltas, f)
  }

  ghost predicate SameMember(block: Members, start: Members, deltas: seq<Option<Json>>, f: string) {
    if Extended(deltas, f) then f in block && block[f] == Str(TextIn(start, f) + Joined(deltas, f))
    else (f in block <==> f in start) && (f in block ==> block[f] == start[f])
  }

  lemma {:induction false} OnlyStreamedExtended(deltas: seq<Option<Json>>, f: string)
    ensures Extended(deltas, f) ==> f in STREAMED
  {
    if deltas != [] {
      OnlyStreamedExtended(deltas[..|deltas| - 1], f);
    }
  }

  /** A streamed block comes back as it was. */
  lemma BlockRoundTrip(block: Members, start: Members, deltas: seq<Option<Json>>, parse: Parser)
    requires Streams(block, start, deltas, parse)
    ensures FinalizeToolUse(Streamed(start, deltas), parse) == Obj(block)
  {
    if Kind(Obj(block)) == Some("tool_use") {
      ToolRoundTrip(block, start, deltas, parse);
    } else {
      ChunksJoin(start, deltas, "type");
      var raw := Streamed(start, deltas).members;
      forall f
        ensures f in raw <==> f in block
        ensures f in raw ==> raw[f] == block[f]
      {
        ChunksJoin(start, deltas, f);
        assert SameMember(block, start, deltas, f);
      }
      assert raw == block;
    }
  }

  lemma ToolRoundTrip(block: Members, start: Members, deltas: seq<Option<Json>>, parse: Parser)
    requires Streams(block, start, deltas, parse) && Kind(Obj(block)) == Some("tool_use")
    ensures FinalizeToolUse(Streamed(start, deltas), parse) == Obj(block)
  {
    ChunksJoin(start, deltas, "type");
    ChunksJoin(start, deltas, "input");
    ChunksJoin(start, deltas, "partial_json");
    OnlyStreamedExtended(deltas, "type");
    OnlyStreamedExtended(deltas, "input");
    var raw := Streamed(start, deltas).members;
    assert SameMember(block, start, deltas, "type");
    var done := FinalizeToolUse(Obj(raw), parse).members;
    assert done["input"] == block["input"];
    forall f | f !in {"partial_json", "input"}
      ensures f in done <==> f in block
      ensures f in done ==> done[f] == block[f]
    {
      ChunksJoin(start, deltas, f);
      assert SameMember(block, start, deltas, f);
    }
    assert "partial_json" !in done;
    assert done == block;
  }

  /** The events that are about the message as a whole. */
  function HeadEvents(events: seq<Event>): seq<Event> {
    if events == [] then []
    else
      var earlier, e := HeadEvents(events[..|events| - 1]), events[|events| - 1];
      if e.MessageStart? || e.MessageDelta? then earlier + [e] else earlier
  }

  lemma {:induction false} HeadByOwn(events: seq<Event>)
    ensures HeadOf(events) == HeadOf(HeadEvents(events))
  {
    if events != [] {
      var earlier, e := events[..|events| - 1], events[|events| - 1];
      HeadByOwn(earlier);
      assert (HeadEvents(earlier) + [e])[..|HeadEvents(earlier)|] == HeadEvents(earlier);
    }
  }

  /** How a message was streamed: the fields of the event that opened it and of
      the one that closed it, none when there was no such event, and how each
      block was started and cut; a block without a start has no events. */
  datatype Stream = Stream(
    begins: bool, opening: Members,
    ends: bool, change: Members, used: Members,
    starts: seq<Option<Members>>, deltas: seq<seq<Option<Json>>>)

  function Blocks(blocks: seq<Members>): (vs: seq<Json>)
    ensures |vs| == |blocks|
    ensures forall i :: 0 <= i < |vs| ==> vs[i] == Obj(blocks[i])
  {
    seq(|blocks|, i requires 0 <= i < |blocks| => Obj(blocks[i]))
  }

  /** A member that is there, or else what stands for it. */
  function Either(members: Members, k: string, other: Json): Json {
    if k in members then members[k] else other
  }

  function Merged(usage: Json, used: Members): Json {
    if usage.Obj? then Obj(usage.members + used) else usage
  }

  /** The message of the given blocks that the stream's first and last events
      describe. */
  ghost predicate Describes(s: Stream, message: Members, blocks: seq<Members>) {
    && (forall k :: k in message <==>
          k in {"id", "type", "role", "content", "stop_reason", "stop_sequence", "usage"}
          || (k == "model" && "model" in s.opening))
    && message["id"] == Either(s.opening, "id", Str("msg_ai_fence_stream"))
    && message["type"] == Either(s.opening, "type", Str("message"))
    && message["role"] == Either(s.opening, "role", Str("assistant"))
    && ("model" in s.opening ==> message["model"] == s.opening["model"])
    && message["stop_reason"] == Either(s.change, "stop_reason", Null)
    && message["stop_sequence"] == Either(s.change, "stop_sequence", Null)
    && message["usage"]
       == Merged(Either(s.opening, "usage", Obj(map["input_tokens" := Num("0"), "output_tokens" := Num("0")])), s.used)
    && message["content"] == Arr(Blocks(blocks))
    && (!s.begins ==> s.opening == map[]) && (!s.ends ==> s.change == map[] && s.used == map[])
  }

  /** The events of a block: its start and then its deltas, or none at all, which
      leaves an empty text. */
  ghost predicate StreamsBlock(own: seq<BlockEvent>, start: Option<Members>, deltas: seq<Option<Json>>,
                               block: Members, parse: Parser) {
    match start
    case None => own == [] && block == map["type" := Str("text"), "text" := Str("")]
    case Some(members) => own == [Begin(Some(Obj(members)))] + Extensions(deltas) && Streams(block, members, deltas, parse)
  }

  function OpeningEvents(s: Stream): seq<Event> { if s.begins then [MessageStart(Some(s.opening))] else [] }

  function ClosingEvents(s: Stream): seq<Event> {
    if s.ends then [MessageDelta(Some(Obj(s.change)), Some(s.used))] else []
  }

  /** The events stream the message. Events of different blocks are in any order. */
  ghost predicate StreamsMessage(events: seq<Event>, s: Stream, message: Members,
                                 blocks: seq<Members>, parse: Parser) {
    && LastFailure(events).None?
    && HeadEvents(events) == OpeningEvents(s) + ClosingEvents(s)
    && Describes(s, message, blocks)
    && |s.starts| == |s.deltas| == |blocks| == Extent(events)
    && forall i :: 0 <= i < |blocks| ==>
         StreamsBlock(BlockEvents(events, i), s.starts[i], s.deltas[i], blocks[i], parse)
  }

  function Given(members: Members, k: string): Option<Json> { if k in members then Some(members[k]) else None }

  function DescribedHead(s: Stream): Head {
    Head(Selected(s.opening), Given(s.change, "stop_reason"), Given(s.change, "stop_sequence"),
         Merged(Either(s.opening, "usage", NO_USAGE), s.used))
  }

  lemma HeadSnoc(events: seq<Event>, e: Event)
    ensures HeadOf(events + [e]) == HeadStep(HeadOf(events), e)
  {
    assert (events + [e])[..|events|] == events;
  }

  lemma HeadOpened(s: Stream)
    requires !s.begins ==> s.opening == map[]
    ensures HeadOf(OpeningEvents(s)) == Head(Selected(s.opening), None, None, Either(s.opening, "usage", NO_USAGE))
  {
    if s.begins {
      HeadSnoc([], MessageStart(Some(s.opening)));
      assert [] + OpeningEvents(s) == OpeningEvents(s);
      assert map[] + Selected(s.opening) == Selected(s.opening);
    } else {
      assert Selected(map[]) == map[];
    }
  }

  lemma HeadClosed(h: Head, change: Members, used: Members)
    ensures HeadStep(h, MessageDelta(Some(Obj(change)), Some(used)))
            == Head(h.fields, if "stop_reason" in change then Some(change["stop_reason"]) else h.stopReason,
                    if "stop_sequence" in change then Some(change["stop_sequence"]) else h.stopSequence,
                    Merged(h.usage, used))
  {
  }

  lemma NothingMerged(usage: Json)
    ensures Merged(usage, map[]) == usage
  {
    if usage.Obj? {
      assert usage.members + map[] == usage.members;
    }
  }

  lemma HeadDescribed(s: Stream)
    requires (!s.begins ==> s.opening == map[]) && (!s.ends ==> s.change == map[] && s.used == map[])
    ensures HeadOf(OpeningEvents(s) + ClosingEvents(s)) == DescribedHead(s)
  {
    HeadOpened(s);
    var first := OpeningEvents(s);
    if s.ends {
      HeadSnoc(first, MessageDelta(Some(Obj(s.change)), Some(s.used)));
      HeadClosed(HeadOf(first), s.change, s.used);
    } else {
      assert first + ClosingEvents(s) == first;
      NothingMerged(Either(s.opening, "usage", NO_USAGE));
    }
  }

  lemma BlockStreamed(events: seq<Event>, i: nat, start: Option<Members>, deltas: seq<Option<Json>>,
                      block: Members, parse: Parser)
    requires i < |Content(events)| && StreamsBlock(BlockEvents(events, i), start, deltas, block, parse)
    ensures FinalizeToolUse(Content(events)[i], parse) == Obj(block)
  {
    ContentByBlock(events, i);
    if start.Some? {
      BlockRoundTrip(block, start.value, deltas, parse);
    } else {
      assert BlockAfter([]) == EMPTY_TEXT;
    }
  }

  lemma ContentStreamed(events: seq<Event>, starts: seq<Option<Members>>, deltas: seq<seq<Option<Json>>>,
                        blocks: seq<Members>, parse: Parser)
    requires |starts| == |deltas| == |blocks| == |Content(events)|
    requires forall i :: 0 <= i < |blocks| ==> StreamsBlock(BlockEvents(events, i), starts[i], deltas[i], blocks[i], parse)
    ensures Finalized(Content(events), parse) == Blocks(blocks)
  {
    forall i | 0 <= i < |blocks|
      ensures FinalizeToolUse(Content(events)[i], parse) == Obj(blocks[i])
    {
      BlockStreamed(events, i, starts[i], deltas[i], blocks[i], parse);
    }
  }

  /** Whatever the chunking and the interleaving, the streamed message comes
      back exactly. */
  lemma MessageRoundTrip(events: seq<Event>, s: Stream, message: Members, blocks: seq<Members>, parse: Parser)
    requires StreamsMessage(events, s, message, blocks, parse)
    ensures Message(HeadOf(events), Finalized(Content(events), parse)) == Obj(message)
  {
    HeadByOwn(events);
    HeadDescribed(s);
    ContentExtent(events);
    ContentStreamed(events, s.starts, s.deltas, blocks, parse);
    SameMessage(s, message, blocks);
  }

  predicate AboutWhole(k: string) { k == "content" || k == "stop_reason" || k == "stop_sequence" || k == "usage" }

  lemma EndingKeys(h: Head, content: seq<Json>, k: string)
    ensures k in Ending(h, content) <==> AboutWhole(k)
  {
  }

  lemma EndingValues(h: Head, content: seq<Json>)
    ensures var ending := Ending(h, content);
            && ending["content"] == Arr(content) && ending["usage"] == h.usage
            && ending["stop_reason"] == OrElse(h.stopReason, Null)
            && ending["stop_sequence"] == OrElse(h.stopSequence, Null)
  {
  }

  /** A member that the end of the stream settles. */
  lemma SameWhole(s: Stream, message: Members, blocks: seq<Members>, k: string)
    requires Describes(s, message, blocks) && AboutWhole(k)
    ensures var built := Message(DescribedHead(s), Blocks(blocks)).members;
            k in built && k in message && built[k] == message[k]
  {
    var h := DescribedHead(s);
    EndingKeys(h, Blocks(blocks), k);
    assert Message(h, Blocks(blocks)).members[k] == Ending(h, Blocks(blocks))[k];
    EndingValues(h, Blocks(blocks));
  }

  lemma KeptKeys(k: string)
    ensures k in KEPT <==> k == "id" || k == "type" || k == "role" || k == "model"
    ensures k in DEFAULTS <==> k == "id" || k == "type" || k == "role"
  {
  }

  /** A member that only the start of the message gives. */
  lemma StartMember(h: Head, content: seq<Json>, opening: Members, k: string)
    requires h.fields == Selected(opening) && !AboutWhole(k)
    ensures var built := Message(h, content).members;
            && (k in built <==> k in DEFAULTS || (k in KEPT && k in opening))
            && (k in built ==> built[k] == if k in KEPT && k in opening then opening[k] else DEFAULTS[k])
  {
    EndingKeys(h, content, k);
    KeptKeys(k);
  }

  lemma SameStart(s: Stream, message: Members, blocks: seq<Members>, k: string)
    requires Describes(s, message, blocks) && !AboutWhole(k)
    ensures var built := Message(DescribedHead(s), Blocks(blocks)).members;
            (k in built <==> k in message) && (k in built ==> built[k] == message[k])
  {
    StartMember(DescribedHead(s), Blocks(blocks), s.opening, k);
    KeptKeys(k);
  }

  lemma SameMemberAt(s: Stream, message: Members, blocks: seq<Members>, k: string)
    requires Describes(s, message, blocks)
    ensures SameAt(Message(DescribedHead(s), Blocks(blocks)).members, message, k)
  {
    if AboutWhole(k) {
      SameWhole(s, message, blocks, k);
    } else {
      SameStart(s, message, blocks, k);
    }
  }

  lemma SameMessage(s: Stream, message: Members, blocks: seq<Members>)
    requires Describes(s, message, blocks)
    ensures Message(DescribedHead(s), Blocks(blocks)) == Obj(message)
  {
    var built := Message(DescribedHead(s), Blocks(blocks)).members;
    forall k
      ensures SameAt(built, message, k)
    {
      SameMemberAt(s, message, blocks, k);
    }
    SameMaps(built, message);
  }

  /** An error event: by its name or by the type of its data. */
  predicate IsError(f: Frame) {
    f.eventType == "error" || (f.value.Obj? && "type" in f.value.members && f.value.members["type"] == Str("error"))
  }

  lemma {:induction false} LastFailureIs(frames: seq<Frame>, i: nat)
    requires i < |frames| && IsError(frames[i]) && forall k :: i < k < |frames| ==> !IsError(frames[k])
    ensures LastFailure(Events(frames)) == Some(frames[i].value)
  {
    var n := |frames| - 1;
    assert Events(frames)[..n] == Events(frames[..n]);
    if i < n {
      LastFailureIs(frames[..n], i);
    }
  }

  lemma {:induction false} NoFailureIs(frames: seq<Frame>)
    ensures LastFailure(Events(frames)).None? <==> forall k :: 0 <= k < |frames| ==> !IsError(frames[k])
  {
    if frames != [] {
      var n := |frames| - 1;
      assert Events(frames)[..n] == Events(frames[..n]);
      NoFailureIs(frames[..n]);
      assert IsError(frames[n]) <==> Events(frames)[n].Failure?;
      assert forall k :: 0 <= k < n ==> IsError(frames[k]) == IsError(frames[..n][k]);
    }
  }
}
