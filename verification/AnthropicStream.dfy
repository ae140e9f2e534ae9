/** What a server streams, event by event with the names of the protocol, and what
    comes back. Nothing in the promises below depends on how the reassembly reads
    an event. */
module AnthropicStream {
  import opened CanonicalJson
  import opened Json
  import opened JsonText
  import opened MessageReassembly
  import opened SseFrames
  import opened Text
  import opened Wrappers

  // Writing.

  /** A part of a member of a block. */
  datatype Piece =
    | TextPiece(text: string)
    | ThinkingPiece(text: string)
    | SignaturePiece(text: string)
    | ArgumentsPiece(text: string)

  /** What a server sends. An event about a block names its index, and need not
      for block 0. */
  datatype Sent =
    | Opening(message: Members)
    | BlockOpening(index: Option<nat>, block: Members)
    | BlockPiece(index: Option<nat>, piece: Piece)
    | BlockEnd(number: nat)
    | Closing(change: Members, usage: Members)
    | End
    | KeepAlive

  function FieldOf(p: Piece): string {
    match p
    case TextPiece(_) => "text"
    case ThinkingPiece(_) => "thinking"
    case SignaturePiece(_) => "signature"
    case ArgumentsPiece(_) => "partial_json"
  }

  function DeltaFor(p: Piece): Json {
    match p
    case TextPiece(text) => Obj(map["type" := Str("text_delta"), "text" := Str(text)])
    case ThinkingPiece(text) => Obj(map["type" := Str("thinking_delta"), "thinking" := Str(text)])
    case SignaturePiece(text) => Obj(map["type" := Str("signature_delta"), "signature" := Str(text)])
    case ArgumentsPiece(text) => Obj(map["type" := Str("input_json_delta"), "partial_json" := Str(text)])
  }

  function DecimalText(n: nat): (s: string)
    ensures s != [] && forall i :: 0 <= i < |s| ==> Digit(s[i])
    ensures n > 0 ==> s[0] != '0'
    ensures n < 10 ==> |s| == 1
  {
    if n < 10 then ["0123456789"[n]] else DecimalText(n / 10) + ["0123456789"[n % 10]]
  }

  lemma {:induction false} AllDigits(s: string)
    requires forall i :: 0 <= i < |s| ==> Digit(s[i])
    ensures DigitsOf(s) == |s|
  {
    if s != [] {
      AllDigits(s[1..]);
    }
  }

  function IndexToken(n: nat): NumberToken {
    var s := DecimalText(n);
    AllDigits(s);
    assert IsNumberToken(s);
    s
  }

  function Indexed(index: Option<nat>, rest: Members): Json {
    if index.Some? then Obj(rest["index" := Num(IndexToken(index.value))]) else Obj(rest)
  }

  function FrameFor(e: Sent): Frame {
    match e
    case Opening(message) =>
      Frame("message_start", Obj(map["type" := Str("message_start"), "message" := Obj(message)]))
    case BlockOpening(index, block) =>
      Frame("content_block_start", Indexed(index, map["type" := Str("content_block_start"), "content_block" := Obj(block)]))
    case BlockPiece(index, piece) =>
      Frame("content_block_delta", Indexed(index, map["type" := Str("content_block_delta"), "delta" := DeltaFor(piece)]))
    case BlockEnd(number) =>
      Frame("content_block_stop", Indexed(Some(number), map["type" := Str("content_block_stop")]))
    case Closing(change, usage) =>
      Frame("message_delta", Obj(map["type" := Str("message_delta"), "delta" := Obj(change), "usage" := Obj(usage)]))
    case End => Frame("message_stop", Obj(map["type" := Str("message_stop")]))
    case KeepAlive => Frame("ping", Obj(map["type" := Str("ping")]))
  }

  function FramesFor(sent: seq<Sent>): (frames: seq<Frame>)
    ensures |frames| == |sent|
    ensures forall i :: 0 <= i < |frames| ==> frames[i] == FrameFor(sent[i])
  {
    seq(|sent|, i requires 0 <= i < |sent| => FrameFor(sent[i]))
  }

  // What the sent events say, on their own.

  /** The block an event is about. */
  function Place(e: Sent): Option<nat> {
    if e.BlockOpening? || e.BlockPiece? then Some(if e.index.Some? then e.index.value else 0) else None
  }

  /** How a block was sent: its first members, if it was opened, and its pieces. */
  datatype Cut = Cut(start: Option<Members>, pieces: seq<Piece>)

  /** The events about block i, in order. */
  function About(sent: seq<Sent>, i: nat): seq<Sent> {
    if sent == [] then []
    else
      var earlier, e := About(sent[..|sent| - 1], i), sent[|sent| - 1];
      if Place(e) == Some(i) then earlier + [e] else earlier
  }

  /** Block i is opened first and only once, and then sent in these pieces; a block
      that is not opened has no pieces. */
  ghost predicate SentAs(own: seq<Sent>, cut: Cut) {
    if cut.start.None? then own == [] && cut.pieces == []
    else
      && |own| == |cut.pieces| + 1
      && own[0].BlockOpening? && own[0].block == cut.start.value
      && forall k :: 0 <= k < |cut.pieces| ==> own[k + 1].BlockPiece? && own[k + 1].piece == cut.pieces[k]
  }

  /** The events about the message as a whole. */
  function Whole(sent: seq<Sent>): seq<Sent> {
    if sent == [] then []
    else
      var earlier, e := Whole(sent[..|sent| - 1]), sent[|sent| - 1];
      if e.Opening? || e.Closing? then earlier + [e] else earlier
  }

  /** The pieces of the member f, joined. */
  function PiecesOf(pieces: seq<Piece>, f: string): string {
    if pieces == [] then ""
    else PiecesOf(pieces[..|pieces| - 1], f) + (if FieldOf(pieces[|pieces| - 1]) == f then pieces[|pieces| - 1].text else "")
  }

  predicate HasPiece(pieces: seq<Piece>, f: string) { exists p :: p in pieces && FieldOf(p) == f }

  /** The text that a member has before any piece. */
  function FirstText(start: Members, f: string): string {
    if f in start && start[f].Str? then start[f].text else ""
  }

  /** The member f of a block is its first text and its pieces, or was sent as it is. */
  ghost predicate MemberCut(block: Members, start: Members, pieces: seq<Piece>, f: string) {
    if HasPiece(pieces, f) then f in block && block[f] == Str(FirstText(start, f) + PiecesOf(pieces, f))
    else SameAt(block, start, f)
  }

  /** The arguments of a tool call: in the start already, or as text that reads as
      them, or there are none. */
  ghost predicate ArgumentsCut(input: Json, start: Members, pieces: seq<Piece>, parse: Parser) {
    if "input" in start && start["input"].Obj? && start["input"] != Obj(map[]) then input == start["input"]
    else if HasPiece(pieces, "partial_json") then
      parse(FirstText(start, "partial_json") + PiecesOf(pieces, "partial_json")) == Some(input)
    else input == Obj(map[]) && "partial_json" !in start
  }

  /** The block was cut into this start and these pieces, at will. */
  ghost predicate BlockCut(block: Members, start: Members, pieces: seq<Piece>, parse: Parser) {
    if "type" in block && block["type"] == Str("tool_use") then
      && "partial_json" !in block && "input" in block && block["input"].Obj?
      && (forall f :: f != "partial_json" && f != "input" ==> MemberCut(block, start, pieces, f))
      && ArgumentsCut(block["input"], start, pieces, parse)
    else forall f :: MemberCut(block, start, pieces, f)
  }

  ghost predicate CutFrom(cut: Cut, block: Members, parse: Parser) {
    if cut.start.None? then block == map["type" := Str("text"), "text" := Str("")]
    else BlockCut(block, cut.start.value, cut.pieces, parse)
  }

  /** The message as its first and last events and its blocks give it. */
  ghost predicate Composed(message: Members, opening: Members, change: Members, usage: Members, blocks: seq<Members>) {
    && (forall k :: k in message <==>
          k in {"id", "type", "role", "content", "stop_reason", "stop_sequence", "usage"} || (k == "model" && k in opening))
    && message["id"] == (if "id" in opening then opening["id"] else Str("msg_ai_fence_stream"))
    && message["type"] == (if "type" in opening then opening["type"] else Str("message"))
    && message["role"] == (if "role" in opening then opening["role"] else Str("assistant"))
    && ("model" in opening ==> message["model"] == opening["model"])
    && message["stop_reason"] == (if "stop_reason" in change then change["stop_reason"] else Null)
    && message["stop_sequence"] == (if "stop_sequence" in change then change["stop_sequence"] else Null)
    && (if "usage" !in opening then
          message["usage"] == Obj(map["input_tokens" := Num("0"), "output_tokens" := Num("0")] + usage)
        else if opening["usage"].Obj? then message["usage"] == Obj(opening["usage"].members + usage)
        else message["usage"] == opening["usage"])
    && message["content"].Arr? && |message["content"].elements| == |blocks|
    && (forall i :: 0 <= i < |blocks| ==> message["content"].elements[i] == Obj(blocks[i]))
  }

  /** At most one opening, and then at most one closing. */
  ghost predicate Framed(sent: seq<Sent>, opening: Option<Members>, closing: Option<(Members, Members)>) {
    && var first := if opening.Some? then [Opening(opening.value)] else [];
    && var last := if closing.Some? then [Closing(closing.value.0, closing.value.1)] else [];
    && Whole(sent) == first + last
  }

  function Fields(opening: Option<Members>): Members { if opening.Some? then opening.value else map[] }

  function Change(closing: Option<(Members, Members)>): Members { if closing.Some? then closing.value.0 else map[] }

  function Usage(closing: Option<(Members, Members)>): Members { if closing.Some? then closing.value.1 else map[] }

  /** The events stream the message of these blocks, each cut as given. Events of
      different blocks are in any order, and block numbers fit 64 bits. */
  ghost predicate StreamsTo(sent: seq<Sent>, opening: Option<Members>, closing: Option<(Members, Members)>,
                            cuts: seq<Cut>, blocks: seq<Members>, message: Members, parse: Parser) {
    && Framed(sent, opening, closing)
    && Composed(message, Fields(opening), Change(closing), Usage(closing), blocks)
    && |cuts| == |blocks| < 0x1_0000_0000_0000_0000
    && (forall e :: e in sent && Place(e).Some? ==> Place(e).value < |blocks|)
    && (|blocks| > 0 ==> exists e :: e in sent && Place(e) == Some(|blocks| - 1))
    && (forall i :: 0 <= i < |blocks| ==> SentAs(About(sent, i), cuts[i]) && CutFrom(cuts[i], blocks[i], parse))
  }

  // How the reassembly takes the events.

  function EventFor(e: Sent): Event {
    match e
    case Opening(message) => MessageStart(Some(message))
    case BlockOpening(index, block) => BlockStart(if index.Some? then index.value else 0, Some(Obj(block)))
    case BlockPiece(index, piece) => BlockDelta(if index.Some? then index.value else 0, Some(DeltaFor(piece)))
    case Closing(change, usage) => MessageDelta(Some(Obj(change)), Some(usage))
    case _ => Ignored
  }

  lemma {:induction false} DecimalReads(n: nat)
    ensures Decimal(DecimalText(n)) == Some(n)
  {
    var s := DecimalText(n);
    var front := s[..|s| - 1];
    assert s == front + [s[|s| - 1]];
    if n < 10 {
      assert front == [];
    } else {
      DecimalReads(n / 10);
      assert front == DecimalText(n / 10);
    }
  }

  lemma IndexReads(index: Option<nat>, rest: Members)
    requires "index" !in rest && (index.Some? ==> index.value < 0x1_0000_0000_0000_0000)
    ensures IndexOf(Indexed(index, rest)) == if index.Some? then index.value else 0
    ensures Indexed(index, rest).Obj?
    ensures forall k :: k != "index" ==> Get(Indexed(index, rest), k) == Get(Obj(rest), k)
  {
    if index.Some? {
      DecimalReads(index.value);
    }
  }

  lemma ClassifyOpening(message: Members)
    ensures Classify(FrameFor(Opening(message))) == MessageStart(Some(message))
  {
    var v := FrameFor(Opening(message)).value;
    assert Kind(v) == Some("message_start") && Get(v, "message") == Some(Obj(message));
  }

  lemma ClassifyBlockEvent(f: Frame)
    requires f.eventType != "error"
    requires Kind(f.value) == Some("content_block_start") || Kind(f.value) == Some("content_block_delta")
    ensures Classify(f) == if Kind(f.value) == Some("content_block_start")
                           then BlockStart(IndexOf(f.value), Get(f.value, "content_block"))
                           else BlockDelta(IndexOf(f.value), Get(f.value, "delta"))
  {
  }

  /** An event about a block, by its type and by what it carries. */
  lemma ClassifyIndexed(name: string, index: Option<nat>, rest: Members)
    requires name != "error" && "index" !in rest && "type" in rest && rest["type"] == Str(name)
    requires name == "content_block_start" || name == "content_block_delta"
    requires index.Some? ==> index.value < 0x1_0000_0000_0000_0000
    ensures var n := if index.Some? then index.value else 0;
            Classify(Frame(name, Indexed(index, rest)))
            == if name == "content_block_start" then BlockStart(n, Get(Obj(rest), "content_block"))
               else BlockDelta(n, Get(Obj(rest), "delta"))
  {
    var f := Frame(name, Indexed(index, rest));
    IndexReads(index, rest);
    assert Get(f.value, "type") == Some(Str(name)) && Kind(f.value) == Some(name);
    assert Get(f.value, "content_block") == Get(Obj(rest), "content_block") && Get(f.value, "delta") == Get(Obj(rest), "delta");
    ClassifyBlockEvent(f);
  }

  lemma ClassifyBlockOpening(index: Option<nat>, block: Members)
    requires index.Some? ==> index.value < 0x1_0000_0000_0000_0000
    ensures Classify(FrameFor(BlockOpening(index, block))) == BlockStart(if index.Some? then index.value else 0, Some(Obj(block)))
  {
    ClassifyIndexed("content_block_start", index, map["type" := Str("content_block_start"), "content_block" := Obj(block)]);
  }

  lemma ClassifyBlockPiece(index: Option<nat>, piece: Piece)
    requires index.Some? ==> index.value < 0x1_0000_0000_0000_0000
    ensures Classify(FrameFor(BlockPiece(index, piece))) == BlockDelta(if index.Some? then index.value else 0, Some(DeltaFor(piece)))
  {
    ClassifyIndexed("content_block_delta", index, map["type" := Str("content_block_delta"), "delta" := DeltaFor(piece)]);
  }

  lemma ClassifyClosing(change: Members, usage: Members)
    ensures Classify(FrameFor(Closing(change, usage))) == MessageDelta(Some(Obj(change)), Some(usage))
  {
    var v := FrameFor(Closing(change, usage)).value;
    assert Kind(v) == Some("message_delta") && Get(v, "delta") == Some(Obj(change)) && Get(v, "usage") == Some(Obj(usage));
  }

  lemma ClassifyOther(e: Sent)
    requires e.BlockEnd? || e.End? || e.KeepAlive?
    ensures Classify(FrameFor(e)) == Ignored
  {
    var kind := if e.BlockEnd? then "content_block_stop" else if e.End? then "message_stop" else "ping";
    assert Kind(FrameFor(e).value) == Some(kind);
  }

  lemma ClassifyFor(e: Sent)
    requires Place(e).Some? ==> Place(e).value < 0x1_0000_0000_0000_0000
    ensures Classify(FrameFor(e)) == EventFor(e)
  {
    match e
    case Opening(message) => ClassifyOpening(message);
    case BlockOpening(index, block) => ClassifyBlockOpening(index, block);
    case BlockPiece(index, piece) => ClassifyBlockPiece(index, piece);
    case Closing(change, usage) => ClassifyClosing(change, usage);
    case _ => ClassifyOther(e);
  }

  lemma AdditionFor(p: Piece)
    ensures Addition(Some(DeltaFor(p))) == Some((FieldOf(p), p.text))
  {
    match p
    case TextPiece(text) =>
    case ThinkingPiece(text) =>
    case SignaturePiece(text) =>
    case ArgumentsPiece(text) =>
  }

  function EventsFor(sent: seq<Sent>): (events: seq<Event>)
    ensures |events| == |sent|
    ensures forall i :: 0 <= i < |events| ==> events[i] == EventFor(sent[i])
  {
    seq(|sent|, i requires 0 <= i < |sent| => EventFor(sent[i]))
  }

  predicate Numbered(sent: seq<Sent>, bound: nat) {
    forall e :: e in sent && Place(e).Some? ==> Place(e).value < bound
  }

  lemma EventsAre(sent: seq<Sent>)
    requires Numbered(sent, 0x1_0000_0000_0000_0000)
    ensures Events(FramesFor(sent)) == EventsFor(sent)
  {
    forall i | 0 <= i < |sent|
      ensures Classify(FrameFor(sent[i])) == EventFor(sent[i])
    {
      assert sent[i] in sent;
      ClassifyFor(sent[i]);
    }
  }

  lemma EventsSnoc(earlier: seq<Sent>, e: Sent)
    ensures EventsFor(earlier + [e]) == EventsFor(earlier) + [EventFor(e)]
  {
  }

  lemma {:induction false} NoFailureSent(sent: seq<Sent>)
    ensures LastFailure(EventsFor(sent)).None?
  {
    if sent != [] {
      var earlier, e := sent[..|sent| - 1], sent[|sent| - 1];
      assert sent == earlier + [e];
      EventsSnoc(earlier, e);
      NoFailureSent(earlier);
      assert EventsFor(sent)[..|earlier|] == EventsFor(earlier);
    }
  }

  lemma {:induction false} WholeEvents(sent: seq<Sent>)
    ensures HeadEvents(EventsFor(sent)) == EventsFor(Whole(sent))
  {
    if sent != [] {
      var earlier, e := sent[..|sent| - 1], sent[|sent| - 1];
      assert sent == earlier + [e];
      EventsSnoc(earlier, e);
      WholeEvents(earlier);
      assert EventsFor(sent)[..|earlier|] == EventsFor(earlier);
      if e.Opening? || e.Closing? {
        EventsSnoc(Whole(earlier), e);
      }
    }
  }

  function PartFor(e: Sent): BlockEvent
    requires Place(e).Some?
  {
    if e.BlockOpening? then Begin(Some(Obj(e.block))) else Extend(Some(DeltaFor(e.piece)))
  }

  predicate AllPlaced(own: seq<Sent>) { forall e :: e in own ==> Place(e).Some? }

  function PartsFor(own: seq<Sent>): (parts: seq<BlockEvent>)
    requires AllPlaced(own)
    ensures |parts| == |own|
    ensures forall k :: 0 <= k < |parts| ==> parts[k] == PartFor(own[k])
  {
    seq(|own|, k requires 0 <= k < |own| => PartFor(own[k]))
  }

  lemma {:induction false} AboutEvents(sent: seq<Sent>, i: nat)
    ensures AllPlaced(About(sent, i)) && BlockEvents(EventsFor(sent), i) == PartsFor(About(sent, i))
  {
    if sent != [] {
      var earlier, e := sent[..|sent| - 1], sent[|sent| - 1];
      assert sent == earlier + [e];
      EventsSnoc(earlier, e);
      AboutEvents(earlier, i);
      assert EventsFor(sent)[..|earlier|] == EventsFor(earlier);
      assert Concerning(EventFor(e), i) == if Place(e) == Some(i) then Some(PartFor(e)) else None;
      if Place(e) == Some(i) {
        assert PartsFor(About(earlier, i) + [e]) == PartsFor(About(earlier, i)) + [PartFor(e)];
      }
    }
  }

  lemma {:induction false} ExtentSent(sent: seq<Sent>, n: nat)
    requires Numbered(sent, n) && (n > 0 ==> exists e :: e in sent && Place(e) == Some(n - 1))
    ensures Extent(EventsFor(sent)) == n
  {
    ExtentBelow(sent, n);
    if n > 0 {
      var e :| e in sent && Place(e) == Some(n - 1);
      ExtentReaches(sent, e);
    }
  }

  lemma {:induction false} ExtentBelow(sent: seq<Sent>, n: nat)
    requires Numbered(sent, n)
    ensures Extent(EventsFor(sent)) <= n
  {
    if sent != [] {
      var earlier, e := sent[..|sent| - 1], sent[|sent| - 1];
      assert sent == earlier + [e] && e in sent;
      EventsSnoc(earlier, e);
      ExtentBelow(earlier, n);
      assert EventsFor(sent)[..|earlier|] == EventsFor(earlier);
    }
  }

  lemma {:induction false} ExtentReaches(sent: seq<Sent>, e: Sent)
    requires e in sent && Place(e).Some?
    ensures Place(e).value < Extent(EventsFor(sent))
  {
    var earlier, last := sent[..|sent| - 1], sent[|sent| - 1];
    assert sent == earlier + [last];
    EventsSnoc(earlier, last);
    assert EventsFor(sent)[..|earlier|] == EventsFor(earlier);
    if e != last {
      ExtentReaches(earlier, e);
    }
  }

  function DeltasFor(pieces: seq<Piece>): (deltas: seq<Option<Json>>)
    ensures |deltas| == |pieces|
    ensures forall k :: 0 <= k < |deltas| ==> deltas[k] == Some(DeltaFor(pieces[k]))
  {
    seq(|pieces|, k requires 0 <= k < |pieces| => Some(DeltaFor(pieces[k])))
  }

  lemma PiecesSnoc(earlier: seq<Piece>, p: Piece, f: string)
    ensures PiecesOf(earlier + [p], f) == PiecesOf(earlier, f) + (if FieldOf(p) == f then p.text else "")
    ensures HasPiece(earlier + [p], f) <==> HasPiece(earlier, f) || FieldOf(p) == f
    ensures DeltasFor(earlier + [p]) == DeltasFor(earlier) + [Some(DeltaFor(p))]
  {
    assert (earlier + [p])[..|earlier|] == earlier && p in earlier + [p];
    assert forall q :: q in earlier + [p] <==> q in earlier || q == p;
  }

  lemma {:induction false} PiecesJoin(pieces: seq<Piece>, f: string)
    ensures Joined(DeltasFor(pieces), f) == PiecesOf(pieces, f)
    ensures Extended(DeltasFor(pieces), f) <==> HasPiece(pieces, f)
  {
    if pieces != [] {
      var earlier, p := pieces[..|pieces| - 1], pieces[|pieces| - 1];
      assert pieces == earlier + [p];
      PiecesJoin(earlier, f);
      PiecesSnoc(earlier, p, f);
      AdditionFor(p);
      JoinedSnoc(DeltasFor(earlier), Some(DeltaFor(p)), f);
    }
  }

  lemma MemberStreams(block: Members, start: Members, pieces: seq<Piece>, f: string)
    requires MemberCut(block, start, pieces, f)
    ensures SameMember(block, start, DeltasFor(pieces), f)
  {
    PiecesJoin(pieces, f);
  }

  lemma BlockStreams(block: Members, start: Members, pieces: seq<Piece>, parse: Parser)
    requires BlockCut(block, start, pieces, parse)
    ensures Streams(block, start, DeltasFor(pieces), parse)
  {
    PiecesJoin(pieces, "partial_json");
    forall f | MemberCut(block, start, pieces, f)
      ensures SameMember(block, start, DeltasFor(pieces), f)
    {
      MemberStreams(block, start, pieces, f);
    }
  }

  lemma OwnStreams(sent: seq<Sent>, i: nat, cut: Cut, block: Members, parse: Parser)
    requires SentAs(About(sent, i), cut) && CutFrom(cut, block, parse)
    ensures StreamsBlock(BlockEvents(EventsFor(sent), i), cut.start, DeltasFor(cut.pieces), block, parse)
  {
    AboutEvents(sent, i);
    if cut.start.Some? {
      BlockStreams(block, cut.start.value, cut.pieces, parse);
      assert PartsFor(About(sent, i)) == [Begin(Some(Obj(cut.start.value)))] + Extensions(DeltasFor(cut.pieces));
    }
  }

  function StreamFor(opening: Option<Members>, closing: Option<(Members, Members)>, cuts: seq<Cut>): Stream {
    Stream(opening.Some?, Fields(opening), closing.Some?, Change(closing), Usage(closing),
           seq(|cuts|, i requires 0 <= i < |cuts| => cuts[i].start),
           seq(|cuts|, i requires 0 <= i < |cuts| => DeltasFor(cuts[i].pieces)))
  }

  lemma FramedEvents(sent: seq<Sent>, opening: Option<Members>, closing: Option<(Members, Members)>, cuts: seq<Cut>)
    requires Framed(sent, opening, closing)
    ensures var s := StreamFor(opening, closing, cuts);
            HeadEvents(EventsFor(sent)) == OpeningEvents(s) + ClosingEvents(s)
  {
    WholeEvents(sent);
  }

  lemma ComposedDescribes(message: Members, opening: Option<Members>, closing: Option<(Members, Members)>, cuts: seq<Cut>,
                          blocks: seq<Members>)
    requires Composed(message, Fields(opening), Change(closing), Usage(closing), blocks)
    ensures Describes(StreamFor(opening, closing, cuts), message, blocks)
  {
    assert message["content"].elements == Blocks(blocks);
  }

  /** Whatever message a server sends, however it cuts the blocks and in whatever
      order their pieces come, the reassembly of its events is that message. */
  lemma SentComesBack(sent: seq<Sent>, opening: Option<Members>, closing: Option<(Members, Members)>,
                      cuts: seq<Cut>, blocks: seq<Members>, message: Members, parse: Parser)
    requires StreamsTo(sent, opening, closing, cuts, blocks, message, parse)
    ensures var events := Events(FramesFor(sent));
            LastFailure(events).None? && Message(HeadOf(events), Finalized(Content(events), parse)) == Obj(message)
  {
    var s := StreamFor(opening, closing, cuts);
    assert Numbered(sent, |blocks|);
    EventsAre(sent);
    NoFailureSent(sent);
    FramedEvents(sent, opening, closing, cuts);
    ComposedDescribes(message, opening, closing, cuts, blocks);
    ExtentSent(sent, |blocks|);
    forall i | 0 <= i < |blocks|
      ensures StreamsBlock(BlockEvents(EventsFor(sent), i), s.starts[i], s.deltas[i], blocks[i], parse)
    {
      OwnStreams(sent, i, cuts[i], blocks[i], parse);
    }
    MessageRoundTrip(EventsFor(sent), s, message, blocks, parse);
  }

  /** The aggregation, run on what such a server sends. */
  method SynthesizeSent(sent: seq<Sent>, opening: Option<Members>, closing: Option<(Members, Members)>,
                        cuts: seq<Cut>, blocks: seq<Members>, message: Members, parse: Parser)
    returns (body: Json, isError: bool)
    requires StreamsTo(sent, opening, closing, cuts, blocks, message, parse)
    ensures !isError && body == Obj(message)
  {
    body, isError := Synthesize(FramesFor(sent), parse);
    SentComesBack(sent, opening, closing, cuts, blocks, message, parse);
    NoFailureIs(FramesFor(sent));
  }

  // From the text of the stream.

  /** From any text that means these events to the message. */
  lemma TextComesBack(entries: seq<Entry>, read: Parser, sent: seq<Sent>,
                      opening: Option<Members>, closing: Option<(Members, Members)>,
                      cuts: seq<Cut>, blocks: seq<Members>, message: Members, parse: Parser)
    requires AllValid(entries) && Meanings(entries, read) == FramesFor(sent)
    requires StreamsTo(sent, opening, closing, cuts, blocks, message, parse)
    ensures var events := Events(FramesOf(Pieces(Written(entries)), read));
            LastFailure(events).None? && Message(HeadOf(events), Finalized(Content(events), parse)) == Obj(message)
  {
    WrittenReads(entries, read);
    SentComesBack(sent, opening, closing, cuts, blocks, message, parse);
  }

  /** No line break of any kind. */
  predicate Flat(text: string) { '\n' !in text && '\r' !in text }

  lemma {:induction false} EscapeIsFlat(s: string, rest: string)
    requires Flat(rest)
    ensures Flat(EscapeTo(s, rest))
  {
    if s != [] {
      EscapeIsFlat(s[1..], rest);
      assert Flat(EscapeChar(s[0]));
    }
  }

  lemma StringIsFlat(s: string, rest: string)
    requires Flat(rest)
    ensures Flat(EmitString(s, rest))
  {
    EscapeIsFlat(s, "\"" + rest);
  }

  lemma {:induction false} ElementsAreFlat(elements: seq<Json>, first: bool, rest: string)
    requires Flat(rest)
    ensures Flat(EmitElements(elements, first, rest))
    decreases elements, 0, 0
  {
    if elements != [] {
      ElementsAreFlat(elements[1..], false, rest);
      EmitIsFlat(elements[0], EmitElements(elements[1..], false, rest));
    }
  }

  lemma {:induction false} MembersAreFlat(v: Json, keys: seq<string>, first: bool, rest: string)
    requires v.Obj? && (forall k :: k in keys ==> k in v.members) && Flat(rest)
    ensures Flat(EmitMembers(v, keys, first, rest))
    decreases v, 0, |keys|
  {
    if keys != [] {
      var later := EmitMembers(v, keys[1..], false, rest);
      MembersAreFlat(v, keys[1..], false, rest);
      EmitIsFlat(v.members[keys[0]], later);
      StringIsFlat(keys[0], ":" + Emit(v.members[keys[0]], later));
    }
  }

  lemma ScalarIsFlat(v: Json, rest: string)
    requires (v.Null? || v.Bool? || v.Num?) && Flat(rest)
    ensures Flat(Emit(v, rest))
  {
    if v.Num? {
      NumberChars(v.token);
      assert Flat(v.token);
    }
  }

  /** A printed value is one line, whatever its strings hold. */
  lemma {:induction false} EmitIsFlat(v: Json, rest: string)
    requires Flat(rest)
    ensures Flat(Emit(v, rest))
    decreases v, 1, 0
  {
    match v
    case Str(text) => StringIsFlat(text, rest);
    case Arr(elements) =>
      ElementsAreFlat(elements, true, rest);
      assert Emit(v, rest) == "[" + EmitElements(elements, true, rest);
    case Obj(members) =>
      var keys := SortedKeys(members.Keys);
      MembersAreFlat(v, keys, true, rest);
      assert Emit(v, rest) == "{" + EmitMembers(v, keys, true, rest);
    case _ => ScalarIsFlat(v, rest);
  }

  /** An event as two lines: its name, and its data printed compactly. */
  function EntryFor(e: Sent): Entry {
    Entry([Name(" " + FrameFor(e).eventType), Data(" " + CanonicalBytes(FrameFor(e).value))], false)
  }

  function EntriesFor(sent: seq<Sent>): seq<Entry> {
    if sent == [] then [] else [EntryFor(sent[0])] + EntriesFor(sent[1..])
  }

  lemma SpaceTrimmed(text: string)
    requires text != "" && !White(text[0])
    ensures TrimStart(" " + text) == text
  {
    assert (" " + text)[1..] == text;
  }

  lemma NameTrimmed(name: string)
    requires name != "" && !White(name[0]) && !White(name[|name| - 1])
    ensures Trim(" " + name) == name
  {
    SpaceTrimmed(name);
  }

  /** A name of the protocol: letters and underscores. */
  predicate Plain(name: string) { name != "" && forall i :: 0 <= i < |name| ==> 'a' <= name[i] <= 'z' || name[i] == '_' }

  lemma NameIsPlain(e: Sent)
    ensures Plain(FrameFor(e).eventType)
  {
    match e
    case Opening(_) => assert Plain("message_start");
    case BlockOpening(_, _) => assert Plain("content_block_start");
    case BlockPiece(_, _) => assert Plain("content_block_delta");
    case BlockEnd(_) => assert Plain("content_block_stop");
    case Closing(_, _) => assert Plain("message_delta");
    case End => assert Plain("message_stop");
    case KeepAlive => assert Plain("ping");
  }

  lemma PlainMeans(name: string)
    requires Plain(name)
    ensures Clean(Name(" " + name)) && Trim(" " + name) == name
  {
    var text := " " + name;
    NameTrimmed(name);
    assert text[|text| - 1] == name[|name| - 1];
    assert forall i :: 0 < i < |text| ==> text[i] == name[i - 1];
  }

  lemma DataMeans(v: Json)
    requires v.Obj?
    ensures var body := CanonicalBytes(v);
            && Clean(Data(" " + body)) && TrimStart(" " + body) == body && !Blank(body) && ReadJson(body) == Some(v)
  {
    EmitIsFlat(v, "");
    CanonicalReads(v);
    var body := CanonicalBytes(v);
    assert body[0] == '{' && body[|body| - 1] in body;
    SpaceTrimmed(body);
  }

  lemma TwoLinesMean(name: string, data: string)
    ensures NameIn([Name(name), Data(data)]) == Trim(name) && DataIn([Name(name), Data(data)]) == TrimStart(data)
  {
    var lines := [Name(name), Data(data)];
    assert lines[..1] == [Name(name)] && lines[..1][..0] == [];
    assert NameIn(lines) == NameIn(lines[..1]) && DataIn(lines[..1]) == "";
  }

  lemma EntryMeans(e: Sent)
    ensures EntryFor(e).Valid() && Meaning(EntryFor(e), ReadJson) == Some(FrameFor(e))
  {
    NameIsPlain(e);
    PlainMeans(FrameFor(e).eventType);
    DataMeans(FrameFor(e).value);
    TwoLinesMean(" " + FrameFor(e).eventType, " " + CanonicalBytes(FrameFor(e).value));
  }

  lemma MeaningsCons(first: Entry, rest: seq<Entry>, f: Frame, read: Parser)
    requires first.Valid() && AllValid(rest) && Meaning(first, read) == Some(f)
    ensures AllValid([first] + rest) && Meanings([first] + rest, read) == [f] + Meanings(rest, read)
  {
    assert ([first] + rest)[1..] == rest;
  }

  lemma FramesCons(sent: seq<Sent>)
    requires sent != []
    ensures FramesFor(sent) == [FrameFor(sent[0])] + FramesFor(sent[1..])
  {
  }

  lemma {:induction false} EntriesMean(sent: seq<Sent>)
    ensures AllValid(EntriesFor(sent)) && Meanings(EntriesFor(sent), ReadJson) == FramesFor(sent)
  {
    if sent != [] {
      EntriesMean(sent[1..]);
      EntryMeans(sent[0]);
      MeaningsCons(EntryFor(sent[0]), EntriesFor(sent[1..]), FrameFor(sent[0]), ReadJson);
      FramesCons(sent);
    }
  }

  /** Printed compactly and read back, with nothing assumed of any reader: the text
      that a server sends is reassembled to its message. */
  lemma CompactTextComesBack(sent: seq<Sent>, opening: Option<Members>, closing: Option<(Members, Members)>,
                             cuts: seq<Cut>, blocks: seq<Members>, message: Members)
    requires StreamsTo(sent, opening, closing, cuts, blocks, message, ReadJson)
    ensures AllValid(EntriesFor(sent))
    ensures var events := Events(FramesOf(Pieces(Written(EntriesFor(sent))), ReadJson));
            LastFailure(events).None? && Message(HeadOf(events), Finalized(Content(events), ReadJson)) == Obj(message)
  {
    EntriesMean(sent);
    TextComesBack(EntriesFor(sent), ReadJson, sent, opening, closing, cuts, blocks, message, ReadJson);
  }
}
