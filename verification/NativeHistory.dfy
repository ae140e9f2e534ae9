/** Native function-turn history: the call/output matching validator and the
    extension of a history by one turn. */
module NativeHistory {
  import opened Wrappers

  const MAX_HISTORY_ITEMS: nat := 512
  const MAX_FUNCTION_TOOLS: nat := 512
  const MAX_TURN_CALLS: nat := 16
  const MAX_HISTORY_BYTES: nat := 512 * 1024
  const MAX_TOOLS_BYTES: nat := 256 * 1024
  const MAX_REQUEST_BYTES: nat := 1024 * 1024
  const MAX_RESULT_BYTES: nat := 512 * 1024
  const MAX_INSTRUCTIONS_BYTES: nat := 32 * 1024

  datatype Error = InvalidRequest | TooLarge

  /** An item that has passed its own shape checks; `bytes` is the length of its
      JSON text. A message says who wrote it and whether any of its text is not
      blank. */
  datatype Body =
    | Message(user: bool, visible: bool)
    | Reasoning
    | Call(callId: string, name: string)
    | Output(callId: string, claimedName: Option<string>)

  datatype Item = Item(id: Option<string>, bytes: nat, body: Body) {
    predicate IsUser() { body.Message? && body.user }
  }

  type History = seq<Item>

  // What the validator promises, in terms of positions.

  ghost predicate UniqueIds(h: History) {
    forall i, j :: 0 <= i < j < |h| && h[i].id.Some? && h[j].id.Some? ==> h[i].id != h[j].id
  }

  ghost predicate UniqueCalls(h: History) {
    forall i, j :: 0 <= i < j < |h| && h[i].body.Call? && h[j].body.Call? ==> h[i].body.callId != h[j].body.callId
  }

  ghost predicate UniqueOutputs(h: History) {
    forall i, j :: 0 <= i < j < |h| && h[i].body.Output? && h[j].body.Output? ==> h[i].body.callId != h[j].body.callId
  }

  /** The call at i is answered by the output at j. */
  ghost predicate Answers(h: History, i: int, j: int) {
    && 0 <= i < j < |h|
    && h[i].body.Call? && h[j].body.Output?
    && h[i].body.callId == h[j].body.callId
    && (h[j].body.claimedName.Some? ==> h[j].body.claimedName.value == h[i].body.name)
  }

  ghost predicate HasAnswer(h: History, i: int) { exists j :: Answers(h, i, j) }

  ghost predicate HasCall(h: History, j: int) { exists i :: Answers(h, i, j) }

  ghost predicate EveryCallAnswered(h: History) {
    forall i :: 0 <= i < |h| && h[i].body.Call? ==> HasAnswer(h, i)
  }

  ghost predicate EveryOutputAnswers(h: History) {
    forall j :: 0 <= j < |h| && h[j].body.Output? ==> HasCall(h, j)
  }

  ghost predicate NoInterruption(h: History) {
    forall i, j, k :: Answers(h, i, j) && i < k < j ==> !h[k].IsUser()
  }

  /** Calls and outputs are matched one to one, in order, with agreeing names,
      and no user message comes between a call and its output. With distinct
      calls and distinct outputs, `Answers` is that bijection. */
  ghost predicate Matched(h: History) {
    && UniqueIds(h) && UniqueCalls(h) && UniqueOutputs(h)
    && EveryCallAnswered(h) && EveryOutputAnswers(h)
    && NoInterruption(h)
  }

  ghost predicate Bijection(h: History) {
    && (forall i, j, j' :: Answers(h, i, j) && Answers(h, i, j') ==> j == j')
    && (forall i, i', j :: Answers(h, i, j) && Answers(h, i', j) ==> i == i')
  }

  /** The ids that occur in a history. */
  function IdsOf(h: History): set<string> { set i | 0 <= i < |h| && h[i].id.Some? :: h[i].id.value }

  function CallsOf(h: History): set<string> { set i | 0 <= i < |h| && h[i].body.Call? :: h[i].body.callId }

  method ItemIds(items: History) returns (r: Result<set<string>, Error>)
    ensures r.Ok? <==> UniqueIds(items)
    ensures r.Ok? ==> r.value == IdsOf(items)
    ensures r.Err? ==> r.error == InvalidRequest
  {
    var ids: set<string> := {};
    for n := 0 to |items|
      invariant UniqueIds(items[..n]) && ids == IdsOf(items[..n])
    {
      var id := items[n].id;
      if id.Some? {
        if id.value in ids {
          var i :| 0 <= i < n && items[..n][i].id.Some? && items[..n][i].id.value == id.value;
          assert items[i].id == items[n].id;
          return Err(InvalidRequest);
        }
        ids := ids + {id.value};
      }
      SnocSets(items, n);
      assert UniqueIds(items[..n + 1]);
    }
    assert items[..|items|] == items;
    r := Ok(ids);
  }

  lemma SnocSets(h: History, n: nat)
    requires n < |h|
    ensures h[..n + 1] == h[..n] + [h[n]]
    ensures IdsOf(h[..n + 1]) == IdsOf(h[..n]) + (if h[n].id.Some? then {h[n].id.value} else {})
    ensures CallsOf(h[..n + 1]) == CallsOf(h[..n]) + (if h[n].body.Call? then {h[n].body.callId} else {})
  {
    var p, q := h[..n], h[..n + 1];
    assert forall i :: 0 <= i < n ==> p[i] == q[i];
    assert q[n] == h[n];
  }

  /** The call `c`, named `name`, was made at i and is not answered in `p`; no
      user message has come since. */
  ghost predicate OpenAt(p: History, c: string, name: string, i: int) {
    && 0 <= i < |p| && p[i].body == Call(c, name)
    && (forall j :: 0 <= j < |p| && p[j].body.Output? ==> p[j].body.callId != c)
    && (forall k :: i < k < |p| ==> !p[k].IsUser())
  }

  ghost predicate PendingIsOpen(p: History, pending: map<string, string>) {
    forall c :: c in pending ==> exists i :: OpenAt(p, c, pending[c], i)
  }

  ghost predicate ClosedIsAnswered(p: History, pending: map<string, string>) {
    forall i :: 0 <= i < |p| && p[i].body.Call? && p[i].body.callId !in pending ==> HasAnswer(p, i)
  }

  /** The state of the scan after the items `p`: the calls seen, and the open
      ones with the names they were made under. The rest of the promise holds of
      what has been scanned. */
  ghost predicate Scanned(p: History, seen: set<string>, pending: map<string, string>) {
    && seen == CallsOf(p)
    && PendingIsOpen(p, pending) && ClosedIsAnswered(p, pending)
    && UniqueCalls(p) && UniqueOutputs(p) && EveryOutputAnswers(p) && NoInterruption(p)
  }

  /** One more item changes no earlier answer. */
  lemma SnocAnswers(p: History, x: Item)
    ensures forall i, j :: j < |p| ==> (Answers(p + [x], i, j) <==> Answers(p, i, j))
  {
  }

  lemma SnocRest(p: History, x: Item)
    requires EveryOutputAnswers(p) && NoInterruption(p)
    requires x.body.Output? ==> HasCall(p + [x], |p|)
    requires forall i, k :: Answers(p + [x], i, |p|) && i < k < |p| ==> !p[k].IsUser()
    ensures EveryOutputAnswers(p + [x]) && NoInterruption(p + [x])
  {
    SnocAnswers(p, x);
    var q := p + [x];
    forall j | 0 <= j < |q| && q[j].body.Output?
      ensures HasCall(q, j)
    {
      if j < |p| {
        assert p[j].body.Output?;
        var i :| Answers(p, i, j);
        assert Answers(q, i, j);
      }
    }
    forall i, j, k | Answers(q, i, j) && i < k < j
      ensures !q[k].IsUser()
    {
      if j < |p| {
        assert Answers(p, i, j);
      }
    }
  }

  lemma SnocOpen(p: History, x: Item, c: string, name: string, i: int)
    requires OpenAt(p, c, name, i) && !x.IsUser() && (x.body.Output? ==> x.body.callId != c)
    ensures OpenAt(p + [x], c, name, i)
  {
  }

  lemma SnocPending(p: History, x: Item, pending: map<string, string>)
    requires PendingIsOpen(p, pending) && (x.IsUser() ==> pending == map[])
    ensures PendingIsOpen(p + [x], if x.body.Output? then pending - {x.body.callId} else pending)
  {
    var pending' := if x.body.Output? then pending - {x.body.callId} else pending;
    forall d | d in pending'
      ensures exists i :: OpenAt(p + [x], d, pending'[d], i)
    {
      var i :| OpenAt(p, d, pending[d], i);
      SnocOpen(p, x, d, pending[d], i);
      assert OpenAt(p + [x], d, pending'[d], i);
    }
  }

  lemma SnocClosed(p: History, x: Item, pending: map<string, string>)
    requires ClosedIsAnswered(p, pending)
    ensures forall i :: 0 <= i < |p| && p[i].body.Call? && p[i].body.callId !in pending ==>
              HasAnswer(p + [x], i)
  {
    forall i | 0 <= i < |p| && p[i].body.Call? && p[i].body.callId !in pending
      ensures HasAnswer(p + [x], i)
    {
      var j :| Answers(p, i, j);
      assert Answers(p + [x], i, j);
    }
  }

  lemma ScanCallUnique(p: History, x: Item)
    requires UniqueCalls(p) && UniqueOutputs(p) && x.body.Call? && x.body.callId !in CallsOf(p)
    ensures UniqueCalls(p + [x]) && UniqueOutputs(p + [x])
  {
    assert forall i :: 0 <= i < |p| && p[i].body.Call? ==> p[i].body.callId in CallsOf(p);
  }

  lemma ScanCall(p: History, x: Item, seen: set<string>, pending: map<string, string>)
    requires Scanned(p, seen, pending) && x.body.Call? && x.body.callId !in seen
    ensures var pending' := pending[x.body.callId := x.body.name];
            PendingIsOpen(p + [x], pending') && ClosedIsAnswered(p + [x], pending')
    ensures UniqueCalls(p + [x]) && UniqueOutputs(p + [x]) && EveryOutputAnswers(p + [x]) && NoInterruption(p + [x])
  {
    var q, c := p + [x], x.body.callId;
    SnocRest(p, x);
    SnocClosed(p, x, pending);
    SnocPending(p, x, pending);
    ScanCallUnique(p, x);
    NoOutputYet(p, c);
    assert OpenAt(q, c, x.body.name, |p|);
  }

  lemma NoOutputYet(p: History, c: string)
    requires EveryOutputAnswers(p) && c !in CallsOf(p)
    ensures forall j :: 0 <= j < |p| && p[j].body.Output? ==> p[j].body.callId != c
  {
    forall j | 0 <= j < |p| && p[j].body.Output?
      ensures p[j].body.callId != c
    {
      var i :| Answers(p, i, j);
      assert p[i].body.callId in CallsOf(p);
    }
  }

  /** The output closes the one open call with its id. */
  lemma CloseCall(p: History, x: Item, pending: map<string, string>) returns (open: int)
    requires UniqueCalls(p) && PendingIsOpen(p, pending) && x.body.Output? && x.body.callId in pending
    requires x.body.claimedName.Some? ==> x.body.claimedName.value == pending[x.body.callId]
    ensures OpenAt(p, x.body.callId, pending[x.body.callId], open) && Answers(p + [x], open, |p|)
    ensures forall i :: 0 <= i < |p| && p[i].body.Call? && p[i].body.callId == x.body.callId ==> i == open
  {
    var c := x.body.callId;
    open :| OpenAt(p, c, pending[c], open);
  }

  lemma ScanOutput(p: History, x: Item, seen: set<string>, pending: map<string, string>)
    requires Scanned(p, seen, pending) && x.body.Output? && x.body.callId in pending
    requires x.body.claimedName.Some? ==> x.body.claimedName.value == pending[x.body.callId]
    ensures var pending' := pending - {x.body.callId};
            PendingIsOpen(p + [x], pending') && ClosedIsAnswered(p + [x], pending')
    ensures UniqueCalls(p + [x]) && UniqueOutputs(p + [x]) && EveryOutputAnswers(p + [x]) && NoInterruption(p + [x])
  {
    var q := p + [x];
    var open := CloseCall(p, x, pending);
    SnocClosed(p, x, pending);
    SnocPending(p, x, pending);
    assert forall i :: Answers(q, i, |p|) ==> i == open;
    SnocRest(p, x);
    forall i | 0 <= i < |q| && q[i].body.Call? && q[i].body.callId !in pending - {x.body.callId}
      ensures HasAnswer(q, i)
    {
      assert q[i] == p[i];
    }
    assert UniqueOutputs(q);
  }

  lemma ScanOther(p: History, x: Item, seen: set<string>, pending: map<string, string>)
    requires Scanned(p, seen, pending)
    requires !x.body.Call? && !x.body.Output? && (x.IsUser() ==> pending == map[])
    ensures PendingIsOpen(p + [x], pending) && ClosedIsAnswered(p + [x], pending)
    ensures UniqueCalls(p + [x]) && UniqueOutputs(p + [x]) && EveryOutputAnswers(p + [x]) && NoInterruption(p + [x])
  {
    SnocRest(p, x);
    SnocClosed(p, x, pending);
    SnocPending(p, x, pending);
  }

  /** The reasons to refuse are reasons that no later item can repair. */
  lemma RefuseCall(h: History, n: nat)
    requires n < |h| && h[n].body.Call? && h[n].body.callId in CallsOf(h[..n])
    ensures !Matched(h)
  {
    var i :| 0 <= i < n && h[..n][i].body.Call? && h[..n][i].body.callId == h[n].body.callId;
    assert h[i] == h[..n][i];
  }

  lemma RefuseOutput(h: History, n: nat, seen: set<string>, pending: map<string, string>)
    requires n < |h| && Scanned(h[..n], seen, pending) && h[n].body.Output?
    requires h[n].body.callId in pending ==>
               h[n].body.claimedName.Some? && h[n].body.claimedName.value != pending[h[n].body.callId]
    ensures !Matched(h)
  {
    var p, c := h[..n], h[n].body.callId;
    if c in pending {
      var open :| OpenAt(p, c, pending[c], open);
      forall i
        ensures !Answers(h, i, n)
      {
        assert 0 <= i < n ==> p[i] == h[i];
      }
    }
  }

  lemma RefuseUser(h: History, n: nat, seen: set<string>, pending: map<string, string>)
    requires n < |h| && Scanned(h[..n], seen, pending) && h[n].IsUser() && pending != map[]
    ensures !Matched(h)
  {
    var p := h[..n];
    var c :| c in pending;
    var i :| OpenAt(p, c, pending[c], i);
    assert h[i] == p[i];
    forall j | Answers(h, i, j)
      ensures n < j
    {
    }
  }

  lemma ScanEnd(h: History, seen: set<string>, pending: map<string, string>)
    requires Scanned(h, seen, pending) && UniqueIds(h)
    ensures Matched(h) <==> pending == map[]
  {
    forall c | c in pending
      ensures !EveryCallAnswered(h)
    {
      var i :| OpenAt(h, c, pending[c], i);
      assert forall j :: !Answers(h, i, j);
    }
  }

  method ValidateHistory(history: History) returns (r: Result<set<string>, Error>)
    ensures r.Ok? <==> Matched(history)
    ensures r.Ok? ==> r.value == CallsOf(history) && Bijection(history)
    ensures r.Err? ==> r.error == InvalidRequest
  {
    var ids := ItemIds(history);
    if ids.Err? {
      return Err(InvalidRequest);
    }
    var seen: set<string> := {};
    var pending: map<string, string> := map[];
    for n := 0 to |history|
      invariant Scanned(history[..n], seen, pending)
    {
      SnocSets(history, n);
      ghost var past := history[..n];
      match history[n].body {
        case Call(callId, name) =>
          if callId in seen {
            RefuseCall(history, n);
            return Err(InvalidRequest);
          }
          ScanCall(past, history[n], seen, pending);
          seen := seen + {callId};
          pending := pending[callId := name];
        case Output(callId, claimedName) =>
          if callId !in pending {
            RefuseOutput(history, n, seen, pending);
            return Err(InvalidRequest);
          }
          if claimedName.Some? && claimedName.value != pending[callId] {
            RefuseOutput(history, n, seen, pending);
            return Err(InvalidRequest);
          }
          ScanOutput(past, history[n], seen, pending);
          pending := pending - {callId};
        case Message(user, _) =>
          if user && pending != map[] {
            RefuseUser(history, n, seen, pending);
            return Err(InvalidRequest);
          }
          ScanOther(past, history[n], seen, pending);
        case Reasoning =>
          ScanOther(past, history[n], seen, pending);
      }
    }
    assert history[..|history|] == history;
    ScanEnd(history, seen, pending);
    if pending != map[] {
      return Err(InvalidRequest);
    }
    r := Ok(seen);
  }

  // One turn: the model's reply and the application's outcomes.

  datatype Tool = Tool(name: string, bytes: nat)

  /** `envelopeBytes` is the length of the request text without the items and
      the tools. */
  datatype TurnInput = TurnInput(
    instructionsBytes: nat, history: History, tools: seq<Tool>, maxOutputTokens: nat, envelopeBytes: nat)

  /** The sum of the sizes, and the length of a JSON array of such texts. */
  function Total(sizes: seq<nat>): nat {
    if sizes == [] then 0 else Total(sizes[..|sizes| - 1]) + sizes[|sizes| - 1]
  }

  function ArrayBytes(sizes: seq<nat>): nat { 2 + Total(sizes) + (if sizes == [] then 0 else |sizes| - 1) }

  /** The texts, separated by commas. */
  function Joined(texts: seq<string>): string {
    if texts == [] then "" else if |texts| == 1 then texts[0] else Joined(texts[..|texts| - 1]) + "," + texts[|texts| - 1]
  }

  predicate HaveSizes(texts: seq<string>, sizes: seq<nat>) {
    |texts| == |sizes| && forall i :: 0 <= i < |texts| ==> |texts[i]| == sizes[i]
  }

  lemma {:induction false} ArrayBytesIs(texts: seq<string>, sizes: seq<nat>)
    requires HaveSizes(texts, sizes)
    ensures |"[" + Joined(texts) + "]"| == ArrayBytes(sizes)
  {
    if texts != [] {
      var n := |texts| - 1;
      assert HaveSizes(texts[..n], sizes[..n]);
      assert Total(sizes) == Total(sizes[..n]) + |texts[n]|;
      ArrayBytesIs(texts[..n], sizes[..n]);
    }
  }

  function HistoryBytes(items: History): nat {
    ArrayBytes(seq(|items|, i requires 0 <= i < |items| => items[i].bytes))
  }

  function ToolsBytes(tools: seq<Tool>): nat {
    ArrayBytes(seq(|tools|, i requires 0 <= i < |tools| => tools[i].bytes))
  }

  function OutputBytes(output: History): nat { |"{\"output\":}"| + HistoryBytes(output) }

  function ToolNames(tools: seq<Tool>): set<string> { set i | 0 <= i < |tools| :: tools[i].name }

  ghost predicate UniqueNames(tools: seq<Tool>) {
    forall i, j :: 0 <= i < j < |tools| ==> tools[i].name != tools[j].name
  }

  ghost predicate FitsInput(input: TurnInput) {
    && HistoryBytes(input.history) <= 524_288
    && ToolsBytes(input.tools) <= 262_144
    && input.envelopeBytes + HistoryBytes(input.history) + ToolsBytes(input.tools) <= 1_048_576
  }

  ghost predicate WellFormedInput(input: TurnInput) {
    && input.instructionsBytes <= 32_768
    && 0 < |input.history| <= 512
    && |input.tools| <= 512
    && input.maxOutputTokens != 0
    && UniqueNames(input.tools)
    && Matched(input.history)
  }

  ghost predicate ValidInput(input: TurnInput) { WellFormedInput(input) && FitsInput(input) }

  lemma {:induction false} NamesCounted(tools: seq<Tool>)
    ensures |ToolNames(tools)| <= |tools|
    ensures |ToolNames(tools)| == |tools| <==> UniqueNames(tools)
  {
    if tools != [] {
      var n := |tools| - 1;
      var front, last := tools[..n], tools[n].name;
      NamesCounted(front);
      assert forall i :: 0 <= i < n ==> front[i] == tools[i];
      assert ToolNames(tools) == ToolNames(front) + {last};
      if last in ToolNames(front) {
        assert ToolNames(tools) == ToolNames(front);
        var i :| 0 <= i < n && front[i].name == last;
        assert tools[i].name == tools[n].name;
      } else {
        assert UniqueNames(front) ==> UniqueNames(tools);
      }
    }
  }

  method ValidateInput(input: TurnInput) returns (r: Result<(), Error>)
    ensures r.Ok? <==> ValidInput(input)
    ensures r.Err? ==> (r.error == TooLarge <==> InputTooLarge(input))
  {
    if input.instructionsBytes > MAX_INSTRUCTIONS_BYTES || input.history == [] || |input.history| > MAX_HISTORY_ITEMS
       || |input.tools| > MAX_FUNCTION_TOOLS || input.maxOutputTokens == 0 {
      return Err(InvalidRequest);
    }
    NamesCounted(input.tools);
    if |ToolNames(input.tools)| != |input.tools| {
      return Err(InvalidRequest);
    }
    var calls := ValidateHistory(input.history);
    if calls.Err? {
      return Err(InvalidRequest);
    }
    if HistoryBytes(input.history) > MAX_HISTORY_BYTES || ToolsBytes(input.tools) > MAX_TOOLS_BYTES
       || input.envelopeBytes + HistoryBytes(input.history) + ToolsBytes(input.tools) > MAX_REQUEST_BYTES {
      return Err(TooLarge);
    }
    r := Ok(());
  }

  ghost predicate Offered(tools: seq<Tool>, name: string) { exists i :: 0 <= i < |tools| && tools[i].name == name }

  /** What a reply may contain: calls of tools that were offered, messages that the
      user did not write, and reasoning. */
  ghost predicate Replies(x: Item, tools: seq<Tool>) {
    (x.body.Call? && Offered(tools, x.body.name)) || (x.body.Message? && !x.body.user) || x.body.Reasoning?
  }

  /** A call, or a message with text to see. */
  ghost predicate SomeVisible(output: History, n: nat)
    requires n <= |output|
  {
    exists i :: 0 <= i < n && (output[i].body.Call? || (output[i].body.Message? && output[i].body.visible))
  }

  ghost predicate WellFormedOutput(output: History, input: TurnInput) {
    && 0 < |output| <= 512
    && (forall i :: 0 <= i < |output| ==> Replies(output[i], input.tools))
    && SomeVisible(output, |output|)
    && UniqueIds(input.history + output) && UniqueCalls(input.history + output)
    && |CallsOf(output)| <= 16
  }

  ghost predicate ValidOutput(output: History, input: TurnInput) {
    ValidInput(input) && WellFormedOutput(output, input) && OutputBytes(output) <= 524_288
  }

  /** What is refused for its size alone. */
  ghost predicate InputTooLarge(input: TurnInput) { WellFormedInput(input) && !FitsInput(input) }

  ghost predicate ReplyTooLarge(output: History, input: TurnInput) {
    InputTooLarge(input) || (ValidInput(input) && WellFormedOutput(output, input) && OutputBytes(output) > 524_288)
  }

  lemma RepeatedId(w: History, n: nat)
    requires n < |w| && w[n].id.Some? && w[n].id.value in IdsOf(w[..n])
    ensures !UniqueIds(w)
  {
    var i :| 0 <= i < n && w[..n][i].id.Some? && w[..n][i].id.value == w[n].id.value;
    assert w[i] == w[..n][i];
  }

  lemma RepeatedCall(w: History, n: nat)
    requires n < |w| && w[n].body.Call? && w[n].body.callId in CallsOf(w[..n])
    ensures !UniqueCalls(w)
  {
    var i :| 0 <= i < n && w[..n][i].body.Call? && w[..n][i].body.callId == w[n].body.callId;
    assert w[i] == w[..n][i];
  }

  lemma SnocUnique(w: History, n: nat)
    requires n < |w| && UniqueIds(w[..n]) && UniqueCalls(w[..n])
    ensures (w[n].id.Some? ==> w[n].id.value !in IdsOf(w[..n])) ==> UniqueIds(w[..n + 1])
    ensures (w[n].body.Call? ==> w[n].body.callId !in CallsOf(w[..n])) ==> UniqueCalls(w[..n + 1])
  {
    var p, q := w[..n], w[..n + 1];
    assert q == p + [w[n]];
    assert forall i :: 0 <= i < n && p[i].id.Some? ==> p[i].id.value in IdsOf(p);
    assert forall i :: 0 <= i < n && p[i].body.Call? ==> p[i].body.callId in CallsOf(p);
  }

  /** The calls of a reply are the calls that are new. */
  lemma NewCalls(h: History, output: History)
    requires UniqueCalls(h + output)
    ensures CallsOf(h + output) == CallsOf(h) + CallsOf(output)
    ensures |CallsOf(h + output)| - |CallsOf(h)| == |CallsOf(output)|
  {
    var w := h + output;
    assert forall i :: 0 <= i < |h| ==> w[i] == h[i];
    assert forall i :: 0 <= i < |output| ==> w[|h| + i] == output[i];
    forall c
      ensures c in CallsOf(w) <==> c in CallsOf(h) || c in CallsOf(output)
      ensures !(c in CallsOf(h) && c in CallsOf(output))
    {
      if c in CallsOf(w) {
        var i :| 0 <= i < |w| && w[i].body.Call? && w[i].body.callId == c;
        assert i >= |h| ==> output[i - |h|] == w[i];
      }
    }
    assert CallsOf(h) !! CallsOf(output);
  }

  /** The state of the reply scan after n items of `output`. */
  ghost predicate ReplyScanned(h: History, output: History, n: nat, tools: seq<Tool>, ids: set<string>, calls: set<string>)
    requires n <= |output|
  {
    var p := h + output[..n];
    && ids == IdsOf(p) && calls == CallsOf(p)
    && UniqueIds(p) && UniqueCalls(p)
    && forall i :: 0 <= i < n ==> Replies(output[i], tools)
  }

  lemma ReplyStep(h: History, output: History, n: nat, tools: seq<Tool>, ids: set<string>, calls: set<string>)
    requires n < |output| && ReplyScanned(h, output, n, tools, ids, calls) && Replies(output[n], tools)
    requires output[n].id.Some? ==> output[n].id.value !in ids
    requires output[n].body.Call? ==> output[n].body.callId !in calls
    ensures var ids' := if output[n].id.Some? then ids + {output[n].id.value} else ids;
            var calls' := if output[n].body.Call? then calls + {output[n].body.callId} else calls;
            ReplyScanned(h, output, n + 1, tools, ids', calls')
  {
    var w, m := h + output, |h| + n;
    assert w[..m] == h + output[..n] && w[..m + 1] == h + output[..n + 1] && w[m] == output[n];
    SnocSets(w, m);
    SnocUnique(w, m);
  }

  lemma ReplyRefused(h: History, output: History, n: nat, tools: seq<Tool>, ids: set<string>, calls: set<string>)
    requires n < |output| && ReplyScanned(h, output, n, tools, ids, calls)
    requires (output[n].id.Some? && output[n].id.value in ids) || (output[n].body.Call? && output[n].body.callId in calls)
    ensures !(UniqueIds(h + output) && UniqueCalls(h + output))
  {
    var w, m := h + output, |h| + n;
    assert w[..m] == h + output[..n] && w[m] == output[n];
    if output[n].id.Some? && output[n].id.value in ids {
      RepeatedId(w, m);
    } else {
      RepeatedCall(w, m);
    }
  }

  /** The loop over the reply; the history's ids and calls are known. */
  method ScanReply(h: History, output: History, tools: seq<Tool>, oldIds: set<string>, oldCalls: set<string>)
    returns (r: Result<(set<string>, bool), Error>)
    requires UniqueIds(h) && UniqueCalls(h) && oldIds == IdsOf(h) && oldCalls == CallsOf(h)
    ensures r.Ok? <==>
            && (forall i :: 0 <= i < |output| ==> Replies(output[i], tools))
            && UniqueIds(h + output) && UniqueCalls(h + output)
    ensures r.Ok? ==> r.value == (CallsOf(h + output), SomeVisible(output, |output|))
    ensures r.Err? ==> r.error == InvalidRequest
  {
    var names := ToolNames(tools);
    assert forall name :: name in names <==> Offered(tools, name);
    var ids, calls, visible := oldIds, oldCalls, false;
    assert h + output[..0] == h;
    for n := 0 to |output|
      invariant ReplyScanned(h, output, n, tools, ids, calls)
      invariant visible <==> SomeVisible(output, n)
    {
      var item := output[n];
      if item.id.Some? && item.id.value in ids {
        ReplyRefused(h, output, n, tools, ids, calls);
        return Err(InvalidRequest);
      }
      var known := calls;
      match item.body {
        case Call(callId, name) =>
          if name !in names {
            return Err(InvalidRequest);
          }
          if callId in calls {
            ReplyRefused(h, output, n, tools, ids, calls);
            return Err(InvalidRequest);
          }
          calls := calls + {callId};
          visible := true;
        case Message(user, text) =>
          if user {
            return Err(InvalidRequest);
          }
          visible := visible || text;
        case Reasoning =>
        case Output(_, _) => return Err(InvalidRequest);
      }
      ReplyStep(h, output, n, tools, ids, known);
      if item.id.Some? {
        ids := ids + {item.id.value};
      }
    }
    assert output[..|output|] == output;
    r := Ok((calls, visible));
  }

  method ValidateFor(output: History, input: TurnInput) returns (r: Result<(), Error>)
    ensures r.Ok? <==> ValidOutput(output, input)
    ensures r.Err? ==> (r.error == TooLarge <==> ReplyTooLarge(output, input))
  {
    var valid := ValidateInput(input);
    if valid.Err? {
      return valid;
    }
    if output == [] || |output| > MAX_HISTORY_ITEMS {
      return Err(InvalidRequest);
    }
    var previous := CallsOf(input.history);
    var scan := ScanReply(input.history, output, input.tools, IdsOf(input.history), previous);
    if scan.Err? {
      return Err(scan.error);
    }
    var (calls, visible) := scan.value;
    NewCalls(input.history, output);
    if !visible || |calls| - |previous| > MAX_TURN_CALLS {
      return Err(InvalidRequest);
    }
    if OutputBytes(output) > MAX_RESULT_BYTES {
      return Err(TooLarge);
    }
    r := Ok(());
  }

  // Extending a history.

  function Next(input: TurnInput, output: History, outcomes: History): TurnInput {
    input.(history := input.history + output + outcomes)
  }

  /** The outcome `x` settles the call `c`. */
  predicate Settles(c: Item, x: Item) {
    && c.body.Call? && x.body.Output? && c.body.callId == x.body.callId
    && (x.body.claimedName.Some? ==> x.body.claimedName.value == c.body.name)
  }

  ghost predicate IsSettled(c: Item, outcomes: History) {
    exists j :: 0 <= j < |outcomes| && Settles(c, outcomes[j])
  }

  ghost predicate IsAsked(output: History, x: Item) {
    exists i :: 0 <= i < |output| && Settles(output[i], x)
  }

  /** The outcomes answer each call of the reply once, in any order, and nothing
      else. */
  ghost predicate OutcomesSettle(output: History, outcomes: History) {
    && (forall i :: 0 <= i < |output| && output[i].body.Call? ==> IsSettled(output[i], outcomes))
    && (forall j :: 0 <= j < |outcomes| ==> IsAsked(output, outcomes[j]))
    && UniqueOutputs(outcomes)
  }

  ghost predicate AllOutputs(outcomes: History) {
    forall j :: 0 <= j < |outcomes| ==> outcomes[j].body.Output?
  }

  /** What a validated reply to a validated history looks like. */
  ghost predicate Extends(h: History, output: History) {
    && Matched(h) && UniqueCalls(h + output)
    && forall i :: 0 <= i < |output| ==> !output[i].body.Output? && !output[i].IsUser()
  }

  lemma Positions(h: History, output: History, outcomes: History)
    ensures var w := h + output + outcomes;
            && (forall i :: 0 <= i < |h| ==> w[i] == h[i])
            && (forall i :: 0 <= i < |output| ==> w[|h| + i] == output[i])
            && (forall i :: 0 <= i < |outcomes| ==> w[|h| + |output| + i] == outcomes[i])
  {
  }

  /** Answers inside the old history stay, and none cross into it. */
  lemma OldAnswers(h: History, output: History, outcomes: History, i: int, j: int)
    requires Extends(h, output) && AllOutputs(outcomes)
    ensures j < |h| ==> (Answers(h + output + outcomes, i, j) <==> Answers(h, i, j))
    ensures Answers(h + output + outcomes, i, j) && |h| <= j ==> |h| + |output| <= j
  {
    Positions(h, output, outcomes);
  }

  lemma NewAnswers(h: History, output: History, outcomes: History, i: nat, j: nat)
    requires i < |output| && j < |outcomes|
    ensures Answers(h + output + outcomes, |h| + i, |h| + |output| + j) <==> Settles(output[i], outcomes[j])
  {
    Positions(h, output, outcomes);
  }

  lemma CallsStayUnique(h: History, output: History, outcomes: History)
    requires Extends(h, output) && AllOutputs(outcomes)
    ensures UniqueCalls(h + output + outcomes)
  {
    var w, v := h + output + outcomes, h + output;
    assert forall i :: 0 <= i < |v| ==> w[i] == v[i];
    assert forall i :: |v| <= i < |w| ==> w[i] == outcomes[i - |v|];
  }

  /** An old output and an outcome never share a call id. */
  lemma OldOutputApart(h: History, output: History, j: nat, x: Item)
    requires Extends(h, output) && j < |h| && h[j].body.Output?
    requires IsAsked(output, x)
    ensures h[j].body.callId != x.body.callId
  {
    var v := h + output;
    var i :| Answers(h, i, j);
    var i' :| 0 <= i' < |output| && Settles(output[i'], x);
    assert v[i] == h[i] && v[|h| + i'] == output[i'];
  }

  lemma OutputsApart(h: History, output: History, outcomes: History, i: nat, j: nat)
    requires Extends(h, output) && OutcomesSettle(output, outcomes)
    requires i < j < |h + output + outcomes|
    requires (h + output + outcomes)[i].body.Output? && (h + output + outcomes)[j].body.Output?
    ensures (h + output + outcomes)[i].body.callId != (h + output + outcomes)[j].body.callId
  {
    var m := |h| + |output|;
    OutputPlace(h, output, outcomes, i);
    OutputPlace(h, output, outcomes, j);
    if j < |h| {
      assert UniqueOutputs(h);
    } else if |h| <= i {
      assert UniqueOutputs(outcomes);
    } else {
      OldOutputApart(h, output, i, outcomes[j - m]);
    }
  }

  lemma OutputsStayUnique(h: History, output: History, outcomes: History)
    requires Extends(h, output) && AllOutputs(outcomes) && OutcomesSettle(output, outcomes)
    ensures UniqueOutputs(h + output + outcomes)
  {
    var w := h + output + outcomes;
    forall i, j | 0 <= i < j < |w| && w[i].body.Output? && w[j].body.Output?
      ensures w[i].body.callId != w[j].body.callId
    {
      OutputsApart(h, output, outcomes, i, j);
    }
  }

  lemma CallPlace(h: History, output: History, outcomes: History, i: nat)
    requires AllOutputs(outcomes) && i < |h + output + outcomes| && (h + output + outcomes)[i].body.Call?
    ensures i < |h| + |output|
    ensures (h + output + outcomes)[i] == if i < |h| then h[i] else output[i - |h|]
  {
    Positions(h, output, outcomes);
  }

  lemma OutputPlace(h: History, output: History, outcomes: History, i: nat)
    requires Extends(h, output) && i < |h + output + outcomes| && (h + output + outcomes)[i].body.Output?
    ensures i < |h| || |h| + |output| <= i
    ensures (h + output + outcomes)[i] == if i < |h| then h[i] else outcomes[i - |h| - |output|]
  {
    Positions(h, output, outcomes);
  }

  lemma StillUninterrupted(h: History, output: History, outcomes: History)
    requires Extends(h, output) && AllOutputs(outcomes) && UniqueOutputs(h + output + outcomes)
    ensures NoInterruption(h + output + outcomes)
  {
    var w := h + output + outcomes;
    Positions(h, output, outcomes);
    forall i, j, k | Answers(w, i, j) && i < k < j
      ensures !w[k].IsUser()
    {
      OldAnswers(h, output, outcomes, i, j);
      if j < |h| {
        assert Answers(h, i, j);
      } else if i < |h| {
        assert false;
      } else if k < |h| + |output| {
        assert w[k] == output[k - |h|];
      } else {
        assert w[k] == outcomes[k - |h| - |output|];
      }
    }
  }

  lemma OldCallGetsAnswer(h: History, output: History, outcomes: History, i: nat) returns (j: nat)
    requires Extends(h, output) && AllOutputs(outcomes) && i < |h| && h[i].body.Call?
    ensures Answers(h + output + outcomes, i, j)
  {
    assert HasAnswer(h, i);
    j :| Answers(h, i, j);
    OldAnswers(h, output, outcomes, i, j);
  }

  lemma NewCallGetsAnswer(h: History, output: History, outcomes: History, i: nat) returns (j: nat)
    requires i < |output| && IsSettled(output[i], outcomes)
    ensures Answers(h + output + outcomes, |h| + i, j)
  {
    var x :| 0 <= x < |outcomes| && Settles(output[i], outcomes[x]);
    NewAnswers(h, output, outcomes, i, x);
    j := |h| + |output| + x;
  }

  lemma CallGetsAnswer(h: History, output: History, outcomes: History, i: nat) returns (j: nat)
    requires Extends(h, output) && AllOutputs(outcomes) && OutcomesSettle(output, outcomes)
    requires i < |h + output + outcomes| && (h + output + outcomes)[i].body.Call?
    ensures Answers(h + output + outcomes, i, j)
  {
    CallPlace(h, output, outcomes, i);
    if i < |h| {
      j := OldCallGetsAnswer(h, output, outcomes, i);
    } else {
      j := NewCallGetsAnswer(h, output, outcomes, i - |h|);
    }
  }

  lemma OutputHasCall(h: History, output: History, outcomes: History, j: nat) returns (i: nat)
    requires Extends(h, output) && AllOutputs(outcomes) && OutcomesSettle(output, outcomes)
    requires j < |h + output + outcomes| && (h + output + outcomes)[j].body.Output?
    ensures Answers(h + output + outcomes, i, j)
  {
    OutputPlace(h, output, outcomes, j);
    if j < |h| {
      i :| Answers(h, i, j);
      OldAnswers(h, output, outcomes, i, j);
    } else {
      var x := j - |h| - |output|;
      var c :| 0 <= c < |output| && Settles(output[c], outcomes[x]);
      NewAnswers(h, output, outcomes, c, x);
      i := |h| + c;
    }
  }

  lemma SettledAnswers(h: History, output: History, outcomes: History)
    requires Extends(h, output) && AllOutputs(outcomes) && OutcomesSettle(output, outcomes)
    ensures EveryCallAnswered(h + output + outcomes) && EveryOutputAnswers(h + output + outcomes)
  {
    var w := h + output + outcomes;
    forall i | 0 <= i < |w| && w[i].body.Call?
      ensures HasAnswer(w, i)
    {
      var j := CallGetsAnswer(h, output, outcomes, i);
    }
    forall j | 0 <= j < |w| && w[j].body.Output?
      ensures HasCall(w, j)
    {
      var i := OutputHasCall(h, output, outcomes, j);
    }
  }

  lemma CallWasSettled(h: History, output: History, outcomes: History, i: nat) returns (j: nat)
    requires Extends(h, output) && AllOutputs(outcomes) && EveryCallAnswered(h + output + outcomes)
    requires i < |output| && output[i].body.Call?
    ensures j < |outcomes| && Settles(output[i], outcomes[j])
  {
    var w := h + output + outcomes;
    assert w[|h| + i] == output[i];
    var at :| Answers(w, |h| + i, at);
    OldAnswers(h, output, outcomes, |h| + i, at);
    j := at - |h| - |output|;
    NewAnswers(h, output, outcomes, i, j);
  }

  lemma OutcomeSettledOne(h: History, output: History, outcomes: History, j: nat) returns (i: nat)
    requires Extends(h, output) && AllOutputs(outcomes) && j < |outcomes|
    requires EveryOutputAnswers(h + output + outcomes) && UniqueOutputs(h + output + outcomes)
    ensures i < |output| && Settles(output[i], outcomes[j])
  {
    var w, m := h + output + outcomes, |h| + |output|;
    Positions(h, output, outcomes);
    assert HasCall(w, m + j);
    var at :| Answers(w, at, m + j);
    assert 0 <= at && w[at].body.Call?;
    CallPlace(h, output, outcomes, at);
    if at < |h| {
      assert false;
    }
    i := at - |h|;
    NewAnswers(h, output, outcomes, i, j);
  }

  lemma OutcomesUnique(h: History, output: History, outcomes: History)
    requires UniqueOutputs(h + output + outcomes)
    ensures UniqueOutputs(outcomes)
  {
    var w, m := h + output + outcomes, |h| + |output|;
    forall i, j | 0 <= i < j < |outcomes| && outcomes[i].body.Output? && outcomes[j].body.Output?
      ensures outcomes[i].body.callId != outcomes[j].body.callId
    {
      assert w[m + i] == outcomes[i] && w[m + j] == outcomes[j];
    }
  }

  lemma MatchedSettles(h: History, output: History, outcomes: History)
    requires Extends(h, output) && AllOutputs(outcomes)
    requires EveryCallAnswered(h + output + outcomes) && EveryOutputAnswers(h + output + outcomes)
    requires UniqueOutputs(h + output + outcomes)
    ensures OutcomesSettle(output, outcomes)
  {
    forall i | 0 <= i < |output| && output[i].body.Call?
      ensures IsSettled(output[i], outcomes)
    {
      var j := CallWasSettled(h, output, outcomes, i);
    }
    forall j | 0 <= j < |outcomes|
      ensures IsAsked(output, outcomes[j])
    {
      var i := OutcomeSettledOne(h, output, outcomes, j);
    }
    OutcomesUnique(h, output, outcomes);
  }

  /** Appending a reply and its outcomes keeps a history matched exactly when
      the outcomes settle the reply's calls and bring fresh ids. */
  lemma ExtensionMatched(h: History, output: History, outcomes: History)
    requires Extends(h, output) && AllOutputs(outcomes)
    ensures Matched(h + output + outcomes) <==>
            UniqueIds(h + output + outcomes) && OutcomesSettle(output, outcomes)
  {
    if Matched(h + output + outcomes) {
      MatchedSettles(h, output, outcomes);
    }
    if UniqueIds(h + output + outcomes) && OutcomesSettle(output, outcomes) {
      CallsStayUnique(h, output, outcomes);
      OutputsStayUnique(h, output, outcomes);
      SettledAnswers(h, output, outcomes);
      StillUninterrupted(h, output, outcomes);
    }
  }

  method ContinueWith(output: History, input: TurnInput, outcomes: History) returns (r: Result<TurnInput, Error>)
    // It succeeds exactly when the reply is valid, the outcomes settle its
    // calls with fresh ids, and the result is within the limits.
    ensures r.Ok? <==>
            && ValidOutput(output, input)
            && OutcomesSettle(output, outcomes)
            && UniqueIds(input.history + output + outcomes)
            && |input.history + output + outcomes| <= 512
            && FitsInput(Next(input, output, outcomes))
    ensures r.Err? ==> (r.error == TooLarge <==>
              ReplyTooLarge(output, input)
              || (ValidOutput(output, input) && AllOutputs(outcomes) && InputTooLarge(Next(input, output, outcomes))))
    ensures r.Ok? ==> r.value == Next(input, output, outcomes) && Continues(input, r.value)
  {
    var valid := ValidateFor(output, input);
    if valid.Err? {
      return Err(valid.error);
    }
    for j := 0 to |outcomes|
      invariant forall k :: 0 <= k < j ==> outcomes[k].body.Output?
    {
      if !outcomes[j].body.Output? {
        return Err(InvalidRequest);
      }
    }
    ExtensionMatched(input.history, output, outcomes);
    var next := Next(input, output, outcomes);
    var again := ValidateInput(next);
    if again.Err? {
      return Err(again.error);
    }
    assert Turn(input, output, outcomes, next);
    r := Ok(next);
  }

  ghost predicate Turn(input: TurnInput, output: History, outcomes: History, next: TurnInput) {
    ValidOutput(output, input) && next == Next(input, output, outcomes) && ValidInput(next)
  }

  /** One successful turn. */
  ghost predicate Continues(input: TurnInput, next: TurnInput) {
    exists output, outcomes :: Turn(input, output, outcomes, next)
  }

  ghost predicate Chain(turns: seq<TurnInput>) {
    forall n :: 0 < n < |turns| ==> Continues(turns[n - 1], turns[n])
  }

  /** Over any chain of turns the old history is an exact prefix of the new one,
      and nothing else of the input changes; every call in the new history is
      answered and no call id repeats. */
  lemma {:induction false} ChainKeeps(turns: seq<TurnInput>, m: nat, n: nat)
    requires Chain(turns) && m <= n < |turns|
    ensures turns[m].history <= turns[n].history
    ensures turns[n] == turns[m].(history := turns[n].history)
    ensures m < n ==> |turns[m].history| < |turns[n].history|
    ensures m < n ==> EveryCallAnswered(turns[n].history) && UniqueCalls(turns[n].history) && UniqueIds(turns[n].history)
  {
    if m < n {
      ChainKeeps(turns, m, n - 1);
      var output, outcomes :| Turn(turns[n - 1], output, outcomes, turns[n]);
    }
  }
}
