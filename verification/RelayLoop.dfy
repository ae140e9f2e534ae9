/** The select loop of the local WebSocket proxy.

    The network is a schedule: each entry says which arm of the select fires
    and what the reads, dials and sends of that iteration return. What crosses
    the two sockets is kept in a `Wire`, which only its own members extend, so
    the loop's promises are stated about the wire and never about the loop's
    variables. */
module RelayLoop {
  import opened Wrappers

  type Bytes = seq<bv8>

  /** A frame. A text frame carries the `type` member of its JSON body, when it
      has one; that is all the relay ever looks at. */
  datatype Message =
    | Text(body: Bytes, eventType: Option<string>)
    | Binary(body: Bytes)
    | Ping(body: Bytes)
    | Pong(body: Bytes)
    | Close(reason: Option<Bytes>)
  {
    predicate IsRequest() { Text? || Binary? }

    predicate Finishes() {
      Text? && (eventType == Some("response.completed") || eventType == Some("response.failed"))
    }
  }

  /** One read of a socket: end of stream, an error, or a frame. */
  datatype Read = Ended | Failed | Got(message: Message) {
    predicate LosesConnection() { Got? ==> message.Close? }

    /** The reason a close frame gives, if it is one and gives any. */
    function Reason(): Option<Bytes> { if Got? && message.Close? then message.reason else None }
  }

  /** Why a local error event is sent to the client. */
  datatype Cause = InitialDial | Redial | SendFailed | Interrupted

  datatype Event =
    | ClientReady(read: Read, queued: Option<Read>, redialOk: bool, sendOk: bool, deliverOk: bool)
    | UpstreamReady(read: Read, deliverOk: bool)
    | IdleElapsed(sendOk: bool)

  /** How turns ended, as an observer of the upstream socket sees it: a turn
      opens when a request is accepted by `send` and no turn is open; a request
      accepted during a turn overlaps it. */
  datatype Turns = Turns(
    open: bool, begun: nat, completed: nat, interrupted: nat, sendFailed: nat, silent: nat, overlapped: nat)
  {
    predicate Balanced() {
      begun == completed + interrupted + sendFailed + silent + (if open then 1 else 0)
    }

    function Accept(): Turns {
      if open then this.(overlapped := overlapped + 1) else this.(open := true, begun := begun + 1)
    }

    /** A send failed. */
    function Fail(request: bool): Turns {
      if !open then this
      else if request then this.(open := false, sendFailed := sendFailed + 1)
      else this.(open := false, silent := silent + 1)
    }

    function Interrupt(): Turns { if open then this.(open := false, interrupted := interrupted + 1) else this }

    function Complete(): Turns { if open then this.(open := false, completed := completed + 1) else this }
  }

  /** What became of the accepted requests, one by one and whatever the turns:
      each waits for a terminal response of its connection, and is abandoned
      when the connection reports its end first. */
  datatype Replies = Replies(accepted: nat, answered: nat, waiting: nat, abandoned: nat) {
    predicate Balanced() { accepted == answered + waiting + abandoned }

    function Accept(): Replies { this.(accepted := accepted + 1, waiting := waiting + 1) }

    function Answer(): Replies {
      if waiting == 0 then this else this.(answered := answered + 1, waiting := waiting - 1)
    }

    function Abandon(): Replies { this.(waiting := 0, abandoned := abandoned + waiting) }
  }

  datatype Wire = Wire(
    received: seq<Message>,       // client frames to forward, in the order read
    attempted: seq<Message>,      // client frames passed to an upstream `send`
    failedRequests: nat,          // request sends that reported an error
    discarded: seq<Message>,      // requests dropped after a failed first dial
    upstreamReads: seq<Message>,  // non-close frames read from any upstream
    delivered: seq<Message>,      // frames passed on to the client
    errors: seq<Cause>,           // local error events sent to the client
    closes: seq<Option<Bytes>>,   // close frames passed to an upstream when the client left
    pings: nat,                   // the proxy's own pings of idle upstreams
    dials: nat,                   // upstream connections opened so far
    lost: set<nat>,               // connections that reported their end
    misused: bool,                // a lost connection was used again
    clientGone: bool,             // the client side has ended or failed
    turns: Turns,
    replies: Replies)
  {
    function Receive(m: Message): Wire { this.(received := received + [m]) }

    function Discard(m: Message): Wire { this.(discarded := discarded + [m]) }

    function Report(c: Cause): Wire { this.(errors := errors + [c]) }

    function LoseClient(): Wire { this.(clientGone := true) }

    function Dial(): Wire { this.(dials := dials + 1) }

    predicate Usable(conn: nat) { conn < dials && conn !in lost }

    /** The connection in use: the newest, unless it has reported its end. */
    function Current(): Option<nat> { if dials > 0 && Usable(dials - 1) then Some(dials - 1) else None }

    /** Every connection but the newest has reported its end. */
    predicate OneAtATime() { forall c :: 0 <= c < dials - 1 ==> c in lost }

    /** A client frame on connection `conn`. */
    function Send(conn: nat, m: Message, ok: bool): Wire {
      this.(attempted := attempted + [m],
            failedRequests := failedRequests + (if !ok && m.IsRequest() then 1 else 0),
            lost := if ok then lost else lost + {conn},
            misused := misused || !Usable(conn),
            turns := if !ok then turns.Fail(m.IsRequest()) else if m.IsRequest() then turns.Accept() else turns,
            replies := if !ok then replies.Abandon() else if m.IsRequest() then replies.Accept() else replies)
    }

    /** The proxy's own ping of an idle upstream. */
    function PingUpstream(conn: nat, ok: bool): Wire {
      this.(lost := if ok then lost else lost + {conn}, misused := misused || !Usable(conn),
            pings := pings + 1, replies := if ok then replies else replies.Abandon())
    }

    /** The close frame that tells the upstream that the client has left. */
    function CloseUpstream(conn: nat, reason: Option<Bytes>, ok: bool): Wire {
      this.(lost := if ok then lost else lost + {conn}, misused := misused || !Usable(conn), closes := closes + [reason])
    }

    function ReadUpstream(conn: nat, read: Read): Wire {
      if read.LosesConnection() then
        this.(lost := lost + {conn}, misused := misused || !Usable(conn),
              turns := turns.Interrupt(), replies := replies.Abandon())
      else
        this.(upstreamReads := upstreamReads + [read.message], misused := misused || !Usable(conn),
              turns := if read.message.Finishes() then turns.Complete() else turns,
              replies := if read.message.Finishes() then replies.Answer() else replies)
    }

    /** The two accounts are sound and agree on what was accepted. */
    predicate Tallied() {
      turns.Balanced() && replies.Balanced() && replies.accepted == turns.begun + turns.overlapped
    }

    function Deliver(m: Message, ok: bool): Wire {
      this.(delivered := delivered + [m], clientGone := clientGone || !ok)
    }
  }

  /** Nothing has crossed the sockets. */
  function Silence(): Wire {
    Wire([], [], 0, [], [], [], [], [], 0, 0, {}, false, false, Turns(false, 0, 0, 0, 0, 0, 0), Replies(0, 0, 0, 0))
  }

  function Requests(ms: seq<Message>): (rs: seq<Message>)
    ensures |rs| <= |ms|
  {
    if ms == [] then []
    else
      var rest := Requests(ms[..|ms| - 1]);
      if ms[|ms| - 1].IsRequest() then rest + [ms[|ms| - 1]] else rest
  }

  /** The first dial failed and no request has been read since. */
  predicate AwaitsFirst(initialOk: bool, received: seq<Message>) { !initialOk && Requests(received) == [] }

  lemma RequestsSnoc(ms: seq<Message>, m: Message)
    ensures Requests(ms + [m]) == if m.IsRequest() then Requests(ms) + [m] else Requests(ms)
  {
    assert (ms + [m])[..|ms|] == ms;
  }

  /** What may be sent: everything, but after a failed first dial only what
      follows the first request. */
  function Sendable(initialOk: bool, ms: seq<Message>): seq<Message> {
    if initialOk || ms == [] then ms
    else
      var earlier := ms[..|ms| - 1];
      if Requests(earlier) == [] then [] else Sendable(initialOk, earlier) + [ms[|ms| - 1]]
  }

  lemma SendableSnoc(initialOk: bool, ms: seq<Message>, m: Message)
    ensures Sendable(initialOk, ms + [m]) ==
            if initialOk || Requests(ms) != [] then Sendable(initialOk, ms) + [m] else []
  {
    assert (ms + [m])[..|ms|] == ms;
  }

  /** `a` can be had from `b` by leaving out elements: every element of `a` has
      its own element of `b`, in the same order. */
  ghost predicate Subsequence(a: seq<Message>, b: seq<Message>)
    decreases |b|
  {
    a == [] ||
    (b != [] &&
     (Subsequence(a, b[..|b| - 1]) ||
      (a[|a| - 1] == b[|b| - 1] && Subsequence(a[..|a| - 1], b[..|b| - 1]))))
  }

  lemma SubsequenceSkip(a: seq<Message>, b: seq<Message>, m: Message)
    requires Subsequence(a, b)
    ensures Subsequence(a, b + [m])
  {
    assert (b + [m])[..|b|] == b;
  }

  lemma SubsequenceTake(a: seq<Message>, b: seq<Message>, m: Message)
    requires Subsequence(a, b)
    ensures Subsequence(a + [m], b + [m])
  {
    assert (b + [m])[..|b|] == b;
    assert (a + [m])[..|a|] == a;
  }

  function CountOf(c: Cause, errors: seq<Cause>): nat {
    if errors == [] then 0
    else CountOf(c, errors[..|errors| - 1]) + (if errors[|errors| - 1] == c then 1 else 0)
  }

  lemma CountSnoc(errors: seq<Cause>, e: Cause, c: Cause)
    ensures CountOf(c, errors + [e]) == CountOf(c, errors) + (if e == c then 1 else 0)
  {
    assert (errors + [e])[..|errors|] == errors;
  }

  /** Requests with no outcome on the wire: neither discarded, failed by a
      reported redial, nor passed to `send`. */
  function Unanswered(w: Wire): int {
    |Requests(w.received)| - |w.discarded| - CountOf(Redial, w.errors) - |Requests(w.attempted)|
  }

  lemma ReportCounts(w: Wire, e: Cause)
    ensures Unanswered(w.Report(e)) == Unanswered(w) - (if e == Redial then 1 else 0)
    ensures CountOf(InitialDial, w.Report(e).errors) == CountOf(InitialDial, w.errors) + (if e == InitialDial then 1 else 0)
    ensures CountOf(SendFailed, w.Report(e).errors) == CountOf(SendFailed, w.errors) + (if e == SendFailed then 1 else 0)
    ensures CountOf(Interrupted, w.Report(e).errors) == CountOf(Interrupted, w.errors) + (if e == Interrupted then 1 else 0)
  {
    CountSnoc(w.errors, e, InitialDial);
    CountSnoc(w.errors, e, Redial);
    CountSnoc(w.errors, e, SendFailed);
    CountSnoc(w.errors, e, Interrupted);
  }

  /** What an observer of both sockets is promised at every point of a session. */
  ghost predicate Promises(initialOk: bool, w: Wire) {
    && Ordered(initialOk, w)
    // Every request has one outcome; one may be dropped as the session ends.
    && 0 <= Unanswered(w) <= (if w.clientGone then 1 else 0)
    && ErrorsMatch(initialOk, w)
  }

  ghost predicate Ordered(initialOk: bool, w: Wire) {
    // Never replayed: what is sent is an in-order subsequence of what was read,
    // without the request whose dial failed.
    && Subsequence(w.attempted, Sendable(initialOk, w.received))
    && FirstDropped(initialOk, w)
    // Upstream frames reach the client in order, none lost, none repeated.
    && w.delivered == w.upstreamReads
    // A connection that reported its end is never read or written again, and
    // there is never a second one beside one in use.
    && !w.misused
    && w.OneAtATime()
    && w.Tallied()
  }

  /** After a failed first dial exactly the first request is discarded, and no
      connection is dialled before a second one; otherwise nothing is discarded. */
  ghost predicate FirstDropped(initialOk: bool, w: Wire) {
    var requests := Requests(w.received);
    && w.discarded == (if initialOk || requests == [] then [] else [requests[0]])
    && (!initialOk && |requests| < 2 ==> w.dials == 0)
  }

  /** Local error events are sent for exactly these happenings, once each. */
  ghost predicate ErrorsMatch(initialOk: bool, w: Wire) {
    && CountOf(InitialDial, w.errors) == (if initialOk then 0 else 1)
    && CountOf(SendFailed, w.errors) == w.failedRequests
    && CountOf(Interrupted, w.errors) == w.turns.interrupted
  }

  /** The promises while the outcome of `message`, just read, is open. */
  ghost predicate HeldOn(initialOk: bool, w: Wire, message: Message) {
    && w.received != [] && w.received[|w.received| - 1] == message
    && (var earlier := w.received[..|w.received| - 1];
        && Subsequence(w.attempted, Sendable(initialOk, earlier))
        && w.discarded == (if initialOk || Requests(earlier) == [] then [] else [Requests(earlier)[0]])
        && (!initialOk && |Requests(earlier)| < (if message.IsRequest() then 1 else 2) ==> w.dials == 0))
    && w.delivered == w.upstreamReads && !w.misused && w.OneAtATime()
    && Unanswered(w) == (if message.IsRequest() then 1 else 0)
    && ErrorsMatch(initialOk, w)
    && w.Tallied()
  }

  /** The variables of the select loop. */
  datatype Relay = Relay(
    initialOk: bool, sink: Option<nat>, stream: Option<nat>, inFlight: bool, discard: bool, live: bool, wire: Wire)
  {
    /** The variables agree with the wire. */
    ghost predicate Aligned() {
      && sink == stream == wire.Current()
      && wire.OneAtATime()
      && (forall c :: c in wire.lost ==> c < wire.dials)
      && (inFlight ==> sink.Some?)
      && (discard ==> wire.dials == 0)
      && live == !wire.clientGone
      && inFlight == wire.turns.open
      && (inFlight ==> wire.replies.waiting > 0)
      && (sink.None? ==> wire.replies.waiting == 0)
    }

    /** Between iterations: once the session has ended only the promises remain. */
    ghost predicate Consistent() {
      && Promises(initialOk, wire)
      && sink == stream
      && (inFlight ==> sink.Some?)
      && live == !wire.clientGone
      && (live ==> Aligned() && (discard <==> AwaitsFirst(initialOk, wire.received)))
    }

    /** Inside the client arm, after `message` was read and before its outcome. */
    ghost predicate Holding(message: Message) {
      && Aligned() && live
      && HeldOn(initialOk, wire, message)
      && (discard <==> AwaitsFirst(initialOk, wire.received[..|wire.received| - 1]))
    }

    function Disconnected(): Relay { this.(sink := None, stream := None) }

    function Connected(): Relay {
      this.(sink := Some(wire.dials), stream := Some(wire.dials), wire := wire.Dial())
    }
  }

  /** The arm of the select that reads the client. */
  function ClientArm(r: Relay, event: Event): Relay
    requires event.ClientReady?
  {
    if event.read.LosesConnection() then
      var w := if r.sink.Some? then r.wire.CloseUpstream(r.sink.value, event.read.Reason(), event.sendOk) else r.wire;
      r.(live := false, wire := w.LoseClient())
    else
      var message := event.read.message;
      var held := r.(wire := r.wire.Receive(message));
      if held.discard && message.IsRequest() then
        held.(discard := false, wire := held.wire.Discard(message))
      else if held.sink.None? && !message.IsRequest() then held
      else ForwardHeld(held, message, event)
  }

  /** Poll an idle upstream, redial when there is none, then send once. */
  function ForwardHeld(r: Relay, message: Message, event: Event): Relay
    requires event.ClientReady?
  {
    var polled :=
      if message.IsRequest() && !r.inFlight && r.stream.Some? && event.queued.Some?
      then PollQueued(r, event.queued.value, event.deliverOk) else r;
    if !polled.live then polled
    else if polled.sink.Some? then SendHeld(polled, message, event.sendOk)
    else if event.redialOk then SendHeld(polled.Connected(), message, event.sendOk)
    else polled.(wire := polled.wire.Report(Redial))
  }

  /** The look at the idle upstream's buffer just before a request is sent. */
  function PollQueued(r: Relay, queued: Read, deliverOk: bool): Relay
    requires r.stream.Some?
  {
    var w := r.wire.ReadUpstream(r.stream.value, queued);
    if queued.LosesConnection() then r.(wire := w).Disconnected()
    else r.(live := deliverOk, wire := w.Deliver(queued.message, deliverOk))
  }

  /** The one attempt to send a held frame. */
  function SendHeld(r: Relay, message: Message, sendOk: bool): Relay
    requires r.sink.Some?
  {
    var w := r.wire.Send(r.sink.value, message, sendOk);
    if sendOk then
      r.(wire := w, inFlight := r.inFlight || message.IsRequest())
    else
      var reported := if message.IsRequest() then w.Report(SendFailed) else w;
      r.(wire := reported, inFlight := false).Disconnected()
  }

  /** The arm of the select that reads the upstream. */
  function UpstreamArm(r: Relay, read: Read, deliverOk: bool): Relay
    requires r.stream.Some?
  {
    var w := r.wire.ReadUpstream(r.stream.value, read);
    if read.LosesConnection() then
      r.(wire := if r.inFlight then w.Report(Interrupted) else w, inFlight := false).Disconnected()
    else
      var w' := w.Deliver(read.message, deliverOk);
      if !deliverOk then r.(live := false, wire := w')
      else r.(wire := w', inFlight := r.inFlight && !read.message.Finishes())
  }

  /** The arm that pings an idle upstream. */
  function IdleArm(r: Relay, sendOk: bool): Relay
    requires r.sink.Some?
  {
    var r' := r.(wire := r.wire.PingUpstream(r.sink.value, sendOk));
    if sendOk then r' else r'.Disconnected()
  }

  /** One iteration. An arm that the select cannot choose - no stream to read,
      or a ping whose guard is false - leaves everything as it is. */
  function Iterate(r: Relay, event: Event): Relay {
    if !r.live then r
    else
      match event
      case ClientReady(_, _, _, _, _) => ClientArm(r, event)
      case UpstreamReady(read, deliverOk) =>
        if r.stream.Some? then UpstreamArm(r, read, deliverOk) else r
      case IdleElapsed(sendOk) =>
        if r.sink.Some? && !r.inFlight then IdleArm(r, sendOk) else r
  }

  function Start(initialOk: bool): Relay {
    var r := Relay(initialOk, None, None, false, !initialOk, true, Silence());
    if initialOk then r.Connected() else r.(wire := r.wire.Report(InitialDial))
  }

  /** The session that a schedule leads to. */
  function Run(initialOk: bool, schedule: seq<Event>): Relay {
    if schedule == [] then Start(initialOk)
    else Iterate(Run(initialOk, schedule[..|schedule| - 1]), schedule[|schedule| - 1])
  }

  lemma RunStep(initialOk: bool, schedule: seq<Event>, event: Event)
    ensures Run(initialOk, schedule + [event]) == Iterate(Run(initialOk, schedule), event)
  {
    assert (schedule + [event])[..|schedule|] == schedule;
  }

  /** A client frame is read and becomes the one whose outcome is open. */
  lemma ReceiveHolds(r: Relay, message: Message)
    requires r.Consistent() && r.live
    ensures r.(wire := r.wire.Receive(message)).Holding(message)
  {
    RequestsSnoc(r.wire.received, message);
    assert r.wire.Receive(message).received[..|r.wire.received|] == r.wire.received;
  }

  lemma {:induction false} NothingSendable(initialOk: bool, ms: seq<Message>)
    requires AwaitsFirst(initialOk, ms)
    ensures Sendable(initialOk, ms) == []
  {
  }

  lemma HeldSubsequence(initialOk: bool, w: Wire, message: Message)
    requires HeldOn(initialOk, w, message)
    ensures var awaits := AwaitsFirst(initialOk, w.received[..|w.received| - 1]);
            && Subsequence(w.attempted, Sendable(initialOk, w.received))
            && (!awaits ==> Subsequence(w.attempted + [message], Sendable(initialOk, w.received)))
  {
    var earlier := w.received[..|w.received| - 1];
    assert w.received == earlier + [message];
    SendableSnoc(initialOk, earlier, message);
    if AwaitsFirst(initialOk, earlier) {
      NothingSendable(initialOk, earlier);
    } else {
      SubsequenceSkip(w.attempted, Sendable(initialOk, earlier), message);
      SubsequenceTake(w.attempted, Sendable(initialOk, earlier), message);
    }
  }

  lemma HeldFirst(initialOk: bool, w: Wire, message: Message)
    requires HeldOn(initialOk, w, message)
    ensures var awaits := AwaitsFirst(initialOk, w.received[..|w.received| - 1]);
            && (if awaits && message.IsRequest() then FirstDropped(initialOk, w.Discard(message))
                else FirstDropped(initialOk, w))
            && (AwaitsFirst(initialOk, w.received) <==> awaits && !message.IsRequest())
  {
    var earlier := w.received[..|w.received| - 1];
    assert w.received == earlier + [message];
    RequestsSnoc(earlier, message);
  }

  /** What reading `message` adds to what is promised about the frames read. */
  lemma HeldOrder(initialOk: bool, w: Wire, message: Message)
    requires HeldOn(initialOk, w, message)
    ensures var awaits := AwaitsFirst(initialOk, w.received[..|w.received| - 1]);
            && Subsequence(w.attempted, Sendable(initialOk, w.received))
            && (!awaits ==> Subsequence(w.attempted + [message], Sendable(initialOk, w.received)))
            && (if awaits && message.IsRequest() then FirstDropped(initialOk, w.Discard(message))
                else FirstDropped(initialOk, w))
            && (AwaitsFirst(initialOk, w.received) <==> awaits && !message.IsRequest())
  {
    HeldSubsequence(initialOk, w, message);
    HeldFirst(initialOk, w, message);
  }

  /** What a send leaves of what the promises are about. */
  predicate Steady(w: Wire, v: Wire) {
    && v.received == w.received && v.discarded == w.discarded && v.errors == w.errors
    && v.turns.interrupted == w.turns.interrupted && v.dials == w.dials && w.lost <= v.lost
    && v.delivered == v.upstreamReads && !v.misused && v.Tallied()
  }

  /** The promises are about these parts of the wire. */
  predicate SameParts(w: Wire, v: Wire) {
    Steady(w, v) && v.attempted == w.attempted && v.failedRequests == w.failedRequests
  }

  lemma HeldCarries(initialOk: bool, w: Wire, v: Wire, message: Message)
    requires HeldOn(initialOk, w, message) && SameParts(w, v)
    ensures HeldOn(initialOk, v, message)
  {
    assert Unanswered(v) == Unanswered(w);
  }

  /** A held frame was let go without being sent. */
  lemma HeldReleased(initialOk: bool, w: Wire, message: Message)
    requires HeldOn(initialOk, w, message) && !(AwaitsFirst(initialOk, w.received[..|w.received| - 1]) && message.IsRequest())
    requires message.IsRequest() ==> w.clientGone
    ensures Promises(initialOk, w)
  {
    HeldOrder(initialOk, w, message);
  }

  lemma RedialFailedOn(initialOk: bool, w: Wire, message: Message)
    requires HeldOn(initialOk, w, message) && !AwaitsFirst(initialOk, w.received[..|w.received| - 1]) && message.IsRequest()
    ensures Promises(initialOk, w.Report(Redial))
  {
    HeldOrder(initialOk, w, message);
    ReportCounts(w, Redial);
    var v := w.Report(Redial);
    assert FirstDropped(initialOk, v) && Subsequence(v.attempted, Sendable(initialOk, v.received));
    assert Unanswered(v) == 0;
  }

  lemma DiscardedOn(initialOk: bool, w: Wire, message: Message)
    requires HeldOn(initialOk, w, message) && AwaitsFirst(initialOk, w.received[..|w.received| - 1]) && message.IsRequest()
    ensures Promises(initialOk, w.Discard(message))
  {
    HeldOrder(initialOk, w, message);
  }

  lemma SentCount(w: Wire, message: Message)
    ensures |Requests(w.attempted + [message])| == |Requests(w.attempted)| + (if message.IsRequest() then 1 else 0)
  {
    RequestsSnoc(w.attempted, message);
  }

  /** A held frame was passed to `send`. */
  lemma SentOn(initialOk: bool, w: Wire, v: Wire, message: Message)
    requires HeldOn(initialOk, w, message) && !AwaitsFirst(initialOk, w.received[..|w.received| - 1])
    requires Steady(w, v) && v.attempted == w.attempted + [message]
    ensures Ordered(initialOk, v) && Unanswered(v) == 0
  {
    HeldOrder(initialOk, w, message);
    SentCount(w, message);
  }

  lemma DiscardSettles(r: Relay, message: Message)
    requires r.Holding(message) && r.discard && message.IsRequest()
    ensures r.(discard := false, wire := r.wire.Discard(message)).Consistent()
  {
    HeldOrder(r.initialOk, r.wire, message);
    DiscardedOn(r.initialOk, r.wire, message);
  }

  lemma ReportAligned(r: Relay, c: Cause)
    requires r.Aligned()
    ensures r.(wire := r.wire.Report(c)).Aligned()
  {
  }

  lemma ReportSettles(r: Relay, message: Message)
    requires r.Holding(message) && message.IsRequest() && !r.discard
    ensures r.(wire := r.wire.Report(Redial)).Consistent()
  {
    HeldFirst(r.initialOk, r.wire, message);
    RedialFailedOn(r.initialOk, r.wire, message);
    ReportAligned(r, Redial);
  }

  /** A control frame while there is no upstream. */
  lemma IgnoreSettles(r: Relay, message: Message)
    requires r.Holding(message) && !message.IsRequest()
    ensures r.Consistent()
  {
    HeldOrder(r.initialOk, r.wire, message);
    HeldReleased(r.initialOk, r.wire, message);
  }

  lemma ConnectedHolds(r: Relay, message: Message)
    requires r.Holding(message) && r.sink.None? && !r.discard && message.IsRequest()
    ensures r.Connected().Holding(message)
  {
  }

  lemma SentAligned(r: Relay, message: Message)
    requires r.Aligned() && r.live && r.sink.Some? && !r.discard
    ensures SendHeld(r, message, true).Aligned()
  {
    var w := r.wire.Send(r.sink.value, message, true);
    assert w.lost == r.wire.lost && w.dials == r.wire.dials;
  }

  lemma UnsentAligned(r: Relay, message: Message)
    requires r.Aligned() && r.live && r.sink.Some? && !r.discard
    ensures SendHeld(r, message, false).Aligned()
  {
    var w := r.wire.Send(r.sink.value, message, false);
    assert w.lost == r.wire.lost + {r.wire.dials - 1} && w.dials == r.wire.dials;
    assert !w.turns.open && w.replies.waiting == 0 && w.Current() == None;
  }

  lemma SendIsSteady(r: Relay, message: Message, ok: bool)
    requires r.Holding(message) && r.sink.Some?
    ensures Steady(r.wire, r.wire.Send(r.sink.value, message, ok))
  {
  }

  /** Where a send leaves the wire, before anything is reported. */
  lemma SentOrdered(r: Relay, message: Message, ok: bool)
    requires r.Holding(message) && r.sink.Some?
    ensures var w := r.wire.Send(r.sink.value, message, ok); Ordered(r.initialOk, w) && Unanswered(w) == 0
  {
    SendIsSteady(r, message, ok);
    SentOn(r.initialOk, r.wire, r.wire.Send(r.sink.value, message, ok), message);
  }

  lemma SentAfterFirst(r: Relay, message: Message)
    requires r.Holding(message) && r.sink.Some?
    ensures !r.discard && !AwaitsFirst(r.initialOk, r.wire.received)
  {
    HeldFirst(r.initialOk, r.wire, message);
  }

  lemma SentSettles(r: Relay, message: Message)
    requires r.Holding(message) && r.sink.Some?
    ensures SendHeld(r, message, true).Consistent()
  {
    SentOrdered(r, message, true);
    SentAfterFirst(r, message);
    SentAligned(r, message);
  }

  lemma UnsentReported(initialOk: bool, w: Wire)
    requires Ordered(initialOk, w) && Unanswered(w) == 0
    requires w.failedRequests > 0 && ErrorsMatch(initialOk, w.(failedRequests := w.failedRequests - 1))
    ensures Promises(initialOk, w.Report(SendFailed))
  {
    ReportCounts(w, SendFailed);
    var v := w.Report(SendFailed);
    assert FirstDropped(initialOk, v) && v.Tallied();
  }

  lemma UnsentRequestSettles(r: Relay, message: Message)
    requires r.Holding(message) && r.sink.Some? && message.IsRequest()
    ensures SendHeld(r, message, false).Consistent()
  {
    var w := r.wire.Send(r.sink.value, message, false);
    SentOrdered(r, message, false);
    UnsentReported(r.initialOk, w);
    SentAfterFirst(r, message);
    UnsentAligned(r, message);
  }

  lemma UnsentControlSettles(r: Relay, message: Message)
    requires r.Holding(message) && r.sink.Some? && !message.IsRequest()
    ensures SendHeld(r, message, false).Consistent()
  {
    SentOrdered(r, message, false);
    SentAfterFirst(r, message);
    UnsentAligned(r, message);
  }

  lemma SendSettles(r: Relay, message: Message, sendOk: bool)
    requires r.Holding(message) && r.sink.Some?
    ensures SendHeld(r, message, sendOk).Consistent()
    ensures SendHeld(r, message, sendOk).initialOk == r.initialOk
  {
    if sendOk {
      SentSettles(r, message);
    } else if message.IsRequest() {
      UnsentRequestSettles(r, message);
    } else {
      UnsentControlSettles(r, message);
    }
  }

  lemma PollLosesParts(r: Relay, queued: Read)
    requires r.Aligned() && !r.inFlight && r.stream.Some? && queued.LosesConnection()
    requires r.wire.delivered == r.wire.upstreamReads && !r.wire.misused && r.wire.Tallied()
    ensures SameParts(r.wire, PollQueued(r, queued, true).wire)
  {
    LossTallies(r.wire);
    assert r.wire.turns.Interrupt() == r.wire.turns;
  }

  lemma PollLosesAligned(r: Relay, queued: Read)
    requires r.Aligned() && !r.inFlight && r.stream.Some? && queued.LosesConnection()
    ensures PollQueued(r, queued, true).Aligned()
  {
    var w := r.wire.ReadUpstream(r.stream.value, queued);
    assert w.lost == r.wire.lost + {r.wire.dials - 1} && w.dials == r.wire.dials;
    assert w.Current() == None && w.replies.waiting == 0 && !w.turns.open;
  }

  /** The idle upstream turns out to be gone before a request is sent. */
  lemma PollLosesKeeps(r: Relay, message: Message, queued: Read)
    requires r.Holding(message) && !r.inFlight && r.stream.Some? && queued.LosesConnection()
    ensures PollQueued(r, queued, true).Holding(message)
  {
    PollLosesParts(r, queued);
    PollLosesAligned(r, queued);
    HeldCarries(r.initialOk, r.wire, PollQueued(r, queued, true).wire, message);
  }

  lemma PollReadsKeeps(r: Relay, message: Message, queued: Read, deliverOk: bool)
    requires r.Holding(message) && message.IsRequest() && !r.inFlight && r.stream.Some? && !queued.LosesConnection()
    ensures var v := PollQueued(r, queued, deliverOk);
            if v.live then v.Holding(message) else v.Consistent()
  {
    var v := PollQueued(r, queued, deliverOk);
    assert v.wire == r.wire.(upstreamReads := v.wire.upstreamReads, delivered := v.wire.upstreamReads,
                             misused := false, clientGone := v.wire.clientGone, replies := v.wire.replies);
    HeldCarries(r.initialOk, r.wire, v.wire, message);
    if !deliverOk {
      HeldReleased(r.initialOk, v.wire, message);
    }
  }

  lemma PollKeeps(r: Relay, message: Message, queued: Read, deliverOk: bool)
    requires r.Holding(message) && message.IsRequest() && !r.inFlight && r.stream.Some?
    ensures var v := PollQueued(r, queued, deliverOk);
            v.initialOk == r.initialOk && if v.live then v.Holding(message) else v.Consistent()
  {
    if queued.LosesConnection() {
      PollLosesKeeps(r, message, queued);
    } else {
      PollReadsKeeps(r, message, queued, deliverOk);
    }
  }

  lemma ForwardSettles(r: Relay, message: Message, event: Event)
    requires event.ClientReady?
    requires r.Holding(message) && (message.IsRequest() ==> !r.discard) && (r.sink.None? ==> message.IsRequest())
    ensures ForwardHeld(r, message, event).Consistent()
    ensures ForwardHeld(r, message, event).initialOk == r.initialOk
  {
    var polled := r;
    if message.IsRequest() && !r.inFlight && r.stream.Some? && event.queued.Some? {
      PollKeeps(r, message, event.queued.value, event.deliverOk);
      polled := PollQueued(r, event.queued.value, event.deliverOk);
    }
    if polled.live {
      if polled.sink.Some? {
        SendSettles(polled, message, event.sendOk);
      } else if event.redialOk {
        ConnectedHolds(polled, message);
        SendSettles(polled.Connected(), message, event.sendOk);
      } else {
        ReportSettles(polled, message);
      }
    }
  }

  lemma ClientArmKeeps(r: Relay, event: Event)
    requires r.Consistent() && r.live && event.ClientReady?
    ensures ClientArm(r, event).Consistent() && ClientArm(r, event).initialOk == r.initialOk
  {
    if event.read.LosesConnection() {
      LeaveKeeps(r, event);
    } else {
      var message := event.read.message;
      ReceiveHolds(r, message);
      var held := r.(wire := r.wire.Receive(message));
      if held.discard && message.IsRequest() {
        DiscardSettles(held, message);
      } else if held.sink.Some? || message.IsRequest() {
        ForwardSettles(held, message, event);
      } else {
        IgnoreSettles(held, message);
      }
    }
  }

  lemma LeaveKeeps(r: Relay, event: Event)
    requires r.Consistent() && r.live && event.ClientReady? && event.read.LosesConnection()
    ensures ClientArm(r, event).Consistent()
  {
    var v := ClientArm(r, event).wire;
    assert v == r.wire.(lost := v.lost, misused := false, closes := v.closes, clientGone := true);
    PromisesCarry(r.initialOk, r.wire, v);
  }

  lemma PromisesCarry(initialOk: bool, w: Wire, v: Wire)
    requires Promises(initialOk, w) && SameParts(w, v) && (w.clientGone ==> v.clientGone)
    ensures Promises(initialOk, v)
  {
    assert Unanswered(v) == Unanswered(w);
  }

  lemma PromisesInterrupted(initialOk: bool, w: Wire, v: Wire)
    requires Promises(initialOk, w) && v.clientGone == w.clientGone && v.turns.interrupted == w.turns.interrupted + 1
    requires SameParts(w.Report(Interrupted).(turns := v.turns), v)
    ensures Promises(initialOk, v)
  {
    ReportCounts(w, Interrupted);
    assert Unanswered(v) == Unanswered(w.Report(Interrupted));
  }

  lemma LossTallies(w: Wire)
    requires w.Tallied()
    ensures w.(turns := w.turns.Interrupt(), replies := w.replies.Abandon()).Tallied()
  {
  }

  lemma IdleLossKeeps(r: Relay, read: Read)
    requires r.Consistent() && r.live && r.stream.Some? && read.LosesConnection() && !r.inFlight
    ensures UpstreamArm(r, read, true).Consistent()
  {
    var w, v := r.wire, UpstreamArm(r, read, true).wire;
    assert v == w.(lost := v.lost, replies := w.replies.Abandon());
    LossTallies(w);
    PromisesCarry(r.initialOk, w, v);
  }

  lemma BusyLossKeeps(r: Relay, read: Read)
    requires r.Consistent() && r.live && r.stream.Some? && read.LosesConnection() && r.inFlight
    ensures UpstreamArm(r, read, true).Consistent()
  {
    var w, v := r.wire, UpstreamArm(r, read, true).wire;
    assert v == w.Report(Interrupted).(lost := v.lost, turns := w.turns.Interrupt(), replies := w.replies.Abandon());
    LossTallies(w);
    PromisesInterrupted(r.initialOk, w, v);
  }

  lemma UpstreamLossKeeps(r: Relay, read: Read)
    requires r.Consistent() && r.live && r.stream.Some? && read.LosesConnection()
    ensures UpstreamArm(r, read, true).Consistent()
  {
    if r.inFlight {
      BusyLossKeeps(r, read);
    } else {
      IdleLossKeeps(r, read);
    }
  }

  lemma UpstreamReadKeeps(r: Relay, read: Read, deliverOk: bool)
    requires r.Consistent() && r.live && r.stream.Some? && !read.LosesConnection()
    ensures UpstreamArm(r, read, deliverOk).Consistent()
  {
    var v := UpstreamArm(r, read, deliverOk);
    assert v.wire == r.wire.(upstreamReads := v.wire.upstreamReads, delivered := v.wire.upstreamReads,
                             misused := r.wire.misused, clientGone := v.wire.clientGone, turns := v.wire.turns,
                             replies := v.wire.replies);
    assert v.wire.Tallied() && v.wire.turns.interrupted == r.wire.turns.interrupted;
    PromisesCarry(r.initialOk, r.wire, v.wire);
  }

  lemma UpstreamArmKeeps(r: Relay, read: Read, deliverOk: bool)
    requires r.Consistent() && r.live && r.stream.Some?
    ensures UpstreamArm(r, read, deliverOk).Consistent() && UpstreamArm(r, read, deliverOk).initialOk == r.initialOk
  {
    if read.LosesConnection() {
      UpstreamLossKeeps(r, read);
    } else {
      UpstreamReadKeeps(r, read, deliverOk);
    }
  }

  lemma IdleArmKeeps(r: Relay, sendOk: bool)
    requires r.Consistent() && r.live && r.sink.Some? && !r.inFlight
    ensures IdleArm(r, sendOk).Consistent() && IdleArm(r, sendOk).initialOk == r.initialOk
  {
  }

  lemma IterateKeeps(r: Relay, event: Event)
    requires r.Consistent()
    ensures Iterate(r, event).Consistent() && Iterate(r, event).initialOk == r.initialOk
  {
    if r.live {
      match event
      case ClientReady(_, _, _, _, _) => ClientArmKeeps(r, event);
      case UpstreamReady(read, deliverOk) =>
        if r.stream.Some? {
          UpstreamArmKeeps(r, read, deliverOk);
        }
      case IdleElapsed(sendOk) =>
        if r.sink.Some? && !r.inFlight {
          IdleArmKeeps(r, sendOk);
        }
    }
  }

  lemma StartIsEmpty(initialOk: bool)
    ensures var w := Start(initialOk).wire;
            && Subsequence(w.attempted, Sendable(initialOk, w.received)) && w.delivered == w.upstreamReads
            && FirstDropped(initialOk, w) && w.OneAtATime() && !w.misused && !w.clientGone && w.received == []
  {
  }

  lemma NothingTallies(w: Wire)
    requires w.turns == Turns(false, 0, 0, 0, 0, 0, 0) && w.replies == Replies(0, 0, 0, 0)
    ensures w.Tallied()
  {
  }

  lemma StartTallied(initialOk: bool)
    ensures Start(initialOk).wire.Tallied()
  {
    NothingTallies(Start(initialOk).wire);
  }

  lemma StartErrors(initialOk: bool)
    ensures var w := Start(initialOk).wire; ErrorsMatch(initialOk, w) && Unanswered(w) == 0
  {
    if !initialOk {
      ReportCounts(Silence(), InitialDial);
    }
  }

  lemma StartAligned(initialOk: bool)
    ensures Start(initialOk).Aligned() && Start(initialOk).live && Start(initialOk).initialOk == initialOk
    ensures Start(initialOk).discard == !initialOk
  {
  }

  lemma BeginsConsistent(r: Relay)
    requires r.Aligned() && r.live
    requires Subsequence(r.wire.attempted, Sendable(r.initialOk, r.wire.received))
    requires r.wire.delivered == r.wire.upstreamReads && FirstDropped(r.initialOk, r.wire)
    requires r.wire.received == [] && r.discard == !r.initialOk
    requires !r.wire.misused && r.wire.Tallied()
    requires ErrorsMatch(r.initialOk, r.wire) && Unanswered(r.wire) == 0
    ensures r.Consistent()
  {
  }

  lemma StartKeeps(initialOk: bool)
    ensures Start(initialOk).Consistent() && Start(initialOk).initialOk == initialOk
  {
    StartIsEmpty(initialOk);
    StartTallied(initialOk);
    StartErrors(initialOk);
    StartAligned(initialOk);
    BeginsConsistent(Start(initialOk));
  }

  /** Every session keeps every promise. */
  lemma {:induction false} SessionKeepsPromises(initialOk: bool, schedule: seq<Event>)
    ensures Run(initialOk, schedule).Consistent() && Run(initialOk, schedule).initialOk == initialOk
  {
    if schedule == [] {
      StartKeeps(initialOk);
    } else {
      var earlier := schedule[..|schedule| - 1];
      SessionKeepsPromises(initialOk, earlier);
      IterateKeeps(Run(initialOk, earlier), schedule[|schedule| - 1]);
    }
  }

  // What one iteration does, told from the two sockets alone: the loop's
  // variables do not occur, and what the network answers comes from the event.

  /** A request is read: after a failed first dial the first one is discarded; any
      other is sent at once, on the connection in use or on one dialled for it,
      unless the dial fails or the client turns out to have left. */
  predicate RequestFate(initialOk: bool, w: Wire, event: Event, v: Wire)
    requires event.ClientReady? && event.read.Got? && event.read.message.IsRequest()
  {
    var m := event.read.message;
    var polls := w.Current().Some? && !w.turns.open && event.queued.Some?;
    var ended := polls && event.queued.value.LosesConnection();
    var polled := if polls && !ended then [event.queued.value.message] else [];
    var up := w.Current().Some? && !ended;
    if AwaitsFirst(initialOk, w.received) then v == w.Receive(m).Discard(m)
    else
      && v.received == w.received + [m] && v.discarded == w.discarded && v.pings == w.pings && v.closes == w.closes
      && v.delivered == w.delivered + polled
      && if polled != [] && !event.deliverOk then
           v.clientGone && v.attempted == w.attempted && v.dials == w.dials && v.errors == w.errors && v.lost == w.lost
         else
           var sends := up || event.redialOk;
           && !v.clientGone
           && v.dials == w.dials + (if up || !event.redialOk then 0 else 1)
           && v.attempted == w.attempted + (if sends then [m] else [])
           && v.errors == w.errors + (if !sends then [Redial] else if !event.sendOk then [SendFailed] else [])
           && v.lost == w.lost + (if ended then {w.dials - 1} else {})
                        + (if sends && !event.sendOk && v.dials > 0 then {v.dials - 1} else {})
  }

  /** Any other frame is sent exactly when a connection is in use; it never dials
      and its failure is not reported. */
  predicate ControlFate(w: Wire, event: Event, v: Wire)
    requires event.ClientReady? && event.read.Got? && !event.read.message.IsRequest()
  {
    var m := event.read.message;
    && v.received == w.received + [m] && v.discarded == w.discarded && v.pings == w.pings && v.closes == w.closes
    && v.delivered == w.delivered && v.dials == w.dials && v.errors == w.errors && !v.clientGone
    && v.attempted == w.attempted + (if w.Current().Some? then [m] else [])
    && v.lost == w.lost + (if w.Current().Some? && !event.sendOk then {w.dials - 1} else {})
  }

  /** Nothing but the given parts has changed of what was read, sent and told. */
  predicate Untouched(w: Wire, v: Wire) {
    && v.received == w.received && v.attempted == w.attempted && v.discarded == w.discarded && v.dials == w.dials
  }

  /** The client left: the upstream in use is sent a close frame with its reason. */
  predicate LeaveFate(w: Wire, event: Event, v: Wire)
    requires event.ClientReady? && event.read.LosesConnection()
  {
    && Untouched(w, v) && v.delivered == w.delivered && v.errors == w.errors && v.pings == w.pings && v.clientGone
    && v.closes == w.closes + (if w.Current().Some? then [event.read.Reason()] else [])
  }

  /** The connection in use is read: its end is reported exactly in a turn, and
      anything else is passed on. */
  predicate ReadFate(w: Wire, event: Event, v: Wire)
    requires event.UpstreamReady?
  {
    if w.Current().None? then v == w
    else
      && Untouched(w, v) && v.pings == w.pings && v.closes == w.closes
      && if event.read.LosesConnection() then
           && v.delivered == w.delivered && v.lost == w.lost + {w.dials - 1} && !v.clientGone
           && v.errors == w.errors + (if w.turns.open then [Interrupted] else [])
         else
           && v.delivered == w.delivered + [event.read.message] && v.lost == w.lost
           && v.errors == w.errors && v.clientGone == !event.deliverOk
  }

  /** A connection in use is pinged exactly between turns. */
  predicate IdleFate(w: Wire, event: Event, v: Wire)
    requires event.IdleElapsed?
  {
    if w.Current().None? || w.turns.open then v == w
    else
      && Untouched(w, v) && v.delivered == w.delivered && v.errors == w.errors && v.closes == w.closes
      && v.pings == w.pings + 1 && v.lost == w.lost + (if event.sendOk then {} else {w.dials - 1}) && !v.clientGone
  }

  predicate Fate(initialOk: bool, w: Wire, event: Event, v: Wire) {
    if w.clientGone then v == w
    else
      match event
      case ClientReady(read, _, _, _, _) =>
        if read.LosesConnection() then LeaveFate(w, event, v)
        else if read.message.IsRequest() then RequestFate(initialOk, w, event, v)
        else ControlFate(w, event, v)
      case UpstreamReady(_, _) => ReadFate(w, event, v)
      case IdleElapsed(_) => IdleFate(w, event, v)
  }

  lemma RequestHasFate(r: Relay, event: Event)
    requires r.Consistent() && r.live && event.ClientReady? && event.read.Got? && event.read.message.IsRequest()
    ensures RequestFate(r.initialOk, r.wire, event, ClientArm(r, event).wire)
  {
    var held := r.(wire := r.wire.Receive(event.read.message));
    if !r.discard && r.stream.Some? && !r.inFlight && event.queued.Some? {
      var polled := PollQueued(held, event.queued.value, event.deliverOk);
      assert polled.wire.lost == if event.queued.value.LosesConnection() then r.wire.lost + {r.wire.dials - 1} else r.wire.lost;
    }
  }

  lemma ControlHasFate(r: Relay, event: Event)
    requires r.Consistent() && r.live && event.ClientReady? && event.read.Got?
    requires !event.read.message.IsRequest() && !event.read.message.Close?
    ensures ControlFate(r.wire, event, ClientArm(r, event).wire)
  {
  }

  lemma LeaveHasFate(r: Relay, event: Event)
    requires r.Consistent() && r.live && event.ClientReady? && event.read.LosesConnection()
    ensures LeaveFate(r.wire, event, ClientArm(r, event).wire)
  {
  }

  lemma ReadHasFate(r: Relay, event: Event)
    requires r.Consistent() && r.live && event.UpstreamReady?
    ensures ReadFate(r.wire, event, Iterate(r, event).wire)
  {
  }

  lemma IdleHasFate(r: Relay, event: Event)
    requires r.Consistent() && r.live && event.IdleElapsed?
    ensures IdleFate(r.wire, event, Iterate(r, event).wire)
  {
  }

  /** In every session the sockets alone decide what an iteration does. */
  lemma StepHasFate(initialOk: bool, schedule: seq<Event>, event: Event)
    ensures Fate(initialOk, Run(initialOk, schedule).wire, event, Run(initialOk, schedule + [event]).wire)
  {
    var r := Run(initialOk, schedule);
    SessionKeepsPromises(initialOk, schedule);
    RunStep(initialOk, schedule, event);
    if r.live {
      match event
      case ClientReady(read, _, _, _, _) =>
        if read.LosesConnection() {
          LeaveHasFate(r, event);
        } else if read.message.IsRequest() {
          RequestHasFate(r, event);
        } else {
          ControlHasFate(r, event);
        }
      case UpstreamReady(_, _) => ReadHasFate(r, event);
      case IdleElapsed(_) => IdleHasFate(r, event);
    }
  }

  /** After a failed first dial the request that it was for is discarded as soon as
      it is read: it is the first one, it is not sent, and nothing is dialled until
      there is a second. After a first dial that worked nothing is discarded. */
  lemma FirstRequestAnsweredOnce(initialOk: bool, schedule: seq<Event>)
    ensures var w := Run(initialOk, schedule).wire;
            var requests := Requests(w.received);
            && (initialOk ==> w.discarded == [])
            && (!initialOk && requests != [] ==>
                  && w.discarded == [requests[0]]
                  && exists k :: 0 <= k < |w.received| && w.received[k] == requests[0]
                                 && Requests(w.received[..k]) == [] && Subsequence(w.attempted, w.received[k + 1..]))
            && (!initialOk && |requests| < 2 ==> w.attempted == [] && w.dials == 0)
  {
    SessionKeepsPromises(initialOk, schedule);
    var w := Run(initialOk, schedule).wire;
    if !initialOk {
      if Requests(w.received) == [] {
        NothingSendable(initialOk, w.received);
      } else {
        var k := FirstRequestAt(w.received);
      }
      if |Requests(w.received)| < 2 {
        NothingAttempted(initialOk, schedule);
      }
    }
  }

  /** The first request is at `k`, and what follows it may be sent. */
  lemma {:induction false} FirstRequestAt(ms: seq<Message>) returns (k: nat)
    requires Requests(ms) != []
    ensures k < |ms| && ms[k] == Requests(ms)[0] && Requests(ms[..k]) == [] && Sendable(false, ms) == ms[k + 1..]
  {
    var n := |ms| - 1;
    if Requests(ms[..n]) == [] {
      k := n;
    } else {
      k := FirstRequestAt(ms[..n]);
      assert ms[..n][..k] == ms[..k] && ms[..n][k + 1..] + [ms[n]] == ms[k + 1..];
    }
  }

  /** Nothing is sent where nothing was dialled. */
  lemma {:induction false} NothingAttempted(initialOk: bool, schedule: seq<Event>)
    requires Run(initialOk, schedule).wire.dials == 0
    ensures Run(initialOk, schedule).wire.attempted == []
  {
    if schedule != [] {
      var earlier, event := schedule[..|schedule| - 1], schedule[|schedule| - 1];
      assert schedule == earlier + [event];
      StepHasFate(initialOk, earlier, event);
      assert Run(initialOk, earlier).wire.dials == 0 by {
        DialsGrow(initialOk, earlier, event);
      }
      NothingAttempted(initialOk, earlier);
    }
  }

  lemma DialsGrow(initialOk: bool, schedule: seq<Event>, event: Event)
    ensures Run(initialOk, schedule).wire.dials <= Run(initialOk, schedule + [event]).wire.dials
  {
    StepHasFate(initialOk, schedule, event);
  }

  /** The arm of the select that reads the client, over the loop's variables. */
  method OnClient(r: Relay, event: Event)
    returns (wire: Wire, upstreamSink: Option<nat>, upstreamStream: Option<nat>, upstreamInFlight: bool,
             discardInitialFailedRequest: bool, live: bool)
    requires event.ClientReady? && r.live && r.sink.Some? == r.stream.Some?
    ensures ClientArm(r, event) ==
            Relay(r.initialOk, upstreamSink, upstreamStream, upstreamInFlight, discardInitialFailedRequest, live, wire)
    ensures upstreamSink.Some? == upstreamStream.Some?
  {
    wire, upstreamSink, upstreamStream := r.wire, r.sink, r.stream;
    upstreamInFlight, discardInitialFailedRequest, live := r.inFlight, r.discard, true;
    if event.read.LosesConnection() {
      if upstreamSink.Some? {
        wire := wire.CloseUpstream(upstreamSink.value, event.read.Reason(), event.sendOk);
      }
      wire, live := wire.LoseClient(), false;
      return;
    }
    var sent := event.read.message;
    wire := wire.Receive(sent);
    if discardInitialFailedRequest && sent.IsRequest() {
      discardInitialFailedRequest, wire := false, wire.Discard(sent);
      return;
    }
    if upstreamSink.None? && !sent.IsRequest() {
      return;
    }
    if sent.IsRequest() && !upstreamInFlight && upstreamStream.Some? && event.queued.Some? {
      wire := wire.ReadUpstream(upstreamStream.value, event.queued.value);
      if event.queued.value.LosesConnection() {
        upstreamSink, upstreamStream := None, None;
      } else {
        wire := wire.Deliver(event.queued.value.message, event.deliverOk);
        if !event.deliverOk {
          live := false;
          return;
        }
      }
    }
    if upstreamSink.None? {
      if !event.redialOk {
        wire := wire.Report(Redial);
        return;
      }
      upstreamSink, upstreamStream, wire := Some(wire.dials), Some(wire.dials), wire.Dial();
    }
    wire := wire.Send(upstreamSink.value, sent, event.sendOk);
    if !event.sendOk {
      upstreamSink, upstreamStream := None, None;
      if sent.IsRequest() {
        wire := wire.Report(SendFailed);
      }
      upstreamInFlight := false;
      return;
    }
    if sent.IsRequest() {
      upstreamInFlight := true;
    }
  }

  /** The arm that reads the upstream. */
  method OnUpstream(r: Relay, read: Read, deliverOk: bool)
    returns (wire: Wire, upstreamSink: Option<nat>, upstreamStream: Option<nat>, upstreamInFlight: bool, live: bool)
    requires r.live && r.stream.Some? && r.sink.Some?
    ensures UpstreamArm(r, read, deliverOk) ==
            Relay(r.initialOk, upstreamSink, upstreamStream, upstreamInFlight, r.discard, live, wire)
    ensures upstreamSink.Some? == upstreamStream.Some?
  {
    upstreamSink, upstreamStream, upstreamInFlight, live := r.sink, r.stream, r.inFlight, true;
    wire := r.wire.ReadUpstream(upstreamStream.value, read);
    if read.LosesConnection() {
      upstreamSink, upstreamStream := None, None;
      if upstreamInFlight {
        wire := wire.Report(Interrupted);
        upstreamInFlight := false;
      }
      return;
    }
    wire := wire.Deliver(read.message, deliverOk);
    if !deliverOk {
      live := false;
      return;
    }
    if read.message.Finishes() {
      upstreamInFlight := false;
    }
  }

  /** The session as the loop runs it, over its variables. */
  method ProxyWebsocket(initialOk: bool, schedule: seq<Event>)
    returns (wire: Wire, upstreamSink: Option<nat>, upstreamStream: Option<nat>, upstreamInFlight: bool, live: bool)
    ensures exists discard :: Run(initialOk, schedule) ==
              Relay(initialOk, upstreamSink, upstreamStream, upstreamInFlight, discard, live, wire)
    ensures Promises(initialOk, wire)
    // Upstream trouble alone never ends the local session.
    ensures live == !wire.clientGone
    ensures upstreamSink == upstreamStream && (upstreamInFlight ==> upstreamSink.Some?)
    ensures live ==> upstreamInFlight == wire.turns.open
  {
    wire, upstreamSink, upstreamStream := Silence(), None, None;
    var discardInitialFailedRequest := !initialOk;
    if initialOk {
      upstreamSink, upstreamStream, wire := Some(wire.dials), Some(wire.dials), wire.Dial();
    } else {
      wire := wire.Report(InitialDial);
    }
    upstreamInFlight, live := false, true;
    for i := 0 to |schedule|
      invariant Run(initialOk, schedule[..i]) ==
                Relay(initialOk, upstreamSink, upstreamStream, upstreamInFlight, discardInitialFailedRequest, live, wire)
      invariant upstreamSink.Some? == upstreamStream.Some?
    {
      RunStep(initialOk, schedule[..i], schedule[i]);
      assert schedule[..i + 1] == schedule[..i] + [schedule[i]];
      if !live {
        continue;  // the loop has been left
      }
      var r := Relay(initialOk, upstreamSink, upstreamStream, upstreamInFlight, discardInitialFailedRequest, live, wire);
      match schedule[i] {
        case ClientReady(_, _, _, _, _) =>
          wire, upstreamSink, upstreamStream, upstreamInFlight, discardInitialFailedRequest, live := OnClient(r, schedule[i]);
        case UpstreamReady(read, deliverOk) =>
          if upstreamStream.Some? {
            wire, upstreamSink, upstreamStream, upstreamInFlight, live := OnUpstream(r, read, deliverOk);
          }
        case IdleElapsed(sendOk) =>
          if upstreamSink.Some? && !upstreamInFlight {
            wire := wire.PingUpstream(upstreamSink.value, sendOk);
            if !sendOk {
              upstreamSink, upstreamStream := None, None;
            }
          }
      }
    }
    assert schedule[..|schedule|] == schedule;
    SessionKeepsPromises(initialOk, schedule);
  }

  // What becomes of accepted requests.

  /** A control frame of the client fails to be sent while a turn is open: the
      turn ends with neither a terminal response nor an error. */
  predicate SilentlyEndsTurn(r: Relay, event: Event) {
    && r.live && r.inFlight
    && event.ClientReady? && !event.read.LosesConnection()
    && !event.read.message.IsRequest() && !event.sendOk
  }

  /** A request is accepted while a turn is open. */
  predicate OverlapsTurn(r: Relay, event: Event) {
    && r.live && r.inFlight
    && event.ClientReady? && !event.read.LosesConnection()
    && event.read.message.IsRequest() && event.sendOk
  }

  /** The step ends the connection. */
  predicate EndsConnection(r: Relay, event: Event) {
    && r.live && r.sink.Some?
    && match event
       case UpstreamReady(read, _) => read.LosesConnection()
       case IdleElapsed(sendOk) => !r.inFlight && !sendOk
       case ClientReady(read, queued, _, sendOk, deliverOk) =>
         !read.LosesConnection() &&
         if read.message.IsRequest() && !r.inFlight && queued.Some? then
           queued.value.LosesConnection() || (deliverOk && !sendOk)
         else !sendOk
  }

  /** How many requests wait when the connection ends, after what was read just
      before the send. */
  function WaitingAtEnd(r: Relay, event: Event): nat {
    if event.ClientReady? && !event.read.LosesConnection() && event.read.message.IsRequest() && !r.inFlight
       && event.queued.Some? && !event.queued.value.LosesConnection() && event.queued.value.message.Finishes()
    then r.wire.replies.Answer().waiting
    else r.wire.replies.waiting
  }

  /** The step abandons a request without an error event of its own: only the
      end of the upstream, seen by a read during a turn, is reported, and once. */
  predicate Neglects(r: Relay, event: Event) {
    && EndsConnection(r, event)
    && WaitingAtEnd(r, event) > (if event.UpstreamReady? && r.inFlight then 1 else 0)
  }

  /** Abandoned requests beyond those that an `Interrupted` error stands for. */
  function Neglected(w: Wire): int { w.replies.abandoned - w.turns.interrupted }

  /** What a step adds to the two counts. */
  predicate Counts(r: Relay, v: Relay, silent: bool, overlapped: bool) {
    && v.wire.turns.silent == r.wire.turns.silent + (if silent then 1 else 0)
    && v.wire.turns.overlapped == r.wire.turns.overlapped + (if overlapped then 1 else 0)
  }

  lemma SendCounts(r: Relay, message: Message, sendOk: bool)
    requires r.sink.Some? && r.inFlight == r.wire.turns.open
    ensures Counts(r, SendHeld(r, message, sendOk), r.inFlight && !message.IsRequest() && !sendOk,
                   r.inFlight && message.IsRequest() && sendOk)
    ensures Neglected(SendHeld(r, message, sendOk).wire)
            == Neglected(r.wire) + (if sendOk then 0 else r.wire.replies.waiting)
  {
  }

  /** What the proof of the counts needs of the loop's variables. */
  predicate Wired(r: Relay) {
    && r.live && r.sink == r.stream && (r.inFlight ==> r.sink.Some? && r.wire.replies.waiting > 0)
    && r.inFlight == r.wire.turns.open && (r.sink.None? ==> r.wire.replies.waiting == 0)
  }

  lemma PollCounts(r: Relay, queued: Read, deliverOk: bool)
    requires Wired(r) && r.stream.Some? && !r.inFlight
    ensures var v := PollQueued(r, queued, deliverOk);
            && Counts(r, v, false, false) && (v.live ==> Wired(v)) && !v.inFlight
            && (if queued.LosesConnection() then
                  v.wire.replies.waiting == 0 && Neglected(v.wire) == Neglected(r.wire) + r.wire.replies.waiting
                else
                  && Neglected(v.wire) == Neglected(r.wire)
                  && v.wire.replies == if queued.message.Finishes() then r.wire.replies.Answer() else r.wire.replies)
  {
  }

  /** The frame that is forwarded, when nothing is read just before. */
  lemma ForwardCounts(r: Relay, message: Message, event: Event)
    requires event.ClientReady? && Wired(r) && (r.sink.None? ==> message.IsRequest())
    requires !(message.IsRequest() && !r.inFlight && r.stream.Some? && event.queued.Some?)
    ensures var v := ForwardHeld(r, message, event);
            && Counts(r, v, r.inFlight && !message.IsRequest() && !event.sendOk,
                      r.inFlight && message.IsRequest() && event.sendOk)
            && Neglected(v.wire) == Neglected(r.wire) + (if event.sendOk then 0 else r.wire.replies.waiting)
  {
    if r.sink.Some? {
      SendCounts(r, message, event.sendOk);
    } else if event.redialOk {
      SendCounts(r.Connected(), message, event.sendOk);
    }
  }

  lemma PolledForwardCounts(r: Relay, message: Message, event: Event)
    requires event.ClientReady? && Wired(r) && message.IsRequest() && !r.inFlight && r.stream.Some? && event.queued.Some?
    ensures var v := ForwardHeld(r, message, event);
            var lost := event.queued.value.LosesConnection();
            var waiting := if !lost && event.queued.value.message.Finishes() then r.wire.replies.Answer().waiting
                           else r.wire.replies.waiting;
            && Counts(r, v, false, false)
            && Neglected(v.wire) == Neglected(r.wire) + (if lost || (event.deliverOk && !event.sendOk) then waiting else 0)
  {
    var polled := PollQueued(r, event.queued.value, event.deliverOk);
    PollCounts(r, event.queued.value, event.deliverOk);
    if polled.live && polled.sink.Some? {
      SendCounts(polled, message, event.sendOk);
    } else if polled.live && event.redialOk {
      SendCounts(polled.Connected(), message, event.sendOk);
    }
  }

  /** What one step adds to what the theorems below count. */
  predicate StepCounted(r: Relay, event: Event, v: Relay) {
    && Counts(r, v, SilentlyEndsTurn(r, event), OverlapsTurn(r, event))
    && (if Neglects(r, event) then Neglected(v.wire) > Neglected(r.wire) else Neglected(v.wire) == Neglected(r.wire))
  }

  lemma ClientStepCounts(r: Relay, event: Event)
    requires Wired(r) && event.ClientReady? && (r.discard ==> r.sink.None?)
    ensures StepCounted(r, event, ClientArm(r, event))
  {
    if !event.read.LosesConnection() {
      var message := event.read.message;
      var held := r.(wire := r.wire.Receive(message));
      if r.discard && message.IsRequest() {
      } else if r.sink.Some? || message.IsRequest() {
        if message.IsRequest() && !r.inFlight && r.stream.Some? && event.queued.Some? {
          PolledForwardCounts(held, message, event);
        } else {
          ForwardCounts(held, message, event);
        }
      }
    }
  }

  lemma UpstreamStepCounts(r: Relay, event: Event)
    requires Wired(r) && event.UpstreamReady? && r.stream.Some?
    ensures StepCounted(r, event, UpstreamArm(r, event.read, event.deliverOk))
  {
  }

  lemma StepCounts(r: Relay, event: Event)
    requires r.Consistent()
    ensures StepCounted(r, event, Iterate(r, event))
  {
    if r.live {
      assert Wired(r) && (r.discard ==> r.sink.None?);
      if event.ClientReady? {
        ClientStepCounts(r, event);
      } else if event.UpstreamReady? && r.stream.Some? {
        UpstreamStepCounts(r, event);
      }
    }
  }

  predicate SilentAt(initialOk: bool, schedule: seq<Event>, k: nat)
    requires k < |schedule|
  {
    SilentlyEndsTurn(Run(initialOk, schedule[..k]), schedule[k])
  }

  predicate OverlapAt(initialOk: bool, schedule: seq<Event>, k: nat)
    requires k < |schedule|
  {
    OverlapsTurn(Run(initialOk, schedule[..k]), schedule[k])
  }

  predicate NeglectAt(initialOk: bool, schedule: seq<Event>, k: nat)
    requires k < |schedule|
  {
    Neglects(Run(initialOk, schedule[..k]), schedule[k])
  }

  predicate SomeSilent(initialOk: bool, schedule: seq<Event>) {
    exists k :: 0 <= k < |schedule| && SilentAt(initialOk, schedule, k)
  }

  predicate SomeOverlap(initialOk: bool, schedule: seq<Event>) {
    exists k :: 0 <= k < |schedule| && OverlapAt(initialOk, schedule, k)
  }

  predicate SomeNeglect(initialOk: bool, schedule: seq<Event>) {
    exists k :: 0 <= k < |schedule| && NeglectAt(initialOk, schedule, k)
  }

  lemma SomeSnoc(initialOk: bool, schedule: seq<Event>, event: Event)
    ensures var r := Run(initialOk, schedule);
            var longer := schedule + [event];
            && Run(initialOk, longer) == Iterate(r, event)
            && (SomeSilent(initialOk, longer) <==> SomeSilent(initialOk, schedule) || SilentlyEndsTurn(r, event))
            && (SomeOverlap(initialOk, longer) <==> SomeOverlap(initialOk, schedule) || OverlapsTurn(r, event))
            && (SomeNeglect(initialOk, longer) <==> SomeNeglect(initialOk, schedule) || Neglects(r, event))
  {
    var longer, n := schedule + [event], |schedule|;
    assert longer[..n] == schedule && longer[n] == event;
    forall k | 0 <= k < n
      ensures SilentAt(initialOk, longer, k) == SilentAt(initialOk, schedule, k)
      ensures OverlapAt(initialOk, longer, k) == OverlapAt(initialOk, schedule, k)
      ensures NeglectAt(initialOk, longer, k) == NeglectAt(initialOk, schedule, k)
    {
      assert longer[..k] == schedule[..k];
    }
    assert SilentAt(initialOk, longer, n) == SilentlyEndsTurn(Run(initialOk, schedule), event);
    assert OverlapAt(initialOk, longer, n) == OverlapsTurn(Run(initialOk, schedule), event);
    assert NeglectAt(initialOk, longer, n) == Neglects(Run(initialOk, schedule), event);
  }

  lemma RunCounts(initialOk: bool, schedule: seq<Event>, event: Event)
    ensures StepCounted(Run(initialOk, schedule), event, Iterate(Run(initialOk, schedule), event))
  {
    SessionKeepsPromises(initialOk, schedule);
    StepCounts(Run(initialOk, schedule), event);
  }

  /** The three counts are zero exactly when their causes have not occurred. */
  predicate CountsTellOf(w: Wire, silent: bool, overlap: bool, neglect: bool) {
    && (w.turns.silent == 0 <==> !silent)
    && (w.turns.overlapped == 0 <==> !overlap)
    && Neglected(w) >= 0 && (Neglected(w) == 0 <==> !neglect)
  }

  lemma CountsTellStep(r: Relay, event: Event, v: Relay, silent: bool, overlap: bool, neglect: bool)
    requires StepCounted(r, event, v) && CountsTellOf(r.wire, silent, overlap, neglect)
    ensures CountsTellOf(v.wire, silent || SilentlyEndsTurn(r, event), overlap || OverlapsTurn(r, event),
                         neglect || Neglects(r, event))
  {
  }

  lemma {:induction false} CountsTell(initialOk: bool, schedule: seq<Event>)
    ensures CountsTellOf(Run(initialOk, schedule).wire, SomeSilent(initialOk, schedule),
                         SomeOverlap(initialOk, schedule), SomeNeglect(initialOk, schedule))
  {
    if schedule == [] {
      assert Run(initialOk, schedule) == Start(initialOk);
    } else {
      var earlier, event := schedule[..|schedule| - 1], schedule[|schedule| - 1];
      assert schedule == earlier + [event];
      CountsTell(initialOk, earlier);
      RunCounts(initialOk, earlier, event);
      CountsTellStep(Run(initialOk, earlier), event, Run(initialOk, schedule), SomeSilent(initialOk, earlier),
                     SomeOverlap(initialOk, earlier), SomeNeglect(initialOk, earlier));
      SomeSnoc(initialOk, earlier, event);
    }
  }

  /** Over a whole session: the requests that upstreams accepted are the turns
      completed, interrupted with an error event, ended by a failed request with
      its error event, or still open, if and only if no control frame failed to be
      sent during a turn and no request was accepted during one. */
  lemma TurnsAccountedFor(initialOk: bool, schedule: seq<Event>)
    ensures var w := Run(initialOk, schedule).wire;
            w.replies.accepted == w.turns.completed + CountOf(Interrupted, w.errors) + w.turns.sendFailed
                                  + (if w.turns.open then 1 else 0)
            <==>
            !SomeSilent(initialOk, schedule) && !SomeOverlap(initialOk, schedule)
  {
    CountsTell(initialOk, schedule);
    SessionKeepsPromises(initialOk, schedule);
  }

  /** Request by request: each accepted request was answered, is waiting, or has
      an `Interrupted` error event of its own, if and only if no connection ended
      while requests waited on it, but for a single one whose turn was open and
      whose end was seen by a read. */
  lemma RequestsAccountedFor(initialOk: bool, schedule: seq<Event>)
    ensures var w := Run(initialOk, schedule).wire;
            w.replies.accepted == w.replies.answered + w.replies.waiting + CountOf(Interrupted, w.errors)
            <==>
            !SomeNeglect(initialOk, schedule)
  {
    CountsTell(initialOk, schedule);
    SessionKeepsPromises(initialOk, schedule);
  }

  function Asked(body: Bytes): Event { ClientReady(Got(Text(body, None)), None, true, true, true) }

  lemma FreshWire()
    ensures var w := Run(true, []).wire; w.Current() == Some(0) && w.errors == [] && !w.clientGone && !w.turns.open
  {
  }

  /** Text and binary frames are requests, and no other frame: a first frame that
      cannot be sent is reported exactly when it is one of them. */
  lemma RequestsAreTextOrBinary(m: Message)
    requires !m.Close?
    ensures Run(true, [ClientReady(Got(m), None, true, false, true)]).wire.errors
            == if m.Text? || m.Binary? then [SendFailed] else []
  {
    var event := ClientReady(Got(m), None, true, false, true);
    StepHasFate(true, [], event);
    assert [] + [event] == [event];
    FreshWire();
  }

  /** A turn is over after a completed or failed response, and after no other
      frame: the end of the upstream is reported exactly when it is not. */
  lemma CompletedOrFailedEndsTurn(body: Bytes, reply: Message)
    requires !reply.Close?
    ensures Run(true, [Asked(body)] + [UpstreamReady(Got(reply), true)] + [UpstreamReady(Ended, true)]).wire.errors
            == if reply.Text? && (reply.eventType == Some("response.completed") || reply.eventType == Some("response.failed"))
               then [] else [Interrupted]
  {
    RunStep(true, [], Asked(body));
    assert [] + [Asked(body)] == [Asked(body)];
    var r := Run(true, [Asked(body)]);
    assert r.inFlight && r.live && r.stream == Some(0) && r.wire.errors == [];
    RunStep(true, [Asked(body)], UpstreamReady(Got(reply), true));
    RunStep(true, [Asked(body)] + [UpstreamReady(Got(reply), true)], UpstreamReady(Ended, true));
  }

  /** A session in which a control frame ends a turn: the request is accepted, the
      client's next ping is not, and the client is told nothing. */
  lemma SilentLossHappens(body: Bytes)
    ensures var r := Run(true, [Asked(body), ClientReady(Got(Ping(body)), None, true, false, true)]);
            && r.live && r.wire.replies == Replies(1, 0, 0, 1)
            && !r.inFlight && r.wire.errors == [] && r.wire.delivered == []
  {
    var ping := ClientReady(Got(Ping(body)), None, true, false, true);
    RunStep(true, [], Asked(body));
    RunStep(true, [Asked(body)], ping);
    assert [Asked(body), ping] == [Asked(body)] + [ping] && [Asked(body)] == [] + [Asked(body)];
  }

  lemma TwoAsked(first: Bytes, second: Bytes)
    ensures var r := Run(true, [Asked(first), Asked(second)]);
            && r.live && r.inFlight && r.stream.Some? && r.wire.turns.open && r.wire.errors == [] && r.wire.delivered == []
            && r.wire.attempted == [Text(first, None), Text(second, None)] && r.wire.replies == Replies(2, 0, 2, 0)
  {
    var a, b := Asked(first), Asked(second);
    RunStep(true, [], a);
    assert [] + [a] == [a] && [a] + [b] == [a, b];
    var r1 := Run(true, [a]);
    assert r1.live && r1.inFlight && r1.sink == r1.stream == Some(0) && !r1.discard && r1.wire.turns.open;
    assert r1.wire.attempted == [Text(first, None)] && r1.wire.replies == Replies(1, 0, 1, 0);
    RunStep(true, [a], b);
  }

  lemma FirstAnsweredThenEnd(r: Relay, done: Message)
    requires r.live && r.inFlight && r.stream.Some? && r.wire.replies == Replies(2, 0, 2, 0) && done.Finishes()
    ensures var v := Iterate(Iterate(r, UpstreamReady(Got(done), true)), UpstreamReady(Ended, true));
            && v.live && v.wire.replies == Replies(2, 1, 0, 1) && v.wire.errors == r.wire.errors
            && v.wire.delivered == r.wire.delivered + [done] && v.wire.attempted == r.wire.attempted
  {
    var u := Iterate(r, UpstreamReady(Got(done), true));
    assert !u.inFlight && u.live && u.stream == r.stream && u.wire.replies == Replies(2, 1, 1, 0);
  }

  /** A session in which two requests are accepted before the first response. That
      response ends the turn, and when the upstream then ends, the second request
      is lost and the client is told nothing. */
  lemma OverlapLossHappens(first: Bytes, second: Bytes)
    ensures var done := Text(first, Some("response.completed"));
            var r := Run(true, [Asked(first), Asked(second)] + [UpstreamReady(Got(done), true)] + [UpstreamReady(Ended, true)]);
            && r.live && r.wire.attempted == [Text(first, None), Text(second, None)]
            && r.wire.replies == Replies(2, 1, 0, 1) && r.wire.errors == [] && r.wire.delivered == [done]
  {
    var done := Text(first, Some("response.completed"));
    var asked := [Asked(first), Asked(second)];
    TwoAsked(first, second);
    FirstAnsweredThenEnd(Run(true, asked), done);
    RunStep(true, asked, UpstreamReady(Got(done), true));
    RunStep(true, asked + [UpstreamReady(Got(done), true)], UpstreamReady(Ended, true));
  }
}
