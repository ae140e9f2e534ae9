/** Refreshing the credential file shared by any number of processes. */
module CredentialRefresh {
  import opened Text
  import opened Wrappers

  datatype Stored = Stored(access: string, refresh: Option<string>, expiresAt: Option<int>, issuer: string, client: string)

  /** The answer of the token endpoint. */
  datatype Token = Token(access: string, refresh: Option<string>, expiresIn: Option<int>)

  // 64-bit arithmetic as release builds do it.

  const TWO_63 := 0x8000_0000_0000_0000
  const TWO_64 := 0x1_0000_0000_0000_0000

  /** The signed 64-bit value with the same low 64 bits. */
  function Wrapped(n: int): (r: int)
    ensures -TWO_63 <= r < TWO_63 && (r - n) % TWO_64 == 0
  {
    (n + TWO_63) % TWO_64 - TWO_63
  }

  const MARGIN := 60

  predicate IsExpired(c: Stored, now: int) { c.expiresAt.None? || now >= Wrapped(c.expiresAt.value - MARGIN) }

  datatype RefreshError = EmptyAccessToken | NoUsableExpiration | NoRefreshToken | RequestFailed

  function Refreshed(existing: Stored, token: Token, now: int): Result<Stored, RefreshError> {
    if Blank(token.access) then Err(EmptyAccessToken)
    else if token.expiresIn.None? || token.expiresIn.value <= MARGIN then Err(NoUsableExpiration)
    else
      Ok(Stored(token.access, if token.refresh.Some? then token.refresh else existing.refresh,
                Some(Wrapped(now + Wrapped(token.expiresIn.value))), existing.issuer, existing.client))
  }

  /** Refreshed credentials are usable at once exactly when the lifetime the
      server names does not overflow the expiration time. */
  lemma UsableUnlessOverflow(existing: Stored, token: Token, now: int)
    requires MARGIN <= now < TWO_63 && token.expiresIn.Some? && MARGIN < token.expiresIn.value < TWO_64 && !Blank(token.access)
    ensures Refreshed(existing, token, now).Ok?
    ensures !IsExpired(Refreshed(existing, token, now).value, now) <==> now + token.expiresIn.value < TWO_63 + MARGIN
  {
  }

  /** Without overflow, credentials count as expired from a minute before their
      time on. */
  lemma ExpiredIff(c: Stored, now: int)
    requires c.expiresAt.Some? ==> -0x8000_0000_0000_0000 <= c.expiresAt.value - 60 < 0x8000_0000_0000_0000
    ensures IsExpired(c, now) <==> c.expiresAt.None? || now + 60 >= c.expiresAt.value
  {
  }

  /** An answer is usable exactly when it names a token and a lifetime of more than
      a minute. What it says replaces what was stored; what it leaves out, and who
      issued the credentials to whom, stays. */
  lemma RefreshedIs(existing: Stored, token: Token, now: int)
    requires 0 <= now && (token.expiresIn.Some? ==> 0 <= token.expiresIn.value && now + token.expiresIn.value < 0x8000_0000_0000_0000)
    ensures var r := Refreshed(existing, token, now);
            if (forall i :: 0 <= i < |token.access| ==> White(token.access[i])) then r == Err(EmptyAccessToken)
            else if token.expiresIn.None? || token.expiresIn.value <= 60 then r == Err(NoUsableExpiration)
            else
              r.Ok? && r.value.access == token.access && r.value.expiresAt == Some(now + token.expiresIn.value)
              && r.value.refresh == (if token.refresh.None? then existing.refresh else token.refresh)
              && r.value.issuer == existing.issuer && r.value.client == existing.client
  {
  }

  datatype Reason = Expired | Rejected(access: string)

  /** Whether the caller still needs a refresh of the credentials it read. */
  predicate Needed(c: Stored, reason: Reason, now: int) {
    IsExpired(c, now) || (reason.Rejected? && c.access == reason.access)
  }

  /** What became of the request to the token endpoint, and when. */
  datatype Reply = Unsent | Failed | Granted(token: Token, at: int)

  // One process alone.

  function AfterRefresh(file: Stored, reason: Reason, now: int, reply: Reply): (Stored, Result<Stored, RefreshError>) {
    if !Needed(file, reason, now) then (file, Ok(file))
    else if file.refresh.None? then (file, Err(NoRefreshToken))
    else if !reply.Granted? then (file, Err(RequestFailed))
    else
      var r := Refreshed(file, reply.token, reply.at);
      (if r.Ok? then r.value else file, r)
  }

  class CredentialFile {
    var stored: Stored

    constructor (saved: Stored)
      ensures stored == saved
    {
      stored := saved;
    }

    /** The section under the lock. `sent` is the refresh token it redeems. */
    method RefreshLocked(reason: Reason, now: int, reply: Reply) returns (result: Result<Stored, RefreshError>, sent: Option<string>)
      modifies this
      ensures (stored, result) == AfterRefresh(old(stored), reason, now, reply)
      // Credentials that are still good are handed out as they are, and nothing
      // is sent.
      ensures var good := !IsExpired(old(stored), now) && reason != Rejected(old(stored).access);
              && (good ==> result == Ok(old(stored)) && sent.None? && stored == old(stored))
              && (sent.Some? <==> !good && old(stored).refresh.Some? && !reply.Unsent?)
              && (sent.Some? ==> sent == old(stored).refresh)
      // Otherwise success means that an answer was saved, and failure changes
      // nothing.
      ensures result.Ok? ==> stored == result.value
      ensures result.Ok? && sent.Some? ==>
                reply.Granted? && stored.access == reply.token.access && !Blank(stored.access)
      ensures result.Ok? <==> (sent.None? && !IsExpired(old(stored), now) && reason != Rejected(old(stored).access))
                              || (sent.Some? && reply.Granted? && Refreshed(old(stored), reply.token, reply.at).Ok?)
      ensures result.Err? ==> stored == old(stored) && (result.error == NoRefreshToken <==> old(stored).refresh.None?)
    {
      var current := stored;
      if !Needed(current, reason, now) {
        return Ok(current), None;
      }
      if current.refresh.None? {
        return Err(NoRefreshToken), None;
      }
      if reply.Unsent? {
        return Err(RequestFailed), None;
      }
      sent := current.refresh;
      if reply.Failed? {
        return Err(RequestFailed), sent;
      }
      result := Refreshed(current, reply.token, reply.at);
      if result.Ok? {
        stored := result.value;
      }
    }
  }

  // Any number of processes.

  datatype Process =
    | Idle
    | Waiting(reason: Reason)                                     // needs a refresh, wants the lock
    | Locked(reason: Reason)                                      // has the lock, has not read again
    | Redeeming(reason: Reason, current: Stored, decided: int)    // has sent the refresh token
    | Saving(reason: Reason, current: Stored, decided: int, token: Token, refreshed: Stored)

  datatype Event =
    | Sent(current: Stored)
    | Saved(reason: Reason, before: Stored, decided: int, token: Token, after: Stored)
    | Returned(reason: Reason, result: Stored, at: int, redeemed: bool)

  /** `seen` holds every token that was stored, returned by the server, or
      named by a caller. */
  datatype World = World(
    file: Stored, lock: Option<nat>, processes: map<nat, Process>, now: int, seen: set<string>, history: seq<Event>)

  datatype Step =
    | Begin(p: nat, reason: Reason)
    | Acquire(p: nat)
    | Reread(p: nat, reachable: bool)
    | Answer(p: nat, reply: Option<Token>)
    | Save(p: nat)
    | Die(p: nat)
    | Tick

  function At(w: World, p: nat): Process { if p in w.processes then w.processes[p] else Idle }

  function Put(w: World, p: nat, s: Process): World { w.(processes := w.processes[p := s]) }

  function Release(w: World, p: nat): World {
    w.(processes := w.processes[p := Idle], lock := if w.lock == Some(p) then None else w.lock)
  }

  function Log(w: World, e: Event): World { w.(history := w.history + [e]) }

  function Tokens(access: string, refresh: Option<string>): set<string> {
    {access} + if refresh.Some? then {refresh.value} else {}
  }

  /** The server issues new access tokens, and a refresh token that it returns
      is new or the one it was sent. */
  predicate Issuable(w: World, current: Stored, token: Token) {
    && token.access !in w.seen
    && (token.refresh.Some? ==> token.refresh == current.refresh || (token.refresh.value !in w.seen && token.refresh.value != token.access))
  }

  function Next(w: World, step: Step): World {
    match step
    case Begin(p, reason) =>
      if At(w, p) != Idle then w
      else
        var v := if reason.Rejected? then w.(seen := w.seen + {reason.access}) else w;
        if Needed(w.file, reason, w.now) then Put(v, p, Waiting(reason)) else Log(v, Returned(reason, w.file, w.now, false))
    case Acquire(p) =>
      if At(w, p).Waiting? && w.lock.None? then Put(w, p, Locked(At(w, p).reason)).(lock := Some(p)) else w
    case Reread(p, reachable) =>
      if !At(w, p).Locked? then w
      else
        var reason := At(w, p).reason;
        if !Needed(w.file, reason, w.now) then Log(Release(w, p), Returned(reason, w.file, w.now, false))
        else if w.file.refresh.None? || !reachable then Release(w, p)
        else Log(Put(w, p, Redeeming(reason, w.file, w.now)), Sent(w.file))
    case Answer(p, reply) =>
      if !At(w, p).Redeeming? then w
      else if reply.None? then Release(w, p)
      else
        var s := At(w, p);
        if !Issuable(w, s.current, reply.value) then w
        else
          var v := w.(seen := w.seen + Tokens(reply.value.access, reply.value.refresh));
          var r := Refreshed(s.current, reply.value, w.now);
          if r.Ok? then Put(v, p, Saving(s.reason, s.current, s.decided, reply.value, r.value)) else Release(v, p)
    case Save(p) =>
      if !At(w, p).Saving? then w
      else
        var s := At(w, p);
        var saved := Log(w.(file := s.refreshed), Saved(s.reason, s.current, s.decided, s.token, s.refreshed));
        Log(Release(saved, p), Returned(s.reason, s.refreshed, w.now, true))
    case Die(p) => Release(w, p)
    case Tick => w.(now := w.now + 1)
  }

  function Run(w: World, steps: seq<Step>): World
    decreases |steps|
  {
    if steps == [] then w else Run(Next(w, steps[0]), steps[1..])
  }

  function Start(file: Stored, now: int): World { World(file, None, map[], now, Tokens(file.access, file.refresh), []) }

  // What the history says.

  /** The entry replaced its refresh token. */
  predicate Retires(e: Event) { e.Saved? && e.after.refresh != e.before.refresh }

  /** The credentials in the file after the history. */
  function Latest(initial: Stored, history: seq<Event>): Stored {
    if history == [] then initial
    else if history[|history| - 1].Saved? then history[|history| - 1].after
    else Latest(initial, history[..|history| - 1])
  }

  /** No refresh in the history replaced the access token or the refresh token
      of the credentials. */
  predicate Unreplaced(history: seq<Event>, c: Stored) {
    forall i :: 0 <= i < |history| && history[i].Saved? ==>
                  c.access != history[i].before.access && (Retires(history[i]) ==> c.refresh != history[i].before.refresh)
  }

  /** The refresh was needed by its caller when it was decided, and it kept what
      it must keep. */
  predicate SavedOk(e: Event)
    requires e.Saved?
  {
    && Needed(e.before, e.reason, e.decided)
    && e.before.refresh.Some? && !Blank(e.after.access)
    && e.after.access == e.token.access
    && e.after.refresh == (if e.token.refresh.Some? then e.token.refresh else e.before.refresh)
    && e.after.issuer == e.before.issuer && e.after.client == e.before.client
  }

  predicate EntryOk(initial: Stored, earlier: seq<Event>, e: Event) {
    match e
    case Sent(current) => current == Latest(initial, earlier) && current.refresh.Some? && Unreplaced(earlier, current)
    case Saved(_, before, _, _, after) =>
      before == Latest(initial, earlier) && SavedOk(e) && Unreplaced(earlier, before) && after.access != before.access
    case Returned(reason, result, at, redeemed) =>
      if redeemed then reason.Rejected? ==> result.access != reason.access else !Needed(result, reason, at)
  }

  predicate HistoryOk(initial: Stored, history: seq<Event>) {
    history != [] ==>
      var earlier := history[..|history| - 1];
      HistoryOk(initial, earlier) && EntryOk(initial, earlier, history[|history| - 1])
  }

  // Invariants.

  predicate Seen(c: Stored, seen: set<string>) { Tokens(c.access, c.refresh) <= seen }

  predicate AllSeen(history: seq<Event>, seen: set<string>) {
    forall i :: 0 <= i < |history| && history[i].Saved? ==> Seen(history[i].before, seen)
  }

  predicate Holds(s: Process) { s.Locked? || s.Redeeming? || s.Saving? }

  predicate ProcessOk(w: World, p: nat) {
    var s := At(w, p);
    && (Holds(s) <==> w.lock == Some(p))
    && (s.Redeeming? ==> s.current == w.file && s.current.refresh.Some? && Needed(s.current, s.reason, s.decided))
    && (s.Saving? ==>
          && s.current == w.file && SavedOk(Saved(s.reason, s.current, s.decided, s.token, s.refreshed))
          && Seen(s.refreshed, w.seen)
          && s.refreshed.access != w.file.access && Unreplaced(w.history, s.refreshed)
          && (s.reason.Rejected? ==> s.refreshed.access != s.reason.access))
    && (s != Idle && s.reason.Rejected? ==> s.reason.access in w.seen)
  }

  ghost predicate Inv(w: World, initial: Stored) {
    && (forall p :: ProcessOk(w, p))
    && Seen(w.file, w.seen) && AllSeen(w.history, w.seen)
    && Unreplaced(w.history, w.file) && w.file == Latest(initial, w.history) && HistoryOk(initial, w.history)
  }

  lemma Appended(initial: Stored, history: seq<Event>, e: Event)
    ensures Latest(initial, history + [e]) == if e.Saved? then e.after else Latest(initial, history)
    ensures HistoryOk(initial, history + [e]) <==> HistoryOk(initial, history) && EntryOk(initial, history, e)
  {
    assert (history + [e])[..|history|] == history;
  }

  lemma AppendedUnreplaced(history: seq<Event>, e: Event, c: Stored)
    ensures Unreplaced(history + [e], c) <==>
            Unreplaced(history, c)
            && (e.Saved? ==> c.access != e.before.access && (Retires(e) ==> c.refresh != e.before.refresh))
  {
    var h := history + [e];
    assert h[|history|] == e;
    assert forall i :: 0 <= i < |history| ==> h[i] == history[i];
  }

  /** A step that adds no refresh to the history and keeps the file. */
  lemma QuietKeepsInv(w: World, step: Step, initial: Stored)
    requires Inv(w, initial) && (step.Acquire? || step.Tick? || step.Die?)
    ensures Inv(Next(w, step), initial)
  {
    var v := Next(w, step);
    forall p
      ensures ProcessOk(v, p)
    {
      assert ProcessOk(w, p);
    }
  }

  lemma BeginKeepsInv(w: World, step: Step, initial: Stored)
    requires Inv(w, initial) && step.Begin?
    ensures Inv(Next(w, step), initial)
  {
    var v := Next(w, step);
    var e := Returned(step.reason, w.file, w.now, false);
    Appended(initial, w.history, e);
    AppendedUnreplaced(w.history, e, w.file);
    forall p
      ensures ProcessOk(v, p)
    {
      assert ProcessOk(w, p);
      if At(w, p).Saving? {
        AppendedUnreplaced(w.history, e, At(w, p).refreshed);
      }
    }
  }

  lemma RereadKeepsInv(w: World, step: Step, initial: Stored)
    requires Inv(w, initial) && step.Reread?
    ensures Inv(Next(w, step), initial)
  {
    var v := Next(w, step);
    assert ProcessOk(w, step.p);
    if At(w, step.p).Locked? {
      var e := if Needed(w.file, At(w, step.p).reason, w.now) then Sent(w.file)
               else Returned(At(w, step.p).reason, w.file, w.now, false);
      Appended(initial, w.history, e);
      AppendedUnreplaced(w.history, e, w.file);
      forall p
        ensures ProcessOk(v, p)
      {
        assert ProcessOk(w, p);
      }
    }
  }

  lemma AnswerKeepsInv(w: World, step: Step, initial: Stored)
    requires Inv(w, initial) && step.Answer?
    ensures Inv(Next(w, step), initial)
  {
    var v := Next(w, step);
    forall p
      ensures ProcessOk(v, p)
    {
      assert ProcessOk(w, p);
      assert ProcessOk(w, step.p);
    }
  }

  lemma SaveKeepsInv(w: World, step: Step, initial: Stored)
    requires Inv(w, initial) && step.Save?
    ensures Inv(Next(w, step), initial)
  {
    var v := Next(w, step);
    var s := At(w, step.p);
    if s.Saving? {
      assert ProcessOk(w, step.p);
      var e := Saved(s.reason, s.current, s.decided, s.token, s.refreshed);
      var f := Returned(s.reason, s.refreshed, w.now, true);
      Appended(initial, w.history, e);
      Appended(initial, w.history + [e], f);
      AppendedUnreplaced(w.history, e, s.refreshed);
      AppendedUnreplaced(w.history + [e], f, s.refreshed);
      forall p
        ensures ProcessOk(v, p)
      {
        assert ProcessOk(w, p);
      }
    }
  }

  lemma StepKeepsInv(w: World, step: Step, initial: Stored)
    requires Inv(w, initial)
    ensures Inv(Next(w, step), initial)
  {
    match step
    case Begin(_, _) => BeginKeepsInv(w, step, initial);
    case Reread(_, _) => RereadKeepsInv(w, step, initial);
    case Answer(_, _) => AnswerKeepsInv(w, step, initial);
    case Save(_) => SaveKeepsInv(w, step, initial);
    case _ => QuietKeepsInv(w, step, initial);
  }

  lemma {:induction false} RunKeepsInv(w: World, steps: seq<Step>, initial: Stored)
    requires Inv(w, initial)
    ensures Inv(Run(w, steps), initial)
    decreases |steps|
  {
    if steps != [] {
      StepKeepsInv(w, steps[0], initial);
      RunKeepsInv(Next(w, steps[0]), steps[1..], initial);
    }
  }

  // The look before the lock.

  /** A caller for whom the file's credentials are good is given them at once, and
      any other one waits for the lock; neither touches the file or the lock. */
  lemma BeginIs(w: World, p: nat, reason: Reason)
    requires At(w, p) == Idle
    ensures var v := Next(w, Begin(p, reason));
            && v.file == w.file && v.lock == w.lock
            && (if !IsExpired(w.file, w.now) && reason != Rejected(w.file.access) then
                  At(v, p) == Idle && v.history == w.history + [Returned(reason, w.file, w.now, false)]
                else At(v, p) == Waiting(reason) && v.history == w.history)
  {
  }

  /** The lock is free for the first one that asks. */
  lemma AcquireIs(w: World, p: nat)
    requires At(w, p).Waiting?
    ensures var v := Next(w, Acquire(p));
            if w.lock.None? then v.lock == Some(p) && At(v, p) == Locked(At(w, p).reason) && v.file == w.file
                                 && v.history == w.history
            else v == w
  {
  }

  // The guarantees.

  lemma {:induction false} EntryAt(initial: Stored, history: seq<Event>, i: nat)
    requires HistoryOk(initial, history) && i < |history|
    ensures EntryOk(initial, history[..i], history[i])
  {
    if i < |history| - 1 {
      EntryAt(initial, history[..|history| - 1], i);
      assert history[..|history| - 1][..i] == history[..i];
    }
  }

  lemma HistoryAt(file: Stored, now: int, steps: seq<Step>, i: nat)
    requires i < |Run(Start(file, now), steps).history|
    ensures var history := Run(Start(file, now), steps).history; EntryOk(file, history[..i], history[i])
  {
    RunKeepsInv(Start(file, now), steps, file);
    EntryAt(file, Run(Start(file, now), steps).history, i);
  }

  /** At most one process at a time is past the lock. */
  lemma OneInside(file: Stored, now: int, steps: seq<Step>, p: nat, q: nat)
    requires var w := Run(Start(file, now), steps); Holds(At(w, p)) && Holds(At(w, q))
    ensures p == q
  {
    RunKeepsInv(Start(file, now), steps, file);
    var w := Run(Start(file, now), steps);
    assert ProcessOk(w, p) && ProcessOk(w, q);
  }

  /** After a refresh, whoever raced for it: nothing is sent again for the access
      token it replaced, and the refresh token is not sent again if the server
      replaced that too. */
  lemma ReplacedNeverSent(file: Stored, now: int, steps: seq<Step>, i: nat, j: nat)
    requires var history := Run(Start(file, now), steps).history;
             i < j < |history| && history[i].Saved? && history[j].Sent?
    ensures var history := Run(Start(file, now), steps).history;
            && history[j].current.access != history[i].before.access
            && (Retires(history[i]) ==> history[j].current.refresh != history[i].before.refresh)
  {
    HistoryAt(file, now, steps, j);
    var history := Run(Start(file, now), steps).history;
    assert history[..j][i] == history[i];
  }

  /** Each access token is refreshed at most once, however many callers saw it
      expire or rejected. */
  lemma SingleFlight(file: Stored, now: int, steps: seq<Step>, i: nat, j: nat)
    requires var history := Run(Start(file, now), steps).history;
             i < j < |history| && history[i].Saved? && history[j].Saved?
    ensures var history := Run(Start(file, now), steps).history;
            history[j].before.access != history[i].before.access
  {
    HistoryAt(file, now, steps, j);
    var history := Run(Start(file, now), steps).history;
    assert history[..j][i] == history[i];
  }

  /** Every refresh starts from the credentials of the one before, replaces an
      access token that its caller saw expired or rejected, and keeps the
      refresh token when the server sends none. */
  lemma RefreshesChain(file: Stored, now: int, steps: seq<Step>, i: nat)
    requires i < |Run(Start(file, now), steps).history| && Run(Start(file, now), steps).history[i].Saved?
    ensures var history := Run(Start(file, now), steps).history;
            && history[i].before == Latest(file, history[..i])
            && SavedOk(history[i])
            && history[i].after.access != history[i].before.access
  {
    HistoryAt(file, now, steps, i);
  }

  /** What a caller is given without a refresh needed none, and what it is given
      after one is not the access token it rejected. */
  lemma ReturnedFits(file: Stored, now: int, steps: seq<Step>, i: nat)
    requires i < |Run(Start(file, now), steps).history| && Run(Start(file, now), steps).history[i].Returned?
    ensures var e := Run(Start(file, now), steps).history[i];
            && (!e.redeemed ==> !IsExpired(e.result, e.at))
            && (e.reason.Rejected? ==> e.result.access != e.reason.access)
  {
    HistoryAt(file, now, steps, i);
  }

  /** As long as nothing replaces it, the file's refresh token stays. */
  lemma {:induction false} RefreshStays(initial: Stored, history: seq<Event>, i: nat, j: nat)
    requires HistoryOk(initial, history) && i <= j <= |history|
    requires forall k :: i <= k < j && history[k].Saved? ==> !Retires(history[k])
    ensures Latest(initial, history[..j]).refresh == Latest(initial, history[..i]).refresh
    decreases j
  {
    if i < j {
      RefreshStays(initial, history, i, j - 1);
      EntryAt(initial, history, j - 1);
      assert history[..j][..j - 1] == history[..j - 1];
    }
  }

  /** Two sends use the same refresh token exactly when no refresh replaced it in
      between. */
  lemma ResentIff(file: Stored, now: int, steps: seq<Step>, i: nat, j: nat)
    requires var history := Run(Start(file, now), steps).history;
             i < j < |history| && history[i].Sent? && history[j].Sent?
    ensures var history := Run(Start(file, now), steps).history;
            history[j].current.refresh == history[i].current.refresh
            <==>
            forall k :: i < k < j && history[k].Saved? ==> !Retires(history[k])
  {
    RunKeepsInv(Start(file, now), steps, file);
    var history := Run(Start(file, now), steps).history;
    EntryAt(file, history, i);
    EntryAt(file, history, j);
    if forall k :: i < k < j && history[k].Saved? ==> !Retires(history[k]) {
      RefreshStays(file, history, i, j);
    } else {
      var k := FirstRetired(history, i, j);
      RefreshStays(file, history, i, k);
      EntryAt(file, history, k);
      ReplacedNeverSent(file, now, steps, k, j);
    }
  }

  lemma {:induction false} FirstRetired(history: seq<Event>, i: nat, j: nat) returns (k: nat)
    requires j <= |history| && exists n :: i < n < j && history[n].Saved? && Retires(history[n])
    ensures i < k < j && history[k].Saved? && Retires(history[k])
    ensures forall n :: i < n < k && history[n].Saved? ==> !Retires(history[n])
    decreases j
  {
    if exists n :: i < n < j - 1 && history[n].Saved? && Retires(history[n]) {
      k := FirstRetired(history, i, j - 1);
    } else {
      k := j - 1;
    }
  }

  /** Credentials without an expiry, which count as expired. */
  const UNDATED := Stored("a", Some("r"), None, "i", "c")

  lemma RunOne(w: World, a: Step, rest: seq<Step>)
    ensures Run(w, [a] + rest) == Run(Next(w, a), rest)
  {
    assert ([a] + rest)[1..] == rest;
  }

  /** A caller sees the file expired, takes the lock and sends the refresh token. */
  function Sending(p: nat, rest: seq<Step>): seq<Step> {
    [Begin(p, Expired)] + ([Acquire(p)] + ([Reread(p, true)] + rest))
  }

  /** The answer comes, and the process dies before it saves. */
  function Dying(p: nat, token: Token, rest: seq<Step>): seq<Step> { [Answer(p, Some(token))] + ([Die(p)] + rest) }

  lemma SendsTheFile(w: World, p: nat, rest: seq<Step>) returns (v: World)
    requires At(w, p) == Idle && w.lock == None && w.file.refresh.Some? && IsExpired(w.file, w.now)
    ensures && v == w.(processes := v.processes, lock := Some(p), history := w.history + [Sent(w.file)])
            && v.processes == w.processes[p := Redeeming(Expired, w.file, w.now)]
            && Run(w, Sending(p, rest)) == Run(v, rest)
  {
    var w1 := Next(w, Begin(p, Expired));
    assert w1 == Put(w, p, Waiting(Expired));
    var w2 := Next(w1, Acquire(p));
    assert w2 == Put(w1, p, Locked(Expired)).(lock := Some(p));
    RunOne(w, Begin(p, Expired), [Acquire(p)] + ([Reread(p, true)] + rest));
    RunOne(w1, Acquire(p), [Reread(p, true)] + rest);
    v := Next(w2, Reread(p, true));
    RunOne(w2, Reread(p, true), rest);
  }

  lemma DiesBeforeSaving(w: World, p: nat, token: Token, rest: seq<Step>) returns (v: World)
    requires At(w, p).Redeeming? && w.lock == Some(p)
    ensures && v.file == w.file && v.lock == None && v.now == w.now && v.history == w.history
            && (forall q :: q != p ==> At(v, q) == At(w, q))
            && Run(w, Dying(p, token, rest)) == Run(v, rest)
  {
    var w1 := Next(w, Answer(p, Some(token)));
    RunOne(w, Answer(p, Some(token)), [Die(p)] + rest);
    v := Next(w1, Die(p));
    RunOne(w1, Die(p), rest);
  }

  /** A run in which a process dies after its refresh token was redeemed and
      before it saved: the old token is still in the file, and the next process
      sends it again. */
  lemma LostSaveResends(now: int, token: Token)
    ensures Run(Start(UNDATED, now), Sending(0, Dying(0, token, Sending(1, [])))).history == [Sent(UNDATED), Sent(UNDATED)]
  {
    var w0 := Start(UNDATED, now);
    var w3 := SendsTheFile(w0, 0, Dying(0, token, Sending(1, [])));
    var w5 := DiesBeforeSaving(w3, 0, token, Sending(1, []));
    var w8 := SendsTheFile(w5, 1, []);
  }

  /** A refresh whose server names a lifetime that a signed 64-bit number cannot
      hold is accepted, saved, and expired at once. */
  lemma HugeLifetimeIsExpired()
    ensures var token := Token("b", None, Some(0x8000_0000_0000_0000));
            var r := Refreshed(UNDATED, token, 1_700_000_000);
            r.Ok? && IsExpired(r.value, 1_700_000_000)
  {
    assert !White("b"[0]);
    UsableUnlessOverflow(UNDATED, Token("b", None, Some(0x8000_0000_0000_0000)), 1_700_000_000);
  }

  // The section under the lock, undisturbed, is the method above.

  function Section(p: nat, reply: Reply): seq<Step> {
    match reply
    case Unsent => [Reread(p, false)]
    case Failed => [Reread(p, true), Answer(p, None)]
    case Granted(token, _) => [Reread(p, true), Answer(p, Some(token)), Save(p)]
  }

  /** What the section leaves, when nobody else acts. */
  ghost predicate SectionDone(w: World, p: nat, v: World, outcome: (Stored, Result<Stored, RefreshError>)) {
    && v.file == outcome.0 && v.lock == None && At(v, p) == Idle
    && (outcome.1.Ok? ==>
          v.history != [] && v.history[|v.history| - 1].Returned? && v.history[|v.history| - 1].result == outcome.1.value)
  }

  lemma UnneededSection(w: World, p: nat, reply: Reply)
    requires At(w, p).Locked? && w.lock == Some(p)
    requires reply.Unsent? || !Needed(w.file, At(w, p).reason, w.now) || w.file.refresh.None?
    ensures var v := Next(w, Section(p, reply)[0]);
            && SectionDone(w, p, v, AfterRefresh(w.file, At(w, p).reason, w.now, reply))
            && (forall r :: Next(v, Answer(p, r)) == v) && Next(v, Save(p)) == v
  {
  }

  lemma SentSection(w: World, p: nat, reply: Reply)
    requires At(w, p).Locked? && w.lock == Some(p) && !reply.Unsent?
    requires Needed(w.file, At(w, p).reason, w.now) && w.file.refresh.Some?
    requires reply.Granted? ==> reply.at == w.now && Issuable(w, w.file, reply.token)
    ensures var v := Next(Next(w, Reread(p, true)), Answer(p, if reply.Granted? then Some(reply.token) else None));
            if reply.Failed? || Refreshed(w.file, reply.token, w.now).Err? then
              SectionDone(w, p, v, AfterRefresh(w.file, At(w, p).reason, w.now, reply)) && Next(v, Save(p)) == v
            else SectionDone(w, p, Next(v, Save(p)), AfterRefresh(w.file, At(w, p).reason, w.now, reply))
  {
    var w1 := Next(w, Reread(p, true));
    assert At(w1, p) == Redeeming(At(w, p).reason, w.file, w.now) && w1.lock == Some(p);
  }

  /** Undisturbed, the steps of one process under the lock do to the file what
      `RefreshLocked` does, and release the lock. */
  lemma SectionIsRefreshLocked(w: World, p: nat, reply: Reply)
    requires At(w, p).Locked? && w.lock == Some(p)
    requires reply.Granted? ==> reply.at == w.now && Issuable(w, w.file, reply.token)
    ensures SectionDone(w, p, Run(w, Section(p, reply)), AfterRefresh(w.file, At(w, p).reason, w.now, reply))
  {
    var steps := Section(p, reply);
    RunOne(w, steps[0], steps[1..]);
    assert steps == [steps[0]] + steps[1..];
    if !reply.Unsent? {
      RunOne(Next(w, steps[0]), steps[1], steps[2..]);
      assert steps[1..] == [steps[1]] + steps[2..];
      if reply.Granted? {
        RunOne(Next(Next(w, steps[0]), steps[1]), Save(p), []);
        assert steps[2..] == [Save(p)] + [];
      }
    }
    if reply.Unsent? || !Needed(w.file, At(w, p).reason, w.now) || w.file.refresh.None? {
      UnneededSection(w, p, reply);
    } else {
      SentSection(w, p, reply);
    }
  }
}
