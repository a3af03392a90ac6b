/** The resumable stream: a server that polls a growing log, a network that cuts the text at any
    character, and a client that reconnects with the last event number it has applied. */
module Resume {
  import opened Wrappers
  import opened Sequences
  import opened Numbers
  import opened Sse
  import opened Encoder
  import opened EventLog

  // ---------------------------------------------------------------------------------------------
  // The server side
  // ---------------------------------------------------------------------------------------------

  /** One response in progress.  `ended` is the counter that the server had read with the terminal
      status when it closed the response. */
  datatype Stream = Stream(cursor: nat, frames: seq<Frame>, ended: Option<nat>)

  function AsFrames(events: seq<Event>): (frames: seq<Frame>)
    ensures |frames| == |events|
  {
    seq(|events|, i requires 0 <= i < |events| => Data(events[i]))
  }

  /** `sequence > cursor order by sequence`, for a numbered log. */
  function After(log: seq<Event>, cursor: nat): seq<Event> {
    if cursor <= |log| then log[cursor..] else []
  }

  /** One poll: the run row was read as `seen`, and then the events after the cursor. */
  function Poll(s: Stream, seen: (RunStatus, nat), log: seq<Event>): Stream {
    var unsent := After(log, s.cursor);
    var cursor := if unsent == [] then s.cursor else unsent[|unsent| - 1].sequence;
    Stream(cursor, s.frames + AsFrames(unsent),
           if Terminal(seen.0) && cursor >= seen.1 then Some(seen.1) else None)
  }

  lemma SentNothing()
    ensures Sent([]) == []
  {
  }

  lemma SentSnoc(frames: seq<Frame>, f: Frame)
    ensures Sent(frames + [f]) == Sent(frames) + if f.Data? then [f.event] else []
  {
    assert (frames + [f])[..|frames|] == frames;
  }

  lemma {:induction false} SentAppend(a: seq<Frame>, b: seq<Frame>)
    ensures Sent(a + b) == Sent(a) + Sent(b)
  {
    if b == [] {
      assert a + b == a;
    } else {
      assert (a + b)[..|a + b| - 1] == a + b[..|b| - 1];
      SentAppend(a, b[..|b| - 1]);
    }
  }

  lemma {:induction false} SentAsFrames(events: seq<Event>)
    ensures Sent(AsFrames(events)) == events
  {
    if events != [] {
      SentAsFrames(events[..|events| - 1]);
      assert AsFrames(events)[..|events| - 1] == AsFrames(events[..|events| - 1]);
      assert events == events[..|events| - 1] + [events[|events| - 1]];
    }
  }

  lemma {:induction false} WireAppend(a: seq<Frame>, b: seq<Frame>)
    ensures Wire(a + b) == Wire(a) + Wire(b)
  {
    hide FrameText;
    if b == [] {
      assert a + b == a;
    } else {
      assert (a + b)[..|a + b| - 1] == a + b[..|b| - 1];
      WireAppend(a, b[..|b| - 1]);
    }
  }

  /** What a response that asked for the events after `start` has sent: the log from there on. */
  ghost predicate Serving(s: Stream, start: nat, log: seq<Event>) {
    && start <= s.cursor
    && (s.cursor <= |log| ==> start <= |log| && Sent(s.frames) == log[start..s.cursor])
    && (s.cursor > |log| ==> s.cursor == start && Sent(s.frames) == [])
  }

  lemma PollServes(s: Stream, seen: (RunStatus, nat), start: nat, log: seq<Event>)
    requires Serving(s, start, log) && Numbered(log, 0)
    ensures Serving(Poll(s, seen, log), start, log)
    ensures Poll(s, seen, log).cursor >= |log|
  {
    var unsent := After(log, s.cursor);
    SentAppend(s.frames, AsFrames(unsent));
    SentAsFrames(unsent);
  }

  /** In the code's stop test the comparison with the counter never delays the end: because the
      run row is read before the events, the cursor has already reached that counter. */
  lemma StopTestIsTerminalTest(s: Stream, seen: (RunStatus, nat), start: nat, log: seq<Event>)
    requires Serving(s, start, log) && Numbered(log, 0) && seen.1 <= |log|
    ensures Poll(s, seen, log).ended.Some? <==> Terminal(seen.0)
  {
    PollServes(s, seen, start, log);
  }

  /** What the poll loop observes in one round: the run row, and then the event table. */
  datatype Round = Round(run: Option<(RunStatus, nat)>, log: seq<Event>, heartbeatDue: bool)

  /** Two separate reads of a log that only grows: the counter belongs to a prefix of the events
      read after it, and later rounds see at least the events of earlier ones. */
  ghost predicate Observed(rounds: seq<Round>) {
    && (forall i | 0 <= i < |rounds| :: Numbered(rounds[i].log, 0))
    && (forall i | 0 <= i < |rounds| && rounds[i].run.Some? :: rounds[i].run.value.1 <= |rounds[i].log|)
    && (forall i, j | 0 <= i <= j < |rounds| :: rounds[i].log <= rounds[j].log)
  }

  /** The loop over one round's events: the cursor follows the event being sent. */
  method YieldEvents(before: seq<Frame>, from: nat, events: seq<Event>)
    returns (frames: seq<Frame>, cursor: nat)
    requires Numbered(events, from)
    ensures Sent(frames) == Sent(before) + events
    ensures cursor == from + |events|
  {
    hide Sent;
    frames, cursor := before, from;
    var k := 0;
    while k < |events|
      invariant 0 <= k <= |events|
      invariant cursor == from + k
      invariant Sent(frames) == Sent(before) + events[..k]
    {
      SentSnoc(frames, Data(events[k]));
      assert events[..k + 1] == events[..k] + [events[k]];
      cursor := events[k].sequence;
      frames := frames + [Data(events[k])];
      k := k + 1;
    }
    assert events[..k] == events;
  }

  lemma AfterNumbered(log: seq<Event>, cursor: nat)
    requires Numbered(log, 0)
    ensures Numbered(After(log, cursor), cursor)
    ensures cursor + |After(log, cursor)| == Max(cursor, |log|)
  {
  }

  lemma AfterGrows(log: seq<Event>, longer: seq<Event>, after: nat)
    requires log <= longer
    ensures After(longer, after) == After(log, after) + After(longer, Max(after, |log|))
    ensures Max(Max(after, |log|), |longer|) == Max(after, |longer|)
  {
    assert longer[..|log|] == log;
  }

  /** `stream_events`, for the rounds it lives through (the client may stop it after any of them).
      Its frames carry the log after the requested number, in order, each event once, and nothing while
      the log is shorter than that; and when it
      ends by itself on a terminal status, it has sent every event that the run row counted. */
  method StreamEvents(rounds: seq<Round>, after: nat)
    returns (frames: seq<Frame>, finished: Option<nat>)
    requires Observed(rounds)
    ensures finished.None? ==> forall i | 0 <= i < |rounds| ::
      rounds[i].run.Some? && !Terminal(rounds[i].run.value.0)
    ensures finished.None? && rounds != [] ==>
      Sent(frames) == After(rounds[|rounds| - 1].log, after)
    ensures finished.Some? ==>
      var i := finished.value;
      && i < |rounds|
      && (rounds[i].run.Some? ==>
            Terminal(rounds[i].run.value.0) && Sent(frames) == After(rounds[i].log, after))
      && (rounds[i].run.None? ==>
            Sent(frames) == if i == 0 then [] else After(rounds[i - 1].log, after))
  {
    hide Sent, After, Numbered, Max;
    frames := [];
    assert Sent(frames) == [] by { SentNothing(); }
    var cursor: nat := after;
    var i := 0;
    while i < |rounds|
      invariant 0 <= i <= |rounds|
      invariant i == 0 ==> cursor == after && Sent(frames) == []
      invariant i > 0 ==> cursor == Max(after, |rounds[i - 1].log|) && Sent(frames) == After(rounds[i - 1].log, after)
      invariant forall j | 0 <= j < i ::
        rounds[j].run.Some? && !Terminal(rounds[j].run.value.0)
    {
      if rounds[i].run.None? {
        return frames, Some(i);
      }
      var (status, last) := rounds[i].run.value;
      var events := After(rounds[i].log, cursor);
      AfterNumbered(rounds[i].log, cursor);
      if i > 0 { AfterGrows(rounds[i - 1].log, rounds[i].log, after); }
      frames, cursor := YieldEvents(frames, cursor, events);
      if Terminal(status) && cursor >= last {
        return frames, Some(i);
      }
      if rounds[i].heartbeatDue {
        SentSnoc(frames, Heartbeat);
        frames := frames + [Heartbeat];
      }
      i := i + 1;
    }
    finished := None;
  }

  // ---------------------------------------------------------------------------------------------
  // The client side
  // ---------------------------------------------------------------------------------------------

  /** The number of the last applied event; the client keeps it as `lastEventId`. */
  function LastIdFrom(id: nat, events: seq<SseEvent>): nat {
    if events == [] then id
    else
      var e := events[|events| - 1];
      if e.id.Some? && e.id.value != 0 then e.id.value else LastIdFrom(id, events[..|events| - 1])
  }

  lemma {:induction false} LastIdFromAppend(id: nat, a: seq<SseEvent>, b: seq<SseEvent>)
    ensures LastIdFrom(id, a + b) == LastIdFrom(LastIdFrom(id, a), b)
  {
    if b == [] {
      assert a + b == a;
    } else {
      assert (a + b)[..|a + b| - 1] == a + b[..|b| - 1];
      LastIdFromAppend(id, a, b[..|b| - 1]);
    }
  }

  lemma VisibleStep(log: seq<Event>, from: nat, k: nat, json: string -> bool)
    requires from <= k < |log|
    ensures VisibleOf(log[from..k + 1], json)
         == VisibleOf(log[from..k], json) + (if Visible(log[k], json) then [Received(log[k])] else [])
  {
    assert log[from..k + 1][..k - from] == log[from..k];
  }

  /** The last applied number cuts the log at a place that loses nothing visible: from any starting
      point, the events up to it are seen exactly like the events up to `k`. */
  lemma {:induction false} LastIdCuts(log: seq<Event>, from: nat, k: nat, json: string -> bool)
    requires Numbered(log, 0) && from <= k <= |log|
    ensures from <= LastIdFrom(from, VisibleOf(log[from..k], json)) <= k
    ensures VisibleOf(log[from..LastIdFrom(from, VisibleOf(log[from..k], json))], json)
         == VisibleOf(log[from..k], json)
    decreases k
  {
    hide VisibleOf;
    if k == from {
      NothingVisible(json);
      assert log[from..from] == [];
    } else {
      LastIdCuts(log, from, k - 1, json);
      VisibleStep(log, from, k - 1, json);
      assert log[k - 1].sequence == k;
      if !Visible(log[k - 1], json) {
        assert VisibleOf(log[from..k], json) == VisibleOf(log[from..k - 1], json);
      }
    }
  }

  lemma NothingVisible(json: string -> bool)
    ensures VisibleOf([], json) == []
  {
  }

  /** An HTTP response as the client meets it: a status, and the pieces of text that arrived. */
  datatype Response = Response(ok: bool, pieces: seq<string>)

  datatype Ending = Settled | Refused | GaveUp

  /** The run states on which the client stops asking. */
  predicate Settles(s: RunStatus) { Terminal(s) || s == WaitingApproval }

  /** The text is an honest response to `Last-Event-ID: id`: frames for the events after `id`,
      with heartbeats, cut at any character. */
  ghost predicate Serves(text: string, id: nat, log: seq<Event>, json: string -> bool) {
    exists frames: seq<Frame>, cut: nat :: CutOf(text, frames, cut, json) && Sent(frames) <= After(log, id)
  }

  ghost predicate CutOf(text: string, frames: seq<Frame>, cut: nat, json: string -> bool) {
    FramesPrinted(frames, json) && cut <= |Wire(frames)| && text == Wire(frames)[..cut]
  }

  /** One response: its events are the visible ones of a stretch of the log from `id`, and the
      number the client keeps afterwards marks the end of that stretch. */
  lemma ServedResponse(text: string, id: nat, log: seq<Event>, json: string -> bool)
    requires Numbered(log, 0) && id <= |log| && Serves(text, id, log, json)
    ensures var next := LastIdFrom(id, EventsOf(text, json));
      id <= next <= |log| && EventsOf(text, json) == VisibleOf(log[id..next], json)
  {
    hide VisibleOf, Wire, Sent, EventsOf, Complete, FramesPrinted;
    var frames: seq<Frame>, cut: nat :| CutOf(text, frames, cut, json) && Sent(frames) <= After(log, id);
    CutStream(frames, cut, json);
    var m := |Complete(text)|;
    SentPrefix(frames, m);
    var part := Sent(frames[..m]);
    assert part == log[id..id + |part|];
    LastIdCuts(log, id, id + |part|, json);
  }

  lemma SentPrefix(frames: seq<Frame>, m: nat)
    requires m <= |frames|
    ensures Sent(frames[..m]) <= Sent(frames)
  {
    assert frames == frames[..m] + frames[m..];
    SentAppend(frames[..m], frames[m..]);
  }

  lemma VisibleStretch(log: seq<Event>, a: nat, b: nat, c: nat, json: string -> bool)
    requires a <= b <= c <= |log|
    ensures VisibleOf(log[a..c], json) == VisibleOf(log[a..b], json) + VisibleOf(log[b..c], json)
  {
    assert log[a..c] == log[a..b] + log[b..c];
    VisibleOfAppend(log[a..b], log[b..c], json);
  }

  /** `events.forEach(...)`; an id of zero is falsy and does not count. */
  method ApplyEvents(events: seq<SseEvent>, id: nat, before: seq<SseEvent>)
    returns (lastEventId: nat, applied: seq<SseEvent>)
    ensures applied == before + events
    ensures lastEventId == LastIdFrom(id, events)
  {
    lastEventId, applied := id, before;
    var e := 0;
    while e < |events|
      invariant 0 <= e <= |events|
      invariant applied == before + events[..e]
      invariant lastEventId == LastIdFrom(id, events[..e])
    {
      assert events[..e + 1][..e] == events[..e];
      if events[e].id.Some? && events[e].id.value != 0 {
        lastEventId := events[e].id.value;
      }
      applied := applied + [events[e]];
      e := e + 1;
    }
    assert events[..e] == events;
  }

  /** The callback of one response: every event of every call, in order. */
  method ApplyCalls(calls: seq<seq<SseEvent>>, id: nat, before: seq<SseEvent>)
    returns (lastEventId: nat, applied: seq<SseEvent>)
    ensures applied == before + Flatten(calls)
    ensures lastEventId == LastIdFrom(id, Flatten(calls))
  {
    lastEventId, applied := id, before;
    var c := 0;
    while c < |calls|
      invariant 0 <= c <= |calls|
      invariant applied == before + Flatten(calls[..c])
      invariant lastEventId == LastIdFrom(id, Flatten(calls[..c]))
    {
      lastEventId, applied := ApplyEvents(calls[c], lastEventId, applied);
      LastIdFromAppend(id, Flatten(calls[..c]), calls[c]);
      assert calls[..c + 1][..c] == calls[..c];
      c := c + 1;
    }
    assert calls[..c] == calls;
  }

  /** The text holds every event after `id`, to the end of its last frame. */
  ghost predicate Carries(text: string, id: nat, log: seq<Event>, json: string -> bool) {
    exists frames: seq<Frame> :: FramesPrinted(frames, json) && text == Wire(frames) && Sent(frames) == After(log, id)
  }

  /** A response that carries everything after its number gives the rest of the log. */
  lemma WholeResponse(text: string, id: nat, log: seq<Event>, json: string -> bool)
    requires id <= |log| && Carries(text, id, log, json)
    ensures EventsOf(text, json) == VisibleOf(log[id..], json)
  {
    hide VisibleOf, Wire, Sent, EventsOf, Complete, FramesPrinted;
    var frames: seq<Frame> :|
      FramesPrinted(frames, json) && text == Wire(frames) && Sent(frames) == After(log, id);
    assert Wire(frames)[..|text|] == text;
    CutStream(frames, |text|, json);
    assert frames[..|frames|] == frames;
  }

  /** The events of the first `n` responses; `ids` are the numbers that were asked with. */
  function EventsUpTo(responses: (nat, nat) -> Response, ids: seq<nat>, n: nat, json: string -> bool): seq<SseEvent>
    requires n <= |ids|
  {
    if n == 0 then []
    else EventsUpTo(responses, ids, n - 1, json) + EventsOf(Concat(responses(n - 1, ids[n - 1]).pieces), json)
  }

  /** Each number is the one before it, moved to the last event that the response to it holds. */
  ghost predicate Followed(responses: (nat, nat) -> Response, ids: seq<nat>, json: string -> bool) {
    forall i | 0 <= i < |ids| - 1 ::
      responses(i, ids[i]).ok
      && ids[i + 1] == LastIdFrom(ids[i], EventsOf(Concat(responses(i, ids[i]).pieces), json))
  }

  lemma FollowedOn(responses: (nat, nat) -> Response, ids: seq<nat>, next: nat, json: string -> bool)
    requires ids != [] && Followed(responses, ids, json)
    requires var r := responses(|ids| - 1, ids[|ids| - 1]);
      r.ok && next == LastIdFrom(ids[|ids| - 1], EventsOf(Concat(r.pieces), json))
    ensures Followed(responses, ids + [next], json)
    ensures EventsUpTo(responses, ids + [next], |ids|, json)
         == EventsUpTo(responses, ids, |ids| - 1, json)
            + EventsOf(Concat(responses(|ids| - 1, ids[|ids| - 1]).pieces), json)
  {
    hide LastIdFrom, EventsOf, Concat, Followed, EventsUpTo;
    FollowedMore(responses, ids, next, json);
    EventsMore(responses, ids + [next], |ids|, json);
    SameIds(responses, ids, ids + [next], |ids| - 1, json);
  }

  lemma FollowedMore(responses: (nat, nat) -> Response, ids: seq<nat>, next: nat, json: string -> bool)
    requires ids != [] && Followed(responses, ids, json)
    requires var r := responses(|ids| - 1, ids[|ids| - 1]);
      r.ok && next == LastIdFrom(ids[|ids| - 1], EventsOf(Concat(r.pieces), json))
    ensures Followed(responses, ids + [next], json)
  {
    hide LastIdFrom, EventsOf, Concat;
    var all := ids + [next];
    forall i | 0 <= i < |all| - 1
      ensures responses(i, all[i]).ok
      ensures all[i + 1] == LastIdFrom(all[i], EventsOf(Concat(responses(i, all[i]).pieces), json))
    {
      assert all[i] == ids[i];
      if i < |ids| - 1 { assert all[i + 1] == ids[i + 1]; }
    }
  }

  lemma EventsMore(responses: (nat, nat) -> Response, ids: seq<nat>, n: nat, json: string -> bool)
    requires 0 < n <= |ids|
    ensures EventsUpTo(responses, ids, n, json)
         == EventsUpTo(responses, ids, n - 1, json) + EventsOf(Concat(responses(n - 1, ids[n - 1]).pieces), json)
  {
    hide LastIdFrom, EventsOf, Concat;
  }

  lemma {:induction false} SameIds(responses: (nat, nat) -> Response, a: seq<nat>, b: seq<nat>, n: nat,
                                   json: string -> bool)
    requires n <= |a| && a <= b
    ensures EventsUpTo(responses, a, n, json) == EventsUpTo(responses, b, n, json)
  {
    if n > 0 { SameIds(responses, a, b, n - 1, json); }
  }

  lemma NothingFollowed(responses: (nat, nat) -> Response, id: nat, json: string -> bool)
    ensures Followed(responses, [id], json)
    ensures EventsUpTo(responses, [id], 0, json) == []
  {
  }

  /** The state of the loop after `n` accepted responses, the last of them served from `log`. */
  ghost predicate Resumed(responses: (nat, nat) -> Response, ids: seq<nat>, applied: seq<SseEvent>,
                          log: seq<Event>, n: nat, json: string -> bool)
  {
    && |ids| == n + 1 && Followed(responses, ids, json)
    && applied == EventsUpTo(responses, ids, n, json)
    && ids[0] <= ids[n] <= |log| && applied == VisibleOf(log[ids[0]..ids[n]], json)
    && (n > 0 ==>
          responses(n - 1, ids[n - 1]).ok
          && (Carries(Concat(responses(n - 1, ids[n - 1]).pieces), ids[n - 1], log, json)
              ==> applied == VisibleOf(log[ids[0]..], json)))
  }

  lemma ResumedStep(responses: (nat, nat) -> Response, ids: seq<nat>, applied: seq<SseEvent>, log: seq<Event>,
                    n: nat, json: string -> bool, now: seq<Event>)
    requires Resumed(responses, ids, applied, log, n, json) && log <= now && Numbered(now, 0)
    requires responses(n, ids[n]).ok && Serves(Concat(responses(n, ids[n]).pieces), ids[n], now, json)
    ensures var events := EventsOf(Concat(responses(n, ids[n]).pieces), json);
      Resumed(responses, ids + [LastIdFrom(ids[n], events)], applied + events, now, n + 1, json)
  {
    hide VisibleOf, LastIdFrom, EventsOf, Concat, Serves, Carries, Followed, EventsUpTo, Numbered;
    SameStretch(log, now, ids[0], ids[n]);
    ResponseApplied(Concat(responses(n, ids[n]).pieces), ids[0], ids[n], applied, now, json);
    FollowedOn(responses, ids, LastIdFrom(ids[n], EventsOf(Concat(responses(n, ids[n]).pieces), json)), json);
  }

  lemma NothingResumed(responses: (nat, nat) -> Response, id: nat, log: seq<Event>, json: string -> bool)
    requires id <= |log|
    ensures Resumed(responses, [id], [], log, 0, json)
  {
    hide VisibleOf;
    NothingApplied(id, log, json);
    NothingFollowed(responses, id, json);
  }

  lemma ResumedMeans(responses: (nat, nat) -> Response, ids: seq<nat>, applied: seq<SseEvent>, log: seq<Event>,
                     n: nat, json: string -> bool, last: seq<Event>)
    requires Resumed(responses, ids, applied, log, n, json) && log <= last
    ensures |ids| == n + 1 && Followed(responses, ids, json) && applied == EventsUpTo(responses, ids, n, json)
    ensures ids[0] <= ids[n] <= |last| && applied == VisibleOf(last[ids[0]..ids[n]], json)
    ensures ids[0] <= |log| && (n > 0 ==> responses(n - 1, ids[n - 1]).ok)
    ensures n > 0 && Carries(Concat(responses(n - 1, ids[n - 1]).pieces), ids[n - 1], log, json) ==>
      applied == VisibleOf(log[ids[0]..], json)
  {
    hide VisibleOf, LastIdFrom, EventsOf, Concat, Carries, Followed, EventsUpTo;
    SameStretch(log, last, ids[0], ids[n]);
  }

  /** `resumeRunStream`: at most four connections, each asking for the events after the last one
      applied.  `responses` and `statuses` are what the network and the server answer at each
      attempt; `logs` is the run's log at that time, and `ids` are the numbers asked with.  Every event
      of every accepted response is applied, and whatever each response was cut to, these are the
      visible events of one stretch of the log; they reach its end if the last response does. */
  method ResumeRunStream(responses: (nat, nat) -> Response, statuses: nat -> RunStatus,
                         initialEventId: nat, json: string -> bool, ghost logs: nat -> seq<Event>)
    returns (ending: Ending, attempts: nat, lastEventId: nat, applied: seq<SseEvent>, ghost ids: seq<nat>)
    requires initialEventId <= |logs(0)|
    requires forall i | 0 <= i < 4 :: Numbered(logs(i), 0)
    requires forall i, j | 0 <= i <= j < 4 :: logs(i) <= logs(j)
    requires forall i: nat, id: nat | i < 4 && id <= |logs(i)| && responses(i, id).ok ::
      Serves(Concat(responses(i, id).pieces), id, logs(i), json)
    ensures initialEventId <= lastEventId <= |logs(3)|
    ensures applied == VisibleOf(logs(3)[initialEventId..lastEventId], json)
    ensures 1 <= attempts <= 4 && |ids| == attempts + if ending == Refused then 0 else 1
    ensures ids[0] == initialEventId && ids[|ids| - 1] == lastEventId && Followed(responses, ids, json)
    ensures applied == EventsUpTo(responses, ids, |ids| - 1, json)
    ensures forall i | 0 <= i < attempts - 1 :: statuses(i) in {Queued, Running}
    ensures ending == Refused <==> !responses(attempts - 1, ids[attempts - 1]).ok
    ensures ending == Settled ==> statuses(attempts - 1) in {Completed, Failed, Cancelled, Rejected, WaitingApproval}
    ensures ending == GaveUp ==> attempts == 4 && statuses(3) in {Queued, Running}
    ensures ending != Refused
      && Carries(Concat(responses(attempts - 1, ids[attempts - 1]).pieces), ids[attempts - 1], logs(attempts - 1), json)
      ==> applied == VisibleOf(logs(attempts - 1)[initialEventId..], json)
  {
    hide VisibleOf, LastIdFrom, EventsOf, Concat, Flatten, Serves, Carries, Followed, EventsUpTo, Numbered, Resumed;
    lastEventId, applied, attempts, ids := initialEventId, [], 0, [initialEventId];
    ghost var log := logs(0);
    NothingResumed(responses, initialEventId, log, json);
    for retry := 0 to 4
      invariant attempts == retry && |ids| == retry + 1 && ids[0] == initialEventId && ids[retry] == lastEventId
      invariant log == logs(if retry == 0 then 0 else retry - 1)
      invariant Resumed(responses, ids, applied, log, retry, json)
      invariant forall i | 0 <= i < retry :: !Settles(statuses(i))
    {
      ResumedMeans(responses, ids, applied, log, retry, json, logs(retry));
      ResumedMeans(responses, ids, applied, log, retry, json, logs(3));
      attempts := attempts + 1;
      var response := responses(retry, lastEventId);
      if !response.ok {
        return Refused, attempts, lastEventId, applied, ids;
      }
      var _, calls := ReadSseResponse(response.pieces, json);
      ResumedStep(responses, ids, applied, log, retry, json, logs(retry));
      log := logs(retry);
      lastEventId, applied := ApplyCalls(calls, lastEventId, applied);
      ids := ids + [lastEventId];
      if Settles(statuses(retry)) {
        ResumedMeans(responses, ids, applied, log, attempts, json, logs(3));
        return Settled, attempts, lastEventId, applied, ids;
      }
    }
    ResumedMeans(responses, ids, applied, log, attempts, json, logs(3));
    ending := GaveUp;
  }

  lemma SameStretch(log: seq<Event>, longer: seq<Event>, from: nat, to: nat)
    requires log <= longer && from <= to <= |log|
    ensures longer[from..to] == log[from..to]
  {
  }

  lemma NothingApplied(id: nat, log: seq<Event>, json: string -> bool)
    requires id <= |log|
    ensures VisibleOf(log[id..id], json) == []
  {
    NothingVisible(json);
    assert log[id..id] == [];
  }

  /** One response, applied after what is there: it extends the stretch, to the end of the log if it
      carries the rest. */
  lemma ResponseApplied(text: string, from: nat, id: nat, before: seq<SseEvent>, log: seq<Event>, json: string -> bool)
    requires Numbered(log, 0) && from <= id <= |log| && Serves(text, id, log, json)
    requires before == VisibleOf(log[from..id], json)
    ensures var next := LastIdFrom(id, EventsOf(text, json));
      id <= next <= |log| && before + EventsOf(text, json) == VisibleOf(log[from..next], json)
    ensures Carries(text, id, log, json) ==> before + EventsOf(text, json) == VisibleOf(log[from..], json)
  {
    hide VisibleOf, EventsOf, Carries, Serves, LastIdFrom;
    ServedResponse(text, id, log, json);
    VisibleStretch(log, from, id, LastIdFrom(id, EventsOf(text, json)), json);
    if Carries(text, id, log, json) {
      WholeResponse(text, id, log, json);
      VisibleStretch(log, from, id, |log|, json);
      assert log[from..|log|] == log[from..] && log[id..|log|] == log[id..];
    }
  }

  // ---------------------------------------------------------------------------------------------
  // Writers, server, network and client together
  // ---------------------------------------------------------------------------------------------

  datatype Conn = Conn(start: nat, stream: Stream, seen: Option<(RunStatus, nat)>)

  /** `got` counts the characters read on this connection and `buffer` is the carried text. */
  datatype Client = Client(lastId: nat, applied: seq<SseEvent>, buffer: string, got: nat)

  datatype World = World(db: Db, conn: Conn, client: Client)

  /** One step: a writer's database operation, one of the server's two reads, a heartbeat, the
      arrival of some characters, or the connection being cut and opened again. */
  datatype Step =
    | Write(op: Op)
    | ReadRun
    | ReadEvents
    | Beat
    | Deliver(n: nat)
    | Reconnect

  function Connect(id: nat): Conn { Conn(id, Stream(id, [], None), None) }

  function Start(db: Db): World { World(db, Connect(0), Client(0, [], "", 0)) }

  /** The reader's loop body on one piece, with the callback that `resumeRunStream` passes. */
  function Receive(c: Client, piece: string, json: string -> bool): Client {
    var buffer := c.buffer + piece;
    var events := ParseSseEvents(Closed(Complete(buffer)), json);
    Client(LastIdFrom(c.lastId, events), c.applied + events, Remainder(buffer), c.got + |piece|)
  }

  function Next(w: World, r: RunId, json: string -> bool, step: Step): World {
    var s := w.conn.stream;
    match step
    case Write(op) => w.(db := Apply(w.db, op).0)
    case ReadRun =>
      if s.ended.Some? || w.conn.seen.Some? then w
      else if r !in w.db.runs then w.(conn := w.conn.(stream := s.(ended := Some(0))))
      else w.(conn := w.conn.(seen := Some((w.db.runs[r].status, w.db.runs[r].last))))
    case ReadEvents =>
      if w.conn.seen.None? then w
      else w.(conn := w.conn.(stream := Poll(s, w.conn.seen.value, LogOf(w.db, r)), seen := None))
    case Beat =>
      if s.ended.Some? || w.conn.seen.Some? then w
      else w.(conn := w.conn.(stream := s.(frames := s.frames + [Heartbeat])))
    case Deliver(n) =>
      var text := Wire(s.frames);
      if w.client.got + n > |text| then w
      else w.(client := Receive(w.client, text[w.client.got..w.client.got + n], json))
    case Reconnect =>
      w.(conn := Connect(w.client.lastId), client := w.client.(buffer := "", got := 0))
  }

  function Play(w: World, r: RunId, json: string -> bool, steps: seq<Step>): World {
    if steps == [] then w
    else Next(Play(w, r, json, steps[..|steps| - 1]), r, json, steps[|steps| - 1])
  }

  /** Writers store only events that the server's own printer produces. */
  predicate Writable(step: Step, json: string -> bool) {
    match step
    case Write(Append(_, _, name, raw)) => Printed(Event(0, name, raw), json)
    case _ => true
  }

  ghost predicate DbPrinted(db: Db, json: string -> bool) {
    && (forall r | r in db.runs :: AllPrinted(db.runs[r].events, json))
    && (forall t, r | Holds(db, t, r) :: AllPrinted(db.open[t][r].rows, json))
  }

  /** How many frames of the current response the client has read to the end. */
  function WholeFrames(w: World): nat {
    var text := Wire(w.conn.stream.frames);
    if w.client.got <= |text| then |Complete(text[..w.client.got])| else 0
  }

  ghost predicate ServerOk(w: World, log: seq<Event>, json: string -> bool) {
    var s := w.conn.stream;
    && w.conn.start <= s.cursor <= |log|
    && FramesPrinted(s.frames, json)
    && Sent(s.frames) == log[w.conn.start..s.cursor]
    && (w.conn.seen.Some? ==> w.conn.seen.value.1 <= |log|)
    && (s.ended.Some? ==> s.ended.value <= s.cursor)
  }

  ghost predicate ClientOk(w: World, log: seq<Event>, json: string -> bool) {
    var s, c := w.conn.stream, w.client;
    && c.got <= |Wire(s.frames)|
    && c.buffer == Remainder(Wire(s.frames)[..c.got])
    && WholeFrames(w) <= |s.frames|
    && w.conn.start <= |log|
    && c.applied == VisibleOf(log[..w.conn.start], json) + VisibleOf(Sent(s.frames[..WholeFrames(w)]), json)
    && c.lastId == LastIdFrom(0, c.applied)
  }

  ghost predicate Consistent(w: World, r: RunId, json: string -> bool) {
    && Sound(w.db) && DbPrinted(w.db, json)
    && ServerOk(w, LogOf(w.db, r), json)
    && ClientOk(w, LogOf(w.db, r), json)
  }

  // ---------------------------------------------------------------------------------------------
  // Every step keeps the world consistent
  // ---------------------------------------------------------------------------------------------

  lemma ApplyPrinted(db: Db, op: Op, json: string -> bool)
    requires Sound(db) && DbPrinted(db, json) && Writable(Write(op), json)
    ensures DbPrinted(Apply(db, op).0, json)
  {
    hide Gapless, Numbered;
    var next := Apply(db, op).0;
    forall t, r | Holds(next, t, r) ensures AllPrinted(next.open[t][r].rows, json) {
      assert Holds(db, t, r) ==> AllPrinted(db.open[t][r].rows, json);
    }
    forall r | r in next.runs ensures AllPrinted(next.runs[r].events, json) {
      if op.Commit? && r in Drafts(db, op.t) {
        assert Holds(db, op.t, r);
      }
    }
  }

  lemma WriteStep(w: World, r: RunId, json: string -> bool, op: Op)
    requires Consistent(w, r, json) && Writable(Write(op), json)
    ensures Consistent(Next(w, r, json, Write(op)), r, json)
  {
    hide Apply, Sound, DbPrinted, VisibleOf, Wire, Sent, FramesPrinted, LastIdFrom;
    var log, longer := LogOf(w.db, r), LogOf(Apply(w.db, op).0, r);
    ApplySound(w.db, op);
    ApplyPrinted(w.db, op, json);
    AppendOnly(w.db, op, r);
    var start, cursor := w.conn.start, w.conn.stream.cursor;
    assert longer[start..cursor] == log[start..cursor];
    assert longer[..start] == log[..start];
    assert WholeFrames(Next(w, r, json, Write(op))) == WholeFrames(w);
  }

  lemma FramesGrow(frames: seq<Frame>, more: seq<Frame>, got: nat)
    requires got <= |Wire(frames)|
    ensures got <= |Wire(frames + more)| && Wire(frames + more)[..got] == Wire(frames)[..got]
  {
    WireAppend(frames, more);
  }

  /** The server may send more at any time: what the client has read stays what it was. */
  lemma SendStep(w: World, log: seq<Event>, json: string -> bool, more: seq<Frame>, next: World)
    requires ClientOk(w, log, json)
    requires next.client == w.client && next.conn.start == w.conn.start
    requires next.conn.stream.frames == w.conn.stream.frames + more
    ensures ClientOk(next, log, json)
  {
    hide VisibleOf, Wire, Sent, LastIdFrom, Complete, Remainder;
    var frames := w.conn.stream.frames;
    FramesGrow(frames, more, w.client.got);
    var m := WholeFrames(w);
    assert WholeFrames(next) == m;
    assert (frames + more)[..m] == frames[..m];
  }

  lemma AsFramesPrinted(events: seq<Event>, json: string -> bool)
    requires AllPrinted(events, json)
    ensures FramesPrinted(AsFrames(events), json)
  {
  }

  lemma ReadEventsStep(w: World, r: RunId, json: string -> bool)
    requires Consistent(w, r, json)
    ensures Consistent(Next(w, r, json, ReadEvents), r, json)
  {
    hide VisibleOf, Wire, Sent, LastIdFrom, Complete, Remainder, Printed, Numbered;
    var next, log, s := Next(w, r, json, ReadEvents), LogOf(w.db, r), w.conn.stream;
    if w.conn.seen.Some? {
      EmptyNumbered();
      assert r in w.db.runs ==> Gapless(w.db.runs[r]);
      PollServes(s, w.conn.seen.value, w.conn.start, log);
      assert After(log, s.cursor) == log[s.cursor..];
      AsFramesPrinted(log[s.cursor..], json);
      assert FramesPrinted(s.frames + AsFrames(log[s.cursor..]), json);
      PollReaches(s, w.conn.seen.value, log);
      SendStep(w, log, json, AsFrames(After(log, s.cursor)), next);
    }
  }

  lemma EmptyNumbered()
    ensures Numbered([], 0)
  {
  }

  lemma PollReaches(s: Stream, seen: (RunStatus, nat), log: seq<Event>)
    requires Numbered(log, 0) && s.cursor <= |log|
    ensures Poll(s, seen, log).cursor == |log|
  {
  }

  lemma BeatStep(w: World, r: RunId, json: string -> bool)
    requires Consistent(w, r, json)
    ensures Consistent(Next(w, r, json, Beat), r, json)
  {
    hide VisibleOf, Wire, Sent, LastIdFrom, Complete, Remainder, Printed;
    var next, s := Next(w, r, json, Beat), w.conn.stream;
    if next != w {
      SentSnoc(s.frames, Heartbeat);
      SendStep(w, LogOf(w.db, r), json, [Heartbeat], next);
    }
  }

  lemma ReadRunStep(w: World, r: RunId, json: string -> bool)
    requires Consistent(w, r, json)
    ensures Consistent(Next(w, r, json, ReadRun), r, json)
  {
    hide VisibleOf, Wire, Sent, LastIdFrom, Complete, Remainder, Printed;
    var next := Next(w, r, json, ReadRun);
    assert r in w.db.runs ==> Gapless(w.db.runs[r]);
    assert next.conn.stream.frames == w.conn.stream.frames + [];
    SendStep(w, LogOf(w.db, r), json, [], next);
  }

  /** A connection that has carried nothing yet. */
  lemma FreshConnection(id: nat, log: seq<Event>, c: Client, db: Db, json: string -> bool)
    requires id <= |log| && c.buffer == "" && c.got == 0
    requires c.applied == VisibleOf(log[..id], json) && c.lastId == LastIdFrom(0, c.applied)
    ensures ServerOk(World(db, Connect(id), c), log, json)
    ensures ClientOk(World(db, Connect(id), c), log, json)
  {
    hide VisibleOf, LastIdFrom, Printed, SplitBlocks;
    var w := World(db, Connect(id), c);
    NothingVisible(json);
    EmptyTail(json);
    assert Wire([])[..0] == "";
    assert WholeFrames(w) == 0;
    assert w.conn.stream.frames[..0] == [];
    assert log[id..id] == [];
  }

  lemma ReconnectStep(w: World, r: RunId, json: string -> bool)
    requires Consistent(w, r, json)
    ensures Consistent(Next(w, r, json, Reconnect), r, json)
  {
    hide VisibleOf, LastIdFrom, Printed, ServerOk, ClientOk, Sound, DbPrinted;
    AppliedIsPrefix(w, r, json);
    LastIdKept(w, r, json);
    var next := Next(w, r, json, Reconnect);
    FreshConnection(w.client.lastId, LogOf(w.db, r), next.client, w.db, json);
  }

  lemma LastIdKept(w: World, r: RunId, json: string -> bool)
    requires Consistent(w, r, json)
    ensures w.client.lastId == LastIdFrom(0, w.client.applied)
  {
  }

  lemma PartOfLog(log: seq<Event>, from: nat, to: nat, part: seq<Event>)
    requires from <= to <= |log| && part <= log[from..to]
    ensures from + |part| <= |log| && log[..from + |part|] == log[..from] + part
  {
    assert part == log[from..to][..|part|];
  }

  /** The state of the client in one equation: what it has applied are the visible events of the
      log up to its last event number. */
  lemma AppliedIsPrefix(w: World, r: RunId, json: string -> bool)
    requires Consistent(w, r, json)
    ensures w.client.lastId <= |LogOf(w.db, r)|
    ensures w.client.applied == VisibleOf(LogOf(w.db, r)[..w.client.lastId], json)
  {
    hide VisibleOf, LastIdFrom, Printed, Complete, Remainder, Wire, Sent;
    var log, s, m := LogOf(w.db, r), w.conn.stream, WholeFrames(w);
    EmptyNumbered();
    assert r in w.db.runs ==> Gapless(w.db.runs[r]);
    SentPrefix(s.frames, m);
    var k := w.conn.start + |Sent(s.frames[..m])|;
    PartOfLog(log, w.conn.start, s.cursor, Sent(s.frames[..m]));
    VisibleOfAppend(log[..w.conn.start], Sent(s.frames[..m]), json);
    LastIdCuts(log, 0, k, json);
    assert log[0..k] == log[..k] && log[0..w.client.lastId] == log[..w.client.lastId];
  }

  lemma DeliverStep(w: World, r: RunId, json: string -> bool, n: nat)
    requires Consistent(w, r, json)
    ensures Consistent(Next(w, r, json, Deliver(n)), r, json)
  {
    hide VisibleOf, Wire, Sent, LastIdFrom, SplitBlocks, Closed, Printed, ParseBlocks, DbPrinted, Sound;
    var frames, c := w.conn.stream.frames, w.client;
    var text := Wire(frames);
    if c.got + n <= |text| {
      var old_, piece, now := text[..c.got], text[c.got..c.got + n], text[..c.got + n];
      assert now == old_ + piece;
      ReadPiece(old_, piece, json);
      CutStream(frames, c.got, json);
      CutStream(frames, c.got + n, json);
      var events := ParseSseEvents(Closed(Complete(c.buffer + piece)), json);
      LastIdFromAppend(0, c.applied, events);
    }
  }

  /** Exactly-once resumption, as an invariant: kept by every writer, server and network step. */
  lemma NextConsistent(w: World, r: RunId, json: string -> bool, step: Step)
    requires Consistent(w, r, json) && Writable(step, json)
    ensures Consistent(Next(w, r, json, step), r, json)
  {
    match step
    case Write(op) => WriteStep(w, r, json, op);
    case ReadRun => ReadRunStep(w, r, json);
    case ReadEvents => ReadEventsStep(w, r, json);
    case Beat => BeatStep(w, r, json);
    case Deliver(n) => DeliverStep(w, r, json, n);
    case Reconnect => ReconnectStep(w, r, json);
  }

  lemma StartConsistent(db: Db, r: RunId, json: string -> bool)
    requires Sound(db) && DbPrinted(db, json)
    ensures Consistent(Start(db), r, json)
  {
    hide VisibleOf, Printed, ServerOk, ClientOk, Sound, DbPrinted;
    NothingVisible(json);
    assert LogOf(db, r)[..0] == [];
    FreshConnection(0, LogOf(db, r), Client(0, [], "", 0), db, json);
  }

  lemma {:induction false} PlayConsistent(db: Db, r: RunId, json: string -> bool, steps: seq<Step>)
    requires Sound(db) && DbPrinted(db, json)
    requires forall i | 0 <= i < |steps| :: Writable(steps[i], json)
    ensures Consistent(Play(Start(db), r, json, steps), r, json)
  {
    hide Consistent, Next, Writable, Start;
    if steps == [] {
      StartConsistent(db, r, json);
    } else {
      PlayConsistent(db, r, json, steps[..|steps| - 1]);
      NextConsistent(Play(Start(db), r, json, steps[..|steps| - 1]), r, json, steps[|steps| - 1]);
    }
  }

  // ---------------------------------------------------------------------------------------------
  // What the client ends up with
  // ---------------------------------------------------------------------------------------------

  /** The events of a log as a client that loses nothing would see them. */
  function AllReceived(events: seq<Event>): (r: seq<SseEvent>)
    ensures |r| == |events|
  {
    seq(|events|, i requires 0 <= i < |events| => Received(events[i]))
  }

  lemma {:induction false} VisibleBound(events: seq<Event>, json: string -> bool)
    ensures |VisibleOf(events, json)| <= |events|
  {
    if events != [] { VisibleBound(events[..|events| - 1], json); }
  }

  lemma {:induction false} VisibleAll(events: seq<Event>, json: string -> bool)
    ensures VisibleOf(events, json) == AllReceived(events)
         <==> forall i | 0 <= i < |events| :: Visible(events[i], json)
  {
    hide Visible, Received;
    if events == [] {
      assert AllReceived(events) == [];
    } else {
      var init, e := events[..|events| - 1], events[|events| - 1];
      VisibleAll(init, json);
      VisibleBound(init, json);
      assert AllReceived(events) == AllReceived(init) + [Received(e)];
      if Visible(e, json) {
        assert VisibleOf(events, json) == VisibleOf(init, json) + [Received(e)];
        SameFront(VisibleOf(init, json), AllReceived(init), Received(e));
      } else {
        assert |VisibleOf(events, json)| < |events|;
      }
    }
  }

  lemma SameFront<T>(a: seq<T>, b: seq<T>, x: T)
    ensures a + [x] == b + [x] <==> a == b
  {
    if a + [x] == b + [x] {
      assert a == (a + [x])[..|a|] && b == (b + [x])[..|b|];
    }
  }

  /** Exactly-once resumption.  Over any interleaving of writers, server reads, heartbeats and
      deliveries, with the connection cut anywhere and reopened any number of times, the events
      applied are, in order and each once, the visible events of the log up to the last number
      applied.  They are the whole prefix of the log, without a gap, exactly when every one of
      those events is visible. */
  lemma ExactlyOnce(db: Db, r: RunId, json: string -> bool, steps: seq<Step>)
    requires Sound(db) && DbPrinted(db, json)
    requires forall i | 0 <= i < |steps| :: Writable(steps[i], json)
    ensures var w := Play(Start(db), r, json, steps);
      var log, c := LogOf(w.db, r), w.client;
      && c.lastId <= |log|
      && c.applied == VisibleOf(log[..c.lastId], json)
      && (c.applied == AllReceived(log[..c.lastId]) <==>
          forall i | 0 <= i < c.lastId :: Visible(log[i], json))
  {
    hide Play, Consistent, VisibleOf, Visible, AllReceived;
    var w := Play(Start(db), r, json, steps);
    PlayConsistent(db, r, json, steps);
    AppliedIsPrefix(w, r, json);
    VisibleAll(LogOf(w.db, r)[..w.client.lastId], json);
  }

  /** Once everything sent is read, the client has applied the visible events up to the cursor. */
  lemma ReadToTheEnd(w: World, r: RunId, json: string -> bool)
    requires Consistent(w, r, json) && w.client.got == |Wire(w.conn.stream.frames)|
    ensures w.conn.stream.cursor <= |LogOf(w.db, r)|
    ensures w.client.applied == VisibleOf(LogOf(w.db, r)[..w.conn.stream.cursor], json)
  {
    hide VisibleOf, LastIdFrom, Printed, Complete, Remainder, Wire, Sent, Sound;
    var log, s := LogOf(w.db, r), w.conn.stream;
    CutStream(s.frames, w.client.got, json);
    assert s.frames[..WholeFrames(w)] == s.frames;
    assert log[..s.cursor] == log[..w.conn.start] + log[w.conn.start..s.cursor];
    VisibleOfAppend(log[..w.conn.start], Sent(s.frames), json);
  }

  // ---------------------------------------------------------------------------------------------
  // Progress
  // ---------------------------------------------------------------------------------------------

  /** What may happen between the two reads of a round: everything but the second read and a new
      connection. */
  predicate Between(steps: seq<Step>) {
    forall i | 0 <= i < |steps| :: !steps[i].ReadEvents? && !steps[i].Reconnect?
  }

  ghost predicate AllWritable(steps: seq<Step>, json: string -> bool) {
    forall i | 0 <= i < |steps| :: Writable(steps[i], json)
  }

  lemma WritablePrefix(steps: seq<Step>, json: string -> bool)
    requires AllWritable(steps, json) && steps != []
    ensures AllWritable(steps[..|steps| - 1], json) && Writable(steps[|steps| - 1], json)
  {
  }

  lemma {:induction false} StaysConsistent(w: World, r: RunId, json: string -> bool, steps: seq<Step>)
    requires Consistent(w, r, json) && AllWritable(steps, json)
    ensures Consistent(Play(w, r, json, steps), r, json)
  {
    hide Consistent, Next, AllWritable, Writable;
    if steps != [] {
      WritablePrefix(steps, json);
      StaysConsistent(w, r, json, steps[..|steps| - 1]);
      NextConsistent(Play(w, r, json, steps[..|steps| - 1]), r, json, steps[|steps| - 1]);
    }
  }

  lemma BetweenStep(w: World, r: RunId, json: string -> bool, step: Step)
    requires !step.ReadEvents? && !step.Reconnect? && (w.conn.seen.Some? || w.conn.stream.ended.Some?)
    ensures Next(w, r, json, step).conn == w.conn
    ensures LogOf(w.db, r) <= LogOf(Next(w, r, json, step).db, r)
  {
    hide Apply, Receive, Wire;
    if step.Write? { AppendOnly(w.db, step.op, r); }
  }

  lemma {:induction false} BetweenKeeps(w: World, r: RunId, json: string -> bool, steps: seq<Step>)
    requires Between(steps) && (w.conn.seen.Some? || w.conn.stream.ended.Some?)
    ensures Play(w, r, json, steps).conn == w.conn
    ensures LogOf(w.db, r) <= LogOf(Play(w, r, json, steps).db, r)
  {
    hide Next;
    if steps != [] {
      var init := steps[..|steps| - 1];
      assert forall i | 0 <= i < |init| :: init[i] == steps[i];
      BetweenKeeps(w, r, json, init);
      assert !steps[|steps| - 1].ReadEvents? && !steps[|steps| - 1].Reconnect?;
      BetweenStep(Play(w, r, json, init), r, json, steps[|steps| - 1]);
    }
  }

  lemma FirstRead(w: World, r: RunId, json: string -> bool)
    requires w.conn.stream.ended.None? && w.conn.seen.None?
    ensures var next := Next(w, r, json, ReadRun);
      && next.db == w.db && next.conn.start == w.conn.start && next.conn.stream.frames == w.conn.stream.frames
      && (r !in w.db.runs ==> next.conn.stream.ended.Some? && next.conn.seen.None?)
      && (r in w.db.runs ==> next.conn.stream.ended.None? && next.conn.seen.Some?
                             && next.conn.seen.value.0 == w.db.runs[r].status)
  {
  }

  lemma SecondRead(w: World, r: RunId, json: string -> bool)
    requires Consistent(w, r, json) && w.conn.seen.Some?
    ensures var next := Next(w, r, json, ReadEvents);
      && next.db == w.db && next.conn.start == w.conn.start <= |LogOf(w.db, r)|
      && next.conn.stream.cursor == |LogOf(w.db, r)|
      && Sent(next.conn.stream.frames) == LogOf(w.db, r)[w.conn.start..]
      && (next.conn.stream.ended.Some? <==> w.conn.seen.value.0 in {Completed, Failed, Cancelled, Rejected})
  {
    hide VisibleOf, Wire, Sent, LastIdFrom, Complete, Remainder, Printed, Numbered, DbPrinted, ClientOk;
    var log, s := LogOf(w.db, r), w.conn.stream;
    EmptyNumbered();
    assert r in w.db.runs ==> Gapless(w.db.runs[r]);
    PollReaches(s, w.conn.seen.value, log);
    SentAppend(s.frames, AsFrames(After(log, s.cursor)));
    SentAsFrames(After(log, s.cursor));
    assert log[w.conn.start..s.cursor] + log[s.cursor..] == log[w.conn.start..];
  }

  /** Progress of the server: from any consistent state in which a round is due, and whatever writers,
      deliveries and heartbeats do between its two reads, the round brings the response to the end of
      the log, and ends it exactly if the run is missing or has ended at the first read. */
  lemma RoundProgress(w: World, r: RunId, json: string -> bool, between: seq<Step>)
    requires Consistent(w, r, json) && w.conn.stream.ended.None? && w.conn.seen.None?
    requires Between(between) && AllWritable(between, json)
    ensures var late := Play(Next(w, r, json, ReadRun), r, json, between);
      var next := Next(late, r, json, ReadEvents);
      && next.db == late.db && LogOf(w.db, r) <= LogOf(late.db, r)
      && w.conn.start <= |LogOf(w.db, r)|
      && Sent(next.conn.stream.frames) == LogOf(if r in w.db.runs then late.db else w.db, r)[w.conn.start..]
      && (next.conn.stream.ended.Some? <==>
          r !in w.db.runs || w.db.runs[r].status in {Completed, Failed, Cancelled, Rejected})
  {
    hide Next, Play, Consistent, Sent, Between, AllWritable;
    NextConsistent(w, r, json, ReadRun);
    FirstRead(w, r, json);
    var first := Next(w, r, json, ReadRun);
    BetweenKeeps(first, r, json, between);
    StaysConsistent(first, r, json, between);
    var late := Play(first, r, json, between);
    if r in w.db.runs {
      SecondRead(late, r, json);
      StartInLog(w, r, json);
    } else {
      NothingToRead(late, r, json);
      NothingSentYet(w, r, json);
    }
  }

  lemma StartInLog(w: World, r: RunId, json: string -> bool)
    requires Consistent(w, r, json)
    ensures w.conn.start <= |LogOf(w.db, r)|
  {
  }

  lemma NothingToRead(w: World, r: RunId, json: string -> bool)
    requires w.conn.seen.None?
    ensures Next(w, r, json, ReadEvents) == w
  {
  }

  lemma NothingSentYet(w: World, r: RunId, json: string -> bool)
    requires Consistent(w, r, json) && r !in w.db.runs
    ensures LogOf(w.db, r) == [] && w.conn.start == 0 && Sent(w.conn.stream.frames) == []
  {
  }

  /** What is left of the text on this connection. */
  function Left(w: World): nat {
    if w.client.got <= |Wire(w.conn.stream.frames)| then |Wire(w.conn.stream.frames)| - w.client.got else 0
  }

  lemma DeliverAll(w: World, r: RunId, json: string -> bool)
    requires Consistent(w, r, json)
    ensures var next := Next(w, r, json, Deliver(Left(w)));
      next.db == w.db && next.conn == w.conn && next.client.got == |Wire(w.conn.stream.frames)|
  {
    hide VisibleOf, Wire, Sent, LastIdFrom, Complete, Remainder, Printed, DbPrinted, Sound;
  }

  /** Progress of the client: once the rest of what the round sent is delivered, it has applied every
      visible event of the log. */
  lemma RoundDelivers(w: World, r: RunId, json: string -> bool, between: seq<Step>)
    requires Consistent(w, r, json) && w.conn.stream.ended.None? && w.conn.seen.None?
    requires Between(between) && AllWritable(between, json) && r in w.db.runs
    ensures var next := Next(Play(Next(w, r, json, ReadRun), r, json, between), r, json, ReadEvents);
      Next(next, r, json, Deliver(Left(next))).client.applied == VisibleOf(LogOf(next.db, r), json)
  {
    hide Next, Play, Consistent, Sent, Between, AllWritable, VisibleOf, Left;
    NextConsistent(w, r, json, ReadRun);
    FirstRead(w, r, json);
    var first := Next(w, r, json, ReadRun);
    BetweenKeeps(first, r, json, between);
    StaysConsistent(first, r, json, between);
    var late := Play(first, r, json, between);
    SecondRead(late, r, json);
    NextConsistent(late, r, json, ReadEvents);
    var next := Next(late, r, json, ReadEvents);
    DeliverAll(next, r, json);
    NextConsistent(next, r, json, Deliver(Left(next)));
    ReadToTheEnd(Next(next, r, json, Deliver(Left(next))), r, json);
    assert LogOf(next.db, r)[..|LogOf(next.db, r)|] == LogOf(next.db, r);
  }

  lemma Reconnected(w: World, r: RunId, json: string -> bool)
    ensures var next := Next(w, r, json, Reconnect);
      next.db == w.db && next.conn.stream.ended.None? && next.conn.seen.None? && next.conn.start == w.client.lastId
  {
  }

  lemma PlayNothing(w: World, r: RunId, json: string -> bool)
    ensures Play(w, r, json, []) == w
  {
  }

  /** From every state that any run can reach, with connections cut anywhere, one more connection with
      a single round catches up: the client then has every visible event of the log. */
  lemma CatchesUp(db: Db, r: RunId, json: string -> bool, steps: seq<Step>)
    requires Sound(db) && DbPrinted(db, json) && AllWritable(steps, json)
    requires r in Play(Start(db), r, json, steps).db.runs
    ensures var again := Next(Play(Start(db), r, json, steps), r, json, Reconnect);
      var next := Next(Next(again, r, json, ReadRun), r, json, ReadEvents);
      && next.db == again.db
      && Next(next, r, json, Deliver(Left(next))).client.applied == VisibleOf(LogOf(next.db, r), json)
  {
    hide Next, Play, Consistent, Sound, DbPrinted, VisibleOf, Left, Start;
    PlayConsistent(db, r, json, steps);
    var w := Play(Start(db), r, json, steps);
    NextConsistent(w, r, json, Reconnect);
    Reconnected(w, r, json);
    var again := Next(w, r, json, Reconnect);
    RoundDelivers(again, r, json, []);
    RoundProgress(again, r, json, []);
    PlayNothing(Next(again, r, json, ReadRun), r, json);
    FirstRead(again, r, json);
  }

  /** The database before step `i` of a run. */
  function DbAt(w: World, r: RunId, json: string -> bool, steps: seq<Step>, i: int): Db
    requires 0 <= i <= |steps|
  {
    Play(w, r, json, steps[..i]).db
  }

  /** Step `i` read what the server now has in hand. */
  predicate HeldBy(w: World, r: RunId, json: string -> bool, steps: seq<Step>, i: int, conn: Conn) {
    && 0 <= i < |steps| && steps[i] == ReadRun
    && var db := DbAt(w, r, json, steps, i);
       r in db.runs && conn.seen == Some((db.runs[r].status, db.runs[r].last))
  }

  /** Step `i` read the run missing, or with an end status and no more events than were sent. */
  predicate EndedBy(w: World, r: RunId, json: string -> bool, steps: seq<Step>, i: int, conn: Conn) {
    && 0 <= i < |steps| && steps[i] == ReadRun
    && var db := DbAt(w, r, json, steps, i);
       r in db.runs ==>
         db.runs[r].status in {Completed, Failed, Cancelled, Rejected} && db.runs[r].last <= conn.stream.cursor
  }

  ghost predicate Explained(w: World, r: RunId, json: string -> bool, steps: seq<Step>, conn: Conn) {
    && (conn.seen.Some? ==> exists i :: HeldBy(w, r, json, steps, i, conn))
    && (conn.stream.ended.Some? ==> exists i :: EndedBy(w, r, json, steps, i, conn))
  }

  lemma SameDb(w: World, r: RunId, json: string -> bool, steps: seq<Step>, i: int)
    requires steps != [] && 0 <= i < |steps|
    ensures DbAt(w, r, json, steps[..|steps| - 1], i) == DbAt(w, r, json, steps, i)
  {
    assert steps[..|steps| - 1][..i] == steps[..i];
  }

  lemma StillExplained(w: World, r: RunId, json: string -> bool, steps: seq<Step>, old_: Conn, conn: Conn)
    requires steps != [] && Explained(w, r, json, steps[..|steps| - 1], old_)
    requires conn.seen.Some? ==> conn.seen == old_.seen
    requires conn.stream.ended.Some? ==> old_.stream.ended.Some? && old_.stream.cursor <= conn.stream.cursor
    ensures Explained(w, r, json, steps, conn)
  {
    hide DbAt;
    var init := steps[..|steps| - 1];
    if conn.seen.Some? {
      var i :| HeldBy(w, r, json, init, i, old_);
      SameDb(w, r, json, steps, i);
      assert HeldBy(w, r, json, steps, i, conn);
    }
    if conn.stream.ended.Some? {
      var i :| EndedBy(w, r, json, init, i, old_);
      SameDb(w, r, json, steps, i);
      assert EndedBy(w, r, json, steps, i, conn);
    }
  }

  lemma ReadRunExplained(w: World, r: RunId, json: string -> bool, steps: seq<Step>)
    requires steps != [] && steps[|steps| - 1] == ReadRun
    requires Explained(w, r, json, steps[..|steps| - 1], Play(w, r, json, steps[..|steps| - 1]).conn)
    ensures Explained(w, r, json, steps, Play(w, r, json, steps).conn)
  {
    hide Explained;
    var n := |steps| - 1;
    var before := Play(w, r, json, steps[..n]);
    if before.conn.stream.ended.Some? || before.conn.seen.Some? {
      StillExplained(w, r, json, steps, before.conn, before.conn);
    } else {
      NowRead(w, r, json, steps, Play(w, r, json, steps).conn);
    }
  }

  lemma NowRead(w: World, r: RunId, json: string -> bool, steps: seq<Step>, conn: Conn)
    requires steps != [] && steps[|steps| - 1] == ReadRun
    requires var db := DbAt(w, r, json, steps, |steps| - 1);
      if r in db.runs then conn.seen == Some((db.runs[r].status, db.runs[r].last)) && conn.stream.ended.None?
      else conn.seen.None?
    ensures Explained(w, r, json, steps, conn)
  {
    hide DbAt;
    var n := |steps| - 1;
    assert r in DbAt(w, r, json, steps, n).runs ==> HeldBy(w, r, json, steps, n, conn);
    assert r !in DbAt(w, r, json, steps, n).runs ==> EndedBy(w, r, json, steps, n, conn);
  }

  lemma PollExplained(w: World, r: RunId, json: string -> bool, steps: seq<Step>, old_: Conn, conn: Conn)
    requires steps != [] && Explained(w, r, json, steps[..|steps| - 1], old_) && old_.seen.Some?
    requires conn.seen.None?
    requires conn.stream.ended.Some? ==> Terminal(old_.seen.value.0) && old_.seen.value.1 <= conn.stream.cursor
    ensures Explained(w, r, json, steps, conn)
  {
    hide DbAt;
    var i :| HeldBy(w, r, json, steps[..|steps| - 1], i, old_);
    SameDb(w, r, json, steps, i);
    assert conn.stream.ended.Some? ==> EndedBy(w, r, json, steps, i, conn);
  }

  /** Over every run: the server closes a response only because of a status that it has read. */
  lemma {:induction false} AllExplained(w: World, r: RunId, json: string -> bool, steps: seq<Step>)
    requires w.conn.seen.None? && w.conn.stream.ended.None?
    ensures Explained(w, r, json, steps, Play(w, r, json, steps).conn)
  {
    hide Explained, Apply, Receive, Wire, AsFrames, After, Terminal;
    if steps == [] {
      NothingHeld(w, r, json, steps, w.conn);
    } else {
      var n := |steps| - 1;
      var before, conn := Play(w, r, json, steps[..n]), Play(w, r, json, steps).conn;
      AllExplained(w, r, json, steps[..n]);
      if steps[n] == ReadRun {
        ReadRunExplained(w, r, json, steps);
      } else if steps[n] == ReadEvents && before.conn.seen.Some? {
        PollExplained(w, r, json, steps, before.conn, conn);
      } else {
        StillExplained(w, r, json, steps, before.conn, conn);
      }
    }
  }

  lemma NothingHeld(w: World, r: RunId, json: string -> bool, steps: seq<Step>, conn: Conn)
    requires conn.seen.None? && conn.stream.ended.None?
    ensures Explained(w, r, json, steps, conn)
  {
  }

  lemma {:induction false} LogGrows(w: World, r: RunId, json: string -> bool, steps: seq<Step>, i: nat)
    requires i <= |steps|
    ensures LogOf(DbAt(w, r, json, steps, i), r) <= LogOf(Play(w, r, json, steps).db, r)
  {
    hide Apply, Receive, Wire, Poll;
    if i == |steps| {
      assert steps[..i] == steps;
    } else {
      var n := |steps| - 1;
      LogGrows(w, r, json, steps[..n], i);
      SameDb(w, r, json, steps, i);
      if steps[n].Write? { AppendOnly(Play(w, r, json, steps[..n]).db, steps[n].op, r); }
    }
  }

  /** A response that the server has closed, read to its end, over every run: some earlier read found
      the run missing or ended, and the client has applied everything visible that was committed when
      that read was made. */
  lemma ClosedResponseIsComplete(db: Db, r: RunId, json: string -> bool, steps: seq<Step>)
    requires Sound(db) && DbPrinted(db, json) && AllWritable(steps, json)
    requires var w := Play(Start(db), r, json, steps);
      w.conn.stream.ended.Some? && w.client.got == |Wire(w.conn.stream.frames)|
    ensures var w := Play(Start(db), r, json, steps);
      var read := LogOf(w.db, r)[..Min(w.conn.stream.cursor, |LogOf(w.db, r)|)];
      && w.client.applied == VisibleOf(read, json)
      && exists i :: 0 <= i < |steps| && steps[i] == ReadRun
           && var was := DbAt(Start(db), r, json, steps, i);
              && LogOf(was, r) <= read
              && (r in was.runs ==> was.runs[r].status in {Completed, Failed, Cancelled, Rejected})
  {
    hide Next, Play, VisibleOf, Wire, Start, Sound, DbPrinted, Consistent;
    var w := Play(Start(db), r, json, steps);
    PlayConsistent(db, r, json, steps);
    ReadToTheEnd(w, r, json);
    NewConnection(db);
    AllExplained(Start(db), r, json, steps);
    var i :| EndedBy(Start(db), r, json, steps, i, w.conn);
    LogGrows(Start(db), r, json, steps, i);
    PrefixWritable(steps, i, json);
    PlayConsistent(db, r, json, steps[..i]);
    LastCounts(Play(Start(db), r, json, steps[..i]), r, json);
  }

  lemma NewConnection(db: Db)
    ensures Start(db).conn.seen.None? && Start(db).conn.stream.ended.None?
  {
  }

  lemma PrefixWritable(steps: seq<Step>, i: nat, json: string -> bool)
    requires AllWritable(steps, json) && i <= |steps|
    ensures AllWritable(steps[..i], json)
  {
  }

  lemma LastCounts(w: World, r: RunId, json: string -> bool)
    requires Consistent(w, r, json)
    ensures r in w.db.runs ==> w.db.runs[r].last == |LogOf(w.db, r)|
  {
  }

  /** The database operations among the steps. */
  function WritesOf(steps: seq<Step>): seq<Op> {
    if steps == [] then []
    else
      var before, step := WritesOf(steps[..|steps| - 1]), steps[|steps| - 1];
      if step.Write? then before + [step.op] else before
  }

  /** The streams only read: the log of this system is the one that its writers' transactions leave. */
  lemma {:induction false} WritesTakeEffect(db: Db, r: RunId, json: string -> bool, steps: seq<Step>)
    ensures Play(Start(db), r, json, steps).db == Execute(db, WritesOf(steps))
  {
    hide Apply, Receive, Wire, Poll;
    if steps != [] {
      var n := |steps| - 1;
      var before := WritesOf(steps[..n]);
      WritesTakeEffect(db, r, json, steps[..n]);
      if steps[n].Write? { assert (before + [steps[n].op])[..|before|] == before; }
    }
  }
}
