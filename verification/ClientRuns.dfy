/**
 What holds over every run of the client: each request settles at most once, none
 outlives its connection, a stopped client stays stopped, and which request a
 reply settles.
 */
module ClientRuns {
  import opened Basics
  import opened Correlation
  import opened RelayClient

  // Settling at most once

  /** Nothing that was settled is settled again, and no request is taken back. */
  ghost predicate Later(t: Table, s: Table) {
    t.issued <= s.issued && forall r :: r in t.outcomes ==> r in s.outcomes && s.outcomes[r] == t.outcomes[r]
  }

  lemma LaterTransitive(t: Table, s: Table, u: Table)
    requires Later(t, s) && Later(s, u)
    ensures Later(t, u)
  {
  }

  lemma SettledKeyLater(t: Table, key: Key, outcome: Outcome)
    requires TableOk(t)
    ensures Later(t, SettledKey(t, key, outcome))
  {
  }

  lemma SettledAllLater(t: Table, keys: set<Key>, outcome: Outcome)
    requires TableOk(t)
    ensures Later(t, SettledAll(t, keys, outcome))
  {
    forall r | r in t.outcomes ensures r !in Under(t.pending, keys) {
      assert r !in t.timers;
    }
  }

  lemma EndedLater(t: Table, outcome: Outcome)
    requires TableOk(t)
    ensures Later(t, Ended(t, outcome))
  {
    SettledAllLater(t, t.pending.Keys, outcome);
  }

  lemma EitherLater(t: Table, token: string, outcome: Outcome)
    requires TableOk(t)
    ensures Later(t, SettledEither(t, token, outcome))
  {
    if Holder(t.pending, token).Some? {
      SettledKeyLater(t, Holder(t.pending, token).value, outcome);
    }
  }

  lemma IssuedLater(t: Table, phase: Phase, token: string, kind: Kind, encodable: bool, ok: bool, s: Table)
    requires TableOk(t) && Issued(t, phase, token, kind, encodable, ok, s)
    ensures Later(t, s) && s.issued == t.issued + 1
  {
    var key := Key(SpaceOf(kind), token);
    if Takes(t, phase, token, kind, encodable) && phase == Ready {
      HeldOk(t, key, kind);
      WrittenOutOk(Held(t, key, kind), key);
      EndedLater(WrittenOut(Held(t, key, kind), key), Disconnected);
    }
  }

  lemma DispatchedLater(t: Table, ready: bool, frame: ServerFrame, answers: Option<Sent>, s: Table)
    requires TableOk(t) && Dispatched(t, ready, frame, answers, s)
    ensures Later(t, s)
  {
    hide TableOk, Ended, SettledAll, SettledKey, SettledEither;
    EndedLater(t, Disconnected);
    match frame
    case ReplyFrame(kind, token) => SettledKeyLater(t, Key(SpaceOf(kind), token), Replied);
    case ErrorFrame(code, named) =>
      SettledAllLater(t, Reserves(t.pending), Rejected);
      if named.Some? {
        EitherLater(t, named.value, Rejected);
      }
    case _ =>
  }

  lemma StepLater(m: Moment, event: Event, n: Moment)
    requires Sound(m) && Follows(m, event, n)
    ensures Later(m.table, n.table)
  {
    hide TableOk, Ended, Dispatched, Issued, SettledKey, Linked, Readied;
    EndedLater(m.table, Disconnected);
    EndedLater(m.table, ClientStopped);
    match event
    case HostIssues(token, kind, encodable, ok) =>
      IssuedLater(m.table, m.link.phase, token, kind, encodable, ok, n.table);
    case Arrives(from, frame, _, answers) =>
      if m.link.socket == Some(from) {
        DispatchedLater(m.table, m.link.phase == Ready, frame, answers, n.table);
      }
    case RequestTimer(key) =>
      if key in m.table.pending {
        ExpiredLater(m.table, key);
      }
    case _ =>
  }

  lemma ExpiredLater(t: Table, key: Key)
    requires TableOk(t) && key in t.pending
    ensures Later(t, Expired(t, key))
  {
  }

  /** Over any stretch of any run, a request that is settled stays settled as it was, and one that is not yet
      is either pending or settled. */
  lemma {:induction false} SettlesAtMostOnce(trace: seq<Moment>, events: seq<Event>, i: nat, j: nat)
    requires Traced(trace, events) && i <= j < |trace|
    ensures Later(trace[i].table, trace[j].table)
    ensures forall r :: 0 <= r < trace[j].table.issued ==>
              (r in trace[j].table.outcomes <==> !Holds(trace[j].table.pending, r))
    decreases j
  {
    assert Sound(trace[j]);
    forall r | 0 <= r < trace[j].table.issued
      ensures r in trace[j].table.outcomes <==> !Holds(trace[j].table.pending, r)
    {
      PendingOrSettled(trace[j].table, r);
    }
    if i < j {
      hide Sound, Follows, TableOk;
      SettlesAtMostOnce(trace, events, i, j - 1);
      StepLater(trace[j - 1], events[j - 1], trace[j]);
      LaterTransitive(trace[i].table, trace[j - 1].table, trace[j].table);
    }
  }

  lemma PendingOrSettled(t: Table, r: nat)
    requires TableOk(t) && r < t.issued
    ensures r in t.outcomes <==> !Holds(t.pending, r)
  {
    if Holds(t.pending, r) {
      var k :| k in t.pending && t.pending[k].request == r;
      assert r in t.timers;
    }
  }

  ghost predicate Bare(t: Table) {
    t.pending == map[] && t.timers == {} && t.timedOut == {} && t.written == {}
  }

  lemma EndedBare(t: Table, outcome: Outcome)
    requires TableOk(t)
    ensures Bare(Ended(t, outcome))
  {
    EndedOk(t, outcome);
  }

  lemma IssueCuts(t: Table, phase: Phase, token: string, kind: Kind, encodable: bool, s: Table)
    requires TableOk(t) && Issued(t, phase, token, kind, encodable, false, s)
    requires Takes(t, phase, token, kind, encodable) && phase == Ready
    ensures Bare(s)
  {
    hide TableOk, Ended;
    var key := Key(SpaceOf(kind), token);
    HeldOk(t, key, kind);
    WrittenOutOk(Held(t, key, kind), key);
    EndedBare(WrittenOut(Held(t, key, kind), key), Disconnected);
  }

  lemma StepCuts(m: Moment, event: Event, n: Moment)
    requires Sound(m) && Follows(m, event, n) && m.link.socket.Some? && n.link.socket != m.link.socket
    ensures n.link.socket.None? && Bare(n.table)
  {
    hide TableOk, Ended, Issued, Bare, Flushed, Expired;
    EndedBare(m.table, Disconnected);
    EndedBare(m.table, ClientStopped);
    if event.HostIssues? && m.link.phase == Ready && n.link == Cut(m.link) {
      IssueCuts(m.table, m.link.phase, event.token, event.kind, event.encodable, n.table);
    }
  }

  /** When a connection ends, by whatever event, nothing it carried stays pending and no deadline stays armed. */
  lemma NothingOutlivesItsConnection(trace: seq<Moment>, events: seq<Event>, i: nat)
    requires Traced(trace, events) && i < |events|
    requires trace[i].link.socket.Some? && trace[i + 1].link.socket != trace[i].link.socket
    ensures trace[i + 1].link.socket.None?
    ensures trace[i + 1].table.pending == map[] && trace[i + 1].table.timers == {} && trace[i + 1].table.timedOut == {}
  {
    hide Sound, Follows;
    StepCuts(trace[i], events[i], trace[i + 1]);
  }

  /** Only the host starts a stopped client, and until then it has no socket, timer or pending request. */
  lemma NeverRevived(trace: seq<Moment>, events: seq<Event>, i: nat)
    requires Traced(trace, events) && i < |events| && trace[i].link.stopped && !events[i].HostStarts?
    ensures var n := trace[i + 1];
            n.link.stopped && n.link.socket.None? && !n.link.reconnect && n.link.handshake.None? && !n.heartbeat
            && n.table.pending == map[] && n.table.timers == {}
  {
    hide TableOk, Ended, Dispatched, Issued;
    assert Sound(trace[i]) && Follows(trace[i], events[i], trace[i + 1]) && Sound(trace[i + 1]);
  }

  /** Stopping, or being displaced, stops the client. */
  lemma StopsForGood(trace: seq<Moment>, events: seq<Event>, i: nat)
    requires Traced(trace, events) && i < |events|
    requires events[i].HostStops?
             || (events[i].Arrives? && trace[i].link.socket == Some(events[i].from)
                 && events[i].frame.ErrorFrame? && events[i].frame.code == PeerReplaced)
    ensures trace[i + 1].link.stopped
  {
    hide TableOk, Ended, Dispatched;
    assert Follows(trace[i], events[i], trace[i + 1]);
  }

  // What ends a connection, and what settles a request

  /** The events that end the current connection, whatever the platform does. */
  predicate MustEnd(m: Moment, event: Event) {
    match event
    case HostStops => true
    case HostIssues(token, kind, encodable, ok) =>
      m.link.phase == Ready && Takes(m.table, Ready, token, kind, encodable) && !ok
    case SocketUp(from, ok) => m.link.socket == Some(from) && !ok
    case Arrives(from, frame, failAt, _) =>
      && m.link.socket == Some(from)
      && (frame.MalformedFrame? || (frame.ErrorFrame? && frame.code == PeerReplaced)
          || (frame.ReadyFrame? && m.link.phase == Ready))
    case SocketDown(from) => m.link.socket == Some(from)
    case HandshakeTimer => m.link.handshake.Some?
    case HeartbeatTimer(ok) => m.heartbeat && m.link.phase == Ready && !ok
    case _ => false
  }

  /** A first `ready` whose flush may meet a write that throws. */
  predicate MayEnd(m: Moment, event: Event) {
    event.Arrives? && m.link.socket == Some(event.from) && event.frame.ReadyFrame? && event.failAt.Some?
  }

  lemma StepEnds(m: Moment, event: Event, n: Moment)
    requires Sound(m) && Follows(m, event, n) && m.link.socket.Some?
    ensures MustEnd(m, event) ==> n.link.socket.None?
    ensures n.link.socket != m.link.socket ==> MustEnd(m, event) || MayEnd(m, event)
  {
    hide TableOk, Ended, Dispatched, Issued, Flushed, Expired;
  }

  /** Exactly which events end a connection. */
  lemma EndsExactly(trace: seq<Moment>, events: seq<Event>, i: nat)
    requires Traced(trace, events) && i < |events| && trace[i].link.socket.Some?
    ensures MustEnd(trace[i], events[i]) ==> trace[i + 1].link.socket.None?
    ensures trace[i + 1].link.socket != trace[i].link.socket ==>
              MustEnd(trace[i], events[i]) || MayEnd(trace[i], events[i])
  {
    hide Sound, Follows, MustEnd;
    StepEnds(trace[i], events[i], trace[i + 1]);
  }

  /** What an event settles a pending request with, if it settles it. */
  function Reason(m: Moment, event: Event, key: Key): Option<Outcome> {
    if event.HostStops? then Some(ClientStopped)
    else if event == RequestTimer(key) then Some(TimedOut)
    else if MustEnd(m, event) then Some(Disconnected)
    else if !Heard(m, event) then None
    else if event.frame.ReplyFrame? && Key(SpaceOf(event.frame.kind), event.frame.token) == key then Some(Replied)
    else if NamedError(event.frame) && Holder(m.table.pending, event.frame.named.value) == Some(key)
    then Some(Rejected)
    else if event.frame == ErrorFrame(UnsupportedFrame, None) && key.space == ReserveSpace then Some(Rejected)
    else None
  }

  ghost predicate SettledWith(t: Table, r: nat, outcome: Option<Outcome>) {
    match outcome
    case None => r !in t.outcomes
    case Some(o) => r in t.outcomes && t.outcomes[r] == o
  }

  lemma EndedSettles(t: Table, key: Key, outcome: Outcome)
    requires key in t.pending
    ensures SettledWith(Ended(t, outcome), t.pending[key].request, Some(outcome))
  {
    assert t.pending[key].request in Under(t.pending, t.pending.Keys);
  }

  lemma PendingUnsettled(t: Table, key: Key)
    requires TableOk(t) && key in t.pending
    ensures SettledWith(t, t.pending[key].request, None)
  {
    assert t.pending[key].request in t.timers;
  }

  lemma SettledKeySettles(t: Table, other: Key, key: Key, outcome: Outcome)
    requires TableOk(t) && key in t.pending
    ensures SettledWith(SettledKey(t, other, outcome), t.pending[key].request,
                        if other == key then Some(outcome) else None)
  {
    PendingUnsettled(t, key);
  }

  lemma EitherSettles(t: Table, token: string, key: Key, outcome: Outcome)
    requires TableOk(t) && key in t.pending
    ensures SettledWith(SettledEither(t, token, outcome), t.pending[key].request,
                        if Holder(t.pending, token) == Some(key) then Some(outcome) else None)
  {
    hide TableOk, SettledKey, SettledWith;
    PendingUnsettled(t, key);
    if Holder(t.pending, token).Some? {
      SettledKeySettles(t, Holder(t.pending, token).value, key, outcome);
    }
  }

  lemma ReservesSettle(t: Table, key: Key)
    requires TableOk(t) && key in t.pending
    ensures SettledWith(SettledAll(t, Reserves(t.pending), Rejected), t.pending[key].request,
                        if key.space == ReserveSpace then Some(Rejected) else None)
  {
    PendingUnsettled(t, key);
    var gone := Under(t.pending, Reserves(t.pending));
    assert t.pending[key].request in gone <==> key.space == ReserveSpace by {
      assert key.space == ReserveSpace ==> key in Reserves(t.pending);
    }
  }

  lemma IssuedSettles(m: Moment, event: Event, n: Moment, key: Key)
    requires Sound(m) && event.HostIssues? && Follows(m, event, n) && key in m.table.pending
    ensures SettledWith(n.table, m.table.pending[key].request, if MustEnd(m, event) then Some(Disconnected) else None)
  {
    PendingUnsettled(m.table, key);
    var r := m.table.pending[key].request;
    assert r in m.table.timers && r < m.table.issued;
    var own := Key(SpaceOf(event.kind), event.token);
    if MustEnd(m, event) {
      hide TableOk, Ended;
      EndedSettles(WrittenOut(Held(m.table, own, event.kind), own), key, Disconnected);
    } else {
      hide TableOk, Ended;
    }
  }

  lemma HeardReason(m: Moment, event: Event, n: Moment, key: Key)
    requires Sound(m) && Heard(m, event) && Follows(m, event, n) && key in m.table.pending && !MustEnd(m, event)
    requires !event.frame.ReadyFrame?
    ensures SettledWith(n.table, m.table.pending[key].request, Reason(m, event, key))
  {
    hide TableOk, Ended, SettledKey, SettledEither, SettledAll, Holder;
    PendingUnsettled(m.table, key);
    match event.frame
    case ReplyFrame(kind, token) => SettledKeySettles(m.table, Key(SpaceOf(kind), token), key, Replied);
    case ErrorFrame(code, named) =>
      if named.Some? {
        EitherSettles(m.table, named.value, key, Rejected);
      } else {
        ReservesSettle(m.table, key);
      }
    case _ =>
  }

  lemma StepSettles(m: Moment, event: Event, n: Moment, key: Key)
    requires Sound(m) && Follows(m, event, n) && key in m.table.pending
    ensures !MayEnd(m, event) || MustEnd(m, event) ==>
              SettledWith(n.table, m.table.pending[key].request, Reason(m, event, key))
    ensures MayEnd(m, event) ==>
              SettledWith(n.table, m.table.pending[key].request,
                          if n.link.socket == m.link.socket then None else Some(Disconnected))
  {
    hide TableOk, Ended, Flushed, SettledWith;
    EndedSettles(m.table, key, Disconnected);
    EndedSettles(m.table, key, ClientStopped);
    PendingUnsettled(m.table, key);
    if event.HostIssues? {
      hide Follows;
      IssuedSettles(m, event, n, key);
    } else if event.RequestTimer? {
      ExpiredSettles(m.table, event.key, key);
    } else if Heard(m, event) && !MustEnd(m, event) {
      hide Follows;
      HeardReason(m, event, n, key);
    } else if event.Arrives? && event.frame.ReadyFrame? {
      FlushedUnsettled(m.table, key);
    }
  }

  lemma ExpiredSettles(t: Table, other: Key, key: Key)
    requires TableOk(t) && key in t.pending
    ensures SettledWith(if other in t.pending then Expired(t, other) else t, t.pending[key].request,
                        if other == key then Some(TimedOut) else None)
  {
    hide TableOk, SettledKey;
    PendingUnsettled(t, key);
    SettledKeySettles(t, other, key, TimedOut);
    if other in t.pending {
      SameOutcomes(t, other);
    }
  }

  lemma SameOutcomes(t: Table, other: Key)
    requires other in t.pending
    ensures Expired(t, other).outcomes == SettledKey(t, other, TimedOut).outcomes
  {
  }

  lemma FlushedUnsettled(t: Table, key: Key)
    requires TableOk(t) && key in t.pending
    ensures SettledWith(Flushed(t, t.pending.Keys), t.pending[key].request, None)
  {
    hide TableOk;
    PendingUnsettled(t, key);
  }

  /** Exactly what settles a pending request, and with what: its timer, the answer that reaches its key, or the end of
      its connection; nothing else does. */
  lemma SettledForAReason(trace: seq<Moment>, events: seq<Event>, i: nat, key: Key)
    requires Traced(trace, events) && i < |events| && key in trace[i].table.pending
    ensures !MayEnd(trace[i], events[i]) || MustEnd(trace[i], events[i]) ==>
              SettledWith(trace[i + 1].table, trace[i].table.pending[key].request, Reason(trace[i], events[i], key))
    ensures MayEnd(trace[i], events[i]) ==>
              SettledWith(trace[i + 1].table, trace[i].table.pending[key].request,
                          if trace[i + 1].link.socket == trace[i].link.socket then None else Some(Disconnected))
  {
    hide Sound, Follows, Reason, SettledWith, MustEnd, MayEnd;
    StepSettles(trace[i], events[i], trace[i + 1], key);
  }

  /** What becomes of a new request: refused for the first reason that holds, pending, or lost with its connection. */
  lemma IssuedForAReason(trace: seq<Moment>, events: seq<Event>, i: nat)
    requires Traced(trace, events) && i < |events| && events[i].HostIssues?
    ensures var t, event := trace[i].table, events[i];
            var key := Key(SpaceOf(event.kind), event.token);
            && trace[i + 1].table.issued == t.issued + 1
            && SettledWith(trace[i + 1].table, t.issued,
                 if trace[i].link.stopped then Some(NotRunning)
                 else if key in t.pending then Some(AlreadyOutstanding)
                 else if key in t.timedOut then Some(TokenSpent)
                 else if !event.encodable then Some(Unencodable)
                 else if MustEnd(trace[i], event) then Some(Disconnected)
                 else None)
  {
    assert Sound(trace[i]) && Follows(trace[i], events[i], trace[i + 1]);
    var t, event := trace[i].table, events[i];
    var key := Key(SpaceOf(event.kind), event.token);
    assert t.issued !in t.outcomes;
    hide TableOk, Ended;
    if MustEnd(trace[i], event) {
      EndedSettles(WrittenOut(Held(t, key, event.kind), key), key, Disconnected);
    }
  }

  // Which request a reply settles

  /** A frame the client acts on as the answer it may be. */
  predicate Heard(m: Moment, event: Event) {
    event.Arrives? && m.link.socket == Some(event.from) && m.link.phase == Ready
  }

  predicate NamedError(frame: ServerFrame) {
    frame.ErrorFrame? && frame.named.Some? && frame.code != PeerReplaced
  }

  /** The relay answers each written request at most once, and an error it names carries the request's token. */
  ghost predicate Answering(m: Moment, event: Event) {
    && (Heard(m, event) && event.frame.ReplyFrame? ==>
          && event.answers.Some? && Answers(m.table, event.answers.value)
          && event.answers.value.key == Key(SpaceOf(event.frame.kind), event.frame.token))
    && (Heard(m, event) && NamedError(event.frame) ==>
          && event.answers.Some? && Answers(m.table, event.answers.value)
          && event.answers.value.key.token == event.frame.named.value)
  }

  /** A named error is about a token that was used in one reply space only. */
  ghost predicate Unambiguous(m: Moment, event: Event) {
    Heard(m, event) && NamedError(event.frame) ==> event.answers.Some? && OneSpace(m.table, event.answers.value)
  }

  /** The search by token comes to the request a named error is about. */
  predicate Found(m: Moment, event: Event) {
    Heard(m, event) && NamedError(event.frame) ==>
      event.answers.Some? && Finds(m.table.pending, event.answers.value.key)
  }

  lemma UnambiguousFound(m: Moment, event: Event)
    requires Sound(m) && Unambiguous(m, event)
    ensures Found(m, event)
  {
    if Heard(m, event) && NamedError(event.frame) {
      OneSpaceFinds(m.table, event.answers.value);
    }
  }

  /** An error that names nothing settles no reservation, or only the one it is about. */
  ghost predicate Specific(m: Moment, event: Event) {
    Heard(m, event) && event.frame == ErrorFrame(UnsupportedFrame, None) ==>
      || Reserves(m.table.pending) == {}
      || (event.answers.Some? && Answers(m.table, event.answers.value)
          && Reserves(m.table.pending) == {event.answers.value.key})
  }

  /** A request that goes out has no unanswered one before it under its key. */
  ghost predicate Tidy(m: Moment, event: Event) {
    event.HostIssues? && event.ok && m.link.phase == Ready
    && Takes(m.table, Ready, event.token, event.kind, event.encodable) ==>
      forall w :: Answers(m.table, w) ==> w.key != Key(SpaceOf(event.kind), event.token)
  }

  /** A reply or a named error settles the request it answers, or nothing. */
  ghost predicate SettlesItsOwn(m: Moment, event: Event, n: Moment) {
    Heard(m, event) && (event.frame.ReplyFrame? || NamedError(event.frame)) ==>
      && event.answers.Some?
      && var w, outcome := event.answers.value, if event.frame.ReplyFrame? then Replied else Rejected;
         n.table.outcomes
         == if w.key in m.table.pending then m.table.outcomes[w.request := outcome] else m.table.outcomes
  }

  lemma EndedFaithful(t: Table, spaces: set<Space>, outcome: Outcome)
    ensures Faithful(Ended(t, outcome), spaces) && Attributed(Ended(t, outcome))
  {
  }

  lemma IssuedFaithful(t: Table, spaces: set<Space>, phase: Phase, token: string, kind: Kind, encodable: bool, ok: bool,
                       s: Table)
    requires Faithful(t, spaces) && Issued(t, phase, token, kind, encodable, ok, s)
    ensures Faithful(s, spaces)
  {
    hide Ended, Held, Refused, Faithful;
    var key := Key(SpaceOf(kind), token);
    RefusedFaithful(t, spaces, NotRunning);
    RefusedFaithful(t, spaces, AlreadyOutstanding);
    RefusedFaithful(t, spaces, TokenSpent);
    RefusedFaithful(t, spaces, Unencodable);
    if Takes(t, phase, token, kind, encodable) {
      HeldFaithful(t, spaces, key, kind);
      HeldKey(t, key, kind);
      WrittenOutFaithful(Held(t, key, kind), spaces, key);
      EndedFaithful(WrittenOut(Held(t, key, kind), key), spaces, Disconnected);
    }
  }

  lemma HeldKey(t: Table, key: Key, kind: Kind)
    ensures key in Held(t, key, kind).pending
  {
  }

  lemma HeardFaithful(m: Moment, spaces: set<Space>, event: Event, n: Moment)
    requires Sound(m) && Heard(m, event) && Follows(m, event, n) && Faithful(m.table, spaces)
    requires Answering(m, event) && Found(m, event) && (ReserveSpace in spaces ==> Specific(m, event))
    ensures Faithful(n.table, spaces)
  {
    hide Ended, SettledAll, SettledKey, SettledEither, Faithful, TableOk, Finds;
    EndedFaithful(m.table, spaces, Disconnected);
    match event.frame
    case ReplyFrame(kind, token) => ReplyFaithful(m.table, spaces, event.answers.value, Replied);
    case ErrorFrame(code, named) =>
      if code != PeerReplaced && named.Some? {
        ErrorFaithful(m.table, spaces, event.answers.value, Rejected);
      } else if code == UnsupportedFrame {
        var keys := Reserves(m.table.pending);
        if ReserveSpace in spaces && keys != {} {
          OneFaithful(m.table, spaces, keys, Rejected, event.answers.value);
        } else {
          OthersFaithful(m.table, spaces, keys, Rejected, event.answers);
        }
      }
    case _ =>
  }

  lemma StepFaithful(m: Moment, spaces: set<Space>, event: Event, n: Moment)
    requires Sound(m) && Follows(m, event, n) && Faithful(m.table, spaces)
    requires Answering(m, event) && Found(m, event) && (ReserveSpace in spaces ==> Specific(m, event))
    ensures Faithful(n.table, spaces)
  {
    hide Ended, Faithful, TableOk, Issued, Expired, Flushed, Answering, Found, Specific;
    EndedFaithful(m.table, spaces, Disconnected);
    EndedFaithful(m.table, spaces, ClientStopped);
    if Heard(m, event) {
      HeardFaithful(m, spaces, event, n);
    } else if event.HostIssues? {
      IssuedFaithful(m.table, spaces, m.link.phase, event.token, event.kind, event.encodable, event.ok, n.table);
    } else if event.RequestTimer? && event.key in m.table.pending {
      ExpiredFaithful(m.table, spaces, event.key);
    } else if m.link.phase != Ready {
      FlushedFaithful(m.table, spaces);
    }
  }

  lemma {:induction false} RunFaithful(trace: seq<Moment>, events: seq<Event>, spaces: set<Space>, i: nat)
    requires Traced(trace, events) && i < |trace| && Faithful(trace[0].table, spaces)
    requires forall j :: 0 <= j < i ==>
               && Answering(trace[j], events[j]) && Found(trace[j], events[j])
               && (ReserveSpace in spaces ==> Specific(trace[j], events[j]))
    ensures Faithful(trace[i].table, spaces)
  {
    hide Sound, Follows, Answering, Found, Specific, Faithful;
    if i > 0 {
      RunFaithful(trace, events, spaces, i - 1);
      StepFaithful(trace[i - 1], spaces, events[i - 1], trace[i]);
    }
  }

  /** A smaller table: some entries gone, nothing more written, nothing unanswered again. */
  ghost predicate Fewer(t: Table, s: Table) {
    && s.written <= t.written && t.answered <= s.answered
    && forall k :: k in s.pending ==> k in t.pending && s.pending[k].request == t.pending[k].request
  }

  lemma EitherFewer(t: Table, token: string, answers: Option<Sent>)
    ensures Fewer(t, Noted(SettledEither(t, token, Rejected), answers))
  {
  }

  lemma HeardFewer(m: Moment, event: Event, n: Moment)
    requires Heard(m, event) && Follows(m, event, n) && !Closed(m, n) && n.link.phase == Ready
    ensures Fewer(m.table, n.table)
  {
    hide Ended, SettledEither, Flushed;
    if NamedError(event.frame) {
      EitherFewer(m.table, event.frame.named.value, event.answers);
    }
  }

  lemma IssuedExactly(m: Moment, event: Event, n: Moment)
    requires Sound(m) && event.HostIssues? && Follows(m, event, n) && Attributed(m.table)
    ensures Attributed(n.table) <==> Tidy(m, event)
  {
    var key := Key(SpaceOf(event.kind), event.token);
    if !Takes(m.table, m.link.phase, event.token, event.kind, event.encodable) || m.link.phase == Connecting {
      assert m.link.phase == Connecting ==> m.table.written == {};
      FewerOrUnwritten(m.table, n.table);
    } else {
      hide TableOk, Ended, Attributed;
      IssueAttributesExactly(m.table, key, event.kind);
      EndedFaithful(WrittenOut(Held(m.table, key, event.kind), key), {}, Disconnected);
    }
  }

  lemma FewerOrUnwritten(t: Table, s: Table)
    requires Attributed(t) && s.written == t.written && s.answered == t.answered
    requires s.pending == t.pending || s.written == {}
    ensures Attributed(s)
  {
    forall w | Answers(s, w) && w.key in s.pending ensures s.pending[w.key].request == w.request {
      assert Answers(t, w);
    }
  }

  /** The exact condition: while every key is held by the request its answers are for, an event keeps it so if and
      only if it does not send a request out under a key that still has an unanswered one. No relay is trusted here. */
  lemma AttributionIsExact(trace: seq<Moment>, events: seq<Event>, i: nat)
    requires Traced(trace, events) && i < |events| && Attributed(trace[i].table)
    ensures Attributed(trace[i + 1].table) <==> Tidy(trace[i], events[i])
  {
    hide Sound, Follows, Attributed, Tidy;
    StepExactly(trace[i], events[i], trace[i + 1]);
  }

  lemma StepExactly(m: Moment, event: Event, n: Moment)
    requires Sound(m) && Follows(m, event, n) && Attributed(m.table)
    ensures Attributed(n.table) <==> Tidy(m, event)
  {
    hide Ended, TableOk, Issued, Flushed, Attributed;
    EndedFaithful(m.table, {}, Disconnected);
    EndedFaithful(m.table, {}, ClientStopped);
    if event.HostIssues? {
      IssuedExactly(m, event, n);
    } else if Heard(m, event) {
      HeardAttributed(m, event, n);
    } else if event.RequestTimer? && event.key in m.table.pending {
      FewerAttributed(m.table, n.table);
    } else if m.link.phase != Ready {
      FlushedFaithful(m.table, {});
    }
  }

  lemma HeardAttributed(m: Moment, event: Event, n: Moment)
    requires Sound(m) && Heard(m, event) && Follows(m, event, n) && Attributed(m.table)
    ensures Attributed(n.table)
  {
    hide TableOk, Attributed, Ended;
    EndedFaithful(m.table, {}, Disconnected);
    if n.link.phase == Ready {
      HeardFewer(m, event, n);
      FewerAttributed(m.table, n.table);
    }
  }

  /** In any run a reply settles the request it answers, or nothing, if and only if that request is not orphaned under
      a key another request holds. */
  lemma ReplySettlesItsOwnExactly(trace: seq<Moment>, events: seq<Event>, i: nat, w: Sent)
    requires Traced(trace, events) && i < |events| && Heard(trace[i], events[i])
    requires events[i].frame.ReplyFrame? && events[i].answers == Some(w) && Answers(trace[i].table, w)
    requires w.key == Key(SpaceOf(events[i].frame.kind), events[i].frame.token)
    ensures SettlesItsOwn(trace[i], events[i], trace[i + 1])
            <==> !(w.key in trace[i].table.pending && Orphaned(trace[i].table, w))
  {
    hide TableOk, Orphaned, SettledKey, Ended;
    assert Sound(trace[i]) && Follows(trace[i], events[i], trace[i + 1]);
    ReplySettlesExactly(trace[i].table, w, Replied);
  }

  /** The same for an error that names a token: the search must also come to the request it answers. That request may
      long have been settled, by its own timeout for one. */
  lemma ErrorSettlesItsOwnExactly(trace: seq<Moment>, events: seq<Event>, i: nat, w: Sent)
    requires Traced(trace, events) && i < |events| && Heard(trace[i], events[i])
    requires NamedError(events[i].frame) && events[i].answers == Some(w) && Answers(trace[i].table, w)
    requires w.key.token == events[i].frame.named.value
    ensures SettlesItsOwn(trace[i], events[i], trace[i + 1])
            <==> && Finds(trace[i].table.pending, w.key)
                 && !(w.key in trace[i].table.pending && Orphaned(trace[i].table, w))
  {
    hide TableOk, Orphaned, SettledEither, Ended, Finds;
    assert Sound(trace[i]) && Follows(trace[i], events[i], trace[i + 1]);
    ErrorSettlesExactly(trace[i].table, w, Rejected);
  }

  lemma HeardSettles(m: Moment, event: Event, n: Moment)
    requires Sound(m) && Follows(m, event, n) && Attributed(m.table) && Answering(m, event) && Found(m, event)
    ensures SettlesItsOwn(m, event, n)
  {
    if Heard(m, event) && (event.frame.ReplyFrame? || NamedError(event.frame)) {
      hide TableOk, Ended, SettledAll;
      var w := event.answers.value;
      assert Answers(m.table, w);
      if event.frame.ReplyFrame? {
        assert n.table.outcomes == SettledKey(m.table, w.key, Replied).outcomes;
      } else {
        assert n.table.outcomes == SettledEither(m.table, w.key.token, Rejected).outcomes;
      }
    }
  }

  /** The exact condition over whole runs. With a relay that answers each written request at most once, and sends an
      error that names nothing only about the one reservation pending, every reply and every named error settles the
      request it answers if and only if every named error is found. Nothing is asked of the host. */
  lemma EveryReplySettlesExactly(trace: seq<Moment>, events: seq<Event>)
    requires Traced(trace, events) && trace[0] == FRESH
    requires forall j :: 0 <= j < |events| ==> Answering(trace[j], events[j]) && Specific(trace[j], events[j])
    ensures (forall j :: 0 <= j < |events| ==> SettlesItsOwn(trace[j], events[j], trace[j + 1]))
            <==> forall j :: 0 <= j < |events| ==> Found(trace[j], events[j])
  {
    hide Follows, Sound, Specific, SettlesItsOwn, TableOk, Attributed;
    if forall j :: 0 <= j < |events| ==> Found(trace[j], events[j]) {
      forall j | 0 <= j < |events| ensures SettlesItsOwn(trace[j], events[j], trace[j + 1]) {
        FoundSettles(trace, events, j);
      }
    }
    if forall j :: 0 <= j < |events| ==> SettlesItsOwn(trace[j], events[j], trace[j + 1]) {
      forall j | 0 <= j < |events| ensures Found(trace[j], events[j]) {
        if Heard(trace[j], events[j]) && NamedError(events[j].frame) {
          ErrorSettlesItsOwnExactly(trace, events, j, events[j].answers.value);
        }
      }
    }
  }

  lemma FoundSettles(trace: seq<Moment>, events: seq<Event>, i: nat)
    requires Traced(trace, events) && trace[0] == FRESH && i < |events|
    requires forall j :: 0 <= j <= i ==>
               Answering(trace[j], events[j]) && Found(trace[j], events[j]) && Specific(trace[j], events[j])
    ensures Attributed(trace[i].table) && SettlesItsOwn(trace[i], events[i], trace[i + 1])
  {
    assert Sound(trace[i]);
    hide Follows, Answering, Found, Specific, Attributed, SettlesItsOwn, TableOk;
    assert Faithful(trace[0].table, EVERY_SPACE);
    RunFaithful(trace, events, EVERY_SPACE, i);
    FaithfulAttributed(trace[i].table);
    HeardSettles(trace[i], events[i], trace[i + 1]);
  }

  /** So with such a relay that also names errors only by tokens of one space, every reply and every named error
      settles the request it answers. */
  lemma RepliesSettleWhatTheyAnswer(trace: seq<Moment>, events: seq<Event>, i: nat)
    requires Traced(trace, events) && trace[0] == FRESH && i < |events|
    requires forall j :: 0 <= j <= i ==>
               Answering(trace[j], events[j]) && Unambiguous(trace[j], events[j]) && Specific(trace[j], events[j])
    ensures Attributed(trace[i].table) && SettlesItsOwn(trace[i], events[i], trace[i + 1])
  {
    hide Follows, Sound, Answering, Found, Unambiguous, Specific, Attributed, SettlesItsOwn;
    forall j | 0 <= j <= i ensures Found(trace[j], events[j]) {
      UnambiguousFound(trace[j], events[j]);
    }
    FoundSettles(trace, events, i);
  }

  /** A request outside the reservations is always tidy. */
  lemma FaithfulTidy(m: Moment, event: Event)
    requires Faithful(m.table, {ListSpace, DeliverySpace}) && event.HostIssues? && event.kind != ReserveRoom
    ensures Tidy(m, event)
  {
    var key := Key(SpaceOf(event.kind), event.token);
    if Takes(m.table, Ready, event.token, event.kind, event.encodable) {
      forall w | Answers(m.table, w) ensures w.key != key {
        assert w.key.space in {ListSpace, DeliverySpace} ==> Awaited(m.table, w);
      }
    }
  }

  lemma {:induction false} RunAttributed(trace: seq<Moment>, events: seq<Event>, i: nat)
    requires Traced(trace, events) && trace[0] == FRESH && i < |trace|
    requires forall j :: 0 <= j < i ==> Tidy(trace[j], events[j])
    ensures Attributed(trace[i].table)
  {
    hide Sound, Follows, Tidy;
    if i > 0 {
      hide Attributed;
      RunAttributed(trace, events, i - 1);
      AttributionIsExact(trace, events, i - 1);
    }
  }

  /** Even if an error that names nothing refuses several reservations at once, the same holds as long as no
      reservation reuses a token that is still unanswered; the client draws a fresh token for each. */
  lemma RepliesSettleDespiteNamelessErrors(trace: seq<Moment>, events: seq<Event>, i: nat)
    requires Traced(trace, events) && trace[0] == FRESH && i < |events|
    requires forall j :: 0 <= j <= i ==> Answering(trace[j], events[j]) && Found(trace[j], events[j])
    requires forall j :: 0 <= j < i && events[j].HostIssues? && events[j].kind == ReserveRoom ==>
               Tidy(trace[j], events[j])
    ensures Attributed(trace[i].table) && SettlesItsOwn(trace[i], events[i], trace[i + 1])
  {
    var spaces := {ListSpace, DeliverySpace};
    assert Faithful(trace[0].table, spaces);
    forall j | 0 <= j < i ensures Tidy(trace[j], events[j]) {
      if events[j].HostIssues? && events[j].kind != ReserveRoom {
        RunFaithful(trace, events, spaces, j);
        FaithfulTidy(trace[j], events[j]);
      }
    }
    hide Follows, Sound, Answering, Found, Tidy, Attributed, SettlesItsOwn;
    RunAttributed(trace, events, i);
    HeardSettles(trace[i], events[i], trace[i + 1]);
  }

  // Three runs in which a relay that answers each request at most once still has answers settle the wrong one

  const UP := Link(Ready, false, Some(0), false, None, 1)
  const LIST_T := Key(ListSpace, "t")
  const SEND_T := Key(DeliverySpace, "t")
  const RESERVE_T := Key(ReserveSpace, "t")

  const OPENING: seq<Event> := [HostStarts(false), Arrives(0, ReadyFrame, None, None)]

  /** A list and a send share a token; the send is refused by name; the list is asked for again. */
  const SHARED_TOKEN: seq<Event> :=
    OPENING
    + [HostIssues("t", ListPeers, true, true),
       HostIssues("t", SendOne, true, true),
       Arrives(0, ErrorFrame(OtherCode, Some("t")), None, Some(Sent(1, SEND_T))),
       HostIssues("t", ListPeers, true, true),
       Arrives(0, ReplyFrame(ListPeers, "t"), None, Some(Sent(0, LIST_T)))]

  /** A reservation is refused by an error that names nothing and answers nothing; its token is used again. */
  const REUSED_RESERVATION: seq<Event> :=
    OPENING
    + [HostIssues("t", ReserveRoom, true, true),
       Arrives(0, ErrorFrame(UnsupportedFrame, None), None, None),
       HostIssues("t", ReserveRoom, true, true),
       Arrives(0, ReplyFrame(ReserveRoom, "t"), None, Some(Sent(0, RESERVE_T)))]

  /** A send times out; a list takes its token in another space; the late error about the send names it. */
  const LATE_ERROR: seq<Event> :=
    OPENING
    + [HostIssues("t", SendOne, true, true),
       RequestTimer(SEND_T),
       HostIssues("t", ListPeers, true, true),
       Arrives(0, ErrorFrame(OtherCode, Some("t")), None, Some(Sent(0, SEND_T)))]

  lemma Opens(trace: seq<Moment>, events: seq<Event>)
    requires Traced(trace, events) && trace[0] == FRESH && OPENING <= events
    ensures trace[2].link == UP && trace[2].table == FRESH.table
  {
    assert events[0] == HostStarts(false) && events[1] == Arrives(0, ReadyFrame, None, None);
    assert Follows(trace[0], events[0], trace[1]) && Follows(trace[1], events[1], trace[2]);
    assert trace[2].table == Flushed(FRESH.table, {});
    FlushNone(FRESH.table);
  }

  function Out(t: Table, key: Key, kind: Kind): Table {
    t.(issued := t.issued + 1,
       pending := t.pending[key := Pending(t.issued, kind, false)],
       timers := t.timers + {t.issued},
       written := t.written + {Sent(t.issued, key)})
  }

  lemma Issues(m: Moment, token: string, kind: Kind, n: Moment)
    requires m.link == UP && Follows(m, HostIssues(token, kind, true, true), n)
    requires Key(SpaceOf(kind), token) !in m.table.pending && Key(SpaceOf(kind), token) !in m.table.timedOut
    ensures n.link == UP && n.table == Out(m.table, Key(SpaceOf(kind), token), kind)
  {
    var key := Key(SpaceOf(kind), token);
    assert WrittenOut(Held(m.table, key, kind), key).pending == Out(m.table, key, kind).pending;
  }

  lemma Hears(m: Moment, frame: ServerFrame, answers: Option<Sent>, n: Moment)
    requires m.link == UP && Follows(m, Arrives(0, frame, None, answers), n)
    requires frame.ReplyFrame? || (frame.ErrorFrame? && frame.code != PeerReplaced)
    ensures n.link == UP && Dispatched(m.table, true, frame, answers, n.table)
  {
    hide Dispatched;
  }

  lemma SharedTables(t: Table, s: Table)
    requires t == Out(Out(FRESH.table, LIST_T, ListPeers), SEND_T, SendOne)
    requires Dispatched(t, true, ErrorFrame(OtherCode, Some("t")), Some(Sent(1, SEND_T)), s)
    ensures Answers(t, Sent(1, SEND_T)) && s.outcomes == map[0 := Rejected]
    ensures s.issued == 2 && s.pending == map[SEND_T := Pending(1, SendOne, false)] && s.timedOut == {}
    ensures s.written == {Sent(0, LIST_T), Sent(1, SEND_T)} && s.answered == {1}
  {
    assert t.pending == map[LIST_T := Pending(0, ListPeers, false), SEND_T := Pending(1, SendOne, false)];
    assert s == Noted(SettledKey(t, LIST_T, Rejected), Some(Sent(1, SEND_T)));
  }

  lemma SharedSteps(a: Moment, b: Moment, c: Moment, d: Moment, e: Moment, f: Moment)
    requires a.link == UP && a.table == FRESH.table
    requires Follows(a, HostIssues("t", ListPeers, true, true), b)
    requires Follows(b, HostIssues("t", SendOne, true, true), c)
    requires Follows(c, Arrives(0, ErrorFrame(OtherCode, Some("t")), None, Some(Sent(1, SEND_T))), d)
    requires Follows(d, HostIssues("t", ListPeers, true, true), e)
    requires Follows(e, Arrives(0, ReplyFrame(ListPeers, "t"), None, Some(Sent(0, LIST_T))), f)
    ensures Answers(c.table, Sent(1, SEND_T)) && d.table.outcomes == map[0 := Rejected]
    ensures Answers(e.table, Sent(0, LIST_T)) && f.table.outcomes == map[0 := Rejected, 2 := Replied]
  {
    hide Follows, Dispatched;
    Issues(a, "t", ListPeers, b);
    Issues(b, "t", SendOne, c);
    Hears(c, ErrorFrame(OtherCode, Some("t")), Some(Sent(1, SEND_T)), d);
    SharedTables(c.table, d.table);
    Issues(d, "t", ListPeers, e);
    Hears(e, ReplyFrame(ListPeers, "t"), Some(Sent(0, LIST_T)), f);
    LateReply(e.table, ListPeers, "t", Some(Sent(0, LIST_T)), f.table);
  }

  lemma SharedTokenMisleads(trace: seq<Moment>)
    requires Traced(trace, SHARED_TOKEN) && trace[0] == FRESH
    ensures Answers(trace[4].table, Sent(1, SEND_T)) && trace[5].table.outcomes == map[0 := Rejected]
    ensures Answers(trace[6].table, Sent(0, LIST_T)) && trace[7].table.outcomes == map[0 := Rejected, 2 := Replied]
  {
    hide Follows, Sound, Answers;
    Opens(trace, SHARED_TOKEN);
    assert forall i :: 0 <= i < 7 ==> Follows(trace[i], SHARED_TOKEN[i], trace[i + 1]);
    SharedSteps(trace[2], trace[3], trace[4], trace[5], trace[6], trace[7]);
  }

  lemma LateReply(t: Table, kind: Kind, token: string, answers: Option<Sent>, s: Table)
    requires Key(SpaceOf(kind), token) in t.pending && Dispatched(t, true, ReplyFrame(kind, token), answers, s)
    ensures s.outcomes == t.outcomes[t.pending[Key(SpaceOf(kind), token)].request := Replied]
  {
  }

  lemma ReservedTables(t: Table, s: Table)
    requires t == Out(FRESH.table, RESERVE_T, ReserveRoom)
    requires Dispatched(t, true, ErrorFrame(UnsupportedFrame, None), None, s)
    ensures s.outcomes == map[0 := Rejected] && s.issued == 1 && s.pending == map[] && s.timedOut == {}
    ensures s.written == {Sent(0, RESERVE_T)} && s.answered == {}
  {
    assert t.pending == map[RESERVE_T := Pending(0, ReserveRoom, false)];
    assert Reserves(t.pending) == {RESERVE_T};
    assert Under(t.pending, {RESERVE_T}) == {0} by { assert t.pending[RESERVE_T].request == 0; }
  }

  lemma ReusedSteps(a: Moment, b: Moment, c: Moment, d: Moment, e: Moment)
    requires a.link == UP && a.table == FRESH.table
    requires Follows(a, HostIssues("t", ReserveRoom, true, true), b)
    requires Follows(b, Arrives(0, ErrorFrame(UnsupportedFrame, None), None, None), c)
    requires Follows(c, HostIssues("t", ReserveRoom, true, true), d)
    requires Follows(d, Arrives(0, ReplyFrame(ReserveRoom, "t"), None, Some(Sent(0, RESERVE_T))), e)
    ensures Answers(d.table, Sent(0, RESERVE_T)) && e.table.outcomes == map[0 := Rejected, 1 := Replied]
  {
    hide Follows, Dispatched;
    Issues(a, "t", ReserveRoom, b);
    Hears(b, ErrorFrame(UnsupportedFrame, None), None, c);
    ReservedTables(b.table, c.table);
    Issues(c, "t", ReserveRoom, d);
    Hears(d, ReplyFrame(ReserveRoom, "t"), Some(Sent(0, RESERVE_T)), e);
    LateReply(d.table, ReserveRoom, "t", Some(Sent(0, RESERVE_T)), e.table);
  }

  lemma ReusedReservationMisleads(trace: seq<Moment>)
    requires Traced(trace, REUSED_RESERVATION) && trace[0] == FRESH
    ensures Answers(trace[5].table, Sent(0, RESERVE_T)) && trace[6].table.outcomes == map[0 := Rejected, 1 := Replied]
  {
    hide Follows, Sound, Answers;
    Opens(trace, REUSED_RESERVATION);
    assert forall i :: 0 <= i < 6 ==> Follows(trace[i], REUSED_RESERVATION[i], trace[i + 1]);
    ReusedSteps(trace[2], trace[3], trace[4], trace[5], trace[6]);
  }

  lemma ExpiredTables(t: Table, s: Table)
    requires t == Out(FRESH.table, SEND_T, SendOne) && s == Expired(t, SEND_T)
    ensures s.outcomes == map[0 := TimedOut] && s.issued == 1 && s.pending == map[] && s.timedOut == {SEND_T}
    ensures s.written == {Sent(0, SEND_T)} && s.answered == {}
  {
    assert t.pending == map[SEND_T := Pending(0, SendOne, false)];
  }

  lemma LateErrorTables(t: Table, u: Table, s: Table)
    requires t.outcomes == map[0 := TimedOut] && t.issued == 1 && t.pending == map[] && t.timedOut == {SEND_T}
    requires t.written == {Sent(0, SEND_T)} && t.answered == {} && u == Out(t, LIST_T, ListPeers)
    requires Dispatched(u, true, ErrorFrame(OtherCode, Some("t")), Some(Sent(0, SEND_T)), s)
    ensures Answers(u, Sent(0, SEND_T)) && !Orphaned(u, Sent(0, SEND_T)) && Attributed(u)
    ensures s.outcomes == map[0 := TimedOut, 1 := Rejected]
  {
    assert u.pending == map[LIST_T := Pending(1, ListPeers, false)];
    assert s == Noted(SettledKey(u, LIST_T, Rejected), Some(Sent(0, SEND_T)));
  }

  lemma LateErrorSteps(a: Moment, b: Moment, c: Moment, d: Moment, e: Moment)
    requires a.link == UP && a.table == FRESH.table
    requires Follows(a, HostIssues("t", SendOne, true, true), b)
    requires Follows(b, RequestTimer(SEND_T), c)
    requires Follows(c, HostIssues("t", ListPeers, true, true), d)
    requires Follows(d, Arrives(0, ErrorFrame(OtherCode, Some("t")), None, Some(Sent(0, SEND_T))), e)
    ensures Answers(d.table, Sent(0, SEND_T)) && !Orphaned(d.table, Sent(0, SEND_T)) && Attributed(d.table)
    ensures e.table.outcomes == map[0 := TimedOut, 1 := Rejected]
  {
    Issues(a, "t", SendOne, b);
    assert c == b.(table := Expired(b.table, SEND_T));
    hide Follows, Dispatched, Expired, Attributed, Orphaned;
    ExpiredTables(b.table, c.table);
    Issues(c, "t", ListPeers, d);
    Hears(d, ErrorFrame(OtherCode, Some("t")), Some(Sent(0, SEND_T)), e);
    LateErrorTables(c.table, d.table, e.table);
  }

  /** Here every key is held by the request its answers are for and nothing is orphaned, and still the error goes
      wrong. */
  lemma LateErrorMisleads(trace: seq<Moment>)
    requires Traced(trace, LATE_ERROR) && trace[0] == FRESH
    ensures Answers(trace[5].table, Sent(0, SEND_T)) && !Orphaned(trace[5].table, Sent(0, SEND_T))
    ensures Attributed(trace[5].table) && trace[6].table.outcomes == map[0 := TimedOut, 1 := Rejected]
  {
    hide Follows, Sound, Answers, Orphaned, Attributed;
    Opens(trace, LATE_ERROR);
    assert forall i :: 0 <= i < 6 ==> Follows(trace[i], LATE_ERROR[i], trace[i + 1]);
    LateErrorSteps(trace[2], trace[3], trace[4], trace[5], trace[6]);
  }

  /** All three runs happen: a new client goes through each. */
  method Mislead() returns (shared: seq<Event>, reused: seq<Event>, late: seq<Event>,
                            ghost first: seq<Moment>, ghost second: seq<Moment>, ghost third: seq<Moment>)
    ensures shared == SHARED_TOKEN && Traced(first, shared) && first[0] == FRESH
    ensures first[7].table.outcomes == map[0 := Rejected, 2 := Replied]
    ensures reused == REUSED_RESERVATION && Traced(second, reused) && second[0] == FRESH
    ensures second[6].table.outcomes == map[0 := Rejected, 1 := Replied]
    ensures late == LATE_ERROR && Traced(third, late) && third[0] == FRESH
    ensures third[6].table.outcomes == map[0 := TimedOut, 1 := Rejected]
  {
    hide Traced;
    shared, reused, late := SHARED_TOKEN, REUSED_RESERVATION, LATE_ERROR;
    var client := new Client();
    first := client.Run(shared);
    SharedTokenMisleads(first);
    client := new Client();
    second := client.Run(reused);
    ReusedReservationMisleads(second);
    client := new Client();
    third := client.Run(late);
    LateErrorMisleads(third);
  }
}
