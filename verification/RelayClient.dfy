/**
 The extension's relay client: one socket or one armed reconnect at a time, the
 timers of a connection, and the requests it carries. Every handler the event
 loop may call is a method, and each runs to its end before the next begins.

 Whether opening a socket or writing to it throws comes in as a parameter. Host
 callbacks are taken not to call back into the client.
 */
module RelayClient {
  import opened Basics
  import opened Correlation

  datatype Phase = Stopped | Connecting | Ready

  datatype ServerFrame =
    | ReadyFrame
    | PongFrame
    | DeliveryFrame
    | ReplyFrame(kind: Kind, token: string)
    | ErrorFrame(code: Code, named: Option<string>)
    | UnknownFrame
    | MalformedFrame

  datatype Code = PeerReplaced | UnsupportedFrame | OtherCode

  /** What the event loop may deliver next. */
  datatype Event =
    | HostStarts(throws: bool)
    | HostStops
    | HostIssues(token: string, kind: Kind, encodable: bool, ok: bool)
    | SocketUp(from: nat, ok: bool)
    | Arrives(from: nat, frame: ServerFrame, failAt: Option<nat>, answers: Option<Sent>)
    | SocketDown(from: nat)
    | ReconnectTimer(throws: bool)
    | HandshakeTimer
    | HeartbeatTimer(ok: bool)
    | RequestTimer(key: Key)

  /** The connection: its phase, its socket, and the timers that can end or start one. */
  datatype Link = Link(
    phase: Phase, stopped: bool, socket: Option<nat>, reconnect: bool, handshake: Option<nat>, nextSocket: nat)

  /** What a connection that ended leaves: nothing, and an armed reconnect unless the client is stopped. */
  function Cut(l: Link): Link {
    Link(if l.stopped then Stopped else Connecting, l.stopped, None, !l.stopped, None, l.nextSocket)
  }

  /** What an attempt to connect leaves: a new socket, or an armed reconnect. */
  function Opened(l: Link, throws: bool): Link {
    if throws then Link(Connecting, false, None, true, None, l.nextSocket)
    else Link(Connecting, false, Some(l.nextSocket), false, None, l.nextSocket + 1)
  }

  /** The client at one moment. */
  datatype Moment = Moment(table: Table, link: Link, heartbeat: bool)

  /** Never stuck, and never half stopped: a running client has a socket or an armed reconnect and not both, and a
      stopped one has no socket, no timer and no pending request. */
  ghost predicate Sound(m: Moment) {
    && TableOk(m.table)
    && m.link.stopped == m.link.phase.Stopped?
    && (!m.link.stopped ==> (m.link.socket.Some? <==> !m.link.reconnect))
    && (m.link.stopped ==>
          m.link.socket.None? && !m.link.reconnect && m.table.pending == map[] && m.table.timers == {})
    && (m.link.handshake.Some? ==> m.link.handshake == m.link.socket)
    && (m.heartbeat ==> m.link.socket.Some?)
    && (m.link.phase == Ready ==>
          m.link.socket.Some? && forall k :: k in m.table.pending ==> !m.table.pending[k].unwritten)
    && (m.link.phase != Ready ==> m.table.written == {} && m.table.timedOut == {})
  }

  /** The connection is gone, and with it every request it carried. */
  ghost predicate Closed(m: Moment, n: Moment) {
    n == Moment(Ended(m.table, Disconnected), Cut(m.link), false)
  }

  /** A request that is taken on: not refused at once. */
  predicate Takes(t: Table, phase: Phase, token: string, kind: Kind, encodable: bool) {
    var key := Key(SpaceOf(kind), token);
    phase != Stopped && key !in t.pending && key !in t.timedOut && encodable
  }

  /** What each event does. Events of a socket that is not the current one do nothing. */
  ghost predicate Follows(m: Moment, event: Event, n: Moment) {
    match event
    case HostStarts(throws) =>
      if m.link.stopped then n == Moment(m.table, Opened(m.link, throws), false) else n == m
    case HostStops =>
      n == Moment(Ended(m.table, ClientStopped), Link(Stopped, true, None, false, None, m.link.nextSocket), false)
    case HostIssues(token, kind, encodable, ok) =>
      && Issued(m.table, m.link.phase, token, kind, encodable, ok, n.table)
      && n.link == if Takes(m.table, m.link.phase, token, kind, encodable) && m.link.phase == Ready && !ok
                   then Cut(m.link) else m.link
    case SocketUp(from, ok) =>
      if m.link.socket != Some(from) then n == m
      else if ok then n == Moment(m.table, m.link.(handshake := Some(from)), true)
      else Closed(m, n)
    case Arrives(from, frame, failAt, answers) =>
      if m.link.socket != Some(from) then n == m
      else
        && Dispatched(m.table, m.link.phase == Ready, frame, answers, n.table)
        && Linked(m.link, frame, n.link)
        && (frame.ReadyFrame? ==> Readied(m, failAt, n))
    case SocketDown(from) => if m.link.socket != Some(from) then n == m else Closed(m, n)
    case ReconnectTimer(throws) =>
      if m.link.reconnect then n == Moment(m.table, Opened(m.link, throws), false) else n == m
    case HandshakeTimer => if m.link.handshake.Some? then Closed(m, n) else n == m
    case HeartbeatTimer(ok) => if m.heartbeat && m.link.phase == Ready && !ok then Closed(m, n) else n == m
    case RequestTimer(key) => n == m.(table := if key in m.table.pending then Expired(m.table, key) else m.table)
  }

  /** The first `ready` flushes what waited for it, unless a write throws; a second one ends the connection. */
  ghost predicate Readied(m: Moment, failAt: Option<nat>, n: Moment) {
    if m.link.phase != Ready && n.link.phase == Ready
    then n.link == m.link.(phase := Ready, handshake := None) && n.table == Flushed(m.table, m.table.pending.Keys)
    else Closed(m, n) && (failAt.None? ==> m.link.phase == Ready)
  }

  /** What a frame does to the connection. */
  ghost predicate Linked(l: Link, frame: ServerFrame, k: Link) {
    match frame
    case ReadyFrame =>
      || k == Cut(l)
      || (l.phase != Ready && k == l.(phase := Ready, handshake := None))
    case MalformedFrame => k == Cut(l)
    case ErrorFrame(PeerReplaced, _) => k == Cut(l.(stopped := true))
    case _ => k == l
  }

  class Client {
    var pending: map<Key, Pending>
    var timedOut: set<Key>
    var timers: set<nat>
    /** Stands for the identity of an entry and of its timer. */
    var issued: nat
    var phase: Phase
    var stopped: bool
    var socket: Option<nat>
    var listening: Option<nat>
    var nextSocket: nat
    var reconnect: bool
    var handshake: Option<nat>
    var heartbeat: bool
    ghost var outcomes: map<nat, Outcome>
    ghost var written: set<Sent>
    ghost var answered: set<nat>

    ghost function View(): Table
      reads this
    {
      Table(pending, timedOut, timers, issued, outcomes, written, answered)
    }

    ghost function Line(): Link
      reads this
    {
      Link(phase, stopped, socket, reconnect, handshake, nextSocket)
    }

    /** What holds of the connection's parts even while it is being torn down. */
    ghost predicate Wired()
      reads this
    {
      && TableOk(View())
      && listening == socket
      && (socket.Some? ==> !reconnect && socket.value < nextSocket)
      && (handshake.Some? ==> handshake == socket)
      && (heartbeat ==> socket.Some?)
      && (phase == Ready ==> socket.Some?)
      && (phase != Ready ==> written == {} && timedOut == {})
    }

    ghost predicate AllWritten()
      reads this
    {
      forall k :: k in pending ==> !pending[k].unwritten
    }

    /** A running client has a socket or an armed reconnect, and not both; a stopped one has nothing. */
    ghost predicate Valid()
      reads this
    {
      && Wired()
      && stopped == phase.Stopped?
      && (phase == Ready ==> AllWritten())
      && (!stopped ==> (socket.Some? <==> !reconnect))
      && (stopped ==> socket.None? && !reconnect && pending == map[] && timers == {})
    }

    constructor ()
      ensures Valid() && Now() == FRESH
    {
      pending, timedOut, timers := map[], {}, {};
      phase, stopped, socket, listening, nextSocket := Stopped, true, None, None, 0;
      reconnect, handshake, heartbeat := false, None, false;
      issued, outcomes, written, answered := 0, map[], {}, {};
    }

    // Settling

    method SettleKey(key: Key, outcome: Outcome) returns (settled: bool)
      modifies this`pending, this`timers, this`outcomes
      ensures View() == SettledKey(old(View()), key, outcome)
      ensures settled == (key in old(pending))
    {
      if key !in pending {
        return false;
      }
      var entry := pending[key];
      pending := pending - {key};
      timers := timers - {entry.request};
      outcomes := outcomes[entry.request := outcome];
      return true;
    }

    method FailPending(outcome: Outcome)
      modifies this`pending, this`timers, this`outcomes
      ensures View() == SettledAll(old(View()), old(pending).Keys, outcome)
      ensures pending == map[]
    {
      SettleNone(View(), outcome);
      var keys := pending.Keys;
      var todo := keys;
      while todo != {}
        invariant todo <= keys
        invariant View() == SettledAll(old(View()), keys - todo, outcome)
        decreases todo
      {
        var key :| key in todo;
        SettleOneMore(old(View()), keys - todo, key, outcome);
        assert keys - todo + {key} == keys - (todo - {key});
        todo := todo - {key};
        var _ := SettleKey(key, outcome);
      }
      assert keys - todo == keys;
    }

    // Connection lifecycle

    method ScheduleReconnect()
      modifies this`reconnect
      ensures reconnect == (old(reconnect) || !stopped)
    {
      if !stopped {
        reconnect := true;
      }
    }

    method OpenConnection(throws: bool)
      requires Wired() && socket.None? && !stopped && phase != Ready
      modifies this`reconnect, this`phase, this`socket, this`listening, this`nextSocket
      ensures Valid() && Line() == Opened(old(Line()), throws)
    {
      reconnect := false;
      phase := Connecting;
      if throws {
        ScheduleReconnect();
        return;
      }
      socket := Some(nextSocket);
      listening := socket;
      nextSocket := nextSocket + 1;
    }

    /** Ends the connection the socket belongs to; a stale socket ends nothing. */
    method CloseConnection(from: nat)
      requires Wired()
      modifies this
      ensures Some(from) != old(socket) ==> unchanged(this)
      ensures Some(from) == old(socket) ==>
                Valid() && Line() == Cut(old(Line())) && !heartbeat && View() == Ended(old(View()), Disconnected)
    {
      if socket != Some(from) {
        return;
      }
      hide TableOk, SettledAll;
      EndedOk(View(), Disconnected);
      Detach(Disconnected);
      phase := if stopped then Stopped else Connecting;
      ScheduleReconnect();
    }

    /** Lets go of the socket, its listeners, its timers, and every request it carried. */
    method Detach(outcome: Outcome)
      modifies this`pending, this`timers, this`outcomes, this`timedOut, this`written, this`answered
      modifies this`socket, this`listening, this`handshake, this`heartbeat
      ensures socket.None? && listening.None? && handshake.None? && !heartbeat
      ensures View() == Ended(old(View()), outcome) && pending == map[]
    {
      hide SettledAll, Ended;
      EndedIs(View(), outcome);
      timedOut := {};
      written, answered := {}, {};
      FailPending(outcome);
      socket, listening, handshake, heartbeat := None, None, None, false;
    }

    method Start(throws: bool)
      requires Valid()
      modifies this
      ensures Valid() && View() == old(View())
      ensures if old(stopped) then Line() == Opened(old(Line()), throws) && !heartbeat else unchanged(this)
    {
      if !stopped {
        return;
      }
      stopped := false;
      OpenConnection(throws);
    }

    /** Stops for good: no socket, no timer, no pending request. */
    method Stop()
      requires Valid()
      modifies this
      ensures Valid() && Line() == Link(Stopped, true, None, false, None, old(nextSocket)) && !heartbeat
      ensures View() == Ended(old(View()), ClientStopped)
    {
      hide TableOk, SettledAll;
      EndedOk(View(), ClientStopped);
      stopped := true;
      phase := Stopped;
      reconnect := false;
      Detach(ClientStopped);
    }

    /** Writes to the socket; a throw ends the connection. */
    method WriteEncoded(ok: bool)
      requires Wired()
      modifies this
      ensures ok || old(socket).None? ==>
                && Wired() && View() == old(View()) && Line() == old(Line())
                && heartbeat == (old(heartbeat) || socket.Some?)
      ensures !ok && old(socket).Some? ==>
                Valid() && Line() == Cut(old(Line())) && !heartbeat && View() == Ended(old(View()), Disconnected)
    {
      if socket.None? {
        return;
      }
      if !ok {
        CloseConnection(socket.value);
        return;
      }
      heartbeat := true;
    }

    // Requests

    method Refuse(outcome: Outcome)
      requires TableOk(View())
      modifies this`issued, this`outcomes
      ensures View() == Refused(old(View()), outcome) && TableOk(View())
    {
      RefusedOk(View(), outcome);
      outcomes := outcomes[issued := outcome];
      issued := issued + 1;
    }

    method Hold(key: Key, kind: Kind)
      requires TableOk(View()) && key !in pending && key !in timedOut && key.space == SpaceOf(kind)
      modifies this`issued, this`pending, this`timers
      ensures View() == Held(old(View()), key, kind) && TableOk(View())
    {
      HeldOk(View(), key, kind);
      pending := pending[key := Pending(issued, kind, true)];
      timers := timers + {issued};
      issued := issued + 1;
    }

    method MarkWritten(key: Key)
      requires TableOk(View()) && key in pending
      modifies this`pending, this`written
      ensures View() == WrittenOut(old(View()), key) && TableOk(View())
    {
      WrittenOutOk(View(), key);
      var entry := pending[key];
      pending := pending[key := entry.(unwritten := false)];
      written := written + {Sent(entry.request, key)};
    }

    /** Makes a request: refused at once, held until the connection is ready, or written. */
    method Issue(token: string, kind: Kind, encodable: bool, ok: bool)
      requires Valid()
      modifies this
      ensures Valid() && Issued(old(View()), old(phase), token, kind, encodable, ok, View())
      ensures Line() == if Takes(old(View()), old(phase), token, kind, encodable) && old(phase) == Ready && !ok
                        then Cut(old(Line())) else old(Line())
    {
      hide TableOk, Ended;
      if stopped {
        Refuse(NotRunning);
        return;
      }
      var key := Key(SpaceOf(kind), token);
      if key in pending {
        Refuse(AlreadyOutstanding);
        return;
      }
      if key in timedOut {
        Refuse(TokenSpent);
        return;
      }
      if !encodable {
        Refuse(Unencodable);
        return;
      }
      Hold(key, kind);
      if phase == Ready {
        MarkWritten(key);
        WriteEncoded(ok);
      }
    }

    /** Writes what was issued before the connection was ready; one of the writes may throw. */
    method FlushUnwritten(failAt: Option<nat>) returns (closed: bool)
      requires Wired() && phase == Ready
      modifies this
      ensures !closed ==>
                Wired() && Line() == old(Line()) && View() == Flushed(old(View()), old(pending).Keys)
      ensures closed ==>
                Valid() && Line() == Cut(old(Line())) && !heartbeat && View() == Ended(old(View()), Disconnected)
      ensures failAt.None? ==> !closed
    {
      hide TableOk, Ended, Flushed;
      ghost var t := View();
      FlushNone(t);
      var keys := pending.Keys;
      var todo := keys;
      var writes := 0;
      assert keys - todo == {};
      while todo != {}
        invariant todo <= keys && keys == t.pending.Keys && Wired() && View() == Flushed(t, keys - todo)
        invariant Line() == old(Line()) && socket.Some?
        decreases todo
      {
        var key :| key in todo;
        FlushKeeps(t, keys - todo, key);
        FlushOneMore(t, keys - todo, key);
        assert keys - todo + {key} == keys - (todo - {key});
        todo := todo - {key};
        if pending[key].unwritten {
          MarkWritten(key);
          EndedFlushed(t, keys - todo, Disconnected);
          WriteEncoded(failAt != Some(writes));
          if socket.None? {
            return true;
          }
          writes := writes + 1;
        }
      }
      assert keys - todo == keys;
      closed := false;
    }

    /** Settles the first reply space that holds the token. */
    method SettleEither(token: string, outcome: Outcome) returns (settled: bool)
      modifies this`pending, this`timers, this`outcomes
      ensures View() == SettledEither(old(View()), token, outcome)
      ensures settled == Holder(old(pending), token).Some?
    {
      settled := SettleKey(Key(ListSpace, token), outcome);
      if settled {
        return;
      }
      settled := SettleKey(Key(DeliverySpace, token), outcome);
      if settled {
        return;
      }
      settled := SettleKey(Key(ReserveSpace, token), outcome);
    }

    /** Settles every pending reservation alike. */
    method SettleReserves(outcome: Outcome)
      modifies this`pending, this`timers, this`outcomes
      ensures View() == SettledAll(old(View()), Reserves(old(pending)), outcome)
    {
      hide SettledAll, SettledKey;
      ghost var t := View();
      SettleNone(t, outcome);
      var keys := Reserves(pending);
      var todo := keys;
      assert keys - todo == {};
      while todo != {}
        invariant todo <= keys && keys <= t.pending.Keys && View() == SettledAll(t, keys - todo, outcome)
        decreases todo
      {
        var key :| key in todo;
        SettleOneMore(t, keys - todo, key, outcome);
        assert keys - todo + {key} == keys - (todo - {key});
        todo := todo - {key};
        var _ := SettleKey(key, outcome);
      }
      assert keys - todo == keys;
    }

    ghost method Note(answers: Option<Sent>)
      modifies this`answered
      ensures View() == Noted(old(View()), answers)
    {
      if answers.Some? && answers.value in written {
        answered := answered + {answers.value.request};
      }
    }

    /** An error frame: the end of the run, the answer to a request, a missing capability, or a report. */
    method HandleError(from: nat, code: Code, named: Option<string>, ghost answers: Option<Sent>)
      requires Valid() && socket == Some(from)
      modifies this
      ensures Valid()
      ensures Dispatched(old(View()), old(phase) == Ready, ErrorFrame(code, named), answers, View())
      ensures Linked(old(Line()), ErrorFrame(code, named), Line())
      ensures heartbeat == (old(heartbeat) && code != PeerReplaced)
    {
      hide TableOk, Ended, SettledAll, SettledKey, SettledEither;
      if code == PeerReplaced {
        stopped := true;
        CloseConnection(from);
        return;
      }
      if phase == Ready {
        if named.Some? {
          EitherKeeps(View(), named.value, Rejected);
          var _ := SettleEither(named.value, Rejected);
          NotedOk(View(), answers);
          Note(answers);
        } else if code == UnsupportedFrame {
          ReservesKeep(View(), Rejected);
          SettleReserves(Rejected);
          NotedOk(View(), answers);
          Note(answers);
        }
      }
    }

    /** Routes one validated frame, honouring the phase of the connection. */
    method Dispatch(from: nat, frame: ServerFrame, failAt: Option<nat>, ghost answers: Option<Sent>)
      requires Valid() && socket == Some(from)
      modifies this
      ensures Valid()
      ensures Dispatched(old(View()), old(phase) == Ready, frame, answers, View()) && Linked(old(Line()), frame, Line())
      ensures frame.ReadyFrame? ==> Readied(old(Now()), failAt, Now())
    {
      hide TableOk, Ended, SettledAll, SettledKey, SettledEither, Flushed;
      match frame {
        case ReadyFrame =>
          if phase == Ready {
            CloseConnection(from);
          } else {
            BecomeReady(failAt);
          }
        case MalformedFrame => CloseConnection(from);
        case ErrorFrame(code, named) => HandleError(from, code, named, answers);
        case ReplyFrame(kind, token) =>
          if phase == Ready {
            var key := Key(SpaceOf(kind), token);
            KeyKeeps(View(), key, Replied);
            var _ := SettleKey(key, Replied);
            NotedOk(View(), answers);
            Note(answers);
          }
        case PongFrame =>
        case DeliveryFrame =>
        case UnknownFrame =>
      }
    }

    // What the event loop delivers

    /** A frame from a socket; one that is no longer current is ignored. */
    method Receive(from: nat, frame: ServerFrame, failAt: Option<nat>, ghost answers: Option<Sent>)
      requires Valid()
      modifies this
      ensures Valid()
      ensures Some(from) != old(socket) ==> unchanged(this)
      ensures Some(from) == old(socket) ==>
                && Dispatched(old(View()), old(phase) == Ready, frame, answers, View())
                && Linked(old(Line()), frame, Line())
      ensures Some(from) == old(socket) && frame.ReadyFrame? ==> Readied(old(Now()), failAt, Now())
    {
      if socket != Some(from) {
        return;
      }
      Dispatch(from, frame, failAt, answers);
    }

    /** The socket is up: the handshake deadline is armed before `hello` is written. */
    method Connected(from: nat, ok: bool)
      requires Valid()
      modifies this
      ensures Valid()
      ensures Some(from) != old(listening) ==> unchanged(this)
      ensures Some(from) == old(listening) && ok ==>
                View() == old(View()) && Line() == old(Line()).(handshake := Some(from)) && heartbeat
      ensures Some(from) == old(listening) && !ok ==>
                View() == Ended(old(View()), Disconnected) && Line() == Cut(old(Line())) && !heartbeat
    {
      hide TableOk, Ended;
      if listening != Some(from) {
        return;
      }
      handshake := Some(from);
      WriteEncoded(ok);
    }

    /** The socket failed or closed. */
    method SocketGone(from: nat)
      requires Valid()
      modifies this
      ensures Valid()
      ensures if Some(from) != old(socket) then unchanged(this)
              else Line() == Cut(old(Line())) && !heartbeat && View() == Ended(old(View()), Disconnected)
    {
      CloseConnection(from);
    }

    method ReconnectFires(throws: bool)
      requires Valid() && reconnect
      modifies this
      ensures Valid() && View() == old(View()) && Line() == Opened(old(Line()), throws) && !heartbeat
    {
      hide TableOk;
      reconnect := false;
      if !stopped {
        OpenConnection(throws);
      }
    }

    method HandshakeFires()
      requires Valid() && handshake.Some?
      modifies this
      ensures Valid() && View() == Ended(old(View()), Disconnected) && Line() == Cut(old(Line())) && !heartbeat
    {
      hide TableOk, Ended;
      var armed := handshake.value;
      handshake := None;
      CloseConnection(armed);
    }

    /** Writes a ping, but only on a connection that is ready. */
    method HeartbeatFires(ok: bool)
      requires Valid() && heartbeat
      modifies this
      ensures Valid()
      ensures if old(phase) == Ready && !ok
              then View() == Ended(old(View()), Disconnected) && Line() == Cut(old(Line())) && !heartbeat
              else Now() == old(Now())
    {
      hide TableOk, Ended;
      if phase == Ready {
        WriteEncoded(ok);
      }
    }

    /** A request's deadline passed; its token is spent only if it went out. */
    method RequestTimesOut(key: Key)
      requires Valid() && key in pending
      modifies this
      ensures Valid() && View() == Expired(old(View()), key) && Line() == old(Line()) && heartbeat == old(heartbeat)
    {
      hide TableOk, Expired;
      ExpiredKeeps(View(), key);
      UnfoldExpired(View(), key);
      if !pending[key].unwritten {
        timedOut := timedOut + {key};
      }
      var _ := SettleKey(key, TimedOut);
    }

    /** Runs the handler of one event, if what would call it is still in place. */
    method Handle(event: Event)
      requires Valid()
      modifies this
      ensures Valid()
      ensures Follows(old(Now()), event, Now())
    {
      hide TableOk, Ended, Dispatched, Issued, Expired, Flushed;
      match event {
        case HostStarts(throws) => Start(throws);
        case HostStops => Stop();
        case HostIssues(token, kind, encodable, ok) => Issue(token, kind, encodable, ok);
        case SocketUp(from, ok) => Connected(from, ok);
        case Arrives(from, frame, failAt, answers) => Receive(from, frame, failAt, answers);
        case SocketDown(from) => SocketGone(from);
        case ReconnectTimer(throws) =>
          if reconnect {
            ReconnectFires(throws);
          }
        case HandshakeTimer =>
          if handshake.Some? {
            HandshakeFires();
          }
        case HeartbeatTimer(ok) =>
          if heartbeat {
            HeartbeatFires(ok);
          }
        case RequestTimer(key) =>
          if key in pending {
            RequestTimesOut(key);
          }
      }
    }

    /** Any sequence of events, and the moments between them. */
    method Run(events: seq<Event>) returns (ghost trace: seq<Moment>)
      requires Valid()
      modifies this
      ensures Valid()
      ensures Traced(trace, events) && trace[0] == old(Now()) && trace[|events|] == Now()
    {
      hide Follows, Sound;
      trace := [Now()];
      IsSound();
      for n := 0 to |events|
        invariant Valid() && |trace| == n + 1 && trace[0] == old(Now()) && trace[n] == Now()
        invariant forall i :: 0 <= i < |trace| ==> Sound(trace[i])
        invariant forall i :: 0 <= i < n ==> Follows(trace[i], events[i], trace[i + 1])
      {
        Handle(events[n]);
        IsSound();
        trace := trace + [Now()];
      }
    }

    lemma IsSound()
      requires Valid()
      ensures Sound(Now())
    {
    }

    ghost function Now(): Moment
      reads this
    {
      Moment(View(), Line(), heartbeat)
    }

    /** The first `ready`: the handshake is over, and what waited for it goes out. */
    method BecomeReady(failAt: Option<nat>)
      requires Valid() && socket.Some? && phase == Connecting
      modifies this
      ensures Valid()
      ensures Readied(old(Now()), failAt, Now())
    {
      hide TableOk, Ended, Flushed;
      phase := Ready;
      handshake := None;
      heartbeat := true;
      AllFlushed(View());
      var _ := FlushUnwritten(failAt);
    }
  }

  const FRESH: Moment := Moment(
    Table(map[], {}, {}, 0, map[], {}, {}), Link(Stopped, true, None, false, None, 0), false)

  /** Some run of a client: sound at every moment, each moment following from the one before. */
  ghost predicate Traced(trace: seq<Moment>, events: seq<Event>) {
    && |trace| == |events| + 1
    && (forall i :: 0 <= i < |trace| ==> Sound(trace[i]))
    && forall i :: 0 <= i < |events| ==> Follows(trace[i], events[i], trace[i + 1])
  }

  /** What each frame does to the requests, by the phase the connection is in. */
  ghost predicate Dispatched(before: Table, ready: bool, frame: ServerFrame, answers: Option<Sent>, after: Table) {
    match frame
    case ReadyFrame =>
      after == Ended(before, Disconnected) || (!ready && after == Flushed(before, before.pending.Keys))
    case MalformedFrame => after == Ended(before, Disconnected)
    case ReplyFrame(kind, token) =>
      after == if ready then Noted(SettledKey(before, Key(SpaceOf(kind), token), Replied), answers) else before
    case ErrorFrame(code, named) =>
      after == if code == PeerReplaced then Ended(before, Disconnected)
               else if !ready then before
               else if named.Some? then Noted(SettledEither(before, named.value, Rejected), answers)
               else if code == UnsupportedFrame
               then Noted(SettledAll(before, Reserves(before.pending), Rejected), answers)
               else before
    case _ => after == before
  }

  /** What a request becomes: refused at once, held until `ready`, written, or lost with the connection. */
  ghost predicate Issued(before: Table, phase: Phase, token: string, kind: Kind, encodable: bool, ok: bool,
                         after: Table)
  {
    var key := Key(SpaceOf(kind), token);
    after == if phase == Stopped then Refused(before, NotRunning)
             else if key in before.pending then Refused(before, AlreadyOutstanding)
             else if key in before.timedOut then Refused(before, TokenSpent)
             else if !encodable then Refused(before, Unencodable)
             else if phase == Connecting then Held(before, key, kind)
             else if ok then WrittenOut(Held(before, key, kind), key)
             else Ended(WrittenOut(Held(before, key, kind), key), Disconnected)
  }

  lemma ExpiredKeeps(t: Table, key: Key)
    requires TableOk(t) && key in t.pending
    ensures var s := Expired(t, key);
            TableOk(s) && s.pending.Keys <= t.pending.Keys && s.written == t.written
            && (forall k :: k in s.pending ==> s.pending[k] == t.pending[k])
    ensures t.written == {} ==> t.pending[key].unwritten
  {
    ExpiredOk(t, key);
  }

  lemma UnfoldExpired(t: Table, key: Key)
    requires key in t.pending
    ensures Expired(t, key)
         == SettledKey(if t.pending[key].unwritten then t else t.(timedOut := t.timedOut + {key}), key, TimedOut)
  {
  }

  lemma AllFlushed(t: Table)
    ensures forall k :: k in Flushed(t, t.pending.Keys).pending ==> !Flushed(t, t.pending.Keys).pending[k].unwritten
  {
  }

  lemma KeyKeeps(t: Table, key: Key, outcome: Outcome)
    requires TableOk(t)
    ensures var s := SettledKey(t, key, outcome);
            TableOk(s) && s.pending.Keys <= t.pending.Keys && s.timedOut == t.timedOut && s.written == t.written
            && forall k :: k in s.pending ==> s.pending[k] == t.pending[k]
  {
    SettledKeyOk(t, key, outcome);
  }

  function Reserves(pending: map<Key, Pending>): set<Key> {
    set key | key in pending && key.space == ReserveSpace
  }

  lemma EitherKeeps(t: Table, token: string, outcome: Outcome)
    requires TableOk(t)
    ensures var s := SettledEither(t, token, outcome);
            TableOk(s) && s.pending.Keys <= t.pending.Keys && s.timedOut == t.timedOut && s.written == t.written
            && forall k :: k in s.pending ==> s.pending[k] == t.pending[k]
  {
    EitherOk(t, token, outcome);
  }

  lemma ReservesKeep(t: Table, outcome: Outcome)
    requires TableOk(t)
    ensures var s := SettledAll(t, Reserves(t.pending), outcome);
            TableOk(s) && s.pending.Keys <= t.pending.Keys && s.timedOut == t.timedOut && s.written == t.written
            && forall k :: k in s.pending ==> s.pending[k] == t.pending[k]
  {
    SettledAllOk(t, Reserves(t.pending), outcome);
  }

  lemma NotedOk(t: Table, answers: Option<Sent>)
    requires TableOk(t)
    ensures TableOk(Noted(t, answers))
  {
  }
}
