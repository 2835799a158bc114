/**
 One connection's read half: the reply channel it shares with its writer, with a
 slot held back for the closing diagnostic, and the frame handlers that claim an
 acknowledgement before they do what it acknowledges.

 What the registry and the payload store answer, and how an error is worded, come
 in with each event.
 */
module ReplyPath {
  import opened Basics
  import opened Registry
  import opened FrameBudget
  import opened MessagePack

  const REPLY_QUEUE_CAPACITY: nat := 8
  const DIAGNOSTIC_RESERVE: nat := 1

  datatype ClientFrame =
    | Hello
    | Ping
    | List(requestId: string)
    | Send(id: string, to: string, body: string, replyTo: Option<string>, attachment: Option<string>)
    | Announce(id: string, body: string, replyTo: Option<string>, attachment: Option<string>)
    | Reserve(requestId: string, digest: string, bytes: nat)
    | Unsupported

  /** What the rest of the relay answers to the frame at hand. */
  datatype Answer = Answer(
    found: bool, status: ReceiptStatus, counts: Fanout, reserved: ReserveStatus, expiresIn: Option<nat>,
    peers: seq<string>, detail: string)

  /** A recipient that is not registered is offline; otherwise its queue decides. */
  function RouteStatus(answer: Answer): ReceiptStatus {
    if answer.found then answer.status else PeerOffline
  }

  datatype Inbound = EndOfStream | TransportFailed | Oversized | Undecodable | Decoded(frame: ClientFrame)

  /** What woke the reader. */
  datatype Wake = Shutdown | Evicted | Idle | Read(inbound: Inbound)

  /** A wake-up, and what the writer did since the last one. */
  datatype Event = Event(drained: nat, writerGone: bool, wake: Wake, answer: Answer)

  datatype Effect =
    | RoutedSend(id: string, to: string, status: ReceiptStatus)
    | FannedOut(id: string, counts: Fanout)
    | TriedReserve(requestId: string, digest: string, bytes: nat, reserved: ReserveStatus, expiresIn: Option<nat>)

  datatype Flow = Continue | Break

  function Acknowledgement(effect: Effect): ServerFrame {
    match effect
    case RoutedSend(id, to, status) => Receipt(id, to, status)
    case FannedOut(id, counts) => Accepted(id, counts.delivered, counts.shed)
    case TriedReserve(requestId, _, _, reserved, expiresIn) => Reserved(requestId, reserved, expiresIn)
  }

  predicate IsAcknowledgement(frame: ServerFrame) {
    || (frame.Receipt? && frame.status != InvalidTarget)
    || frame.Accepted?
    || frame.Reserved?
  }

  /** The acknowledgements among the replies of a channel, in order. */
  ghost function Acknowledged(placed: seq<ServerFrame>): seq<ServerFrame> {
    if placed == [] then []
    else
      var k := |placed| - 1;
      Acknowledged(placed[..k]) + if IsAcknowledgement(placed[k]) then [placed[k]] else []
  }

  /** The frames that are owed an acknowledgement: those every check accepts. */
  predicate Owed(frame: ClientFrame, hasStore: bool) {
    match frame
    case Send(id, to, body, replyTo, attachment) => ValidIdentifier(to) && Relayable(id, body, replyTo, attachment)
    case Announce(id, body, replyTo, attachment) => Relayable(id, body, replyTo, attachment)
    case Reserve(requestId, digest, _) => ValidCorrelation(requestId) && ValidDigest(digest) && hasStore
    case _ => false
  }

  function EffectOf(frame: ClientFrame, answer: Answer): Effect
    requires frame.Send? || frame.Announce? || frame.Reserve?
  {
    match frame
    case Send(id, to, _, _, _) => RoutedSend(id, to, RouteStatus(answer))
    case Announce(id, _, _, _) => FannedOut(id, answer.counts)
    case Reserve(requestId, digest, bytes) =>
      TriedReserve(requestId, digest, bytes, answer.reserved, answer.expiresIn)
  }

  /** The effects a sequence of events asks for, in order. */
  ghost function Asked(events: seq<Event>, hasStore: bool): seq<Effect> {
    if events == [] then []
    else
      var k := |events| - 1;
      Asked(events[..k], hasStore) + AskedBy(events[k].wake, events[k].answer, hasStore)
  }

  ghost function AskedBy(wake: Wake, answer: Answer, hasStore: bool): seq<Effect> {
    match wake
    case Read(Decoded(frame)) => if Owed(frame, hasStore) then [EffectOf(frame, answer)] else []
    case _ => []
  }

  /** How full the channel is, and whether its writer is still there. */
  datatype Load = Load(queued: nat, open: bool)

  /** Room for one more reply besides the diagnostic. */
  predicate HasRoom(load: Load) {
    load.open && load.queued < REPLY_QUEUE_CAPACITY
  }

  function Drained(load: Load, event: Event): Load {
    Load(if event.drained < load.queued then load.queued - event.drained else 0, load.open && !event.writerGone)
  }

  /** The load after events that were all handled: each one left a reply if there was room. */
  ghost function LoadAfter(start: Load, events: seq<Event>): Load {
    if events == [] then start
    else
      var k := |events| - 1;
      var load := Drained(LoadAfter(start, events[..k]), events[k]);
      if HasRoom(load) then load.(queued := load.queued + 1) else load
  }

  /** The load an event finds. */
  ghost function LoadAt(start: Load, events: seq<Event>, k: nat): Load
    requires k < |events|
  {
    Drained(LoadAfter(start, events[..k]), events[k])
  }

  lemma NoLoad(start: Load)
    ensures LoadAfter(start, []) == start
  {
  }

  lemma LoadGrows(start: Load, events: seq<Event>, k: nat)
    requires k < |events|
    ensures LoadAfter(start, events[..k + 1])
         == (var load := LoadAt(start, events, k); if HasRoom(load) then load.(queued := load.queued + 1) else load)
  {
    assert events[..k + 1][..k] == events[..k];
  }

  /** A frame whose one fault is a body that cannot be relayed. */
  predicate OverBudget(frame: ClientFrame) {
    match frame
    case Send(id, to, body, replyTo, attachment) =>
      ValidIdentifier(to) && Enveloped(id, replyTo, attachment) && BodyOverBudget(body)
    case Announce(id, body, replyTo, attachment) => Enveloped(id, replyTo, attachment) && BodyOverBudget(body)
    case _ => false
  }

  /** The frames that end a connection: a second hello, an over-budget body, one that is owed an acknowledgement there
      is no room for, and any other once the writer has gone. */
  predicate FrameEnds(frame: ClientFrame, hasStore: bool, load: Load) {
    if frame.Hello? || OverBudget(frame) then true
    else if Owed(frame, hasStore) then !HasRoom(load)
    else !load.open && load.queued < REPLY_QUEUE_CAPACITY
  }

  /** The wake-ups that end a connection. */
  predicate Ends(wake: Wake, hasStore: bool, load: Load) {
    match wake
    case Read(Decoded(frame)) => FrameEnds(frame, hasStore, load)
    case _ => true
  }

  /** The reason a frame that ends a connection is refused for, as the peer is told; the writer's absence is not one. */
  function FrameReason(frame: ClientFrame, hasStore: bool): Option<ErrorCode> {
    if frame.Hello? then Some(DuplicateHello)
    else if OverBudget(frame) then Some(FrameTooLarge)
    else if Owed(frame, hasStore) then Some(IdleTimeout)
    else None
  }

  /** The reason a connection that ends at a wake-up states. */
  function Reason(wake: Wake, hasStore: bool): Option<ErrorCode> {
    match wake
    case Idle => Some(IdleTimeout)
    case Read(Oversized) => Some(FrameTooLarge)
    case Read(Undecodable) => Some(MalformedFrame)
    case Read(Decoded(frame)) => FrameReason(frame, hasStore)
    case _ => None
  }

  /** The closing diagnostic is there exactly if there is a reason, and states it. */
  predicate States(closing: Option<ServerFrame>, reason: Option<ErrorCode>) {
    match reason
    case None => closing.None?
    case Some(code) => closing.Some? && closing.value.Error? && closing.value.code == code
  }

  /** The token a frame is known by. */
  function Token(frame: ClientFrame): Option<string> {
    match frame
    case List(requestId) => Some(requestId)
    case Send(id, _, _, _, _) => Some(id)
    case Announce(id, _, _, _) => Some(id)
    case Reserve(requestId, _, _) => Some(requestId)
    case _ => None
  }

  predicate ValidToken(frame: ClientFrame) {
    Token(frame).Some? && ValidCorrelation(Token(frame).value)
  }

  /** A send whose one fault so far is its target. */
  predicate Mistargeted(frame: ClientFrame) {
    frame.Send? && ValidToken(frame) && !ValidIdentifier(frame.to)
  }

  /** An acknowledgement that says what the relay did with the frame. */
  predicate Acknowledges(frame: ClientFrame, answer: Answer, reply: ServerFrame) {
    match frame
    case Send(id, to, _, _, _) =>
      && reply.Receipt? && reply.id == id && reply.to == to
      && reply.status == if answer.found then answer.status else PeerOffline
    case Announce(id, _, _, _) =>
      && reply.Accepted? && reply.id == id
      && reply.delivered == answer.counts.delivered && reply.shed == answer.counts.shed
    case Reserve(requestId, _, _) =>
      && reply.Reserved? && reply.requestId == requestId && reply.granted == answer.reserved
      && reply.expiresIn == answer.expiresIn
    case _ => false
  }

  /** A rejection that leaves the connection open: what was wrong, and the token if it can be named. */
  predicate Rejects(frame: ClientFrame, answer: Answer, reply: ServerFrame) {
    && reply.Error? && reply.message == answer.detail
    && reply.named == (if ValidToken(frame) then Token(frame) else None)
    && reply.code == if frame.Unsupported? || (frame.Reserve? && ValidToken(frame) && ValidDigest(frame.digest))
                     then UnsupportedFrame else InvalidIdentifier
  }

  /** The reply a frame is due. */
  ghost predicate Answered(frame: ClientFrame, answer: Answer, hasStore: bool, reply: ServerFrame) {
    && (reply.Pong? <==> frame.Ping?)
    && (reply.Peers? <==> frame.List? && ValidToken(frame))
    && (reply.Peers? ==> reply.requestId == frame.requestId && reply.peers == answer.peers)
    && (IsAcknowledgement(reply) <==> Owed(frame, hasStore))
    && (IsAcknowledgement(reply) ==> Acknowledges(frame, answer, reply))
    && (reply.Receipt? && reply.status == InvalidTarget <==> Mistargeted(frame))
    && (Mistargeted(frame) ==> reply.id == frame.id && Clamped(frame.to, reply.to, MAX_IDENTIFIER_BYTES))
    && (reply.Error? <==> !(reply.Pong? || reply.Peers? || IsAcknowledgement(reply) || Mistargeted(frame)))
    && (reply.Error? ==> Rejects(frame, answer, reply))
  }

  lemma RejectionAnswers(frame: ClientFrame, answer: Answer, hasStore: bool, reply: ServerFrame)
    requires Rejects(frame, answer, reply) && !Owed(frame, hasStore) && !frame.Ping? && !frame.List?
    requires !Mistargeted(frame)
    ensures Answered(frame, answer, hasStore, reply)
  {
    hide ValidCorrelation, ValidIdentifier, ValidDigest, Relayable;
  }

  lemma TargetAnswers(frame: ClientFrame, answer: Answer, hasStore: bool, reply: ServerFrame)
    requires Mistargeted(frame) && reply.Receipt? && reply.status == InvalidTarget && reply.id == frame.id
    requires Clamped(frame.to, reply.to, MAX_IDENTIFIER_BYTES)
    ensures Answered(frame, answer, hasStore, reply)
  {
    hide ValidCorrelation, ValidIdentifier, ValidDigest, Relayable, Clamped;
  }

  lemma AcknowledgementAnswers(frame: ClientFrame, answer: Answer, hasStore: bool)
    requires Owed(frame, hasStore) && (frame.Send? ==> answer.status != InvalidTarget)
    ensures Answered(frame, answer, hasStore, Acknowledgement(EffectOf(frame, answer)))
  {
    hide ValidCorrelation, ValidIdentifier, ValidDigest, BodyOverBudget;
  }

  /** What an effect does, by the frame that asked for it. */
  predicate Carries(frame: ClientFrame, answer: Answer, effect: Effect) {
    match frame
    case Send(id, to, _, _, _) => effect.RoutedSend? && effect.id == id && effect.to == to
    case Announce(id, _, _, _) => effect.FannedOut? && effect.id == id && effect.counts == answer.counts
    case Reserve(requestId, digest, bytes) =>
      effect.TriedReserve? && effect.requestId == requestId && effect.digest == digest && effect.bytes == bytes
    case _ => false
  }

  /** What is owed an acknowledgement is within budget, and its effect is the frame's own. */
  lemma OwedFrames(frame: ClientFrame, answer: Answer, hasStore: bool)
    requires Owed(frame, hasStore) && (frame.Send? ==> answer.status != InvalidTarget)
    ensures !OverBudget(frame) && !frame.Hello? && (frame.Send? || frame.Announce? || frame.Reserve?)
    ensures var effect := EffectOf(frame, answer);
            Carries(frame, answer, effect) && (effect.RoutedSend? ==> effect.status != InvalidTarget)
  {
    hide ValidCorrelation, ValidIdentifier, ValidDigest, BodyOverBudget;
  }

  lemma NothingAsked(hasStore: bool)
    ensures Asked([], hasStore) == []
  {
  }

  lemma AskedGrows(events: seq<Event>, k: nat, hasStore: bool)
    requires k < |events|
    ensures Asked(events[..k + 1], hasStore)
         == Asked(events[..k], hasStore) + AskedBy(events[k].wake, events[k].answer, hasStore)
  {
    assert events[..k + 1][..k] == events[..k];
  }

  /** Effects and acknowledgements, one to one and in order. */
  ghost predicate Matched(placed: seq<ServerFrame>, performed: seq<Effect>) {
    && |Acknowledged(placed)| == |performed|
    && forall i :: 0 <= i < |performed| ==> Acknowledged(placed)[i] == Acknowledgement(performed[i])
  }

  lemma NothingMatched()
    ensures Matched([], []) && IsTail([], [])
  {
  }

  /** What the writer has not taken yet is the end of what was placed. */
  ghost predicate IsTail(queued: seq<ServerFrame>, placed: seq<ServerFrame>) {
    |queued| <= |placed| && queued == placed[|placed| - |queued|..]
  }

  lemma MatchedReply(placed: seq<ServerFrame>, performed: seq<Effect>, frame: ServerFrame)
    requires Matched(placed, performed) && !IsAcknowledgement(frame)
    ensures Matched(placed + [frame], performed)
  {
    assert (placed + [frame])[..|placed|] == placed;
  }

  lemma MatchedEffect(placed: seq<ServerFrame>, performed: seq<Effect>, effect: Effect)
    requires Matched(placed, performed) && (effect.RoutedSend? ==> effect.status != InvalidTarget)
    ensures Matched(placed + [Acknowledgement(effect)], performed + [effect])
  {
    assert (placed + [Acknowledgement(effect)])[..|placed|] == placed;
  }

  /** The replies a sequence of events is due, in order: one for each that found room. */
  ghost predicate Replies(start: Load, events: seq<Event>, hasStore: bool, replies: seq<ServerFrame>) {
    if events == [] then replies == []
    else
      var k := |events| - 1;
      if !HasRoom(LoadAt(start, events, k)) then Replies(start, events[..k], hasStore, replies)
      else
        && replies != [] && events[k].wake.Read? && events[k].wake.inbound.Decoded?
        && Answered(events[k].wake.inbound.frame, events[k].answer, hasStore, replies[|replies| - 1])
        && Replies(start, events[..k], hasStore, replies[..|replies| - 1])
  }

  lemma NoReplies(start: Load, hasStore: bool)
    ensures Replies(start, [], hasStore, [])
  {
  }

  lemma RepliesGrow(start: Load, events: seq<Event>, k: nat, hasStore: bool, frame: ClientFrame,
                    before: seq<ServerFrame>, after: seq<ServerFrame>)
    requires k < |events| && events[k].wake == Read(Decoded(frame)) && Replies(start, events[..k], hasStore, before)
    requires Replied(frame, events[k].answer, hasStore, HasRoom(LoadAt(start, events, k)), before, after)
    ensures Replies(start, events[..k + 1], hasStore, after)
  {
    hide Answered, LoadAfter;
    var some := events[..k + 1];
    assert some[..k] == events[..k] && some[k] == events[k];
    assert LoadAt(start, some, k) == LoadAt(start, events, k);
  }

  /** The rosters among the replies. */
  ghost function Rosters(replies: seq<ServerFrame>): seq<ServerFrame> {
    if replies == [] then []
    else
      var k := |replies| - 1;
      Rosters(replies[..k]) + if replies[k].Peers? then [replies[k]] else []
  }

  /** The rosters asked for by valid lists that found room. */
  ghost function Listed(start: Load, events: seq<Event>): seq<ServerFrame> {
    if events == [] then []
    else
      var k := |events| - 1;
      Listed(start, events[..k])
      + (match events[k].wake
         case Read(Decoded(List(requestId))) =>
           if ValidCorrelation(requestId) && HasRoom(LoadAt(start, events, k))
           then [Peers(requestId, events[k].answer.peers)] else []
         case _ => [])
  }

  /** Rosters answer lists one to one and in order. */
  lemma {:induction false} RostersAnswerLists(start: Load, events: seq<Event>, hasStore: bool,
                                              replies: seq<ServerFrame>)
    requires Replies(start, events, hasStore, replies)
    ensures Rosters(replies) == Listed(start, events)
  {
    if events != [] {
      hide LoadAfter, ValidCorrelation;
      var k := |events| - 1;
      if HasRoom(LoadAt(start, events, k)) {
        RostersAnswerLists(start, events[..k], hasStore, replies[..|replies| - 1]);
      } else {
        RostersAnswerLists(start, events[..k], hasStore, replies);
      }
    }
  }

  /** The one reply a frame was due is placed if there is room for it, and nothing else. */
  ghost predicate Replied(frame: ClientFrame, answer: Answer, hasStore: bool, room: bool,
                          before: seq<ServerFrame>, after: seq<ServerFrame>) {
    if room then after != [] && after[..|after| - 1] == before && Answered(frame, answer, hasStore, after[|after| - 1])
    else after == before
  }

  class Connection {
    const peer: string
    const hasStore: bool
    /** The reply channel: what the writer has not taken yet, and slots promised to a reply. */
    var queued: seq<ServerFrame>
    var claimed: nat
    var open: bool
    /** Every reply ever placed in the channel, every effect performed, and the closing diagnostic. */
    ghost var placed: seq<ServerFrame>
    ghost var performed: seq<Effect>
    ghost var closing: Option<ServerFrame>

    ghost predicate Valid()
      reads this
    {
      && |queued| + claimed <= REPLY_QUEUE_CAPACITY + DIAGNOSTIC_RESERVE
      && (closing.None? ==> |queued| + claimed <= REPLY_QUEUE_CAPACITY)
      && IsTail(queued, placed)
    }

    /** Between two frames: no slot is promised, and every effect has its acknowledgement. */
    ghost predicate Settled()
      reads this
    {
      Valid() && claimed == 0 && Matched(placed, performed)
    }

    constructor (peer: string, hasStore: bool)
      ensures Settled() && closing.None? && open && placed == [] && performed == []
      ensures this.peer == peer && this.hasStore == hasStore
    {
      hide Matched, IsTail;
      this.peer, this.hasStore := peer, hasStore;
      queued, claimed, open := [], 0, true;
      placed, performed, closing := [], [], None;
      new;
      NothingMatched();
    }

    ghost function Now(): Load
      reads this
    {
      Load(|queued|, open)
    }

    /** Free slots, the reserved one included. */
    function Capacity(): int
      reads this
    {
      REPLY_QUEUE_CAPACITY + DIAGNOSTIC_RESERVE - |queued| - claimed
    }

    /** A lossy reply: dropped when only the reserved slot is left. */
    method EnqueueReply(frame: ServerFrame) returns (flow: Flow)
      requires Settled() && closing.None? && !IsAcknowledgement(frame)
      modifies this`queued, this`placed
      ensures Settled()
      ensures flow == if old(Capacity()) > DIAGNOSTIC_RESERVE && !open then Break else Continue
      ensures placed == old(placed) + if old(Capacity()) > DIAGNOSTIC_RESERVE && open then [frame] else []
      ensures |queued| == |old(queued)| + if HasRoom(old(Now())) then 1 else 0
    {
      if Capacity() <= DIAGNOSTIC_RESERVE {
        return Continue;
      }
      if !open {
        return Break;
      }
      MatchedReply(placed, performed, frame);
      queued := queued + [frame];
      placed := placed + [frame];
      return Continue;
    }

    /** Takes a slot for an acknowledgement, never the reserved one. */
    method ReserveAcknowledgement() returns (slot: bool)
      requires Settled() && closing.None?
      modifies this`claimed
      ensures slot == (old(Capacity()) > DIAGNOSTIC_RESERVE && open)
      ensures claimed == if slot then 1 else 0
      ensures Valid()
    {
      if Capacity() <= DIAGNOSTIC_RESERVE || !open {
        return false;
      }
      claimed := claimed + 1;
      return true;
    }

    /** States why the connection closes; nothing is placed after it. */
    method QueueDiagnostic(code: ErrorCode, detail: string)
      requires Settled() && closing.None?
      modifies this`queued, this`placed, this`closing
      ensures Settled()
      ensures closing.Some? && closing.value.Error? && closing.value.code == code
      ensures |Pack(closing.value)| <= MAX_FRAME_BYTES
      ensures placed == old(placed) + if open then [closing.value] else []
    {
      hide Pack, Len, Matched;
      var text := CapDiagnostic(detail);
      var frame := Error(code, text, None);
      closing := Some(frame);
      if open && Capacity() > 0 {
        MatchedReply(placed, performed, frame);
        queued := queued + [frame];
        placed := placed + [frame];
      }
    }

    /** A slot, or a stated reason to close without performing anything. */
    method ClaimAcknowledgement(detail: string) returns (slot: bool)
      requires Settled() && closing.None?
      modifies this`queued, this`claimed, this`placed, this`closing
      ensures slot == (old(Capacity()) > DIAGNOSTIC_RESERVE && open)
      ensures slot ==> Valid() && claimed == 1 && placed == old(placed) && closing.None? && queued == old(queued)
      ensures !slot ==> Settled() && States(closing, Some(IdleTimeout))
      ensures !slot ==> placed == old(placed) + if open then [closing.value] else []
    {
      slot := ReserveAcknowledgement();
      if !slot {
        QueueDiagnostic(IdleTimeout, detail);
      }
    }

    /** Routes, fans out or reserves: only with a slot claimed for the acknowledgement that is now owed. */
    method Perform(effect: Effect)
      requires Valid() && closing.None? && claimed == 1 && Matched(placed, performed)
      requires effect.RoutedSend? ==> effect.status != InvalidTarget
      modifies this`performed
      ensures performed == old(performed) + [effect]
      ensures Matched(placed + [Acknowledgement(effect)], performed)
    {
      MatchedEffect(placed, performed, effect);
      performed := performed + [effect];
    }

    /** Fills the claimed slot with the acknowledgement that is owed. */
    method FillSlot(frame: ServerFrame)
      requires Valid() && closing.None? && claimed == 1 && Matched(placed + [frame], performed)
      modifies this`queued, this`claimed, this`placed
      ensures Settled()
      ensures placed == old(placed) + [frame] && queued == old(queued) + [frame]
    {
      hide Matched;
      claimed := claimed - 1;
      queued := queued + [frame];
      placed := placed + [frame];
    }

    /** Claims the slot, performs, and fills it; or says why nothing was performed. */
    method Submit(effect: Effect, writable: bool, detail: string) returns (flow: Flow)
      requires Settled() && closing.None? && (effect.RoutedSend? ==> effect.status != InvalidTarget)
      modifies this`queued, this`claimed, this`placed, this`performed, this`closing
      ensures Settled() && (flow == Break <==> !(HasRoom(old(Now())) && writable))
      ensures flow == Continue ==>
                && closing.None? && |queued| == |old(queued)| + 1
                && performed == old(performed) + [effect] && placed == old(placed) + [Acknowledgement(effect)]
      ensures flow == Break ==> performed == old(performed)
      ensures flow == Break ==>
                States(closing, Some(if HasRoom(old(Now())) then FrameTooLarge else IdleTimeout))
      ensures flow == Break ==> placed == old(placed) + if open then [closing.value] else []
    {
      hide Pack, Matched, IsTail;
      var slot := ClaimAcknowledgement(detail);
      if !slot {
        return Break;
      }
      if !writable {
        claimed := claimed - 1;
        QueueDiagnostic(FrameTooLarge, detail);
        return Break;
      }
      Perform(effect);
      FillSlot(Acknowledgement(effect));
      return Continue;
    }

    /** What handling a frame did: all of it with its acknowledgement, or none of it. */
    ghost predicate Handled(frame: ClientFrame, answer: Answer, flow: Flow, load: Load,
                            wasPlaced: seq<ServerFrame>, wasPerformed: seq<Effect>)
      reads this
    {
      && Settled()
      && (flow == Break <==> FrameEnds(frame, hasStore, load))
      && (flow == Break ==> performed == wasPerformed && States(closing, FrameReason(frame, hasStore)))
      && (flow == Continue ==>
            && closing.None? && |queued| == load.queued + (if HasRoom(load) then 1 else 0)
            && Replied(frame, answer, hasStore, HasRoom(load), wasPlaced, placed))
      && (flow == Break ==> placed == wasPlaced + if closing.Some? && open then [closing.value] else [])
      && performed == wasPerformed
                      + (if Owed(frame, hasStore) && HasRoom(load) then [EffectOf(frame, answer)] else [])
      && (Owed(frame, hasStore) && HasRoom(load) ==> Carries(frame, answer, performed[|performed| - 1]))
    }

    /** A reply that leaves the connection as it is. */
    method ReplyTo(ghost frame: ClientFrame, ghost answer: Answer, reply: ServerFrame) returns (flow: Flow)
      requires Settled() && closing.None? && Answered(frame, answer, hasStore, reply)
      requires !Owed(frame, hasStore) && !frame.Hello? && !OverBudget(frame)
      modifies this`queued, this`placed
      ensures Handled(frame, answer, flow, old(Now()), old(placed), old(performed))
    {
      hide Pack, Matched, IsTail, Clamped, Owed, OverBudget;
      flow := EnqueueReply(reply);
    }

    /** A body that cannot be relayed closes the connection. */
    method RefuseOverBudget(ghost frame: ClientFrame, answer: Answer) returns (flow: Flow)
      requires Settled() && closing.None? && OverBudget(frame) && !Owed(frame, hasStore)
      modifies this`queued, this`placed, this`closing
      ensures Handled(frame, answer, flow, old(Now()), old(placed), old(performed))
    {
      hide Pack, Matched, IsTail, Len, Owed, Answered;
      QueueDiagnostic(FrameTooLarge, answer.detail);
      flow := Break;
    }

    /** What is owed an acknowledgement, once it has passed every check. */
    method SubmitFor(ghost frame: ClientFrame, answer: Answer, effect: Effect, writable: bool) returns (flow: Flow)
      requires Settled() && closing.None? && (frame.Send? ==> answer.status != InvalidTarget)
      requires Owed(frame, hasStore) && effect == EffectOf(frame, answer)
      modifies this`queued, this`claimed, this`placed, this`performed, this`closing
      ensures writable ==> Handled(frame, answer, flow, old(Now()), old(placed), old(performed))
    {
      hide Pack, Matched, IsTail, Len, Answered, Owed, OverBudget, Carries, EffectOf, Acknowledgement;
      OwedFrames(frame, answer, hasStore);
      AcknowledgementAnswers(frame, answer, hasStore);
      flow := Submit(effect, writable, answer.detail);
    }

    method HandleSend(id: string, to: string, body: string, replyTo: Option<string>, attachment: Option<string>,
                      answer: Answer) returns (flow: Flow, unwritable: bool)
      requires Settled() && closing.None? && answer.status != InvalidTarget
      modifies this`queued, this`claimed, this`placed, this`performed, this`closing
      ensures unwritable ==>
                && Relayable(id, body, replyTo, attachment)
                && |Pack(Message(id, peer, body, replyTo, attachment))| > MAX_FRAME_BYTES
      ensures !unwritable ==>
                Handled(Send(id, to, body, replyTo, attachment), answer, flow, old(Now()), old(placed), old(performed))
    {
      hide Pack, Matched, IsTail, Len, ValidIdentifier, ValidCorrelation, ValidDigest, BodyOverBudget, Answered;
      hide Handled, Clamped;
      unwritable := false;
      ghost var frame := Send(id, to, body, replyTo, attachment);
      if !ValidCorrelation(id) {
        RejectionAnswers(frame, answer, hasStore, Error(InvalidIdentifier, answer.detail, None));
        flow := ReplyTo(frame, answer, Error(InvalidIdentifier, answer.detail, None));
        return;
      }
      if !ValidIdentifier(to) {
        var bounded := BoundedTarget(to);
        TargetAnswers(frame, answer, hasStore, Receipt(id, bounded, InvalidTarget));
        flow := ReplyTo(frame, answer, Receipt(id, bounded, InvalidTarget));
        return;
      }
      if replyTo.Some? && !ValidCorrelation(replyTo.value) {
        RejectionAnswers(frame, answer, hasStore, Error(InvalidIdentifier, answer.detail, Some(id)));
        flow := ReplyTo(frame, answer, Error(InvalidIdentifier, answer.detail, Some(id)));
        return;
      }
      if attachment.Some? && !ValidDigest(attachment.value) {
        RejectionAnswers(frame, answer, hasStore, Error(InvalidIdentifier, answer.detail, Some(id)));
        flow := ReplyTo(frame, answer, Error(InvalidIdentifier, answer.detail, Some(id)));
        return;
      }
      if BodyOverBudget(body) {
        flow := RefuseOverBudget(frame, answer);
        return;
      }
      unwritable := answer.found && |Pack(Message(id, peer, body, replyTo, attachment))| > MAX_FRAME_BYTES;
      flow := SubmitFor(frame, answer, RoutedSend(id, to, RouteStatus(answer)), !unwritable);
    }

    method HandleAnnounce(id: string, body: string, replyTo: Option<string>, attachment: Option<string>,
                          answer: Answer) returns (flow: Flow, unwritable: bool)
      requires Settled() && closing.None?
      modifies this`queued, this`claimed, this`placed, this`performed, this`closing
      ensures unwritable ==>
                && Relayable(id, body, replyTo, attachment)
                && |Pack(Notice(id, peer, body, replyTo, attachment))| > MAX_FRAME_BYTES
      ensures !unwritable ==>
                Handled(Announce(id, body, replyTo, attachment), answer, flow, old(Now()), old(placed), old(performed))
    {
      hide Pack, Matched, IsTail, Len, ValidCorrelation, ValidDigest, BodyOverBudget, Answered, Handled;
      unwritable := false;
      ghost var frame := Announce(id, body, replyTo, attachment);
      if !ValidCorrelation(id) {
        RejectionAnswers(frame, answer, hasStore, Error(InvalidIdentifier, answer.detail, None));
        flow := ReplyTo(frame, answer, Error(InvalidIdentifier, answer.detail, None));
        return;
      }
      if replyTo.Some? && !ValidCorrelation(replyTo.value) {
        RejectionAnswers(frame, answer, hasStore, Error(InvalidIdentifier, answer.detail, Some(id)));
        flow := ReplyTo(frame, answer, Error(InvalidIdentifier, answer.detail, Some(id)));
        return;
      }
      if attachment.Some? && !ValidDigest(attachment.value) {
        RejectionAnswers(frame, answer, hasStore, Error(InvalidIdentifier, answer.detail, Some(id)));
        flow := ReplyTo(frame, answer, Error(InvalidIdentifier, answer.detail, Some(id)));
        return;
      }
      if BodyOverBudget(body) {
        flow := RefuseOverBudget(frame, answer);
        return;
      }
      unwritable := |Pack(Notice(id, peer, body, replyTo, attachment))| > MAX_FRAME_BYTES;
      flow := SubmitFor(frame, answer, FannedOut(id, answer.counts), !unwritable);
    }

    method HandleReserve(requestId: string, digest: string, bytes: nat, answer: Answer) returns (flow: Flow)
      requires Settled() && closing.None?
      modifies this`queued, this`claimed, this`placed, this`performed, this`closing
      ensures Handled(Reserve(requestId, digest, bytes), answer, flow, old(Now()), old(placed), old(performed))
    {
      hide Pack, Matched, IsTail, Len, ValidCorrelation, ValidDigest, Answered, Handled;
      ghost var frame := Reserve(requestId, digest, bytes);
      if !ValidCorrelation(requestId) {
        RejectionAnswers(frame, answer, hasStore, Error(InvalidIdentifier, answer.detail, None));
        flow := ReplyTo(frame, answer, Error(InvalidIdentifier, answer.detail, None));
        return;
      }
      if !ValidDigest(digest) {
        RejectionAnswers(frame, answer, hasStore, Error(InvalidIdentifier, answer.detail, Some(requestId)));
        flow := ReplyTo(frame, answer, Error(InvalidIdentifier, answer.detail, Some(requestId)));
        return;
      }
      if !hasStore {
        RejectionAnswers(frame, answer, hasStore, Error(UnsupportedFrame, answer.detail, Some(requestId)));
        flow := ReplyTo(frame, answer, Error(UnsupportedFrame, answer.detail, Some(requestId)));
        return;
      }
      flow := SubmitFor(frame, answer, TriedReserve(requestId, digest, bytes, answer.reserved, answer.expiresIn), true);
    }

    /** Dispatches one decoded frame. A registered name is short enough that no delivery is unwritable. */
    method HandleFrame(frame: ClientFrame, answer: Answer) returns (flow: Flow)
      requires Settled() && closing.None? && answer.status != InvalidTarget && ValidIdentifier(peer)
      modifies this`queued, this`claimed, this`placed, this`performed, this`closing
      ensures Handled(frame, answer, flow, old(Now()), old(placed), old(performed))
    {
      hide Pack, Matched, IsTail, Len, ValidIdentifier, Relayable, ValidCorrelation;
      match frame {
        case Hello =>
          QueueDiagnostic(DuplicateHello, answer.detail);
          flow := Break;
        case Ping => flow := EnqueueReply(Pong);
        case List(requestId) =>
          if !ValidCorrelation(requestId) {
            flow := EnqueueReply(Error(InvalidIdentifier, answer.detail, None));
          } else {
            flow := EnqueueReply(Peers(requestId, answer.peers));
          }
        case Send(id, to, body, replyTo, attachment) =>
          var unwritable;
          flow, unwritable := HandleSend(id, to, body, replyTo, attachment, answer);
          assert !unwritable by { DeliveriesFit(id, body, replyTo, attachment); }
        case Announce(id, body, replyTo, attachment) =>
          var unwritable;
          flow, unwritable := HandleAnnounce(id, body, replyTo, attachment, answer);
          assert !unwritable by { DeliveriesFit(id, body, replyTo, attachment); }
        case Reserve(requestId, digest, bytes) => flow := HandleReserve(requestId, digest, bytes, answer);
        case Unsupported => flow := EnqueueReply(Error(UnsupportedFrame, answer.detail, None));
      }
    }

    lemma DeliveriesFit(id: string, body: string, replyTo: Option<string>, attachment: Option<string>)
      requires ValidIdentifier(peer)
      ensures Relayable(id, body, replyTo, attachment) ==>
                && |Pack(Message(id, peer, body, replyTo, attachment))| <= MAX_FRAME_BYTES
                && |Pack(Notice(id, peer, body, replyTo, attachment))| <= MAX_FRAME_BYTES
    {
      if Relayable(id, body, replyTo, attachment) {
        DeliveryFits(id, peer, body, replyTo, attachment);
      }
    }

    /** The writer takes replies from the front, and may go away. */
    method WriterRuns(drained: nat, gone: bool)
      requires Settled()
      modifies this`queued, this`open
      ensures Settled() && open == (old(open) && !gone)
      ensures queued == old(queued)[if drained < |old(queued)| then drained else |old(queued)|..]
    {
      queued := queued[if drained < |queued| then drained else |queued|..];
      if gone {
        open := false;
      }
    }

    method HandleInbound(inbound: Inbound, answer: Answer) returns (flow: Flow)
      requires Settled() && closing.None? && answer.status != InvalidTarget && ValidIdentifier(peer)
      modifies this`queued, this`claimed, this`placed, this`performed, this`closing
      ensures Settled()
      ensures flow == Break <==> Ends(Read(inbound), hasStore, old(Now()))
      ensures flow == Continue ==>
                && closing.None? && |queued| == |old(queued)| + (if HasRoom(old(Now())) then 1 else 0)
                && performed == old(performed) + AskedBy(Read(inbound), answer, hasStore)
                && inbound.Decoded?
                && Replied(inbound.frame, answer, hasStore, HasRoom(old(Now())), old(placed), placed)
      ensures flow == Break ==> performed == old(performed) && States(closing, Reason(Read(inbound), hasStore))
      ensures flow == Break ==> placed == old(placed) + if closing.Some? && open then [closing.value] else []
    {
      hide Pack, Matched, IsTail, Len, ValidIdentifier, Owed;
      match inbound {
        case EndOfStream => flow := Break;
        case TransportFailed => flow := Break;
        case Oversized =>
          QueueDiagnostic(FrameTooLarge, answer.detail);
          flow := Break;
        case Undecodable =>
          QueueDiagnostic(MalformedFrame, answer.detail);
          flow := Break;
        case Decoded(frame) => flow := HandleFrame(frame, answer);
      }
    }

    /** The replies so far, once the event at hand has got its own. */
    ghost method NextReplies(start: Load, events: seq<Event>, k: nat, before: seq<ServerFrame>,
                             first: seq<ServerFrame>, replies: seq<ServerFrame>) returns (next: seq<ServerFrame>)
      requires k < |events| && events[k].wake.Read? && events[k].wake.inbound.Decoded?
      requires Replies(start, events[..k], hasStore, replies) && before == first + replies
      requires Replied(events[k].wake.inbound.frame, events[k].answer, hasStore, HasRoom(LoadAt(start, events, k)),
                       before, placed)
      ensures placed == first + next && Replies(start, events[..k + 1], hasStore, next)
    {
      hide Replies, LoadAfter, Answered;
      next := replies + placed[|before|..];
      RepliesGrow(start, events, k, hasStore, events[k].wake.inbound.frame, replies, next);
    }

    /** The reader loop, for any frames and any behaviour of the writer. */
    method RunReader(events: seq<Event>) returns (handled: nat, ghost replies: seq<ServerFrame>)
      requires Settled() && closing.None? && performed == [] && ValidIdentifier(peer)
      requires forall i :: 0 <= i < |events| ==> events[i].answer.status != InvalidTarget
      modifies this
      ensures handled <= |events|
      ensures handled < |events| ==> Ends(events[handled].wake, hasStore, LoadAt(old(Now()), events, handled))
      ensures forall i :: 0 <= i < handled ==> !Ends(events[i].wake, hasStore, LoadAt(old(Now()), events, i))
      ensures performed == Asked(events[..handled], hasStore)
      ensures Matched(placed, performed)
      ensures |queued| <= 9 && IsTail(queued, placed)
      ensures States(closing, if handled < |events| then Reason(events[handled].wake, hasStore) else None)
      ensures placed == old(placed) + replies + if closing.Some? && open then [closing.value] else []
      ensures Replies(old(Now()), events[..handled], hasStore, replies)
      ensures Rosters(replies) == Listed(old(Now()), events[..handled])
    {
      hide Pack, Matched, IsTail, Len, ValidIdentifier, Owed, AskedBy, Asked, FrameEnds, FrameReason, LoadAfter;
      hide Replies, Replied, Rosters, Listed;
      handled, replies := 0, [];
      assert Replies(Now(), events[..0], hasStore, []) by { NoReplies(Now(), hasStore); }
      assert LoadAfter(Now(), events[..0]) == Now() by { NoLoad(Now()); }
      assert Asked(events[..0], hasStore) == [] by { NothingAsked(hasStore); }
      while handled < |events|
        invariant handled <= |events|
        invariant Settled() && closing.None?
        invariant performed == Asked(events[..handled], hasStore) && Now() == LoadAfter(old(Now()), events[..handled])
        invariant forall i :: 0 <= i < handled ==> !Ends(events[i].wake, hasStore, LoadAt(old(Now()), events, i))
        invariant placed == old(placed) + replies && Replies(old(Now()), events[..handled], hasStore, replies)
      {
        RostersAnswerLists(old(Now()), events[..handled], hasStore, replies);
        ghost var before := placed;
        var event := events[handled];
        WriterRuns(event.drained, event.writerGone);
        var flow := Break;
        match event.wake {
          case Shutdown =>
          case Evicted =>
          case Idle => QueueDiagnostic(IdleTimeout, event.answer.detail);
          case Read(inbound) => flow := HandleInbound(inbound, event.answer);
        }
        if flow == Break {
          return;
        }
        AskedGrows(events, handled, hasStore);
        LoadGrows(old(Now()), events, handled);
        replies := NextReplies(old(Now()), events, handled, before, old(placed), replies);
        handled := handled + 1;
      }
      RostersAnswerLists(old(Now()), events[..handled], hasStore, replies);
    }
  }
}
