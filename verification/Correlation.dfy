/**
 The client's table of requests: which reply space a token lives in, what is
 pending, which tokens are spent by a timeout, and how entries are settled. The
 table also carries what happened so far, which no operation consults.
 */
module Correlation {
  import opened Basics

  datatype Kind = ListPeers | SendOne | AnnounceAll | ReserveRoom

  datatype Space = ListSpace | DeliverySpace | ReserveSpace

  /** A token within its reply space. */
  datatype Key = Key(space: Space, token: string)

  function SpaceOf(kind: Kind): Space {
    match kind
    case ListPeers => ListSpace
    case SendOne => DeliverySpace
    case AnnounceAll => DeliverySpace
    case ReserveRoom => ReserveSpace
  }

  datatype Pending = Pending(request: nat, kind: Kind, unwritten: bool)

  datatype Outcome =
    | NotRunning | AlreadyOutstanding | TokenSpent | Unencodable
    | Replied | Rejected | TimedOut | Disconnected | ClientStopped

  /** A request as it went out on the current connection. */
  datatype Sent = Sent(request: nat, key: Key)

  datatype Table = Table(
    pending: map<Key, Pending>,
    timedOut: set<Key>,
    timers: set<nat>,
    // What happened: how many requests were made and how each one ended, and on
    // the current connection what was written and which of it the relay answered.
    issued: nat,
    outcomes: map<nat, Outcome>,
    written: set<Sent>,
    answered: set<nat>)

  function SettledKey(t: Table, key: Key, outcome: Outcome): Table {
    if key !in t.pending then t
    else
      var r := t.pending[key].request;
      t.(pending := t.pending - {key}, timers := t.timers - {r}, outcomes := t.outcomes[r := outcome])
  }

  /** The requests under some of the keys. */
  function Under(pending: map<Key, Pending>, keys: set<Key>): set<nat> {
    set key | key in pending && key in keys :: pending[key].request
  }

  function Marked(outcomes: map<nat, Outcome>, requests: set<nat>, outcome: Outcome): map<nat, Outcome> {
    outcomes + map r | r in requests :: outcome
  }

  /** Every entry under one of the keys settled alike. */
  function SettledAll(t: Table, keys: set<Key>, outcome: Outcome): Table {
    var gone := Under(t.pending, keys);
    t.(pending := t.pending - keys, timers := t.timers - gone, outcomes := Marked(t.outcomes, gone, outcome))
  }

  /** The end of a connection: nothing stays pending, and no token stays spent. */
  function Ended(t: Table, outcome: Outcome): Table {
    SettledAll(t, t.pending.Keys, outcome).(timedOut := {}, written := {}, answered := {})
  }

  /** A request that never became pending. */
  function Refused(t: Table, outcome: Outcome): Table {
    t.(issued := t.issued + 1, outcomes := t.outcomes[t.issued := outcome])
  }

  function Held(t: Table, key: Key, kind: Kind): Table {
    t.(issued := t.issued + 1,
       pending := t.pending[key := Pending(t.issued, kind, true)],
       timers := t.timers + {t.issued})
  }

  function WrittenOut(t: Table, key: Key): Table
    requires key in t.pending
  {
    t.(pending := t.pending[key := t.pending[key].(unwritten := false)],
       written := t.written + {Sent(t.pending[key].request, key)})
  }

  function Expired(t: Table, key: Key): Table
    requires key in t.pending
  {
    SettledKey(if t.pending[key].unwritten then t else t.(timedOut := t.timedOut + {key}), key, TimedOut)
  }

  /** The first reply space that holds a token, in the order they are searched. */
  function Holder(pending: map<Key, Pending>, token: string): Option<Key> {
    if Key(ListSpace, token) in pending then Some(Key(ListSpace, token))
    else if Key(DeliverySpace, token) in pending then Some(Key(DeliverySpace, token))
    else if Key(ReserveSpace, token) in pending then Some(Key(ReserveSpace, token))
    else None
  }

  function SettledEither(t: Table, token: string, outcome: Outcome): Table {
    match Holder(t.pending, token)
    case None => t
    case Some(key) => SettledKey(t, key, outcome)
  }

  // Invariants

  ghost predicate EntriesOk(pending: map<Key, Pending>) {
    && (forall k :: k in pending ==> k.space == SpaceOf(pending[k].kind))
    && (forall k, l :: k in pending && l in pending && pending[k].request == pending[l].request ==> k == l)
  }

  ghost predicate Holds(pending: map<Key, Pending>, r: nat) {
    exists k :: k in pending && pending[k].request == r
  }

  /** Every request made is either pending, with its timer armed, or settled; never both. */
  ghost predicate AccountedFor(t: Table) {
    && (forall k :: k in t.pending ==> t.pending[k].request in t.timers)
    && (forall r :: r in t.timers ==> Holds(t.pending, r))
    && t.timers !! t.outcomes.Keys
    && (forall r :: 0 <= r < t.issued <==> r in t.timers || r in t.outcomes)
  }

  /** An entry counts as written exactly when its request went out under its key. */
  ghost predicate WritesOk(t: Table) {
    && (forall w :: w in t.written ==> w.request < t.issued)
    && (forall v, w :: v in t.written && w in t.written && v.request == w.request ==> v == w)
    && (forall r :: r in t.answered ==> r < t.issued)
    && (forall k :: k in t.pending ==>
          if t.pending[k].unwritten then forall w :: w in t.written ==> w.request != t.pending[k].request
          else Sent(t.pending[k].request, k) in t.written)
  }

  ghost predicate TableOk(t: Table) {
    EntriesOk(t.pending) && AccountedFor(t) && WritesOk(t) && t.timedOut !! t.pending.Keys
  }

  lemma SettledKeyOk(t: Table, key: Key, outcome: Outcome)
    requires TableOk(t)
    ensures TableOk(SettledKey(t, key, outcome))
  {
    var s := SettledKey(t, key, outcome);
    forall r | r in s.timers ensures Holds(s.pending, r) {
      assert Holds(t.pending, r);
      var k :| k in t.pending && t.pending[k].request == r;
      assert k in s.pending && s.pending[k].request == r;
    }
  }

  lemma SettledAllOk(t: Table, keys: set<Key>, outcome: Outcome)
    requires TableOk(t)
    ensures TableOk(SettledAll(t, keys, outcome))
  {
    var s := SettledAll(t, keys, outcome);
    forall r | r in s.timers ensures Holds(s.pending, r) {
      assert Holds(t.pending, r);
      var k :| k in t.pending && t.pending[k].request == r;
      assert k in s.pending && s.pending[k].request == r;
    }
  }

  /** Forgetting the connection first comes to the same. */
  lemma EndedIs(t: Table, outcome: Outcome)
    ensures Ended(t, outcome) == SettledAll(t.(timedOut := {}, written := {}, answered := {}), t.pending.Keys, outcome)
  {
  }

  lemma EndedOk(t: Table, outcome: Outcome)
    requires TableOk(t)
    ensures TableOk(Ended(t, outcome)) && Ended(t, outcome).pending == map[] && Ended(t, outcome).timers == {}
  {
    SettledAllOk(t, t.pending.Keys, outcome);
    var s := Ended(t, outcome);
    assert s.pending == map[];
    assert forall r :: !Holds(map[], r);
    assert s.timers == {};
  }

  lemma RefusedOk(t: Table, outcome: Outcome)
    requires TableOk(t)
    ensures TableOk(Refused(t, outcome))
  {
  }

  lemma HeldOk(t: Table, key: Key, kind: Kind)
    requires TableOk(t) && key !in t.pending && key !in t.timedOut && key.space == SpaceOf(kind)
    ensures TableOk(Held(t, key, kind))
  {
    var s := Held(t, key, kind);
    forall r | r in s.timers ensures Holds(s.pending, r) {
      if r == t.issued {
        assert s.pending[key].request == r;
      } else {
        assert Holds(t.pending, r);
        var k :| k in t.pending && t.pending[k].request == r;
        assert s.pending[k].request == r;
      }
    }
  }

  lemma WrittenOutWrites(t: Table, key: Key)
    requires EntriesOk(t.pending) && AccountedFor(t) && WritesOk(t) && key in t.pending
    ensures WritesOk(WrittenOut(t, key))
  {
    var s, r := WrittenOut(t, key), t.pending[key].request;
    assert forall w :: w in t.written && w.request == r ==> w == Sent(r, key);
    forall k | k in s.pending
      ensures if s.pending[k].unwritten then forall w :: w in s.written ==> w.request != s.pending[k].request
              else Sent(s.pending[k].request, k) in s.written
    {
      assert k == key || s.pending[k] == t.pending[k];
    }
  }

  /** Marking entries changes neither who is pending nor what is accounted for. */
  lemma SameEntries(t: Table, s: Table)
    requires EntriesOk(t.pending) && AccountedFor(t)
    requires s.pending.Keys == t.pending.Keys && s.timers == t.timers
    requires s.issued == t.issued && s.outcomes == t.outcomes
    requires forall k :: k in t.pending ==>
               s.pending[k].request == t.pending[k].request && s.pending[k].kind == t.pending[k].kind
    ensures EntriesOk(s.pending) && AccountedFor(s)
  {
    forall r | r in s.timers ensures Holds(s.pending, r) {
      assert Holds(t.pending, r);
      var k :| k in t.pending && t.pending[k].request == r;
      assert k in s.pending && s.pending[k].request == r;
    }
  }

  lemma WrittenOutOk(t: Table, key: Key)
    requires TableOk(t) && key in t.pending
    ensures TableOk(WrittenOut(t, key))
  {
    hide WritesOk, AccountedFor, EntriesOk;
    WrittenOutWrites(t, key);
    SameEntries(t, WrittenOut(t, key));
  }

  lemma ExpiredOk(t: Table, key: Key)
    requires TableOk(t) && key in t.pending
    ensures TableOk(Expired(t, key))
  {
    SettledKeyOk(t, key, TimedOut);
  }

  // Which request a reply settles

  /** A reply names the request it answers: one that went out on this connection and was not answered yet. */
  ghost predicate Answers(t: Table, w: Sent) {
    w in t.written && w.request !in t.answered
  }

  /** The request still holds its key, or its key is spent. */
  ghost predicate Awaited(t: Table, w: Sent) {
    (w.key in t.pending && t.pending[w.key].request == w.request) || w.key in t.timedOut
  }

  /** A request that may yet be answered, although it is neither pending nor tombstoned. */
  ghost predicate Orphaned(t: Table, w: Sent) {
    Answers(t, w) && !Awaited(t, w)
  }

  /** No request of these reply spaces is orphaned. */
  ghost predicate Faithful(t: Table, spaces: set<Space>) {
    forall w :: Answers(t, w) && w.key.space in spaces ==> Awaited(t, w)
  }

  /** Whoever holds a key is the one every outstanding answer under that key is for. */
  ghost predicate Attributed(t: Table) {
    forall w :: Answers(t, w) && w.key in t.pending ==> t.pending[w.key].request == w.request
  }

  const EVERY_SPACE: set<Space> := {ListSpace, DeliverySpace, ReserveSpace}

  lemma FaithfulAttributed(t: Table)
    requires TableOk(t) && Faithful(t, EVERY_SPACE)
    ensures Attributed(t)
  {
    forall w | Answers(t, w) && w.key in t.pending ensures t.pending[w.key].request == w.request {
      assert Awaited(t, w);
    }
  }

  /** On this connection the token was used in one reply space only. */
  ghost predicate OneSpace(t: Table, w: Sent) {
    forall v :: v in t.written && v.key.token == w.key.token ==> v.key == w.key
  }

  /** A reply settles the request it answers, or nothing, exactly if that request is not orphaned under a key
      someone else holds. */
  lemma ReplySettlesExactly(t: Table, w: Sent, outcome: Outcome)
    requires TableOk(t) && Answers(t, w)
    ensures (SettledKey(t, w.key, outcome).outcomes
              == if w.key in t.pending then t.outcomes[w.request := outcome] else t.outcomes)
            <==> !(w.key in t.pending && Orphaned(t, w))
  {
    if w.key in t.pending && t.pending[w.key].request != w.request {
      var r := t.pending[w.key].request;
      assert r !in t.outcomes[w.request := outcome] && r in SettledKey(t, w.key, outcome).outcomes;
    }
  }

  /** The search by token comes to this request's key: to that key if somebody holds it, and to none otherwise. */
  predicate Finds(pending: map<Key, Pending>, key: Key) {
    Holder(pending, key.token) == if key in pending then Some(key) else None
  }

  /** With a token in one space only, a named error finds the request it answers or nothing. */
  lemma OneSpaceFinds(t: Table, w: Sent)
    requires TableOk(t) && OneSpace(t, w) && forall k :: k in t.pending ==> !t.pending[k].unwritten
    ensures Finds(t.pending, w.key)
  {
    forall k | k in t.pending && k.token == w.key.token ensures k == w.key {
      assert Sent(t.pending[k].request, k) in t.written;
    }
    assert w.key == Key(w.key.space, w.key.token);
  }

  /** A named error settles the request it answers, or nothing, exactly if the search comes to that request's key and
      the request is not orphaned under a key someone else holds. */
  lemma ErrorSettlesExactly(t: Table, w: Sent, outcome: Outcome)
    requires TableOk(t) && Answers(t, w)
    ensures (SettledEither(t, w.key.token, outcome).outcomes
              == if w.key in t.pending then t.outcomes[w.request := outcome] else t.outcomes)
            <==> Finds(t.pending, w.key) && !(w.key in t.pending && Orphaned(t, w))
  {
    var found := Holder(t.pending, w.key.token);
    if found.Some? {
      var r := t.pending[found.value].request;
      assert r !in t.outcomes && r in SettledEither(t, w.key.token, outcome).outcomes;
      if w.key in t.pending && r == w.request {
        OnlyKey(t, w, found.value);
      }
    }
  }

  /** A pending request went out, if it did, under the key it holds. */
  lemma OnlyKey(t: Table, w: Sent, key: Key)
    requires TableOk(t) && w in t.written && key in t.pending && t.pending[key].request == w.request
    ensures w.key == key
  {
    assert !t.pending[key].unwritten;
  }

  // Keeping requests from being orphaned

  /** Answering a request leaves none of its space orphaned, and settles it or nothing. */
  lemma ReplyFaithful(t: Table, spaces: set<Space>, w: Sent, outcome: Outcome)
    requires TableOk(t) && Faithful(t, spaces) && Answers(t, w)
    ensures Faithful(Noted(SettledKey(t, w.key, outcome), Some(w)), spaces)
  {
    var s := Noted(SettledKey(t, w.key, outcome), Some(w));
    forall v | Answers(s, v) && v.key.space in spaces ensures Awaited(s, v) {
      assert Awaited(t, v);
      if v.key == w.key {
        assert Awaited(t, w);
      }
    }
  }

  lemma ErrorFaithful(t: Table, spaces: set<Space>, w: Sent, outcome: Outcome)
    requires TableOk(t) && Faithful(t, spaces) && Answers(t, w) && Finds(t.pending, w.key)
    ensures Faithful(Noted(SettledEither(t, w.key.token, outcome), Some(w)), spaces)
  {
    ReplyFaithful(t, spaces, w, outcome);
  }

  /** Settling entries of other spaces orphans none of these. */
  lemma OthersFaithful(t: Table, spaces: set<Space>, keys: set<Key>, outcome: Outcome, answers: Option<Sent>)
    requires Faithful(t, spaces) && forall k :: k in keys && k in t.pending ==> k.space !in spaces
    ensures Faithful(Noted(SettledAll(t, keys, outcome), answers), spaces)
  {
    var s := Noted(SettledAll(t, keys, outcome), answers);
    forall w | Answers(s, w) && w.key.space in spaces ensures Awaited(s, w) {
      assert Awaited(t, w);
    }
  }

  /** Settling the one entry that was answered is answering it. */
  lemma OneFaithful(t: Table, spaces: set<Space>, keys: set<Key>, outcome: Outcome, w: Sent)
    requires TableOk(t) && Faithful(t, spaces) && Answers(t, w) && keys <= {w.key}
    ensures Faithful(Noted(SettledAll(t, keys, outcome), Some(w)), spaces)
  {
    var s := Noted(SettledAll(t, keys, outcome), Some(w));
    forall v | Answers(s, v) && v.key.space in spaces ensures Awaited(s, v) {
      assert Awaited(t, v);
      if v.key == w.key {
        assert Awaited(t, w);
      }
    }
  }

  lemma HeldFaithful(t: Table, spaces: set<Space>, key: Key, kind: Kind)
    requires Faithful(t, spaces) && key !in t.pending && key !in t.timedOut
    ensures Faithful(Held(t, key, kind), spaces)
  {
    var s := Held(t, key, kind);
    forall w | Answers(s, w) && w.key.space in spaces ensures Awaited(s, w) {
      assert Awaited(t, w);
    }
  }

  lemma WrittenOutFaithful(t: Table, spaces: set<Space>, key: Key)
    requires Faithful(t, spaces) && key in t.pending
    ensures Faithful(WrittenOut(t, key), spaces)
  {
    var s := WrittenOut(t, key);
    forall w | Answers(s, w) && w.key.space in spaces ensures Awaited(s, w) {
      assert w in t.written ==> Awaited(t, w);
    }
  }

  lemma ExpiredFaithful(t: Table, spaces: set<Space>, key: Key)
    requires TableOk(t) && Faithful(t, spaces) && key in t.pending
    ensures Faithful(Expired(t, key), spaces)
  {
    var s := Expired(t, key);
    forall w | Answers(s, w) && w.key.space in spaces ensures Awaited(s, w) {
      assert Awaited(t, w);
    }
  }

  lemma RefusedFaithful(t: Table, spaces: set<Space>, outcome: Outcome)
    requires Faithful(t, spaces)
    ensures Faithful(Refused(t, outcome), spaces)
  {
    var s := Refused(t, outcome);
    forall w | Answers(s, w) && w.key.space in spaces ensures Awaited(s, w) {
      assert Awaited(t, w);
    }
  }

  lemma FlushedFaithful(t: Table, spaces: set<Space>)
    requires t.written == {}
    ensures Faithful(Flushed(t, t.pending.Keys), spaces) && Attributed(Flushed(t, t.pending.Keys))
  {
    var s := Flushed(t, t.pending.Keys);
    forall w | Answers(s, w) ensures w.key in s.pending && s.pending[w.key].request == w.request {
      var k :| k in t.pending && t.pending[k].unwritten && w == Sent(t.pending[k].request, k);
    }
  }

  /** Entries that go, or are answered, leave the rest attributed. */
  lemma FewerAttributed(t: Table, s: Table)
    requires Attributed(t) && s.written <= t.written && t.answered <= s.answered
    requires forall k :: k in s.pending ==> k in t.pending && s.pending[k].request == t.pending[k].request
    ensures Attributed(s)
  {
    forall w | Answers(s, w) && w.key in s.pending ensures s.pending[w.key].request == w.request {
      assert Answers(t, w);
    }
  }

  /** A new request leaves the table attributed exactly if nothing unanswered went out under its key before. */
  lemma IssueAttributesExactly(t: Table, key: Key, kind: Kind)
    requires TableOk(t) && Attributed(t) && key !in t.pending
    ensures Attributed(WrittenOut(Held(t, key, kind), key)) <==> forall w :: Answers(t, w) ==> w.key != key
  {
    var s := WrittenOut(Held(t, key, kind), key);
    if forall w :: Answers(t, w) ==> w.key != key {
      forall w | Answers(s, w) && w.key in s.pending ensures s.pending[w.key].request == w.request {
        assert w == Sent(t.issued, key) || Answers(t, w);
      }
    } else {
      var w :| Answers(t, w) && w.key == key;
      assert Answers(s, w) && s.pending[key].request != w.request;
    }
  }

  lemma UnderGrows(pending: map<Key, Pending>, keys: set<Key>, key: Key)
    requires key in pending
    ensures Under(pending, keys + {key}) == Under(pending, keys) + {pending[key].request}
  {
  }

  lemma MarkedGrows(outcomes: map<nat, Outcome>, requests: set<nat>, r: nat, outcome: Outcome)
    ensures Marked(outcomes, requests, outcome)[r := outcome] == Marked(outcomes, requests + {r}, outcome)
  {
  }

  /** Settling entries one at a time settles them all. */
  lemma SettleOneMore(t: Table, keys: set<Key>, key: Key, outcome: Outcome)
    requires key in t.pending && key !in keys
    ensures SettledKey(SettledAll(t, keys, outcome), key, outcome) == SettledAll(t, keys + {key}, outcome)
  {
    hide Under, Marked;
    UnderGrows(t.pending, keys, key);
    MarkedGrows(t.outcomes, Under(t.pending, keys), t.pending[key].request, outcome);
    assert t.pending - keys - {key} == t.pending - (keys + {key});
    assert t.timers - Under(t.pending, keys) - {t.pending[key].request} == t.timers - Under(t.pending, keys + {key});
  }

  lemma SettleNone(t: Table, outcome: Outcome)
    ensures SettledAll(t, {}, outcome) == t
  {
    assert t.pending - {} == t.pending;
  }

  // Flushing

  /** The entries under some keys, written. */
  function Flushed(t: Table, keys: set<Key>): Table {
    t.(pending := map k | k in t.pending :: if k in keys then t.pending[k].(unwritten := false) else t.pending[k],
       written := t.written
                  + set k | k in t.pending && k in keys && t.pending[k].unwritten :: Sent(t.pending[k].request, k))
  }

  lemma FlushNone(t: Table)
    ensures Flushed(t, {}) == t
  {
    assert Flushed(t, {}).pending == t.pending;
  }

  lemma FlushOneMore(t: Table, keys: set<Key>, key: Key)
    requires key in t.pending && key !in keys
    ensures Flushed(t, keys + {key})
         == if t.pending[key].unwritten then WrittenOut(Flushed(t, keys), key) else Flushed(t, keys)
  {
    var s, u := Flushed(t, keys), Flushed(t, keys + {key});
    if t.pending[key].unwritten {
      assert u.pending == WrittenOut(s, key).pending;
      assert u.written == WrittenOut(s, key).written;
    } else {
      assert u.pending == s.pending;
      assert u.written == s.written;
    }
  }

  /** A connection that ends while it is being flushed ends as if nothing had been. */
  lemma EndedFlushed(t: Table, keys: set<Key>, outcome: Outcome)
    ensures Ended(Flushed(t, keys), outcome) == Ended(t, outcome)
  {
    var s := Flushed(t, keys);
    assert s.pending.Keys == t.pending.Keys;
    assert Under(s.pending, s.pending.Keys) == Under(t.pending, t.pending.Keys) by {
      assert forall k :: k in t.pending ==> s.pending[k].request == t.pending[k].request;
    }
    assert s.pending - s.pending.Keys == map[] && t.pending - t.pending.Keys == map[];
  }

  lemma FlushKeeps(t: Table, keys: set<Key>, key: Key)
    requires key in t.pending && key !in keys
    ensures Flushed(t, keys).pending.Keys == t.pending.Keys && Flushed(t, keys).pending[key] == t.pending[key]
  {
  }

  /** Notes, for the record, which of the requests that went out the relay answered. */
  function Noted(t: Table, answers: Option<Sent>): Table {
    if answers.None? || answers.value !in t.written then t
    else t.(answered := t.answered + {answers.value.request})
  }

  lemma EitherOk(t: Table, token: string, outcome: Outcome)
    requires TableOk(t)
    ensures TableOk(SettledEither(t, token, outcome))
  {
    if Holder(t.pending, token).Some? {
      SettledKeyOk(t, Holder(t.pending, token).value, outcome);
    }
  }
}
