/**
 The extension's session machine: joins, session starts and shutdowns, which race
 at their awaits under one generation counter, and the purpose text a session
 hands out.

 A task runs from one await to the next without interruption and is kept, while
 it waits, under the generation it took. Stopping a client marks it stopped at
 once and then awaits its socket.
 */
module Session {
  import opened Basics
  import opened RelayClient

  datatype Startup = Auto | Manual

  /** The room a configuration names, and the peer name to hold in it. */
  datatype Place = Place(project: string, task: string, peer: string)

  datatype Resolved = Resolved(place: Place, startup: Startup, purpose: Option<string>)

  /** Where a task waits. */
  datatype Task =
    | JoinResolving
    | JoinStopping(resolved: Resolved)
    | JoinListing(resolved: Resolved, active: nat, kept: bool)
    | StartStopping(interactive: bool)
    | StartLoading
    | StartResolving

  datatype Report = Report(active: nat, place: Place, purpose: Option<string>, kept: bool)

  datatype Output = Silent | Joined(report: Report) | Superseded | Injected(purpose: Option<string>)

  datatype Event =
    | Joins
    | Starts(interactive: bool)
    | ShutsDown
    | Resolves(g: nat, outcome: Option<Resolved>)
    | Stops(g: nat)
    | Loads(g: nat, proceeds: bool)
    | Lists(g: nat)
    | Delivers(c: nat, deferred: bool)
    | Moves(c: nat, phase: Phase)

  /** The session at one moment. `clients` holds every client ever made, and the phase it is in. */
  datatype State = State(
    generation: nat, client: Option<nat>, live: Option<Resolved>, clients: map<nat, Phase>, nextClient: nat,
    tasks: map<nat, Task>, pendingPurpose: Option<string>, purposeDelivered: bool)

  const NEW_SESSION := State(0, None, None, map[], 0, map[], None, false)

  // What each event does

  function Armed(m: State, resolved: Resolved): (n: State)
    ensures n.tasks == m.tasks && n.generation == m.generation
  {
    if resolved.startup != Auto then m
    else m.(pendingPurpose := if m.purposeDelivered then None else resolved.purpose)
  }

  function Connected(m: State, resolved: Resolved): (n: State)
    ensures n.tasks == m.tasks && n.generation == m.generation
  {
    m.(clients := m.clients[m.nextClient := Connecting], nextClient := m.nextClient + 1,
       client := Some(m.nextClient), live := Some(resolved))
  }

  function Retired(m: State): (n: State)
    ensures n.tasks == m.tasks && n.generation == m.generation
  {
    m.(clients := if m.client.Some? then m.clients[m.client.value := Stopped] else m.clients,
       client := None, live := None)
  }

  function Waiting(m: State, g: nat, task: Task): State {
    m.(tasks := m.tasks[g := task])
  }

  function Left(m: State, g: nat): State {
    m.(tasks := m.tasks - {g})
  }

  /** The current client is ready in the very place a configuration names. */
  predicate ReadyThere(m: State, resolved: Resolved) {
    && m.client.Some? && m.client.value in m.clients && m.clients[m.client.value] == Ready
    && m.live.Some? && m.live.value.place == resolved.place
  }

  /** A client for the place is installed, and its roster is awaited. */
  function Rejoined(m: State, g: nat, resolved: Resolved): State {
    Waiting(Connected(m, resolved), g, JoinListing(resolved, m.nextClient, false))
  }

  function AfterJoinResolved(m: State, g: nat, outcome: Option<Resolved>): State {
    if g != m.generation || outcome.None? then Left(m, g)
    else
      var resolved := outcome.value;
      var armed := Armed(Left(m, g), resolved);
      if ReadyThere(m, resolved) then Waiting(armed, g, JoinListing(resolved, m.client.value, true))
      else if m.client.Some? then Waiting(Retired(armed), g, JoinStopping(resolved))
      else Rejoined(Retired(armed), g, resolved)
  }

  function AfterJoinStopped(m: State, g: nat, resolved: Resolved): State {
    if g != m.generation then Left(m, g) else Rejoined(Left(m, g), g, resolved)
  }

  /** The purpose a join reports: under `manual`, and once a session. */
  function ReportedPurpose(m: State, resolved: Resolved): Option<string> {
    if resolved.startup == Auto || m.purposeDelivered then None else resolved.purpose
  }

  function AfterJoinListed(m: State, g: nat, resolved: Resolved): State {
    if g != m.generation then Left(m, g)
    else
      Left(m, g).(pendingPurpose := if resolved.startup == Auto then m.pendingPurpose else None,
                  purposeDelivered := m.purposeDelivered || ReportedPurpose(m, resolved).Some?)
  }

  function AfterSessionStarts(m: State, interactive: bool): State {
    var g := m.generation + 1;
    var reset := Retired(m.(generation := g, pendingPurpose := None, purposeDelivered := false));
    if m.client.Some? then Waiting(reset, g, StartStopping(interactive))
    else if interactive then Waiting(reset, g, StartLoading)
    else reset
  }

  function AfterStartResolved(m: State, g: nat, outcome: Option<Resolved>): State {
    if g != m.generation || outcome.None? then Left(m, g)
    else Connected(Armed(Left(m, g), outcome.value), outcome.value)
  }

  function AfterDelivery(m: State, deferred: bool): State {
    if deferred || m.pendingPurpose.None? then m else m.(pendingPurpose := None, purposeDelivered := true)
  }

  function Next(m: State, event: Event): State {
    match event
    case Joins => Waiting(m.(generation := m.generation + 1), m.generation + 1, JoinResolving)
    case Starts(interactive) => AfterSessionStarts(m, interactive)
    case ShutsDown => Retired(m.(generation := m.generation + 1, pendingPurpose := None))
    case Resolves(g, outcome) =>
      if g in m.tasks && m.tasks[g].JoinResolving? then AfterJoinResolved(m, g, outcome)
      else if g in m.tasks && m.tasks[g].StartResolving? then AfterStartResolved(m, g, outcome)
      else m
    case Stops(g) =>
      if g in m.tasks && m.tasks[g].JoinStopping? then AfterJoinStopped(m, g, m.tasks[g].resolved)
      else if g in m.tasks && m.tasks[g].StartStopping? then
        if m.tasks[g].interactive && g == m.generation then Waiting(Left(m, g), g, StartLoading) else Left(m, g)
      else m
    case Loads(g, proceeds) =>
      if g in m.tasks && m.tasks[g].StartLoading? then
        if proceeds && g == m.generation then Waiting(Left(m, g), g, StartResolving) else Left(m, g)
      else m
    case Lists(g) =>
      if g in m.tasks && m.tasks[g].JoinListing? then AfterJoinListed(m, g, m.tasks[g].resolved) else m
    case Delivers(c, deferred) => if c in m.clients && m.clients[c] == Ready then AfterDelivery(m, deferred) else m
    case Moves(c, phase) =>
      if c in m.clients && m.clients[c] != Stopped then m.(clients := m.clients[c := phase]) else m
  }

  function Produced(m: State, event: Event): Output {
    match event
    case Lists(g) =>
      if !(g in m.tasks && m.tasks[g].JoinListing?) then Silent
      else if g != m.generation then Superseded
      else
        var task := m.tasks[g];
        Joined(Report(task.active, task.resolved.place, ReportedPurpose(m, task.resolved), task.kept))
    case Delivers(c, deferred) =>
      if c in m.clients && m.clients[c] == Ready then Injected(if deferred then None else m.pendingPurpose) else Silent
    case _ => Silent
  }

  // Invariants

  /** Any client that is not stopped is the current one. */
  ghost predicate OneRunning(m: State) {
    && (forall c :: c in m.clients && m.clients[c] != Stopped ==> m.client == Some(c))
    && (m.client.Some? ==> m.client.value in m.clients)
    && (m.live.Some? <==> m.client.Some?)
    && (forall c :: c in m.clients ==> c < m.nextClient)
  }

  /** Only the task of the newest generation may still act, and it knows who is current and where. */
  ghost predicate NewestKnows(m: State) {
    && (forall g :: g in m.tasks ==> 1 <= g <= m.generation)
    && (m.generation in m.tasks ==>
          match m.tasks[m.generation]
          case JoinResolving => true
          case JoinListing(resolved, active, _) =>
            m.client == Some(active) && m.live.Some? && m.live.value.place == resolved.place
          case _ => m.client.None?)
  }

  ghost predicate Coherent(m: State) {
    OneRunning(m) && NewestKnows(m) && (m.pendingPurpose.Some? ==> !m.purposeDelivered)
  }

  class Extension {
    var generation: nat
    var client: Option<nat>
    var live: Option<Resolved>
    var pendingPurpose: Option<string>
    var purposeDelivered: bool
    var clients: map<nat, Phase>
    var nextClient: nat
    var tasks: map<nat, Task>

    ghost function Now(): State
      reads this
    {
      State(generation, client, live, clients, nextClient, tasks, pendingPurpose, purposeDelivered)
    }

    ghost predicate Valid()
      reads this
    {
      Coherent(Now())
    }

    constructor ()
      ensures Valid() && Now() == NEW_SESSION
    {
      generation, client, live := 0, None, None;
      pendingPurpose, purposeDelivered := None, false;
      clients, nextClient, tasks := map[], 0, map[];
    }

    method ArmPurpose(resolved: Resolved)
      modifies this`pendingPurpose
      ensures Now() == Armed(old(Now()), resolved)
    {
      if resolved.startup == Auto {
        pendingPurpose := if purposeDelivered then None else resolved.purpose;
      }
    }

    /** Makes a client, installs it and starts it. */
    method Connect(resolved: Resolved) returns (next: nat)
      requires OneRunning(Now()) && client.None?
      modifies this`clients, this`client, this`live, this`nextClient
      ensures OneRunning(Now()) && Now() == Connected(old(Now()), resolved)
      ensures next !in old(clients) && client == Some(next)
    {
      next := nextClient;
      nextClient := nextClient + 1;
      clients := clients[next := Connecting];
      client := Some(next);
      live := Some(resolved);
    }

    /** Takes the current client out and stops it; says whether there was one to wait for. */
    method Retire() returns (waits: bool)
      requires OneRunning(Now())
      modifies this`clients, this`client, this`live
      ensures OneRunning(Now()) && Now() == Retired(old(Now())) && waits == old(client).Some?
      ensures forall c :: c in clients ==> clients[c] == Stopped
    {
      waits := client.Some?;
      if waits {
        clients := clients[client.value := Stopped];
      }
      client := None;
      live := None;
    }

    // Joining

    method BeginJoin()
      requires Valid()
      modifies this`generation, this`tasks
      ensures Valid() && Now() == Next(old(Now()), Joins)
    {
      generation := generation + 1;
      tasks := tasks[generation := JoinResolving];
    }

    /** The configuration came back: keep the live connection if nothing changed, or replace it. */
    method JoinResolved(g: nat, outcome: Option<Resolved>)
      requires Valid() && g in tasks && tasks[g].JoinResolving?
      modifies this
      ensures Valid() && Now() == AfterJoinResolved(old(Now()), g, outcome)
      ensures g != generation || outcome.None? ==>
                && tasks == old(tasks) - {g} && clients == old(clients) && client == old(client)
                && pendingPurpose == old(pendingPurpose)
      ensures client.Some? && client != old(client) ==> g == generation && client.value !in old(clients)
    {
      tasks := tasks - {g};
      if g != generation || outcome.None? {
        return;
      }
      var resolved := outcome.value;
      ArmPurpose(resolved);
      if live.Some? && clients[client.value] == Ready && live.value.place == resolved.place {
        tasks := tasks[g := JoinListing(resolved, client.value, true)];
        return;
      }
      var waits := Retire();
      if waits {
        tasks := tasks[g := JoinStopping(resolved)];
        return;
      }
      var active := Connect(resolved);
      tasks := tasks[g := JoinListing(resolved, active, false)];
    }

    /** The previous client's socket closed. */
    method JoinStopped(g: nat)
      requires Valid() && g in tasks && tasks[g].JoinStopping?
      modifies this
      ensures Valid() && Now() == AfterJoinStopped(old(Now()), g, old(tasks)[g].resolved)
      ensures g != generation ==> tasks == old(tasks) - {g} && clients == old(clients) && client == old(client)
      ensures client.Some? && client != old(client) ==> g == generation && client.value !in old(clients)
    {
      var resolved := tasks[g].resolved;
      tasks := tasks - {g};
      if g != generation {
        return;
      }
      var active := Connect(resolved);
      tasks := tasks[g := JoinListing(resolved, active, false)];
    }

    /** The roster came back or failed: the newest join reports, and under `manual` it decides the purpose here. */
    method JoinListed(g: nat) returns (output: Output)
      requires Valid() && g in tasks && tasks[g].JoinListing?
      modifies this`tasks, this`pendingPurpose, this`purposeDelivered
      ensures Valid() && Now() == AfterJoinListed(old(Now()), g, old(tasks)[g].resolved)
      ensures output == Produced(old(Now()), Lists(g))
      ensures output.Joined? <==> g == generation
      ensures output.Joined? ==>
                && client == Some(output.report.active) && live.Some? && output.report.place == live.value.place
                && (output.report.purpose.Some? <==>
                      && old(tasks)[g].resolved.startup == Manual && old(tasks)[g].resolved.purpose.Some?
                      && !old(purposeDelivered))
                && (purposeDelivered <==> old(purposeDelivered) || output.report.purpose.Some?)
    {
      var task := tasks[g];
      tasks := tasks - {g};
      if g != generation {
        return Superseded;
      }
      var purpose: Option<string> := None;
      if task.resolved.startup != Auto {
        purpose := if purposeDelivered then None else task.resolved.purpose;
        pendingPurpose := None;
        if purpose.Some? {
          purposeDelivered := true;
        }
      }
      return Joined(Report(task.active, task.resolved.place, purpose, task.kept));
    }

    // Sessions

    method SessionStarts(interactive: bool)
      requires Valid()
      modifies this
      ensures Valid() && Now() == AfterSessionStarts(old(Now()), interactive)
      ensures client.None? && !purposeDelivered && pendingPurpose.None?
      ensures forall c :: c in clients ==> clients[c] == Stopped
    {
      generation := generation + 1;
      pendingPurpose := None;
      purposeDelivered := false;
      var waits := Retire();
      if waits {
        tasks := tasks[generation := StartStopping(interactive)];
      } else if interactive {
        tasks := tasks[generation := StartLoading];
      }
    }

    method StartStopped(g: nat)
      requires Valid() && g in tasks && tasks[g].StartStopping?
      modifies this`tasks
      ensures Valid() && Now() == Next(old(Now()), Stops(g))
    {
      var interactive := tasks[g].interactive;
      tasks := tasks - {g};
      if interactive && g == generation {
        tasks := tasks[g := StartLoading];
      }
    }

    /** The global configuration came back; only a valid one that says `auto` goes on. */
    method StartLoaded(g: nat, proceeds: bool)
      requires Valid() && g in tasks && tasks[g].StartLoading?
      modifies this`tasks
      ensures Valid() && Now() == Next(old(Now()), Loads(g, proceeds))
    {
      tasks := tasks - {g};
      if proceeds && g == generation {
        tasks := tasks[g := StartResolving];
      }
    }

    method StartResolved(g: nat, outcome: Option<Resolved>)
      requires Valid() && g in tasks && tasks[g].StartResolving?
      modifies this
      ensures Valid() && Now() == AfterStartResolved(old(Now()), g, outcome)
      ensures g != generation || outcome.None? ==>
                clients == old(clients) && client == old(client) && pendingPurpose == old(pendingPurpose)
      ensures client.Some? && client != old(client) ==> g == generation && client.value !in old(clients)
    {
      tasks := tasks - {g};
      if g != generation || outcome.None? {
        return;
      }
      ArmPurpose(outcome.value);
      var _ := Connect(outcome.value);
    }

    method SessionShutsDown()
      requires Valid()
      modifies this
      ensures Valid() && Now() == Next(old(Now()), ShutsDown)
      ensures client.None? && pendingPurpose.None? && forall c :: c in clients ==> clients[c] == Stopped
    {
      generation := generation + 1;
      pendingPurpose := None;
      var _ := Retire();
    }

    // The running client

    /** A delivery reaches the host; one that is deferred leaves the purpose owed. */
    method OnDelivery(c: nat, deferred: bool) returns (output: Output)
      requires Valid() && c in clients && clients[c] == Ready
      modifies this`pendingPurpose, this`purposeDelivered
      ensures Valid() && client == Some(c) && Now() == AfterDelivery(old(Now()), deferred)
      ensures output == Injected(if deferred then None else old(pendingPurpose))
      ensures purposeDelivered <==> old(purposeDelivered) || output.purpose.Some?
    {
      var purpose := if deferred then None else pendingPurpose;
      if purpose.Some? {
        pendingPurpose := None;
        purposeDelivered := true;
      }
      return Injected(purpose);
    }

    /** A running client connects, disconnects, or is displaced and stops for good. */
    method ClientMoves(c: nat, phase: Phase)
      requires Valid() && c in clients && clients[c] != Stopped
      modifies this`clients
      ensures Valid() && Now() == Next(old(Now()), Moves(c, phase))
    {
      clients := clients[c := phase];
    }

    /** Resumes the task or runs the handler an event is for, if there is one. */
    method Handle(event: Event) returns (output: Output)
      requires Valid()
      modifies this
      ensures Valid() && Now() == Next(old(Now()), event) && output == Produced(old(Now()), event)
    {
      hide Coherent;
      output := Silent;
      match event {
        case Joins => BeginJoin();
        case Starts(interactive) => SessionStarts(interactive);
        case ShutsDown => SessionShutsDown();
        case Resolves(g, outcome) =>
          if g in tasks && tasks[g].JoinResolving? {
            JoinResolved(g, outcome);
          } else if g in tasks && tasks[g].StartResolving? {
            StartResolved(g, outcome);
          }
        case Stops(g) =>
          if g in tasks && tasks[g].JoinStopping? {
            JoinStopped(g);
          } else if g in tasks && tasks[g].StartStopping? {
            StartStopped(g);
          }
        case Loads(g, proceeds) =>
          if g in tasks && tasks[g].StartLoading? {
            StartLoaded(g, proceeds);
          }
        case Lists(g) =>
          if g in tasks && tasks[g].JoinListing? {
            output := JoinListed(g);
          }
        case Delivers(c, deferred) =>
          if c in clients && clients[c] == Ready {
            output := OnDelivery(c, deferred);
          }
        case Moves(c, phase) =>
          if c in clients && clients[c] != Stopped {
            ClientMoves(c, phase);
          }
      }
    }

    /** Any interleaving of joins, session starts, shutdowns, deliveries and the life of the clients. */
    method Run(events: seq<Event>) returns (outputs: seq<Output>, ghost trace: seq<State>)
      requires Valid()
      modifies this
      ensures Valid() && Happened(trace, events, outputs) && trace[0] == old(Now())
      ensures forall i :: 0 <= i < |trace| ==> OneClient(trace[i])
      ensures forall i, j :: 0 <= i < j < |events| && Hands(outputs[i]) && Hands(outputs[j]) ==>
                StartsBetween(events, i, j)
    {
      hide Coherent, Next, Produced;
      outputs, trace := [], [Now()];
      for n := 0 to |events|
        invariant Valid() && |outputs| == n && |trace| == n + 1 && trace[0] == old(Now()) && trace[n] == Now()
        invariant forall i :: 0 <= i < |trace| ==> Coherent(trace[i])
        invariant forall i :: 0 <= i < n ==>
                    trace[i + 1] == Next(trace[i], events[i]) && outputs[i] == Produced(trace[i], events[i])
      {
        var output := Handle(events[n]);
        outputs := outputs + [output];
        trace := trace + [Now()];
      }
      forall i | 0 <= i < |trace| ensures OneClient(trace[i]) {
        CoherentOneClient(trace[i]);
      }
      forall i, j | 0 <= i < j < |events| && Hands(outputs[i]) && Hands(outputs[j])
        ensures StartsBetween(events, i, j)
      {
        HandsOncePerSession(trace, events, outputs, i, j);
      }
    }
  }

  // Runs

  /** `trace` is what the session went through while `events` happened, and `outputs` what it produced. */
  ghost predicate Happened(trace: seq<State>, events: seq<Event>, outputs: seq<Output>) {
    && |trace| == |events| + 1 && |outputs| == |events|
    && (forall i :: 0 <= i < |trace| ==> Coherent(trace[i]))
    && forall i :: 0 <= i < |events| ==>
         trace[i + 1] == Next(trace[i], events[i]) && outputs[i] == Produced(trace[i], events[i])
  }

  /** At most one client is not stopped, and it is the one the session knows. */
  ghost predicate OneClient(m: State) {
    && (forall c, d :: c in m.clients && d in m.clients && m.clients[c] != Stopped && m.clients[d] != Stopped ==>
          c == d)
    && (forall c :: c in m.clients && m.clients[c] != Stopped ==> m.client == Some(c))
  }

  lemma CoherentOneClient(m: State)
    requires Coherent(m)
    ensures OneClient(m)
  {
  }

  /** Only a resumption of the newest generation installs a client, and the client is new. */
  lemma NewestInstalls(trace: seq<State>, events: seq<Event>, outputs: seq<Output>, i: nat)
    requires Happened(trace, events, outputs) && i < |events|
    requires trace[i + 1].client.Some? && trace[i + 1].client != trace[i].client
    ensures (events[i].Resolves? || events[i].Stops?) && events[i].g == trace[i].generation == trace[i + 1].generation
    ensures trace[i + 1].client.value !in trace[i].clients
  {
    assert Coherent(trace[i]) && trace[i + 1] == Next(trace[i], events[i]);
  }

  // The purpose

  /** The purpose text leaves the session, in a report or in front of a delivery. */
  predicate Hands(output: Output) {
    || (output.Joined? && output.report.purpose.Some?)
    || (output.Injected? && output.purpose.Some?)
  }

  lemma HandsOnce(m: State, event: Event)
    requires Coherent(m)
    ensures Hands(Produced(m, event)) ==> !m.purposeDelivered && Next(m, event).purposeDelivered
    ensures m.purposeDelivered && !event.Starts? ==> Next(m, event).purposeDelivered
  {
  }

  ghost predicate StartsBetween(events: seq<Event>, i: nat, j: nat) {
    exists k :: i < k < j && k < |events| && events[k].Starts?
  }

  lemma {:induction false} StaysDelivered(trace: seq<State>, events: seq<Event>, outputs: seq<Output>, i: nat, j: nat)
    requires Happened(trace, events, outputs) && i < j < |trace| && Hands(outputs[i])
    ensures trace[j].purposeDelivered || StartsBetween(events, i, j)
    decreases j
  {
    hide Coherent, Next, Produced;
    if i + 1 == j {
      HandsOnce(trace[i], events[i]);
    } else {
      StaysDelivered(trace, events, outputs, i, j - 1);
      HandsOnce(trace[j - 1], events[j - 1]);
      assert events[j - 1].Starts? ==> i < j - 1 < j;
    }
  }

  /** Two hand-outs of the purpose have a session start between them. */
  lemma HandsOncePerSession(trace: seq<State>, events: seq<Event>, outputs: seq<Output>, i: nat, j: nat)
    requires Happened(trace, events, outputs) && i < j < |events| && Hands(outputs[i]) && Hands(outputs[j])
    ensures StartsBetween(events, i, j)
  {
    hide Coherent, Next, Produced;
    StaysDelivered(trace, events, outputs, i, j);
    HandsOnce(trace[j], events[j]);
  }

  /** What leaves an owed purpose as it is. */
  predicate LeavesDebt(m: State, event: Event) {
    match event
    case Starts(_) => false
    case ShutsDown => false
    case Resolves(g, outcome) => g != m.generation || outcome.None?
    case Lists(g) =>
      g != m.generation || (g in m.tasks && m.tasks[g].JoinListing? ==> m.tasks[g].resolved.startup == Auto)
    case Delivers(c, deferred) => deferred || !(c in m.clients && m.clients[c] == Ready)
    case _ => true
  }

  lemma DebtStays(m: State, event: Event)
    requires LeavesDebt(m, event)
    ensures Next(m, event).pendingPurpose == m.pendingPurpose
  {
  }

  lemma {:induction false} DebtHolds(trace: seq<State>, events: seq<Event>, outputs: seq<Output>, i: nat, j: nat)
    requires Happened(trace, events, outputs) && i <= j < |trace|
    requires forall k :: i <= k < j ==> LeavesDebt(trace[k], events[k])
    ensures trace[j].pendingPurpose == trace[i].pendingPurpose
    decreases j
  {
    hide Coherent, Next, Produced, LeavesDebt;
    if i < j {
      DebtHolds(trace, events, outputs, i, j - 1);
      DebtStays(trace[j - 1], events[j - 1]);
    }
  }

  /** Whether an event resolves the configuration of the newest task, for a join or for a start. */
  predicate ResolvesNewest(m: State, event: Event) {
    && event.Resolves? && event.g == m.generation && event.outcome.Some? && event.g in m.tasks
    && (m.tasks[event.g].JoinResolving? || m.tasks[event.g].StartResolving?)
  }

  /** Under `auto`, the purpose a configuration names rides the first delivery that is not deferred, unless this session
      has handed it out already. */
  lemma PurposeRidesFirstDelivery(trace: seq<State>, events: seq<Event>, outputs: seq<Output>, i: nat, j: nat)
    requires Happened(trace, events, outputs) && i < j < |events| && ResolvesNewest(trace[i], events[i])
    requires events[i].outcome.value.startup == Auto
    requires forall k :: i < k < j ==> LeavesDebt(trace[k], events[k])
    requires events[j].Delivers? && !events[j].deferred
    requires events[j].c in trace[j].clients && trace[j].clients[events[j].c] == Ready
    ensures outputs[j]
         == Injected(if trace[i].purposeDelivered then None else events[i].outcome.value.purpose)
  {
    DebtArises(trace[i], events[i]);
    hide Coherent, Next, LeavesDebt;
    DebtHolds(trace, events, outputs, i + 1, j);
  }

  lemma DebtArises(m: State, event: Event)
    requires ResolvesNewest(m, event) && event.outcome.value.startup == Auto
    ensures Next(m, event).pendingPurpose == if m.purposeDelivered then None else event.outcome.value.purpose
  {
  }

  // Joins and starts

  /** A newest join whose configuration resolves keeps the client that is ready in that very place, and otherwise is on
      the way to a new one there: at once, or when the old one has stopped. */
  lemma JoinLeads(m: State, g: nat, resolved: Resolved)
    requires Coherent(m) && g == m.generation && g in m.tasks && m.tasks[g].JoinResolving?
    ensures var n := Next(m, Resolves(g, Some(resolved)));
            && g in n.tasks && n.generation == g
            && if m.client.Some? && m.clients[m.client.value] == Ready && m.live.value.place == resolved.place
               then && n.tasks[g] == JoinListing(resolved, m.client.value, true)
                    && n.client == m.client && n.live == m.live
               else if m.client.Some?
               then n.tasks[g] == JoinStopping(resolved) && n.client.None? && n.clients[m.client.value] == Stopped
               else && n.client.Some? && n.client.value !in m.clients && n.live == Some(resolved)
                    && n.tasks[g] == JoinListing(resolved, n.client.value, false)
  {
  }

  /** Once the old client has stopped, a newest join has a new one in its place. */
  lemma JoinGoesOn(m: State, g: nat)
    requires Coherent(m) && g == m.generation && g in m.tasks && m.tasks[g].JoinStopping?
    ensures var n := Next(m, Stops(g));
            && n.client.Some? && n.client.value !in m.clients && n.live == Some(m.tasks[g].resolved)
            && n.generation == g && g in n.tasks
            && n.tasks[g] == JoinListing(m.tasks[g].resolved, n.client.value, false)
  {
  }

  /** A newest start that resolves leads to a new client in that place. */
  lemma StartLeads(m: State, g: nat, resolved: Resolved)
    requires Coherent(m) && g == m.generation && g in m.tasks && m.tasks[g].StartResolving?
    ensures var n := Next(m, Resolves(g, Some(resolved)));
            n.client.Some? && n.client.value !in m.clients && n.live == Some(resolved) && g !in n.tasks
  {
  }

  /** An interactive start of a session goes from stopping, if there is a client, through loading to resolving. */
  lemma StartGoesOn(m: State)
    requires Coherent(m)
    ensures var n := Next(m, Starts(true));
            var g := n.generation;
            && g == m.generation + 1 && g in n.tasks
            && n.tasks[g] == (if m.client.Some? then StartStopping(true) else StartLoading)
            && var l := if m.client.Some? then Next(n, Stops(g)) else n;
               && g in l.tasks && l.tasks[g] == StartLoading
               && g in Next(l, Loads(g, true)).tasks && Next(l, Loads(g, true)).tasks[g] == StartResolving
  {
  }

  /** Which events a task of a generation waits for. */
  predicate Concerns(event: Event, g: nat) {
    || (event.Resolves? && event.g == g) || (event.Stops? && event.g == g)
    || (event.Loads? && event.g == g) || (event.Lists? && event.g == g)
  }

  /** Whether an event begins a new generation. */
  predicate Supersedes(event: Event) {
    event.Joins? || event.Starts? || event.ShutsDown?
  }

  lemma TaskStays(m: State, event: Event, g: nat)
    requires Coherent(m) && g in m.tasks && !Concerns(event, g)
    ensures g in Next(m, event).tasks && Next(m, event).tasks[g] == m.tasks[g]
    ensures !Supersedes(event) ==> Next(m, event).generation == m.generation
  {
    hide Armed, Connected, Retired, ReadyThere, OneRunning;
  }

  lemma {:induction false} TaskWaits(trace: seq<State>, events: seq<Event>, outputs: seq<Output>,
                                     i: nat, j: nat, g: nat)
    requires Happened(trace, events, outputs) && i <= j < |trace| && g in trace[i].tasks && g == trace[i].generation
    requires forall k :: i <= k < j ==> !Concerns(events[k], g) && !Supersedes(events[k])
    ensures g in trace[j].tasks && trace[j].tasks[g] == trace[i].tasks[g] && trace[j].generation == g
    decreases j
  {
    hide Coherent, Next, Produced;
    if i < j {
      TaskWaits(trace, events, outputs, i, j - 1, g);
      TaskStays(trace[j - 1], events[j - 1], g);
    }
  }

  /** A join nothing supersedes, whose configuration resolves at `i`, whose old client, if one had to go, stops at `s`,
      and whose roster comes back at `j`, reports the place it resolved to from a client that is in that place; and it
      says that the connection was kept exactly if that client was ready there before. */
  lemma JoinReports(trace: seq<State>, events: seq<Event>, outputs: seq<Output>, i: nat, s: nat, j: nat,
                    g: nat, resolved: Resolved)
    requires Happened(trace, events, outputs) && i < j < |events|
    requires g == trace[i].generation && g in trace[i].tasks && trace[i].tasks[g].JoinResolving?
    requires events[i] == Resolves(g, Some(resolved)) && events[j] == Lists(g)
    requires trace[i].client.Some? && !ReadyThere(trace[i], resolved) ==> i < s < j && events[s] == Stops(g)
    requires forall k :: i < k < j ==> !Supersedes(events[k])
    requires forall k :: i < k < j && Concerns(events[k], g) ==>
               k == s && trace[i].client.Some? && !ReadyThere(trace[i], resolved)
    ensures outputs[j].Joined? && outputs[j].report.place == resolved.place
    ensures trace[j].client == Some(outputs[j].report.active)
    ensures trace[j].live.Some? && trace[j].live.value.place == resolved.place
    ensures outputs[j].report.kept <==> ReadyThere(trace[i], resolved)
  {
    assert Coherent(trace[i]) && Coherent(trace[j]);
    JoinLeads(trace[i], g, resolved);
    if trace[i].client.Some? && !ReadyThere(trace[i], resolved) {
      assert Coherent(trace[s]);
      hide Coherent, Next, Concerns;
      TaskWaits(trace, events, outputs, i + 1, s, g);
      JoinGoesOn(trace[s], g);
      TaskWaits(trace, events, outputs, s + 1, j, g);
    } else {
      hide Coherent, Next, Concerns;
      TaskWaits(trace, events, outputs, i + 1, j, g);
    }
    ListedReports(trace[j], g);
  }

  lemma ListedReports(m: State, g: nat)
    requires Coherent(m) && g == m.generation && g in m.tasks && m.tasks[g].JoinListing?
    ensures var output := Produced(m, Lists(g));
            && output.Joined? && output.report.place == m.tasks[g].resolved.place
            && m.client == Some(output.report.active) && output.report.kept == m.tasks[g].kept
            && m.live.Some? && m.live.value.place == output.report.place
  {
  }

  /** Every report of any run names the place of the current client, and comes from the newest generation. */
  lemma ReportsNameThePlace(trace: seq<State>, events: seq<Event>, outputs: seq<Output>, i: nat)
    requires Happened(trace, events, outputs) && i < |events|
    ensures outputs[i].Joined? <==>
              && events[i].Lists? && events[i].g == trace[i].generation
              && events[i].g in trace[i].tasks && trace[i].tasks[events[i].g].JoinListing?
    ensures outputs[i].Joined? ==>
              && trace[i].client == trace[i + 1].client == Some(outputs[i].report.active)
              && trace[i].live.Some? && trace[i].live.value.place == outputs[i].report.place
  {
    assert Coherent(trace[i]);
    assert trace[i + 1] == Next(trace[i], events[i]) && outputs[i] == Produced(trace[i], events[i]);
  }
}
