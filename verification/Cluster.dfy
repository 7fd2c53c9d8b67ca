/**
 * The workers together: one broadcast log, a read cursor per worker, and every interleaving of the
 * workers' steps. Each worker keeps a history from which, and from nothing else, the inputs of its
 * tasks can be told.
 */
module Cluster {
  import opened Seqs
  import opened Net
  import opened Tasks
  import opened Routing
  import opened RoutingSafety

  /** What happened at a worker, as far as routing goes. */
  datatype Event =
    | Created(id: TaskId, task: Task)
    | PolledEngine(id: TaskId, eo: EngineOutput)
    | Took(id: TaskId, out: TaskOutput)
    | ReadBus(ev: BusEvent)
    | Removed(id: TaskId)

  datatype Node = Node(
    tables: Tables, roles: map<TaskId, Role>, start: nat, cursor: nat,
    hist: seq<Event>, inputs: seq<(TaskId, TaskInput)>)

  /** An event on the bus, and who broadcast it. */
  datatype Entry = Entry(worker: nat, task: TaskId, ev: BusEvent)

  datatype System = System(log: seq<Entry>, nodes: seq<Node>)

  /** One access of a worker to its tables, a task, the bus or its socket. */
  datatype NodeStep =
    | NewStep(role: Role, reqId: nat, builds: bool, ufrag: string, engine: Engine, audio: TrackId, video: TrackId)
    | TakeStep(id: TaskId, now: Time, free: bool)   // `free`: the socket has a slot for a send
    | ReadStep(rs: seq<Reaction>)
    | TickStep(id: TaskId, now: Time, r: Reaction)
    | UdpStep(d: Datagram, local: SocketAddr)
    | RemoveStep

  datatype NodeOutcome = Fine(node: Node, entries: seq<Entry>) | Crash

  datatype Move = Join | Act(w: nat, step: NodeStep)

  /** Two hypotheses, that new ufrags are new and that a task ends once; and a read needs an event to read. */
  predicate Enabled(n: Node, log: seq<Entry>, step: NodeStep) {
    match step
    case NewStep(_, _, _, ufrag, _, _, _) => ufrag !in n.tables.ufrags
    case TakeStep(id, now, _) =>
      id in n.tables.tasks && (Take(n.tables, id, now).0 == Some(TaskEnded) ==> id !in n.tables.ended)
    case ReadStep(_) => n.cursor < |log|
    case TickStep(id, _, _) => id in n.tables.tasks
    case UdpStep(_, _) => true
    case RemoveStep => n.tables.ended != []
  }

  function TakeEvents(id: TaskId, t: Task, now: Time): seq<Event> {
    (if Polls(t, now) then [PolledEngine(id, t.engine.Poll())] else []) +
    match PopAction(t, now).0 case None => [] case Some(out) => [Took(id, out)]
  }

  function Broadcast(w: nat, id: TaskId, out: Option<TaskOutput>): seq<Entry> {
    if out.None? then [] else match ToBus(out.value) case None => [] case Some(ev) => [Entry(w, id, ev)]
  }

  /** The action sends more than fits into the slot that is free for it. */
  predicate Overruns(out: Option<TaskOutput>, free: bool) {
    free && out.Some? && out.value.UdpSocketSend? && |out.value.buf| > MAX_PAYLOAD
  }

  function NodeNext(n: Node, w: nat, log: seq<Entry>, step: NodeStep): NodeOutcome
    requires Enabled(n, log, step)
  {
    match step
    case NewStep(role, reqId, builds, ufrag, engine, audio, video) =>
      if !builds then Crash else
      var task := NewTask(role, reqId, ufrag, engine, audio, video);
      Fine(n.(tables := Create(n.tables, task), roles := n.roles[n.tables.seed := role],
              hist := n.hist + [Created(n.tables.seed, task)]), [])
    case TakeStep(id, now, free) =>
      var (out, t) := Take(n.tables, id, now);
      if Overruns(out, free) then Crash else
      Fine(n.(tables := t, hist := n.hist + TakeEvents(id, n.tables.tasks[id].task, now)), Broadcast(w, id, out))
    case ReadStep(rs) =>
      var ev := log[n.cursor].ev;
      (match BusRead(n.tables, ev, rs)
       case Panicked => Crash
       case Delivered(m, given) =>
         Fine(n.(tables := n.tables.(tasks := m), cursor := n.cursor + 1, hist := n.hist + [ReadBus(ev)], inputs := n.inputs + given), []))
    case TickStep(id, now, r) => Fine(n.(tables := TickTask(n.tables, id, now, r)), [])
    case UdpStep(d, local) =>
      (match UdpRead(n.tables, d, local) case UdpPanic => Crash case Routed(_, t) => Fine(n.(tables := t), []))
    case RemoveStep =>
      var id := n.tables.ended[0];
      (match Remove(n.tables.(ended := n.tables.ended[1..]), id)
       case None => Crash
       case Some(t) => Fine(n.(tables := t, hist := n.hist + [Removed(id)]), []))
  }

  function Initial(): System {
    System([], [])
  }

  function Next(s: System, m: Move): Option<System> {
    match m
    case Join => Some(s.(nodes := s.nodes + [Node(EMPTY, map[], |s.log|, |s.log|, [], [])]))
    case Act(w, step) =>
      if w >= |s.nodes| || !Enabled(s.nodes[w], s.log, step) then None
      else After(s, w, NodeNext(s.nodes[w], w, s.log, step))
  }

  function After(s: System, w: nat, o: NodeOutcome): Option<System>
    requires w < |s.nodes|
  {
    match o
    case Crash => None
    case Fine(n, entries) => Some(System(s.log + entries, s.nodes[w := n]))
  }

  /** The system after these moves, if every one could be taken. */
  function Run(moves: seq<Move>): Option<System> {
    if moves == [] then Some(Initial())
    else match Run(moves[..|moves| - 1])
      case None => None
      case Some(s) => Next(s, moves[|moves| - 1])
  }

  // ----- reading a history -----

  /** The actions taken from a task. */
  function Taken(h: seq<Event>, id: TaskId): seq<TaskOutput> {
    if h == [] then []
    else
      var e := h[|h| - 1];
      Taken(h[..|h| - 1], id) + if e.Took? && e.id == id then [e.out] else []
  }

  /** The outputs its engine gave up. */
  function PolledBy(h: seq<Event>, id: TaskId): seq<EngineOutput> {
    if h == [] then []
    else
      var e := h[|h| - 1];
      PolledBy(h[..|h| - 1], id) + if e.PolledEngine? && e.id == id then [e.eo] else []
  }

  /** The task as it was created. */
  function Born(h: seq<Event>, id: TaskId): Option<Task> {
    if h == [] then None
    else
      var e := h[|h| - 1];
      if e.Created? && e.id == id then Some(e.task) else Born(h[..|h| - 1], id)
  }

  predicate Live(h: seq<Event>, id: TaskId) {
    h != [] &&
    var e := h[|h| - 1];
    if e.Created? && e.id == id then true
    else if e.Removed? && e.id == id then false
    else Live(h[..|h| - 1], id)
  }

  function SubTrack(out: TaskOutput): Option<TrackId> {
    if out.SubscribeTrack? then Some(out.trackId) else None
  }

  function PubTrack(out: TaskOutput): Option<TrackId> {
    if out.PublishTrack? then Some(out.trackId) else None
  }

  /** How often a task registered for what an event is about. */
  function Registered(h: seq<Event>, id: TaskId, ev: BusEvent): nat {
    match ev
    case MediaEvent(media) => Tally(SubTrack, Taken(h, id), media.trackId)
    case KeyframeEvent(t, _) => Tally(PubTrack, Taken(h, id), t)
  }

  /** The inputs a task should get: each event read while it lives, once per registration made before. */
  function Expected(h: seq<Event>, id: TaskId): seq<TaskInput> {
    if h == [] then []
    else
      var init, e := h[..|h| - 1], h[|h| - 1];
      Expected(init, id) +
      if e.ReadBus? && Live(init, id) then Repeat(AsInput(e.ev), Registered(init, id, e.ev)) else []
  }

  function Reads(h: seq<Event>): seq<BusEvent> {
    if h == [] then []
    else Reads(h[..|h| - 1]) + if h[|h| - 1].ReadBus? then [h[|h| - 1].ev] else []
  }

  function Events(log: seq<Entry>): seq<BusEvent> {
    seq(|log|, i requires 0 <= i < |log| => log[i].ev)
  }

  /** What one task put on the bus. */
  function LogOf(log: seq<Entry>, w: nat, id: TaskId): seq<BusEvent> {
    if log == [] then []
    else
      var e := log[|log| - 1];
      LogOf(log[..|log| - 1], w, id) + if e.worker == w && e.task == id then [e.ev] else []
  }

  // ----- the invariant -----

  /** The tables say what the history says. */
  ghost predicate TablesTold(n: Node) {
    && (forall id: TaskId :: Live(n.hist, id) <==> id in n.tables.tasks)
    && (forall id: TaskId :: id in n.tables.tasks ==>
          && n.tables.tasks[id].subs == Collect(SubTrack, Taken(n.hist, id))
          && n.tables.tasks[id].pubs == Collect(PubTrack, Taken(n.hist, id)))
  }

  ghost predicate InputsTold(n: Node) {
    forall id: TaskId :: InputsTo(n.inputs, id) == Expected(n.hist, id)
  }

  /** Every task refines the translation of what its engine gave up. */
  ghost predicate TaskTold(h: seq<Event>, id: TaskId) {
    Born(h, id).Some? && Taken(h, id) <= Born(h, id).value.outputs + FlatMap(TranslatorOf(Born(h, id).value), PolledBy(h, id))
  }

  ghost predicate TaskNow(h: seq<Event>, id: TaskId, t: Task) {
    && Born(h, id).Some?
    && t.role == Born(h, id).value.role && t.audioTrack == Born(h, id).value.audioTrack && t.videoTrack == Born(h, id).value.videoTrack
    && Taken(h, id) + t.outputs == Born(h, id).value.outputs + FlatMap(TranslatorOf(t), PolledBy(h, id))
  }

  ghost predicate TasksTold(n: Node) {
    && (forall id: TaskId :: id < n.tables.seed ==> TaskTold(n.hist, id))
    && (forall id: TaskId :: id in n.tables.tasks ==> TaskNow(n.hist, id, n.tables.tasks[id].task))
    && (forall id: TaskId :: id >= n.tables.seed ==> Taken(n.hist, id) == [] && PolledBy(n.hist, id) == [])
  }

  ghost predicate NodeOk(n: Node) {
    Inv(n.tables, n.roles) && Distinct(n.tables.ended) && TablesTold(n) && InputsTold(n) && TasksTold(n)
  }

  ghost predicate LogTold(s: System) {
    && (forall w, id: TaskId :: 0 <= w < |s.nodes| ==> LogOf(s.log, w, id) == Collect(ToBus, Taken(s.nodes[w].hist, id)))
    && (forall w: nat, id: TaskId :: w >= |s.nodes| ==> LogOf(s.log, w, id) == [])
    && (forall w :: 0 <= w < |s.nodes| ==>
          && s.nodes[w].start <= s.nodes[w].cursor <= |s.log|
          && Reads(s.nodes[w].hist) == Events(s.log)[s.nodes[w].start..s.nodes[w].cursor])
  }

  ghost predicate SystemOk(s: System) {
    (forall w :: 0 <= w < |s.nodes| ==> NodeOk(s.nodes[w])) && LogTold(s)
  }
}
