/** What every interleaving of the workers keeps, and what their tasks see of the bus. */
module ClusterSafety {
  import opened Seqs
  import opened Net
  import opened Tasks
  import opened Routing
  import opened RoutingSafety
  import opened Cluster

  // ----- how one event extends a history -----

  lemma Extend(h: seq<Event>, e: Event, id: TaskId)
    ensures Taken(h + [e], id) == Taken(h, id) + if e.Took? && e.id == id then [e.out] else []
    ensures PolledBy(h + [e], id) == PolledBy(h, id) + if e.PolledEngine? && e.id == id then [e.eo] else []
    ensures Born(h + [e], id) == if e.Created? && e.id == id then Some(e.task) else Born(h, id)
    ensures Live(h + [e], id) <==> if e.Created? && e.id == id then true else if e.Removed? && e.id == id then false else Live(h, id)
    ensures Expected(h + [e], id) == Expected(h, id) + if e.ReadBus? && Live(h, id) then Repeat(AsInput(e.ev), Registered(h, id, e.ev)) else []
    ensures Reads(h + [e]) == Reads(h) + if e.ReadBus? then [e.ev] else []
  {
    assert (h + [e])[..|h|] == h;
  }

  /** Taking an action tells of one task: what its engine gave up and what came out. */
  lemma ExtendTake(h: seq<Event>, id: TaskId, t: Task, now: Time, i: TaskId)
    ensures var h' := h + TakeEvents(id, t, now);
            && Taken(h', i) == Taken(h, i) + (if i == id then OptionToSeq(PopAction(t, now).0) else [])
            && PolledBy(h', i) == PolledBy(h, i) + (if i == id then Eaten(t, now) else [])
            && Born(h', i) == Born(h, i) && (Live(h', i) <==> Live(h, i))
            && Expected(h', i) == Expected(h, i) && Reads(h') == Reads(h)
  {
    var polled, out := if Polls(t, now) then Some(t.engine.Poll()) else None, PopAction(t, now).0;
    ExtendTwice(h, id, polled, out, i);
    assert h + TakeEvents(id, t, now) == h + TwoEvents(id, polled, out);
  }

  function TwoEvents(id: TaskId, polled: Option<EngineOutput>, out: Option<TaskOutput>): seq<Event> {
    (if polled.Some? then [PolledEngine(id, polled.value)] else []) + if out.Some? then [Took(id, out.value)] else []
  }

  lemma ExtendTwice(h: seq<Event>, id: TaskId, polled: Option<EngineOutput>, out: Option<TaskOutput>, i: TaskId)
    ensures var h' := h + TwoEvents(id, polled, out);
            && Taken(h', i) == Taken(h, i) + (if i == id then OptionToSeq(out) else [])
            && PolledBy(h', i) == PolledBy(h, i) + (if i == id then OptionToSeq(polled) else [])
            && Born(h', i) == Born(h, i) && (Live(h', i) <==> Live(h, i))
            && Expected(h', i) == Expected(h, i) && Reads(h') == Reads(h)
  {
    var h1 := if polled.Some? then h + [PolledEngine(id, polled.value)] else h;
    if polled.Some? { Extend(h, PolledEngine(id, polled.value), i); }
    if out.Some? {
      Extend(h1, Took(id, out.value), i);
      assert h + TwoEvents(id, polled, out) == h1 + [Took(id, out.value)];
    } else {
      assert h + TwoEvents(id, polled, out) == h1;
    }
  }

  // ----- steps that tell nothing -----

  /** The same tasks as far as histories speak of them. */
  ghost predicate SameStory(a: map<TaskId, Container>, b: map<TaskId, Container>) {
    && a.Keys == b.Keys
    && (forall id :: id in a ==>
          && b[id].subs == a[id].subs && b[id].pubs == a[id].pubs && b[id].task.role == a[id].task.role
          && b[id].task.outputs == a[id].task.outputs
          && b[id].task.audioTrack == a[id].task.audioTrack && b[id].task.videoTrack == a[id].task.videoTrack)
  }

  lemma StoryFrame(n: Node, m: Node)
    requires TablesTold(n) && TasksTold(n) && InputsTold(n)
    requires m.hist == n.hist && m.inputs == n.inputs && m.tables.seed == n.tables.seed && SameStory(n.tables.tasks, m.tables.tasks)
    ensures TablesTold(m) && TasksTold(m) && InputsTold(m)
  {
    forall id: TaskId | id in m.tables.tasks ensures TaskNow(m.hist, id, m.tables.tasks[id].task) {
      assert TaskNow(n.hist, id, n.tables.tasks[id].task);
    }
  }

  lemma GiveStory(tasks: map<TaskId, Container>, id: TaskId, e: TaskInput, r: Reaction)
    ensures GiveTo(tasks, id, e, r).Delivered? ==> SameStory(tasks, GiveTo(tasks, id, e, r).tasks)
  {}

  lemma {:induction false} DeliverStory(tasks: map<TaskId, Container>, ids: seq<TaskId>, e: TaskInput, rs: seq<Reaction>)
    ensures Deliver(tasks, ids, e, rs).Delivered? ==> SameStory(tasks, Deliver(tasks, ids, e, rs).tasks)
  {
    if ids == [] || Deliver(tasks, ids, e, rs).Panicked? {
    } else {
      DeliverStory(tasks, ids[..|ids| - 1], e, rs);
      GiveStory(Deliver(tasks, ids[..|ids| - 1], e, rs).tasks, ids[|ids| - 1], e, At(rs, |ids| - 1));
    }
  }

  lemma UdpStory(s: Tables, d: Datagram, local: SocketAddr)
    ensures UdpRead(s, d, local).Routed? ==>
              SameStory(s.tasks, UdpRead(s, d, local).tables.tasks) && UdpRead(s, d, local).tables.seed == s.seed
              && UdpRead(s, d, local).tables.ended == s.ended
  {
    var (to, t) := Bind(s, d);
    assert SameStory(s.tasks, t.tasks);
    if to.Some? && to.value in t.tasks {
      GiveStory(t.tasks, to.value, UdpSocketRecv(d.remote, local, d.buf), d.reaction);
    }
  }

  lemma TickStory(s: Tables, id: TaskId, now: Time, r: Reaction)
    requires id in s.tasks
    ensures SameStory(s.tasks, TickTask(s, id, now, r).tasks)
  {}

  lemma TickOk(n: Node, w: nat, log: seq<Entry>, step: NodeStep)
    requires NodeOk(n) && step.TickStep? && Enabled(n, log, step)
    ensures NodeNext(n, w, log, step).Fine? && NodeOk(NodeNext(n, w, log, step).node)
  {
    TickKeeps(n.tables, n.roles, step.id, step.now, step.r);
    TickStory(n.tables, step.id, step.now, step.r);
    StoryFrame(n, NodeNext(n, w, log, step).node);
  }

  lemma UdpOk(n: Node, w: nat, log: seq<Entry>, step: NodeStep)
    requires NodeOk(n) && step.UdpStep? && Readable(n.tables, step.d)
    ensures NodeNext(n, w, log, step).Fine? && NodeOk(NodeNext(n, w, log, step).node)
  {
    UdpKeeps(n.tables, n.roles, step.d, step.local);
    UdpStory(n.tables, step.d, step.local);
    StoryFrame(n, NodeNext(n, w, log, step).node);
  }

  // ----- a new task -----

  lemma NewTold(n: Node, m: Node, task: Task)
    requires TablesTold(n) && TasksTold(n) && InputsTold(n) && n.tables.seed !in n.tables.tasks
    requires m == n.(tables := Create(n.tables, task), roles := m.roles, hist := n.hist + [Created(n.tables.seed, task)])
    ensures TablesTold(m) && TasksTold(m) && InputsTold(m)
  {
    var seed := n.tables.seed;
    forall id: TaskId
      ensures Live(m.hist, id) <==> id in m.tables.tasks
      ensures InputsTo(m.inputs, id) == Expected(m.hist, id)
      ensures Taken(m.hist, id) == Taken(n.hist, id) && PolledBy(m.hist, id) == PolledBy(n.hist, id)
      ensures Born(m.hist, id) == if id == seed then Some(task) else Born(n.hist, id)
    {
      Extend(n.hist, Created(seed, task), id);
    }
    NewTasksTold(n, m, task);
  }

  lemma NewTasksTold(n: Node, m: Node, task: Task)
    requires TasksTold(n) && m.tables == Create(n.tables, task)
    requires forall id: TaskId ::
               && Taken(m.hist, id) == Taken(n.hist, id) && PolledBy(m.hist, id) == PolledBy(n.hist, id)
               && Born(m.hist, id) == if id == n.tables.seed then Some(task) else Born(n.hist, id)
    ensures TasksTold(m)
  {
    var seed := n.tables.seed;
    assert Taken(m.hist, seed) == [] && PolledBy(m.hist, seed) == [];
    forall id: TaskId | id < m.tables.seed ensures TaskTold(m.hist, id) {
      if id < seed { assert TaskTold(n.hist, id); }
    }
    forall id: TaskId | id in m.tables.tasks ensures TaskNow(m.hist, id, m.tables.tasks[id].task) {
      if id != seed { assert TaskNow(n.hist, id, n.tables.tasks[id].task); }
    }
  }

  lemma NewOk(n: Node, w: nat, log: seq<Entry>, step: NodeStep)
    requires NodeOk(n) && step.NewStep? && step.builds && Enabled(n, log, step)
    ensures NodeNext(n, w, log, step).Fine? && NodeOk(NodeNext(n, w, log, step).node)
  {
    var task := NewTask(step.role, step.reqId, step.ufrag, step.engine, step.audio, step.video);
    CreateKeeps(n.tables, n.roles, task);
    NewTold(n, NodeNext(n, w, log, step).node, task);
  }

  // ----- taking an action -----

  lemma PerformBox(id: TaskId, l: Local, out: TaskOutput)
    ensures Perform(id, l, out).ended == l.ended + if out == TaskEnded then [id] else []
    ensures var box := Perform(id, l, out).box;
            && box.task == l.box.task && box.remotes == l.box.remotes
            && box.subs == l.box.subs + Collect(SubTrack, [out]) && box.pubs == l.box.pubs + Collect(PubTrack, [out])
  {
    CollectAppend(SubTrack, [], out);
    CollectAppend(PubTrack, [], out);
    assert [] + [out] == [out];
  }

  /** The container after a pop: the task moved on, and its track lists grew by what it asked for. */
  lemma TakeBox(s: Tables, id: TaskId, now: Time)
    requires id in s.tasks
    ensures var t := Take(s, id, now).1; var out := PopAction(s.tasks[id].task, now).0;
            && Take(s, id, now).0 == out && t.seed == s.seed && t.remotes == s.remotes
            && t.ended == s.ended + (if out == Some(TaskEnded) then [id] else [])
            && t.tasks == s.tasks[id := t.tasks[id]]
            && t.tasks[id].task == PopAction(s.tasks[id].task, now).1
            && t.tasks[id].subs == s.tasks[id].subs + Collect(SubTrack, OptionToSeq(out))
            && t.tasks[id].pubs == s.tasks[id].pubs + Collect(PubTrack, OptionToSeq(out))
  {
    var (out, task) := PopAction(s.tasks[id].task, now);
    var l := LocalOf(s, id);
    var u := l.(box := l.box.(task := task));
    if out.Some? {
      PerformBox(id, u, out.value);
    }
  }

  /** Histories in which one task's actions grew by `out` and its engine gave up `eaten`. */
  ghost predicate Grew(h: seq<Event>, h': seq<Event>, id: TaskId, out: Option<TaskOutput>, eaten: seq<EngineOutput>) {
    && Taken(h', id) == Taken(h, id) + OptionToSeq(out)
    && PolledBy(h', id) == PolledBy(h, id) + eaten
    && (forall i: TaskId :: i != id ==> Taken(h', i) == Taken(h, i) && PolledBy(h', i) == PolledBy(h, i))
    && (forall i: TaskId :: Born(h', i) == Born(h, i) && (Live(h', i) <==> Live(h, i)) && Expected(h', i) == Expected(h, i))
    && Reads(h') == Reads(h)
  }

  lemma TakeGrew(h: seq<Event>, id: TaskId, t: Task, now: Time)
    ensures Grew(h, h + TakeEvents(id, t, now), id, PopAction(t, now).0, Eaten(t, now))
  {
    forall i: TaskId
      ensures var h' := h + TakeEvents(id, t, now);
              && Taken(h', i) == Taken(h, i) + (if i == id then OptionToSeq(PopAction(t, now).0) else [])
              && PolledBy(h', i) == PolledBy(h, i) + (if i == id then Eaten(t, now) else [])
              && Born(h', i) == Born(h, i) && (Live(h', i) <==> Live(h, i)) && Expected(h', i) == Expected(h, i)
              && Reads(h') == Reads(h)
    {
      ExtendTake(h, id, t, now, i);
    }
  }

  lemma GrowTables(n: Node, m: Node, id: TaskId, out: Option<TaskOutput>, eaten: seq<EngineOutput>)
    requires TablesTold(n) && InputsTold(n) && id in n.tables.tasks
    requires Grew(n.hist, m.hist, id, out, eaten) && m.inputs == n.inputs
    requires id in m.tables.tasks && m.tables.tasks == n.tables.tasks[id := m.tables.tasks[id]]
    requires m.tables.tasks[id].subs == n.tables.tasks[id].subs + Collect(SubTrack, OptionToSeq(out))
    requires m.tables.tasks[id].pubs == n.tables.tasks[id].pubs + Collect(PubTrack, OptionToSeq(out))
    ensures TablesTold(m) && InputsTold(m)
  {
    CollectConcat(SubTrack, Taken(n.hist, id), OptionToSeq(out));
    CollectConcat(PubTrack, Taken(n.hist, id), OptionToSeq(out));
  }

  lemma GrowNow(h: seq<Event>, h': seq<Event>, id: TaskId, t: Task, u: Task, out: Option<TaskOutput>, eaten: seq<EngineOutput>)
    requires TaskNow(h, id, t) && Grew(h, h', id, out, eaten)
    requires u.role == t.role && u.audioTrack == t.audioTrack && u.videoTrack == t.videoTrack
    requires OptionToSeq(out) + u.outputs == t.outputs + FlatMap(TranslatorOf(t), eaten)
    ensures TaskNow(h', id, u)
  {
    FlatMapConcat(TranslatorOf(t), PolledBy(h, id), eaten);
    Splice(Taken(h, id), t.outputs, Born(h, id).value.outputs, FlatMap(TranslatorOf(t), PolledBy(h, id)),
           OptionToSeq(out), u.outputs, FlatMap(TranslatorOf(t), eaten));
  }

  /** A live task's actions so far are told. */
  lemma NowTold(h: seq<Event>, id: TaskId, t: Task)
    requires TaskNow(h, id, t)
    ensures TaskTold(h, id)
  {
    assert TranslatorOf(t) == TranslatorOf(Born(h, id).value);
  }

  lemma GrowTasks(n: Node, m: Node, id: TaskId, out: Option<TaskOutput>, eaten: seq<EngineOutput>)
    requires TasksTold(n) && id in n.tables.tasks && id < n.tables.seed && m.tables.seed == n.tables.seed
    requires Grew(n.hist, m.hist, id, out, eaten)
    requires id in m.tables.tasks && m.tables.tasks == n.tables.tasks[id := m.tables.tasks[id]]
    requires TaskNow(m.hist, id, m.tables.tasks[id].task)
    ensures TasksTold(m)
  {
    NowTold(m.hist, id, m.tables.tasks[id].task);
    forall i: TaskId | i < m.tables.seed ensures TaskTold(m.hist, i) {
      if i != id { assert TaskTold(n.hist, i); }
    }
    forall i: TaskId | i in m.tables.tasks ensures TaskNow(m.hist, i, m.tables.tasks[i].task) {
      if i != id { assert TaskNow(n.hist, i, n.tables.tasks[i].task); }
    }
  }

  lemma TakeTold(n: Node, m: Node, id: TaskId, now: Time)
    requires TablesTold(n) && TasksTold(n) && InputsTold(n) && id in n.tables.tasks && id < n.tables.seed
    requires m.tables == Take(n.tables, id, now).1 && m.hist == n.hist + TakeEvents(id, n.tables.tasks[id].task, now)
    requires m.inputs == n.inputs
    ensures TablesTold(m) && TasksTold(m) && InputsTold(m)
  {
    var t := n.tables.tasks[id].task;
    var (out, eaten) := (PopAction(t, now).0, Eaten(t, now));
    TakeBox(n.tables, id, now);
    TakeGrew(n.hist, id, t, now);
    PopBalance(t, now);
    GrowTables(n, m, id, out, eaten);
    GrowNow(n.hist, m.hist, id, t, m.tables.tasks[id].task, out, eaten);
    GrowTasks(n, m, id, out, eaten);
  }

  lemma TakeOk(n: Node, w: nat, log: seq<Entry>, step: NodeStep)
    requires NodeOk(n) && step.TakeStep? && Enabled(n, log, step) && !Overruns(Take(n.tables, step.id, step.now).0, step.free)
    ensures NodeNext(n, w, log, step).Fine? && NodeOk(NodeNext(n, w, log, step).node)
  {
    TakenOk(n, NodeNext(n, w, log, step).node, step.id, step.now);
  }

  lemma TakenOk(n: Node, m: Node, id: TaskId, now: Time)
    requires NodeOk(n) && id in n.tables.tasks && (Take(n.tables, id, now).0 == Some(TaskEnded) ==> id !in n.tables.ended)
    requires m == n.(tables := Take(n.tables, id, now).1, hist := n.hist + TakeEvents(id, n.tables.tasks[id].task, now))
    ensures NodeOk(m)
  {
    TakeKeeps(n.tables, n.roles, id, now);
    TakeBox(n.tables, id, now);
    TakeTold(n, m, id, now);
  }

  // ----- reading the bus -----

  /** What the tables deliver is what the history says is due. */
  lemma ReadInputs(n: Node, ev: BusEvent, rs: seq<Reaction>, id: TaskId)
    requires Inv(n.tables, n.roles) && TablesTold(n) && BusRead(n.tables, ev, rs).Delivered?
    ensures InputsTo(BusRead(n.tables, ev, rs).log, id) == if Live(n.hist, id) then Repeat(AsInput(ev), Registered(n.hist, id, ev)) else []
  {
    match ev {
      case MediaEvent(media) =>
        MediaFanOut(n.tables, n.roles, media, rs, id);
        TallyCollect(SubTrack, Taken(n.hist, id), media.trackId);
      case KeyframeEvent(t, kind) =>
        KeyframeFanOut(n.tables, n.roles, t, kind, rs, id);
        TallyCollect(PubTrack, Taken(n.hist, id), t);
    }
  }

  lemma ReadOk(n: Node, w: nat, log: seq<Entry>, step: NodeStep)
    requires NodeOk(n) && step.ReadStep? && Enabled(n, log, step) && Streams(n.tables, log[n.cursor].ev, step.rs)
    ensures NodeNext(n, w, log, step).Fine? && NodeOk(NodeNext(n, w, log, step).node)
  {
    var ev := log[n.cursor].ev;
    BusReadKeeps(n.tables, n.roles, ev, step.rs);
    DeliverStory(n.tables.tasks, Receivers(n.tables, ev), AsInput(ev), step.rs);
    var given := BusRead(n.tables, ev, step.rs).log;
    var m := NodeNext(n, w, log, step).node;
    ReadTold(n, m, ev, given, step.rs);
  }

  lemma ReadTold(n: Node, m: Node, ev: BusEvent, given: seq<(TaskId, TaskInput)>, rs: seq<Reaction>)
    requires NodeOk(n) && BusRead(n.tables, ev, rs) == Delivered(m.tables.tasks, given)
    requires m.tables.seed == n.tables.seed && m.hist == n.hist + [ReadBus(ev)] && m.inputs == n.inputs + given
    requires SameStory(n.tables.tasks, m.tables.tasks)
    ensures TablesTold(m) && InputsTold(m) && TasksTold(m)
  {
    forall id: TaskId
      ensures Live(m.hist, id) <==> Live(n.hist, id)
      ensures InputsTo(m.inputs, id) == Expected(m.hist, id)
      ensures Taken(m.hist, id) == Taken(n.hist, id) && PolledBy(m.hist, id) == PolledBy(n.hist, id) && Born(m.hist, id) == Born(n.hist, id)
    {
      Extend(n.hist, ReadBus(ev), id);
      ReadExpected(n, m, ev, given, rs, id);
    }
    TasksFrame(n, m);
  }

  lemma ReadExpected(n: Node, m: Node, ev: BusEvent, given: seq<(TaskId, TaskInput)>, rs: seq<Reaction>, id: TaskId)
    requires Inv(n.tables, n.roles) && TablesTold(n) && InputsTold(n) && BusRead(n.tables, ev, rs) == Delivered(m.tables.tasks, given)
    requires m.hist == n.hist + [ReadBus(ev)] && m.inputs == n.inputs + given
    ensures InputsTo(m.inputs, id) == Expected(m.hist, id)
  {
    Extend(n.hist, ReadBus(ev), id);
    ReadInputs(n, ev, rs, id);
    InputsToConcat(n.inputs, given, id);
  }

  /** Events about no task leave what is known of every task. */
  lemma TasksFrame(n: Node, m: Node)
    requires TasksTold(n) && m.tables.seed == n.tables.seed
    requires forall id: TaskId :: Taken(m.hist, id) == Taken(n.hist, id) && PolledBy(m.hist, id) == PolledBy(n.hist, id) && Born(m.hist, id) == Born(n.hist, id)
    requires forall id :: id in m.tables.tasks ==> id in n.tables.tasks
    requires forall id :: id in m.tables.tasks ==>
               var (t, u) := (n.tables.tasks[id].task, m.tables.tasks[id].task);
               u.role == t.role && u.outputs == t.outputs && u.audioTrack == t.audioTrack && u.videoTrack == t.videoTrack
    ensures TasksTold(m)
  {
    forall id: TaskId | id < m.tables.seed ensures TaskTold(m.hist, id) {
      assert TaskTold(n.hist, id);
    }
    forall id: TaskId | id in m.tables.tasks ensures TaskNow(m.hist, id, m.tables.tasks[id].task) {
      assert TaskNow(n.hist, id, n.tables.tasks[id].task);
    }
  }

  // ----- removing a task -----

  lemma RemoveOk(n: Node, w: nat, log: seq<Entry>, step: NodeStep)
    requires NodeOk(n) && step.RemoveStep? && Enabled(n, log, step)
    ensures NodeNext(n, w, log, step).Fine? && NodeOk(NodeNext(n, w, log, step).node)
  {
    var id := n.tables.ended[0];
    var s := n.tables.(ended := n.tables.ended[1..]);
    EndedRest(n.tables, n.roles);
    RemoveKeeps(s, n.roles, id);
    RemoveTold(n, NodeNext(n, w, log, step).node, id);
  }

  lemma EndedRest(s: Tables, roles: map<TaskId, Role>)
    requires Inv(s, roles) && Distinct(s.ended) && s.ended != []
    ensures Inv(s.(ended := s.ended[1..]), roles) && Distinct(s.ended[1..])
    ensures s.ended[0] in s.tasks && s.ended[0] !in s.ended[1..]
  {
    var t := s.(ended := s.ended[1..]);
    SameNamesAndTracks(s, t, roles);
  }

  lemma SameNamesAndTracks(s: Tables, t: Tables, roles: map<TaskId, Role>)
    requires Inv(s, roles) && t == s.(ended := t.ended) && EndedOk(t)
    ensures Inv(t, roles)
  {
    SameTracksKeeps(s, t, roles);
  }

  lemma RemoveTold(n: Node, m: Node, id: TaskId)
    requires TablesTold(n) && TasksTold(n) && InputsTold(n) && id in n.tables.tasks
    requires m.tables.tasks == n.tables.tasks - {id} && m.tables.seed == n.tables.seed
    requires m.hist == n.hist + [Removed(id)] && m.inputs == n.inputs
    ensures TablesTold(m) && TasksTold(m) && InputsTold(m)
  {
    forall i: TaskId
      ensures Live(m.hist, i) <==> i in m.tables.tasks
      ensures InputsTo(m.inputs, i) == Expected(m.hist, i)
      ensures Taken(m.hist, i) == Taken(n.hist, i) && PolledBy(m.hist, i) == PolledBy(n.hist, i) && Born(m.hist, i) == Born(n.hist, i)
    {
      Extend(n.hist, Removed(id), i);
    }
    TasksFrame(n, m);
  }

  // ----- the system -----

  /**
   * What the step meets is good: the offer of a new task, the streams of the publishers that a
   * keyframe is asked of, a datagram, the length of what is sent.
   */
  ghost predicate Good(n: Node, log: seq<Entry>, step: NodeStep)
    requires Enabled(n, log, step)
  {
    match step
    case NewStep(_, _, builds, _, _, _, _) => builds
    case ReadStep(rs) => Streams(n.tables, log[n.cursor].ev, rs)
    case UdpStep(d, _) => Readable(n.tables, d)
    case TakeStep(id, now, free) => !Overruns(Take(n.tables, id, now).0, free)
    case _ => true
  }

  /** A step of a worker in order crashes exactly when what it meets is not good; otherwise it leaves the worker in order. */
  lemma NodeStepOk(n: Node, w: nat, log: seq<Entry>, step: NodeStep)
    requires NodeOk(n) && Enabled(n, log, step)
    ensures NodeNext(n, w, log, step).Fine? <==> Good(n, log, step)
    ensures NodeNext(n, w, log, step).Fine? ==> NodeOk(NodeNext(n, w, log, step).node)
  {
    if Good(n, log, step) {
      GoodStepOk(n, w, log, step);
    } else {
      match step
      case ReadStep(rs) => BusReadKeeps(n.tables, n.roles, log[n.cursor].ev, rs);
      case UdpStep(d, local) => UdpKeeps(n.tables, n.roles, d, local);
      case NewStep(_, _, _, _, _, _, _) =>
      case TakeStep(_, _, _) =>
    }
  }

  lemma GoodStepOk(n: Node, w: nat, log: seq<Entry>, step: NodeStep)
    requires NodeOk(n) && Enabled(n, log, step) && Good(n, log, step)
    ensures NodeNext(n, w, log, step).Fine? && NodeOk(NodeNext(n, w, log, step).node)
  {
    match step
    case NewStep(_, _, _, _, _, _, _) => NewOk(n, w, log, step);
    case TakeStep(_, _, _) => TakeOk(n, w, log, step);
    case ReadStep(_) => ReadOk(n, w, log, step);
    case TickStep(_, _, _) => TickOk(n, w, log, step);
    case UdpStep(_, _) => UdpOk(n, w, log, step);
    case RemoveStep => RemoveOk(n, w, log, step);
  }

  lemma {:induction false} LogOfConcat(a: seq<Entry>, b: seq<Entry>, w: nat, id: TaskId)
    requires |b| <= 1
    ensures LogOf(a + b, w, id) == LogOf(a, w, id) + if b != [] && b[0].worker == w && b[0].task == id then [b[0].ev] else []
  {
    if b == [] {
      assert a + b == a;
    } else {
      assert (a + b)[..|a|] == a;
    }
  }

  /** What a step adds to the log is what it took from a task for the bus. */
  ghost predicate Logged(log: seq<Entry>, entries: seq<Entry>, w: nat, h: seq<Event>, h': seq<Event>) {
    && (forall id: TaskId :: Taken(h, id) <= Taken(h', id)
          && LogOf(log + entries, w, id) == LogOf(log, w, id) + Collect(ToBus, Taken(h', id)[|Taken(h, id)|..]))
    && (forall v: nat, id: TaskId :: v != w ==> LogOf(log + entries, v, id) == LogOf(log, v, id))
  }

  lemma BroadcastLog(log: seq<Entry>, w: nat, id: TaskId, out: Option<TaskOutput>, v: nat, i: TaskId)
    ensures LogOf(log + Broadcast(w, id, out), v, i) == LogOf(log, v, i) + if v == w && i == id then Collect(ToBus, OptionToSeq(out)) else []
  {
    LogOfConcat(log, Broadcast(w, id, out), v, i);
    if out.Some? {
      CollectAppend(ToBus, [], out.value);
      assert [] + [out.value] == [out.value];
    }
  }

  lemma GrowLog(log: seq<Entry>, w: nat, h: seq<Event>, h': seq<Event>, id: TaskId, out: Option<TaskOutput>, eaten: seq<EngineOutput>)
    requires Grew(h, h', id, out, eaten)
    ensures Logged(log, Broadcast(w, id, out), w, h, h')
  {
    var entries := Broadcast(w, id, out);
    forall i: TaskId
      ensures Taken(h, i) <= Taken(h', i)
      ensures LogOf(log + entries, w, i) == LogOf(log, w, i) + Collect(ToBus, Taken(h', i)[|Taken(h, i)|..])
    {
      BroadcastLog(log, w, id, out, w, i);
      assert Taken(h', i)[|Taken(h, i)|..] == if i == id then OptionToSeq(out) else [];
    }
    forall v: nat, i: TaskId | v != w ensures LogOf(log + entries, v, i) == LogOf(log, v, i) {
      BroadcastLog(log, w, id, out, v, i);
    }
  }

  /** An event that is no action of a task adds nothing to the log. */
  lemma QuietLog(log: seq<Entry>, w: nat, h: seq<Event>, e: Event)
    requires !e.Took?
    ensures Logged(log, [], w, h, h + [e]) && Logged(log, [], w, h, h)
  {
    assert log + [] == log;
    forall id: TaskId ensures Taken(h + [e], id) == Taken(h, id) {
      Extend(h, e, id);
    }
  }

  lemma StepLog(n: Node, w: nat, log: seq<Entry>, step: NodeStep)
    requires Enabled(n, log, step) && NodeNext(n, w, log, step).Fine?
    ensures var o := NodeNext(n, w, log, step); Logged(log, o.entries, w, n.hist, o.node.hist)
  {
    match step
    case TakeStep(id, now, _) =>
      var t := n.tables.tasks[id].task;
      TakeGrew(n.hist, id, t, now);
      GrowLog(log, w, n.hist, n.hist + TakeEvents(id, t, now), id, PopAction(t, now).0, Eaten(t, now));
    case NewStep(role, reqId, _, ufrag, engine, audio, video) =>
      QuietLog(log, w, n.hist, Created(n.tables.seed, NewTask(role, reqId, ufrag, engine, audio, video)));
    case ReadStep(_) => QuietLog(log, w, n.hist, ReadBus(log[n.cursor].ev));
    case RemoveStep => QuietLog(log, w, n.hist, Removed(n.tables.ended[0]));
    case _ => QuietLog(log, w, n.hist, Removed(0));
  }

  ghost predicate ReadUpTo(n: Node, log: seq<Entry>) {
    n.start <= n.cursor <= |log| && Reads(n.hist) == Events(log)[n.start..n.cursor]
  }

  lemma ReadMore(n: Node, m: Node, log: seq<Entry>)
    requires ReadUpTo(n, log) && n.cursor < |log|
    requires m.start == n.start && m.cursor == n.cursor + 1 && m.hist == n.hist + [ReadBus(log[n.cursor].ev)]
    ensures ReadUpTo(m, log)
  {
    Extend(n.hist, ReadBus(log[n.cursor].ev), 0);
    assert Events(log)[n.start..n.cursor + 1] == Events(log)[n.start..n.cursor] + [Events(log)[n.cursor]];
  }

  lemma StepReads(n: Node, w: nat, log: seq<Entry>, step: NodeStep)
    requires Enabled(n, log, step) && NodeNext(n, w, log, step).Fine? && ReadUpTo(n, log)
    ensures ReadUpTo(NodeNext(n, w, log, step).node, log)
  {
    var m := NodeNext(n, w, log, step).node;
    match step
    case TakeStep(id, now, _) => ExtendTake(n.hist, id, n.tables.tasks[id].task, now, id);
    case NewStep(role, reqId, _, ufrag, engine, audio, video) =>
      Extend(n.hist, Created(n.tables.seed, NewTask(role, reqId, ufrag, engine, audio, video)), 0);
    case ReadStep(_) => ReadMore(n, m, log);
    case RemoveStep => Extend(n.hist, Removed(n.tables.ended[0]), 0);
    case _ =>
  }

  lemma LogAfter(s: System, w: nat, m: Node, entries: seq<Entry>)
    requires LogTold(s) && w < |s.nodes| && Logged(s.log, entries, w, s.nodes[w].hist, m.hist)
    requires ReadUpTo(m, s.log)
    ensures LogTold(System(s.log + entries, s.nodes[w := m]))
  {
    var t, n := System(s.log + entries, s.nodes[w := m]), s.nodes[w];
    forall id: TaskId ensures LogOf(t.log, w, id) == Collect(ToBus, Taken(m.hist, id)) {
      CollectConcat(ToBus, Taken(n.hist, id), Taken(m.hist, id)[|Taken(n.hist, id)|..]);
      assert Taken(n.hist, id) + Taken(m.hist, id)[|Taken(n.hist, id)|..] == Taken(m.hist, id);
    }
    forall v | 0 <= v < |t.nodes|
      ensures t.nodes[v].start <= t.nodes[v].cursor <= |t.log|
      ensures Reads(t.nodes[v].hist) == Events(t.log)[t.nodes[v].start..t.nodes[v].cursor]
    {
      var u := t.nodes[v];
      if v == w { assert ReadUpTo(m, s.log); }
      EventsStay(s.log, entries, u.start, u.cursor);
    }
  }

  lemma EventsStay(log: seq<Entry>, entries: seq<Entry>, i: nat, j: nat)
    requires i <= j <= |log|
    ensures Events(log + entries)[i..j] == Events(log)[i..j]
  {
    var x, y := Events(log + entries)[i..j], Events(log)[i..j];
    forall k | 0 <= k < |x| ensures x[k] == y[k] {
      assert (log + entries)[i + k] == log[i + k];
    }
  }

  lemma NodeAfter(s: System, w: nat, step: NodeStep)
    requires SystemOk(s) && w < |s.nodes| && Enabled(s.nodes[w], s.log, step) && NodeNext(s.nodes[w], w, s.log, step).Fine?
    ensures var o := NodeNext(s.nodes[w], w, s.log, step);
            NodeOk(o.node) && LogTold(System(s.log + o.entries, s.nodes[w := o.node]))
  {
    NodeStepOk(s.nodes[w], w, s.log, step);
    StepLog(s.nodes[w], w, s.log, step);
    StepReads(s.nodes[w], w, s.log, step);
    var o := NodeNext(s.nodes[w], w, s.log, step);
    LogAfter(s, w, o.node, o.entries);
  }

  lemma OutcomeKeeps(s: System, w: nat, o: NodeOutcome)
    requires SystemOk(s) && w < |s.nodes| && o.Fine? && NodeOk(o.node) && LogTold(System(s.log + o.entries, s.nodes[w := o.node]))
    ensures After(s, w, o).Some? && SystemOk(After(s, w, o).value)
  {}

  lemma ActKeeps(s: System, w: nat, step: NodeStep)
    requires SystemOk(s) && w < |s.nodes| && Enabled(s.nodes[w], s.log, step)
    ensures Next(s, Act(w, step)).Some? ==> SystemOk(Next(s, Act(w, step)).value)
  {
    ActIsAfter(s, w, step);
    var o := NodeNext(s.nodes[w], w, s.log, step);
    if o.Fine? {
      NodeAfter(s, w, step);
      OutcomeKeeps(s, w, o);
    }
  }

  lemma ActIsAfter(s: System, w: nat, step: NodeStep)
    requires w < |s.nodes| && Enabled(s.nodes[w], s.log, step)
    ensures Next(s, Act(w, step)) == After(s, w, NodeNext(s.nodes[w], w, s.log, step))
  {}

  lemma JoinKeeps(s: System)
    requires SystemOk(s)
    ensures SystemOk(Next(s, Join).value)
  {
    NewNodeOk(|s.log|);
    JoinLog(s, Node(EMPTY, map[], |s.log|, |s.log|, [], []));
  }

  lemma JoinLog(s: System, n: Node)
    requires LogTold(s) && n.hist == [] && n.start == n.cursor == |s.log|
    ensures LogTold(s.(nodes := s.nodes + [n]))
  {}

  lemma NewNodeOk(start: nat)
    ensures NodeOk(Node(EMPTY, map[], start, start, [], []))
  {
    EmptyInv();
  }

  /** Every reachable system is in order. */
  lemma {:induction false} RunKeeps(moves: seq<Move>)
    ensures Run(moves).Some? ==> SystemOk(Run(moves).value)
  {
    if moves == [] || Run(moves).None? {
    } else {
      RunKeeps(moves[..|moves| - 1]);
      var s := Run(moves[..|moves| - 1]).value;
      match moves[|moves| - 1]
      case Join => JoinKeeps(s);
      case Act(w, step) => ActKeeps(s, w, step);
    }
  }

  // ----- what callers see -----

  /**
   * Role safety over whole runs: however the workers interleave, no step reaches a `panic!` arm, a
   * `todo!` or the failed `expect` of a removal. A step crashes exactly when it meets a bad offer,
   * a publisher without the stream it announced, a datagram that is not readable, or a send that is
   * too long for the slot that is free for it.
   */
  lemma WorkerCrashesExactly(moves: seq<Move>, w: nat, step: NodeStep)
    requires Run(moves).Some? && w < |Run(moves).value.nodes|
    requires Enabled(Run(moves).value.nodes[w], Run(moves).value.log, step)
    ensures NodeNext(Run(moves).value.nodes[w], w, Run(moves).value.log, step).Crash? <==>
              !Good(Run(moves).value.nodes[w], Run(moves).value.log, step)
  {
    RunKeeps(moves);
    NodeStepOk(Run(moves).value.nodes[w], w, Run(moves).value.log, step);
  }

  /**
   * Cross-worker delivery: a task's bus inputs are the events its worker read while it lived, in
   * log order, each once per registration made before; the worker reads the log without gaps from
   * where it joined; and what each task put on the log is what its actions say, in order.
   */
  lemma CrossWorkerDelivery(moves: seq<Move>, w: nat, id: TaskId)
    requires Run(moves).Some? && w < |Run(moves).value.nodes|
    ensures var s := Run(moves).value; var n := s.nodes[w];
            && InputsTo(n.inputs, id) == Expected(n.hist, id)
            && n.start <= n.cursor <= |s.log| && Reads(n.hist) == Events(s.log)[n.start..n.cursor]
            && LogOf(s.log, w, id) == Collect(ToBus, Taken(n.hist, id))
  {
    RunKeeps(moves);
  }

  /** End to end: a task's actions, the bus ones among them, are the translation of what its engine gave up. */
  lemma PublisherProvenance(moves: seq<Move>, w: nat, id: TaskId)
    requires Run(moves).Some? && w < |Run(moves).value.nodes| && id < Run(moves).value.nodes[w].tables.seed
    ensures var n := Run(moves).value.nodes[w];
            && Born(n.hist, id).Some?
            && Taken(n.hist, id) <= Born(n.hist, id).value.outputs + FlatMap(TranslatorOf(Born(n.hist, id).value), PolledBy(n.hist, id))
  {
    RunKeeps(moves);
    assert TaskTold(Run(moves).value.nodes[w].hist, id);
  }

  /** The tables of every worker of every run agree with each other. */
  lemma TablesAgree(moves: seq<Move>, w: nat)
    requires Run(moves).Some? && w < |Run(moves).value.nodes|
    ensures var s := Run(moves).value.nodes[w].tables; var roles := Run(moves).value.nodes[w].roles;
            && ConsumersAgree(s) && SourcesAgree(s) && NoEmptyEntry(s.chans) && ListedRoles(s, roles)
            && RemotesOk(s) && UfragsOk(s) && EndedOk(s) && Distinct(s.ended)
  {
    RunKeeps(moves);
  }

  /** A bound address stays with its task until the task is removed. */
  lemma StepKeepsBinding(n: Node, w: nat, log: seq<Entry>, step: NodeStep, a: SocketAddr)
    requires RemotesOk(n.tables) && EndedOk(n.tables) && Enabled(n, log, step)
    requires a in n.tables.remotes && NodeNext(n, w, log, step).Fine?
    ensures var s := NodeNext(n, w, log, step).node.tables;
            n.tables.remotes[a] in s.tasks ==> a in s.remotes && s.remotes[a] == n.tables.remotes[a]
  {
    match step
    case RemoveStep => RemoveBinding(n.tables.(ended := n.tables.ended[1..]), n.tables.ended[0], a);
    case TakeStep(id, now, _) => TakeBox(n.tables, id, now);
    case UdpStep(d, local) => BindKeepsBinding(n.tables, d, local, a);
    case _ =>
  }

  lemma BindKeepsBinding(s: Tables, d: Datagram, local: SocketAddr, a: SocketAddr)
    requires a in s.remotes && UdpRead(s, d, local).Routed?
    ensures var t := UdpRead(s, d, local).tables; a in t.remotes && t.remotes[a] == s.remotes[a]
  {}

  lemma RemoveBinding(s: Tables, id: TaskId, a: SocketAddr)
    requires RemotesOk(s) && id in s.tasks && a in s.remotes
    ensures s.remotes[a] != id ==> a in Remove(s, id).value.remotes && Remove(s, id).value.remotes[a] == s.remotes[a]
  {
    DropRemotesIs(s.remotes, s.tasks[id].remotes);
  }

  // ----- bindings over whole runs -----

  /** A step removes tasks or creates one with a new id; an old id never comes back. */
  lemma OldIds(n: Node, w: nat, log: seq<Entry>, step: NodeStep, id: TaskId)
    requires Enabled(n, log, step) && NodeNext(n, w, log, step).Fine? && id < n.tables.seed
    requires EndedOk(n.tables)
    ensures var t := NodeNext(n, w, log, step).node.tables; id < t.seed && (id in t.tasks ==> id in n.tables.tasks)
  {
    match step
    case TakeStep(i, now, _) => TakeBox(n.tables, i, now);
    case ReadStep(rs) => DeliverStory(n.tables.tasks, Receivers(n.tables, log[n.cursor].ev), AsInput(log[n.cursor].ev), rs);
    case UdpStep(d, local) => UdpStory(n.tables, d, local);
    case _ =>
  }

  ghost predicate BoundWhileLive(s: Tables, id: TaskId, a: SocketAddr) {
    id < s.seed && (id in s.tasks ==> a in s.remotes && s.remotes[a] == id)
  }

  lemma NodeKeepsBound(n: Node, w: nat, log: seq<Entry>, step: NodeStep, id: TaskId, a: SocketAddr)
    requires NodeOk(n) && Enabled(n, log, step) && NodeNext(n, w, log, step).Fine? && BoundWhileLive(n.tables, id, a)
    ensures BoundWhileLive(NodeNext(n, w, log, step).node.tables, id, a)
  {
    OldIds(n, w, log, step, id);
    if id in n.tables.tasks { StepKeepsBinding(n, w, log, step, a); }
  }

  lemma NextKeepsBound(s: System, m: Move, w: nat, id: TaskId, a: SocketAddr)
    requires SystemOk(s) && w < |s.nodes| && Next(s, m).Some? && BoundWhileLive(s.nodes[w].tables, id, a)
    ensures var t := Next(s, m).value; w < |t.nodes| && BoundWhileLive(t.nodes[w].tables, id, a)
  {
    if m.Act? && m.w == w { NodeKeepsBound(s.nodes[w], w, s.log, m.step, id, a); }
  }

  /**
   * An address stays bound to its task for life: whatever happens after it was bound, as long as the
   * task is there the address is bound to it. Ids of removed tasks are not used again, so this does
   * not start anew with another task.
   */
  lemma BindingStays(moves: seq<Move>, more: seq<Move>, w: nat, a: SocketAddr)
    requires Run(moves).Some? && w < |Run(moves).value.nodes| && a in Run(moves).value.nodes[w].tables.remotes
    requires Run(moves + more).Some?
    ensures var id := Run(moves).value.nodes[w].tables.remotes[a]; var t := Run(moves + more).value;
            && w < |t.nodes| && id < t.nodes[w].tables.seed
            && (id in t.nodes[w].tables.tasks ==> a in t.nodes[w].tables.remotes && t.nodes[w].tables.remotes[a] == id)
  {
    RunKeeps(moves);
    StaysBound(moves, more, w, Run(moves).value.nodes[w].tables.remotes[a], a);
  }

  lemma {:induction false} StaysBound(moves: seq<Move>, more: seq<Move>, w: nat, id: TaskId, a: SocketAddr)
    requires Run(moves).Some? && w < |Run(moves).value.nodes| && BoundWhileLive(Run(moves).value.nodes[w].tables, id, a)
    requires Run(moves + more).Some?
    ensures w < |Run(moves + more).value.nodes| && BoundWhileLive(Run(moves + more).value.nodes[w].tables, id, a)
    decreases |more|
  {
    if more == [] {
      assert moves + more == moves;
    } else {
      var init, last := more[..|more| - 1], more[|more| - 1];
      LastMove(moves, more);
      RunOne(moves + init, last);
      StaysBound(moves, init, w, id, a);
      RunKeeps(moves + init);
      NextKeepsBound(Run(moves + init).value, last, w, id, a);
    }
  }

  lemma LastMove(moves: seq<Move>, more: seq<Move>)
    requires more != []
    ensures moves + more == moves + more[..|more| - 1] + [more[|more| - 1]]
  {}

  lemma RunOne(moves: seq<Move>, m: Move)
    ensures Run(moves + [m]) == match Run(moves) case None => None case Some(s) => Next(s, m)
  {
    assert (moves + [m])[..|moves|] == moves;
  }
}
