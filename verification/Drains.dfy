/** What a worker takes out of its engines in a cycle: what it sends for it, and whom it removes. */
module Drains {
  import opened Seqs
  import opened Net
  import opened Tasks
  import opened Routing
  import opened RoutingSafety
  import opened Cycle
  import opened Deliveries
  import opened Cluster

  // ----- draining -----

  /** The engine outputs for which a task has an action at once; at any other it stops being asked. */
  predicate Speaks(role: Role, o: EngineOutput) {
    match o
    case Transmit(_, _, _) => true
    case IceChange(state) => state == Disconnected
    case Rtp(_, _, _) => role == Whip
    case KeyframeRequest(_) => role == Whep
    case _ => false
  }

  /** How many outputs, from the first on, bring an action at once. */
  function Spoken(role: Role, os: seq<EngineOutput>): (n: nat)
    ensures n <= |os| && (forall i :: 0 <= i < n ==> Speaks(role, os[i])) && (n < |os| ==> !Speaks(role, os[n]))
  {
    if os == [] || !Speaks(role, os[0]) then 0 else 1 + Spoken(role, os[1..])
  }

  /** What a drain takes out of an engine and has actions for: nothing before a deadline that is still to come. */
  function Uttered(t: Task, now: Time): seq<EngineOutput> {
    if Waiting(t, now) then [] else t.engine.ready[..Spoken(t.role, t.engine.ready)]
  }

  lemma TakeTask(id: TaskId, l: Local, now: Time)
    ensures TakeAction(id, l, now).0 == PopAction(l.box.task, now).0
    ensures TakeAction(id, l, now).1.box.task == PopAction(l.box.task, now).1
  {}

  /** A pop that polls an engine whose first output brings an action. */
  lemma PopSpeaks(t: Task, now: Time)
    requires Polls(t, now) && t.engine.ready != [] && Speaks(t.role, t.engine.ready[0])
    ensures var (out, u) := PopAction(t, now);
            && u == t.(engine := t.engine.(ready := t.engine.ready[1..]))
            && out.Some? && TranslatorOf(t)(t.engine.ready[0]) == [out.value]
  {}

  /** These are the actions of a drain of `t`, and the task it leaves. */
  ghost predicate DrainTold(t: Task, outs: seq<TaskOutput>, u: Task, now: Time) {
    outs == t.outputs + FlatMap(TranslatorOf(t), Uttered(t, now)) && Left(t, u, now)
  }

  /**
   * A drain performs what is queued and then, unless it waits for a deadline, the translation of
   * what the engine has ready up to the first output that brings no action; it takes that one too.
   */
  lemma {:induction false} DrainIs(id: TaskId, l: Local, now: Time)
    ensures var t := l.box.task;
            && Drain(id, l, now).0 == t.outputs + FlatMap(TranslatorOf(t), Uttered(t, now))
            && Left(t, Drain(id, l, now).1.box.task, now)
    decreases Work(l.box.task)
  {
    var t := l.box.task;
    var (out, u) := TakeAction(id, l, now);
    TakeTask(id, l, now);
    DrainEquation(id, l, now);
    if t.outputs != [] {
      DrainIs(id, u, now);
      QueuedTold(t, Drain(id, u, now).0, Drain(id, u, now).1.box.task, now);
    } else if Polls(t, now) && t.engine.ready != [] && Speaks(t.role, t.engine.ready[0]) {
      PopSpeaks(t, now);
      DrainIs(id, u, now);
      SpokenTold(t, out.value, Drain(id, u, now).0, Drain(id, u, now).1.box.task, now);
    } else {
      PopEnds(t, now);
    }
  }

  lemma QueuedTold(t: Task, outs: seq<TaskOutput>, u: Task, now: Time)
    requires t.outputs != [] && DrainTold(t.(outputs := t.outputs[1..]), outs, u, now)
    ensures DrainTold(t, [t.outputs[0]] + outs, u, now)
  {
    assert t.outputs == [t.outputs[0]] + t.outputs[1..];
    assert TranslatorOf(t.(outputs := t.outputs[1..])) == TranslatorOf(t);
  }

  lemma SpokenTold(t: Task, out: TaskOutput, outs: seq<TaskOutput>, u: Task, now: Time)
    requires Polls(t, now) && t.engine.ready != [] && Speaks(t.role, t.engine.ready[0]) && TranslatorOf(t)(t.engine.ready[0]) == [out]
    requires DrainTold(t.(engine := t.engine.(ready := t.engine.ready[1..])), outs, u, now)
    ensures DrainTold(t, [out] + outs, u, now)
  {
    var rest := t.(engine := t.engine.(ready := t.engine.ready[1..]));
    SpokenFirst(t, now);
    SpeaksOn(t, rest, u, now);
  }

  /** The task a drain leaves behind. */
  ghost predicate Left(t: Task, u: Task, now: Time) {
    var n := Spoken(t.role, t.engine.ready);
    if Waiting(t, now) then u == t.(outputs := [])
    else if n == |t.engine.ready| then u == t.(outputs := [], engine := t.engine.(ready := []), timeout := Some(t.engine.idleUntil))
    else
      && u.engine == t.engine.(ready := t.engine.ready[n + 1..])
      && u.outputs == Translate(t.role, t.audioTrack, t.videoTrack, t.engine.ready[n])
      && u.timeout == (if t.engine.ready[n].Timeout? then Some(t.engine.ready[n].at) else t.timeout)
      && u.fed == t.fed && u.ufrag == t.ufrag && u.role == t.role && u.audioTrack == t.audioTrack && u.videoTrack == t.videoTrack
  }

  lemma SpokenFirst(t: Task, now: Time)
    requires Polls(t, now) && t.engine.ready != [] && Speaks(t.role, t.engine.ready[0])
    ensures var rest := t.(engine := t.engine.(ready := t.engine.ready[1..]));
            && Uttered(t, now) == [t.engine.ready[0]] + Uttered(rest, now)
            && FlatMap(TranslatorOf(t), Uttered(t, now)) == TranslatorOf(t)(t.engine.ready[0]) + FlatMap(TranslatorOf(rest), Uttered(rest, now))
  {
    var rest := t.(engine := t.engine.(ready := t.engine.ready[1..]));
    assert Uttered(t, now) == [t.engine.ready[0]] + Uttered(rest, now);
    FlatMapConcat(TranslatorOf(t), [t.engine.ready[0]], Uttered(rest, now));
    FlatMapOne(TranslatorOf(t), t.engine.ready[0]);
    assert TranslatorOf(t) == TranslatorOf(rest);
  }

  lemma SpeaksOn(t: Task, rest: Task, u: Task, now: Time)
    requires Polls(t, now) && t.engine.ready != [] && Speaks(t.role, t.engine.ready[0])
    requires rest == t.(engine := t.engine.(ready := t.engine.ready[1..])) && Left(rest, u, now)
    ensures Left(t, u, now)
  {}

  lemma PopEnds(t: Task, now: Time)
    requires t.outputs == [] && (Waiting(t, now) || t.engine.ready == [] || !Speaks(t.role, t.engine.ready[0]))
    ensures PopAction(t, now).0.None? && DrainTold(t, [], PopAction(t, now).1, now)
  {}

  // ----- tracks -----

  /** An action enters the task at the end of the list its track has for it, and of its own list. */
  lemma TakeRegisters(id: TaskId, l: Local, now: Time, k: TrackId)
    ensures var (out, u) := TakeAction(id, l, now);
            && Sources(u.chans, k) == Sources(l.chans, k) + (if out == Some(PublishTrack(k)) then [id] else [])
            && Consumers(u.chans, k) == Consumers(l.chans, k) + (if out == Some(SubscribeTrack(k)) then [id] else [])
  {}

  /** The lists of a track after a drain: the task is appended once for each announcement of it. */
  lemma {:induction false} DrainRegisters(id: TaskId, l: Local, now: Time, k: TrackId)
    ensures var (outs, u) := Drain(id, l, now);
            && Sources(u.chans, k) == Sources(l.chans, k) + Repeat(id, Tally(PubTrack, outs, k))
            && Consumers(u.chans, k) == Consumers(l.chans, k) + Repeat(id, Tally(SubTrack, outs, k))
    decreases Work(l.box.task)
  {
    var (out, u) := TakeAction(id, l, now);
    TakeRegisters(id, l, now, k);
    DrainEquation(id, l, now);
    if out.Some? {
      var (outs, v) := Drain(id, u, now);
      DrainRegisters(id, u, now, k);
      Counts(out.value, outs, k);
      OneMore(Sources(l.chans, k), Sources(u.chans, k), id, Tally(PubTrack, outs, k), out == Some(PublishTrack(k)));
      OneMore(Consumers(l.chans, k), Consumers(u.chans, k), id, Tally(SubTrack, outs, k), out == Some(SubscribeTrack(k)));
    }
  }

  lemma Counts(out: TaskOutput, outs: seq<TaskOutput>, k: TrackId)
    ensures Tally(PubTrack, [out] + outs, k) == Tally(PubTrack, outs, k) + if out == PublishTrack(k) then 1 else 0
    ensures Tally(SubTrack, [out] + outs, k) == Tally(SubTrack, outs, k) + if out == SubscribeTrack(k) then 1 else 0
  {
    assert ([out] + outs)[1..] == outs;
    TallyHead(PubTrack, [out] + outs, k);
    TallyHead(SubTrack, [out] + outs, k);
  }

  lemma OneMore(before: seq<TaskId>, after: seq<TaskId>, id: TaskId, n: nat, here: bool)
    requires after == before + if here then [id] else []
    ensures after + Repeat(id, n) == before + Repeat(id, n + if here then 1 else 0)
  {}

  // ----- sends -----

  /** One send for each datagram among engine outputs, in order: its contents to its destination. */
  function SendsOf(os: seq<EngineOutput>): seq<SocketCall> {
    if os == [] then []
    else
      var o := os[|os| - 1];
      SendsOf(os[..|os| - 1]) + if o.Transmit? then [AddSendTo(Packet(o.contents, o.destination))] else []
  }

  lemma CallsOfOne(role: Role, audio: TrackId, video: TrackId, o: EngineOutput)
    ensures Collect(ToCall, Translate(role, audio, video, o)) == if o.Transmit? then [AddSendTo(Packet(o.contents, o.destination))] else []
  {
    var outs := Translate(role, audio, video, o);
    if outs != [] { CollectTwo(ToCall, outs[0], outs[|outs| - 1]); }
    assert |outs| == 1 ==> outs == [outs[0]];
    assert |outs| == 2 ==> outs == [outs[0], outs[1]];
  }

  /** The socket calls that the actions for some engine outputs stand for are the datagrams among the outputs. */
  lemma {:induction false} CallsAreSends(role: Role, audio: TrackId, video: TrackId, os: seq<EngineOutput>)
    ensures Collect(ToCall, FlatMap(Translator(role, audio, video), os)) == SendsOf(os)
  {
    if os == [] {
    } else {
      var init, o := os[..|os| - 1], os[|os| - 1];
      CallsAreSends(role, audio, video, init);
      CallsOfOne(role, audio, video, o);
      CollectConcat(ToCall, FlatMap(Translator(role, audio, video), init), Translate(role, audio, video, o));
    }
  }

  /** What a task may have queued: its response and the tracks it announces. */
  predicate Calm(outs: seq<TaskOutput>) {
    forall i :: 0 <= i < |outs| ==> outs[i].HttpReply? || outs[i].PublishTrack? || outs[i].SubscribeTrack?
  }

  ghost predicate AllCalm(tasks: map<TaskId, Container>) {
    forall id :: id in tasks ==> Calm(tasks[id].task.outputs)
  }

  lemma {:induction false} CalmNoCall(outs: seq<TaskOutput>)
    requires Calm(outs)
    ensures Collect(ToCall, outs) == []
  {
    if outs == [] {
    } else {
      CalmNoCall(outs[..|outs| - 1]);
    }
  }

  /** A drain sends exactly the datagrams among what it takes out of the engine. */
  lemma DrainSends(id: TaskId, l: Local, now: Time)
    requires Calm(l.box.task.outputs)
    ensures Collect(ToCall, Drain(id, l, now).0) == SendsOf(Uttered(l.box.task, now))
    ensures Calm(Drain(id, l, now).1.box.task.outputs)
  {
    DrainIs(id, l, now);
    UtteredCalls(l.box.task, now);
    LeftCalm(l.box.task, Drain(id, l, now).1.box.task, now);
  }

  lemma UtteredCalls(t: Task, now: Time)
    requires Calm(t.outputs)
    ensures Collect(ToCall, t.outputs + FlatMap(TranslatorOf(t), Uttered(t, now))) == SendsOf(Uttered(t, now))
  {
    CalmFirst(t.outputs, FlatMap(TranslatorOf(t), Uttered(t, now)));
    CallsAreSends(t.role, t.audioTrack, t.videoTrack, Uttered(t, now));
  }

  lemma CalmFirst(a: seq<TaskOutput>, b: seq<TaskOutput>)
    requires Calm(a)
    ensures Collect(ToCall, a + b) == Collect(ToCall, b)
  {
    CalmNoCall(a);
    CollectConcat(ToCall, a, b);
    assert [] + Collect(ToCall, b) == Collect(ToCall, b);
  }

  lemma LeftCalm(t: Task, u: Task, now: Time)
    requires Left(t, u, now)
    ensures Calm(u.outputs)
  {}

  lemma DrainTableLeaves(s: Tables, id: TaskId, now: Time)
    requires id in s.tasks
    ensures var m := DrainTable(s, id, now).tables.tasks;
            m.Keys == s.tasks.Keys && Left(s.tasks[id].task, m[id].task, now) && forall x :: x in s.tasks && x != id ==> m[x] == s.tasks[x]
  {
    DrainIs(id, LocalOf(s, id), now);
  }

  lemma DrainTableSends(s: Tables, id: TaskId, now: Time)
    requires AllCalm(s.tasks) && id in s.tasks
    ensures Collect(ToCall, DrainTable(s, id, now).outs) == SendsOf(Uttered(s.tasks[id].task, now))
    ensures AllCalm(DrainTable(s, id, now).tables.tasks)
    ensures forall x :: x in s.tasks && x != id ==> x in DrainTable(s, id, now).tables.tasks && DrainTable(s, id, now).tables.tasks[x] == s.tasks[x]
    ensures DrainTable(s, id, now).tables.tasks.Keys == s.tasks.Keys
  {
    DrainSends(id, LocalOf(s, id), now);
  }

  // ----- requests -----

  /** What the engine of a new task has to send. */
  function RequestSends(req: Request): seq<SocketCall> {
    match RoleFor(req.path)
    case None => []
    case Some(role) => SendsOf(req.engine.ready[..Spoken(role, req.engine.ready)])
  }

  lemma HttpOneSends(s: Tables, req: Request)
    requires AllCalm(s.tasks)
    ensures Collect(ToCall, HttpOne(s, req).outs) == RequestSends(req) && AllCalm(HttpOne(s, req).tables.tasks)
  {
    match RoleFor(req.path)
    case None => CalmNoCall([HttpReply(req.reqId, 404)]);
    case Some(role) => DrainSends(s.seed, Local(s.chans, s.ended, Container(TaskFor(role, req), [], [], [])), req.at);
  }

  lemma {:induction false} HttpAllSends(s: Tables, reqs: seq<Request>)
    requires AllCalm(s.tasks)
    ensures Collect(ToCall, HttpAll(s, reqs).outs) == FlatMap(RequestSends, reqs) && AllCalm(HttpAll(s, reqs).tables.tasks)
  {
    if reqs == [] {
    } else {
      var init, last := reqs[..|reqs| - 1], reqs[|reqs| - 1];
      HttpAllSends(s, init);
      var p := HttpAll(s, init);
      HttpOneSends(p.tables, last);
      CollectConcat(ToCall, p.outs, HttpOne(p.tables, last).outs);
    }
  }

  /**
   * A request for one of the two endpoints makes a task of its role, drained once, and no other
   * change; any other path is answered with 404 and changes nothing.
   */
  lemma RequestMakesTask(s: Tables, req: Request)
    ensures var (p, id) := (HttpOne(s, req), s.seed);
            if req.path == "/whip/endpoint" || req.path == "/whep/endpoint" then
              var role := if req.path == "/whip/endpoint" then Whip else Whep;
              && p.tables.seed == id + 1 && p.tables.ufrags == s.ufrags[req.ufrag := id] && p.tables.remotes == s.remotes
              && p.tables.tasks.Keys == s.tasks.Keys + {id} && (forall x :: x in s.tasks && x != id ==> p.tables.tasks[x] == s.tasks[x])
              && Left(Task(role, req.ufrag, None, req.engine, [HttpReply(req.reqId, 200)], None, None, req.audio, req.video, []),
                      p.tables.tasks[id].task, req.at)
            else p.tables == s && p.outs == [HttpReply(req.reqId, 404)]
  {
    match RoleFor(req.path)
    case None =>
    case Some(role) => DrainIs(s.seed, Local(s.chans, s.ended, Container(TaskFor(role, req), [], [], [])), req.at);
  }

  // ----- deadlines -----

  /** What the engines have to send when the tasks of `order` are drained. */
  function PopSends(tasks: map<TaskId, Container>, order: seq<TaskId>, now: Time): seq<SocketCall> {
    if order == [] then []
    else
      var id := order[|order| - 1];
      PopSends(tasks, order[..|order| - 1], now) + if id in tasks then SendsOf(Uttered(tasks[id].task, now)) else []
  }

  /** Draining every task once sends what each engine has ready, one task after the other. */
  lemma {:induction false} PopAllSends(s: Tables, order: seq<TaskId>, now: Time)
    requires AllCalm(s.tasks) && Distinct(order)
    ensures Collect(ToCall, PopAll(s, order, now).outs) == PopSends(s.tasks, order, now)
    ensures var m := PopAll(s, order, now).tables.tasks;
            m.Keys == s.tasks.Keys && AllCalm(m) && forall x :: x in s.tasks && x !in order ==> m[x] == s.tasks[x]
  {
    if order == [] {
    } else {
      var init, id := order[..|order| - 1], order[|order| - 1];
      assert id !in init;
      forall x | x !in order ensures x !in init {}
      PopAllSends(s, init, now);
      var p := PopAll(s, init, now);
      if id in s.tasks {
        DrainTableSends(p.tables, id, now);
        CollectConcat(ToCall, p.outs, DrainTable(p.tables, id, now).outs);
      }
    }
  }

  /** Draining every task once leaves each as its drain does, and drains nothing twice. */
  lemma {:induction false} PopAllLeaves(s: Tables, order: seq<TaskId>, now: Time, id: TaskId)
    requires Distinct(order) && id in s.tasks
    ensures var m := PopAll(s, order, now).tables.tasks;
            && m.Keys == s.tasks.Keys
            && if id in order then Left(s.tasks[id].task, m[id].task, now) else m[id] == s.tasks[id]
  {
    if order == [] {
    } else {
      var init, last := order[..|order| - 1], order[|order| - 1];
      assert order == init + [last] && last !in init;
      PopAllLeaves(s, init, now, id);
      if last in s.tasks { DrainTableLeaves(PopAll(s, init, now).tables, last, now); }
    }
  }

  // ----- datagrams -----

  /** What the engine that takes a datagram has to send at once; a datagram that reaches nobody brings nothing. */
  function DatagramSends(s: Tables, d: Datagram): seq<SocketCall> {
    match Bind(s, d).0
    case None => []
    case Some(id) =>
      if id !in s.tasks then [] else SendsOf(d.reaction.engine.ready[..Spoken(s.tasks[id].task.role, d.reaction.engine.ready)])
  }

  lemma ReadKeys(s: Tables, d: Datagram, local: SocketAddr)
    requires UdpRead(s, d, local).Routed?
    ensures UdpRead(s, d, local).tables.tasks.Keys == s.tasks.Keys
  {
    UdpReadIs(s, d, local);
  }

  /** What a datagram leaves queued is what was queued. */
  lemma ReadCalm(s: Tables, roles: map<TaskId, Role>, d: Datagram, local: SocketAddr)
    requires Inv(s, roles) && AllCalm(s.tasks) && Readable(s, d)
    ensures UdpRead(s, d, local).Routed? && AllCalm(UdpRead(s, d, local).tables.tasks)
  {
    UdpKeeps(s, roles, d, local);
    ReadKeys(s, d, local);
    var r := UdpRead(s, d, local);
    forall id | id in r.tables.tasks ensures Calm(r.tables.tasks[id].task.outputs) {
      DatagramArrives(s, roles, d, local, id);
      assert Calm(s.tasks[id].task.outputs);
    }
  }

  /** After each datagram its task is drained at once: what the engine has ready on it is sent before the next datagram is read. */
  lemma UdpOneSends(s: Tables, roles: map<TaskId, Role>, d: Datagram, local: SocketAddr)
    requires Inv(s, roles) && AllCalm(s.tasks) && Readable(s, d)
    ensures UdpOne(s, d, local).Some?
    ensures Collect(ToCall, UdpOne(s, d, local).value.outs) == DatagramSends(s, d)
    ensures AllCalm(UdpOne(s, d, local).value.tables.tasks)
  {
    ReadCalm(s, roles, d, local);
    ReadKeys(s, d, local);
    BindReaches(s, roles, d);
    BindKeys(s, d);
    var r := UdpRead(s, d, local);
    ReadTo(s, d, local);
    if r.to.Some? {
      DatagramArrives(s, roles, d, local, r.to.value);
      DrainTableSends(r.tables, r.to.value, d.at);
    }
  }

  /** A datagram leaves the task it reaches as the drain right after it does, and every other task as it was. */
  lemma UdpOneLeaves(s: Tables, roles: map<TaskId, Role>, d: Datagram, local: SocketAddr, id: TaskId)
    requires Inv(s, roles) && Readable(s, d) && id in s.tasks
    ensures UdpOne(s, d, local).Some? && id in UdpOne(s, d, local).value.tables.tasks
    ensures var t, u := s.tasks[id].task, UdpOne(s, d, local).value.tables.tasks[id].task;
            if Bind(s, d).0 == Some(id)
            then Left(t.(engine := d.reaction.engine, timeout := None, fed := t.fed + [Received(d.remote, local, d.buf)]), u, d.at)
            else u == t
  {
    UdpKeeps(s, roles, d, local);
    BindReaches(s, roles, d);
    if Bind(s, d).0.Some? { ReadableParses(s, roles, d); }
    UdpOneEffect(s, d, local, id);
  }

  lemma UdpOneEffect(s: Tables, d: Datagram, local: SocketAddr, id: TaskId)
    requires UdpRead(s, d, local).Routed? && (Bind(s, d).0.Some? ==> Bind(s, d).0.value in Bind(s, d).1.tasks && d.reaction.parses)
    requires id in s.tasks
    ensures UdpOne(s, d, local).Some? && id in UdpOne(s, d, local).value.tables.tasks
    ensures var t, u := s.tasks[id].task, UdpOne(s, d, local).value.tables.tasks[id].task;
            if Bind(s, d).0 == Some(id)
            then Left(t.(engine := d.reaction.engine, timeout := None, fed := t.fed + [Received(d.remote, local, d.buf)]), u, d.at)
            else u == t
  {
    DatagramEffect(s, d, local, id);
    ReadKeys(s, d, local);
    BindKeys(s, d);
    UdpOneIs(s, d, local);
    var r := UdpRead(s, d, local);
    if r.to.Some? { DrainTableLeaves(r.tables, r.to.value, d.at); }
  }

  lemma UdpOneIs(s: Tables, d: Datagram, local: SocketAddr)
    requires UdpRead(s, d, local).Routed?
    ensures var r := UdpRead(s, d, local);
            UdpOne(s, d, local) ==
              if r.to.Some? && r.to.value in r.tables.tasks then Some(DrainTable(r.tables, r.to.value, d.at)) else Some(Phase([], r.tables))
  {}

  lemma BindKeys(s: Tables, d: Datagram)
    ensures Bind(s, d).1.tasks.Keys == s.tasks.Keys
  {}

  lemma ReadTo(s: Tables, d: Datagram, local: SocketAddr)
    requires UdpRead(s, d, local).Routed? && (Bind(s, d).0.Some? ==> Bind(s, d).0.value in Bind(s, d).1.tasks)
    ensures UdpRead(s, d, local).to == Bind(s, d).0
  {
    UdpReadIs(s, d, local);
  }

  /** What the engines have to send on some datagrams, each at its turn. */
  function AllDatagramSends(s: Tables, ds: seq<Datagram>, local: SocketAddr): seq<SocketCall> {
    if ds == [] then []
    else
      var init := ds[..|ds| - 1];
      AllDatagramSends(s, init, local) +
      match UdpAll(s, init, local) case None => [] case Some(p) => DatagramSends(p.tables, ds[|ds| - 1])
  }

  lemma {:induction false} UdpAllSends(s: Tables, roles: map<TaskId, Role>, ds: seq<Datagram>, local: SocketAddr)
    requires Inv(s, roles) && AllCalm(s.tasks) && UdpAll(s, ds, local).Some?
    ensures Collect(ToCall, UdpAll(s, ds, local).value.outs) == AllDatagramSends(s, ds, local)
    ensures AllCalm(UdpAll(s, ds, local).value.tables.tasks)
  {
    if ds == [] {
    } else {
      var init, last := ds[..|ds| - 1], ds[|ds| - 1];
      UdpAllSends(s, roles, init, local);
      UdpAllKeeps(s, roles, init, local);
      var p := UdpAll(s, init, local).value;
      UdpOneKeeps(p.tables, roles, last, local);
      UdpOneSends(p.tables, roles, last, local);
      CollectConcat(ToCall, p.outs, UdpOne(p.tables, last, local).value.outs);
    }
  }

  // ----- a whole cycle -----

  /** The bus and the ticks queue nothing. */
  lemma GiveCalm(tasks: map<TaskId, Container>, id: TaskId, e: TaskInput, r: Reaction)
    requires AllCalm(tasks) && GiveTo(tasks, id, e, r).Delivered?
    ensures AllCalm(GiveTo(tasks, id, e, r).tasks)
  {
    if id in tasks { InputSame(tasks[id].task, e, r); }
  }

  lemma {:induction false} DeliverCalm(tasks: map<TaskId, Container>, ids: seq<TaskId>, e: TaskInput, rs: seq<Reaction>)
    requires AllCalm(tasks) && Deliver(tasks, ids, e, rs).Delivered?
    ensures AllCalm(Deliver(tasks, ids, e, rs).tasks)
  {
    if ids == [] {
    } else {
      DeliverCalm(tasks, ids[..|ids| - 1], e, rs);
      GiveCalm(Deliver(tasks, ids[..|ids| - 1], e, rs).tasks, ids[|ids| - 1], e, At(rs, |ids| - 1));
    }
  }

  lemma {:induction false} BusAllCalm(s: Tables, evs: seq<BusEvent>, rss: seq<seq<Reaction>>)
    requires AllCalm(s.tasks) && BusAll(s, evs, rss).Some?
    ensures AllCalm(BusAll(s, evs, rss).value.tasks)
  {
    if evs == [] {
    } else {
      var n := |evs| - 1;
      BusAllCalm(s, evs[..n], rss);
      var t := BusAll(s, evs[..n], rss).value;
      DeliverCalm(t.tasks, Receivers(t, evs[n]), AsInput(evs[n]), Reactions(rss, n));
    }
  }

  lemma TickAllCalm(s: Tables, now: Time, rs: map<TaskId, Reaction>)
    requires AllCalm(s.tasks)
    ensures AllCalm(TickAll(s, now, rs).tasks)
  {
    forall id | id in s.tasks ensures Calm(TickAll(s, now, rs).tasks[id].task.outputs) {
      TickAllEffect(s, now, rs, id);
      assert Calm(s.tasks[id].task.outputs);
    }
  }

  lemma {:induction false} RemoveAllCalm(s: Tables, ids: seq<TaskId>)
    requires AllCalm(s.tasks) && RemoveAll(s, ids).Some?
    ensures AllCalm(RemoveAll(s, ids).value.tasks)
  {
    if ids == [] {
    } else {
      RemoveAllCalm(s, ids[..|ids| - 1]);
    }
  }

  /** What a cycle sends: for its requests, for the deadlines that have come, and for its datagrams. */
  function CycleSendsOf(ticked: Tables, removed: Tables, env: Env): seq<SocketCall> {
    FlatMap(RequestSends, env.reqs) + PopSends(ticked.tasks, env.order, env.popAt) + AllDatagramSends(removed, env.ds, env.local)
  }

  /** The tables of a cycle when the tasks have been ticked, and when the ended ones have been removed. */
  function Ticked(s: Tables, env: Env): Tables {
    match BusAll(s, env.evs, env.rss)
    case None => s
    case Some(t) => TickAll(HttpAll(t, env.reqs).tables, env.tickAt, env.ticks)
  }

  function Cleared(s: Tables, env: Env): Tables {
    match BeforeRemoval(s, env)
    case None => s
    case Some(p) => match PopEnded(p.tables) case None => s case Some(t) => t
  }

  lemma BeforeRemovalSends(s: Tables, env: Env)
    requires AllCalm(s.tasks) && BeforeRemoval(s, env).Some? && Distinct(env.order)
    ensures Collect(ToCall, BeforeRemoval(s, env).value.outs) == FlatMap(RequestSends, env.reqs) + PopSends(Ticked(s, env).tasks, env.order, env.popAt)
    ensures AllCalm(BeforeRemoval(s, env).value.tables.tasks)
  {
    BusAllCalm(s, env.evs, env.rss);
    var s1 := BusAll(s, env.evs, env.rss).value;
    HttpAllSends(s1, env.reqs);
    var p2 := HttpAll(s1, env.reqs);
    TickAllCalm(p2.tables, env.tickAt, env.ticks);
    var s3 := TickAll(p2.tables, env.tickAt, env.ticks);
    PopAllSends(s3, env.order, env.popAt);
    CollectConcat(ToCall, p2.outs, PopAll(s3, env.order, env.popAt).outs);
  }

  /**
   * The sends of a whole cycle: each datagram that an engine has ready, up to where its drain stops,
   * once, in order, with its contents and its destination; first for the new tasks, then for the
   * tasks that wait for no deadline, then for each datagram read. Nothing else is sent.
   */
  lemma CycleSends(s: Tables, roles: map<TaskId, Role>, env: Env)
    requires Inv(s, roles) && AllCalm(s.tasks) && Phases(s, env).Some? && Distinct(env.order)
    requires NewUfrags(BusAll(s, env.evs, env.rss).value, env.reqs)
    ensures Collect(ToCall, Phases(s, env).value.outs) == CycleSendsOf(Ticked(s, env), Cleared(s, env), env)
    ensures AllCalm(Phases(s, env).value.tables.tasks)
  {
    BeforeRemovalSends(s, env);
    var p := BeforeRemoval(s, env).value;
    RemoveAllCalm(p.tables.(ended := []), p.tables.ended);
    var roles' := BeforeRemovalKeeps(s, roles, env);
    PopEndedSucceeds(p.tables, roles');
    CompleteRemoval(p.tables, roles');
    var s5 := PopEnded(p.tables).value;
    UdpAllSends(s5, roles', env.ds, env.local);
    CollectConcat(ToCall, p.outs, UdpAll(s5, env.ds, env.local).value.outs);
  }

  // ----- what a cycle hands to the engines -----

  /** The datagrams that reach a task, each told at its turn. */
  function Reaching(s: Tables, ds: seq<Datagram>, local: SocketAddr, id: TaskId): seq<EngineInput> {
    if ds == [] then []
    else
      var init, last := ds[..|ds| - 1], ds[|ds| - 1];
      Reaching(s, init, local, id) +
      match UdpAll(s, init, local)
      case None => []
      case Some(p) => if Bind(p.tables, last).0 == Some(id) then [Received(last.remote, local, last.buf)] else []
  }

  lemma UdpOneHands(s: Tables, roles: map<TaskId, Role>, d: Datagram, local: SocketAddr, id: TaskId)
    requires Inv(s, roles) && Readable(s, d) && id in s.tasks
    ensures UdpOne(s, d, local).Some? && id in UdpOne(s, d, local).value.tables.tasks
    ensures UdpOne(s, d, local).value.tables.tasks[id].task.fed ==
              s.tasks[id].task.fed + if Bind(s, d).0 == Some(id) then [Received(d.remote, local, d.buf)] else []
  {
    UdpOneLeaves(s, roles, d, local, id);
  }

  lemma {:induction false} UdpAllHands(s: Tables, roles: map<TaskId, Role>, ds: seq<Datagram>, local: SocketAddr, id: TaskId)
    requires Inv(s, roles) && UdpAll(s, ds, local).Some? && id in s.tasks
    ensures id in UdpAll(s, ds, local).value.tables.tasks
    ensures UdpAll(s, ds, local).value.tables.tasks[id].task.fed == s.tasks[id].task.fed + Reaching(s, ds, local, id)
  {
    if ds == [] {
    } else {
      var init, last := ds[..|ds| - 1], ds[|ds| - 1];
      LastDatagram(s, ds, local, id);
      UdpAllHands(s, roles, init, local, id);
      NextReadable(s, roles, ds, local);
      var t := UdpAll(s, init, local).value.tables;
      UdpOneHands(t, roles, last, local, id);
      Chained(s.tasks[id].task.fed, t.tasks[id].task.fed, UdpAll(s, ds, local).value.tables.tasks[id].task.fed,
              Reaching(s, init, local, id), Reaching(s, ds, local, id),
              if Bind(t, last).0 == Some(id) then [Received(last.remote, local, last.buf)] else []);
    }
  }

  lemma NextReadable(s: Tables, roles: map<TaskId, Role>, ds: seq<Datagram>, local: SocketAddr)
    requires Inv(s, roles) && ds != [] && UdpAll(s, ds, local).Some?
    ensures var p := UdpAll(s, ds[..|ds| - 1], local);
            p.Some? && Inv(p.value.tables, roles) && Readable(p.value.tables, ds[|ds| - 1])
  {
    var init := ds[..|ds| - 1];
    UdpAllKeeps(s, roles, init, local);
    UdpOneKeeps(UdpAll(s, init, local).value.tables, roles, ds[|ds| - 1], local);
  }

  lemma LastDatagram(s: Tables, ds: seq<Datagram>, local: SocketAddr, id: TaskId)
    requires ds != [] && UdpAll(s, ds, local).Some?
    ensures var init, last := ds[..|ds| - 1], ds[|ds| - 1];
            && UdpAll(s, init, local).Some?
            && UdpOne(UdpAll(s, init, local).value.tables, last, local).Some?
            && UdpAll(s, ds, local).value.tables == UdpOne(UdpAll(s, init, local).value.tables, last, local).value.tables
            && Reaching(s, ds, local, id) ==
               Reaching(s, init, local, id) +
               if Bind(UdpAll(s, init, local).value.tables, last).0 == Some(id) then [Received(last.remote, local, last.buf)] else []
  {}

  /**
   * Over a whole cycle the engine of a task that lives through it is handed the bus events for it, in
   * log order, then its deadline if it still has one and it has come, then the datagrams that reach it.
   */
  lemma CycleFed(s: Tables, roles: map<TaskId, Role>, env: Env, id: TaskId)
    requires Inv(s, roles) && Phases(s, env).Some? && id in s.tasks && id in Phases(s, env).value.tables.tasks
    requires NewUfrags(BusAll(s, env.evs, env.rss).value, env.reqs)
    ensures var t := DoAll(s.tasks[id].task, BusInputs(s, env.evs, env.rss, id)).task;
            Phases(s, env).value.tables.tasks[id].task.fed ==
              t.fed + (if t.timeout.Some? && t.timeout.value <= env.tickAt then [TimeoutDue(env.tickAt)] else [])
              + Reaching(Cleared(s, env), env.ds, env.local, id)
  {
    CycleHands(s, roles, env, id);
    var t := BeforeRemoval(s, env).value.tables;
    var roles' := BeforeRemovalKeeps(s, roles, env);
    PopEndedSucceeds(t, roles');
    CompleteRemoval(t, roles');
    var s5 := PopEnded(t).value;
    UdpAllKeys(s5, env.ds, env.local);
    UdpAllHands(s5, roles', env.ds, env.local, id);
  }

  // ----- ended tasks -----

  /** One entry for each end of a task among some actions. */
  function EndsOf(id: TaskId, outs: seq<TaskOutput>): seq<TaskId> {
    if outs == [] then []
    else EndsOf(id, outs[..|outs| - 1]) + if outs[|outs| - 1].TaskEnded? then [id] else []
  }

  lemma {:induction false} EndsConcat(id: TaskId, a: seq<TaskOutput>, b: seq<TaskOutput>)
    ensures EndsOf(id, a + b) == EndsOf(id, a) + EndsOf(id, b)
    decreases |b|
  {
    if b == [] {
      assert a + b == a;
    } else {
      assert (a + b)[..|a + b| - 1] == a + b[..|b| - 1];
      EndsConcat(id, a, b[..|b| - 1]);
    }
  }

  lemma EndsFirst(id: TaskId, out: TaskOutput, rest: seq<TaskOutput>)
    ensures EndsOf(id, [out] + rest) == EndsOf(id, [out]) + EndsOf(id, rest) && EndsOf(id, [out]) == if out.TaskEnded? then [id] else []
  {
    EndsConcat(id, [out], rest);
    EndsOne(id, out);
  }

  lemma Onward<T>(a: seq<T>, b: seq<T>, c: seq<T>)
    ensures a + b + c == a + (b + c)
  {}

  lemma EndsOne(id: TaskId, out: TaskOutput)
    ensures EndsOf(id, [out]) == if out.TaskEnded? then [id] else []
  {
    assert [out][..0] == [];
  }

  lemma TakeEnded(id: TaskId, l: Local, now: Time)
    ensures var (out, u) := TakeAction(id, l, now);
            u.ended == l.ended + if out == Some(TaskEnded) then [id] else []
  {}

  lemma {:induction false} DrainEnded(id: TaskId, l: Local, now: Time)
    ensures Drain(id, l, now).1.ended == l.ended + EndsOf(id, Drain(id, l, now).0)
    decreases Work(l.box.task)
  {
    var (out, u) := TakeAction(id, l, now);
    TakeEnded(id, l, now);
    DrainEquation(id, l, now);
    if out.Some? {
      DrainEnded(id, u, now);
      EndsFirst(id, out.value, Drain(id, u, now).0);
      Onward(l.ended, EndsOf(id, [out.value]), EndsOf(id, Drain(id, u, now).0));
    }
  }

  /** An end among the actions for some engine outputs is a disconnection among the outputs. */
  lemma {:induction false} EndsAreDisconnections(id: TaskId, role: Role, audio: TrackId, video: TrackId, os: seq<EngineOutput>)
    ensures id in EndsOf(id, FlatMap(Translator(role, audio, video), os)) <==> IceChange(Disconnected) in os
    ensures forall x :: x in EndsOf(id, FlatMap(Translator(role, audio, video), os)) ==> x == id
  {
    if os == [] {
    } else {
      var init, o := os[..|os| - 1], os[|os| - 1];
      assert os == init + [o];
      EndsAreDisconnections(id, role, audio, video, init);
      EndsConcat(id, FlatMap(Translator(role, audio, video), init), Translate(role, audio, video, o));
      EndsOfOne(id, role, audio, video, o);
    }
  }

  lemma EndsOfOne(id: TaskId, role: Role, audio: TrackId, video: TrackId, o: EngineOutput)
    ensures EndsOf(id, Translate(role, audio, video, o)) == if o == IceChange(Disconnected) then [id] else []
  {
    var outs := Translate(role, audio, video, o);
    if |outs| == 1 {
      EndsOne(id, outs[0]);
      assert [outs[0]] == outs;
    } else if |outs| == 2 {
      EndsConcat(id, [outs[0]], [outs[1]]);
      EndsOne(id, outs[0]);
      EndsOne(id, outs[1]);
      assert [outs[0]] + [outs[1]] == outs;
    }
  }

  lemma {:induction false} CalmNoEnd(id: TaskId, outs: seq<TaskOutput>)
    requires Calm(outs)
    ensures EndsOf(id, outs) == []
  {
    if outs == [] {
    } else {
      CalmNoEnd(id, outs[..|outs| - 1]);
    }
  }

  /** A drain lists its task as ended exactly if the engine was disconnected. */
  lemma DrainEnds(id: TaskId, l: Local, now: Time)
    requires Calm(l.box.task.outputs)
    ensures var ended := Drain(id, l, now).1.ended;
            forall x :: x in ended <==> x in l.ended || (x == id && IceChange(Disconnected) in Uttered(l.box.task, now))
  {
    var t := l.box.task;
    DrainIs(id, l, now);
    DrainEnded(id, l, now);
    CalmNoEnd(id, t.outputs);
    EndsConcat(id, t.outputs, FlatMap(TranslatorOf(t), Uttered(t, now)));
    EndsAreDisconnections(id, t.role, t.audioTrack, t.videoTrack, Uttered(t, now));
  }

  lemma DrainTableEnds(s: Tables, id: TaskId, now: Time)
    requires id in s.tasks && Calm(s.tasks[id].task.outputs)
    ensures var ended := DrainTable(s, id, now).tables.ended;
            forall x :: x in ended <==> x in s.ended || (x == id && IceChange(Disconnected) in Uttered(s.tasks[id].task, now))
  {
    DrainEnds(id, LocalOf(s, id), now);
    assert DrainTable(s, id, now).tables.ended == Drain(id, LocalOf(s, id), now).1.ended;
    assert LocalOf(s, id).ended == s.ended && LocalOf(s, id).box.task == s.tasks[id].task;
  }

  /** Requests list at most new tasks. */
  lemma {:induction false} HttpAllEnds(s: Tables, reqs: seq<Request>, id: TaskId)
    requires AllCalm(s.tasks) && id < s.seed
    ensures var t := HttpAll(s, reqs).tables; id < t.seed && (id in t.ended <==> id in s.ended)
  {
    if reqs == [] {
    } else {
      var init, last := reqs[..|reqs| - 1], reqs[|reqs| - 1];
      HttpAllEnds(s, init, id);
      var t := HttpAll(s, init).tables;
      match RoleFor(last.path)
      case None =>
      case Some(role) => DrainEnds(t.seed, Local(t.chans, t.ended, Container(TaskFor(role, last), [], [], [])), last.at);
    }
  }

  lemma {:induction false} PopAllEnds(s: Tables, order: seq<TaskId>, now: Time, id: TaskId)
    requires AllCalm(s.tasks) && Distinct(order) && id in s.tasks
    ensures id in PopAll(s, order, now).tables.ended <==>
              id in s.ended || (id in order && IceChange(Disconnected) in Uttered(s.tasks[id].task, now))
  {
    if order == [] {
    } else {
      var init, last := order[..|order| - 1], order[|order| - 1];
      assert order == init + [last] && last !in init;
      forall x | x !in order ensures x !in init {}
      PopAllEnds(s, init, now, id);
      PopAllSends(s, init, now);
      var t := PopAll(s, init, now).tables;
      if last in s.tasks { DrainTableEnds(t, last, now); }
    }
  }

  lemma {:induction false} UdpAllKeys(s: Tables, ds: seq<Datagram>, local: SocketAddr)
    requires UdpAll(s, ds, local).Some?
    ensures UdpAll(s, ds, local).value.tables.tasks.Keys == s.tasks.Keys
  {
    if ds == [] {
    } else {
      UdpAllKeys(s, ds[..|ds| - 1], local);
      UdpOneKeys(UdpAll(s, ds[..|ds| - 1], local).value.tables, ds[|ds| - 1], local);
    }
  }

  lemma UdpOneKeys(s: Tables, d: Datagram, local: SocketAddr)
    requires UdpOne(s, d, local).Some?
    ensures UdpOne(s, d, local).value.tables.tasks.Keys == s.tasks.Keys
  {
    ReadKeys(s, d, local);
  }

  lemma BeforeRemovalEnds(s: Tables, roles: map<TaskId, Role>, env: Env, id: TaskId)
    requires Inv(s, roles) && AllCalm(s.tasks) && BeforeRemoval(s, env).Some? && Distinct(env.order) && id in s.tasks
    ensures id in Ticked(s, env).tasks && id in BeforeRemoval(s, env).value.tables.tasks
    ensures id in BeforeRemoval(s, env).value.tables.ended <==>
              id in s.ended || (id in env.order && IceChange(Disconnected) in Uttered(Ticked(s, env).tasks[id].task, env.popAt))
  {
    BusAllCalm(s, env.evs, env.rss);
    BusAllEffect(s, env.evs, env.rss, id);
    var s1 := BusAll(s, env.evs, env.rss).value;
    HttpAllSends(s1, env.reqs);
    HttpAllHands(s1, env.reqs, id);
    HttpAllEnds(s1, env.reqs, id);
    var s2 := HttpAll(s1, env.reqs).tables;
    TickAllCalm(s2, env.tickAt, env.ticks);
    PopAllEnds(TickAll(s2, env.tickAt, env.ticks), env.order, env.popAt, id);
    PopAllSends(TickAll(s2, env.tickAt, env.ticks), env.order, env.popAt);
  }

  /**
   * A cycle removes exactly the tasks that had ended before and those whose engines say that they
   * are disconnected when they are drained for their deadlines; who ends on a datagram stays until the next cycle.
   */
  lemma CycleRemoves(s: Tables, roles: map<TaskId, Role>, env: Env, id: TaskId)
    requires Inv(s, roles) && AllCalm(s.tasks) && Phases(s, env).Some? && Distinct(env.order) && id in s.tasks
    requires NewUfrags(BusAll(s, env.evs, env.rss).value, env.reqs)
    ensures id in Ticked(s, env).tasks
    ensures id !in Phases(s, env).value.tables.tasks <==>
              id in s.ended || (id in env.order && IceChange(Disconnected) in Uttered(Ticked(s, env).tasks[id].task, env.popAt))
  {
    BeforeRemovalEnds(s, roles, env, id);
    var t := BeforeRemoval(s, env).value.tables;
    var roles' := BeforeRemovalKeeps(s, roles, env);
    PopEndedSucceeds(t, roles');
    CompleteRemoval(t, roles');
    UdpAllKeys(PopEnded(t).value, env.ds, env.local);
  }
}
