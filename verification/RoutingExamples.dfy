/** Concrete cycles of a worker: the two ways it crashes, and what a publisher leaves behind. */
module RoutingExamples {
  import opened Seqs
  import opened Net
  import opened Tasks
  import opened Routing
  import opened RoutingSafety
  import opened Cycle
  import opened Sizes
  import CycleRuns

  /** A cycle in which one publisher is asked for, with this engine, and nothing else happens; the socket always has a slot. */
  function OneRequest(engine: Engine): Env {
    Env([], [], [Request(0, WHIP_PATH, true, "u", engine, 5, 6, 0)], 0, map[], 0, [0], [], SocketAddr(0, 0), 0, _ => true, true)
  }

  /** With a small engine the sends of this cycle fit, so its phases are all of it. */
  lemma SmallRequest(engine: Engine)
    requires SmallEngine(engine) && Phases(EMPTY, OneRequest(engine)).Some?
    ensures RunCycle(EMPTY, OneRequest(engine)) == Phases(EMPTY, OneRequest(engine))
  {
    CycleSmall(EMPTY, OneRequest(engine));
  }

  function Publisher(ready: seq<EngineOutput>): Task {
    NewTask(Whip, 0, "u", Engine(ready, 9), 5, 6)
  }

  lemma OnlyRequest(engine: Engine)
    ensures NewUfrags(EMPTY, OneRequest(engine).reqs)
    ensures HttpAll(EMPTY, OneRequest(engine).reqs) == HttpOne(EMPTY, OneRequest(engine).reqs[0])
  {
    var reqs := OneRequest(engine).reqs;
    assert reqs[..0] == [] && HttpAll(EMPTY, reqs[..0]) == Phase([], EMPTY);
    assert [] + HttpOne(EMPTY, reqs[0]).outs == HttpOne(EMPTY, reqs[0]).outs;
  }

  lemma TakesQueued(l: Local, out: TaskOutput, rest: seq<TaskOutput>)
    requires l.box.task.outputs == [out] + rest
    ensures TakeAction(0, l, 0) == (Some(out), Perform(0, l.(box := l.box.(task := l.box.task.(outputs := rest))), out))
  {
    assert l.box.task.outputs[1..] == rest;
  }

  lemma TakesPolled(l: Local, o: EngineOutput, rest: seq<EngineOutput>)
    requires l.box.task.outputs == [] && !Waiting(l.box.task, 0) && l.box.task.engine.ready == [o] + rest
    ensures var (out, t) := Handle(l.box.task.(engine := Engine(rest, l.box.task.engine.idleUntil)), o);
            var u := l.(box := l.box.(task := t));
            TakeAction(0, l, 0) == (out, if out.Some? then Perform(0, u, out.value) else u)
  {
    assert l.box.task.engine.ready[1..] == rest;
  }

  // ----- a task that ends twice -----

  function Leaving(ready: seq<EngineOutput>, ended: seq<TaskId>): Local {
    Local(map[], ended, Container(Publisher(ready).(outputs := []), [], [], []))
  }

  lemma LeavesOnce(rest: seq<EngineOutput>, ended: seq<TaskId>)
    ensures Drain(0, Leaving([IceChange(Disconnected)] + rest, ended), 0).1 == Drain(0, Leaving(rest, ended + [0]), 0).1
  {
    TakesPolled(Leaving([IceChange(Disconnected)] + rest, ended), IceChange(Disconnected), rest);
    DrainEquation(0, Leaving([IceChange(Disconnected)] + rest, ended), 0);
  }

  lemma EndsTwice()
    ensures HttpOne(EMPTY, OneRequest(Engine([IceChange(Disconnected), IceChange(Disconnected)], 9)).reqs[0]).tables.ended == [0, 0]
  {
    var gone := IceChange(Disconnected);
    var l := Local(map[], [], Container(Publisher([gone, gone]), [], [], []));
    TakesQueued(l, HttpReply(0, 200), []);
    DrainEquation(0, l, 0);
    assert [gone] + [gone] == [gone, gone] && [gone] + [] == [gone];
    LeavesOnce([gone], []);
    LeavesOnce([], [] + [0]);
    DrainEquation(0, Leaving([], [] + [0] + [0]), 0);
    assert [] + [0] + [0] == [0, 0];
  }

  /** An engine that disconnects twice in the cycle of its request brings the worker down. */
  lemma EndedTwiceFails()
    ensures RunCycle(EMPTY, OneRequest(Engine([IceChange(Disconnected), IceChange(Disconnected)], 9))).None?
  {
    var env := OneRequest(Engine([IceChange(Disconnected), IceChange(Disconnected)], 9));
    OnlyRequest(env.reqs[0].engine);
    EndsTwice();
    EndsBeforeRemoval(env);
    EmptyInv();
    var roles := CycleKeeps(EMPTY, map[], env);
  }

  lemma EndsBeforeRemoval(env: Env)
    requires env.evs == [] && AllBuild(env.reqs) && HttpAll(EMPTY, env.reqs).tables.ended == [0, 0]
    ensures BeforeRemoval(EMPTY, env).Some? && !Distinct(BeforeRemoval(EMPTY, env).value.tables.ended)
  {
    CycleRuns.PopAllEnds(TickAll(HttpAll(EMPTY, env.reqs).tables, env.tickAt, env.ticks), env.order, env.popAt);
    var ended := BeforeRemoval(EMPTY, env).value.tables.ended;
    assert [0, 0] <= ended;
    assert ended[0] == ended[1];
  }

  // ----- a publisher that connects -----

  /** The publisher with one action of its connection still to be taken, or none. */
  function Connecting(rest: seq<EngineOutput>, outputs: seq<TaskOutput>): Task {
    Publisher([]).(engine := Engine(rest, 9), outputs := outputs)
  }

  /** The tables of a publisher that connected, as far as a drain sees them. */
  function Connected(rest: seq<EngineOutput>): Local {
    Local(map[5 := Channel([0], []), 6 := Channel([0], [])], [], Container(Connecting(rest, []), [], [], [5, 6]))
  }

  /** In the cycle of its request a publisher answers and connects, and then publishes both tracks. */
  lemma Connects(rest: seq<EngineOutput>)
    ensures var env := OneRequest(Engine([Tasks.Connected] + rest, 9));
            var l := Drain(0, Connected(rest), 0).1;
            BeforeRemoval(EMPTY, env).Some? &&
            BeforeRemoval(EMPTY, env).value.tables == Tables(1, l.chans, map[0 := l.box], map[], map["u" := 0], l.ended)
  {
    var env := OneRequest(Engine([Tasks.Connected] + rest, 9));
    OnlyRequest(env.reqs[0].engine);
    Answers(rest);
    Publishes(rest);
    var s1 := HttpOne(EMPTY, env.reqs[0]).tables;
    assert TickAll(s1, 0, map[]).tasks == s1.tasks;
    assert [0][..0] == [] && PopAll(s1, [0][..0], 0) == Phase([], s1);
    assert PopAll(s1, [0], 0).tables == DrainTable(s1, 0, 0).tables;
    var box := DrainTable(s1, 0, 0).tables.tasks[0];
    assert DrainTable(s1, 0, 0).tables.tasks == map[0 := box];
  }

  lemma Answers(rest: seq<EngineOutput>)
    ensures var s := HttpOne(EMPTY, OneRequest(Engine([Tasks.Connected] + rest, 9)).reqs[0]).tables;
            s == Tables(1, map[], map[0 := Container(Connecting(rest, [PublishTrack(5), PublishTrack(6)]), [], [], [])], map[], map["u" := 0], [])
  {
    var t := Publisher([Tasks.Connected] + rest);
    var l0 := Local(map[], [], Container(t, [], [], []));
    var l1 := l0.(box := l0.box.(task := t.(outputs := [])));
    var l2 := l0.(box := l0.box.(task := Connecting(rest, [PublishTrack(5), PublishTrack(6)])));
    TakesQueued(l0, HttpReply(0, 200), []);
    TakesPolled(l1, Tasks.Connected, rest);
    assert [] + l2.box.task.outputs == l2.box.task.outputs;
    DrainEquation(0, l0, 0);
    DrainEquation(0, l1, 0);
  }

  lemma Publishes(rest: seq<EngineOutput>)
    ensures var l0 := Local(map[], [], Container(Connecting(rest, [PublishTrack(5), PublishTrack(6)]), [], [], []));
            Drain(0, l0, 0).1 == Drain(0, Connected(rest), 0).1
  {
    var l0 := Local(map[], [], Container(Connecting(rest, [PublishTrack(5), PublishTrack(6)]), [], [], []));
    var l1 := Local(map[5 := Channel([0], [])], [], Container(Connecting(rest, [PublishTrack(6)]), [], [], [5]));
    var l2 := Connected(rest);
    var nobody: seq<TaskId> := [];
    assert nobody + [0] == [0] && l0.box.pubs + [5] == [5] && l1.box.pubs + [6] == [5, 6];
    assert Publish(l0.chans, 5, 0) == l1.chans && Publish(l1.chans, 6, 0) == l2.chans;
    TakesQueued(l0, PublishTrack(5), [PublishTrack(6)]);
    TakesQueued(l1, PublishTrack(6), []);
    DrainEquation(0, l0, 0);
    DrainEquation(0, l1, 0);
  }

  lemma Leaves()
    ensures var l := Drain(0, Connected([IceChange(Disconnected)]), 0).1;
            l.ended == [0] && l.chans == Connected([]).chans
  {
    var l0 := Connected([IceChange(Disconnected)]);
    var l1 := Connected([]).(ended := [0]);
    TakesPolled(l0, IceChange(Disconnected), []);
    assert l0.ended + [0] == [0];
    assert TakeAction(0, l0, 0) == (Some(TaskEnded), l1);
    DrainEquation(0, l0, 0);
    DrainEquation(0, l1, 0);
  }

  lemma StalePhases()
    ensures var cycle := Phases(EMPTY, OneRequest(Engine([Tasks.Connected, IceChange(Disconnected)], 9)));
            cycle.Some? && cycle.value.tables.tasks == map[]
            && Sources(cycle.value.tables.chans, 5) == [0] && Sources(cycle.value.tables.chans, 6) == [0]
  {
    var gone := IceChange(Disconnected);
    var env := OneRequest(Engine([Tasks.Connected, gone], 9));
    assert [Tasks.Connected] + [gone] == [Tasks.Connected, gone];
    Connects([gone]);
    Leaves();
    OnlyRequest(env.reqs[0].engine);
    EmptyInv();
    var roles := BeforeRemovalKeeps(EMPTY, map[], env);
    var p := BeforeRemoval(EMPTY, env).value;
    LeavesSources(p.tables, roles);
    CycleIs(EMPTY, env, p, PopEnded(p.tables).value);
  }

  /** A publisher that connects and is gone at once is still a source of both its tracks after the cycle that removed it. */
  lemma StaleSourceExample()
    ensures var cycle := RunCycle(EMPTY, OneRequest(Engine([Tasks.Connected, IceChange(Disconnected)], 9)));
            cycle.Some? && cycle.value.tables.tasks == map[]
            && Sources(cycle.value.tables.chans, 5) == [0] && Sources(cycle.value.tables.chans, 6) == [0]
  {
    StalePhases();
    SmallRequest(Engine([Tasks.Connected, IceChange(Disconnected)], 9));
  }

  lemma LeavesSources(s: Tables, roles: map<TaskId, Role>)
    requires Inv(s, roles) && s.ended == [0] && s.tasks.Keys == {0} && s.chans == Connected([]).chans
    ensures PopEnded(s).Some? && PopEnded(s).value.tasks == map[]
    ensures Sources(PopEnded(s).value.chans, 5) == [0] && Sources(PopEnded(s).value.chans, 6) == [0]
  {
    CompleteRemoval(s, roles);
    assert PopEnded(s).value.tasks.Keys == {};
  }

  // ----- a keyframe request that misses its stream -----

  /** A publisher that connected and announced its video. */
  function Announced(): Tables {
    Tables(1, Connected([]).chans, map[0 := Connected([]).box.(task := Connecting([], []).(videoMid := Some("1")))], map[], map["u" := 0], [])
  }

  lemma Announces()
    ensures var cycle := RunCycle(EMPTY, OneRequest(Engine([Tasks.Connected, MediaAdded(Video, "1")], 9)));
            cycle.Some? && cycle.value.tables == Announced()
  {
    var media := MediaAdded(Video, "1");
    assert [Tasks.Connected] + [media] == [Tasks.Connected, media];
    Connects([media]);
    var l0 := Connected([media]);
    TakesPolled(l0, media, []);
    DrainEquation(0, l0, 0);
    var env := OneRequest(Engine([Tasks.Connected, media], 9));
    var p := BeforeRemoval(EMPTY, env).value;
    assert p.tables == Announced() && PopEnded(p.tables) == Some(p.tables);
    CycleIs(EMPTY, env, p, p.tables);
    SmallRequest(env.reqs[0].engine);
  }

  lemma AnnouncedInv() returns (roles: map<TaskId, Role>)
    ensures Inv(Announced(), roles)
  {
    Announces();
    var env := OneRequest(Engine([Tasks.Connected, MediaAdded(Video, "1")], 9));
    EmptyInv();
    OnlyRequest(env.reqs[0].engine);
    roles := CycleKeeps(EMPTY, map[], env);
  }

  /** If its engine has no receive stream after all, the next cycle crashes on the first keyframe request. */
  lemma MissedStreamFails(env: Env)
    requires env.evs == [KeyframeEvent(6, Pli)] && env.rss == [[Reaction(Engine([], 9), false, true)]]
    ensures var first := RunCycle(EMPTY, OneRequest(Engine([Tasks.Connected, MediaAdded(Video, "1")], 9)));
            first.Some? && RunCycle(first.value.tables, env).None?
  {
    Announces();
    var roles := AnnouncedInv();
    MissesNext(env, roles);
  }

  lemma MissesNext(env: Env, roles: map<TaskId, Role>)
    requires Inv(Announced(), roles)
    requires env.evs == [KeyframeEvent(6, Pli)] && env.rss == [[Reaction(Engine([], 9), false, true)]]
    ensures RunCycle(Announced(), env).None?
  {
    var s := Announced();
    assert Receivers(s, env.evs[0])[0] == 0 && !Streams(s, env.evs[0], Reactions(env.rss, 0));
    BusAllKeeps(s, roles, env.evs, env.rss);
  }

  // ----- a send that is too long -----

  lemma SendsFirst(o: EngineOutput)
    requires o.Transmit?
    ensures [HttpReply(0, 200), UdpSocketSend(o.source, o.destination, o.contents)] <= HttpOne(EMPTY, OneRequest(Engine([o], 9)).reqs[0]).outs
  {
    var l := Local(map[], [], Container(Publisher([o]), [], [], []));
    TakesQueued(l, HttpReply(0, 200), []);
    DrainEquation(0, l, 0);
    var l1 := TakeAction(0, l, 0).1;
    assert [o] + [] == [o];
    TakesPolled(l1, o, []);
    DrainEquation(0, l1, 0);
    var rest := Drain(0, TakeAction(0, l1, 0).1, 0).0;
    assert Drain(0, l, 0).0 == [HttpReply(0, 200)] + ([UdpSocketSend(o.source, o.destination, o.contents)] + rest);
  }

  /** An engine that transmits 1501 bytes brings the worker down if a slot is free. */
  lemma OverlongSendFails(from: SocketAddr, to: SocketAddr)
    ensures RunCycle(EMPTY, OneRequest(Engine([Transmit(from, to, seq(1501, _ => 0))], 9))).None?
  {
    var o := Transmit(from, to, seq(1501, _ => 0));
    var env := OneRequest(Engine([o], 9));
    if Phases(EMPTY, env).Some? {
      OnlyRequest(env.reqs[0].engine);
      SendsFirst(o);
      FirstCall(Phases(EMPTY, env).value.outs, UdpSocketSend(from, to, o.contents));
    }
  }

  lemma FirstCall(outs: seq<TaskOutput>, out: TaskOutput)
    requires out.UdpSocketSend? && [HttpReply(0, 200), out] <= outs
    ensures |Collect(ToCall, outs)| > 0 && Some(Collect(ToCall, outs)[0]) == ToCall(out)
  {
    var a := [HttpReply(0, 200), out];
    assert outs == a + outs[2..];
    CollectConcat(ToCall, a, outs[2..]);
    CollectAppend(ToCall, [HttpReply(0, 200)], out);
    CollectAppend(ToCall, [], HttpReply(0, 200));
    assert [] + [HttpReply(0, 200)] == [HttpReply(0, 200)] && [HttpReply(0, 200)] + [out] == a;
  }
}
