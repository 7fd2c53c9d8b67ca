/**
 * A worker's cycle is a run of single steps of the cluster, so what holds of every interleaving of
 * steps holds of workers that run cycles.
 */
module CycleRuns {
  import opened Seqs
  import opened Net
  import opened Tasks
  import opened Routing
  import opened RoutingSafety
  import opened Cluster
  import opened Cycle
  import ClusterSafety

  /** Worker `w` takes these steps, one after the other. */
  function Go(s: System, w: nat, steps: seq<NodeStep>): Option<System> {
    if steps == [] then Some(s)
    else match Go(s, w, steps[..|steps| - 1])
      case None => None
      case Some(t) => Next(t, Act(w, steps[|steps| - 1]))
  }

  function Acts(w: nat, steps: seq<NodeStep>): seq<Move> {
    seq(|steps|, i requires 0 <= i < |steps| => Act(w, steps[i]))
  }

  lemma {:induction false} GoConcat(s: System, w: nat, a: seq<NodeStep>, b: seq<NodeStep>)
    ensures Go(s, w, a + b) == match Go(s, w, a) case None => None case Some(t) => Go(t, w, b)
    decreases |b|
  {
    if b == [] {
      assert a + b == a;
    } else {
      assert (a + b)[..|a + b| - 1] == a + b[..|b| - 1];
      GoConcat(s, w, a, b[..|b| - 1]);
    }
  }

  lemma ActsLast(moves: seq<Move>, w: nat, steps: seq<NodeStep>)
    requires steps != []
    ensures moves + Acts(w, steps) == moves + Acts(w, steps[..|steps| - 1]) + [Act(w, steps[|steps| - 1])]
  {}

  lemma {:induction false} GoIsRun(moves: seq<Move>, w: nat, steps: seq<NodeStep>)
    requires Run(moves).Some?
    ensures Run(moves + Acts(w, steps)) == Go(Run(moves).value, w, steps)
  {
    if steps == [] {
      assert moves + Acts(w, steps) == moves;
    } else {
      var init, last := steps[..|steps| - 1], Act(w, steps[|steps| - 1]);
      GoIsRun(moves, w, init);
      ClusterSafety.RunOne(moves + Acts(w, init), last);
      ActsLast(moves, w, steps);
    }
  }

  /** The steps lead from `s` to `t`, and worker `w` performs exactly the actions `outs` on the way. */
  ghost predicate Leads(s: System, t: System, w: nat, steps: seq<NodeStep>, outs: seq<TaskOutput>) {
    && w < |s.nodes| && w < |t.nodes| && Go(s, w, steps) == Some(t)
    && Events(t.log) == Events(s.log) + Collect(ToBus, outs)
  }

  lemma LeadsOn(s: System, t: System, u: System, w: nat, a: seq<NodeStep>, b: seq<NodeStep>, outs: seq<TaskOutput>, more: seq<TaskOutput>)
    requires Leads(s, t, w, a, outs) && Leads(t, u, w, b, more)
    ensures Leads(s, u, w, a + b, outs + more)
  {
    GoConcat(s, w, a, b);
    LogsOn(Events(s.log), Events(t.log), Events(u.log), outs, more);
  }

  lemma LogsOn(a: seq<BusEvent>, b: seq<BusEvent>, c: seq<BusEvent>, outs: seq<TaskOutput>, more: seq<TaskOutput>)
    requires b == a + Collect(ToBus, outs) && c == b + Collect(ToBus, more)
    ensures c == a + Collect(ToBus, outs + more)
  {
    CollectConcat(ToBus, outs, more);
  }

  lemma LeadsNowhere(s: System, w: nat)
    requires w < |s.nodes|
    ensures Leads(s, s, w, [], [])
  {}

  /** One step that does not crash. */
  lemma LeadsOne(s: System, w: nat, step: NodeStep, m: Node, entries: seq<Entry>, outs: seq<TaskOutput>)
    requires w < |s.nodes| && Enabled(s.nodes[w], s.log, step) && NodeNext(s.nodes[w], w, s.log, step) == Fine(m, entries)
    requires Events(entries) == Collect(ToBus, outs)
    ensures Leads(s, System(s.log + entries, s.nodes[w := m]), w, [step], outs)
  {
    assert [step][..0] == [];
    assert Go(s, w, []) == Some(s);
    assert Events(s.log + entries) == Events(s.log) + Events(entries);
  }

  // ----- the phases -----

  lemma TakeEnds(s: Tables, id: TaskId, now: Time)
    requires id in s.tasks
    ensures var (out, t) := Take(s, id, now); t.ended == s.ended + if out == Some(TaskEnded) then [id] else []
  {}

  lemma {:induction false} DrainEnds(s: Tables, id: TaskId, now: Time)
    requires id in s.tasks
    ensures s.ended <= DrainTable(s, id, now).tables.ended
    decreases Work(s.tasks[id].task)
  {
    DrainUnfold(s, id, now);
    TakeEnds(s, id, now);
    if Take(s, id, now).0.Some? { DrainEnds(Take(s, id, now).1, id, now); }
  }

  lemma DistinctPrefix(a: seq<TaskId>, id: TaskId, b: seq<TaskId>)
    requires Distinct(b) && a + [id] <= b
    ensures id !in a
  {
    assert b[|a|] == id;
    assert forall i :: 0 <= i < |a| ==> b[i] == a[i];
  }

  /** A turn that does not crash: a send that is too long for a slot finds none free. */
  function TakeOnce(s: Tables, id: TaskId, now: Time): NodeStep
    requires id in s.tasks
  {
    TakeStep(id, now, !Overruns(Take(s, id, now).0, true))
  }

  /** One turn of `pop_task` is one step. */
  lemma TakeRuns(s: System, w: nat, id: TaskId, now: Time) returns (t: System)
    requires w < |s.nodes| && id in s.nodes[w].tables.tasks
    requires Take(s.nodes[w].tables, id, now).0 == Some(TaskEnded) ==> id !in s.nodes[w].tables.ended
    ensures Leads(s, t, w, [TakeOnce(s.nodes[w].tables, id, now)], OptionToSeq(Take(s.nodes[w].tables, id, now).0))
    ensures t.nodes[w].tables == Take(s.nodes[w].tables, id, now).1 && t.nodes[w].cursor == s.nodes[w].cursor
  {
    var n := s.nodes[w];
    var out, m, entries := Take(n.tables, id, now).0, TakeNode(n, id, now), Broadcast(w, id, Take(n.tables, id, now).0);
    t := System(s.log + entries, s.nodes[w := m]);
    TakeNext(n, w, s.log, id, now);
    BroadcastEvents(w, id, out);
    LeadsOne(s, w, TakeOnce(n.tables, id, now), m, entries, OptionToSeq(out));
  }

  function TakeNode(n: Node, id: TaskId, now: Time): Node
    requires id in n.tables.tasks
  {
    n.(tables := Take(n.tables, id, now).1, hist := n.hist + TakeEvents(id, n.tables.tasks[id].task, now))
  }

  lemma TakeNext(n: Node, w: nat, log: seq<Entry>, id: TaskId, now: Time)
    requires id in n.tables.tasks && Enabled(n, log, TakeOnce(n.tables, id, now))
    ensures NodeNext(n, w, log, TakeOnce(n.tables, id, now)) == Fine(TakeNode(n, id, now), Broadcast(w, id, Take(n.tables, id, now).0))
  {}

  lemma BroadcastEvents(w: nat, id: TaskId, out: Option<TaskOutput>)
    ensures Events(Broadcast(w, id, out)) == Collect(ToBus, OptionToSeq(out))
  {
    if out.Some? {
      CollectAppend(ToBus, [], out.value);
      assert [] + [out.value] == [out.value];
    }
  }

  lemma {:induction false} DrainRuns(s: System, w: nat, id: TaskId, now: Time) returns (steps: seq<NodeStep>, t: System)
    requires w < |s.nodes| && id in s.nodes[w].tables.tasks
    requires Distinct(DrainTable(s.nodes[w].tables, id, now).tables.ended)
    ensures Leads(s, t, w, steps, DrainTable(s.nodes[w].tables, id, now).outs)
    ensures t.nodes[w].tables == DrainTable(s.nodes[w].tables, id, now).tables && t.nodes[w].cursor == s.nodes[w].cursor
    decreases Work(s.nodes[w].tables.tasks[id].task)
  {
    var tables := s.nodes[w].tables;
    var (out, next) := Take(tables, id, now);
    DrainUnfold(tables, id, now);
    TakeEnds(tables, id, now);
    if out.Some? { DrainEnds(next, id, now); }
    if out == Some(TaskEnded) {
      DistinctPrefix(tables.ended, id, DrainTable(tables, id, now).tables.ended);
    }
    t := TakeRuns(s, w, id, now);
    steps := [TakeOnce(tables, id, now)];
    if out.Some? {
      var rest, u := DrainRuns(t, w, id, now);
      LeadsOn(s, t, u, w, steps, rest, [out.value], DrainTable(next, id, now).outs);
      steps, t := steps + rest, u;
    }
  }

  lemma {:induction false} BusRuns(s: System, w: nat, evs: seq<BusEvent>, rss: seq<seq<Reaction>>) returns (steps: seq<NodeStep>, t: System)
    requires w < |s.nodes| && s.nodes[w].cursor + |evs| <= |s.log|
    requires evs == Events(s.log)[s.nodes[w].cursor..s.nodes[w].cursor + |evs|]
    requires BusAll(s.nodes[w].tables, evs, rss).Some?
    ensures Leads(s, t, w, steps, []) && t.log == s.log
    ensures t.nodes[w].tables == BusAll(s.nodes[w].tables, evs, rss).value && t.nodes[w].cursor == s.nodes[w].cursor + |evs|
    decreases |evs|
  {
    if evs == [] {
      LeadsNowhere(s, w);
      steps, t := [], s;
    } else {
      var u;
      Unread(s.log, s.nodes[w].cursor, evs);
      BusLast(s.nodes[w].tables, evs, rss);
      steps, u := BusRuns(s, w, evs[..|evs| - 1], rss);
      steps, t := BusRunsOn(s, u, w, steps, evs[|evs| - 1], Reactions(rss, |evs| - 1));
    }
  }

  /** One more event read. */
  lemma BusRunsOn(s: System, u: System, w: nat, steps: seq<NodeStep>, ev: BusEvent, rs: seq<Reaction>) returns (more: seq<NodeStep>, t: System)
    requires Leads(s, u, w, steps, []) && u.nodes[w].cursor < |u.log| && u.log[u.nodes[w].cursor].ev == ev
    requires BusRead(u.nodes[w].tables, ev, rs).Delivered?
    ensures Leads(s, t, w, more, []) && t.log == u.log
    ensures t.nodes[w].tables == u.nodes[w].tables.(tasks := BusRead(u.nodes[w].tables, ev, rs).tasks) && t.nodes[w].cursor == u.nodes[w].cursor + 1
  {
    t := ReadRuns(u, w, ev, rs);
    LeadsOn(s, u, t, w, steps, [ReadStep(rs)], [], []);
    more := steps + [ReadStep(rs)];
  }

  lemma BusLast(s: Tables, evs: seq<BusEvent>, rss: seq<seq<Reaction>>)
    requires evs != [] && BusAll(s, evs, rss).Some?
    ensures BusAll(s, evs[..|evs| - 1], rss).Some?
    ensures var t := BusAll(s, evs[..|evs| - 1], rss).value; var read := BusRead(t, evs[|evs| - 1], Reactions(rss, |evs| - 1));
            read.Delivered? && BusAll(s, evs, rss).value == t.(tasks := read.tasks)
  {}

  lemma Unread(log: seq<Entry>, cursor: nat, evs: seq<BusEvent>)
    requires evs != [] && cursor + |evs| <= |log| && evs == Events(log)[cursor..cursor + |evs|]
    ensures evs[..|evs| - 1] == Events(log)[cursor..cursor + |evs| - 1] && log[cursor + |evs| - 1].ev == evs[|evs| - 1]
  {
    assert evs[|evs| - 1] == Events(log)[cursor + |evs| - 1];
  }

  lemma ReadRuns(s: System, w: nat, ev: BusEvent, rs: seq<Reaction>) returns (t: System)
    requires w < |s.nodes| && s.nodes[w].cursor < |s.log| && s.log[s.nodes[w].cursor].ev == ev
    requires BusRead(s.nodes[w].tables, ev, rs).Delivered?
    ensures Leads(s, t, w, [ReadStep(rs)], []) && t.log == s.log
    ensures t.nodes[w].tables == s.nodes[w].tables.(tasks := BusRead(s.nodes[w].tables, ev, rs).tasks)
    ensures t.nodes[w].cursor == s.nodes[w].cursor + 1
  {
    var o := NodeNext(s.nodes[w], w, s.log, ReadStep(rs));
    LeadsOne(s, w, ReadStep(rs), o.node, [], []);
    t := System(s.log + [], s.nodes[w := o.node]);
  }

  lemma NewRuns(s: System, w: nat, role: Role, req: Request) returns (step: NodeStep, t: System)
    requires w < |s.nodes| && req.ufrag !in s.nodes[w].tables.ufrags
    ensures Leads(s, t, w, [step], [])
    ensures t.nodes[w].tables == Create(s.nodes[w].tables, TaskFor(role, req)) && t.nodes[w].cursor == s.nodes[w].cursor
  {
    step := NewStep(role, req.reqId, true, req.ufrag, req.engine, req.audio, req.video);
    var o := NodeNext(s.nodes[w], w, s.log, step);
    LeadsOne(s, w, step, o.node, [], []);
    t := System(s.log + [], s.nodes[w := o.node]);
  }

  lemma HttpOneRuns(s: System, w: nat, req: Request) returns (steps: seq<NodeStep>, t: System)
    requires w < |s.nodes| && (RoleFor(req.path).Some? ==> req.ufrag !in s.nodes[w].tables.ufrags)
    requires Distinct(HttpOne(s.nodes[w].tables, req).tables.ended)
    ensures Leads(s, t, w, steps, HttpOne(s.nodes[w].tables, req).outs)
    ensures t.nodes[w].tables == HttpOne(s.nodes[w].tables, req).tables && t.nodes[w].cursor == s.nodes[w].cursor
  {
    var tables := s.nodes[w].tables;
    match RoleFor(req.path)
    case None =>
      steps, t := [], s;
      var reply := HttpReply(req.reqId, 404);
      CollectAppend(ToBus, [], reply);
      assert [] + [reply] == [reply];
    case Some(role) =>
      AdmitIsCreate(tables, TaskFor(role, req), req.at);
      var step, u := NewRuns(s, w, role, req);
      steps, t := DrainRuns(u, w, tables.seed, req.at);
      var outs := HttpOne(tables, req).outs;
      LeadsOn(s, u, t, w, [step], steps, [], outs);
      assert [] + outs == outs;
      steps := [step] + steps;
  }

  lemma HttpOneEnds(s: Tables, req: Request)
    ensures s.ended <= HttpOne(s, req).tables.ended
  {
    if RoleFor(req.path).Some? {
      var task := TaskFor(RoleFor(req.path).value, req);
      AdmitIsCreate(s, task, req.at);
      DrainEnds(Create(s, task), s.seed, req.at);
    }
  }

  lemma DistinctShorter(a: seq<TaskId>, b: seq<TaskId>)
    requires Distinct(b) && a <= b
    ensures Distinct(a)
  {
    forall i, j | 0 <= i < j < |a| ensures a[i] != a[j] {
      assert b[i] == a[i] && b[j] == a[j];
    }
  }

  lemma {:induction false} HttpRuns(s: System, w: nat, reqs: seq<Request>) returns (steps: seq<NodeStep>, t: System)
    requires w < |s.nodes| && NewUfrags(s.nodes[w].tables, reqs)
    requires Distinct(HttpAll(s.nodes[w].tables, reqs).tables.ended)
    ensures Leads(s, t, w, steps, HttpAll(s.nodes[w].tables, reqs).outs)
    ensures t.nodes[w].tables == HttpAll(s.nodes[w].tables, reqs).tables && t.nodes[w].cursor == s.nodes[w].cursor
    decreases |reqs|
  {
    if reqs == [] {
      LeadsNowhere(s, w);
      steps, t := [], s;
    } else {
      var init, last := reqs[..|reqs| - 1], reqs[|reqs| - 1];
      forall i | 0 <= i < |init| ensures init[..i] == reqs[..i] {}
      var p := HttpAll(s.nodes[w].tables, init);
      HttpOneEnds(p.tables, last);
      DistinctShorter(p.tables.ended, HttpOne(p.tables, last).tables.ended);
      var u, more;
      steps, u := HttpRuns(s, w, init);
      more, t := HttpOneRuns(u, w, last);
      LeadsOn(s, u, t, w, steps, more, p.outs, HttpOne(p.tables, last).outs);
      steps := steps + more;
    }
  }

  /** The tasks of `ids` ticked, the others not yet. */
  function TickSome(s: Tables, ids: set<TaskId>, now: Time, rs: map<TaskId, Reaction>): Tables {
    s.(tasks := map id | id in s.tasks :: if id in ids then s.tasks[id].(task := Tick(s.tasks[id].task, now, ReactionOf(rs, id))) else s.tasks[id])
  }

  lemma TickOneMore(s: Tables, ids: set<TaskId>, id: TaskId, now: Time, rs: map<TaskId, Reaction>)
    requires id in ids && ids <= s.tasks.Keys
    ensures TickTask(TickSome(s, ids - {id}, now, rs), id, now, ReactionOf(rs, id)) == TickSome(s, ids, now, rs)
  {
    var a, b := TickSome(s, ids - {id}, now, rs).tasks, TickSome(s, ids, now, rs).tasks;
    assert b[id] == s.tasks[id].(task := Tick(s.tasks[id].task, now, ReactionOf(rs, id))) && a[id] == s.tasks[id];
    assert forall i :: i in s.tasks && i != id ==> a[i] == b[i];
    assert a[id := b[id]] == b;
  }

  lemma {:induction false} TickRuns(s: System, w: nat, ids: set<TaskId>, now: Time, rs: map<TaskId, Reaction>) returns (steps: seq<NodeStep>, t: System)
    requires w < |s.nodes| && ids <= s.nodes[w].tables.tasks.Keys
    ensures Leads(s, t, w, steps, [])
    ensures t.nodes[w].tables == TickSome(s.nodes[w].tables, ids, now, rs) && t.nodes[w].cursor == s.nodes[w].cursor
    decreases ids
  {
    var tables := s.nodes[w].tables;
    if ids == {} {
      LeadsNowhere(s, w);
      assert TickSome(tables, ids, now, rs).tasks == tables.tasks;
      steps, t := [], s;
    } else {
      var id :| id in ids;
      var u;
      steps, u := TickRuns(s, w, ids - {id}, now, rs);
      var step := TickStep(id, now, ReactionOf(rs, id));
      var o := NodeNext(u.nodes[w], w, u.log, step);
      LeadsOne(u, w, step, o.node, [], []);
      t := System(u.log + [], u.nodes[w := o.node]);
      LeadsOn(s, u, t, w, steps, [step], [], []);
      steps := steps + [step];
      TickOneMore(tables, ids, id, now, rs);
    }
  }

  lemma {:induction false} PopAllRuns(s: System, w: nat, order: seq<TaskId>, now: Time) returns (steps: seq<NodeStep>, t: System)
    requires w < |s.nodes| && Distinct(PopAll(s.nodes[w].tables, order, now).tables.ended)
    ensures Leads(s, t, w, steps, PopAll(s.nodes[w].tables, order, now).outs)
    ensures t.nodes[w].tables == PopAll(s.nodes[w].tables, order, now).tables && t.nodes[w].cursor == s.nodes[w].cursor
    decreases |order|
  {
    if order == [] {
      LeadsNowhere(s, w);
      steps, t := [], s;
    } else {
      var init, id := order[..|order| - 1], order[|order| - 1];
      var p := PopAll(s.nodes[w].tables, init, now);
      if id in p.tables.tasks {
        DrainEnds(p.tables, id, now);
        DistinctShorter(p.tables.ended, DrainTable(p.tables, id, now).tables.ended);
      }
      steps, t := PopAllRuns(s, w, init, now);
      if id in p.tables.tasks {
        var more, u := DrainRuns(t, w, id, now);
        LeadsOn(s, t, u, w, steps, more, p.outs, DrainTable(p.tables, id, now).outs);
        steps, t := steps + more, u;
      }
    }
  }

  /** `PopEnded` empties the list before it removes; a step removes the first of the list. */
  lemma {:induction false} RemovalRuns(s: System, w: nat, n: nat) returns (steps: seq<NodeStep>, t: System)
    requires w < |s.nodes| && n <= |s.nodes[w].tables.ended|
    requires RemoveAll(s.nodes[w].tables.(ended := []), s.nodes[w].tables.ended[..n]).Some?
    ensures Leads(s, t, w, steps, []) && t.nodes[w].cursor == s.nodes[w].cursor
    ensures var tables := s.nodes[w].tables;
            t.nodes[w].tables == RemoveAll(tables.(ended := []), tables.ended[..n]).value.(ended := tables.ended[n..])
  {
    var tables := s.nodes[w].tables;
    if n == 0 {
      LeadsNowhere(s, w);
      steps, t := [], s;
    } else {
      assert tables.ended[..n][..n - 1] == tables.ended[..n - 1];
      var u;
      steps, u := RemovalRuns(s, w, n - 1);
      var o := NodeNext(u.nodes[w], w, u.log, RemoveStep);
      assert u.nodes[w].tables.ended == tables.ended[n - 1..] && tables.ended[n - 1..][1..] == tables.ended[n..];
      LeadsOne(u, w, RemoveStep, o.node, [], []);
      t := System(u.log + [], u.nodes[w := o.node]);
      LeadsOn(s, u, t, w, steps, [RemoveStep], [], []);
      steps := steps + [RemoveStep];
    }
  }

  lemma UdpOneEnds(s: Tables, d: Datagram, local: SocketAddr)
    requires UdpOne(s, d, local).Some?
    ensures s.ended <= UdpOne(s, d, local).value.tables.ended
  {
    var Routed(to, t) := UdpRead(s, d, local);
    if to.Some? && to.value in t.tasks { DrainEnds(t, to.value, d.at); }
  }

  lemma UdpOneRuns(s: System, w: nat, d: Datagram, local: SocketAddr) returns (steps: seq<NodeStep>, t: System)
    requires w < |s.nodes| && UdpOne(s.nodes[w].tables, d, local).Some?
    requires Distinct(UdpOne(s.nodes[w].tables, d, local).value.tables.ended)
    ensures Leads(s, t, w, steps, UdpOne(s.nodes[w].tables, d, local).value.outs)
    ensures t.nodes[w].tables == UdpOne(s.nodes[w].tables, d, local).value.tables && t.nodes[w].cursor == s.nodes[w].cursor
  {
    var step := UdpStep(d, local);
    var o := NodeNext(s.nodes[w], w, s.log, step);
    LeadsOne(s, w, step, o.node, [], []);
    t := System(s.log + [], s.nodes[w := o.node]);
    steps := [step];
    var Routed(to, tables) := UdpRead(s.nodes[w].tables, d, local);
    if to.Some? && to.value in tables.tasks {
      var outs := DrainTable(tables, to.value, d.at).outs;
      var more, u := DrainRuns(t, w, to.value, d.at);
      LeadsOn(s, t, u, w, steps, more, [], outs);
      assert [] + outs == outs;
      steps, t := steps + more, u;
    }
  }

  lemma {:induction false} UdpRuns(s: System, w: nat, ds: seq<Datagram>, local: SocketAddr) returns (steps: seq<NodeStep>, t: System)
    requires w < |s.nodes| && UdpAll(s.nodes[w].tables, ds, local).Some?
    requires Distinct(UdpAll(s.nodes[w].tables, ds, local).value.tables.ended)
    ensures Leads(s, t, w, steps, UdpAll(s.nodes[w].tables, ds, local).value.outs)
    ensures t.nodes[w].tables == UdpAll(s.nodes[w].tables, ds, local).value.tables && t.nodes[w].cursor == s.nodes[w].cursor
    decreases |ds|
  {
    if ds == [] {
      LeadsNowhere(s, w);
      steps, t := [], s;
    } else {
      var init, last := ds[..|ds| - 1], ds[|ds| - 1];
      var p := UdpAll(s.nodes[w].tables, init, local).value;
      UdpOneEnds(p.tables, last, local);
      DistinctShorter(p.tables.ended, UdpOne(p.tables, last, local).value.tables.ended);
      var u, more;
      steps, u := UdpRuns(s, w, init, local);
      more, t := UdpOneRuns(u, w, last, local);
      LeadsOn(s, u, t, w, steps, more, p.outs, UdpOne(p.tables, last, local).value.outs);
      steps := steps + more;
    }
  }

  // ----- the cycle -----

  /** Up to the removal: the events to read are those past the cursor, and no task ends twice. */
  lemma BeforeRemovalRuns(s: System, w: nat, env: Env) returns (steps: seq<NodeStep>, t: System)
    requires w < |s.nodes| && s.nodes[w].cursor <= |s.log| && env.evs == Events(s.log)[s.nodes[w].cursor..]
    requires BeforeRemoval(s.nodes[w].tables, env).Some?
    requires NewUfrags(BusAll(s.nodes[w].tables, env.evs, env.rss).value, env.reqs)
    requires Distinct(BeforeRemoval(s.nodes[w].tables, env).value.tables.ended)
    ensures Leads(s, t, w, steps, BeforeRemoval(s.nodes[w].tables, env).value.outs)
    ensures t.nodes[w].tables == BeforeRemoval(s.nodes[w].tables, env).value.tables && t.nodes[w].cursor == |s.log|
  {
    var s1 := BusAll(s.nodes[w].tables, env.evs, env.rss).value;
    var p2 := HttpAll(s1, env.reqs);
    var s3 := TickAll(p2.tables, env.tickAt, env.ticks);
    var p4 := PopAll(s3, env.order, env.popAt);
    PopAllEnds(s3, env.order, env.popAt);
    DistinctShorter(p2.tables.ended, p4.tables.ended);
    var a, b, u1, u2;
    a, u1 := BusRuns(s, w, env.evs, env.rss);
    b, u2 := HttpRuns(u1, w, env.reqs);
    LeadsOn(s, u1, u2, w, a, b, [], p2.outs);
    assert [] + p2.outs == p2.outs;
    var c, u3 := TickAndPopRuns(u2, w, env);
    LeadsOn(s, u2, u3, w, a + b, c, p2.outs, p4.outs);
    steps, t := a + b + c, u3;
  }

  lemma TickAndPopRuns(s: System, w: nat, env: Env) returns (steps: seq<NodeStep>, t: System)
    requires w < |s.nodes|
    requires Distinct(PopAll(TickAll(s.nodes[w].tables, env.tickAt, env.ticks), env.order, env.popAt).tables.ended)
    ensures var p := PopAll(TickAll(s.nodes[w].tables, env.tickAt, env.ticks), env.order, env.popAt);
            Leads(s, t, w, steps, p.outs) && t.nodes[w].tables == p.tables && t.nodes[w].cursor == s.nodes[w].cursor
  {
    var tables := s.nodes[w].tables;
    var outs := PopAll(TickAll(tables, env.tickAt, env.ticks), env.order, env.popAt).outs;
    var a, b, u;
    a, u := TickRuns(s, w, tables.tasks.Keys, env.tickAt, env.ticks);
    TickSomeAll(tables, env.tickAt, env.ticks);
    b, t := PopAllRuns(u, w, env.order, env.popAt);
    LeadsOn(s, u, t, w, a, b, [], outs);
    assert [] + outs == outs;
    steps := a + b;
  }

  lemma TickSomeAll(s: Tables, now: Time, rs: map<TaskId, Reaction>)
    ensures TickSome(s, s.tasks.Keys, now, rs) == TickAll(s, now, rs)
  {
    assert TickSome(s, s.tasks.Keys, now, rs).tasks == TickAll(s, now, rs).tasks;
  }

  lemma {:induction false} PopAllEnds(s: Tables, order: seq<TaskId>, now: Time)
    ensures s.ended <= PopAll(s, order, now).tables.ended
  {
    if order == [] {
    } else {
      var p, id := PopAll(s, order[..|order| - 1], now), order[|order| - 1];
      PopAllEnds(s, order[..|order| - 1], now);
      if id in p.tables.tasks { DrainEnds(p.tables, id, now); }
    }
  }

  lemma PopEndedRuns(s: System, w: nat) returns (steps: seq<NodeStep>, t: System)
    requires w < |s.nodes| && PopEnded(s.nodes[w].tables).Some? && PopEnded(s.nodes[w].tables).value.ended == []
    ensures Leads(s, t, w, steps, []) && t.nodes[w].cursor == s.nodes[w].cursor
    ensures t.nodes[w].tables == PopEnded(s.nodes[w].tables).value
  {
    var ended := s.nodes[w].tables.ended;
    assert ended[..|ended|] == ended && ended[|ended|..] == [];
    steps, t := RemovalRuns(s, w, |ended|);
  }

  /** The hypotheses of a cycle that meets only good things, in which every ufrag is new and no task ends twice. */
  ghost predicate WellBehaved(s: Tables, env: Env) {
    && Starts(s, env)
    && (BusAll(s, env.evs, env.rss).Some? ==> NewUfrags(BusAll(s, env.evs, env.rss).value, env.reqs))
    && (BeforeRemoval(s, env).Some? ==> Distinct(BeforeRemoval(s, env).value.tables.ended))
    && (BeforeRemoval(s, env).Some? && PopEnded(BeforeRemoval(s, env).value.tables).Some? ==>
          AllReadable(PopEnded(BeforeRemoval(s, env).value.tables).value, env.ds, env.local))
    && (Phases(s, env).Some? ==> Fits(Phases(s, env).value.outs, env.made, env.free)) && env.finish
    && (RunCycle(s, env).Some? ==> Distinct(RunCycle(s, env).value.tables.ended))
  }

  /** The cycle's three parts: up to the removal, the removal, the datagrams. */
  ghost predicate Parts(s: Tables, env: Env, p: Phase, removed: Tables, q: Phase) {
    && BeforeRemoval(s, env) == Some(p) && PopEnded(p.tables) == Some(removed)
    && UdpAll(removed, env.ds, env.local) == Some(q)
  }

  lemma CycleParts(s: Tables, roles: map<TaskId, Role>, env: Env) returns (p: Phase, removed: Tables, q: Phase)
    requires Inv(s, roles) && WellBehaved(s, env)
    ensures Parts(s, env, p, removed, q) && RunCycle(s, env) == Some(Phase(p.outs + q.outs, q.tables))
    ensures BusAll(s, env.evs, env.rss).Some? && NewUfrags(BusAll(s, env.evs, env.rss).value, env.reqs)
    ensures Distinct(p.tables.ended) && Distinct(q.tables.ended) && removed.ended == []
  {
    var roles1 := CycleKeeps(s, roles, env);
    var roles2 := BeforeRemovalKeeps(s, roles, env);
    p := BeforeRemoval(s, env).value;
    CompleteRemoval(p.tables, roles2);
    removed := PopEnded(p.tables).value;
    q := UdpAll(removed, env.ds, env.local).value;
  }

  lemma CycleSteps(s: System, w: nat, env: Env, p: Phase, removed: Tables, q: Phase) returns (steps: seq<NodeStep>, t: System)
    requires w < |s.nodes| && s.nodes[w].cursor <= |s.log| && env.evs == Events(s.log)[s.nodes[w].cursor..]
    requires Parts(s.nodes[w].tables, env, p, removed, q)
    requires NewUfrags(BusAll(s.nodes[w].tables, env.evs, env.rss).value, env.reqs)
    requires Distinct(p.tables.ended) && Distinct(q.tables.ended) && removed.ended == []
    ensures Leads(s, t, w, steps, p.outs + q.outs)
    ensures t.nodes[w].tables == q.tables && t.nodes[w].cursor == |s.log|
  {
    var a, b, c, u1, u2;
    a, u1 := BeforeRemovalRuns(s, w, env);
    b, u2 := PopEndedRuns(u1, w);
    LeadsOn(s, u1, u2, w, a, b, p.outs, []);
    c, t := UdpRuns(u2, w, env.ds, env.local);
    LeadsOn(s, u2, t, w, a + b, c, p.outs + [], q.outs);
    steps := a + b + c;
    assert p.outs + [] == p.outs;
  }

  /**
   * In every reachable system a worker may run a whole cycle. If what it meets is good, its new ufrags
   * are new and no task ends twice, the cycle does not crash, it is a run of single steps that leaves the worker with
   * the tables the cycle computes, its cursor where the log ended, and on the log exactly what the
   * cycle's actions broadcast; so everything proved of runs holds after it.
   */
  lemma CycleIsRun(moves: seq<Move>, w: nat, env: Env) returns (more: seq<NodeStep>)
    requires Run(moves).Some? && w < |Run(moves).value.nodes|
    requires var s := Run(moves).value; var n := s.nodes[w];
             WellBehaved(n.tables, env) && (n.cursor <= |s.log| ==> env.evs == Events(s.log)[n.cursor..])
    ensures var s := Run(moves).value; var cycle := RunCycle(s.nodes[w].tables, env); var after := Run(moves + Acts(w, more));
            && cycle.Some? && after.Some? && w < |after.value.nodes|
            && after.value.nodes[w].tables == cycle.value.tables && after.value.nodes[w].cursor == |s.log|
            && Events(after.value.log) == Events(s.log) + Collect(ToBus, cycle.value.outs)
  {
    ClusterSafety.RunKeeps(moves);
    var s := Run(moves).value;
    var p, removed, q := CycleParts(s.nodes[w].tables, s.nodes[w].roles, env);
    var t;
    more, t := CycleSteps(s, w, env, p, removed, q);
    GoIsRun(moves, w, more);
  }
}
