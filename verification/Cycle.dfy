/** The phases of a worker's cycle as functions on its tables, and what a whole cycle keeps. */
module Cycle {
  import opened Seqs
  import opened Net
  import opened Tasks
  import opened Routing
  import opened RoutingSafety

  /**
   * A request as the worker sees it; the rest is whether a task can be built for it (its offer may
   * be bad), what building it came to, and when that was done.
   */
  datatype Request = Request(
    reqId: nat, path: string, builds: bool, ufrag: string, engine: Engine, audio: TrackId, video: TrackId, at: Time)

  const WHIP_PATH := "/whip/endpoint"
  const WHEP_PATH := "/whep/endpoint"

  function RoleFor(path: string): Option<Role> {
    if path == WHIP_PATH then Some(Whip) else if path == WHEP_PATH then Some(Whep) else None
  }

  function TaskFor(role: Role, req: Request): Task {
    NewTask(role, req.reqId, req.ufrag, req.engine, req.audio, req.video)
  }

  /** What one action answers: a request id and a status. */
  function ToReply(out: TaskOutput): Option<(nat, nat)> {
    if out.HttpReply? then Some((out.reqId, out.status)) else None
  }

  /** A call of the worker on its socket; errors it returns are logged and change nothing here. */
  datatype SocketCall = AddSendTo(packet: Packet) | CommitSendTo | FinishReadFrom

  function ToCall(out: TaskOutput): Option<SocketCall> {
    if out.UdpSocketSend? then Some(AddSendTo(Packet(out.buf, out.to))) else None
  }

  /** What the `n`-th call on a socket would meet: whether a slot is free. */
  type Slots = nat -> bool

  predicate Overlong(call: SocketCall) {
    call.AddSendTo? && |call.packet.payload| > MAX_PAYLOAD
  }

  /** None of these calls, made after `made` others, writes more into a free slot than fits. */
  ghost predicate SendsFit(calls: seq<SocketCall>, made: nat, free: Slots) {
    forall i :: 0 <= i < |calls| && Overlong(calls[i]) ==> !free(made + i)
  }

  /** The same for the calls that some actions stand for. */
  ghost predicate Fits(outs: seq<TaskOutput>, made: nat, free: Slots) {
    SendsFit(Collect(ToCall, outs), made, free)
  }

  lemma SendsFitConcat(c: seq<SocketCall>, a: seq<SocketCall>, b: seq<SocketCall>, made: nat, free: Slots)
    requires c == a + b
    ensures SendsFit(c, made, free) <==> SendsFit(a, made, free) && SendsFit(b, made + |a|, free)
  {
    if SendsFit(c, made, free) {
      forall i | 0 <= i < |a| && Overlong(a[i]) ensures !free(made + i) {
        assert c[i] == a[i];
      }
      forall i | 0 <= i < |b| && Overlong(b[i]) ensures !free(made + |a| + i) {
        assert c[|a| + i] == b[i];
      }
    }
  }

  lemma FitsConcat(a: seq<TaskOutput>, b: seq<TaskOutput>, made: nat, free: Slots)
    ensures Fits(a + b, made, free) <==> Fits(a, made, free) && Fits(b, made + |Collect(ToCall, a)|, free)
  {
    CollectConcat(ToCall, a, b);
    FitsSplit(a + b, a, b, made, free);
  }

  lemma FitsSplit(c: seq<TaskOutput>, a: seq<TaskOutput>, b: seq<TaskOutput>, made: nat, free: Slots)
    requires Collect(ToCall, c) == Collect(ToCall, a) + Collect(ToCall, b)
    ensures Fits(c, made, free) <==> Fits(a, made, free) && Fits(b, made + |Collect(ToCall, a)|, free)
  {
    SendsFitConcat(Collect(ToCall, c), Collect(ToCall, a), Collect(ToCall, b), made, free);
  }

  /** A phase: the actions performed, in order, and the tables after it. */
  datatype Phase = Phase(outs: seq<TaskOutput>, tables: Tables)

  function DrainTable(s: Tables, id: TaskId, now: Time): Phase
    requires id in s.tasks
  {
    var (outs, l) := Drain(id, LocalOf(s, id), now);
    Phase(outs, WithLocal(s, id, l))
  }

  /** The container of a new task enters the table after its first drain. */
  function Admit(s: Tables, task: Task, now: Time): Phase {
    var (outs, l) := Drain(s.seed, Local(s.chans, s.ended, Container(task, [], [], [])), now);
    Phase(outs, Tables(s.seed + 1, l.chans, s.tasks[s.seed := l.box], s.remotes, s.ufrags[task.ufrag := s.seed], l.ended))
  }

  /** Building the task panics on a bad offer. */
  predicate Builds(req: Request) {
    RoleFor(req.path).Some? ==> req.builds
  }

  predicate AllBuild(reqs: seq<Request>) {
    forall i :: 0 <= i < |reqs| ==> Builds(reqs[i])
  }

  /** What a request comes to if its task can be built. */
  function HttpOne(s: Tables, req: Request): Phase {
    match RoleFor(req.path)
    case Some(role) => Admit(s, TaskFor(role, req), req.at)
    case None => Phase([HttpReply(req.reqId, 404)], s)
  }

  function HttpAll(s: Tables, reqs: seq<Request>): Phase {
    if reqs == [] then Phase([], s)
    else
      var p := HttpAll(s, reqs[..|reqs| - 1]);
      var q := HttpOne(p.tables, reqs[|reqs| - 1]);
      Phase(p.outs + q.outs, q.tables)
  }

  function Reactions(rss: seq<seq<Reaction>>, i: nat): seq<Reaction> {
    if i < |rss| then rss[i] else []
  }

  /** The bus phase; `None` is a panic in a task. */
  function BusAll(s: Tables, evs: seq<BusEvent>, rss: seq<seq<Reaction>>): Option<Tables> {
    if evs == [] then Some(s)
    else match BusAll(s, evs[..|evs| - 1], rss)
      case None => None
      case Some(t) =>
        match BusRead(t, evs[|evs| - 1], Reactions(rss, |evs| - 1))
        case Panicked => None
        case Delivered(m, _) => Some(t.(tasks := m))
  }

  function ReactionOf(rs: map<TaskId, Reaction>, id: TaskId): Reaction {
    if id in rs then rs[id] else Reaction(Engine([], 0), false, false)
  }

  function TickAll(s: Tables, now: Time, rs: map<TaskId, Reaction>): Tables {
    s.(tasks := map id | id in s.tasks :: s.tasks[id].(task := Tick(s.tasks[id].task, now, ReactionOf(rs, id))))
  }

  /** The tasks of `order` drained one after the other. */
  function PopAll(s: Tables, order: seq<TaskId>, now: Time): Phase {
    if order == [] then Phase([], s)
    else
      var p := PopAll(s, order[..|order| - 1], now);
      var id := order[|order| - 1];
      if id !in p.tables.tasks then p
      else
        var q := DrainTable(p.tables, id, now);
        Phase(p.outs + q.outs, q.tables)
  }

  /** One datagram: bound, handed over, and its task drained at once. `None` is a panic in a task. */
  function UdpOne(s: Tables, d: Datagram, local: SocketAddr): Option<Phase> {
    match UdpRead(s, d, local)
    case UdpPanic => None
    case Routed(None, t) => Some(Phase([], t))
    case Routed(Some(id), t) => if id in t.tasks then Some(DrainTable(t, id, d.at)) else Some(Phase([], t))
  }

  function UdpAll(s: Tables, ds: seq<Datagram>, local: SocketAddr): Option<Phase> {
    if ds == [] then Some(Phase([], s))
    else match UdpAll(s, ds[..|ds| - 1], local)
      case None => None
      case Some(p) =>
        match UdpOne(p.tables, ds[|ds| - 1], local)
        case None => None
        case Some(q) => Some(Phase(p.outs + q.outs, q.tables))
  }

  /**
   * What the environment brings to a cycle; `order` is the iteration order of the task table. The
   * clock is read anew for each request, for the ticks, for the pops and for each datagram. The
   * socket had `made` calls before, has a slot free at the calls `free` says, and `finish` tells
   * whether `finish_read_from` returns.
   */
  datatype Env = Env(
    evs: seq<BusEvent>, rss: seq<seq<Reaction>>, reqs: seq<Request>, tickAt: Time, ticks: map<TaskId, Reaction>,
    popAt: Time, order: seq<TaskId>, ds: seq<Datagram>, local: SocketAddr, made: nat, free: Slots, finish: bool)

  /** The cycle up to the removal of ended tasks. */
  function BeforeRemoval(s: Tables, env: Env): Option<Phase> {
    match BusAll(s, env.evs, env.rss)
    case None => None
    case Some(s1) =>
      if !AllBuild(env.reqs) then None else
      var p2 := HttpAll(s1, env.reqs);
      var s3 := TickAll(p2.tables, env.tickAt, env.ticks);
      var p4 := PopAll(s3, env.order, env.popAt);
      Some(Phase(p2.outs + p4.outs, p4.tables))
  }

  /** `process_cycle`; `None` is a crash of the worker, in one of its phases or in a call on its socket. */
  ghost function RunCycle(s: Tables, env: Env): Option<Phase> {
    match Phases(s, env)
    case None => None
    case Some(p) => if Fits(p.outs, env.made, env.free) && env.finish then Some(p) else None
  }

  /** The phases of `process_cycle` on a socket that takes every send. */
  function Phases(s: Tables, env: Env): Option<Phase> {
    match BeforeRemoval(s, env)
    case None => None
    case Some(p) =>
      match PopEnded(p.tables)
      case None => None
      case Some(s5) =>
        match UdpAll(s5, env.ds, env.local)
        case None => None
        case Some(q) => Some(Phase(p.outs + q.outs, q.tables))
  }

  // ----- the cycle from its phases -----

  lemma CycleIs(s: Tables, env: Env, p: Phase, s5: Tables)
    requires BeforeRemoval(s, env) == Some(p) && PopEnded(p.tables) == Some(s5)
    ensures Phases(s, env) ==
              match UdpAll(s5, env.ds, env.local) case None => None case Some(q) => Some(Phase(p.outs + q.outs, q.tables))
  {}

  // ----- a drain is a run of single turns -----

  lemma DrainEquation(id: TaskId, l: Local, now: Time)
    ensures var (out, u) := TakeAction(id, l, now);
            if out.None? then Drain(id, l, now) == ([], u)
            else Work(u.box.task) < Work(l.box.task) && Drain(id, l, now) == ([out.value] + Drain(id, u, now).0, Drain(id, u, now).1)
  {
    if TakeAction(id, l, now).0.Some? {
      PopProgress(l.box.task, now);
    }
  }

  /** Draining a task of the table is taking one action and draining on, until there is none. */
  lemma DrainUnfold(s: Tables, id: TaskId, now: Time)
    requires id in s.tasks
    ensures var (out, t) := Take(s, id, now);
            && id in t.tasks
            && DrainTable(s, id, now) ==
               if out.None? then Phase([], t) else Phase([out.value] + DrainTable(t, id, now).outs, DrainTable(t, id, now).tables)
    ensures Take(s, id, now).0.Some? ==> Work(Take(s, id, now).1.tasks[id].task) < Work(s.tasks[id].task)
  {
    var (out, l) := TakeAction(id, LocalOf(s, id), now);
    var t := Take(s, id, now).1;
    assert LocalOf(t, id) == l;
    if out.Some? {
      PopProgress(s.tasks[id].task, now);
      var box := Drain(id, l, now).1.box;
      assert t.tasks[id := box] == s.tasks[id := box];
    }
  }

  lemma {:induction false} DrainKeeps(s: Tables, roles: map<TaskId, Role>, id: TaskId, now: Time)
    requires Inv(s, roles) && id in s.tasks
    ensures Inv(DrainTable(s, id, now).tables, roles)
    ensures DrainTable(s, id, now).tables.tasks.Keys == s.tasks.Keys && DrainTable(s, id, now).tables.ufrags == s.ufrags
    decreases Work(s.tasks[id].task)
  {
    DrainUnfold(s, id, now);
    TakeKeeps(s, roles, id, now);
    if Take(s, id, now).0.Some? {
      DrainKeeps(Take(s, id, now).1, roles, id, now);
    }
  }

  /** Draining a new task before it is in the table is the same as creating it in the table and draining it there. */
  lemma AdmitIsCreate(s: Tables, task: Task, now: Time)
    ensures s.seed in Create(s, task).tasks && Admit(s, task, now) == DrainTable(Create(s, task), s.seed, now)
  {
    var t := Create(s, task);
    assert LocalOf(t, s.seed) == Local(s.chans, s.ended, Container(task, [], [], []));
    var l := Drain(s.seed, LocalOf(t, s.seed), now).1;
    assert t.tasks[s.seed := l.box] == s.tasks[s.seed := l.box];
  }

  // ----- every phase keeps the tables in agreement -----

  /** The ufrags of the requests are new when their turn comes. */
  ghost predicate NewUfrags(s: Tables, reqs: seq<Request>) {
    forall i :: 0 <= i < |reqs| && RoleFor(reqs[i].path).Some? ==> reqs[i].ufrag !in HttpAll(s, reqs[..i]).tables.ufrags
  }

  lemma HttpOneKeeps(s: Tables, roles: map<TaskId, Role>, req: Request) returns (roles': map<TaskId, Role>)
    requires Inv(s, roles) && (RoleFor(req.path).Some? ==> req.ufrag !in s.ufrags)
    ensures Inv(HttpOne(s, req).tables, roles')
  {
    match RoleFor(req.path)
    case None => roles' := roles;
    case Some(role) =>
      var task := TaskFor(role, req);
      CreateKeeps(s, roles, task);
      roles' := roles[s.seed := role];
      AdmitIsCreate(s, task, req.at);
      DrainKeeps(Create(s, task), roles', s.seed, req.at);
  }

  lemma {:induction false} HttpAllKeeps(s: Tables, roles: map<TaskId, Role>, reqs: seq<Request>) returns (roles': map<TaskId, Role>)
    requires Inv(s, roles) && NewUfrags(s, reqs)
    ensures Inv(HttpAll(s, reqs).tables, roles')
  {
    if reqs == [] {
      roles' := roles;
    } else {
      var init := reqs[..|reqs| - 1];
      forall i | 0 <= i < |init| ensures init[..i] == reqs[..i] {}
      roles' := HttpAllKeeps(s, roles, init);
      roles' := HttpOneKeeps(HttpAll(s, init).tables, roles', reqs[|reqs| - 1]);
    }
  }

  /**
   * Every publisher that announced its video has the stream for it when a keyframe is asked of it.
   * Deliveries change neither the receivers nor what decides this, so the tables at the start do.
   */
  ghost predicate AllStreams(s: Tables, evs: seq<BusEvent>, rss: seq<seq<Reaction>>) {
    forall i :: 0 <= i < |evs| ==> Streams(s, evs[i], Reactions(rss, i))
  }

  lemma AllStreamsSplit(s: Tables, evs: seq<BusEvent>, rss: seq<seq<Reaction>>)
    requires evs != []
    ensures AllStreams(s, evs, rss) <==>
              AllStreams(s, evs[..|evs| - 1], rss) && Streams(s, evs[|evs| - 1], Reactions(rss, |evs| - 1))
  {
    forall i | 0 <= i < |evs| - 1 ensures evs[..|evs| - 1][i] == evs[i] {}
  }

  lemma StreamsFrame(s: Tables, t: Tables, ev: BusEvent, rs: seq<Reaction>)
    requires t.chans == s.chans && SameVideo(s.tasks, t.tasks)
    ensures Streams(t, ev, rs) <==> Streams(s, ev, rs)
  {}

  /** The bus phase panics exactly when some stream is missing. */
  lemma {:induction false} BusAllKeeps(s: Tables, roles: map<TaskId, Role>, evs: seq<BusEvent>, rss: seq<seq<Reaction>>)
    requires Inv(s, roles)
    ensures BusAll(s, evs, rss).Some? <==> AllStreams(s, evs, rss)
    ensures BusAll(s, evs, rss).Some? ==>
              var t := BusAll(s, evs, rss).value; Inv(t, roles) && t == s.(tasks := t.tasks) && SameVideo(s.tasks, t.tasks)
  {
    if evs == [] {
    } else {
      var init, last := evs[..|evs| - 1], evs[|evs| - 1];
      BusAllKeeps(s, roles, init, rss);
      AllStreamsSplit(s, evs, rss);
      if BusAll(s, init, rss).Some? {
        var t := BusAll(s, init, rss).value;
        BusReadKeeps(t, roles, last, Reactions(rss, |evs| - 1));
        StreamsFrame(s, t, last, Reactions(rss, |evs| - 1));
      }
    }
  }

  lemma TickAllKeeps(s: Tables, roles: map<TaskId, Role>, now: Time, rs: map<TaskId, Reaction>)
    requires Inv(s, roles)
    ensures Inv(TickAll(s, now, rs), roles)
  {
    var tasks := TickAll(s, now, rs).tasks;
    TickAllRouting(s, now, rs);
    SameRoutingKeeps(s, tasks, roles);
  }

  lemma TickAllRouting(s: Tables, now: Time, rs: map<TaskId, Reaction>)
    requires AllRoleOk(s.tasks)
    ensures SameRouting(s.tasks, TickAll(s, now, rs).tasks) && AllRoleOk(TickAll(s, now, rs).tasks)
  {
    forall id | id in s.tasks ensures var t := TickAll(s, now, rs).tasks[id];
                                      && t.remotes == s.tasks[id].remotes && t.subs == s.tasks[id].subs && t.pubs == s.tasks[id].pubs
                                      && t.task.role == s.tasks[id].task.role && t.task.ufrag == s.tasks[id].task.ufrag
                                      && RoleOk(t.task) {
      TickRole(s.tasks[id].task, now, ReactionOf(rs, id));
    }
  }

  lemma {:induction false} PopAllKeeps(s: Tables, roles: map<TaskId, Role>, order: seq<TaskId>, now: Time)
    requires Inv(s, roles)
    ensures Inv(PopAll(s, order, now).tables, roles)
  {
    if order == [] {
    } else {
      PopAllKeeps(s, roles, order[..|order| - 1], now);
      var p := PopAll(s, order[..|order| - 1], now);
      if order[|order| - 1] in p.tables.tasks {
        DrainKeeps(p.tables, roles, order[|order| - 1], now);
      }
    }
  }

  /** Every datagram is readable when its turn comes. */
  ghost predicate AllReadable(s: Tables, ds: seq<Datagram>, local: SocketAddr) {
    forall i :: 0 <= i < |ds| && UdpAll(s, ds[..i], local).Some? ==> Readable(UdpAll(s, ds[..i], local).value.tables, ds[i])
  }

  lemma AllReadableSplit(s: Tables, ds: seq<Datagram>, local: SocketAddr)
    requires ds != []
    ensures var n := |ds| - 1;
            AllReadable(s, ds, local) <==>
              && AllReadable(s, ds[..n], local)
              && (UdpAll(s, ds[..n], local).Some? ==> Readable(UdpAll(s, ds[..n], local).value.tables, ds[n]))
  {
    forall i | 0 <= i < |ds| - 1 ensures ds[..|ds| - 1][..i] == ds[..i] && ds[..|ds| - 1][i] == ds[i] {}
  }

  lemma {:induction false} UdpAllKeeps(s: Tables, roles: map<TaskId, Role>, ds: seq<Datagram>, local: SocketAddr)
    requires Inv(s, roles)
    ensures UdpAll(s, ds, local).Some? <==> AllReadable(s, ds, local)
    ensures UdpAll(s, ds, local).Some? ==> Inv(UdpAll(s, ds, local).value.tables, roles)
  {
    if ds == [] {
    } else {
      var init := ds[..|ds| - 1];
      UdpAllKeeps(s, roles, init, local);
      AllReadableSplit(s, ds, local);
      if UdpAll(s, init, local).Some? {
        UdpOneKeeps(UdpAll(s, init, local).value.tables, roles, ds[|ds| - 1], local);
      }
    }
  }

  lemma UdpOneKeeps(s: Tables, roles: map<TaskId, Role>, d: Datagram, local: SocketAddr)
    requires Inv(s, roles)
    ensures UdpOne(s, d, local).Some? <==> Readable(s, d)
    ensures UdpOne(s, d, local).Some? ==> Inv(UdpOne(s, d, local).value.tables, roles)
  {
    UdpKeeps(s, roles, d, local);
    if Readable(s, d) {
      var Routed(to, t) := UdpRead(s, d, local);
      if to.Some? && to.value in t.tasks {
        DrainKeeps(t, roles, to.value, d.at);
      }
    }
  }

  /** The cycle passes the bus and the requests: no stream is missing and every task can be built. */
  ghost predicate Starts(s: Tables, env: Env) {
    AllStreams(s, env.evs, env.rss) && AllBuild(env.reqs)
  }

  lemma BeforeRemovalKeeps(s: Tables, roles: map<TaskId, Role>, env: Env) returns (roles': map<TaskId, Role>)
    requires Inv(s, roles)
    requires BusAll(s, env.evs, env.rss).Some? ==> NewUfrags(BusAll(s, env.evs, env.rss).value, env.reqs)
    ensures BeforeRemoval(s, env).Some? <==> Starts(s, env)
    ensures BeforeRemoval(s, env).Some? ==> Inv(BeforeRemoval(s, env).value.tables, roles')
  {
    BusAllKeeps(s, roles, env.evs, env.rss);
    roles' := roles;
    if Starts(s, env) {
      var s1 := BusAll(s, env.evs, env.rss).value;
      roles' := HttpAllKeeps(s1, roles, env.reqs);
      var s2 := HttpAll(s1, env.reqs).tables;
      TickAllKeeps(s2, roles', env.tickAt, env.ticks);
      PopAllKeeps(TickAll(s2, env.tickAt, env.ticks), roles', env.order, env.popAt);
    }
  }

  /**
   * From tables in agreement, a cycle crashes exactly when a publisher misses the stream it is asked
   * a keyframe of, an offer is bad, some task has ended twice by the time the ended tasks are removed,
   * a datagram is not readable when its turn comes, a send is too long for the slot that is free for
   * it, or the socket's `finish_read_from` fails; otherwise the cycle leaves tables in agreement.
   */
  lemma CycleKeeps(s: Tables, roles: map<TaskId, Role>, env: Env) returns (roles': map<TaskId, Role>)
    requires Inv(s, roles)
    requires BusAll(s, env.evs, env.rss).Some? ==> NewUfrags(BusAll(s, env.evs, env.rss).value, env.reqs)
    ensures BeforeRemoval(s, env).Some? <==> Starts(s, env)
    ensures Starts(s, env) ==> (PopEnded(BeforeRemoval(s, env).value.tables).Some? <==> Distinct(BeforeRemoval(s, env).value.tables.ended))
    ensures Phases(s, env).Some? <==>
              && Starts(s, env)
              && Distinct(BeforeRemoval(s, env).value.tables.ended)
              && AllReadable(PopEnded(BeforeRemoval(s, env).value.tables).value, env.ds, env.local)
    ensures RunCycle(s, env).Some? <==> Phases(s, env).Some? && Fits(Phases(s, env).value.outs, env.made, env.free) && env.finish
    ensures RunCycle(s, env).Some? ==> Inv(RunCycle(s, env).value.tables, roles')
  {
    roles' := BeforeRemovalKeeps(s, roles, env);
    if Starts(s, env) {
      var t := BeforeRemoval(s, env).value.tables;
      PopEndedSucceeds(t, roles');
      if Distinct(t.ended) {
        CompleteRemoval(t, roles');
        UdpAllKeeps(PopEnded(t).value, roles', env.ds, env.local);
      }
    }
  }
}
