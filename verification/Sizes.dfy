/** Engines that put out no more than a slot holds: then no send is ever too long, in any cycle. */
module Sizes {
  import opened Seqs
  import opened Net
  import opened Tasks
  import opened Routing
  import opened Cycle

  predicate SmallOutput(o: EngineOutput) {
    o.Transmit? ==> |o.contents| <= 1500
  }

  ghost predicate SmallEngine(e: Engine) {
    forall i :: 0 <= i < |e.ready| ==> SmallOutput(e.ready[i])
  }

  predicate SmallAction(out: TaskOutput) {
    out.UdpSocketSend? ==> |out.buf| <= 1500
  }

  ghost predicate AllSmall(outs: seq<TaskOutput>) {
    forall i :: 0 <= i < |outs| ==> SmallAction(outs[i])
  }

  ghost predicate SmallTask(t: Task) {
    SmallEngine(t.engine) && AllSmall(t.outputs)
  }

  ghost predicate SmallTasks(tasks: map<TaskId, Container>) {
    forall id :: id in tasks ==> SmallTask(tasks[id].task)
  }

  /** Everything new that a cycle brings its engines to is small. */
  ghost predicate SmallEnv(env: Env) {
    && (forall i :: 0 <= i < |env.rss| ==> SmallReactions(env.rss[i]))
    && (forall i :: 0 <= i < |env.reqs| ==> SmallEngine(env.reqs[i].engine))
    && (forall id :: id in env.ticks ==> SmallEngine(env.ticks[id].engine))
    && (forall i :: 0 <= i < |env.ds| ==> SmallEngine(env.ds[i].reaction.engine))
  }

  ghost predicate SmallReactions(rs: seq<Reaction>) {
    forall i :: 0 <= i < |rs| ==> SmallEngine(rs[i].engine)
  }

  /** Small actions are calls that fit, whatever slot is free. */
  lemma {:induction false} SmallFits(outs: seq<TaskOutput>, made: nat, free: Slots)
    requires AllSmall(outs)
    ensures Fits(outs, made, free)
  {
    if outs == [] {
    } else {
      var init, last := outs[..|outs| - 1], outs[|outs| - 1];
      SmallFits(init, made, free);
      assert SmallAction(last);
      assert outs == init + [last];
      CollectAppend(ToCall, init, last);
    }
  }

  // ----- draining -----

  lemma PopSmall(t: Task, now: Time)
    requires SmallTask(t)
    ensures var (out, u) := PopAction(t, now); SmallTask(u) && (out.Some? ==> SmallAction(out.value))
  {
    if t.outputs != [] {
      assert SmallAction(t.outputs[0]);
    } else if t.engine.ready != [] {
      assert SmallOutput(t.engine.ready[0]);
    }
  }

  lemma {:induction false} DrainSmall(id: TaskId, l: Local, now: Time)
    requires SmallTask(l.box.task)
    ensures AllSmall(Drain(id, l, now).0) && SmallTask(Drain(id, l, now).1.box.task)
    decreases Work(l.box.task)
  {
    var (out, u) := TakeAction(id, l, now);
    PopSmall(l.box.task, now);
    assert u.box.task == PopAction(l.box.task, now).1;
    DrainEquation(id, l, now);
    if out.None? {
    } else {
      DrainSmall(id, u, now);
    }
  }

  lemma DrainTableSmall(s: Tables, id: TaskId, now: Time)
    requires SmallTasks(s.tasks) && id in s.tasks
    ensures AllSmall(DrainTable(s, id, now).outs) && SmallTasks(DrainTable(s, id, now).tables.tasks)
  {
    DrainSmall(id, LocalOf(s, id), now);
  }

  // ----- the phases -----

  lemma InputSmall(t: Task, e: TaskInput, r: Reaction)
    requires SmallTask(t) && SmallEngine(r.engine) && Input(t, e, r).Handled?
    ensures SmallTask(Input(t, e, r).task)
  {}

  lemma GiveSmall(tasks: map<TaskId, Container>, id: TaskId, e: TaskInput, r: Reaction)
    requires SmallTasks(tasks) && SmallEngine(r.engine) && GiveTo(tasks, id, e, r).Delivered?
    ensures SmallTasks(GiveTo(tasks, id, e, r).tasks)
  {
    if id in tasks { InputSmall(tasks[id].task, e, r); }
  }

  lemma {:induction false} DeliverSmall(tasks: map<TaskId, Container>, ids: seq<TaskId>, e: TaskInput, rs: seq<Reaction>)
    requires SmallTasks(tasks) && SmallReactions(rs) && Deliver(tasks, ids, e, rs).Delivered?
    ensures SmallTasks(Deliver(tasks, ids, e, rs).tasks)
  {
    if ids == [] {
    } else {
      var init := ids[..|ids| - 1];
      DeliverSmall(tasks, init, e, rs);
      GiveSmall(Deliver(tasks, init, e, rs).tasks, ids[|ids| - 1], e, At(rs, |ids| - 1));
    }
  }

  lemma {:induction false} BusAllSmall(s: Tables, evs: seq<BusEvent>, rss: seq<seq<Reaction>>)
    requires SmallTasks(s.tasks) && (forall i :: 0 <= i < |rss| ==> SmallReactions(rss[i])) && BusAll(s, evs, rss).Some?
    ensures SmallTasks(BusAll(s, evs, rss).value.tasks)
  {
    if evs == [] {
    } else {
      var init, last := evs[..|evs| - 1], evs[|evs| - 1];
      BusAllSmall(s, init, rss);
      var t := BusAll(s, init, rss).value;
      DeliverSmall(t.tasks, Receivers(t, last), AsInput(last), Reactions(rss, |evs| - 1));
    }
  }

  lemma HttpOneSmall(s: Tables, req: Request)
    requires SmallTasks(s.tasks) && SmallEngine(req.engine)
    ensures AllSmall(HttpOne(s, req).outs) && SmallTasks(HttpOne(s, req).tables.tasks)
  {
    match RoleFor(req.path)
    case None =>
    case Some(role) => DrainSmall(s.seed, Local(s.chans, s.ended, Container(TaskFor(role, req), [], [], [])), req.at);
  }

  lemma {:induction false} HttpAllSmall(s: Tables, reqs: seq<Request>)
    requires SmallTasks(s.tasks) && forall i :: 0 <= i < |reqs| ==> SmallEngine(reqs[i].engine)
    ensures AllSmall(HttpAll(s, reqs).outs) && SmallTasks(HttpAll(s, reqs).tables.tasks)
  {
    if reqs == [] {
    } else {
      var init := reqs[..|reqs| - 1];
      HttpAllSmall(s, init);
      HttpOneSmall(HttpAll(s, init).tables, reqs[|reqs| - 1]);
    }
  }

  lemma TickAllSmall(s: Tables, now: Time, rs: map<TaskId, Reaction>)
    requires SmallTasks(s.tasks) && forall id :: id in rs ==> SmallEngine(rs[id].engine)
    ensures SmallTasks(TickAll(s, now, rs).tasks)
  {
    forall id | id in s.tasks ensures SmallTask(TickAll(s, now, rs).tasks[id].task) {
      assert SmallTask(s.tasks[id].task);
    }
  }

  lemma {:induction false} PopAllSmall(s: Tables, order: seq<TaskId>, now: Time)
    requires SmallTasks(s.tasks)
    ensures AllSmall(PopAll(s, order, now).outs) && SmallTasks(PopAll(s, order, now).tables.tasks)
  {
    if order == [] {
    } else {
      var init, id := order[..|order| - 1], order[|order| - 1];
      PopAllSmall(s, init, now);
      if id in PopAll(s, init, now).tables.tasks { DrainTableSmall(PopAll(s, init, now).tables, id, now); }
    }
  }

  lemma {:induction false} RemoveAllSmall(s: Tables, ids: seq<TaskId>)
    requires SmallTasks(s.tasks) && RemoveAll(s, ids).Some?
    ensures SmallTasks(RemoveAll(s, ids).value.tasks)
  {
    if ids == [] {
    } else {
      RemoveAllSmall(s, ids[..|ids| - 1]);
    }
  }

  lemma UdpOneSmall(s: Tables, d: Datagram, local: SocketAddr)
    requires SmallTasks(s.tasks) && SmallEngine(d.reaction.engine) && UdpOne(s, d, local).Some?
    ensures AllSmall(UdpOne(s, d, local).value.outs) && SmallTasks(UdpOne(s, d, local).value.tables.tasks)
  {
    var (to, t) := Bind(s, d);
    assert SmallTasks(t.tasks);
    if to.Some? && to.value in t.tasks {
      GiveSmall(t.tasks, to.value, UdpSocketRecv(d.remote, local, d.buf), d.reaction);
      DrainTableSmall(UdpRead(s, d, local).tables, to.value, d.at);
    }
  }

  lemma {:induction false} UdpAllSmall(s: Tables, ds: seq<Datagram>, local: SocketAddr)
    requires SmallTasks(s.tasks) && (forall i :: 0 <= i < |ds| ==> SmallEngine(ds[i].reaction.engine)) && UdpAll(s, ds, local).Some?
    ensures AllSmall(UdpAll(s, ds, local).value.outs) && SmallTasks(UdpAll(s, ds, local).value.tables.tasks)
  {
    if ds == [] {
    } else {
      var init := ds[..|ds| - 1];
      UdpAllSmall(s, init, local);
      UdpOneSmall(UdpAll(s, init, local).value.tables, ds[|ds| - 1], local);
    }
  }

  /**
   * If the engines of the tasks, and what the cycle brings them to, put out datagrams of at most
   * 1500 bytes, every send of the cycle fits, whatever slots are free, and the engines stay so.
   */
  lemma CycleSmall(s: Tables, env: Env)
    requires SmallTasks(s.tasks) && SmallEnv(env) && Phases(s, env).Some?
    ensures AllSmall(Phases(s, env).value.outs) && Fits(Phases(s, env).value.outs, env.made, env.free)
    ensures SmallTasks(Phases(s, env).value.tables.tasks)
  {
    BusAllSmall(s, env.evs, env.rss);
    var s1 := BusAll(s, env.evs, env.rss).value;
    HttpAllSmall(s1, env.reqs);
    var p2 := HttpAll(s1, env.reqs);
    TickAllSmall(p2.tables, env.tickAt, env.ticks);
    PopAllSmall(TickAll(p2.tables, env.tickAt, env.ticks), env.order, env.popAt);
    var p4 := PopAll(TickAll(p2.tables, env.tickAt, env.ticks), env.order, env.popAt);
    RemoveAllSmall(p4.tables.(ended := []), p4.tables.ended);
    var s5 := PopEnded(p4.tables).value;
    UdpAllSmall(s5, env.ds, env.local);
    SmallFits(Phases(s, env).value.outs, env.made, env.free);
  }
}
