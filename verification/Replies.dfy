/** What a worker answers: every request exactly once, in order, and nothing else ever. */
module Replies {
  import opened Seqs
  import opened Net
  import opened Tasks
  import opened Routing
  import opened RoutingSafety
  import opened Cycle

  ghost predicate NoReply(outs: seq<TaskOutput>) {
    forall i :: 0 <= i < |outs| ==> !outs[i].HttpReply?
  }

  /** No task of the table has a response to give. */
  ghost predicate NoReplyQueued(s: Tables) {
    forall id :: id in s.tasks ==> NoReply(s.tasks[id].task.outputs)
  }

  function StatusOf(req: Request): nat {
    if req.path == "/whip/endpoint" || req.path == "/whep/endpoint" then 200 else 404
  }

  /** One response to each request, in order. */
  function Answers(reqs: seq<Request>): seq<(nat, nat)> {
    if reqs == [] then []
    else Answers(reqs[..|reqs| - 1]) + [(reqs[|reqs| - 1].reqId, StatusOf(reqs[|reqs| - 1]))]
  }

  lemma {:induction false} AnswersAt(reqs: seq<Request>, i: nat)
    requires i < |reqs|
    ensures |Answers(reqs)| == |reqs| && Answers(reqs)[i] == (reqs[i].reqId, StatusOf(reqs[i]))
  {
    if |reqs| == 1 {
    } else {
      AnswersAt(reqs[..|reqs| - 1], if i < |reqs| - 1 then i else 0);
    }
  }

  lemma RepliesConcat(a: seq<TaskOutput>, b: seq<TaskOutput>)
    ensures Collect(ToReply, a + b) == Collect(ToReply, a) + Collect(ToReply, b)
  {
    CollectConcat(ToReply, a, b);
  }

  lemma RepliesOne(out: TaskOutput)
    ensures Collect(ToReply, [out]) == OptionToSeq(ToReply(out))
  {
    CollectAppend(ToReply, [], out);
    assert [] + [out] == [out];
  }

  // ----- draining -----

  lemma PopQuiet(t: Task, now: Time)
    requires NoReply(t.outputs)
    ensures var (out, u) := PopAction(t, now); NoReply(u.outputs) && (out.Some? ==> !out.value.HttpReply?)
  {}

  lemma TakeQuiet(id: TaskId, l: Local, now: Time)
    requires NoReply(l.box.task.outputs)
    ensures var (out, u) := TakeAction(id, l, now); NoReply(u.box.task.outputs) && (out.Some? ==> !out.value.HttpReply?)
  {
    PopQuiet(l.box.task, now);
  }

  /** A task without a queued response never gives one. */
  lemma {:induction false} DrainQuiet(id: TaskId, l: Local, now: Time)
    requires NoReply(l.box.task.outputs)
    ensures Collect(ToReply, Drain(id, l, now).0) == [] && NoReply(Drain(id, l, now).1.box.task.outputs)
    decreases Work(l.box.task)
  {
    var (out, u) := TakeAction(id, l, now);
    TakeQuiet(id, l, now);
    DrainEquation(id, l, now);
    if out.Some? {
      DrainQuiet(id, u, now);
      RepliesConcat([out.value], Drain(id, u, now).0);
      RepliesOne(out.value);
    }
  }

  /** A new task gives the response of its request, and no other. */
  lemma DrainNew(id: TaskId, l: Local, now: Time, reqId: nat)
    requires l.box.task.outputs == [HttpReply(reqId, 200)]
    ensures Collect(ToReply, Drain(id, l, now).0) == [(reqId, 200)] && NoReply(Drain(id, l, now).1.box.task.outputs)
  {
    var (out, u) := TakeAction(id, l, now);
    DrainEquation(id, l, now);
    DrainQuiet(id, u, now);
    RepliesConcat([HttpReply(reqId, 200)], Drain(id, u, now).0);
    RepliesOne(HttpReply(reqId, 200));
  }

  lemma DrainTableQuiet(s: Tables, id: TaskId, now: Time)
    requires NoReplyQueued(s) && id in s.tasks
    ensures Collect(ToReply, DrainTable(s, id, now).outs) == [] && NoReplyQueued(DrainTable(s, id, now).tables)
  {
    DrainQuiet(id, LocalOf(s, id), now);
  }

  // ----- requests -----

  /** A request is answered once, at once, with a status that says whether its path is one of the endpoints. */
  lemma HttpOneReplies(s: Tables, req: Request)
    requires NoReplyQueued(s)
    ensures Collect(ToReply, HttpOne(s, req).outs) == [(req.reqId, StatusOf(req))] && NoReplyQueued(HttpOne(s, req).tables)
  {
    match RoleFor(req.path)
    case None => RepliesOne(HttpReply(req.reqId, 404));
    case Some(role) => DrainNew(s.seed, Local(s.chans, s.ended, Container(TaskFor(role, req), [], [], [])), req.at, req.reqId);
  }

  lemma {:induction false} HttpAllReplies(s: Tables, reqs: seq<Request>)
    requires NoReplyQueued(s)
    ensures Collect(ToReply, HttpAll(s, reqs).outs) == Answers(reqs) && NoReplyQueued(HttpAll(s, reqs).tables)
  {
    if reqs == [] {
    } else {
      var init, last := reqs[..|reqs| - 1], reqs[|reqs| - 1];
      HttpAllReplies(s, init);
      var p := HttpAll(s, init);
      HttpOneReplies(p.tables, last);
      RepliesConcat(p.outs, HttpOne(p.tables, last).outs);
    }
  }

  // ----- the other phases -----

  lemma GiveQuiet(tasks: map<TaskId, Container>, id: TaskId, e: TaskInput, r: Reaction, s: Tables)
    requires s.tasks == tasks && NoReplyQueued(s) && GiveTo(tasks, id, e, r).Delivered?
    ensures NoReplyQueued(s.(tasks := GiveTo(tasks, id, e, r).tasks))
  {
    if id in tasks { InputSame(tasks[id].task, e, r); }
  }

  lemma {:induction false} DeliverQuiet(s: Tables, ids: seq<TaskId>, e: TaskInput, rs: seq<Reaction>)
    requires NoReplyQueued(s) && Deliver(s.tasks, ids, e, rs).Delivered?
    ensures NoReplyQueued(s.(tasks := Deliver(s.tasks, ids, e, rs).tasks))
  {
    if ids == [] {
    } else {
      DeliverQuiet(s, ids[..|ids| - 1], e, rs);
      var m := Deliver(s.tasks, ids[..|ids| - 1], e, rs).tasks;
      GiveQuiet(m, ids[|ids| - 1], e, At(rs, |ids| - 1), s.(tasks := m));
    }
  }

  lemma {:induction false} BusAllQuiet(s: Tables, evs: seq<BusEvent>, rss: seq<seq<Reaction>>)
    requires NoReplyQueued(s) && BusAll(s, evs, rss).Some?
    ensures NoReplyQueued(BusAll(s, evs, rss).value)
  {
    if evs == [] {
    } else {
      var init, last := evs[..|evs| - 1], evs[|evs| - 1];
      BusAllQuiet(s, init, rss);
      var t := BusAll(s, init, rss).value;
      DeliverQuiet(t, Receivers(t, last), AsInput(last), Reactions(rss, |evs| - 1));
    }
  }

  lemma TickQuiet(t: Task, now: Time, r: Reaction)
    ensures Tick(t, now, r).outputs == t.outputs
  {}

  lemma TickAllQuiet(s: Tables, now: Time, rs: map<TaskId, Reaction>)
    requires NoReplyQueued(s)
    ensures NoReplyQueued(TickAll(s, now, rs))
  {
    forall id | id in s.tasks ensures NoReply(TickAll(s, now, rs).tasks[id].task.outputs) {
      TickQuiet(s.tasks[id].task, now, ReactionOf(rs, id));
      assert NoReply(s.tasks[id].task.outputs);
    }
  }

  lemma {:induction false} PopAllQuiet(s: Tables, order: seq<TaskId>, now: Time)
    requires NoReplyQueued(s)
    ensures Collect(ToReply, PopAll(s, order, now).outs) == [] && NoReplyQueued(PopAll(s, order, now).tables)
  {
    if order == [] {
    } else {
      var id := order[|order| - 1];
      PopAllQuiet(s, order[..|order| - 1], now);
      var p := PopAll(s, order[..|order| - 1], now);
      if id in p.tables.tasks {
        DrainTableQuiet(p.tables, id, now);
        RepliesConcat(p.outs, DrainTable(p.tables, id, now).outs);
      }
    }
  }

  lemma {:induction false} RemoveAllQuiet(s: Tables, ids: seq<TaskId>)
    requires NoReplyQueued(s) && RemoveAll(s, ids).Some?
    ensures NoReplyQueued(RemoveAll(s, ids).value)
  {
    if ids == [] {
    } else {
      RemoveAllQuiet(s, ids[..|ids| - 1]);
    }
  }

  lemma UdpOneQuiet(s: Tables, d: Datagram, local: SocketAddr)
    requires NoReplyQueued(s) && UdpOne(s, d, local).Some?
    ensures Collect(ToReply, UdpOne(s, d, local).value.outs) == [] && NoReplyQueued(UdpOne(s, d, local).value.tables)
  {
    var (to, t) := Bind(s, d);
    assert NoReplyQueued(t);
    if to.Some? && to.value in t.tasks {
      GiveQuiet(t.tasks, to.value, UdpSocketRecv(d.remote, local, d.buf), d.reaction, t);
      var u := UdpRead(s, d, local).tables;
      DrainTableQuiet(u, to.value, d.at);
    }
  }

  lemma {:induction false} UdpAllQuiet(s: Tables, ds: seq<Datagram>, local: SocketAddr)
    requires NoReplyQueued(s) && UdpAll(s, ds, local).Some?
    ensures Collect(ToReply, UdpAll(s, ds, local).value.outs) == [] && NoReplyQueued(UdpAll(s, ds, local).value.tables)
  {
    if ds == [] {
    } else {
      var init, last := ds[..|ds| - 1], ds[|ds| - 1];
      UdpAllQuiet(s, init, local);
      var p := UdpAll(s, init, local).value;
      UdpOneQuiet(p.tables, last, local);
      RepliesConcat(p.outs, UdpOne(p.tables, last, local).value.outs);
    }
  }

  /**
   * Over a whole cycle a worker answers exactly the requests it took, each once and in order, with
   * 200 on the two endpoints and 404 elsewhere; no response waits anywhere afterwards.
   */
  lemma CycleReplies(s: Tables, env: Env)
    requires NoReplyQueued(s) && Phases(s, env).Some?
    ensures Collect(ToReply, Phases(s, env).value.outs) == Answers(env.reqs)
    ensures NoReplyQueued(Phases(s, env).value.tables)
  {
    BusAllQuiet(s, env.evs, env.rss);
    var s1 := BusAll(s, env.evs, env.rss).value;
    HttpAllReplies(s1, env.reqs);
    var p2 := HttpAll(s1, env.reqs);
    TickAllQuiet(p2.tables, env.tickAt, env.ticks);
    var s3 := TickAll(p2.tables, env.tickAt, env.ticks);
    PopAllQuiet(s3, env.order, env.popAt);
    var p4 := PopAll(s3, env.order, env.popAt);
    RemoveAllQuiet(p4.tables.(ended := []), p4.tables.ended);
    var s5 := PopEnded(p4.tables).value;
    UdpAllQuiet(s5, env.ds, env.local);
    RepliesConcat(p2.outs, p4.outs);
    RepliesConcat(p2.outs + p4.outs, UdpAll(s5, env.ds, env.local).value.outs);
  }
}
