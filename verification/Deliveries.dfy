/** What the worker's phases do to the tasks in its table: which inputs each gets, and what they bring about in it. */
module Deliveries {
  import opened Seqs
  import opened Net
  import opened Tasks
  import opened TaskFacts
  import opened Routing
  import opened RoutingSafety
  import opened Cycle

  /** The calls that an event means for one task: an input for each time it is listed, each with its own reaction. */
  function Inputs(ids: seq<TaskId>, e: TaskInput, rs: seq<Reaction>, id: TaskId): seq<Op> {
    if ids == [] then []
    else Inputs(ids[..|ids| - 1], e, rs, id) + if ids[|ids| - 1] == id then [InputOp(e, At(rs, |ids| - 1))] else []
  }

  lemma GiveEffect(tasks: map<TaskId, Container>, x: TaskId, e: TaskInput, r: Reaction, id: TaskId)
    requires GiveTo(tasks, x, e, r).Delivered? && id in tasks
    ensures var m := GiveTo(tasks, x, e, r).tasks;
            && m.Keys == tasks.Keys
            && m[id] == if x == id then tasks[id].(task := Do(Trace(tasks[id].task, [], []), InputOp(e, r)).task) else tasks[id]
  {}

  /** A call's effect on the task does not depend on the trace before it. */
  lemma DoTask(tr: Trace, op: Op)
    ensures Do(tr, op).task == Do(Trace(tr.task, [], []), op).task
  {}

  lemma DoAllMore(t: Task, ops: seq<Op>, op: Op)
    ensures DoAll(t, ops + [op]).task == Do(Trace(DoAll(t, ops).task, [], []), op).task
  {
    assert (ops + [op])[..|ops|] == ops;
    DoTask(DoAll(t, ops), op);
  }

  /** After a delivery every live task is its old self after the inputs meant for it, in listing order; nothing else changes. */
  lemma {:induction false} DeliverEffect(tasks: map<TaskId, Container>, ids: seq<TaskId>, e: TaskInput, rs: seq<Reaction>, id: TaskId)
    requires Deliver(tasks, ids, e, rs).Delivered? && id in tasks
    ensures var m := Deliver(tasks, ids, e, rs).tasks;
            && m.Keys == tasks.Keys
            && m[id] == tasks[id].(task := DoAll(tasks[id].task, Inputs(ids, e, rs, id)).task)
  {
    if ids == [] {
      assert DoAll(tasks[id].task, []).task == tasks[id].task;
    } else {
      var init, last, r := ids[..|ids| - 1], ids[|ids| - 1], At(rs, |ids| - 1);
      DeliverEffect(tasks, init, e, rs, id);
      GiveEffect(Deliver(tasks, init, e, rs).tasks, last, e, r, id);
      if last == id {
        DoAllMore(tasks[id].task, Inputs(init, e, rs, id), InputOp(e, r));
      } else {
        assert Inputs(ids, e, rs, id) == Inputs(init, e, rs, id);
      }
    }
  }

  lemma {:induction false} DeliverKeys(tasks: map<TaskId, Container>, ids: seq<TaskId>, e: TaskInput, rs: seq<Reaction>)
    requires Deliver(tasks, ids, e, rs).Delivered?
    ensures Deliver(tasks, ids, e, rs).tasks.Keys == tasks.Keys
  {
    if ids == [] {
    } else {
      DeliverKeys(tasks, ids[..|ids| - 1], e, rs);
    }
  }

  // ----- one listing -----

  lemma {:induction false} Unlisted(ids: seq<TaskId>, e: TaskInput, rs: seq<Reaction>, id: TaskId)
    requires Count(ids, id) == 0
    ensures Inputs(ids, e, rs, id) == []
  {
    if ids == [] {
    } else {
      Unlisted(ids[..|ids| - 1], e, rs, id);
    }
  }

  lemma {:induction false} ListedOnce(ids: seq<TaskId>, e: TaskInput, rs: seq<Reaction>, i: nat)
    requires i < |ids| && Count(ids, ids[i]) == 1
    ensures Inputs(ids, e, rs, ids[i]) == [InputOp(e, At(rs, i))]
  {
    var n := |ids| - 1;
    if i == n {
      Unlisted(ids[..n], e, rs, ids[i]);
    } else {
      TallyAt(Same, ids[..n], i);
      ListedOnce(ids[..n], e, rs, i);
    }
  }

  lemma OneCall(t: Task, op: Op)
    ensures DoAll(t, [op]).task == Do(Trace(t, [], []), op).task
  {
    assert [op][..0] == [];
    assert DoFrom(Trace(t, [], []), []) == Trace(t, [], []);
  }

  /**
   * Media reaches a viewer's engine: a live task that is the `i`-th consumer of the track, and listed
   * once, writes the packet under the media id of its kind and is left with the engine's answer and
   * no deadline, if it knows the media id and has a stream; otherwise it stays as it was.
   */
  lemma MediaArrives(s: Tables, media: TrackMedia, rs: seq<Reaction>, i: nat)
    requires i < |Consumers(s.chans, media.trackId)| && Count(Consumers(s.chans, media.trackId), Consumers(s.chans, media.trackId)[i]) == 1
    requires var id := Consumers(s.chans, media.trackId)[i]; id in s.tasks && s.tasks[id].task.role == Whep
    requires BusRead(s, MediaEvent(media), rs).Delivered?
    ensures BusRead(s, MediaEvent(media), rs).tasks.Keys == s.tasks.Keys
    ensures var id := Consumers(s.chans, media.trackId)[i];
            var t, u := s.tasks[id].task, BusRead(s, MediaEvent(media), rs).tasks[id].task;
            var mid := if media.payloadType == 111 then t.audioMid else t.videoMid;
            if i < |rs| && mid.Some? && rs[i].hasStream then
              && u.fed == t.fed + [WriteRtp(mid.value, media.payloadType, media.seqNo, media.payload, media.payloadType != 111)]
              && u.engine == rs[i].engine && u.timeout == None
            else u == t
  {
    var ids, id := Consumers(s.chans, media.trackId), Consumers(s.chans, media.trackId)[i];
    DeliverEffect(s.tasks, ids, MediaInput(media), rs, id);
    ListedOnce(ids, MediaInput(media), rs, i);
    OneCall(s.tasks[id].task, InputOp(MediaInput(media), At(rs, i)));
    HandingOver(Trace(s.tasks[id].task, [], []), InputOp(MediaInput(media), At(rs, i)));
  }

  /** A keyframe request reaches a publisher's engine, if it is for its video and the media id is known; its deadline stays. */
  lemma KeyframeArrives(s: Tables, k: TrackId, kind: KeyframeKind, rs: seq<Reaction>, i: nat)
    requires i < |Sources(s.chans, k)| && Count(Sources(s.chans, k), Sources(s.chans, k)[i]) == 1
    requires var id := Sources(s.chans, k)[i]; id in s.tasks && s.tasks[id].task.role == Whip
    requires BusRead(s, KeyframeEvent(k, kind), rs).Delivered?
    ensures BusRead(s, KeyframeEvent(k, kind), rs).tasks.Keys == s.tasks.Keys
    ensures var id := Sources(s.chans, k)[i];
            var t, u := s.tasks[id].task, BusRead(s, KeyframeEvent(k, kind), rs).tasks[id].task;
            if i < |rs| && k == t.videoTrack && t.videoMid.Some? then
              u.fed == t.fed + [AskKeyframe(t.videoMid.value, kind)] && u.engine == rs[i].engine && u.timeout == t.timeout
            else u == t
  {
    var ids, id := Sources(s.chans, k), Sources(s.chans, k)[i];
    DeliverEffect(s.tasks, ids, KeyframeInput(k, kind), rs, id);
    ListedOnce(ids, KeyframeInput(k, kind), rs, i);
    var op := InputOp(KeyframeInput(k, kind), At(rs, i));
    OneCall(s.tasks[id].task, op);
    HandingOver(Trace(s.tasks[id].task, [], []), op);
    DeliverAccepts(s.tasks, ids, KeyframeInput(k, kind), rs, i);
  }

  /** Who is given an input in a delivery that does not panic does not miss its stream. */
  lemma {:induction false} DeliverAccepts(tasks: map<TaskId, Container>, ids: seq<TaskId>, e: TaskInput, rs: seq<Reaction>, i: nat)
    requires Deliver(tasks, ids, e, rs).Delivered? && i < |ids| && ids[i] in tasks && Count(ids, ids[i]) == 1
    ensures Input(tasks[ids[i]].task, e, At(rs, i)).Handled?
  {
    var n := |ids| - 1;
    if i == n {
      DeliverEffect(tasks, ids[..n], e, rs, ids[i]);
      Unlisted(ids[..n], e, rs, ids[i]);
      assert DoAll(tasks[ids[i]].task, []).task == tasks[ids[i]].task;
    } else {
      TallyAt(Same, ids[..n], i);
      DeliverAccepts(tasks, ids[..n], e, rs, i);
    }
  }

  // ----- datagrams -----

  /** Binding an address changes no task, only the addresses of the one it reaches. */
  lemma BindEffect(s: Tables, d: Datagram, id: TaskId)
    requires id in s.tasks
    ensures var (to, t) := Bind(s, d);
            && t.tasks.Keys == s.tasks.Keys && t.tasks[id].task == s.tasks[id].task
            && (to != Some(id) ==> t.tasks[id] == s.tasks[id])
  {}

  /** What a datagram that is read brings about: its binding, and then its delivery. */
  lemma ReadGives(s: Tables, d: Datagram, local: SocketAddr)
    requires UdpRead(s, d, local).Routed? && (Bind(s, d).0.Some? ==> Bind(s, d).0.value in Bind(s, d).1.tasks)
    ensures var (to, t) := Bind(s, d);
            if to.None? then UdpRead(s, d, local) == Routed(None, t)
            else
              && GiveTo(t.tasks, to.value, UdpSocketRecv(d.remote, local, d.buf), d.reaction).Delivered?
              && UdpRead(s, d, local) == Routed(to, t.(tasks := GiveTo(t.tasks, to.value, UdpSocketRecv(d.remote, local, d.buf), d.reaction).tasks))
  {
    UdpReadIs(s, d, local);
  }

  lemma DatagramDone(t: Task, from: SocketAddr, to: SocketAddr, buf: Bytes, r: Reaction)
    requires r.parses
    ensures Do(Trace(t, [], []), InputOp(UdpSocketRecv(from, to, buf), r)).task ==
              t.(engine := r.engine, timeout := None, fed := t.fed + [Received(from, to, buf)])
  {}

  /**
   * A readable datagram that reaches a task is handed to its engine with its source, the local
   * address and its bytes, and leaves the engine's answer and no deadline; no other task changes,
   * and none does when the datagram reaches nobody.
   */
  lemma DatagramArrives(s: Tables, roles: map<TaskId, Role>, d: Datagram, local: SocketAddr, id: TaskId)
    requires Inv(s, roles) && Readable(s, d) && id in s.tasks
    ensures UdpRead(s, d, local).Routed?
    ensures var r := UdpRead(s, d, local);
            && r.to == Bind(s, d).0 && id in r.tables.tasks
            && if r.to != Some(id) then r.tables.tasks[id] == s.tasks[id]
               else
                 var t := s.tasks[id].task;
                 r.tables.tasks[id].task == t.(engine := d.reaction.engine, timeout := None, fed := t.fed + [Received(d.remote, local, d.buf)])
  {
    UdpKeeps(s, roles, d, local);
    BindReaches(s, roles, d);
    if Bind(s, d).0.Some? { ReadableParses(s, roles, d); }
    DatagramEffect(s, d, local, id);
  }

  /** A readable datagram that reaches anybody parses. */
  lemma ReadableParses(s: Tables, roles: map<TaskId, Role>, d: Datagram)
    requires Inv(s, roles) && Readable(s, d) && Bind(s, d).0.Some?
    ensures d.reaction.parses
  {
    BindReaches(s, roles, d);
  }

  lemma DatagramEffect(s: Tables, d: Datagram, local: SocketAddr, id: TaskId)
    requires UdpRead(s, d, local).Routed? && (Bind(s, d).0.Some? ==> Bind(s, d).0.value in Bind(s, d).1.tasks && d.reaction.parses)
    requires id in s.tasks
    ensures var r := UdpRead(s, d, local);
            && r.to == Bind(s, d).0 && id in r.tables.tasks
            && if r.to != Some(id) then r.tables.tasks[id] == s.tasks[id]
               else
                 var t := s.tasks[id].task;
                 r.tables.tasks[id].task == t.(engine := d.reaction.engine, timeout := None, fed := t.fed + [Received(d.remote, local, d.buf)])
  {
    ReadGives(s, d, local);
    BindEffect(s, d, id);
    var (to, t) := Bind(s, d);
    if to.Some? {
      GiveEffect(t.tasks, to.value, UdpSocketRecv(d.remote, local, d.buf), d.reaction, id);
      DatagramDone(t.tasks[id].task, d.remote, local, d.buf, d.reaction);
    }
  }

  // ----- whole phases -----

  /** The calls that the bus events of a phase mean for one task. */
  function BusInputs(s: Tables, evs: seq<BusEvent>, rss: seq<seq<Reaction>>, id: TaskId): seq<Op> {
    if evs == [] then []
    else
      var n := |evs| - 1;
      BusInputs(s, evs[..n], rss, id) + Inputs(Receivers(s, evs[n]), AsInput(evs[n]), Reactions(rss, n), id)
  }

  lemma {:induction false} DoAllConcat(t: Task, a: seq<Op>, b: seq<Op>)
    ensures DoAll(t, a + b).task == DoAll(DoAll(t, a).task, b).task
  {
    if b == [] {
      assert a + b == a;
      assert DoAll(DoAll(t, a).task, []).task == DoAll(t, a).task;
    } else {
      var init, op := b[..|b| - 1], b[|b| - 1];
      DoAllConcat(t, a, init);
      assert a + b == a + init + [op] && b == init + [op];
      DoAllMore(t, a + init, op);
      DoAllMore(DoAll(t, a).task, init, op);
    }
  }

  /** The bus phase gives every live task the events its tracks are about, in log order, and changes nothing else. */
  lemma {:induction false} BusAllEffect(s: Tables, evs: seq<BusEvent>, rss: seq<seq<Reaction>>, id: TaskId)
    requires BusAll(s, evs, rss).Some? && id in s.tasks
    ensures var t := BusAll(s, evs, rss).value;
            && t == s.(tasks := t.tasks) && t.tasks.Keys == s.tasks.Keys
            && t.tasks[id] == s.tasks[id].(task := DoAll(s.tasks[id].task, BusInputs(s, evs, rss, id)).task)
  {
    if evs == [] {
      assert DoAll(s.tasks[id].task, []).task == s.tasks[id].task;
    } else {
      var n := |evs| - 1;
      BusAllEffect(s, evs[..n], rss, id);
      var t := BusAll(s, evs[..n], rss).value;
      DeliverEffect(t.tasks, Receivers(t, evs[n]), AsInput(evs[n]), Reactions(rss, n), id);
      DoAllConcat(s.tasks[id].task, BusInputs(s, evs[..n], rss, id), Inputs(Receivers(s, evs[n]), AsInput(evs[n]), Reactions(rss, n), id));
    }
  }

  lemma {:induction false} BusAllTaskIds(s: Tables, evs: seq<BusEvent>, rss: seq<seq<Reaction>>)
    requires BusAll(s, evs, rss).Some?
    ensures BusAll(s, evs, rss).value.tasks.Keys == s.tasks.Keys
  {
    if evs == [] {
    } else {
      var n := |evs| - 1;
      BusAllTaskIds(s, evs[..n], rss);
      var t := BusAll(s, evs[..n], rss).value;
      DeliverKeys(t.tasks, Receivers(t, evs[n]), AsInput(evs[n]), Reactions(rss, n));
    }
  }

  lemma TickAllEffect(s: Tables, now: Time, rs: map<TaskId, Reaction>, id: TaskId)
    requires id in s.tasks
    ensures var t, u := s.tasks[id].task, TickAll(s, now, rs).tasks[id].task;
            if t.timeout.Some? && t.timeout.value <= now
            then u == t.(engine := if id in rs then rs[id].engine else Engine([], 0), timeout := None, fed := t.fed + [TimeoutDue(now)])
            else u == t
  {}

  /** Draining hands nothing to an engine. */
  lemma {:induction false} DrainHandsNothing(id: TaskId, l: Local, now: Time)
    ensures Drain(id, l, now).1.box.task.fed == l.box.task.fed
    decreases Work(l.box.task)
  {
    var (out, u) := TakeAction(id, l, now);
    PopHandsNothing(l.box.task, now);
    assert u.box.task == PopAction(l.box.task, now).1;
    DrainEquation(id, l, now);
    if out.None? {
    } else {
      DrainHandsNothing(id, u, now);
    }
  }

  lemma DrainTableHands(s: Tables, x: TaskId, now: Time, id: TaskId)
    requires x in s.tasks && id in s.tasks
    ensures var m := DrainTable(s, x, now).tables.tasks;
            && m.Keys == s.tasks.Keys && m[id].task.fed == s.tasks[id].task.fed && (x != id ==> m[id] == s.tasks[id])
  {
    DrainHandsNothing(x, LocalOf(s, x), now);
  }

  lemma {:induction false} HttpAllHands(s: Tables, reqs: seq<Request>, id: TaskId)
    requires id in s.tasks && id < s.seed
    ensures var t := HttpAll(s, reqs).tables; id in t.tasks && t.tasks[id] == s.tasks[id] && s.seed <= t.seed
  {
    if reqs == [] {
    } else {
      HttpAllHands(s, reqs[..|reqs| - 1], id);
    }
  }

  lemma {:induction false} PopAllHands(s: Tables, order: seq<TaskId>, now: Time, id: TaskId)
    requires id in s.tasks
    ensures var m := PopAll(s, order, now).tables.tasks; id in m && m[id].task.fed == s.tasks[id].task.fed
  {
    if order == [] {
    } else {
      var init, x := order[..|order| - 1], order[|order| - 1];
      PopAllHands(s, init, now, id);
      var t := PopAll(s, init, now).tables;
      if x in t.tasks { DrainTableHands(t, x, now, id); }
    }
  }

  /**
   * What a cycle hands to the engine of a task that was there before: the bus events for it, in log
   * order, and then the deadline, if it still has one after them and it has come.
   */
  lemma CycleHands(s: Tables, roles: map<TaskId, Role>, env: Env, id: TaskId)
    requires Inv(s, roles) && BeforeRemoval(s, env).Some? && id in s.tasks
    ensures id in BeforeRemoval(s, env).value.tables.tasks
    ensures var t := DoAll(s.tasks[id].task, BusInputs(s, env.evs, env.rss, id)).task;
            BeforeRemoval(s, env).value.tables.tasks[id].task.fed ==
              t.fed + if t.timeout.Some? && t.timeout.value <= env.tickAt then [TimeoutDue(env.tickAt)] else []
  {
    var s1 := BusAll(s, env.evs, env.rss).value;
    BusAllEffect(s, env.evs, env.rss, id);
    HttpAllHands(s1, env.reqs, id);
    var s2 := HttpAll(s1, env.reqs).tables;
    TickAllEffect(s2, env.tickAt, env.ticks, id);
    PopAllHands(TickAll(s2, env.tickAt, env.ticks), env.order, env.popAt, id);
  }
}
