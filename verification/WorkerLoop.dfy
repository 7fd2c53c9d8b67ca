/** The worker: its tables as fields, its phases as loops that update them in place. */
module WorkerLoop {
  import opened Seqs
  import opened Net
  import opened Tasks
  import opened Routing
  import opened RoutingSafety
  import opened Cycle
  import opened Replies
  import opened Deliveries

  /** The broadcast log all workers share. */
  class Bus {
    var log: seq<BusEvent>

    constructor ()
      ensures log == []
    {
      log := [];
    }
  }

  /** A socket as its worker meets it: `free` says at which calls it has a slot for a packet. */
  class Socket {
    const free: Slots
    /** The calls made, oldest first. */
    var calls: seq<SocketCall>

    constructor (free: Slots)
      ensures this.free == free && calls == []
    {
      this.free := free;
      calls := [];
    }

    /** False is the panic of copying a packet into a free slot that is too short for it. */
    method AddSend(packet: Packet) returns (ok: bool)
      modifies this
      ensures ok <==> SendsFit([AddSendTo(packet)], |old(calls)|, free)
      ensures ok ==> calls == old(calls) + [AddSendTo(packet)]
    {
      if |packet.payload| > MAX_PAYLOAD && free(|calls|) {
        assert Overlong([AddSendTo(packet)][0]);
        return false;
      }
      calls := calls + [AddSendTo(packet)];
      return true;
    }
  }

  /** What leaves the worker: to the bus, to the socket, to the controller. */
  datatype Outbox = Outbox(log: seq<BusEvent>, calls: seq<SocketCall>, replies: seq<(nat, nat)>)

  function SendAll(o: Outbox, outs: seq<TaskOutput>): Outbox {
    Outbox(o.log + Collect(ToBus, outs), o.calls + Collect(ToCall, outs), o.replies + Collect(ToReply, outs))
  }

  lemma SendAllConcat(o: Outbox, a: seq<TaskOutput>, b: seq<TaskOutput>)
    ensures SendAll(SendAll(o, a), b) == SendAll(o, a + b)
  {
    CollectConcat(ToBus, a, b);
    CollectConcat(ToCall, a, b);
    CollectConcat(ToReply, a, b);
  }

  lemma SendOne(o: Outbox, out: TaskOutput)
    ensures SendAll(o, [out]) == Outbox(o.log + OptionToSeq(ToBus(out)), o.calls + OptionToSeq(ToCall(out)), o.replies + OptionToSeq(ToReply(out)))
  {
    CollectAppend(ToBus, [], out);
    CollectAppend(ToCall, [], out);
    CollectAppend(ToReply, [], out);
    assert [] + [out] == [out];
  }

  lemma SendNone(o: Outbox)
    ensures SendAll(o, []) == o
  {}

  /** The socket takes, or refuses without a panic, everything these actions send. */
  ghost predicate Sendable(o: Outbox, outs: seq<TaskOutput>, free: Slots) {
    Fits(outs, |o.calls|, free)
  }

  lemma SendableConcat(o: Outbox, a: seq<TaskOutput>, b: seq<TaskOutput>, free: Slots)
    ensures Sendable(o, a + b, free) <==> Sendable(o, a, free) && Sendable(SendAll(o, a), b, free)
  {
    FitsConcat(a, b, |o.calls|, free);
  }

  lemma SendableOne(o: Outbox, out: TaskOutput, free: Slots)
    ensures Sendable(o, [out], free) <==> SendsFit(OptionToSeq(ToCall(out)), |o.calls|, free)
  {
    CollectAppend(ToCall, [], out);
    assert [] + [out] == [out];
    assert Collect(ToCall, [out]) == [] + OptionToSeq(ToCall(out)) == OptionToSeq(ToCall(out));
  }

  lemma Regroup(whole: (seq<TaskOutput>, Local), done: seq<TaskOutput>, rest: (seq<TaskOutput>, Local), out: TaskOutput, more: (seq<TaskOutput>, Local))
    requires whole == (done + rest.0, rest.1) && rest == ([out] + more.0, more.1)
    ensures whole == (done + [out] + more.0, more.1)
  {
    assert done + ([out] + more.0) == done + [out] + more.0;
  }

  /** A loop turn of `pop_task`: what is done so far followed by the rest is the whole drain. */
  lemma DrainTurn(id: TaskId, start: Local, done: seq<TaskOutput>, l: Local, now: Time, out: Option<TaskOutput>, u: Local)
    requires var rest := Drain(id, l, now); Drain(id, start, now) == (done + rest.0, rest.1)
    requires TakeAction(id, l, now) == (out, u)
    ensures out.None? ==> Drain(id, start, now) == (done, u)
    ensures out.Some? ==>
              && Work(u.box.task) < Work(l.box.task)
              && (var rest := Drain(id, u, now); Drain(id, start, now) == (done + [out.value] + rest.0, rest.1))
  {
    DrainEquation(id, l, now);
    if out.Some? {
      Regroup(Drain(id, start, now), done, Drain(id, l, now), out.value, Drain(id, u, now));
    } else {
      assert done + [] == done;
    }
  }

  class Worker {
    const bus: Bus
    const socket: Socket
    const localAddr: SocketAddr
    var busCursor: nat
    var taskIdSeed: nat
    var busChannels: map<TrackId, Channel>
    var tasks: map<TaskId, Container>
    var taskRemotes: map<SocketAddr, TaskId>
    var taskUfrags: map<string, TaskId>
    var endedTasks: seq<TaskId>
    /** Responses given to the controller, oldest first. */
    var extSends: seq<(nat, nat)>

    ghost function View(): Tables
      reads this
    {
      Tables(taskIdSeed, busChannels, tasks, taskRemotes, taskUfrags, endedTasks)
    }

    ghost function Out(): Outbox
      reads this, bus, socket
    {
      Outbox(bus.log, socket.calls, extSends)
    }

    constructor (bus: Bus, socket: Socket, localAddr: SocketAddr)
      ensures View() == EMPTY && this.bus == bus && this.socket == socket && this.localAddr == localAddr
      ensures busCursor == |bus.log| && extSends == []
    {
      this.bus, this.socket, this.localAddr := bus, socket, localAddr;
      busCursor := |bus.log|;
      taskIdSeed, busChannels, tasks, taskRemotes, taskUfrags, endedTasks := 0, map[], map[], map[], map[], [];
      extSends := [];
    }

    /** Performs one action of the task in `box`; false if the socket panics. */
    method HandleAction(taskId: TaskId, box: Container, action: TaskOutput) returns (ok: bool, box': Container)
      modifies this`busChannels, this`endedTasks, this`extSends, bus, socket
      ensures ok <==> Sendable(old(Out()), [action], socket.free)
      ensures ok ==> Perform(taskId, Local(old(busChannels), old(endedTasks), box), action) == Local(busChannels, endedTasks, box')
      ensures ok ==> Out() == SendAll(old(Out()), [action])
      ensures ok && action.UdpSocketSend? ==> socket.calls == old(socket.calls) + [AddSendTo(Packet(action.buf, action.to))]
      ensures ok && !action.UdpSocketSend? ==> socket.calls == old(socket.calls)
    {
      SendOne(Out(), action);
      SendableOne(Out(), action, socket.free);
      ok, box' := true, box;
      match action {
        case UdpSocketSend(_, to, buf) => ok := socket.AddSend(Packet(buf, to));
        case HttpReply(reqId, status) => extSends := extSends + [(reqId, status)];
        case Media(media) => bus.log := bus.log + [MediaEvent(media)];
        case RequestKeyframe(trackId, kind) => bus.log := bus.log + [KeyframeEvent(trackId, kind)];
        case TaskEnded => endedTasks := endedTasks + [taskId];
        case PublishTrack(trackId) =>
          var channel := if trackId in busChannels then busChannels[trackId] else Channel([], []);
          busChannels := busChannels[trackId := channel.(sources := channel.sources + [taskId])];
          box' := box.(pubs := box.pubs + [trackId]);
        case SubscribeTrack(trackId) =>
          var channel := if trackId in busChannels then busChannels[trackId] else Channel([], []);
          busChannels := busChannels[trackId := channel.(consumers := channel.consumers + [taskId])];
          box' := box.(subs := box.subs + [trackId]);
      }
    }

    /** Takes actions from a task until it has none; false if the socket panics. `outs` is what the whole drain performs. */
    method PopTask(now: Time, taskId: TaskId, box: Container) returns (ok: bool, box': Container, ghost outs: seq<TaskOutput>)
      modifies this`busChannels, this`endedTasks, this`extSends, bus, socket
      ensures outs == Drain(taskId, Local(old(busChannels), old(endedTasks), box), now).0
      ensures ok <==> Sendable(old(Out()), outs, socket.free)
      ensures ok ==> Drain(taskId, Local(old(busChannels), old(endedTasks), box), now).1 == Local(busChannels, endedTasks, box')
      ensures ok ==> Out() == SendAll(old(Out()), outs)
    {
      ghost var start, out0 := Local(busChannels, endedTasks, box), Out();
      ok, box', outs := true, box, [];
      SendNone(out0);
      ghost var l := start;
      assert [] + Drain(taskId, start, now).0 == Drain(taskId, start, now).0;
      while true
        invariant ok && l == Local(busChannels, endedTasks, box')
        invariant Out() == SendAll(out0, outs) && Sendable(out0, outs, socket.free)
        invariant var rest := Drain(taskId, l, now); Drain(taskId, start, now) == (outs + rest.0, rest.1)
        decreases Work(box'.task)
      {
        var (action, task) := PopAction(box'.task, now);
        box' := box'.(task := task);
        DrainTurn(taskId, start, outs, l, now, action, TakeAction(taskId, l, now).1);
        if action.None? {
          break;
        }
        SendableConcat(out0, outs, [action.value], socket.free);
        ok, box' := HandleAction(taskId, box', action.value);
        if !ok {
          SendableConcat(out0, outs + [action.value], Drain(taskId, TakeAction(taskId, l, now).1, now).0, socket.free);
          outs := Drain(taskId, start, now).0;
          return;
        }
        SendAllConcat(out0, outs, [action.value]);
        outs := outs + [action.value];
        l := Local(busChannels, endedTasks, box');
      }
    }

    /**
     * Answers one request: a new task, drained before it enters the table, or a 404; false if the
     * task cannot be built or the socket panics.
     */
    method HandleRequest(req: Request) returns (ok: bool, ghost outs: seq<TaskOutput>)
      modifies this, bus, socket
      ensures outs == HttpOne(old(View()), req).outs
      ensures ok <==> Builds(req) && Sendable(old(Out()), outs, socket.free)
      ensures ok ==> HttpOne(old(View()), req) == Phase(outs, View())
      ensures ok ==> Out() == SendAll(old(Out()), outs) && busCursor == old(busCursor)
    {
      outs := HttpOne(View(), req).outs;
      if req.path == WHIP_PATH || req.path == WHEP_PATH {
        var taskId := taskIdSeed;
        taskIdSeed := taskIdSeed + 1;
        if !req.builds {
          return false, outs;
        }
        var role := if req.path == WHIP_PATH then Whip else Whep;
        var task := NewTask(role, req.reqId, req.ufrag, req.engine, req.audio, req.video);
        taskUfrags := taskUfrags[task.ufrag := taskId];
        ghost var s0 := old(View());
        var box := Container(task, [], [], []);
        ok, box, outs := PopTask(req.at, taskId, box);
        tasks := tasks[taskId := box];
        HttpDrains(s0, req, role);
      } else {
        SendOne(Out(), HttpReply(req.reqId, 404));
        SendableOne(Out(), HttpReply(req.reqId, 404), socket.free);
        extSends := extSends + [(req.reqId, 404)];
        ok := true;
      }
    }

    /** Answers every request; false if some task cannot be built or the socket panics. */
    method ProcessHttp(reqs: seq<Request>) returns (ok: bool, ghost outs: seq<TaskOutput>)
      modifies this, bus, socket
      ensures outs == HttpAll(old(View()), reqs).outs
      ensures ok <==> AllBuild(reqs) && Sendable(old(Out()), outs, socket.free)
      ensures ok ==> HttpAll(old(View()), reqs) == Phase(outs, View())
      ensures ok ==> Out() == SendAll(old(Out()), outs) && busCursor == old(busCursor)
    {
      ghost var s0, out0, cursor := View(), Out(), busCursor;
      outs := [];
      SendNone(out0);
      for i := 0 to |reqs|
        invariant HttpTold(s0, reqs, i, Phase(outs, View()))
        invariant Out() == SendAll(out0, outs) && Sendable(out0, outs, socket.free) && busCursor == cursor
      {
        ghost var before := Phase(outs, View());
        ghost var more;
        ok, more := HandleRequest(reqs[i]);
        SendableConcat(out0, outs, more, socket.free);
        if !ok {
          HttpStops(s0, reqs, i, before, out0, socket.free);
          return false, HttpAll(s0, reqs).outs;
        }
        HttpMore(s0, reqs, i, before, Phase(more, View()));
        SendAllConcat(out0, outs, more);
        outs := outs + more;
      }
      HttpWhole(s0, reqs, Phase(outs, View()));
      return true, outs;
    }

    /** Gives an input to a task of the table; false if the task panics. */
    method GiveInput(id: TaskId, e: TaskInput, r: Reaction) returns (ok: bool)
      modifies this`tasks
      ensures match GiveTo(old(tasks), id, e, r) case Panicked => !ok case Delivered(m, _) => ok && tasks == m
    {
      if id in tasks {
        match Input(tasks[id].task, e, r) {
          case Panic => return false;
          case Handled(t) => tasks := tasks[id := tasks[id].(task := t)];
        }
      }
      return true;
    }

    /** Gives an event to every listed task that is still there. */
    method DeliverTo(ids: seq<TaskId>, e: TaskInput, rs: seq<Reaction>) returns (ok: bool)
      modifies this`tasks
      ensures match Deliver(old(tasks), ids, e, rs) case Panicked => !ok case Delivered(m, _) => ok && tasks == m
      ensures ok ==> tasks.Keys == old(tasks).Keys
      ensures ok ==> forall id :: id in tasks ==> tasks[id] == old(tasks)[id].(task := DoAll(old(tasks)[id].task, Inputs(ids, e, rs, id)).task)
    {
      for i := 0 to |ids|
        invariant Deliver(old(tasks), ids[..i], e, rs).Delivered? && Deliver(old(tasks), ids[..i], e, rs).tasks == tasks
      {
        assert ids[..i + 1][..i] == ids[..i];
        var given := GiveInput(ids[i], e, At(rs, i));
        if !given {
          PanicSpreads(old(tasks), ids, i + 1, e, rs);
          return false;
        }
      }
      assert ids[..|ids|] == ids;
      DeliverAllEffect(old(tasks), ids, e, rs);
      return true;
    }

    /** The consumers of a media event, the sources of a keyframe request. */
    method FindReceivers(event: BusEvent) returns (ids: seq<TaskId>)
      ensures ids == Receivers(View(), event)
    {
      ids := [];
      match event {
        case MediaEvent(media) =>
          if media.trackId in busChannels { ids := busChannels[media.trackId].consumers; }
        case KeyframeEvent(trackId, _) =>
          if trackId in busChannels { ids := busChannels[trackId].sources; }
      }
    }

    /** Reads everything on the bus past the cursor. */
    method ProcessBusRecv(rss: seq<seq<Reaction>>) returns (ok: bool)
      requires busCursor <= |bus.log|
      modifies this`tasks, this`busCursor
      ensures match BusAll(old(View()), bus.log[old(busCursor)..], rss)
              case None => !ok
              case Some(t) => ok && View() == t && busCursor == |bus.log|
      ensures ok ==> Given(old(View()), bus.log[old(busCursor)..], rss, tasks)
    {
      ghost var evs, s0 := bus.log[busCursor..], View();
      var first := busCursor;
      assert evs[..0] == [];
      while busCursor < |bus.log|
        invariant first <= busCursor <= |bus.log|
        invariant BusTold(s0, evs, rss, busCursor - first, View())
      {
        var event := bus.log[busCursor];
        var n := busCursor - first;
        BusMore(s0, evs, n, rss, View());
        busCursor := busCursor + 1;
        var ids := FindReceivers(event);
        var given := DeliverTo(ids, AsInput(event), Reactions(rss, n));
        if !given {
          return false;
        }
      }
      BusWhole(s0, evs, rss, View());
      return true;
    }

    /** Ticks every task, in whatever order the table yields them. */
    method ProcessTick(now: Time, rs: map<TaskId, Reaction>)
      modifies this`tasks
      ensures View() == TickAll(old(View()), now, rs)
    {
      var todo := tasks.Keys;
      while todo != {}
        invariant todo <= old(tasks).Keys == tasks.Keys
        invariant forall id :: id in tasks ==>
                    tasks[id] == if id in todo then old(tasks)[id] else TickAll(old(View()), now, rs).tasks[id]
        decreases todo
      {
        var id :| id in todo;
        tasks := tasks[id := tasks[id].(task := Tick(tasks[id].task, now, ReactionOf(rs, id)))];
        todo := todo - {id};
      }
      assert tasks == TickAll(old(View()), now, rs).tasks;
    }

    /** Drains one task of the table; false if the socket panics. */
    method PopTaskOf(id: TaskId, now: Time) returns (ok: bool, ghost outs: seq<TaskOutput>)
      requires id in tasks
      modifies this, bus, socket
      ensures outs == DrainTable(old(View()), id, now).outs
      ensures ok <==> Sendable(old(Out()), outs, socket.free)
      ensures ok ==> DrainTable(old(View()), id, now) == Phase(outs, View())
      ensures ok ==> Out() == SendAll(old(Out()), outs) && busCursor == old(busCursor)
    {
      var box;
      ok, box, outs := PopTask(now, id, tasks[id]);
      tasks := tasks[id := box];
    }

    /** Drains every task once, in whatever order the table yields them; false if the socket panics on the last one of `order`. */
    method PopTasks(now: Time) returns (ok: bool, ghost order: seq<TaskId>, ghost outs: seq<TaskOutput>)
      modifies this, bus, socket
      ensures Distinct(order) && (forall id :: id in order ==> id in old(tasks)) && (ok ==> forall id :: id in old(tasks) ==> id in order)
      ensures outs == PopAll(old(View()), order, now).outs
      ensures ok <==> Sendable(old(Out()), outs, socket.free)
      ensures ok ==> PopAll(old(View()), order, now) == Phase(outs, View())
      ensures ok ==> Out() == SendAll(old(Out()), outs) && busCursor == old(busCursor)
    {
      ghost var s0, out0, cursor := View(), Out(), busCursor;
      order, outs := [], [];
      SendNone(out0);
      var todo := tasks.Keys;
      while todo != {}
        invariant tasks.Keys == old(tasks).Keys && todo <= tasks.Keys
        invariant Distinct(order) && (forall id :: id in order <==> id in old(tasks) && id !in todo)
        invariant PopAll(s0, order, now) == Phase(outs, View())
        invariant Out() == SendAll(out0, outs) && Sendable(out0, outs, socket.free) && busCursor == cursor
        decreases todo
      {
        var id :| id in todo;
        ghost var more;
        ok, more := PopTaskOf(id, now);
        SendableConcat(out0, outs, more, socket.free);
        assert (order + [id])[..|order|] == order;
        order, outs := order + [id], outs + more;
        if !ok {
          return;
        }
        SendAllConcat(out0, outs[..|outs| - |more|], more);
        assert outs[..|outs| - |more|] + more == outs;
        todo := todo - {id};
      }
      ok := true;
    }

    /** Finds the task a datagram is for, binding a new address to the task whose ufrag it names; false when decoding fails. */
    method FindTask(d: Datagram) returns (ok: bool, to: Option<TaskId>)
      modifies this`taskRemotes, this`tasks
      ensures ok <==> d.remote in old(taskRemotes) || !d.stun.NotStun?
      ensures ok ==> Bind(old(View()), d) == (to, View())
    {
      if d.remote in taskRemotes {
        var taskId := taskRemotes[d.remote];
        return true, if taskId in tasks then Some(taskId) else None;
      }
      if d.stun.NotStun? {
        return false, None;
      }
      if d.stun.Naming? && d.stun.ufrag in taskUfrags {
        var taskId := taskUfrags[d.stun.ufrag];
        taskRemotes := taskRemotes[d.remote := taskId];
        if taskId in tasks {
          tasks := tasks[taskId := tasks[taskId].(remotes := tasks[taskId].remotes + [d.remote])];
          return true, Some(taskId);
        }
      }
      return true, None;
    }

    /** Hands one datagram to its task and drains the task at once; false if decoding, the task or the socket panics. */
    method HandleDatagram(d: Datagram) returns (ok: bool, ghost outs: seq<TaskOutput>)
      modifies this, bus, socket
      ensures match UdpOne(old(View()), d, localAddr)
              case None => !ok
              case Some(p) => outs == p.outs && (ok <==> Sendable(old(Out()), outs, socket.free)) && (ok ==> p == Phase(outs, View()))
      ensures ok ==> Out() == SendAll(old(Out()), outs) && busCursor == old(busCursor)
    {
      ok, outs := true, [];
      SendNone(Out());
      var found, to := FindTask(d);
      if !found {
        return false, [];
      }
      if to.Some? {
        var given := GiveInput(to.value, UdpSocketRecv(d.remote, localAddr, d.buf), d.reaction);
        if !given {
          return false, [];
        }
        if to.value in tasks {
          ok, outs := PopTaskOf(to.value, d.at);
        }
      }
    }

    /** Reads every datagram; false if decoding, a task or the socket panics. */
    method ProcessUdp(ds: seq<Datagram>) returns (ok: bool, ghost outs: seq<TaskOutput>)
      modifies this, bus, socket
      ensures match UdpAll(old(View()), ds, localAddr)
              case None => !ok
              case Some(p) => outs == p.outs && (ok <==> Sendable(old(Out()), outs, socket.free)) && (ok ==> p == Phase(outs, View()))
      ensures ok ==> Out() == SendAll(old(Out()), outs) && busCursor == old(busCursor)
    {
      ghost var s0, out0, cursor := View(), Out(), busCursor;
      outs := [];
      SendNone(out0);
      for i := 0 to |ds|
        invariant UdpAll(s0, ds[..i], localAddr) == Some(Phase(outs, View()))
        invariant Out() == SendAll(out0, outs) && Sendable(out0, outs, socket.free) && busCursor == cursor
      {
        ghost var before := Phase(outs, View());
        ghost var more;
        ok, more := HandleDatagram(ds[i]);
        UdpMore(s0, ds, i, before, localAddr);
        SendableConcat(out0, outs, more, socket.free);
        if !ok {
          UdpStops(s0, ds, i, before, localAddr, out0, socket.free);
          return false, if UdpAll(s0, ds, localAddr).Some? then UdpAll(s0, ds, localAddr).value.outs else [];
        }
        SendAllConcat(out0, outs, more);
        outs := outs + more;
      }
      assert ds[..|ds|] == ds;
      return true, outs;
    }

    /** Filters the consumers of the given tracks and drops entries that became empty. */
    method CleanChannels(tracks: seq<TrackId>, taskId: TaskId)
      modifies this`busChannels
      ensures busChannels == CleanTracks(old(busChannels), tracks, taskId)
    {
      for i := 0 to |tracks|
        invariant busChannels == CleanTracks(old(busChannels), tracks[..i], taskId)
      {
        assert tracks[..i + 1][..i] == tracks[..i];
        var trackId := tracks[i];
        if trackId in busChannels {
          var channel := busChannels[trackId];
          var consumers := Without(channel.consumers, taskId);
          busChannels := busChannels[trackId := channel.(consumers := consumers)];
          if consumers == [] && channel.sources == [] {
            busChannels := busChannels - {trackId};
            assert busChannels == CleanTracks(old(busChannels), tracks[..i], taskId) - {trackId};
          }
        }
      }
      assert tracks[..|tracks|] == tracks;
    }

    /** Removes one ended task; false is the failed `expect`. */
    method RemoveTask(taskId: TaskId) returns (ok: bool)
      modifies this`tasks, this`taskRemotes, this`taskUfrags, this`busChannels
      ensures match Remove(old(View()), taskId) case None => !ok case Some(t) => ok && View() == t
    {
      if taskId !in tasks {
        return false;
      }
      var box := tasks[taskId];
      tasks := tasks - {taskId};
      for i := 0 to |box.remotes|
        invariant taskRemotes == DropRemotes(old(taskRemotes), box.remotes[..i])
        invariant tasks == old(tasks) - {taskId} && taskUfrags == old(taskUfrags) && busChannels == old(busChannels)
      {
        assert box.remotes[..i + 1][..i] == box.remotes[..i];
        taskRemotes := taskRemotes - {box.remotes[i]};
      }
      assert box.remotes[..|box.remotes|] == box.remotes;
      taskUfrags := taskUfrags - {box.task.ufrag};
      CleanChannels(box.subs, taskId);
      CleanChannels(box.pubs, taskId);
      return true;
    }

    method PopEndedTasks() returns (ok: bool)
      modifies this`tasks, this`taskRemotes, this`taskUfrags, this`busChannels, this`endedTasks
      ensures match PopEnded(old(View())) case None => !ok case Some(t) => ok && View() == t
    {
      var drained := endedTasks;
      endedTasks := [];
      ghost var s := View();
      for i := 0 to |drained|
        invariant RemoveAll(s, drained[..i]) == Some(View())
      {
        assert drained[..i + 1][..i] == drained[..i];
        var removed := RemoveTask(drained[i]);
        if !removed {
          RemovalCrashSpreads(s, drained, i + 1);
          return false;
        }
      }
      assert drained[..|drained|] == drained;
      return true;
    }

    /**
     * One cycle; false when the worker crashes, in a phase or in a call on its socket. The clock is
     * read where the source reads it: the requests and the datagrams carry their times. At the end
     * the socket is told to send what waits and to take its buffers back, which may fail.
     */
    method ProcessCycle(rss: seq<seq<Reaction>>, reqs: seq<Request>, tickAt: Time, ticks: map<TaskId, Reaction>, popAt: Time, ds: seq<Datagram>, finish: bool)
      returns (ok: bool, ghost order: seq<TaskId>, ghost outs: seq<TaskOutput>)
      requires busCursor <= |bus.log|
      modifies this, bus, socket
      ensures var env := Env(old(bus.log[busCursor..]), rss, reqs, tickAt, ticks, popAt, order, ds, localAddr, |old(socket.calls)|, socket.free, finish);
              match RunCycle(old(View()), env) case None => !ok case Some(p) => ok && p == Phase(outs, View())
      ensures ok ==> WholeTable(old(View()), old(bus.log[busCursor..]), rss, reqs, order)
      ensures ok ==> busCursor == |old(bus.log)| && bus.log == old(bus.log) + Collect(ToBus, outs)
      ensures ok ==> socket.calls == old(socket.calls) + Collect(ToCall, outs) + [CommitSendTo, FinishReadFrom]
      ensures ok && NoReplyQueued(old(View())) ==> extSends == old(extSends) + Answers(reqs)
    {
      ghost var s0, out0 := View(), Out();
      ghost var evs := bus.log[busCursor..];
      ok, order, outs := ProcessBeforeRemoval(rss, reqs, tickAt, ticks, popAt);
      ghost var env := Env(evs, rss, reqs, tickAt, ticks, popAt, order, ds, localAddr, |out0.calls|, socket.free, finish);
      ghost var p := Phase(outs, View());
      if !ok {
        StopsBeforeRemoval(s0, env, out0);
        return;
      }
      ok := PopEndedTasks();
      if !ok { return; }
      ghost var s5 := View();
      ghost var more;
      ok, more := ProcessUdp(ds);
      CycleIs(s0, env, p, s5);
      SendableConcat(out0, outs, more, socket.free);
      if !ok { return; }
      SendAllConcat(out0, outs, more);
      outs := outs + more;
      if NoReplyQueued(s0) { CycleReplies(s0, env); }
      ok := Flush(finish);
    }

    /** The bus, the requests, the ticks and the pops of a cycle. */
    method ProcessBeforeRemoval(rss: seq<seq<Reaction>>, reqs: seq<Request>, tickAt: Time, ticks: map<TaskId, Reaction>, popAt: Time)
      returns (ok: bool, ghost order: seq<TaskId>, ghost outs: seq<TaskOutput>)
      requires busCursor <= |bus.log|
      modifies this, bus, socket
      ensures forall env: Env | EnvIs(env, old(bus.log[busCursor..]), rss, reqs, tickAt, ticks, popAt, order) ::
                match BeforeRemoval(old(View()), env)
                case None => !ok
                case Some(p) => (ok <==> Sendable(old(Out()), p.outs, socket.free)) && (ok ==> p == Phase(outs, View()))
      ensures ok ==> busCursor == |old(bus.log)| && Out() == SendAll(old(Out()), outs)
      ensures ok ==> WholeTable(old(View()), old(bus.log[busCursor..]), rss, reqs, order)
    {
      ghost var s0, out0 := View(), Out();
      ghost var evs := bus.log[busCursor..];
      order, outs := [], [];
      ok := ProcessBusRecv(rss);
      if !ok { return; }
      ghost var s1 := View();
      ghost var o2;
      ok, o2 := ProcessHttp(reqs);
      if !ok {
        forall env: Env | EnvIs(env, evs, rss, reqs, tickAt, ticks, popAt, order) && BeforeRemoval(s0, env).Some?
          ensures !Sendable(out0, BeforeRemoval(s0, env).value.outs, socket.free)
        {
          BeforeRemovalOuts(s0, env, s1);
          SendableConcat(out0, o2, PopAll(TickAll(HttpAll(s1, reqs).tables, tickAt, ticks), order, popAt).outs, socket.free);
        }
        return;
      }
      ghost var s2 := View();
      ProcessTick(tickAt, ticks);
      ghost var o4;
      ok, order, o4 := PopTasks(popAt);
      SendAllConcat(out0, o2, o4);
      SendableConcat(out0, o2, o4, socket.free);
      forall env: Env | EnvIs(env, evs, rss, reqs, tickAt, ticks, popAt, order)
        ensures BeforeRemoval(s0, env).Some? && BeforeRemoval(s0, env).value.outs == o2 + o4
        ensures ok ==> BeforeRemoval(s0, env).value.tables == View()
      {
        BeforeRemovalOuts(s0, env, s1);
      }
      outs := o2 + o4;
    }

    /** `commit_send_to`, whose failure is logged, and `finish_read_from`, whose failure is the end. */
    method Flush(finish: bool) returns (ok: bool)
      modifies socket
      ensures ok <==> finish
      ensures socket.calls == old(socket.calls) + [CommitSendTo, FinishReadFrom]
    {
      socket.calls := socket.calls + [CommitSendTo];
      socket.calls := socket.calls + [FinishReadFrom];
      return finish;
    }
  }

  /** The part of a cycle's environment that matters before the removal. */
  ghost predicate EnvIs(env: Env, evs: seq<BusEvent>, rss: seq<seq<Reaction>>, reqs: seq<Request>, tickAt: Time, ticks: map<TaskId, Reaction>,
                        popAt: Time, order: seq<TaskId>) {
    && env.evs == evs && env.rss == rss && env.reqs == reqs && env.tickAt == tickAt && env.ticks == ticks
    && env.popAt == popAt && env.order == order
  }

  lemma HttpDrains(s: Tables, req: Request, role: Role)
    requires RoleFor(req.path) == Some(role)
    ensures var task := NewTask(role, req.reqId, req.ufrag, req.engine, req.audio, req.video);
            var (outs, l) := Drain(s.seed, Local(s.chans, s.ended, Container(task, [], [], [])), req.at);
            HttpOne(s, req) ==
              Phase(outs, Tables(s.seed + 1, l.chans, s.tasks[s.seed := l.box], s.remotes, s.ufrags[task.ufrag := s.seed], l.ended))
  {}

  /** Each task there is after the requests, once. */
  ghost predicate WholeTable(s: Tables, evs: seq<BusEvent>, rss: seq<seq<Reaction>>, reqs: seq<Request>, order: seq<TaskId>) {
    && Distinct(order)
    && BusAll(s, evs, rss).Some?
    && forall id :: id in order <==> id in HttpAll(BusAll(s, evs, rss).value, reqs).tables.tasks
  }

  lemma BeforeRemovalOuts(s: Tables, env: Env, s1: Tables)
    requires BusAll(s, env.evs, env.rss) == Some(s1)
    ensures BeforeRemoval(s, env).Some? <==> AllBuild(env.reqs)
    ensures BeforeRemoval(s, env).Some? ==>
              var p2 := HttpAll(s1, env.reqs);
              var p4 := PopAll(TickAll(p2.tables, env.tickAt, env.ticks), env.order, env.popAt);
              BeforeRemoval(s, env).value == Phase(p2.outs + p4.outs, p4.tables)
  {}

  /** A cycle that already stopped before the removal is a crash. */
  lemma StopsBeforeRemoval(s: Tables, env: Env, o: Outbox)
    requires |o.calls| == env.made
    requires BeforeRemoval(s, env).Some? ==> !Sendable(o, BeforeRemoval(s, env).value.outs, env.free)
    ensures RunCycle(s, env).None?
  {
    if Phases(s, env).Some? {
      var p := BeforeRemoval(s, env).value;
      var q := UdpAll(PopEnded(p.tables).value, env.ds, env.local).value;
      FitsConcat(p.outs, q.outs, env.made, env.free);
    }
  }

  /** The first `n` requests could be answered, with this result. */
  ghost predicate HttpTold(s: Tables, reqs: seq<Request>, n: nat, p: Phase) {
    n <= |reqs| && AllBuild(reqs[..n]) && HttpAll(s, reqs[..n]) == p
  }

  lemma HttpMore(s: Tables, reqs: seq<Request>, n: nat, p: Phase, q: Phase)
    requires n < |reqs| && HttpTold(s, reqs, n, p) && Builds(reqs[n]) && HttpOne(p.tables, reqs[n]) == q
    ensures HttpTold(s, reqs, n + 1, Phase(p.outs + q.outs, q.tables))
  {
    var longer := reqs[..n + 1];
    assert longer[..n] == reqs[..n] && longer[n] == reqs[n];
    forall j | 0 <= j < n + 1 ensures Builds(longer[j]) {
      if j < n { assert longer[j] == reqs[..n][j]; }
    }
  }

  lemma HttpWhole(s: Tables, reqs: seq<Request>, p: Phase)
    requires HttpTold(s, reqs, |reqs|, p)
    ensures AllBuild(reqs) && HttpAll(s, reqs) == p
  {
    assert reqs[..|reqs|] == reqs;
  }

  /** A request that cannot be answered, or not without a panic of the socket, is the end of the phase. */
  lemma HttpStops(s: Tables, reqs: seq<Request>, n: nat, p: Phase, o: Outbox, free: Slots)
    requires n < |reqs| && HttpTold(s, reqs, n, p)
    requires !Builds(reqs[n]) || !Sendable(o, p.outs + HttpOne(p.tables, reqs[n]).outs, free)
    ensures !AllBuild(reqs) || !Sendable(o, HttpAll(s, reqs).outs, free)
  {
    var q := HttpAll(s, reqs[..n + 1]);
    assert reqs[..n + 1][..n] == reqs[..n];
    var rest := HttpPrefix(s, reqs, n + 1);
    SendableConcat(o, q.outs, rest, free);
  }

  lemma {:induction false} HttpPrefix(s: Tables, reqs: seq<Request>, n: nat) returns (rest: seq<TaskOutput>)
    requires n <= |reqs|
    ensures HttpAll(s, reqs).outs == HttpAll(s, reqs[..n]).outs + rest
    decreases |reqs|
  {
    if n == |reqs| {
      assert reqs[..n] == reqs;
      rest := [];
    } else {
      var init := reqs[..|reqs| - 1];
      assert init[..n] == reqs[..n];
      rest := HttpPrefix(s, init, n);
      rest := rest + HttpOne(HttpAll(s, init).tables, reqs[|reqs| - 1]).outs;
    }
  }

  /** After the first `n` events the tables are `t`. */
  ghost predicate BusTold(s: Tables, evs: seq<BusEvent>, rss: seq<seq<Reaction>>, n: nat, t: Tables) {
    n <= |evs| && BusAll(s, evs[..n], rss) == Some(t)
  }

  lemma BusMore(s: Tables, evs: seq<BusEvent>, n: nat, rss: seq<seq<Reaction>>, t: Tables)
    requires n < |evs| && BusTold(s, evs, rss, n, t)
    ensures match Deliver(t.tasks, Receivers(t, evs[n]), AsInput(evs[n]), Reactions(rss, n))
            case Panicked => BusAll(s, evs, rss).None?
            case Delivered(m, _) => BusTold(s, evs, rss, n + 1, t.(tasks := m))
  {
    assert evs[..n + 1][..n] == evs[..n];
    if BusAll(s, evs[..n + 1], rss).None? { CrashSpreads(s, evs, n + 1, rss); }
  }

  lemma BusWhole(s: Tables, evs: seq<BusEvent>, rss: seq<seq<Reaction>>, t: Tables)
    requires BusTold(s, evs, rss, |evs|, t)
    ensures BusAll(s, evs, rss) == Some(t) && Given(s, evs, rss, t.tasks)
  {
    assert evs[..|evs|] == evs;
    BusPhaseEffect(s, evs, rss);
  }

  lemma UdpMore(s: Tables, ds: seq<Datagram>, n: nat, p: Phase, local: SocketAddr)
    requires n < |ds| && UdpAll(s, ds[..n], local) == Some(p)
    ensures UdpAll(s, ds[..n + 1], local) ==
              match UdpOne(p.tables, ds[n], local) case None => None case Some(q) => Some(Phase(p.outs + q.outs, q.tables))
  {
    assert ds[..n + 1][..n] == ds[..n];
  }

  lemma UdpStops(s: Tables, ds: seq<Datagram>, n: nat, p: Phase, local: SocketAddr, o: Outbox, free: Slots)
    requires n < |ds| && UdpAll(s, ds[..n], local) == Some(p)
    requires UdpAll(s, ds[..n + 1], local).None? || !Sendable(o, UdpAll(s, ds[..n + 1], local).value.outs, free)
    ensures UdpAll(s, ds, local).None? || !Sendable(o, UdpAll(s, ds, local).value.outs, free)
  {
    if UdpAll(s, ds[..n + 1], local).None? {
      UdpCrashSpreads(s, ds, n + 1, local);
    } else if UdpAll(s, ds, local).Some? {
      var rest := UdpPrefix(s, ds, n + 1, local);
      SendableConcat(o, UdpAll(s, ds[..n + 1], local).value.outs, rest, free);
    }
  }

  lemma {:induction false} UdpPrefix(s: Tables, ds: seq<Datagram>, n: nat, local: SocketAddr) returns (rest: seq<TaskOutput>)
    requires n <= |ds| && UdpAll(s, ds, local).Some?
    ensures UdpAll(s, ds[..n], local).Some? && UdpAll(s, ds, local).value.outs == UdpAll(s, ds[..n], local).value.outs + rest
    decreases |ds|
  {
    if n == |ds| {
      assert ds[..n] == ds;
      rest := [];
    } else {
      var init := ds[..|ds| - 1];
      assert init[..n] == ds[..n];
      var last := UdpLast(s, ds, local);
      rest := UdpPrefix(s, init, n, local);
      Regrouped(UdpAll(s, ds, local).value.outs, UdpAll(s, init, local).value.outs, UdpAll(s, ds[..n], local).value.outs, rest, last);
      rest := rest + last;
    }
  }

  lemma UdpLast(s: Tables, ds: seq<Datagram>, local: SocketAddr) returns (last: seq<TaskOutput>)
    requires ds != [] && UdpAll(s, ds, local).Some?
    ensures UdpAll(s, ds[..|ds| - 1], local).Some?
    ensures UdpAll(s, ds, local).value.outs == UdpAll(s, ds[..|ds| - 1], local).value.outs + last
  {
    last := UdpOne(UdpAll(s, ds[..|ds| - 1], local).value.tables, ds[|ds| - 1], local).value.outs;
  }

  lemma Regrouped<T>(whole: seq<T>, init: seq<T>, first: seq<T>, rest: seq<T>, last: seq<T>)
    requires whole == init + last && init == first + rest
    ensures whole == first + (rest + last)
  {}

  lemma DeliverAllEffect(tasks: map<TaskId, Container>, ids: seq<TaskId>, e: TaskInput, rs: seq<Reaction>)
    requires Deliver(tasks, ids, e, rs).Delivered?
    ensures var m := Deliver(tasks, ids, e, rs).tasks;
            && m.Keys == tasks.Keys
            && forall id :: id in tasks ==> m[id] == tasks[id].(task := DoAll(tasks[id].task, Inputs(ids, e, rs, id)).task)
  {
    DeliverKeys(tasks, ids, e, rs);
    var m := Deliver(tasks, ids, e, rs).tasks;
    forall id | id in tasks ensures m[id] == tasks[id].(task := DoAll(tasks[id].task, Inputs(ids, e, rs, id)).task) {
      DeliverEffect(tasks, ids, e, rs, id);
    }
  }

  /** Each task is its old self after the inputs that the bus events mean for it. */
  ghost predicate Given(s: Tables, evs: seq<BusEvent>, rss: seq<seq<Reaction>>, m: map<TaskId, Container>) {
    && m.Keys == s.tasks.Keys
    && forall id :: id in s.tasks ==> m[id] == s.tasks[id].(task := DoAll(s.tasks[id].task, BusInputs(s, evs, rss, id)).task)
  }

  lemma BusPhaseEffect(s: Tables, evs: seq<BusEvent>, rss: seq<seq<Reaction>>)
    requires BusAll(s, evs, rss).Some?
    ensures Given(s, evs, rss, BusAll(s, evs, rss).value.tasks)
  {
    BusAllTaskIds(s, evs, rss);
    var m := BusAll(s, evs, rss).value.tasks;
    forall id | id in s.tasks ensures m[id] == s.tasks[id].(task := DoAll(s.tasks[id].task, BusInputs(s, evs, rss, id)).task) {
      BusAllEffect(s, evs, rss, id);
    }
  }

  // ----- a crash in the middle of a loop is a crash of the whole -----

  lemma {:induction false} PanicSpreads(tasks: map<TaskId, Container>, ids: seq<TaskId>, n: nat, e: TaskInput, rs: seq<Reaction>)
    requires n <= |ids| && Deliver(tasks, ids[..n], e, rs).Panicked?
    ensures Deliver(tasks, ids, e, rs).Panicked?
    decreases |ids|
  {
    if n < |ids| {
      assert ids[..|ids| - 1][..n] == ids[..n];
      PanicSpreads(tasks, ids[..|ids| - 1], n, e, rs);
    } else {
      assert ids[..n] == ids;
    }
  }

  lemma {:induction false} CrashSpreads(s: Tables, evs: seq<BusEvent>, n: nat, rss: seq<seq<Reaction>>)
    requires n <= |evs| && BusAll(s, evs[..n], rss).None?
    ensures BusAll(s, evs, rss).None?
    decreases |evs|
  {
    if n < |evs| {
      assert evs[..|evs| - 1][..n] == evs[..n];
      CrashSpreads(s, evs[..|evs| - 1], n, rss);
    } else {
      assert evs[..n] == evs;
    }
  }

  lemma {:induction false} UdpCrashSpreads(s: Tables, ds: seq<Datagram>, n: nat, local: SocketAddr)
    requires n <= |ds| && UdpAll(s, ds[..n], local).None?
    ensures UdpAll(s, ds, local).None?
    decreases |ds|
  {
    if n < |ds| {
      assert ds[..|ds| - 1][..n] == ds[..n];
      UdpCrashSpreads(s, ds[..|ds| - 1], n, local);
    } else {
      assert ds[..n] == ds;
    }
  }

  lemma {:induction false} RemovalCrashSpreads(s: Tables, ids: seq<TaskId>, n: nat)
    requires n <= |ids| && RemoveAll(s, ids[..n]).None?
    ensures RemoveAll(s, ids).None?
    decreases |ids|
  {
    if n < |ids| {
      assert ids[..|ids| - 1][..n] == ids[..n];
      RemovalCrashSpreads(s, ids[..|ids| - 1], n);
    } else {
      assert ids[..n] == ids;
    }
  }
}
