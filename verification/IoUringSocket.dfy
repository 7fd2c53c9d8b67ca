/** `UdpSocket2IoUring`: the methods of the socket, each proved to be the protocol step it stands for. */
module IoUringSocket {
  import opened Seqs
  import opened Net
  import opened Codec
  import opened IoUring
  import opened IoUringSafety

  /** The whole loop of `poll_completions` when the kernel adds nothing meanwhile. */
  function PollAll(s: World): Outcome
    decreases |s.cq|
  {
    if s.cq == [] then Ok(s)
    else match Poll(s) case Crash => Crash case Ok(t) => PollAll(t)
  }

  lemma {:induction false} PollAllKeeps(cfg: Config, s: World)
    requires Inv(cfg, s)
    ensures PollAll(s).Ok? && Inv(cfg, PollAll(s).world)
    decreases |s.cq|
  {
    if s.cq == [] {
    } else {
      PollKeeps(cfg, s);
      PollAllKeeps(cfg, Poll(s).world);
    }
  }

  /** Polling empties the completion queue into the three lists and touches nothing else. */
  lemma {:induction false} PollAllMoves(s: World)
    requires PollAll(s).Ok?
    ensures var t := PollAll(s).world;
            && t.cq == []
            && t == s.(cq := t.cq, freeSlots := t.freeSlots, waitQueue := t.waitQueue, freeGroups := t.freeGroups)
    decreases |s.cq|
  {
    if s.cq == [] {
    } else {
      PollAllMoves(Poll(s).world);
    }
  }

  lemma {:induction false} PollAllFilled(s: World)
    requires PollAll(s).Ok? && (forall i :: 0 <= i < |s.cq| ==> RecvCqe(s.prepared, s.cq[i]))
    ensures PollAll(s).world.waitQueue == Filled(s)
    decreases |s.cq|
  {
    if s.cq == [] {
      assert Filled(s) == s.waitQueue;
    } else {
      assert RecvCqe(s.prepared, s.cq[0]);
      PollFilled(s, s.prepared);
      PollAllFilled(Poll(s).world);
    }
  }

  /** Freed slots and groups queue up in the order of their completions, behind those that were free. */
  lemma {:induction false} PollAllFrees(s: World)
    requires PollAll(s).Ok?
    ensures PollAll(s).world.freeSlots == s.freeSlots + Collect(FinalSlot, s.cq)
    ensures PollAll(s).world.freeGroups == s.freeGroups + Collect(FinalGroup, s.cq)
    decreases |s.cq|
  {
    if s.cq == [] {
    } else {
      var t, u := Poll(s).world, PollAll(s).world;
      PollAllOn(s);
      PollFrees(s);
      PollAllFrees(t);
      CollectHead(FinalSlot, s.cq);
      CollectHead(FinalGroup, s.cq);
      Chained(s.freeSlots, t.freeSlots, u.freeSlots, OptionToSeq(FinalSlot(s.cq[0])), Collect(FinalSlot, s.cq), Collect(FinalSlot, t.cq));
      Chained(s.freeGroups, t.freeGroups, u.freeGroups, OptionToSeq(FinalGroup(s.cq[0])), Collect(FinalGroup, s.cq), Collect(FinalGroup, t.cq));
    }
  }

  lemma PollAllOn(s: World)
    requires s.cq != [] && PollAll(s).Ok?
    ensures Poll(s).Ok? && PollAll(Poll(s).world) == PollAll(s)
  {}

  lemma PollFrees(s: World)
    requires s.cq != [] && Poll(s).Ok?
    ensures var t := Poll(s).world;
            && t.cq == s.cq[1..]
            && t.freeSlots == s.freeSlots + OptionToSeq(FinalSlot(s.cq[0])) && t.freeGroups == s.freeGroups + OptionToSeq(FinalGroup(s.cq[0]))
  {}

  lemma PollCall(cfg: Config, s: World)
    requires Inv(cfg, s)
    ensures PollAll(s).Ok?
    ensures var t := PollAll(s).world;
            && Inv(cfg, t) && t.waitQueue == s.waitQueue + Collect(DataIndex, s.cq)
            && t == s.(cq := [], waitQueue := t.waitQueue, freeSlots := s.freeSlots + Collect(FinalSlot, s.cq), freeGroups := s.freeGroups + Collect(FinalGroup, s.cq))
  {
    PollAllKeeps(cfg, s);
    PollAllMoves(s);
    PollAllFilled(s);
    PollAllFrees(s);
  }

  /** Polling is a run of single polls, so the kernel may act between any two of them. */
  lemma {:induction false} PollAllRuns(cfg: Config, s: World) returns (steps: seq<Step>)
    requires PollAll(s).Ok?
    ensures Run(cfg, s, steps) == Some(PollAll(s).world)
    ensures forall i :: 0 <= i < |steps| ==> steps[i] == PollOne
    decreases |s.cq|
  {
    if s.cq == [] {
      steps := [];
    } else {
      var rest := PollAllRuns(cfg, Poll(s).world);
      steps := [PollOne] + rest;
      RunConcat(cfg, s, [PollOne], rest);
      assert Run(cfg, s, []) == Some(s);
      assert Run(cfg, s, [PollOne]) == Some(Poll(s).world);
    }
  }

  lemma {:induction false} RunConcat(cfg: Config, s: World, a: seq<Step>, b: seq<Step>)
    ensures Run(cfg, s, a + b) == match Run(cfg, s, a) case None => None case Some(m) => Run(cfg, m, b)
    decreases |b|
  {
    if b == [] {
      assert a + b == a;
    } else {
      var init := b[..|b| - 1];
      assert (a + b)[..|a + b| - 1] == a + init;
      RunConcat(cfg, s, a, init);
    }
  }

  /** One group armed after the other, as long as the kernel takes the submits. */
  function PrepareAll(cfg: Config, s: World, accepts: seq<bool>): Outcome {
    if accepts == [] then Ok(s)
    else match PrepareAll(cfg, s, accepts[..|accepts| - 1])
      case Crash => Crash
      case Ok(t) => PrepareOne(cfg, t, accepts[|accepts| - 1])
  }

  /** Arming the groups of a new socket crashes exactly when the ring is too small for one or a submit is refused. */
  lemma {:induction false} PrepareAllKeeps(cfg: Config, s: World, accepts: seq<bool>)
    requires Inv(cfg, s) && s.sq == [] && s.prepared + |accepts| <= cfg.Groups()
    ensures PrepareAll(cfg, s, accepts).Ok? <==> (accepts != [] ==> !RingFull(cfg, s)) && false !in accepts
    ensures PrepareAll(cfg, s, accepts).Ok? ==>
              var t := PrepareAll(cfg, s, accepts).world; Inv(cfg, t) && t.sq == [] && t.prepared == s.prepared + |accepts|
  {
    if accepts == [] {
    } else {
      var init := accepts[..|accepts| - 1];
      LastOrInit(accepts);
      PrepareAllKeeps(cfg, s, init);
      if PrepareAll(cfg, s, init).Ok? {
        var t := PrepareAll(cfg, s, init).world;
        PrepareCall(cfg, t, accepts[|accepts| - 1]);
        assert RingFull(cfg, t) == RingFull(cfg, s);
      }
    }
  }

  lemma PrepareMore(cfg: Config, s: World, accepts: seq<bool>, n: nat)
    requires n < |accepts|
    ensures PrepareAll(cfg, s, accepts[..n + 1]) ==
              match PrepareAll(cfg, s, accepts[..n]) case Crash => Crash case Ok(t) => PrepareOne(cfg, t, accepts[n])
  {
    assert accepts[..n + 1][..n] == accepts[..n];
  }

  lemma LastOrInit(accepts: seq<bool>)
    requires accepts != []
    ensures false in accepts <==> false in accepts[..|accepts| - 1] || !accepts[|accepts| - 1]
  {
    assert accepts == accepts[..|accepts| - 1] + [accepts[|accepts| - 1]];
  }

  lemma PrepareCall(cfg: Config, s: World, accept: bool)
    requires Inv(cfg, s) && s.sq == [] && s.prepared < cfg.Groups()
    ensures PrepareOne(cfg, s, accept).Ok? <==> !RingFull(cfg, s) && accept
    ensures PrepareOne(cfg, s, accept).Ok? ==>
              var t := PrepareOne(cfg, s, accept).world; Inv(cfg, t) && t.sq == [] && t.prepared == s.prepared + 1
  {
    if PrepareOne(cfg, s, accept).Ok? { PrepareKeeps(cfg, s); }
  }

  lemma {:induction false} PrepareStops(cfg: Config, s: World, accepts: seq<bool>, n: nat)
    requires n <= |accepts| && PrepareAll(cfg, s, accepts[..n]).Crash?
    ensures PrepareAll(cfg, s, accepts).Crash?
    decreases |accepts|
  {
    if n < |accepts| {
      assert accepts[..|accepts| - 1][..n] == accepts[..n];
      PrepareStops(cfg, s, accepts[..|accepts| - 1], n);
    } else {
      assert accepts[..n] == accepts;
    }
  }

  /** After a poll the free slots are those neither queued nor in the kernel. */
  lemma FreeCount(cfg: Config, s: World)
    requires SendInv(cfg, s) && s.cq == []
    ensures |s.freeSlots| + |s.sq| + |s.kernel.sends| == cfg.sendQueue
  {
    var slots := s.freeSlots + Collect(SqSlot, s.sq) + Collect(SendSlot, s.kernel.sends);
    SqSlotsAll(s.sq);
    SendSlotsAll(s.kernel.sends);
    forall x: nat ensures Tally(Same, slots, x) == if x < cfg.sendQueue then 1 else 0 {
      TallyConcat(Same, s.freeSlots + Collect(SqSlot, s.sq), Collect(SendSlot, s.kernel.sends), x);
      TallyConcat(Same, s.freeSlots, Collect(SqSlot, s.sq), x);
      TallyCollect(SqSlot, s.sq, x);
      TallyCollect(SendSlot, s.kernel.sends, x);
      assert SlotPlaces(s, x) == if x < cfg.sendQueue then 1 else 0;
    }
    PigeonHole(slots, cfg.sendQueue);
    Covers(slots, cfg.sendQueue);
  }

  lemma {:induction false} SendSlotsAll(sends: seq<KernelSend>)
    ensures |Collect(SendSlot, sends)| == |sends|
  {
    if sends == [] {
    } else {
      SendSlotsAll(sends[..|sends| - 1]);
    }
  }

  /** `Panicked` is the end of the program. */
  datatype SendResult = Accepted(len: nat) | WouldBlock | Panicked

  class UdpSocket {
    const cfg: Config
    const sendBufs: array<NetPacket>
    const readBufs: array<Packet>
    var sendFreeQueue: seq<nat>
    var readWaitQueue: seq<nat>
    var readWaitFreeGroups: seq<nat>
    var ringQueueChanged: bool
    // the two rings shared with the kernel
    var sq: seq<Sqe>
    var cq: seq<Cqe>
    ghost var kernel: Kernel
    // history
    ghost var accepted: seq<Packet>
    ghost var tickets: map<nat, nat>
    ghost var wire: seq<Sent>
    ghost var failed: seq<nat>
    ghost var arrivals: seq<Packet>
    ghost var returned: seq<Packet>
    ghost var prepared: nat

    ghost function View(): World
      reads this, sendBufs, readBufs
    {
      World(sendBufs[..], sendFreeQueue, readBufs[..], readWaitQueue, readWaitFreeGroups, ringQueueChanged,
            sq, cq, kernel, accepted, tickets, wire, failed, arrivals, returned, prepared)
    }

    ghost predicate Valid()
      reads this, sendBufs, readBufs
    {
      Inv(cfg, View())
    }

    constructor (cfg: Config)
      requires cfg.Valid()
      ensures Valid() && View() == Initial(cfg) && this.cfg == cfg
      ensures fresh(sendBufs) && fresh(readBufs)
    {
      this.cfg := cfg;
      sendBufs := new NetPacket[cfg.sendQueue](_ => Slot0());
      readBufs := new Packet[cfg.recvQueue](_ => Packet([], SocketAddr(0, 0)));
      sendFreeQueue, readWaitQueue, readWaitFreeGroups, ringQueueChanged := Iota(cfg.sendQueue), [], [], false;
      sq, cq, kernel := [], [], Kernel([], [], [], []);
      accepted, tickets, wire, failed, arrivals, returned, prepared := [], map[], [], [], [], [], 0;
      new;
      assert View() == Initial(cfg);
      InitialInv(cfg);
    }

    /** Pushes the sixteen buffers of a group; false when the ring is full before. */
    method PushBuffers(group: nat) returns (ok: bool)
      requires group < U16
      modifies this`sq
      ensures ok <==> |old(sq)| + GROUP_SIZE <= cfg.capacity
      ensures ok ==> sq == old(sq) + Provides(group, GROUP_SIZE) && |sq| == |old(sq)| + GROUP_SIZE
    {
      for index := 0 to GROUP_SIZE
        invariant sq == old(sq) + Provides(group, index) && |sq| == |old(sq)| + index
        invariant index > 0 ==> |sq| <= cfg.capacity
      {
        if |sq| >= cfg.capacity {
          return false;
        }
        var e := ProvideBuffer(group, IndexOf(ToU32(group, index)), ToU32(group, index), Encode(ProvideBuffers(ToU32(group, index))));
        sq := sq + [e];
        assert Provides(group, index + 1) == Provides(group, index) + [e];
      }
      return true;
    }

    /** Pushes the sixteen buffers and the receive of a group and submits; false when a push or the submit fails. */
    method PrepareRead(group: nat, accept: bool) returns (ok: bool)
      requires group < U16
      modifies this`sq, this`kernel
      ensures match IoUring.PrepareRead(cfg, old(View()), group, accept) case Crash => !ok case Ok(t) => ok && View() == t
    {
      ghost var pending := sq;
      ok := PushBuffers(group);
      if !ok || |sq| >= cfg.capacity {
        return false;
      }
      sq := sq + [RecvMsgMulti(group, Encode(UserData.Recv(group)))];
      assert sq == pending + GroupEntries(group);
      if !accept {
        return false;
      }
      Submit();
      assert sendBufs[..] == old(sendBufs[..]) && readBufs[..] == old(readBufs[..]);
    }

    /** A submit the kernel takes. */
    method Submit()
      modifies this`sq, this`kernel
      ensures sq == [] && kernel == Handover(old(kernel), old(sq))
    {
      kernel := Handover(kernel, sq);
      sq := [];
    }

    /** One turn of the loop of `prepare`. */
    method PrepareNextGroup(group: nat, accept: bool) returns (ok: bool)
      requires group == prepared && group < U16
      modifies this`sq, this`kernel, this`prepared
      ensures match PrepareOne(cfg, old(View()), accept) case Crash => !ok case Ok(t) => ok && View() == t
    {
      ok := PrepareRead(group, accept);
      if ok {
        prepared := prepared + 1;
        assert sendBufs[..] == old(sendBufs[..]) && readBufs[..] == old(readBufs[..]);
      }
    }

    /** Arms every group of a new socket; false when a push or a submit fails. */
    method Prepare(accepts: seq<bool>) returns (ok: bool)
      requires Valid() && prepared == 0 && sq == [] && |accepts| == cfg.Groups()
      modifies this`sq, this`kernel, this`prepared
      ensures match PrepareAll(cfg, old(View()), accepts) case Crash => !ok case Ok(t) => ok && View() == t
      ensures ok <==> (accepts != [] ==> GROUP_SIZE + 1 <= cfg.capacity) && false !in accepts
      ensures ok ==> Valid() && prepared == cfg.Groups()
    {
      PrepareAllKeeps(cfg, View(), accepts);
      ok := PrepareGroups(accepts);
    }

    /** The loop of `prepare`. */
    method PrepareGroups(accepts: seq<bool>) returns (ok: bool)
      requires cfg.Valid() && prepared == 0 && |accepts| == cfg.Groups()
      modifies this`sq, this`kernel, this`prepared
      ensures match PrepareAll(cfg, old(View()), accepts) case Crash => !ok case Ok(t) => ok && View() == t
    {
      ghost var s := View();
      for group := 0 to cfg.recvQueue / GROUP_SIZE
        invariant prepared == group && PrepareAll(cfg, s, accepts[..group]) == Ok(View())
      {
        ghost var before := View();
        PrepareMore(cfg, s, accepts, group);
        var armed := PrepareNextGroup(group, accepts[group]);
        assert PrepareAll(cfg, s, accepts[..group + 1]) == PrepareOne(cfg, before, accepts[group]);
        if !armed {
          PrepareStops(cfg, s, accepts, group + 1);
          return false;
        }
      }
      assert accepts[..|accepts|] == accepts;
      return true;
    }

    /** One turn of the poll loop. */
    method PollNext()
      requires cq != [] && Poll(View()).Ok?
      modifies this`cq, this`readWaitQueue, this`readWaitFreeGroups, this`sendFreeQueue
      ensures Poll(old(View())) == Ok(View())
    {
      var complete := cq[0];
      cq := cq[1..];
      match Decode(complete.userData) {
        case Recv(group) =>
          if complete.more {
            readWaitQueue := readWaitQueue + [ToU32(group, complete.bid.value)];
          } else {
            readWaitFreeGroups := readWaitFreeGroups + [group];
          }
        case Send(idx) =>
          if !complete.more {
            sendFreeQueue := sendFreeQueue + [idx];
          }
        case ProvideBuffers(_) =>
      }
      assert sendBufs[..] == old(sendBufs[..]) && readBufs[..] == old(readBufs[..]);
    }

    /** Takes every completion off the ring and sorts it by its tag. */
    method PollCompletions()
      requires PollAll(View()).Ok?
      modifies this`cq, this`readWaitQueue, this`readWaitFreeGroups, this`sendFreeQueue
      ensures PollAll(old(View())) == Ok(View())
    {
      while cq != []
        invariant PollAll(View()) == PollAll(old(View()))
        decreases |cq|
      {
        PollNext();
      }
    }

    /** Writes the packet into the first free slot and queues the send. */
    method PushSend(data: Bytes, dest: SocketAddr)
      requires sendFreeQueue != [] && Add(cfg, View(), data, dest).Ok?
      modifies this`sendFreeQueue, this`sq, this`ringQueueChanged, this`tickets, this`accepted, sendBufs
      ensures Add(cfg, old(View()), data, dest) == Ok(View())
    {
      var idx := sendFreeQueue[0];
      sendFreeQueue := sendFreeQueue[1..];
      FillSlot(idx, data, dest);
      sq := sq + [SendMsgZc(idx, Encode(UserData.Send(idx)))];
      ringQueueChanged := true;
      tickets := tickets[idx := |accepted|];
      accepted := accepted + [Packet(data, dest)];
    }

    method FillSlot(idx: nat, data: Bytes, dest: SocketAddr)
      requires idx < sendBufs.Length && sendBufs[idx].Valid() && |data| <= MAX_PAYLOAD
      modifies sendBufs
      ensures sendBufs[..] == old(sendBufs[..])[idx := old(sendBufs[idx]).Fill(data, dest)]
      ensures readBufs[..] == old(readBufs[..])
    {
      sendBufs[idx] := sendBufs[idx].Fill(data, dest);
    }

    /** Queues a packet; blocked exactly when every slot is queued or still in the kernel's hands. */
    method AddSendTo(data: Bytes, dest: SocketAddr) returns (r: SendResult)
      requires Valid()
      modifies this, sendBufs
      ensures PollAll(old(View())).Ok?
      ensures match Add(cfg, PollAll(old(View())).world, data, dest) case Crash => r.Panicked? case Ok(t) => !r.Panicked? && View() == t && Valid()
      ensures r == if |old(sq)| + |old(kernel.sends)| >= cfg.sendQueue then WouldBlock
                   else if |data| > 1500 then Panicked else Accepted(|data|)
      ensures accepted == if r.Accepted? then old(accepted) + [Packet(data, dest)] else old(accepted)
    {
      PollCall(cfg, View());
      PollCompletions();
      FreeCount(cfg, View());
      AddKeeps(cfg, View(), data, dest);
      if sendFreeQueue == [] {
        return WouldBlock;
      }
      if |data| > MAX_PAYLOAD {
        return Panicked;
      }
      PushSend(data, dest);
      return Accepted(|data|);
    }

    /** Hands the queued packets to the kernel; when the kernel refuses, they stay queued and the flag stays up. */
    method CommitSendTo(accept: bool) returns (ok: bool)
      requires Valid()
      modifies this`sq, this`kernel, this`ringQueueChanged
      ensures Valid() && View() == CommitSend(old(View()), accept)
      ensures ok ==> sq == [] && !ringQueueChanged
      ensures !ok ==> View() == old(View())
      ensures kernel.sends == old(kernel.sends) + if ok then Collect(ToSend, old(sq)) else []
      ensures ok <==> accept || !old(ringQueueChanged)
    {
      CommitKeeps(cfg, View(), accept);
      if ringQueueChanged {
        if !accept {
          return false;
        }
        Submit();
        ringQueueChanged := false;
      }
      return true;
    }

    /** Takes the head of the wait queue. */
    method TakePacket() returns (r: Option<Packet>)
      requires Receive(View()).Ok?
      modifies this`readWaitQueue, this`returned
      ensures Receive(old(View())) == Ok(View())
      ensures returned == old(returned) + OptionToSeq(r) && (r.None? <==> old(readWaitQueue) == [])
    {
      if readWaitQueue != [] {
        var idx := readWaitQueue[0];
        readWaitQueue := readWaitQueue[1..];
        returned := returned + [readBufs[idx]];
        assert sendBufs[..] == old(sendBufs[..]) && readBufs[..] == old(readBufs[..]);
        return Some(readBufs[idx]);
      }
      return None;
    }

    /** Returns the first packet the kernel wrote that was not returned yet, if there is one. */
    method RecvFrom() returns (r: Option<Packet>)
      requires Valid()
      modifies this
      ensures Valid()
      ensures PollAll(old(View())).Ok? && Receive(PollAll(old(View())).world) == Ok(View())
      ensures r == if |old(returned)| < |arrivals| then Some(arrivals[|old(returned)|]) else None
      ensures returned == old(returned) + OptionToSeq(r) && arrivals == old(arrivals)
    {
      PollCall(cfg, View());
      PollCompletions();
      NextPacket(cfg, View());
      r := TakePacket();
    }

    /** Gives one completed group back to the kernel, once every packet was returned; false is a crash. */
    method FinishReadFrom(accept: bool) returns (ok: bool)
      requires Valid()
      modifies this
      ensures ok ==> Valid() && FinishRead(cfg, old(View()), accept) == Ok(View())
      ensures !ok <==> old(readWaitQueue) == [] && old(readWaitFreeGroups) != [] && (RingFull(cfg, old(View())) || !accept)
      ensures ok ==> readWaitFreeGroups == if readWaitQueue == [] && old(readWaitFreeGroups) != [] then old(readWaitFreeGroups)[1..] else old(readWaitFreeGroups)
      ensures ok ==> readWaitQueue == old(readWaitQueue)
      ensures ok ==> sq == if readWaitQueue == [] && old(readWaitFreeGroups) != [] then [] else old(sq)
    {
      FinishCall(cfg, View(), accept);
      if readWaitQueue == [] {
        if readWaitFreeGroups != [] {
          var group := readWaitFreeGroups[0];
          readWaitFreeGroups := readWaitFreeGroups[1..];
          ok := PrepareRead(group, accept);
          return;
        }
      }
      return true;
    }
  }

  /** The packet at the head of the wait queue is the first one written and not yet returned. */
  lemma NextPacket(cfg: Config, s: World)
    requires Inv(cfg, s) && s.cq == []
    ensures Receive(s).Ok? && Inv(cfg, Receive(s).world)
    ensures s.waitQueue == [] <==> |s.returned| == |s.arrivals|
    ensures s.waitQueue != [] ==> |s.returned| < |s.arrivals| && s.waitQueue[0] < |s.readBufs| && s.readBufs[s.waitQueue[0]] == s.arrivals[|s.returned|]
  {
    ReceiveKeeps(cfg, s);
    assert Filled(s) == s.waitQueue;
    assert s.returned + Contents(s.readBufs, Filled(s)) == s.arrivals;
    if s.waitQueue != [] {
      assert Contents(s.readBufs, Filled(s))[0] == s.readBufs[s.waitQueue[0]];
    }
  }

  lemma FinishCall(cfg: Config, s: World, accept: bool)
    requires Inv(cfg, s)
    ensures s.freeGroups != [] ==> s.freeGroups[0] < U16
    ensures FinishRead(cfg, s, accept).Crash? <==> Arms(s, Finish(accept)) && (RingFull(cfg, s) || !accept)
    ensures FinishRead(cfg, s, accept).Ok? ==> Inv(cfg, FinishRead(cfg, s, accept).world)
  {
    if s.freeGroups != [] {
      TallyAt(Same, s.freeGroups, 0);
      assert GroupPlaces(s, s.freeGroups[0]) == if s.freeGroups[0] < s.prepared then 1 else 0;
    }
    StepKeeps(cfg, s, Finish(accept));
  }
}
