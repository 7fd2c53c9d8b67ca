/** What the io_uring socket promises over whole runs, in terms its callers can see. */
module IoUringRuns {
  import opened Seqs
  import opened Net
  import opened Codec
  import opened IoUring
  import opened IoUringSafety

  lemma ReachableStep(cfg: Config, s: World, step: Step)
    requires Reachable(cfg, s) && Enabled(cfg, s, step) && Next(cfg, s, step).Ok?
    ensures Reachable(cfg, Next(cfg, s, step).world)
  {
    var steps :| Run(cfg, Initial(cfg), steps) == Some(s);
    assert (steps + [step])[..|steps|] == steps;
    assert Run(cfg, Initial(cfg), steps + [step]) == Some(Next(cfg, s, step).world);
  }

  /**
   * Receiving is a FIFO mailbox: what was returned is a prefix of what the kernel wrote, the rest
   * sits unchanged in the filled buffers in completion order, and the next packet `recv_from`
   * returns is the first one not yet returned.
   */
  lemma ReceiveRefinement(cfg: Config, s: World)
    requires cfg.Valid() && Reachable(cfg, s)
    ensures |s.returned| + |Filled(s)| == |s.arrivals| && s.returned == s.arrivals[..|s.returned|]
    ensures forall j :: 0 <= j < |Filled(s)| ==> Filled(s)[j] < |s.readBufs| && s.readBufs[Filled(s)[j]] == s.arrivals[|s.returned| + j]
    ensures s.waitQueue != [] ==>
              Receive(s).Ok? && |s.returned| < |s.arrivals| && Receive(s).world.returned == s.returned + [s.arrivals[|s.returned|]]
  {
    ReachableInv(cfg, s);
    var tail := Contents(s.readBufs, Filled(s));
    assert (s.returned + tail)[..|s.returned|] == s.returned;
    forall j | 0 <= j < |Filled(s)| ensures s.readBufs[Filled(s)[j]] == s.arrivals[|s.returned| + j] {
      assert (s.returned + tail)[|s.returned| + j] == tail[j];
    }
    if s.waitQueue != [] {
      assert Filled(s)[0] == s.waitQueue[0];
    }
  }

  /** No buffer with an unread packet is ever in the kernel's hands, nor is any filled buffer filled twice. */
  lemma UnreadNeverProvided(cfg: Config, s: World, b: nat, j: nat)
    requires cfg.Valid() && Reachable(cfg, s)
    requires b < |s.kernel.pool| && j < |Filled(s)|
    ensures Filled(s)[j] != s.kernel.pool[b].buf
  {
    ReachableInv(cfg, s);
    WriteIsPrivate(s, b, j);
  }

  // ----- the buffer of a packet that was returned -----

  /** Buffer `x` holds `pkt` and the kernel may not fill it. */
  ghost predicate Kept(s: World, x: nat, pkt: Packet) {
    x < |s.readBufs| && s.readBufs[x] == pkt && forall b :: 0 <= b < |s.kernel.pool| ==> s.kernel.pool[b].buf != x
  }

  /** The step gives the group of buffer `x` back to the kernel. */
  predicate GivesBack(s: World, step: Step, x: nat) {
    step.Finish? && s.waitQueue == [] && s.freeGroups != [] && s.freeGroups[0] == x / GROUP_SIZE
  }

  lemma ArmingKept(cfg: Config, s: World, group: nat, x: nat, pkt: Packet)
    requires cfg.Valid() && SendEntries(cfg, s.sq) && PrepareRead(cfg, s, group, true).Ok? && group < cfg.Groups()
    requires Kept(s, x, pkt) && group != x / GROUP_SIZE
    ensures Kept(PrepareRead(cfg, s, group, true).world, x, pkt)
  {
    PrepareReadSplit(cfg, s, group);
    SubmitSends(cfg, s.sq);
    ArmedKernel(cfg, Submitted(s), group);
    ProvidesOnly(group, GROUP_SIZE);
  }

  lemma StepKept(cfg: Config, s: World, step: Step, x: nat, pkt: Packet)
    requires Inv(cfg, s) && Enabled(cfg, s, step) && Next(cfg, s, step).Ok?
    requires Kept(s, x, pkt) && x < s.prepared * GROUP_SIZE && !GivesBack(s, step, x)
    ensures Kept(Next(cfg, s, step).world, x, pkt) && x < Next(cfg, s, step).world.prepared * GROUP_SIZE
  {
    match step
    case PrepareNext(_) => ArmingKept(cfg, s, s.prepared, x, pkt);
    case Finish(_) => if Arms(s, step) { FinishKept(cfg, s, x, pkt); }
    case Commit(_) => SubmitSends(cfg, s.sq);
    case KernelWrite(r, b, _) => WriteKept(cfg, s, step, x, pkt);
    case _ =>
  }

  lemma FinishKept(cfg: Config, s: World, x: nat, pkt: Packet)
    requires Inv(cfg, s) && s.waitQueue == [] && s.freeGroups != [] && s.freeGroups[0] != x / GROUP_SIZE
    requires Kept(s, x, pkt) && FinishRead(cfg, s, true).Ok?
    ensures Kept(FinishRead(cfg, s, true).world, x, pkt)
  {
    TallyAt(Same, s.freeGroups, 0);
    assert GroupPlaces(s, s.freeGroups[0]) == if s.freeGroups[0] < s.prepared then 1 else 0;
    ArmingKept(cfg, s.(freeGroups := s.freeGroups[1..]), s.freeGroups[0], x, pkt);
  }

  lemma WriteKept(cfg: Config, s: World, step: Step, x: nat, pkt: Packet)
    requires step.KernelWrite? && Enabled(cfg, s, step) && Kept(s, x, pkt)
    ensures Kept(Next(cfg, s, step).world, x, pkt)
  {
    var t := Next(cfg, s, step).world;
    forall b | 0 <= b < |t.kernel.pool| ensures t.kernel.pool[b].buf != x {
      assert t.kernel.pool[b] == s.kernel.pool[if b < step.b then b else b + 1];
    }
  }

  /** No step of a run that starts in `s` gives the group of buffer `x` back. */
  ghost predicate NeverGivenBack(cfg: Config, s: World, steps: seq<Step>, x: nat) {
    forall i :: 0 <= i < |steps| && Run(cfg, s, steps[..i]).Some? ==> !GivesBack(Run(cfg, s, steps[..i]).value, steps[i], x)
  }

  /**
   * `recv_from` returns a view of a buffer. Whatever both sides do after it, as long as no
   * `finish_read_from` gives the buffer's group back, the buffer is not the kernel's and holds the
   * packet that was returned.
   */
  lemma {:induction false} ReturnedStays(cfg: Config, s: World, t: World, steps: seq<Step>)
    requires cfg.Valid() && Reachable(cfg, s) && s.waitQueue != [] && s.waitQueue[0] < |s.readBufs| && Receive(s) == Ok(t)
    requires Run(cfg, t, steps).Some? && NeverGivenBack(cfg, t, steps, s.waitQueue[0])
    ensures Kept(Run(cfg, t, steps).value, s.waitQueue[0], s.readBufs[s.waitQueue[0]])
    ensures Inv(cfg, Run(cfg, t, steps).value) && s.waitQueue[0] < Run(cfg, t, steps).value.prepared * GROUP_SIZE
  {
    var x := s.waitQueue[0];
    if steps == [] {
      ReachableInv(cfg, s);
      ReceiveKeeps(cfg, s);
      forall b | 0 <= b < |s.kernel.pool| ensures s.kernel.pool[b].buf != x {
        assert Filled(s)[0] == x;
        WriteIsPrivate(s, b, 0);
      }
    } else {
      var init, last := steps[..|steps| - 1], steps[|steps| - 1];
      forall i | 0 <= i < |init| ensures init[..i] == steps[..i] && init[i] == steps[i] {}
      ReturnedStays(cfg, s, t, init);
      var u := Run(cfg, t, init).value;
      assert !GivesBack(u, last, x);
      StepKeeps(cfg, u, last);
      StepKept(cfg, u, last, x, s.readBufs[x]);
    }
  }

  /**
   * Zero-copy integrity: a slot the kernel may still read holds the bytes and the destination of
   * the call that took it, no other pending send uses the slot, and the application cannot get it.
   */
  lemma SendIntegrity(cfg: Config, s: World, i: nat)
    requires cfg.Valid() && Reachable(cfg, s) && i < |s.kernel.sends|
    ensures var x := s.kernel.sends[i].slot;
            && x < |s.sendBufs| && s.sendBufs[x].Valid() && x in s.tickets && s.tickets[x] < |s.accepted|
            && s.sendBufs[x].View() == s.accepted[s.tickets[x]]
            && x !in s.freeSlots
            && (forall j :: 0 <= j < |s.kernel.sends| && j != i ==> s.kernel.sends[j].slot != x)
            && (forall j :: 0 <= j < |s.sq| && s.sq[j].SendMsgZc? ==> s.sq[j].slot != x)
  {
    ReachableInv(cfg, s);
    InKernel(cfg, s, i);
    var x := s.kernel.sends[i].slot;
    if j :| 0 <= j < |s.freeSlots| && s.freeSlots[j] == x {
      TallyAt(Same, s.freeSlots, j);
      assert false;
    }
    forall j | 0 <= j < |s.kernel.sends| && j != i ensures s.kernel.sends[j].slot != x {
      if s.kernel.sends[j].slot == x {
        TallyTwice(SendSlot, s.kernel.sends, if i < j then i else j, if i < j then j else i);
      }
    }
    forall j | 0 <= j < |s.sq| && s.sq[j].SendMsgZc? ensures s.sq[j].slot != x {
      if s.sq[j].slot == x { TallyAt(SqSlot, s.sq, j); }
    }
  }

  /** Sending refines the abstract send side: at most once, and only what was accepted. */
  lemma SendRefinement(cfg: Config, s: World)
    requires cfg.Valid() && Reachable(cfg, s)
    ensures AtMostOnce(s.accepted, s.wire)
  {
    ReachableInv(cfg, s);
  }

  /** Every slot is free or busy, never both, and is listed once, and nothing else is listed: no slot is lost, duplicated or made up. */
  lemma SlotPartition(cfg: Config, s: World, x: nat)
    requires cfg.Valid() && Reachable(cfg, s)
    ensures Tally(Same, s.freeSlots, x) + Tally(SqSlot, s.sq, x) + Tally(SendSlot, s.kernel.sends, x) + Tally(FinalSlot, s.cq, x)
            == if x < cfg.sendQueue then 1 else 0
  {
    ReachableInv(cfg, s);
    assert SlotPlaces(s, x) == if x < cfg.sendQueue then 1 else 0;
  }

  /** A flag that is down means that no send waits for a submit. */
  lemma FlagDown(cfg: Config, s: World)
    requires cfg.Valid() && Reachable(cfg, s)
    ensures |s.sq| <= cfg.sendQueue
    ensures !s.changed ==> s.sq == []
  {
    ReachableInv(cfg, s);
    PendingBound(cfg, s);
  }

  // ----- when the submission ring can overflow -----

  /** With nothing in the kernel and nothing completed, a socket without a free slot has all of them queued. */
  lemma AllQueued(cfg: Config, s: World)
    requires SendInv(cfg, s) && s.freeSlots == [] && s.kernel.sends == [] && s.cq == []
    ensures |s.sq| >= cfg.sendQueue
  {
    SqSlotsAll(s.sq);
    forall x: nat | x < cfg.sendQueue ensures Tally(Same, Collect(SqSlot, s.sq), x) >= 1 {
      assert SlotPlaces(s, x) == 1;
      TallyCollect(SqSlot, s.sq, x);
    }
    Covers(Collect(SqSlot, s.sq), cfg.sendQueue);
  }

  ghost predicate Quieting(cfg: Config, s: World) {
    Reachable(cfg, s) && s.prepared == 1 && s.sq == [] && s.kernel.sends == []
  }

  lemma QuietKernel(cfg: Config) returns (s: World)
    requires cfg.Valid() && cfg.Groups() >= 1 && GROUP_SIZE + 1 <= cfg.capacity
    ensures Quieting(cfg, s) && s.kernel.recvs == []
  {
    s := Initial(cfg);
    assert Run(cfg, s, []) == Some(s);
    PrepareReadSplit(cfg, s, 0);
    ArmedKernel(cfg, Submitted(s), 0);
    ReachableStep(cfg, s, PrepareNext(true));
    s := Next(cfg, s, PrepareNext(true)).world;
    while s.kernel.recvs != []
      invariant Quieting(cfg, s)
      decreases |s.kernel.recvs|, |s.kernel.pool|
    {
      s := QuietStep(cfg, s);
    }
  }

  /** The kernel fills one more buffer of the armed group, or ends its receive. */
  lemma QuietStep(cfg: Config, s: World) returns (t: World)
    requires cfg.Valid() && Quieting(cfg, s) && s.kernel.recvs != []
    ensures Quieting(cfg, t)
    ensures |t.kernel.recvs| < |s.kernel.recvs| || (t.kernel.recvs == s.kernel.recvs && |t.kernel.pool| < |s.kernel.pool|)
  {
    ReachableInv(cfg, s);
    var step := KernelEnd(0);
    if b :| 0 <= b < |s.kernel.pool| && s.kernel.pool[b].group == s.kernel.recvs[0].group {
      step := KernelWrite(0, b, Packet([], SocketAddr(0, 0)));
    }
    ReachableStep(cfg, s, step);
    t := Next(cfg, s, step).world;
  }

  lemma QuietRing(cfg: Config, s0: World) returns (s: World)
    requires cfg.Valid() && Quieting(cfg, s0) && s0.kernel.recvs == []
    ensures Quieting(cfg, s) && s.kernel.recvs == [] && s.cq == []
  {
    s := s0;
    while s.cq != []
      invariant Quieting(cfg, s) && s.kernel.recvs == []
      decreases |s.cq|
    {
      ReachableInv(cfg, s);
      PollKeeps(cfg, s);
      ReachableStep(cfg, s, PollOne);
      s := Next(cfg, s, PollOne).world;
    }
  }

  /** A quiet state: the only group has completed and was read, and nothing was sent yet. */
  lemma QuietState(cfg: Config) returns (s: World)
    requires cfg.Valid() && cfg.Groups() >= 1 && GROUP_SIZE + 1 <= cfg.capacity
    ensures Quieting(cfg, s) && s.kernel.recvs == [] && s.cq == [] && s.waitQueue == []
  {
    s := QuietKernel(cfg);
    s := QuietRing(cfg, s);
    while s.waitQueue != []
      invariant Quieting(cfg, s) && s.kernel.recvs == [] && s.cq == []
      decreases |s.waitQueue|
    {
      ReachableInv(cfg, s);
      ReceiveKeeps(cfg, s);
      ReachableStep(cfg, s, Step.Recv);
      s := Next(cfg, s, Step.Recv).world;
    }
  }

  /** From a quiet state, as many sends as there are slots fill the ring before `finish_read_from`. */
  lemma Overflow(cfg: Config) returns (s: World, step: Step)
    requires cfg.Valid() && !RoomForGroup(cfg)
    ensures Reachable(cfg, s) && Enabled(cfg, s, step) && Overflows(cfg, s, step)
  {
    assert cfg.recvQueue == GROUP_SIZE;
    if cfg.capacity < GROUP_SIZE + 1 {
      s, step := Initial(cfg), PrepareNext(true);
      assert Run(cfg, s, []) == Some(s);
      return;
    }
    s := QuietState(cfg);
    while s.freeSlots != []
      invariant Reachable(cfg, s) && s.prepared == 1
      invariant s.kernel.sends == [] && s.cq == [] && s.kernel.recvs == [] && s.waitQueue == []
      decreases |s.freeSlots|
    {
      ReachableInv(cfg, s);
      var add := AddSend([], SocketAddr(0, 0));
      AddKeeps(cfg, s, [], SocketAddr(0, 0));
      ReachableStep(cfg, s, add);
      s := Next(cfg, s, add).world;
    }
    ReachableInv(cfg, s);
    AllQueued(cfg, s);
    assert GroupPlaces(s, 0) == 1;
    step := Finish(true);
  }

  /** The step crashes although the kernel takes the submit. */
  predicate Overflows(cfg: Config, s: World, step: Step)
    requires Enabled(cfg, s, step)
  {
    Arms(s, step) && step.accept && Next(cfg, s, step).Crash?
  }

  /** In a reachable state exactly three things crash: a full ring and a refused submit while a group is armed, and data too long for the free slot it goes to. */
  lemma CrashExactly(cfg: Config, s: World, step: Step)
    requires cfg.Valid() && Reachable(cfg, s) && Enabled(cfg, s, step)
    ensures Next(cfg, s, step).Crash? <==>
              || (Arms(s, step) && (|s.sq| + 17 > cfg.capacity || !step.accept))
              || (step.AddSend? && |step.data| > 1500 && s.freeSlots != [])
  {
    ReachableInv(cfg, s);
    StepKeeps(cfg, s, step);
  }

  ghost predicate CanOverflow(cfg: Config) {
    exists s, step :: Reachable(cfg, s) && Enabled(cfg, s, step) && Overflows(cfg, s, step)
  }

  /**
   * No push ever finds the ring full exactly when the ring has room for all send slots and one
   * group at the same time. RECV_QUEUE of at least 32 gives that room; RECV_QUEUE of 16 does only
   * if the ring came out larger than asked for.
   */
  lemma RingNeverOverflows(cfg: Config)
    requires cfg.Valid()
    ensures CanOverflow(cfg) <==> !RoomForGroup(cfg)
    ensures cfg.recvQueue >= 32 ==> RoomForGroup(cfg)
  {
    if !RoomForGroup(cfg) {
      var s, step := Overflow(cfg);
    } else if CanOverflow(cfg) {
      var s, step :| Reachable(cfg, s) && Enabled(cfg, s, step) && Overflows(cfg, s, step);
      ReachableInv(cfg, s);
      StepKeeps(cfg, s, step);
      assert false;
    }
  }
}
