/** What becomes of an accepted packet, and in which order the kernel gets them. */
module IoUringFate {
  import opened Seqs
  import opened Net
  import opened Codec
  import opened IoUring
  import opened IoUringSafety

  function TicketOf(m: map<nat, nat>, slot: nat): nat {
    if slot in m then m[slot] else 0
  }

  /** The slots of the sends the kernel has, in the order it got them, and then of those it is still to get. */
  function Outstanding(s: World): seq<nat> {
    Collect(SendSlot, s.kernel.sends) + Collect(SqSlot, s.sq)
  }

  ghost predicate Rising(m: map<nat, nat>, slots: seq<nat>) {
    forall i, j :: 0 <= i < j < |slots| ==> TicketOf(m, slots[i]) < TicketOf(m, slots[j])
  }

  function WireTicket(w: Sent): Option<nat> {
    Some(w.ticket)
  }

  function UnsentTicket(m: map<nat, nat>): KernelSend -> Option<nat> {
    (e: KernelSend) => if e.transmitted then None else Some(TicketOf(m, e.slot))
  }

  function SqTicket(m: map<nat, nat>): Sqe -> Option<nat> {
    (e: Sqe) => if e.SendMsgZc? then Some(TicketOf(m, e.slot)) else None
  }

  /** In how many busy slots packet `k` waits to be transmitted. */
  function Waits(s: World, k: nat): nat {
    Tally(UnsentTicket(s.tickets), s.kernel.sends, k) + Tally(SqTicket(s.tickets), s.sq, k)
  }

  /** In how many places packet `k` is: on the wire, finished without, waiting. */
  function Fates(s: World, k: nat): nat {
    Tally(WireTicket, s.wire, k) + Tally(Same, s.failed, k) + Waits(s, k)
  }

  ghost predicate Accounted(s: World) {
    forall k: nat :: Fates(s, k) == if k < |s.accepted| then 1 else 0
  }

  ghost predicate FateInv(s: World) {
    Rising(s.tickets, Outstanding(s)) && Accounted(s)
  }

  // ----- submitting -----

  lemma {:induction false} SubmittedSlots(sq: seq<Sqe>)
    requires forall i :: 0 <= i < |sq| ==> sq[i].SendMsgZc?
    ensures Collect(SendSlot, Collect(ToSend, sq)) == Collect(SqSlot, sq)
  {
    if sq == [] {
    } else {
      var init, e := sq[..|sq| - 1], sq[|sq| - 1];
      SubmittedSlots(init);
      CollectAppend(SendSlot, Collect(ToSend, init), ToSend(e).value);
    }
  }

  lemma {:induction false} SubmittedTickets(sq: seq<Sqe>, m: map<nat, nat>, k: nat)
    requires forall i :: 0 <= i < |sq| ==> sq[i].SendMsgZc?
    ensures Tally(UnsentTicket(m), Collect(ToSend, sq), k) == Tally(SqTicket(m), sq, k)
  {
    if sq == [] {
    } else {
      var init, e := sq[..|sq| - 1], sq[|sq| - 1];
      SubmittedTickets(init, m, k);
      TallyAppend(UnsentTicket(m), Collect(ToSend, init), ToSend(e).value, k);
    }
  }

  /** A submit hands the sends over in order and changes nothing else about them. */
  lemma SubmitFate(s: World, t: World)
    requires FateInv(s) && forall i :: 0 <= i < |s.sq| ==> s.sq[i].SendMsgZc?
    requires t.sq == [] && t.kernel.sends == s.kernel.sends + Collect(ToSend, s.sq)
    requires t.tickets == s.tickets && t.accepted == s.accepted && t.wire == s.wire && t.failed == s.failed
    ensures FateInv(t)
  {
    SubmittedSlots(s.sq);
    CollectConcat(SendSlot, s.kernel.sends, Collect(ToSend, s.sq));
    assert Outstanding(t) == Outstanding(s);
    forall k: nat ensures Fates(t, k) == Fates(s, k) {
      SubmittedTickets(s.sq, s.tickets, k);
      TallyConcat(UnsentTicket(s.tickets), s.kernel.sends, Collect(ToSend, s.sq), k);
    }
  }

  // ----- a new packet -----

  lemma {:induction false} OtherSends(sends: seq<KernelSend>, m: map<nat, nat>, x: nat, n: nat, k: nat)
    requires forall i :: 0 <= i < |sends| ==> sends[i].slot != x
    ensures Tally(UnsentTicket(m[x := n]), sends, k) == Tally(UnsentTicket(m), sends, k)
  {
    if sends == [] {
    } else {
      OtherSends(sends[..|sends| - 1], m, x, n, k);
    }
  }

  lemma {:induction false} OtherEntries(sq: seq<Sqe>, m: map<nat, nat>, x: nat, n: nat, k: nat)
    requires forall i :: 0 <= i < |sq| && sq[i].SendMsgZc? ==> sq[i].slot != x
    ensures Tally(SqTicket(m[x := n]), sq, k) == Tally(SqTicket(m), sq, k)
  {
    if sq == [] {
    } else {
      OtherEntries(sq[..|sq| - 1], m, x, n, k);
    }
  }

  /** An idle slot is in no entry. */
  lemma IdleNowhere(s: World, x: nat)
    requires !Busy(s, x)
    ensures forall i :: 0 <= i < |s.kernel.sends| ==> s.kernel.sends[i].slot != x
    ensures forall i :: 0 <= i < |s.sq| && s.sq[i].SendMsgZc? ==> s.sq[i].slot != x
  {
    forall i | 0 <= i < |s.kernel.sends| ensures s.kernel.sends[i].slot != x {
      TallyAt(SendSlot, s.kernel.sends, i);
    }
    forall i | 0 <= i < |s.sq| && s.sq[i].SendMsgZc? ensures s.sq[i].slot != x {
      TallyAt(SqSlot, s.sq, i);
    }
  }

  /** Outstanding slots are busy, so they hold accepted packets. */
  lemma OutstandingLoaded(s: World, i: nat)
    requires SendsFaithful(s) && i < |Outstanding(s)|
    ensures Busy(s, Outstanding(s)[i]) && TicketOf(s.tickets, Outstanding(s)[i]) < |s.accepted|
  {
    var x := Outstanding(s)[i];
    if i < |Collect(SendSlot, s.kernel.sends)| {
      var j := CollectOrigin(SendSlot, s.kernel.sends, x);
      TallyAt(SendSlot, s.kernel.sends, j);
    } else {
      var j := CollectOrigin(SqSlot, s.sq, x);
      TallyAt(SqSlot, s.sq, j);
    }
    assert Busy(s, x);
    assert Loaded(s, x);
  }

  lemma AddRising(s: World, t: World, x: nat)
    requires SendsFaithful(s) && Rising(s.tickets, Outstanding(s)) && !Busy(s, x)
    requires t.tickets == s.tickets[x := |s.accepted|] && Outstanding(t) == Outstanding(s) + [x]
    ensures Rising(t.tickets, Outstanding(t))
  {
    forall i | 0 <= i < |Outstanding(s)|
      ensures TicketOf(t.tickets, Outstanding(t)[i]) == TicketOf(s.tickets, Outstanding(s)[i]) < |s.accepted|
    {
      OutstandingLoaded(s, i);
    }
  }

  lemma AddFate(cfg: Config, s: World, data: Bytes, dest: SocketAddr)
    requires Inv(cfg, s) && FateInv(s) && Add(cfg, s, data, dest).Ok?
    ensures FateInv(Add(cfg, s, data, dest).world)
  {
    if s.freeSlots == [] {
    } else {
      var t, x := Add(cfg, s, data, dest).world, s.freeSlots[0];
      var e := SendMsgZc(x, Encode(UserData.Send(x)));
      AddOk(cfg, s, data, dest);
      IdleNowhere(s, x);
      CollectAppend(SqSlot, s.sq, e);
      assert Outstanding(t) == Outstanding(s) + [x];
      AddRising(s, t, x);
      forall k: nat ensures Fates(t, k) == Fates(s, k) + if k == |s.accepted| then 1 else 0 {
        OtherSends(s.kernel.sends, s.tickets, x, |s.accepted|, k);
        OtherEntries(s.sq, s.tickets, x, |s.accepted|, k);
        TallyAppend(SqTicket(t.tickets), s.sq, e, k);
      }
    }
  }

  // ----- the kernel -----

  lemma {:induction false} SendSlotsUpdate(sends: seq<KernelSend>, i: nat, e: KernelSend)
    requires i < |sends| && e.slot == sends[i].slot
    ensures Collect(SendSlot, sends[i := e]) == Collect(SendSlot, sends)
  {
    var n := |sends| - 1;
    if i == n {
      assert sends[i := e][..n] == sends[..n];
    } else {
      assert sends[i := e][..n] == sends[..n][i := e];
      SendSlotsUpdate(sends[..n], i, e);
    }
  }

  lemma {:induction false} SendSlotsRemove(sends: seq<KernelSend>, i: nat)
    requires i < |sends|
    ensures |Collect(SendSlot, sends)| == |sends| && Collect(SendSlot, sends)[i] == sends[i].slot
    ensures Collect(SendSlot, RemoveAt(sends, i)) == RemoveAt(Collect(SendSlot, sends), i)
  {
    var n := |sends| - 1;
    SendSlotsCount(sends[..n]);
    if i == n {
      assert RemoveAt(sends, i) == sends[..n];
    } else {
      assert RemoveAt(sends, i) == RemoveAt(sends[..n], i) + [sends[n]];
      CollectAppend(SendSlot, RemoveAt(sends[..n], i), sends[n]);
      SendSlotsRemove(sends[..n], i);
    }
  }

  lemma {:induction false} SendSlotsCount(sends: seq<KernelSend>)
    ensures |Collect(SendSlot, sends)| == |sends|
  {
    if sends == [] {
    } else {
      SendSlotsCount(sends[..|sends| - 1]);
    }
  }

  lemma TransmitFate(cfg: Config, s: World, i: nat)
    requires Inv(cfg, s) && FateInv(s) && Enabled(cfg, s, KernelTransmit(i))
    ensures FateInv(Next(cfg, s, KernelTransmit(i)).world)
  {
    var t := Next(cfg, s, KernelTransmit(i)).world;
    var e, f := s.kernel.sends[i], UnsentTicket(s.tickets);
    SendSlotsUpdate(s.kernel.sends, i, e.(transmitted := true));
    assert Outstanding(t) == Outstanding(s);
    forall k: nat ensures Fates(t, k) == Fates(s, k) {
      TallyAppend(WireTicket, s.wire, t.wire[|s.wire|], k);
      TallyUpdate(f, s.kernel.sends, i, e.(transmitted := true), k);
    }
  }

  lemma RemoveRising(m: map<nat, nat>, a: seq<nat>, b: seq<nat>, i: nat)
    requires Rising(m, a + b) && i < |a|
    ensures Rising(m, RemoveAt(a, i) + b)
  {
    var c := RemoveAt(a, i) + b;
    assert forall j :: 0 <= j < |c| ==> c[j] == (a + b)[if j < i then j else j + 1];
  }

  lemma FinishFate(cfg: Config, s: World, i: nat)
    requires Inv(cfg, s) && FateInv(s) && Enabled(cfg, s, KernelFinish(i))
    ensures FateInv(Next(cfg, s, KernelFinish(i)).world)
  {
    var t := Next(cfg, s, KernelFinish(i)).world;
    InKernel(cfg, s, i);
    SendSlotsRemove(s.kernel.sends, i);
    RemoveRising(s.tickets, Collect(SendSlot, s.kernel.sends), Collect(SqSlot, s.sq), i);
    forall k: nat ensures Fates(t, k) == Fates(s, k) {
      FinishCount(s, t, i, k);
    }
  }

  lemma FinishCount(s: World, t: World, i: nat, k: nat)
    requires i < |s.kernel.sends| && s.kernel.sends[i].slot in s.tickets
    requires t.sq == s.sq && t.tickets == s.tickets && t.wire == s.wire && t.kernel.sends == RemoveAt(s.kernel.sends, i)
    requires t.failed == if s.kernel.sends[i].transmitted then s.failed else s.failed + [s.tickets[s.kernel.sends[i].slot]]
    ensures Fates(t, k) == Fates(s, k)
  {
    TallyRemoveAt(UnsentTicket(s.tickets), s.kernel.sends, i, k);
    TallyAppend(Same, s.failed, s.tickets[s.kernel.sends[i].slot], k);
  }

  lemma SameFate(s: World, t: World)
    requires FateInv(s) && t.sq == s.sq && t.kernel.sends == s.kernel.sends
    requires t.tickets == s.tickets && t.accepted == s.accepted && t.wire == s.wire && t.failed == s.failed
    ensures FateInv(t)
  {
    assert Outstanding(t) == Outstanding(s);
    forall k: nat ensures Fates(t, k) == Fates(s, k) {}
  }

  // ----- whole runs -----

  lemma ArmFate(cfg: Config, s: World, group: nat)
    requires SendInv(cfg, s) && FateInv(s) && group < cfg.Groups() && PrepareRead(cfg, s, group, true).Ok?
    ensures FateInv(PrepareRead(cfg, s, group, true).world)
  {
    PrepareReadSplit(cfg, s, group);
    ArmedKernel(cfg, Submitted(s), group);
    SubmitFate(s, PrepareRead(cfg, s, group, true).world);
  }

  lemma FinishReadFate(cfg: Config, s: World)
    requires Inv(cfg, s) && FateInv(s) && FinishRead(cfg, s, true).Ok?
    ensures FateInv(FinishRead(cfg, s, true).world)
  {
    if Arms(s, Finish(true)) {
      TallyAt(Same, s.freeGroups, 0);
      assert GroupPlaces(s, s.freeGroups[0]) == if s.freeGroups[0] < s.prepared then 1 else 0;
      ArmFate(cfg, s, s.freeGroups[0]);
      SameFate(PrepareRead(cfg, s, s.freeGroups[0], true).world, FinishRead(cfg, s, true).world);
    }
  }

  lemma StepFate(cfg: Config, s: World, step: Step)
    requires Inv(cfg, s) && FateInv(s) && Enabled(cfg, s, step) && Next(cfg, s, step).Ok?
    ensures FateInv(Next(cfg, s, step).world)
  {
    match step
    case AddSend(data, dest) => AddFate(cfg, s, data, dest);
    case KernelTransmit(i) => TransmitFate(cfg, s, i);
    case KernelFinish(i) => FinishFate(cfg, s, i);
    case Commit(accept) => CommitFate(cfg, s, accept);
    case PrepareNext(_) => PrepareFate(cfg, s);
    case Finish(_) => FinishReadFate(cfg, s);
    case _ => OtherFate(cfg, s, step);
  }

  lemma CommitFate(cfg: Config, s: World, accept: bool)
    requires SendInv(cfg, s) && FateInv(s)
    ensures FateInv(CommitSend(s, accept))
  {
    if s.changed && accept { SubmitFate(s, CommitSend(s, accept)); }
  }

  lemma PrepareFate(cfg: Config, s: World)
    requires SendInv(cfg, s) && FateInv(s) && s.prepared < cfg.Groups() && PrepareOne(cfg, s, true).Ok?
    ensures FateInv(PrepareOne(cfg, s, true).world)
  {
    ArmFate(cfg, s, s.prepared);
    SameFate(PrepareRead(cfg, s, s.prepared, true).world, PrepareOne(cfg, s, true).world);
  }

  /** The steps that have nothing to do with sending. */
  lemma OtherFate(cfg: Config, s: World, step: Step)
    requires FateInv(s) && Enabled(cfg, s, step) && Next(cfg, s, step).Ok?
    requires step.PollOne? || step.Recv? || step.KernelNotify? || step.KernelWrite? || step.KernelEnd? || step.KernelAck?
    ensures FateInv(Next(cfg, s, step).world)
  {
    OtherSame(cfg, s, step);
    SameFate(s, Next(cfg, s, step).world);
  }

  lemma OtherSame(cfg: Config, s: World, step: Step)
    requires Enabled(cfg, s, step) && Next(cfg, s, step).Ok?
    requires step.PollOne? || step.Recv? || step.KernelNotify? || step.KernelWrite? || step.KernelEnd? || step.KernelAck?
    ensures var t := Next(cfg, s, step).world;
            && t.sq == s.sq && t.kernel.sends == s.kernel.sends
            && t.tickets == s.tickets && t.accepted == s.accepted && t.wire == s.wire && t.failed == s.failed
  {}

  lemma {:induction false} RunFate(cfg: Config, steps: seq<Step>)
    requires cfg.Valid() && Run(cfg, Initial(cfg), steps).Some?
    ensures FateInv(Run(cfg, Initial(cfg), steps).value)
  {
    if steps == [] {
    } else {
      var init := steps[..|steps| - 1];
      RunFate(cfg, init);
      InitialInv(cfg);
      RunKeeps(cfg, Initial(cfg), init);
      StepFate(cfg, Run(cfg, Initial(cfg), init).value, steps[|steps| - 1]);
    }
  }

  /**
   * In every reachable state each accepted packet is in exactly one place: on the wire, in a slot
   * that waits to be transmitted, or finished by the kernel without; and no other ticket is anywhere.
   */
  lemma PacketFate(cfg: Config, s: World, k: nat)
    requires cfg.Valid() && Reachable(cfg, s)
    ensures Tally(WireTicket, s.wire, k) + Tally(Same, s.failed, k)
            + Tally(UnsentTicket(s.tickets), s.kernel.sends, k) + Tally(SqTicket(s.tickets), s.sq, k)
            == if k < |s.accepted| then 1 else 0
  {
    var steps :| Run(cfg, Initial(cfg), steps) == Some(s);
    RunFate(cfg, steps);
    assert Fates(s, k) == if k < |s.accepted| then 1 else 0;
  }

  /** The kernel gets packets in the order they were accepted: what it has, and then what waits to be submitted, is in that order. */
  lemma SubmittedInOrder(cfg: Config, s: World, i: nat, j: nat)
    requires cfg.Valid() && Reachable(cfg, s) && i < j < |Outstanding(s)|
    ensures Outstanding(s)[i] in s.tickets && Outstanding(s)[j] in s.tickets
    ensures s.tickets[Outstanding(s)[i]] < s.tickets[Outstanding(s)[j]] < |s.accepted|
  {
    var steps :| Run(cfg, Initial(cfg), steps) == Some(s);
    RunFate(cfg, steps);
    ReachableInv(cfg, s);
    OutstandingLoaded(s, i);
    OutstandingLoaded(s, j);
    assert Loaded(s, Outstanding(s)[i]) && Loaded(s, Outstanding(s)[j]);
  }
}
