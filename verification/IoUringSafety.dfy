/**
 * What every step of the io_uring protocol keeps: who owns each send slot, receive buffer and
 * buffer group, and that no buffer's content changes while the other side may still look at it.
 */
module IoUringSafety {
  import opened Seqs
  import opened Net
  import opened Codec
  import opened IoUring

  // ----- places -----

  function SqSlot(e: Sqe): Option<nat> {
    if e.SendMsgZc? then Some(e.slot) else None
  }

  function SendSlot(e: KernelSend): Option<nat> {
    Some(e.slot)
  }

  function UnsentSlot(e: KernelSend): Option<nat> {
    if e.transmitted then None else Some(e.slot)
  }

  function FinalSlot(c: Cqe): Option<nat> {
    if Decode(c.userData).Send? && !c.more then Some(Decode(c.userData).slot) else None
  }

  function DataIndex(c: Cqe): Option<nat> {
    if Decode(c.userData).Recv? && c.more && c.bid.Some? then Some(ToU32(Decode(c.userData).group, c.bid.value)) else None
  }

  function FinalGroup(c: Cqe): Option<nat> {
    if Decode(c.userData).Recv? && !c.more then Some(Decode(c.userData).group) else None
  }

  function PoolIndex(b: KernelBuf): Option<nat> {
    Some(b.buf)
  }

  function ArmedGroup(r: KernelRecv): Option<nat> {
    Some(r.group)
  }

  /** Receive buffers that hold a packet not yet returned, oldest completion first. */
  function Filled(s: World): seq<nat> {
    s.waitQueue + Collect(DataIndex, s.cq)
  }

  /** In how many places the application may not touch slot `x`: queued, in the kernel, final completion unread. */
  function BusyPlaces(s: World, x: nat): nat {
    Tally(SqSlot, s.sq, x) + Tally(SendSlot, s.kernel.sends, x) + Tally(FinalSlot, s.cq, x)
  }

  predicate Busy(s: World, x: nat) {
    BusyPlaces(s, x) > 0
  }

  /** In how many places slot `x` is. */
  function SlotPlaces(s: World, x: nat): nat {
    Tally(Same, s.freeSlots, x) + BusyPlaces(s, x)
  }

  /** In how many places the permission to arm group `g` is. */
  function GroupPlaces(s: World, g: nat): nat {
    Tally(ArmedGroup, s.kernel.recvs, g) + Tally(FinalGroup, s.cq, g) + Tally(Same, s.freeGroups, g)
  }

  /** In how many places receive buffer `x` is, not counting buffers already consumed. */
  function BufferPlaces(s: World, x: nat): nat {
    Tally(PoolIndex, s.kernel.pool, x) + Tally(Same, s.waitQueue, x) + Tally(DataIndex, s.cq, x)
  }

  // ----- the invariant -----

  predicate SendEntries(cfg: Config, sq: seq<Sqe>) {
    forall i :: 0 <= i < |sq| ==> sq[i].SendMsgZc? && sq[i].slot < cfg.sendQueue && sq[i].userData == Encode(Send(sq[i].slot))
  }

  ghost predicate SendShape(cfg: Config, s: World) {
    && cfg.Valid()
    && |s.sendBufs| == cfg.sendQueue && (forall x :: 0 <= x < |s.sendBufs| ==> s.sendBufs[x].Valid())
    && SendEntries(cfg, s.sq)
    && (forall i :: 0 <= i < |s.kernel.sends| ==>
          s.kernel.sends[i].slot < cfg.sendQueue && s.kernel.sends[i].userData == Encode(Send(s.kernel.sends[i].slot)))
    && (forall i :: 0 <= i < |s.cq| && Decode(s.cq[i].userData).Send? ==> Decode(s.cq[i].userData).slot < cfg.sendQueue)
  }

  predicate RecvCqe(prepared: nat, c: Cqe) {
    Decode(c.userData).Recv? ==>
      && Decode(c.userData).group < prepared
      && (c.more <==> c.bid.Some?) && (c.bid.Some? ==> c.bid.value < GROUP_SIZE)
  }

  ghost predicate RecvShape(cfg: Config, s: World) {
    && cfg.Valid()
    && |s.readBufs| == cfg.recvQueue && s.prepared <= cfg.Groups()
    && (forall i :: 0 <= i < |s.kernel.pool| ==>
          && s.kernel.pool[i].group < cfg.Groups() && s.kernel.pool[i].bid < GROUP_SIZE
          && s.kernel.pool[i].buf == ToU32(s.kernel.pool[i].group, s.kernel.pool[i].bid))
    && (forall i :: 0 <= i < |s.kernel.recvs| ==>
          s.kernel.recvs[i].group < cfg.Groups() && s.kernel.recvs[i].userData == Encode(UserData.Recv(s.kernel.recvs[i].group)))
    && (forall i :: 0 <= i < |s.kernel.acks| ==> Decode(s.kernel.acks[i]).ProvideBuffers?)
    && (forall i :: 0 <= i < |s.cq| ==> RecvCqe(s.prepared, s.cq[i]))
    && (forall i :: 0 <= i < |s.waitQueue| ==> s.waitQueue[i] < s.prepared * GROUP_SIZE)
  }

  /** Free, queued, in the kernel, completed: every slot is in exactly one of them, once. */
  ghost predicate SlotsPartitioned(cfg: Config, s: World) {
    forall x: nat :: SlotPlaces(s, x) == if x < cfg.sendQueue then 1 else 0
  }

  /** A prepared group is armed, completed or free to be armed: exactly one of them, once. */
  ghost predicate GroupsPartitioned(s: World) {
    forall g: nat :: GroupPlaces(s, g) == if g < s.prepared then 1 else 0
  }

  /** No receive buffer is in two places: what the kernel may still fill holds no unread packet. */
  ghost predicate BuffersDisjoint(s: World) {
    forall x: nat :: BufferPlaces(s, x) <= 1
  }

  /** Only armed groups have buffers in the kernel, and a group's final completion comes after its data. */
  ghost predicate GroupsOrdered(s: World) {
    && (forall i :: 0 <= i < |s.kernel.pool| ==> Tally(ArmedGroup, s.kernel.recvs, s.kernel.pool[i].group) > 0)
    && (forall i, j :: 0 <= i < j < |s.cq| && FinalGroup(s.cq[i]).Some? && DataIndex(s.cq[j]).Some? ==>
          Decode(s.cq[i].userData) != Decode(s.cq[j].userData))
    && (forall j :: 0 <= j < |s.cq| && DataIndex(s.cq[j]).Some? ==> Decode(s.cq[j].userData).group !in s.freeGroups)
  }

  function Contents(bufs: seq<Packet>, idx: seq<nat>): seq<Packet>
    requires forall i :: 0 <= i < |idx| ==> idx[i] < |bufs|
  {
    seq(|idx|, i requires 0 <= i < |idx| => bufs[idx[i]])
  }

  /** Returned packets, then filled buffers in completion order, are the packets the kernel wrote. */
  ghost predicate Mailbox(s: World) {
    && (forall i :: 0 <= i < |Filled(s)| ==> Filled(s)[i] < |s.readBufs|)
    && s.returned + Contents(s.readBufs, Filled(s)) == s.arrivals
  }

  /** Slot `x` holds a packet the kernel has not put on the wire yet. */
  predicate Untransmitted(s: World, x: nat) {
    Tally(SqSlot, s.sq, x) + Tally(UnsentSlot, s.kernel.sends, x) > 0
  }

  /** Slot `x` holds the packet that took it. */
  ghost predicate Loaded(s: World, x: nat) {
    && x < |s.sendBufs| && s.sendBufs[x].Valid() && x in s.tickets && s.tickets[x] < |s.accepted|
    && s.sendBufs[x].View() == s.accepted[s.tickets[x]]
  }

  /** A busy slot holds the packet that took it, and its packet goes out at most once. */
  ghost predicate SendsFaithful(s: World) {
    && (forall x: nat :: Busy(s, x) ==> Loaded(s, x))
    && (forall x: nat, y: nat :: Busy(s, x) && Busy(s, y) && x != y ==> s.tickets[x] != s.tickets[y])
    && AtMostOnce(s.accepted, s.wire)
    && (forall x: nat, i :: Untransmitted(s, x) && Busy(s, x) && 0 <= i < |s.wire| ==> s.wire[i].ticket != s.tickets[x])
  }

  ghost predicate Flagged(s: World) {
    s.sq != [] ==> s.changed
  }

  ghost predicate SendInv(cfg: Config, s: World) {
    SendShape(cfg, s) && SlotsPartitioned(cfg, s) && SendsFaithful(s) && Flagged(s)
  }

  ghost predicate RecvInv(cfg: Config, s: World) {
    RecvShape(cfg, s) && GroupsPartitioned(s) && BuffersDisjoint(s) && GroupsOrdered(s) && Mailbox(s)
  }

  ghost predicate Inv(cfg: Config, s: World) {
    SendInv(cfg, s) && RecvInv(cfg, s)
  }

  // ----- helpers -----

  lemma IotaTally(n: nat, x: nat)
    ensures Tally(Same, Iota(n), x) == if x < n then 1 else 0
  {}

  lemma InitialInv(cfg: Config)
    requires cfg.Valid()
    ensures Inv(cfg, Initial(cfg))
  {
    InitialSends(cfg);
    assert RecvInv(cfg, Initial(cfg));
  }

  lemma InitialSends(cfg: Config)
    requires cfg.Valid()
    ensures SendInv(cfg, Initial(cfg))
  {
    var s := Initial(cfg);
    forall x: nat ensures SlotPlaces(s, x) == if x < cfg.sendQueue then 1 else 0 {
      IotaTally(cfg.sendQueue, x);
    }
    assert forall x: nat :: !Busy(s, x);
  }

  lemma CqTallyAppend(cq: seq<Cqe>, c: Cqe, x: nat)
    ensures Tally(FinalSlot, cq + [c], x) == Tally(FinalSlot, cq, x) + One(FinalSlot(c), x)
    ensures Tally(DataIndex, cq + [c], x) == Tally(DataIndex, cq, x) + One(DataIndex(c), x)
    ensures Tally(FinalGroup, cq + [c], x) == Tally(FinalGroup, cq, x) + One(FinalGroup(c), x)
  {
    TallyAppend(FinalSlot, cq, c, x);
    TallyAppend(DataIndex, cq, c, x);
    TallyAppend(FinalGroup, cq, c, x);
  }

  lemma CqTallyPop(cq: seq<Cqe>, x: nat)
    requires cq != []
    ensures Tally(FinalSlot, cq, x) == Tally(FinalSlot, cq[1..], x) + One(FinalSlot(cq[0]), x)
    ensures Tally(DataIndex, cq, x) == Tally(DataIndex, cq[1..], x) + One(DataIndex(cq[0]), x)
    ensures Tally(FinalGroup, cq, x) == Tally(FinalGroup, cq[1..], x) + One(FinalGroup(cq[0]), x)
  {
    TallyHead(FinalSlot, cq, x);
    TallyHead(DataIndex, cq, x);
    TallyHead(FinalGroup, cq, x);
  }

  /** Slots that stop being busy do not disturb the others. */
  lemma SendsFrame(s: World, t: World)
    requires SendsFaithful(s)
    requires t.sendBufs == s.sendBufs && t.tickets == s.tickets && t.accepted == s.accepted && t.wire == s.wire
    requires forall x: nat :: BusyPlaces(t, x) <= BusyPlaces(s, x)
    requires forall x: nat :: Untransmitted(t, x) ==> Untransmitted(s, x)
    ensures SendsFaithful(t)
  {
    forall x: nat | Busy(t, x) ensures Busy(s, x) && Loaded(t, x) {
      assert Loaded(s, x);
    }
  }

  /** A step that leaves the send side alone; it may complete or poll receives. */
  lemma SendSideSame(cfg: Config, s: World, t: World)
    requires SendInv(cfg, s)
    requires t.sendBufs == s.sendBufs && t.tickets == s.tickets && t.accepted == s.accepted && t.wire == s.wire
    requires t.freeSlots == s.freeSlots && t.sq == s.sq && t.kernel.sends == s.kernel.sends && t.changed == s.changed
    requires forall i :: 0 <= i < |t.cq| && Decode(t.cq[i].userData).Send? ==> Decode(t.cq[i].userData).slot < cfg.sendQueue
    requires forall x: nat :: Tally(FinalSlot, t.cq, x) == Tally(FinalSlot, s.cq, x)
    ensures SendInv(cfg, t)
  {
    forall x: nat ensures SlotPlaces(t, x) == SlotPlaces(s, x) && BusyPlaces(t, x) == BusyPlaces(s, x) {}
    SendsFrame(s, t);
  }

  /** A completion that frees no slot leaves the send side alone. */
  lemma SilentCompletion(cfg: Config, s: World, t: World, c: Cqe)
    requires SendInv(cfg, s) && t.cq == s.cq + [c] && FinalSlot(c).None?
    requires Decode(c.userData).Send? ==> Decode(c.userData).slot < cfg.sendQueue
    requires t.sendBufs == s.sendBufs && t.tickets == s.tickets && t.accepted == s.accepted && t.wire == s.wire
    requires t.freeSlots == s.freeSlots && t.sq == s.sq && t.kernel.sends == s.kernel.sends && t.changed == s.changed
    ensures SendInv(cfg, t)
  {
    forall x: nat ensures Tally(FinalSlot, t.cq, x) == Tally(FinalSlot, s.cq, x) {
      CqTallyAppend(s.cq, c, x);
    }
    SendSideSame(cfg, s, t);
  }

  /** A step that leaves the receive side alone. */
  lemma RecvSideSame(cfg: Config, s: World, t: World)
    requires RecvInv(cfg, s)
    requires t.readBufs == s.readBufs && t.waitQueue == s.waitQueue && t.freeGroups == s.freeGroups && t.cq == s.cq
    requires t.kernel.pool == s.kernel.pool && t.kernel.recvs == s.kernel.recvs && t.kernel.acks == s.kernel.acks
    requires t.arrivals == s.arrivals && t.returned == s.returned && t.prepared == s.prepared
    ensures RecvInv(cfg, t)
  {
    forall x: nat ensures GroupPlaces(t, x) == GroupPlaces(s, x) && BufferPlaces(t, x) == BufferPlaces(s, x) {}
    assert Filled(t) == Filled(s);
  }

  // ----- polling -----

  lemma PollSends(cfg: Config, s: World)
    requires SendInv(cfg, s) && s.cq != [] && Poll(s).Ok?
    ensures SendInv(cfg, Poll(s).world)
  {
    var t := Poll(s).world;
    forall x: nat ensures SlotPlaces(t, x) == SlotPlaces(s, x) && BusyPlaces(t, x) <= BusyPlaces(s, x) {
      PollSlot(s, x);
    }
    SendsFrame(s, t);
  }

  lemma PollSlot(s: World, x: nat)
    requires s.cq != [] && Poll(s).Ok?
    ensures SlotPlaces(Poll(s).world, x) == SlotPlaces(s, x) && BusyPlaces(Poll(s).world, x) <= BusyPlaces(s, x)
  {
    var t := Poll(s).world;
    CqTallyPop(s.cq, x);
    if t.freeSlots != s.freeSlots {
      TallyAppend(Same, s.freeSlots, Decode(s.cq[0].userData).slot, x);
    }
  }

  lemma PollRecvShape(cfg: Config, s: World)
    requires RecvShape(cfg, s) && s.cq != []
    ensures Poll(s).Ok? && RecvShape(cfg, Poll(s).world)
  {
    assert RecvCqe(s.prepared, s.cq[0]);
  }

  lemma PollRecvPlaces(s: World)
    requires GroupsPartitioned(s) && BuffersDisjoint(s) && s.cq != [] && RecvCqe(s.prepared, s.cq[0]) && Poll(s).Ok?
    ensures GroupsPartitioned(Poll(s).world) && BuffersDisjoint(Poll(s).world)
  {
    var t := Poll(s).world;
    forall x: nat ensures GroupPlaces(t, x) == GroupPlaces(s, x) && BufferPlaces(t, x) == BufferPlaces(s, x) {
      CqTallyPop(s.cq, x);
      if t.freeGroups != s.freeGroups {
        TallyAppend(Same, s.freeGroups, Decode(s.cq[0].userData).group, x);
      }
      if t.waitQueue != s.waitQueue {
        TallyAppend(Same, s.waitQueue, DataIndex(s.cq[0]).value, x);
      }
    }
  }

  lemma PollMailbox(s: World, prepared: nat)
    requires Mailbox(s) && s.cq != [] && RecvCqe(prepared, s.cq[0])
    requires Poll(s).Ok?
    ensures Mailbox(Poll(s).world)
  {
    PollFilled(s, prepared);
  }

  lemma PollFilled(s: World, prepared: nat)
    requires s.cq != [] && Poll(s).Ok? && RecvCqe(prepared, s.cq[0])
    ensures Filled(Poll(s).world) == Filled(s)
  {
    CollectHead(DataIndex, s.cq);
    assert Filled(s) == Filled(Poll(s).world);
  }

  lemma PollOrdered(s: World, prepared: nat)
    requires GroupsOrdered(s) && s.cq != [] && RecvCqe(prepared, s.cq[0])
    requires Poll(s).Ok?
    ensures GroupsOrdered(Poll(s).world)
  {}

  lemma PollKeeps(cfg: Config, s: World)
    requires Inv(cfg, s) && s.cq != []
    ensures Poll(s).Ok? && Inv(cfg, Poll(s).world)
  {
    PollRecvShape(cfg, s);
    PollRecvPlaces(s);
    PollMailbox(s, s.prepared);
    PollOrdered(s, s.prepared);
    PollSends(cfg, s);
  }

  // ----- sending -----

  lemma {:induction false} SqSlotsAll(sq: seq<Sqe>)
    requires forall i :: 0 <= i < |sq| ==> sq[i].SendMsgZc?
    ensures |Collect(SqSlot, sq)| == |sq|
  {
    if sq == [] {
    } else {
      SqSlotsAll(sq[..|sq| - 1]);
    }
  }

  /** Pending entries are sends of distinct slots, so there are at most SEND_QUEUE of them. */
  lemma PendingBound(cfg: Config, s: World)
    requires SendShape(cfg, s) && SlotsPartitioned(cfg, s)
    ensures |s.sq| <= cfg.sendQueue
    ensures s.freeSlots != [] ==> |s.sq| < cfg.sendQueue
  {
    var slots := s.freeSlots + Collect(SqSlot, s.sq);
    SqSlotsAll(s.sq);
    forall x: nat ensures Tally(Same, slots, x) <= if x < cfg.sendQueue then 1 else 0 {
      TallyConcat(Same, s.freeSlots, Collect(SqSlot, s.sq), x);
      TallyCollect(SqSlot, s.sq, x);
      assert SlotPlaces(s, x) == if x < cfg.sendQueue then 1 else 0;
    }
    PigeonHole(slots, cfg.sendQueue);
  }

  lemma AddOk(cfg: Config, s: World, data: Bytes, dest: SocketAddr)
    requires SendShape(cfg, s) && SlotsPartitioned(cfg, s)
    ensures Add(cfg, s, data, dest).Ok? <==> s.freeSlots == [] || |data| <= MAX_PAYLOAD
    ensures s.freeSlots != [] ==> s.freeSlots[0] < cfg.sendQueue && !Busy(s, s.freeSlots[0])
  {
    if s.freeSlots != [] {
      var i := s.freeSlots[0];
      TallyAt(Same, s.freeSlots, 0);
      assert SlotPlaces(s, i) == if i < cfg.sendQueue then 1 else 0;
      PendingBound(cfg, s);
    }
  }

  lemma AddSends(cfg: Config, s: World, data: Bytes, dest: SocketAddr)
    requires SendsFaithful(s) && Add(cfg, s, data, dest).Ok?
    requires s.freeSlots != [] && !Busy(s, s.freeSlots[0])
    ensures SendsFaithful(Add(cfg, s, data, dest).world)
  {
    var i := s.freeSlots[0];
    var t := Add(cfg, s, data, dest).world;
    forall x: nat ensures Busy(t, x) ==> Loaded(t, x) && (x != i ==> Busy(s, x))
                  ensures x != i && Untransmitted(t, x) ==> Untransmitted(s, x) {
      TallyAppend(SqSlot, s.sq, SendMsgZc(i, Encode(UserData.Send(i))), x);
      if x != i && Busy(s, x) { assert Loaded(s, x); }
    }
  }

  lemma AddKeeps(cfg: Config, s: World, data: Bytes, dest: SocketAddr)
    requires Inv(cfg, s)
    ensures Add(cfg, s, data, dest).Ok? <==> s.freeSlots == [] || |data| <= MAX_PAYLOAD
    ensures Add(cfg, s, data, dest).Ok? ==> Inv(cfg, Add(cfg, s, data, dest).world)
  {
    AddOk(cfg, s, data, dest);
    if s.freeSlots != [] && |data| <= MAX_PAYLOAD {
      var i := s.freeSlots[0];
      var t := Add(cfg, s, data, dest).world;
      forall x: nat ensures SlotPlaces(t, x) == SlotPlaces(s, x) {
        TallyHead(Same, s.freeSlots, x);
        TallyAppend(SqSlot, s.sq, SendMsgZc(i, Encode(UserData.Send(i))), x);
      }
      AddSends(cfg, s, data, dest);
      RecvSideSame(cfg, s, t);
    }
  }

  // ----- submitting -----

  /** Submitting sends moves each of them to the kernel, unread, and does nothing else. */
  lemma {:induction false} SubmitSends(cfg: Config, sq: seq<Sqe>)
    requires SendEntries(cfg, sq)
    ensures Collect(ToBuf, sq) == [] && Collect(ToRecv, sq) == [] && Collect(ToAck, sq) == []
    ensures forall i :: 0 <= i < |Collect(ToSend, sq)| ==>
              var e := Collect(ToSend, sq)[i]; e.slot < cfg.sendQueue && e.userData == Encode(Send(e.slot)) && !e.transmitted
    ensures forall x: nat :: Tally(SendSlot, Collect(ToSend, sq), x) == Tally(SqSlot, sq, x) == Tally(UnsentSlot, Collect(ToSend, sq), x)
  {
    if sq == [] {
    } else {
      var init, e := sq[..|sq| - 1], sq[|sq| - 1];
      SubmitSends(cfg, init);
      forall x: nat
        ensures Tally(SendSlot, Collect(ToSend, sq), x) == Tally(SqSlot, sq, x) == Tally(UnsentSlot, Collect(ToSend, sq), x)
      {
        TallyAppend(SendSlot, Collect(ToSend, init), ToSend(e).value, x);
        TallyAppend(UnsentSlot, Collect(ToSend, init), ToSend(e).value, x);
      }
    }
  }

  function Submitted(s: World): World {
    s.(sq := [], kernel := Handover(s.kernel, s.sq))
  }

  lemma SubmitKeeps(cfg: Config, s: World)
    requires Inv(cfg, s)
    ensures Inv(cfg, Submitted(s))
    ensures Submitted(s).kernel == s.kernel.(sends := Submitted(s).kernel.sends)
  {
    var t := Submitted(s);
    SubmitSends(cfg, s.sq);
    forall x: nat
      ensures BusyPlaces(t, x) == BusyPlaces(s, x) && SlotPlaces(t, x) == SlotPlaces(s, x)
      ensures Untransmitted(t, x) ==> Untransmitted(s, x)
    {
      TallyConcat(SendSlot, s.kernel.sends, Collect(ToSend, s.sq), x);
      TallyConcat(UnsentSlot, s.kernel.sends, Collect(ToSend, s.sq), x);
    }
    SendsFrame(s, t);
    RecvSideSame(cfg, s, t);
  }

  lemma CommitKeeps(cfg: Config, s: World, accept: bool)
    requires Inv(cfg, s)
    ensures Inv(cfg, CommitSend(s, accept))
  {
    var t := CommitSend(s, accept);
    if t != s {
      SubmitKeeps(cfg, s);
      var u := Submitted(s);
      assert t == u.(changed := false);
      assert forall x: nat :: SlotPlaces(t, x) == SlotPlaces(u, x);
      SendsFrame(u, t);
      RecvSideSame(cfg, u, t);
    }
  }

  // ----- arming a group -----

  lemma {:induction false} ProvidesOnly(group: nat, n: nat)
    requires n <= GROUP_SIZE
    ensures Collect(ToSend, Provides(group, n)) == [] && Collect(ToRecv, Provides(group, n)) == []
    ensures var bufs := Collect(ToBuf, Provides(group, n));
            && (forall i :: 0 <= i < |bufs| ==> bufs[i].group == group && bufs[i].bid < GROUP_SIZE && bufs[i].buf == ToU32(group, bufs[i].bid))
            && (forall x: nat :: Tally(PoolIndex, bufs, x) == if ToU32(group, 0) <= x < ToU32(group, n) then 1 else 0)
    ensures |Provides(group, n)| == n
  {
    if n == 0 {
    } else {
      ProvidesOnly(group, n - 1);
      var init := Provides(group, n - 1);
      var e := ProvideBuffer(group, n - 1, ToU32(group, n - 1), Encode(ProvideBuffers(ToU32(group, n - 1))));
      CollectAppend(ToSend, init, e);
      CollectAppend(ToRecv, init, e);
      CollectAppend(ToBuf, init, e);
      forall x: nat
        ensures Tally(PoolIndex, Collect(ToBuf, Provides(group, n)), x) == if ToU32(group, 0) <= x < ToU32(group, n) then 1 else 0
      {
        TallyAppend(PoolIndex, Collect(ToBuf, init), ToBuf(e).value, x);
      }
    }
  }

  lemma {:induction false} ProvidesAre(group: nat, n: nat)
    ensures |Provides(group, n)| == n
    ensures forall i :: 0 <= i < n ==> Provides(group, n)[i] == ProvideBuffer(group, i, 16 * group + i, 0x2_0000_0000 + 16 * group + i)
  {
    if n == 0 {
    } else {
      ProvidesAre(group, n - 1);
    }
  }

  /** Arming a group pushes its sixteen buffers, numbered without gaps, and only then the receive that uses them. */
  lemma EntriesAre(group: nat)
    ensures var entries := GroupEntries(group);
            && |entries| == 17 && entries[16] == RecvMsgMulti(group, 0x1_0000_0000 + group)
            && forall i :: 0 <= i < 16 ==> entries[i] == ProvideBuffer(group, i, 16 * group + i, 0x2_0000_0000 + 16 * group + i)
  {
    ProvidesAre(group, GROUP_SIZE);
  }

  lemma {:induction false} ProvideAcks(cfg: Config, group: nat, n: nat)
    requires cfg.Valid() && group < cfg.Groups() && n <= GROUP_SIZE
    ensures forall i :: 0 <= i < |Collect(ToAck, Provides(group, n))| ==> Decode(Collect(ToAck, Provides(group, n))[i]).ProvideBuffers?
  {
    if n == 0 {
    } else {
      ProvideAcks(cfg, group, n - 1);
      var e := ProvideBuffer(group, n - 1, ToU32(group, n - 1), Encode(ProvideBuffers(ToU32(group, n - 1))));
      CollectAppend(ToAck, Provides(group, n - 1), e);
    }
  }

  function Armed(s: World, group: nat): Kernel {
    Handover(s.kernel, GroupEntries(group))
  }

  lemma ArmedKernel(cfg: Config, s: World, group: nat)
    requires cfg.Valid() && group < cfg.Groups()
    ensures var k := Armed(s, group);
            && k.sends == s.kernel.sends
            && k.recvs == s.kernel.recvs + [KernelRecv(group, Encode(UserData.Recv(group)))]
            && k.pool == s.kernel.pool + Collect(ToBuf, Provides(group, GROUP_SIZE))
            && k.acks == s.kernel.acks + Collect(ToAck, Provides(group, GROUP_SIZE))
  {
    ProvidesOnly(group, GROUP_SIZE);
    var ps, e := Provides(group, GROUP_SIZE), RecvMsgMulti(group, Encode(UserData.Recv(group)));
    CollectAppend(ToSend, ps, e);
    CollectAppend(ToBuf, ps, e);
    CollectAppend(ToRecv, ps, e);
    CollectAppend(ToAck, ps, e);
  }

  /** `prepare_read` is a submit of what was pending followed by the arming of one group. */
  lemma PrepareReadSplit(cfg: Config, s: World, group: nat)
    requires PrepareRead(cfg, s, group, true).Ok?
    ensures PrepareRead(cfg, s, group, true).world == Submitted(s).(kernel := Armed(Submitted(s), group))
  {
    CollectConcat(ToSend, s.sq, GroupEntries(group));
    CollectConcat(ToBuf, s.sq, GroupEntries(group));
    CollectConcat(ToRecv, s.sq, GroupEntries(group));
    CollectConcat(ToAck, s.sq, GroupEntries(group));
    var k, k' := Handover(s.kernel, s.sq + GroupEntries(group)), Armed(Submitted(s), group);
    assert k.sends == k'.sends && k.pool == k'.pool && k.recvs == k'.recvs && k.acks == k'.acks;
  }

  /** No buffer of a group that is not armed and has no unread packet is held by anybody. */
  lemma GroupIdle(cfg: Config, s: World, group: nat, x: nat)
    requires RecvInv(cfg, s) && Tally(ArmedGroup, s.kernel.recvs, group) == 0
    requires ToU32(group, 0) <= x < ToU32(group, GROUP_SIZE)
    requires forall i :: 0 <= i < |s.waitQueue| ==> s.waitQueue[i] != x
    requires forall j :: 0 <= j < |s.cq| && DataIndex(s.cq[j]).Some? ==> Decode(s.cq[j].userData).group != group
    ensures BufferPlaces(s, x) == 0
  {
    if i :| 0 <= i < |s.kernel.pool| && PoolIndex(s.kernel.pool[i]) == Some(x) {
      assert false;
    }
    if Tally(PoolIndex, s.kernel.pool, x) > 0 {
      var i := TallyWitness(PoolIndex, s.kernel.pool, x);
    }
    if Tally(Same, s.waitQueue, x) > 0 {
      var i := TallyWitness(Same, s.waitQueue, x);
    }
    if j :| 0 <= j < |s.cq| && RecvCqe(s.prepared, s.cq[j]) && DataIndex(s.cq[j]) == Some(x) {
      assert false;
    }
    if Tally(DataIndex, s.cq, x) > 0 {
      var j := TallyWitness(DataIndex, s.cq, x);
    }
  }

  /** The permission to arm `group` is in hand: not armed, not completed, not free, and counted in `t`. */
  ghost predicate Permitted(s: World, t: World, group: nat) {
    forall g: nat ::
      Tally(ArmedGroup, s.kernel.recvs, g) + Tally(FinalGroup, s.cq, g) + Tally(Same, t.freeGroups, g) + (if g == group then 1 else 0)
      == if g < t.prepared then 1 else 0
  }

  /** `t` is `s` with `group` armed, by a permission taken from the free groups or from the groups not yet prepared. */
  lemma ArmKeeps(cfg: Config, s: World, group: nat, t: World)
    requires Inv(cfg, s) && group < cfg.Groups()
    requires t == s.(kernel := Armed(s, group), freeGroups := t.freeGroups, prepared := t.prepared)
    requires s.prepared <= t.prepared <= cfg.Groups()
    requires forall g :: g in t.freeGroups ==> g in s.freeGroups
    requires Permitted(s, t, group)
    requires forall x: nat :: ToU32(group, 0) <= x < ToU32(group, GROUP_SIZE) ==> BufferPlaces(s, x) == 0
    ensures Inv(cfg, t)
  {
    ArmedKernel(cfg, s, group);
    ArmedShape(cfg, s, group, t);
    ArmedPlaces(cfg, s, group, t);
    ArmedOrdered(cfg, s, group, t);
    SendSideSame(cfg, s, t);
    assert Filled(t) == Filled(s);
  }

  lemma ArmedShape(cfg: Config, s: World, group: nat, t: World)
    requires RecvShape(cfg, s) && group < cfg.Groups()
    requires t == s.(kernel := Armed(s, group), freeGroups := t.freeGroups, prepared := t.prepared)
    requires s.prepared <= t.prepared <= cfg.Groups()
    ensures RecvShape(cfg, t)
  {
    ArmedKernel(cfg, s, group);
    ProvidesOnly(group, GROUP_SIZE);
    ProvideAcks(cfg, group, GROUP_SIZE);
    forall j | 0 <= j < |t.cq| ensures RecvCqe(t.prepared, t.cq[j]) {
      assert RecvCqe(s.prepared, s.cq[j]);
    }
  }

  lemma ArmedPlaces(cfg: Config, s: World, group: nat, t: World)
    requires RecvInv(cfg, s) && group < cfg.Groups()
    requires t == s.(kernel := Armed(s, group), freeGroups := t.freeGroups, prepared := t.prepared)
    requires Permitted(s, t, group)
    requires forall x: nat :: ToU32(group, 0) <= x < ToU32(group, GROUP_SIZE) ==> BufferPlaces(s, x) == 0
    ensures GroupsPartitioned(t) && BuffersDisjoint(t)
  {
    ArmedKernel(cfg, s, group);
    ProvidesOnly(group, GROUP_SIZE);
    var bufs := Collect(ToBuf, Provides(group, GROUP_SIZE));
    forall x: nat ensures GroupPlaces(t, x) == if x < t.prepared then 1 else 0 {
      TallyAppend(ArmedGroup, s.kernel.recvs, KernelRecv(group, Encode(UserData.Recv(group))), x);
    }
    forall x: nat ensures BufferPlaces(t, x) <= 1 {
      TallyConcat(PoolIndex, s.kernel.pool, bufs, x);
      assert BufferPlaces(s, x) <= 1;
    }
  }

  lemma ArmedOrdered(cfg: Config, s: World, group: nat, t: World)
    requires RecvInv(cfg, s) && group < cfg.Groups()
    requires t == s.(kernel := Armed(s, group), freeGroups := t.freeGroups, prepared := t.prepared)
    requires forall g :: g in t.freeGroups ==> g in s.freeGroups
    ensures GroupsOrdered(t)
  {
    ArmedKernel(cfg, s, group);
    ProvidesOnly(group, GROUP_SIZE);
    forall i | 0 <= i < |t.kernel.pool| ensures Tally(ArmedGroup, t.kernel.recvs, t.kernel.pool[i].group) > 0 {
      TallyAppend(ArmedGroup, s.kernel.recvs, KernelRecv(group, Encode(UserData.Recv(group))), t.kernel.pool[i].group);
    }
  }

  /** The ring always has room for the seventeen entries of a group. */
  predicate RoomForGroup(cfg: Config) {
    cfg.recvQueue == 0 || cfg.sendQueue + GROUP_SIZE + 1 <= cfg.capacity
  }

  /** Nobody holds a buffer of the next group to prepare. */
  lemma NewGroupIdle(cfg: Config, u: World)
    requires RecvInv(cfg, u)
    ensures forall x: nat :: ToU32(u.prepared, 0) <= x < ToU32(u.prepared, GROUP_SIZE) ==> BufferPlaces(u, x) == 0
  {
    var g := u.prepared;
    assert GroupPlaces(u, g) == 0;
    forall j | 0 <= j < |u.cq| && DataIndex(u.cq[j]).Some? ensures Decode(u.cq[j].userData).group != g {
      assert RecvCqe(u.prepared, u.cq[j]);
    }
    forall x: nat | ToU32(g, 0) <= x < ToU32(g, GROUP_SIZE) ensures BufferPlaces(u, x) == 0 {
      GroupIdle(cfg, u, g, x);
    }
  }

  lemma NewGroupPermitted(u: World, t: World)
    requires GroupsPartitioned(u) && t.freeGroups == u.freeGroups && t.prepared == u.prepared + 1
    ensures Permitted(u, t, u.prepared)
  {
    forall x: nat
      ensures Tally(ArmedGroup, u.kernel.recvs, x) + Tally(FinalGroup, u.cq, x) + Tally(Same, t.freeGroups, x) + (if x == u.prepared then 1 else 0)
              == if x < t.prepared then 1 else 0
    {
      assert GroupPlaces(u, x) == if x < u.prepared then 1 else 0;
    }
  }

  lemma ArmNext(cfg: Config, u: World, t: World)
    requires Inv(cfg, u) && u.prepared < cfg.Groups()
    requires t == u.(kernel := Armed(u, u.prepared), prepared := u.prepared + 1)
    ensures Inv(cfg, t)
  {
    NewGroupIdle(cfg, u);
    NewGroupPermitted(u, t);
    ArmKeeps(cfg, u, u.prepared, t);
  }

  lemma PrepareKeeps(cfg: Config, s: World)
    requires Inv(cfg, s) && s.prepared < cfg.Groups()
    requires PrepareOne(cfg, s, true).Ok?
    ensures Inv(cfg, PrepareOne(cfg, s, true).world)
  {
    PrepareReadSplit(cfg, s, s.prepared);
    SubmitKeeps(cfg, s);
    ArmNext(cfg, Submitted(s), PrepareOne(cfg, s, true).world);
  }

  lemma FinishKeeps(cfg: Config, s: World)
    requires Inv(cfg, s) && FinishRead(cfg, s, true).Ok?
    ensures Inv(cfg, FinishRead(cfg, s, true).world)
  {
    if s.waitQueue == [] && s.freeGroups != [] {
      SubmitKeeps(cfg, s);
      PrepareReadSplit(cfg, s.(freeGroups := s.freeGroups[1..]), s.freeGroups[0]);
      ArmFree(cfg, Submitted(s), FinishRead(cfg, s, true).world);
    }
  }

  /** The oldest free group may be armed again when nothing waits to be read. */
  lemma ArmFree(cfg: Config, u: World, t: World)
    requires Inv(cfg, u) && u.waitQueue == [] && u.freeGroups != []
    requires t == u.(kernel := Armed(u, u.freeGroups[0]), freeGroups := u.freeGroups[1..])
    ensures Inv(cfg, t)
  {
    var g := u.freeGroups[0];
    TallyAt(Same, u.freeGroups, 0);
    assert GroupPlaces(u, g) == if g < u.prepared then 1 else 0;
    forall x: nat | ToU32(g, 0) <= x < ToU32(g, GROUP_SIZE) ensures BufferPlaces(u, x) == 0 {
      GroupIdle(cfg, u, g, x);
    }
    FreeGroupPermitted(u, t);
    ArmKeeps(cfg, u, g, t);
  }

  lemma FreeGroupPermitted(u: World, t: World)
    requires GroupsPartitioned(u) && u.freeGroups != [] && t.freeGroups == u.freeGroups[1..] && t.prepared == u.prepared
    ensures Permitted(u, t, u.freeGroups[0])
  {
    forall x: nat
      ensures Tally(ArmedGroup, u.kernel.recvs, x) + Tally(FinalGroup, u.cq, x) + Tally(Same, t.freeGroups, x) + (if x == u.freeGroups[0] then 1 else 0)
              == if x < t.prepared then 1 else 0
    {
      TallyHead(Same, u.freeGroups, x);
      assert GroupPlaces(u, x) == if x < u.prepared then 1 else 0;
    }
  }

  lemma ReceivePlaces(s: World)
    requires GroupsPartitioned(s) && BuffersDisjoint(s) && s.waitQueue != [] && Receive(s).Ok?
    ensures GroupsPartitioned(Receive(s).world) && BuffersDisjoint(Receive(s).world)
  {
    var t := Receive(s).world;
    forall x: nat ensures BufferPlaces(t, x) <= 1 {
      TallyHead(Same, s.waitQueue, x);
      assert BufferPlaces(s, x) <= 1;
    }
    forall x: nat ensures GroupPlaces(t, x) == GroupPlaces(s, x) {}
  }

  lemma ReceiveMailbox(s: World)
    requires Mailbox(s) && s.waitQueue != []
    ensures Receive(s).Ok? && Mailbox(Receive(s).world)
  {
    assert Filled(s)[0] == s.waitQueue[0] && Filled(s)[1..] == s.waitQueue[1..] + Collect(DataIndex, s.cq);
    ContentsHead(s.readBufs, Filled(s), s.returned);
  }

  lemma ContentsHead(bufs: seq<Packet>, idx: seq<nat>, before: seq<Packet>)
    requires idx != [] && forall i :: 0 <= i < |idx| ==> idx[i] < |bufs|
    ensures before + Contents(bufs, idx) == before + [bufs[idx[0]]] + Contents(bufs, idx[1..])
  {}

  lemma ReceiveKeeps(cfg: Config, s: World)
    requires Inv(cfg, s)
    ensures Receive(s).Ok? && Inv(cfg, Receive(s).world)
  {
    if s.waitQueue != [] {
      ReceiveMailbox(s);
      ReceivePlaces(s);
      SendSideSame(cfg, s, Receive(s).world);
    }
  }

  // ----- the kernel -----

  /** A completion that is not about receiving. */
  lemma CompleteOther(cfg: Config, s: World, t: World, c: Cqe)
    requires RecvInv(cfg, s) && t.cq == s.cq + [c] && !Decode(c.userData).Recv?
    requires t == s.(cq := t.cq, failed := t.failed, kernel := s.kernel.(sends := t.kernel.sends, acks := t.kernel.acks))
    requires forall i :: 0 <= i < |t.kernel.acks| ==> t.kernel.acks[i] in s.kernel.acks
    ensures RecvInv(cfg, t)
  {
    OtherMailbox(s, t, c);
    OtherPlaces(s, t, c);
    assert GroupsOrdered(t);
  }

  lemma OtherMailbox(s: World, t: World, c: Cqe)
    requires Mailbox(s) && t.cq == s.cq + [c] && !Decode(c.userData).Recv? && t.waitQueue == s.waitQueue
    requires t.readBufs == s.readBufs && t.returned == s.returned && t.arrivals == s.arrivals
    ensures Mailbox(t)
  {
    CollectAppend(DataIndex, s.cq, c);
    assert Filled(t) == Filled(s);
  }

  lemma OtherPlaces(s: World, t: World, c: Cqe)
    requires GroupsPartitioned(s) && BuffersDisjoint(s) && t.cq == s.cq + [c] && !Decode(c.userData).Recv?
    requires t.waitQueue == s.waitQueue && t.freeGroups == s.freeGroups && t.prepared == s.prepared
    requires t.kernel.pool == s.kernel.pool && t.kernel.recvs == s.kernel.recvs
    ensures GroupsPartitioned(t) && BuffersDisjoint(t)
  {
    forall x: nat ensures GroupPlaces(t, x) == GroupPlaces(s, x) && BufferPlaces(t, x) == BufferPlaces(s, x) {
      CqTallyAppend(s.cq, c, x);
    }
  }

  lemma NotifyKeeps(cfg: Config, s: World, i: nat)
    requires Inv(cfg, s) && Enabled(cfg, s, KernelNotify(i))
    ensures Inv(cfg, Next(cfg, s, KernelNotify(i)).world)
  {
    var t := Next(cfg, s, KernelNotify(i)).world;
    var c := t.cq[|s.cq|];
    assert s.kernel.sends[i].userData == Encode(Send(s.kernel.sends[i].slot));
    CompleteOther(cfg, s, t, c);
    SilentCompletion(cfg, s, t, c);
  }

  lemma FinishSendKeeps(cfg: Config, s: World, i: nat)
    requires Inv(cfg, s) && Enabled(cfg, s, KernelFinish(i))
    ensures Inv(cfg, Next(cfg, s, KernelFinish(i)).world)
  {
    var t := Next(cfg, s, KernelFinish(i)).world;
    assert s.kernel.sends[i].userData == Encode(Send(s.kernel.sends[i].slot));
    CompleteOther(cfg, s, t, t.cq[|s.cq|]);
    FinishSendSends(cfg, s, i);
  }

  lemma FinishedSlot(s: World, t: World, i: nat, c: Cqe, x: nat)
    requires i < |s.kernel.sends| && FinalSlot(c) == SendSlot(s.kernel.sends[i])
    requires t == s.(cq := s.cq + [c], failed := t.failed, kernel := s.kernel.(sends := RemoveAt(s.kernel.sends, i)))
    ensures SlotPlaces(t, x) == SlotPlaces(s, x) && BusyPlaces(t, x) == BusyPlaces(s, x)
    ensures Untransmitted(t, x) ==> Untransmitted(s, x)
  {
    CqTallyAppend(s.cq, c, x);
    TallyRemoveAt(SendSlot, s.kernel.sends, i, x);
    TallyRemoveAt(UnsentSlot, s.kernel.sends, i, x);
  }

  lemma FinishShape(cfg: Config, s: World, i: nat)
    requires SendShape(cfg, s) && Enabled(cfg, s, KernelFinish(i))
    ensures var t := Next(cfg, s, KernelFinish(i)).world;
            && SendShape(cfg, t) && |t.cq| == |s.cq| + 1 && FinalSlot(t.cq[|s.cq|]) == SendSlot(s.kernel.sends[i])
            && t == s.(cq := s.cq + [t.cq[|s.cq|]], failed := t.failed, kernel := s.kernel.(sends := RemoveAt(s.kernel.sends, i)))
  {
    assert s.kernel.sends[i].userData == Encode(Send(s.kernel.sends[i].slot));
  }

  lemma FinishSendSends(cfg: Config, s: World, i: nat)
    requires SendInv(cfg, s) && Enabled(cfg, s, KernelFinish(i))
    ensures SendInv(cfg, Next(cfg, s, KernelFinish(i)).world)
  {
    var t := Next(cfg, s, KernelFinish(i)).world;
    var c := t.cq[|s.cq|];
    FinishShape(cfg, s, i);
    forall x: nat
      ensures SlotPlaces(t, x) == SlotPlaces(s, x) && BusyPlaces(t, x) == BusyPlaces(s, x)
      ensures Untransmitted(t, x) ==> Untransmitted(s, x)
    {
      FinishedSlot(s, t, i, c, x);
    }
    SendsFrame(s, t);
  }

  /** The slot of a send the kernel may read is busy, in the kernel exactly once, and not otherwise pending. */
  lemma InKernel(cfg: Config, s: World, i: nat)
    requires SendInv(cfg, s) && i < |s.kernel.sends|
    ensures var x := s.kernel.sends[i].slot;
            && x < cfg.sendQueue && Busy(s, x) && Loaded(s, x)
            && Tally(SqSlot, s.sq, x) == 0 && Tally(SendSlot, s.kernel.sends, x) == 1
            && Tally(Same, s.freeSlots, x) == 0 && Tally(FinalSlot, s.cq, x) == 0
  {
    var x := s.kernel.sends[i].slot;
    TallyAt(SendSlot, s.kernel.sends, i);
    assert SlotPlaces(s, x) == if x < cfg.sendQueue then 1 else 0;
    assert Busy(s, x);
  }

  lemma {:induction false} UnsentAtMost(sends: seq<KernelSend>, x: nat)
    ensures Tally(UnsentSlot, sends, x) <= Tally(SendSlot, sends, x)
  {
    if sends == [] {
    } else {
      UnsentAtMost(sends[..|sends| - 1], x);
    }
  }

  lemma TransmitSends(cfg: Config, s: World, i: nat)
    requires SendInv(cfg, s) && Enabled(cfg, s, KernelTransmit(i))
    ensures SendsFaithful(Next(cfg, s, KernelTransmit(i)).world)
    ensures SlotsPartitioned(cfg, Next(cfg, s, KernelTransmit(i)).world)
  {
    var t := Next(cfg, s, KernelTransmit(i)).world;
    var e := s.kernel.sends[i];
    InKernel(cfg, s, i);
    TallyAt(UnsentSlot, s.kernel.sends, i);
    assert Untransmitted(s, e.slot);
    forall x: nat
      ensures SlotPlaces(t, x) == SlotPlaces(s, x) && BusyPlaces(t, x) == BusyPlaces(s, x)
      ensures Untransmitted(t, x) ==> Untransmitted(s, x) && x != e.slot
    {
      TallyUpdate(SendSlot, s.kernel.sends, i, e.(transmitted := true), x);
      TallyUpdate(UnsentSlot, s.kernel.sends, i, e.(transmitted := true), x);
      UnsentAtMost(s.kernel.sends, x);
    }
    TransmitFaithful(s, t, e.slot);
  }

  /** The packet of a slot that waited to be transmitted goes on the wire. */
  lemma TransmitFaithful(s: World, t: World, slot: nat)
    requires SendsFaithful(s) && Busy(s, slot) && Loaded(s, slot) && Untransmitted(s, slot)
    requires t.sendBufs == s.sendBufs && t.tickets == s.tickets && t.accepted == s.accepted
    requires t.wire == s.wire + [Sent(s.tickets[slot], s.accepted[s.tickets[slot]])]
    requires forall x: nat :: BusyPlaces(t, x) == BusyPlaces(s, x)
    requires forall x: nat :: Untransmitted(t, x) ==> Untransmitted(s, x) && x != slot
    ensures SendsFaithful(t)
  {
    forall x: nat | Busy(t, x) ensures Busy(s, x) && Loaded(t, x) {
      assert Loaded(s, x);
    }
  }

  lemma TransmitKeeps(cfg: Config, s: World, i: nat)
    requires Inv(cfg, s) && Enabled(cfg, s, KernelTransmit(i))
    ensures Inv(cfg, Next(cfg, s, KernelTransmit(i)).world)
  {
    TransmitSends(cfg, s, i);
    RecvSideSame(cfg, s, Next(cfg, s, KernelTransmit(i)).world);
  }

  /** The buffer the kernel fills holds no unread packet. */
  lemma WriteIsPrivate(s: World, b: nat, j: nat)
    requires BuffersDisjoint(s) && b < |s.kernel.pool| && j < |Filled(s)|
    ensures Filled(s)[j] != s.kernel.pool[b].buf
  {
    var x := s.kernel.pool[b].buf;
    TallyAt(PoolIndex, s.kernel.pool, b);
    assert BufferPlaces(s, x) <= 1;
    if Filled(s)[j] == x {
      if j < |s.waitQueue| {
        TallyAt(Same, s.waitQueue, j);
      } else {
        var k := CollectOrigin(DataIndex, s.cq, x);
        TallyAt(DataIndex, s.cq, k);
      }
    }
  }

  lemma WriteFilled(s: World, t: World, c: Cqe, buf: nat)
    requires t.cq == s.cq + [c] && t.waitQueue == s.waitQueue && DataIndex(c) == Some(buf)
    ensures Filled(t) == Filled(s) + [buf]
  {
    CollectAppend(DataIndex, s.cq, c);
  }

  lemma WriteMailbox(cfg: Config, s: World, r: nat, b: nat, pkt: Packet)
    requires RecvInv(cfg, s) && Enabled(cfg, s, KernelWrite(r, b, pkt))
    ensures Mailbox(Next(cfg, s, KernelWrite(r, b, pkt)).world)
  {
    var t := Next(cfg, s, KernelWrite(r, b, pkt)).world;
    WriteFilled(s, t, t.cq[|s.cq|], s.kernel.pool[b].buf);
    forall j | 0 <= j < |Filled(s)| ensures Filled(s)[j] != s.kernel.pool[b].buf {
      WriteIsPrivate(s, b, j);
    }
    ContentsAppend(s.readBufs, Filled(s), s.kernel.pool[b].buf, pkt);
  }

  lemma ContentsAppend(bufs: seq<Packet>, idx: seq<nat>, i: nat, pkt: Packet)
    requires i < |bufs| && forall j :: 0 <= j < |idx| ==> idx[j] < |bufs| && idx[j] != i
    ensures Contents(bufs[i := pkt], idx + [i]) == Contents(bufs, idx) + [pkt]
  {}

  lemma RecvPrepared(s: World, r: nat)
    requires GroupsPartitioned(s) && r < |s.kernel.recvs|
    ensures s.kernel.recvs[r].group < s.prepared
  {
    var g := s.kernel.recvs[r].group;
    TallyAt(ArmedGroup, s.kernel.recvs, r);
    assert GroupPlaces(s, g) == if g < s.prepared then 1 else 0;
  }

  lemma WriteShape(cfg: Config, s: World, r: nat, b: nat, pkt: Packet)
    requires RecvShape(cfg, s) && GroupsPartitioned(s) && Enabled(cfg, s, KernelWrite(r, b, pkt))
    ensures RecvShape(cfg, Next(cfg, s, KernelWrite(r, b, pkt)).world)
  {
    var t := Next(cfg, s, KernelWrite(r, b, pkt)).world;
    RecvPrepared(s, r);
    forall i | 0 <= i < |t.cq| ensures RecvCqe(t.prepared, t.cq[i]) {
      if i < |s.cq| { assert RecvCqe(s.prepared, s.cq[i]); }
    }
  }

  lemma WritePlaces(cfg: Config, s: World, r: nat, b: nat, pkt: Packet)
    requires RecvShape(cfg, s) && GroupsPartitioned(s) && BuffersDisjoint(s) && Enabled(cfg, s, KernelWrite(r, b, pkt))
    ensures var t := Next(cfg, s, KernelWrite(r, b, pkt)).world; GroupsPartitioned(t) && BuffersDisjoint(t)
  {
    var t := Next(cfg, s, KernelWrite(r, b, pkt)).world;
    var c := t.cq[|s.cq|];
    assert DataIndex(c) == Some(s.kernel.pool[b].buf);
    forall x: nat ensures GroupPlaces(t, x) == GroupPlaces(s, x) && BufferPlaces(t, x) == BufferPlaces(s, x) {
      CqTallyAppend(s.cq, c, x);
      TallyRemoveAt(PoolIndex, s.kernel.pool, b, x);
    }
  }

  /** An armed group has no final completion pending and is not free. */
  lemma ArmedAlone(s: World, r: nat)
    requires GroupsPartitioned(s) && r < |s.kernel.recvs|
    ensures var g := s.kernel.recvs[r].group;
            && g !in s.freeGroups && Tally(ArmedGroup, s.kernel.recvs, g) == 1
            && (forall i :: 0 <= i < |s.cq| ==> FinalGroup(s.cq[i]) != Some(g))
  {
    var g := s.kernel.recvs[r].group;
    TallyAt(ArmedGroup, s.kernel.recvs, r);
    assert GroupPlaces(s, g) == if g < s.prepared then 1 else 0;
    if i :| 0 <= i < |s.freeGroups| && s.freeGroups[i] == g {
      TallyAt(Same, s.freeGroups, i);
      assert false;
    }
    if i :| 0 <= i < |s.cq| && FinalGroup(s.cq[i]) == Some(g) {
      TallyAt(FinalGroup, s.cq, i);
      assert false;
    }
  }

  lemma WriteOrdered(cfg: Config, s: World, r: nat, b: nat, pkt: Packet)
    requires RecvInv(cfg, s) && Enabled(cfg, s, KernelWrite(r, b, pkt))
    ensures GroupsOrdered(Next(cfg, s, KernelWrite(r, b, pkt)).world)
  {
    var t := Next(cfg, s, KernelWrite(r, b, pkt)).world;
    ArmedAlone(s, r);
    assert Decode(t.cq[|s.cq|].userData) == UserData.Recv(s.kernel.recvs[r].group);
    forall i | 0 <= i < |t.kernel.pool| ensures Tally(ArmedGroup, t.kernel.recvs, t.kernel.pool[i].group) > 0 {
      assert t.kernel.pool[i] == s.kernel.pool[if i < b then i else i + 1];
    }
  }

  lemma WriteKeeps(cfg: Config, s: World, r: nat, b: nat, pkt: Packet)
    requires Inv(cfg, s) && Enabled(cfg, s, KernelWrite(r, b, pkt))
    ensures Inv(cfg, Next(cfg, s, KernelWrite(r, b, pkt)).world)
  {
    var t := Next(cfg, s, KernelWrite(r, b, pkt)).world;
    WriteMailbox(cfg, s, r, b, pkt);
    WriteShape(cfg, s, r, b, pkt);
    WritePlaces(cfg, s, r, b, pkt);
    WriteOrdered(cfg, s, r, b, pkt);
    SilentCompletion(cfg, s, t, t.cq[|s.cq|]);
  }

  lemma EndShape(cfg: Config, s: World, r: nat)
    requires RecvShape(cfg, s) && GroupsPartitioned(s) && Enabled(cfg, s, KernelEnd(r))
    ensures RecvShape(cfg, Next(cfg, s, KernelEnd(r)).world)
  {
    var t := Next(cfg, s, KernelEnd(r)).world;
    RecvPrepared(s, r);
    forall i | 0 <= i < |t.cq| ensures RecvCqe(t.prepared, t.cq[i]) {
      if i < |s.cq| { assert RecvCqe(s.prepared, s.cq[i]); }
    }
  }

  lemma EndPlaces(cfg: Config, s: World, r: nat)
    requires RecvInv(cfg, s) && Enabled(cfg, s, KernelEnd(r))
    ensures var t := Next(cfg, s, KernelEnd(r)).world; GroupsPartitioned(t) && BuffersDisjoint(t) && Mailbox(t)
  {
    var t := Next(cfg, s, KernelEnd(r)).world;
    var c := t.cq[|s.cq|];
    assert FinalGroup(c) == Some(s.kernel.recvs[r].group);
    forall x: nat ensures GroupPlaces(t, x) == GroupPlaces(s, x) && BufferPlaces(t, x) == BufferPlaces(s, x) {
      CqTallyAppend(s.cq, c, x);
      TallyRemoveAt(ArmedGroup, s.kernel.recvs, r, x);
    }
    CollectAppend(DataIndex, s.cq, c);
    assert Filled(t) == Filled(s);
  }

  lemma EndOrdered(cfg: Config, s: World, r: nat)
    requires RecvInv(cfg, s) && Enabled(cfg, s, KernelEnd(r))
    ensures GroupsOrdered(Next(cfg, s, KernelEnd(r)).world)
  {
    var t := Next(cfg, s, KernelEnd(r)).world;
    forall i | 0 <= i < |t.kernel.pool| ensures Tally(ArmedGroup, t.kernel.recvs, t.kernel.pool[i].group) > 0 {
      TallyRemoveAt(ArmedGroup, s.kernel.recvs, r, t.kernel.pool[i].group);
    }
  }

  lemma EndKeeps(cfg: Config, s: World, r: nat)
    requires Inv(cfg, s) && Enabled(cfg, s, KernelEnd(r))
    ensures Inv(cfg, Next(cfg, s, KernelEnd(r)).world)
  {
    var t := Next(cfg, s, KernelEnd(r)).world;
    EndShape(cfg, s, r);
    EndPlaces(cfg, s, r);
    EndOrdered(cfg, s, r);
    SilentCompletion(cfg, s, t, t.cq[|s.cq|]);
  }

  lemma AckKeeps(cfg: Config, s: World)
    requires Inv(cfg, s) && Enabled(cfg, s, KernelAck)
    ensures Inv(cfg, Next(cfg, s, KernelAck).world)
  {
    var t := Next(cfg, s, KernelAck).world;
    CompleteOther(cfg, s, t, t.cq[|s.cq|]);
    SilentCompletion(cfg, s, t, t.cq[|s.cq|]);
  }

  // ----- whole runs -----

  predicate ByKernel(step: Step) {
    match step
    case KernelTransmit(_) => true
    case KernelNotify(_) => true
    case KernelFinish(_) => true
    case KernelWrite(_, _, _) => true
    case KernelEnd(_) => true
    case KernelAck => true
    case _ => false
  }

  lemma KernelStepKeeps(cfg: Config, s: World, step: Step)
    requires Inv(cfg, s) && Enabled(cfg, s, step) && ByKernel(step)
    ensures Next(cfg, s, step).Ok? && Inv(cfg, Next(cfg, s, step).world) && !Arms(s, step) && !Overlong(s, step)
  {
    match step
    case KernelTransmit(i) => TransmitKeeps(cfg, s, i);
    case KernelNotify(i) => NotifyKeeps(cfg, s, i);
    case KernelFinish(i) => FinishSendKeeps(cfg, s, i);
    case KernelWrite(r, b, pkt) => WriteKeeps(cfg, s, r, b, pkt);
    case KernelEnd(r) => EndKeeps(cfg, s, r);
    case KernelAck => AckKeeps(cfg, s);
  }

  /** The step pushes the entries of a group and submits. */
  predicate Arms(s: World, step: Step) {
    step.PrepareNext? || (step.Finish? && s.waitQueue == [] && s.freeGroups != [])
  }

  predicate RingFull(cfg: Config, s: World) {
    |s.sq| + GROUP_SIZE + 1 > cfg.capacity
  }

  /** The step writes more into a free slot than fits. */
  predicate Overlong(s: World, step: Step) {
    step.AddSend? && |step.data| > MAX_PAYLOAD && s.freeSlots != []
  }

  lemma ArmStepKeeps(cfg: Config, s: World, step: Step)
    requires Inv(cfg, s) && Enabled(cfg, s, step) && (step.PrepareNext? || step.Finish?)
    ensures Next(cfg, s, step).Ok? ==> Inv(cfg, Next(cfg, s, step).world)
    ensures Next(cfg, s, step).Crash? <==> Arms(s, step) && (RingFull(cfg, s) || !step.accept)
    ensures RoomForGroup(cfg) && Arms(s, step) ==> !RingFull(cfg, s)
  {
    PendingBound(cfg, s);
    if step.PrepareNext? {
      if PrepareOne(cfg, s, step.accept).Ok? { PrepareKeeps(cfg, s); }
    } else {
      if FinishRead(cfg, s, step.accept).Ok? && FinishRead(cfg, s, true).Ok? { FinishKeeps(cfg, s); }
      if s.freeGroups != [] {
        TallyAt(Same, s.freeGroups, 0);
        assert GroupPlaces(s, s.freeGroups[0]) == if s.freeGroups[0] < s.prepared then 1 else 0;
      }
    }
  }

  lemma CallStepKeeps(cfg: Config, s: World, step: Step)
    requires Inv(cfg, s) && Enabled(cfg, s, step) && !ByKernel(step) && !step.PrepareNext? && !step.Finish?
    ensures Next(cfg, s, step).Crash? <==> Overlong(s, step)
    ensures Next(cfg, s, step).Ok? ==> Inv(cfg, Next(cfg, s, step).world)
  {
    match step
    case PollOne => PollKeeps(cfg, s);
    case AddSend(data, dest) => AddKeeps(cfg, s, data, dest);
    case Commit(accept) => CommitKeeps(cfg, s, accept);
    case Recv => ReceiveKeeps(cfg, s);
  }

  /** The three ways to crash: a ring that is full or a submit that is refused when a group is armed, and data too long for its slot. */
  predicate Crashes(cfg: Config, s: World, step: Step) {
    (Arms(s, step) && (RingFull(cfg, s) || !step.accept)) || Overlong(s, step)
  }

  /** One step of either side keeps the invariant, or crashes in one of these ways. */
  lemma StepKeeps(cfg: Config, s: World, step: Step)
    requires Inv(cfg, s) && Enabled(cfg, s, step)
    ensures Next(cfg, s, step).Ok? ==> Inv(cfg, Next(cfg, s, step).world)
    ensures Next(cfg, s, step).Crash? <==> Crashes(cfg, s, step)
    ensures RoomForGroup(cfg) && Arms(s, step) ==> !RingFull(cfg, s)
  {
    if ByKernel(step) {
      KernelStepKeeps(cfg, s, step);
    } else if step.PrepareNext? || step.Finish? {
      ArmStepKeeps(cfg, s, step);
    } else {
      CallStepKeeps(cfg, s, step);
    }
  }

  /** Every reachable world of every interleaving satisfies the invariant. */
  lemma {:induction false} RunKeeps(cfg: Config, s: World, steps: seq<Step>)
    requires Inv(cfg, s)
    ensures Run(cfg, s, steps).Some? ==> Inv(cfg, Run(cfg, s, steps).value)
  {
    if steps == [] || Run(cfg, s, steps).None? {
    } else {
      RunKeeps(cfg, s, steps[..|steps| - 1]);
      StepKeeps(cfg, Run(cfg, s, steps[..|steps| - 1]).value, steps[|steps| - 1]);
    }
  }

  lemma ReachableInv(cfg: Config, s: World)
    requires cfg.Valid() && Reachable(cfg, s)
    ensures Inv(cfg, s)
  {
    var steps :| Run(cfg, Initial(cfg), steps) == Some(s);
    InitialInv(cfg);
    RunKeeps(cfg, Initial(cfg), steps);
  }
}
