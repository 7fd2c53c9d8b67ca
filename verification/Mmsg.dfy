/** `UdpSocket2Mmsg`: an array-backed batch that goes out in one `sendmmsg`. */
module Mmsg {
  import opened Seqs
  import opened Net

  /** What `sendmmsg` came to: how many packets went out, or an error. */
  datatype SendOutcome = SentCount(n: nat) | SendError

  /** `Panicked` is the end of the program. */
  datatype SendResult = Accepted(len: nat) | Failed | Panicked

  /** The batch and its history: packets accepted, datagrams sent, packets a commit gave up. */
  datatype Batch = Batch(pending: seq<Packet>, accepted: seq<Packet>, wire: seq<Sent>, lost: nat)

  function Numbered(from: nat, pkts: seq<Packet>): seq<Sent> {
    seq(|pkts|, i requires 0 <= i < |pkts| => Sent(from + i, pkts[i]))
  }

  function Went(b: Batch, o: SendOutcome): nat {
    if o.SendError? then 0 else if o.n <= |b.pending| then o.n else |b.pending|
  }

  /** The cursor is reset first: whatever did not go out is gone. */
  function Committed(b: Batch, o: SendOutcome): Batch {
    var n := Went(b, o);
    Batch([], b.accepted, b.wire + Numbered(|b.wire| + b.lost, b.pending[..n]), b.lost + |b.pending| - n)
  }

  /** A full batch is committed first; if that fails the new packet is refused. */
  function Added(queue: nat, b: Batch, data: Bytes, dest: SocketAddr, o: SendOutcome): Batch {
    if Refused(queue, b, o) then Committed(b, o)
    else
      var c := if |b.pending| == queue then Committed(b, o) else b;
      c.(pending := c.pending + [Packet(data, dest)], accepted := c.accepted + [Packet(data, dest)])
  }

  predicate Refused(queue: nat, b: Batch, o: SendOutcome) {
    |b.pending| == queue && o.SendError?
  }

  /** The packet is taken although there are no slots, or it is too long for one. */
  predicate Panics(queue: nat, b: Batch, data: Bytes, o: SendOutcome) {
    !Refused(queue, b, o) && (queue == 0 || |data| > MAX_PAYLOAD)
  }

  datatype Op = AddOp(data: Bytes, dest: SocketAddr, o: SendOutcome) | CommitOp(o: SendOutcome)

  /** `None` is a panic. */
  function Apply(queue: nat, b: Batch, op: Op): Option<Batch> {
    match op
    case AddOp(data, dest, o) => if Panics(queue, b, data, o) then None else Some(Added(queue, b, data, dest, o))
    case CommitOp(o) => Some(Committed(b, o))
  }

  function Run(queue: nat, ops: seq<Op>): Option<Batch> {
    if ops == [] then Some(Batch([], [], [], 0))
    else match Run(queue, ops[..|ops| - 1])
      case None => None
      case Some(b) => Apply(queue, b, ops[|ops| - 1])
  }

  function Packets(wire: seq<Sent>): seq<Packet> {
    seq(|wire|, i requires 0 <= i < |wire| => wire[i].packet)
  }

  ghost predicate Inv(queue: nat, b: Batch) {
    && |b.pending| <= queue && |b.pending| <= |b.accepted|
    && b.pending == b.accepted[|b.accepted| - |b.pending|..]
    && InOrder(b.accepted, b.wire)
    && (forall i :: 0 <= i < |b.wire| ==> b.wire[i].ticket < |b.accepted| - |b.pending|)
    && |b.wire| + |b.pending| + b.lost == |b.accepted|
  }

  lemma CommitKeeps(queue: nat, b: Batch, o: SendOutcome)
    requires Inv(queue, b)
    ensures Inv(queue, Committed(b, o)) && |Committed(b, o).pending| == 0
  {
    var c := Committed(b, o);
    forall i | |b.wire| <= i < |c.wire| ensures c.wire[i] == Sent(|b.wire| + b.lost + i - |b.wire|, b.pending[i - |b.wire|]) {}
  }

  lemma AddKeeps(queue: nat, b: Batch, data: Bytes, dest: SocketAddr, o: SendOutcome)
    requires Inv(queue, b) && !Panics(queue, b, data, o)
    ensures Inv(queue, Added(queue, b, data, dest, o))
  {
    if |b.pending| == queue {
      CommitKeeps(queue, b, o);
    }
  }

  lemma {:induction false} RunKeeps(queue: nat, ops: seq<Op>)
    ensures Run(queue, ops).Some? ==> Inv(queue, Run(queue, ops).value)
  {
    if ops == [] || Run(queue, ops).None? {
    } else {
      RunKeeps(queue, ops[..|ops| - 1]);
      var b := Run(queue, ops[..|ops| - 1]).value;
      match ops[|ops| - 1]
      case AddOp(data, dest, o) => AddKeeps(queue, b, data, dest, o);
      case CommitOp(o) => CommitKeeps(queue, b, o);
    }
  }

  /** Strictly increasing tickets below `n` that number `n` are all of them. */
  lemma {:induction false} Dense(wire: seq<Sent>, n: nat)
    requires |wire| == n && (forall i :: 0 <= i < n ==> wire[i].ticket < n)
    requires forall i, j :: 0 <= i < j < n ==> wire[i].ticket < wire[j].ticket
    ensures forall i :: 0 <= i < n ==> wire[i].ticket == i
  {
    if n == 0 {
    } else {
      var init := wire[..n - 1];
      assert forall i :: 0 <= i < n - 1 ==> init[i].ticket < wire[n - 1].ticket;
      Dense(init, n - 1);
      assert forall i :: 0 <= i < n - 1 ==> wire[i] == init[i];
      if n > 1 { assert init[n - 2].ticket < wire[n - 1].ticket; }
    }
  }

  /**
   * Whatever the sends come to, the wire carries accepted packets in order and none twice; the
   * wire followed by the pending packets is everything accepted exactly when nothing was lost.
   */
  lemma BatchRefinement(queue: nat, ops: seq<Op>)
    requires Run(queue, ops).Some?
    ensures var b := Run(queue, ops).value;
            && InOrder(b.accepted, b.wire)
            && (Packets(b.wire) + b.pending == b.accepted <==> b.lost == 0)
            && |b.wire| + |b.pending| + b.lost == |b.accepted|
  {
    RunKeeps(queue, ops);
    WholeOrLost(queue, Run(queue, ops).value);
  }

  lemma WholeOrLost(queue: nat, b: Batch)
    requires Inv(queue, b)
    ensures Packets(b.wire) + b.pending == b.accepted <==> b.lost == 0
  {
    if b.lost == 0 {
      Dense(b.wire, |b.wire|);
      assert b.accepted == b.accepted[..|b.wire|] + b.pending;
      assert Packets(b.wire) == b.accepted[..|b.wire|];
    } else {
      assert |Packets(b.wire) + b.pending| != |b.accepted|;
    }
  }

  /** If the call sends, it sends its whole batch. */
  predicate InFull(queue: nat, b: Batch, op: Op) {
    op.CommitOp? || |b.pending| == queue ==> b.pending == [] || (op.o.SentCount? && op.o.n >= |b.pending|)
  }

  /** Every send of the run, asked for or forced by a full batch, sent its whole batch. */
  ghost predicate AllInFull(queue: nat, ops: seq<Op>) {
    forall i :: 0 <= i < |ops| && Run(queue, ops[..i]).Some? ==> InFull(queue, Run(queue, ops[..i]).value, ops[i])
  }

  /** Nothing is lost exactly when every send goes out in full. */
  lemma {:induction false} NothingLost(queue: nat, ops: seq<Op>)
    requires Run(queue, ops).Some?
    ensures Run(queue, ops).value.lost == 0 <==> AllInFull(queue, ops)
  {
    if ops == [] {
    } else {
      var init, last := ops[..|ops| - 1], ops[|ops| - 1];
      NothingLost(queue, init);
      InFullSplit(queue, ops);
      ApplyLoses(queue, Run(queue, init).value, last);
    }
  }

  lemma InFullSplit(queue: nat, ops: seq<Op>)
    requires ops != []
    ensures AllInFull(queue, ops) <==>
              && AllInFull(queue, ops[..|ops| - 1])
              && (Run(queue, ops[..|ops| - 1]).Some? ==> InFull(queue, Run(queue, ops[..|ops| - 1]).value, ops[|ops| - 1]))
  {
    var init := ops[..|ops| - 1];
    forall i | 0 <= i < |init| ensures init[..i] == ops[..i] && init[i] == ops[i] {}
  }

  lemma ApplyLoses(queue: nat, b: Batch, op: Op)
    requires Apply(queue, b, op).Some?
    ensures Apply(queue, b, op).value.lost >= b.lost
    ensures Apply(queue, b, op).value.lost == b.lost <==> InFull(queue, b, op)
  {}

  class UdpSocket {
    const queue: nat
    const bufs: array<NetPacket>
    var queueLen: nat
    ghost var accepted: seq<Packet>
    ghost var wire: seq<Sent>
    ghost var lost: nat

    ghost predicate Valid()
      reads this, bufs
    {
      && bufs.Length == queue && queueLen <= queue
      && (forall i :: 0 <= i < queue ==> bufs[i].Valid())
      && Inv(queue, View())
    }

    /** What the slots below the cursor hold. */
    ghost function View(): Batch
      reads this, bufs
    {
      Batch(Slots(bufs[..], queueLen), accepted, wire, lost)
    }

    constructor (queue: nat)
      ensures Valid() && View() == Batch([], [], [], 0) && this.queue == queue && fresh(bufs)
    {
      this.queue := queue;
      bufs := new NetPacket[queue](_ => NetPacket(seq(MAX_PAYLOAD, _ => 0), 0, SocketAddr(0, 0)));
      queueLen, accepted, wire, lost := 0, [], [], 0;
      new;
    }

    /** Takes a packet into the next slot, after a commit if there is none. */
    method AddSendTo(data: Bytes, dest: SocketAddr, o: SendOutcome) returns (r: SendResult)
      requires Valid()
      modifies this, bufs
      ensures r == if old(queueLen) == queue && o.SendError? then Failed
                   else if queue == 0 || |data| > 1500 then Panicked else Accepted(|data|)
      ensures r.Panicked? <==> Panics(queue, old(View()), data, o)
      ensures !r.Panicked? ==> Valid() && View() == Added(queue, old(View()), data, dest, o)
      ensures !r.Panicked? ==> accepted == if r.Accepted? then old(accepted) + [Packet(data, dest)] else old(accepted)
      ensures r.Accepted? ==> View().pending == (if old(queueLen) == queue then [] else old(View()).pending) + [Packet(data, dest)]
      ensures !r.Panicked? && old(queueLen) < queue ==> wire == old(wire) && lost == old(lost)
    {
      ghost var start := View();
      if queueLen == queue {
        var sent := CommitSendTo(o);
        if !sent {
          return Failed;
        }
      }
      if queueLen >= bufs.Length || |data| > MAX_PAYLOAD {
        return Panicked;
      }
      AddKeeps(queue, start, data, dest, o);
      PushSlot(data, dest);
      assert View() == Added(queue, start, data, dest, o);
      return Accepted(|data|);
    }

    /** Fills the slot at the cursor. */
    method PushSlot(data: Bytes, dest: SocketAddr)
      requires |data| <= MAX_PAYLOAD && queueLen < bufs.Length && forall i :: 0 <= i < bufs.Length ==> bufs[i].Valid()
      modifies this`queueLen, this`accepted, bufs
      ensures queueLen == old(queueLen) + 1 && forall i :: 0 <= i < bufs.Length ==> bufs[i].Valid()
      ensures var b := old(View());
              View() == b.(pending := b.pending + [Packet(data, dest)], accepted := b.accepted + [Packet(data, dest)])
    {
      ghost var slots := bufs[..];
      var slot := queueLen;
      queueLen := queueLen + 1;
      bufs[slot] := bufs[slot].Fill(data, dest);
      accepted := accepted + [Packet(data, dest)];
      assert bufs[..] == slots[slot := slots[slot].Fill(data, dest)];
      SlotsFill(slots, slot, data, dest);
    }

    /** Collects the slots below the cursor and sends them; the cursor is reset before the send. */
    method CommitSendTo(o: SendOutcome) returns (ok: bool)
      requires Valid()
      modifies this
      ensures Valid() && View() == Committed(old(View()), o)
      ensures ok <==> !o.SendError?
      ensures queueLen == 0 && accepted == old(accepted) && |wire| - |old(wire)| + lost - old(lost) == old(queueLen)
      ensures o.SendError? ==> wire == old(wire)
      ensures o.SentCount? ==> Packets(wire) == Packets(old(wire)) + old(View()).pending[..if o.n <= old(queueLen) then o.n else old(queueLen)]
    {
      ghost var before := View();
      CommitKeeps(queue, before, o);
      var size := queueLen;
      queueLen := 0;
      var iovs: seq<Packet> := [];
      for i := 0 to size
        invariant queueLen == 0 && accepted == before.accepted && wire == before.wire && lost == before.lost
        invariant iovs == before.pending[..i]
      {
        iovs := iovs + [bufs[i].View()];
      }
      assert iovs == before.pending;
      ghost var n := Went(before, o);
      wire := wire + Numbered(|wire| + lost, iovs[..n]);
      lost := lost + size - n;
      assert Slots(bufs[..], 0) == [];
      assert View() == Committed(before, o);
      return !o.SendError?;
    }
  }

  /** Filling the slot at the cursor adds one packet to those below it. */
  lemma SlotsFill(bufs: seq<NetPacket>, n: nat, data: Bytes, dest: SocketAddr)
    requires n < |bufs| && bufs[n].Valid() && |data| <= MAX_PAYLOAD
    ensures bufs[n].Fill(data, dest).Valid()
    ensures Slots(bufs[n := bufs[n].Fill(data, dest)], n + 1) == Slots(bufs, n) + [Packet(data, dest)]
  {}

  ghost function Slots(bufs: seq<NetPacket>, n: nat): seq<Packet> {
    seq(n, i requires 0 <= i < n => if i < |bufs| && bufs[i].Valid() then bufs[i].View() else Packet([], SocketAddr(0, 0)))
  }
}
