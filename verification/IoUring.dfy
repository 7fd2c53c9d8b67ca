/**
 * The io_uring UDP transport as a protocol between the application and a kernel that reads and
 * writes buffers on its own time. One `Step` is one access to the rings or one kernel action, so a
 * sequence of steps is an interleaving of the two sides.
 */
module IoUring {
  import opened Seqs
  import opened Net
  import opened Codec

  datatype Config = Config(sendQueue: nat, recvQueue: nat, capacity: nat) {
    function Groups(): nat {
      recvQueue / GROUP_SIZE
    }

    /** The assertion of `new`, the widths of the u16 and u32 indices, and the ring size asked for. */
    predicate Valid() {
      && recvQueue % GROUP_SIZE == 0
      && Groups() < U16
      && sendQueue < U32
      && sendQueue + recvQueue <= capacity
    }
  }

  /** Entries of the submission queue. */
  datatype Sqe =
    | SendMsgZc(slot: nat, userData: nat)
    | ProvideBuffer(group: nat, bid: nat, buf: nat, userData: nat)
    | RecvMsgMulti(group: nat, userData: nat)

  /** Entries of the completion queue: the tag, the MORE flag, the selected buffer. */
  datatype Cqe = Cqe(userData: nat, more: bool, bid: Option<nat>)

  datatype KernelSend = KernelSend(slot: nat, userData: nat, transmitted: bool)
  datatype KernelBuf = KernelBuf(group: nat, bid: nat, buf: nat)
  datatype KernelRecv = KernelRecv(group: nat, userData: nat)

  /** What the kernel holds: sends not finally completed, buffers it may fill, armed receives, acknowledgements to post. */
  datatype Kernel = Kernel(sends: seq<KernelSend>, pool: seq<KernelBuf>, recvs: seq<KernelRecv>, acks: seq<nat>)

  /**
   * The socket's fields, the two rings, the kernel, and the history of the run: packets accepted by
   * `add_send_to`, the ticket of each slot's latest packet, datagrams the kernel put on the wire, the
   * tickets of sends that finished without,
   * packets the kernel wrote for us, packets `recv_from` returned, groups prepared so far.
   */
  datatype World = World(
    sendBufs: seq<NetPacket>, freeSlots: seq<nat>,
    readBufs: seq<Packet>, waitQueue: seq<nat>, freeGroups: seq<nat>, changed: bool,
    sq: seq<Sqe>, cq: seq<Cqe>, kernel: Kernel,
    accepted: seq<Packet>, tickets: map<nat, nat>, wire: seq<Sent>, failed: seq<nat>,
    arrivals: seq<Packet>, returned: seq<Packet>, prepared: nat)

  /** A failed `expect` ends the program. */
  datatype Outcome = Ok(world: World) | Crash

  datatype Step =
    | PrepareNext(accept: bool)               // one iteration of `prepare`; the kernel may refuse the submit
    | PollOne                                 // one iteration of `poll_completions`
    | AddSend(data: Bytes, dest: SocketAddr)  // `add_send_to` after its poll
    | Commit(accept: bool)                    // `commit_send_to`; the kernel may refuse
    | Recv                                    // `recv_from` after its poll
    | Finish(accept: bool)                    // `finish_read_from`
    | KernelTransmit(i: nat)
    | KernelNotify(i: nat)                    // first of the two completions of a zero-copy send
    | KernelFinish(i: nat)                    // its final completion
    | KernelWrite(r: nat, b: nat, pkt: Packet)
    | KernelEnd(r: nat)                       // a multishot receive ends
    | KernelAck

  // ----- the application -----

  function Slot0(): NetPacket {
    NetPacket(seq(MAX_PAYLOAD, _ => 0), 0, SocketAddr(0, 0))
  }

  function Iota(n: nat): seq<nat> {
    if n == 0 then [] else Iota(n - 1) + [n - 1]
  }

  function Initial(cfg: Config): World {
    World(
      seq(cfg.sendQueue, _ => Slot0()), Iota(cfg.sendQueue),
      seq(cfg.recvQueue, _ => Packet([], SocketAddr(0, 0))), [], [], false,
      [], [], Kernel([], [], [], []),
      [], map[], [], [], [], [], 0)
  }

  function Provides(group: nat, n: nat): seq<Sqe> {
    if n == 0 then [] else
      Provides(group, n - 1) +
      [ProvideBuffer(group, n - 1, ToU32(group, n - 1), Encode(ProvideBuffers(ToU32(group, n - 1))))]
  }

  /** What `prepare_read` pushes: the sixteen buffers of the group, then the receive that uses them. */
  function GroupEntries(group: nat): seq<Sqe> {
    Provides(group, GROUP_SIZE) + [RecvMsgMulti(group, Encode(UserData.Recv(group)))]
  }

  function ToSend(e: Sqe): Option<KernelSend> {
    if e.SendMsgZc? then Some(KernelSend(e.slot, e.userData, false)) else None
  }

  function ToBuf(e: Sqe): Option<KernelBuf> {
    if e.ProvideBuffer? then Some(KernelBuf(e.group, e.bid, e.buf)) else None
  }

  function ToRecv(e: Sqe): Option<KernelRecv> {
    if e.RecvMsgMulti? then Some(KernelRecv(e.group, e.userData)) else None
  }

  function ToAck(e: Sqe): Option<nat> {
    if e.ProvideBuffer? then Some(e.userData) else None
  }

  /** A submit that succeeds hands over every pending entry, in order. */
  function Handover(k: Kernel, sq: seq<Sqe>): Kernel {
    Kernel(k.sends + Collect(ToSend, sq), k.pool + Collect(ToBuf, sq), k.recvs + Collect(ToRecv, sq), k.acks + Collect(ToAck, sq))
  }

  /** Either a push finds the ring full, or the submit is refused, or everything pending is handed over. */
  function PrepareRead(cfg: Config, s: World, group: nat, accept: bool): Outcome {
    if |s.sq| + GROUP_SIZE + 1 > cfg.capacity || !accept then Crash
    else Ok(s.(sq := [], kernel := Handover(s.kernel, s.sq + GroupEntries(group))))
  }

  /** One iteration of `prepare`: the next group that was not prepared yet. */
  function PrepareOne(cfg: Config, s: World, accept: bool): Outcome {
    match PrepareRead(cfg, s, s.prepared, accept)
    case Crash => Crash
    case Ok(t) => Ok(t.(prepared := s.prepared + 1))
  }

  function Poll(s: World): Outcome
    requires s.cq != []
  {
    var c := s.cq[0];
    var t := s.(cq := s.cq[1..]);
    match Decode(c.userData)
    case Recv(g) =>
      if !c.more then Ok(t.(freeGroups := s.freeGroups + [g]))
      else if c.bid.None? then Crash
      else Ok(t.(waitQueue := s.waitQueue + [ToU32(g, c.bid.value)]))
    case Send(i) =>
      if c.more then Ok(t) else Ok(t.(freeSlots := s.freeSlots + [i]))
    case ProvideBuffers(_) => Ok(t)
  }

  /** `WouldBlock` when no slot is free; data too long for the slot and an index or ring failure are crashes. */
  function Add(cfg: Config, s: World, data: Bytes, dest: SocketAddr): Outcome {
    if s.freeSlots == [] then Ok(s)
    else
      var i := s.freeSlots[0];
      if |data| > MAX_PAYLOAD || i >= |s.sendBufs| || !s.sendBufs[i].Valid() || |s.sq| >= cfg.capacity then Crash
      else Ok(s.(freeSlots := s.freeSlots[1..],
                 sendBufs := s.sendBufs[i := s.sendBufs[i].Fill(data, dest)],
                 sq := s.sq + [SendMsgZc(i, Encode(UserData.Send(i)))],
                 changed := true,
                 accepted := s.accepted + [Packet(data, dest)],
                 tickets := s.tickets[i := |s.accepted|]))
  }

  function CommitSend(s: World, accept: bool): World {
    if !s.changed || !accept then s
    else s.(sq := [], kernel := Handover(s.kernel, s.sq), changed := false)
  }

  function Receive(s: World): Outcome {
    if s.waitQueue == [] then Ok(s)
    else if s.waitQueue[0] >= |s.readBufs| then Crash
    else Ok(s.(waitQueue := s.waitQueue[1..], returned := s.returned + [s.readBufs[s.waitQueue[0]]]))
  }

  function FinishRead(cfg: Config, s: World, accept: bool): Outcome {
    if s.waitQueue == [] && s.freeGroups != []
    then PrepareRead(cfg, s.(freeGroups := s.freeGroups[1..]), s.freeGroups[0], accept)
    else Ok(s)
  }

  // ----- the two sides together -----

  /** What the environment may do when; application calls are always possible. */
  predicate Enabled(cfg: Config, s: World, step: Step) {
    match step
    case PrepareNext(_) => s.prepared < cfg.Groups()
    case PollOne => s.cq != []
    case AddSend(_, _) => true
    case Commit(_) => true
    case Recv => true
    case Finish(_) => true
    case KernelTransmit(i) =>
      && i < |s.kernel.sends| && !s.kernel.sends[i].transmitted
      && s.kernel.sends[i].slot < |s.sendBufs| && s.sendBufs[s.kernel.sends[i].slot].Valid()
      && s.kernel.sends[i].slot in s.tickets
    case KernelNotify(i) => i < |s.kernel.sends|
    case KernelFinish(i) => i < |s.kernel.sends|
    case KernelWrite(r, b, _) =>
      && r < |s.kernel.recvs| && b < |s.kernel.pool|
      && s.kernel.recvs[r].group == s.kernel.pool[b].group && s.kernel.pool[b].buf < |s.readBufs|
    // the final completion follows the data completions of all buffers of the group
    case KernelEnd(r) =>
      && r < |s.kernel.recvs|
      && (forall b :: 0 <= b < |s.kernel.pool| ==> s.kernel.pool[b].group != s.kernel.recvs[r].group)
    case KernelAck => s.kernel.acks != []
  }

  function Next(cfg: Config, s: World, step: Step): Outcome
    requires Enabled(cfg, s, step)
  {
    var k := s.kernel;
    match step
    case PrepareNext(accept) => PrepareOne(cfg, s, accept)
    case PollOne => Poll(s)
    case AddSend(data, dest) => Add(cfg, s, data, dest)
    case Commit(accept) => Ok(CommitSend(s, accept))
    case Recv => Receive(s)
    case Finish(accept) => FinishRead(cfg, s, accept)
    case KernelTransmit(i) =>
      var slot := k.sends[i].slot;
      Ok(s.(wire := s.wire + [Sent(s.tickets[slot], s.sendBufs[slot].View())],
            kernel := k.(sends := k.sends[i := k.sends[i].(transmitted := true)])))
    case KernelNotify(i) =>
      Ok(s.(cq := s.cq + [Cqe(k.sends[i].userData, true, None)]))
    case KernelFinish(i) =>
      var slot := k.sends[i].slot;
      Ok(s.(cq := s.cq + [Cqe(k.sends[i].userData, false, None)], kernel := k.(sends := RemoveAt(k.sends, i)),
            failed := if !k.sends[i].transmitted && slot in s.tickets then s.failed + [s.tickets[slot]] else s.failed))
    case KernelWrite(r, b, pkt) =>
      Ok(s.(readBufs := s.readBufs[k.pool[b].buf := pkt],
            arrivals := s.arrivals + [pkt],
            cq := s.cq + [Cqe(k.recvs[r].userData, true, Some(k.pool[b].bid))],
            kernel := k.(pool := RemoveAt(k.pool, b))))
    case KernelEnd(r) =>
      Ok(s.(cq := s.cq + [Cqe(k.recvs[r].userData, false, None)], kernel := k.(recvs := RemoveAt(k.recvs, r))))
    case KernelAck =>
      Ok(s.(cq := s.cq + [Cqe(k.acks[0], false, None)], kernel := k.(acks := k.acks[1..])))
  }

  /** The world after these steps, if every one of them could be taken and none crashed. */
  function Run(cfg: Config, s: World, steps: seq<Step>): Option<World> {
    if steps == [] then Some(s)
    else
      match Run(cfg, s, steps[..|steps| - 1])
      case None => None
      case Some(m) =>
        var step := steps[|steps| - 1];
        if !Enabled(cfg, m, step) then None
        else match Next(cfg, m, step) case Crash => None case Ok(t) => Some(t)
  }

  ghost predicate Reachable(cfg: Config, s: World) {
    exists steps :: Run(cfg, Initial(cfg), steps) == Some(s)
  }
}
