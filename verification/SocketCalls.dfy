/** The calls a worker makes on its socket in a cycle, on the io_uring transport: what becomes of its sends. */
module SocketCalls {
  import opened Seqs
  import opened Net
  import opened Codec
  import opened IoUring
  import opened IoUringSafety
  import IoUringSocket
  import opened Cycle

  /** One call of the worker, or a step of something else: of the kernel, or of a `recv_from` of the worker. */
  datatype Turn = Other(step: Step) | Call(call: SocketCall, accept: bool)

  predicate IsOther(step: Step) {
    ByKernel(step) || step.PollOne? || step.Recv?
  }

  /** `add_send_to` polls first; `accept` is what the kernel says to a submit. */
  function Calling(cfg: Config, s: World, call: SocketCall, accept: bool): Outcome {
    match call
    case AddSendTo(packet) =>
      (match IoUringSocket.PollAll(s)
       case Crash => Crash
       case Ok(t) => Add(cfg, t, packet.payload, packet.addr))
    case CommitSendTo => Ok(CommitSend(s, accept))
    case FinishReadFrom => FinishRead(cfg, s, accept)
  }

  function Take(cfg: Config, s: World, turn: Turn): Option<World> {
    match turn
    case Other(step) =>
      if !IsOther(step) || !Enabled(cfg, s, step) then None
      else (match Next(cfg, s, step) case Crash => None case Ok(t) => Some(t))
    case Call(call, accept) => match Calling(cfg, s, call, accept) case Crash => None case Ok(t) => Some(t)
  }

  function TakeAll(cfg: Config, s: World, turns: seq<Turn>): Option<World> {
    if turns == [] then Some(s)
    else match TakeAll(cfg, s, turns[..|turns| - 1])
      case None => None
      case Some(t) => Take(cfg, t, turns[|turns| - 1])
  }

  function CallOf(turn: Turn): Option<SocketCall> {
    match turn case Other(_) => None case Call(call, _) => Some(call)
  }

  /** A send is taken if some slot is neither queued nor in the kernel's hands, and dropped otherwise. */
  function Granted(cfg: Config, s: World, turn: Turn): seq<Packet> {
    if turn.Call? && turn.call.AddSendTo? && |s.sq| + |s.kernel.sends| < cfg.sendQueue then [turn.call.packet] else []
  }

  function AllGranted(cfg: Config, s: World, turns: seq<Turn>): seq<Packet> {
    if turns == [] then []
    else
      var init := turns[..|turns| - 1];
      AllGranted(cfg, s, init) +
      match TakeAll(cfg, s, init) case None => [] case Some(t) => Granted(cfg, t, turns[|turns| - 1])
  }

  // ----- one turn -----

  lemma OtherTurn(cfg: Config, s: World, step: Step)
    requires Inv(cfg, s) && Take(cfg, s, Other(step)).Some?
    ensures var t := Take(cfg, s, Other(step)).value; Inv(cfg, t) && t.sq == s.sq && t.changed == s.changed && t.accepted == s.accepted
  {
    StepKeeps(cfg, s, step);
    OtherSame(cfg, s, step);
  }

  lemma OtherSame(cfg: Config, s: World, step: Step)
    requires Take(cfg, s, Other(step)).Some?
    ensures var t := Take(cfg, s, Other(step)).value; t.sq == s.sq && t.changed == s.changed && t.accepted == s.accepted
  {}

  lemma SendTurn(cfg: Config, s: World, packet: Packet, accept: bool)
    requires Inv(cfg, s) && Take(cfg, s, Call(AddSendTo(packet), accept)).Some?
    ensures var t := Take(cfg, s, Call(AddSendTo(packet), accept)).value;
            Inv(cfg, t) && t.accepted == s.accepted + Granted(cfg, s, Call(AddSendTo(packet), accept))
  {
    IoUringSocket.PollCall(cfg, s);
    var t := IoUringSocket.PollAll(s).world;
    IoUringSocket.FreeCount(cfg, t);
    AddKeeps(cfg, t, packet.payload, packet.addr);
  }

  lemma CommitTurn(cfg: Config, s: World, accept: bool)
    requires Inv(cfg, s)
    ensures var t := CommitSend(s, accept); Inv(cfg, t) && t.accepted == s.accepted && (accept ==> t.sq == [] && !t.changed)
  {
    CommitKeeps(cfg, s, accept);
  }

  lemma FinishTurn(cfg: Config, s: World, accept: bool)
    requires Inv(cfg, s) && FinishRead(cfg, s, accept).Ok?
    ensures var t := FinishRead(cfg, s, accept).world;
            Inv(cfg, t) && t.accepted == s.accepted && (t.sq == s.sq || t.sq == []) && t.changed == s.changed
  {
    StepKeeps(cfg, s, Finish(accept));
  }

  lemma TurnKeeps(cfg: Config, s: World, turn: Turn)
    requires Inv(cfg, s) && Take(cfg, s, turn).Some?
    ensures var t := Take(cfg, s, turn).value; Inv(cfg, t) && t.accepted == s.accepted + Granted(cfg, s, turn)
  {
    match turn
    case Other(step) => OtherTurn(cfg, s, step);
    case Call(AddSendTo(packet), accept) => SendTurn(cfg, s, packet, accept);
    case Call(CommitSendTo, accept) => CommitTurn(cfg, s, accept);
    case Call(FinishReadFrom, accept) => FinishTurn(cfg, s, accept);
  }

  /** Whatever the kernel does between the calls, the packets taken are those of the sends that found a slot, in order. */
  lemma {:induction false} TurnsKeep(cfg: Config, s: World, turns: seq<Turn>)
    requires Inv(cfg, s) && TakeAll(cfg, s, turns).Some?
    ensures var t := TakeAll(cfg, s, turns).value; Inv(cfg, t) && t.accepted == s.accepted + AllGranted(cfg, s, turns)
  {
    if turns == [] {
    } else {
      var init, last := turns[..|turns| - 1], turns[|turns| - 1];
      TurnsKeep(cfg, s, init);
      LastTurn(cfg, s, turns);
      TurnKeeps(cfg, TakeAll(cfg, s, init).value, last);
      Joined(s.accepted, AllGranted(cfg, s, init), Granted(cfg, TakeAll(cfg, s, init).value, last));
    }
  }

  lemma Joined<T>(a: seq<T>, b: seq<T>, c: seq<T>)
    ensures a + b + c == a + (b + c)
  {}

  lemma LastTurn(cfg: Config, s: World, turns: seq<Turn>)
    requires turns != [] && TakeAll(cfg, s, turns).Some?
    ensures var init := turns[..|turns| - 1];
            && TakeAll(cfg, s, init).Some? && TakeAll(cfg, s, turns) == Take(cfg, TakeAll(cfg, s, init).value, turns[|turns| - 1])
            && AllGranted(cfg, s, turns) == AllGranted(cfg, s, init) + Granted(cfg, TakeAll(cfg, s, init).value, turns[|turns| - 1])
  {}

  // ----- a whole cycle -----

  /** The calls end with the commit, and perhaps the giving back of buffers. */
  predicate Closing(calls: seq<SocketCall>) {
    calls != [] &&
    var last := calls[|calls| - 1];
    last == CommitSendTo || (last == FinishReadFrom && |calls| > 1 && calls[|calls| - 2] == CommitSendTo)
  }

  predicate CommitsTaken(turns: seq<Turn>) {
    forall i :: 0 <= i < |turns| && turns[i].Call? && turns[i].call.CommitSendTo? ==> turns[i].accept
  }

  lemma CallsShorter(turns: seq<Turn>)
    requires turns != [] && Closing(Collect(CallOf, turns)) && CommitsTaken(turns)
    ensures CommitsTaken(turns[..|turns| - 1])
    ensures var last := turns[|turns| - 1];
            && (last.Call? && last.call.CommitSendTo? ==> last.accept)
            && (last.Other? ==> Closing(Collect(CallOf, turns[..|turns| - 1])))
            && (last.Call? && !last.call.CommitSendTo? ==> last.call.FinishReadFrom? && Closing(Collect(CallOf, turns[..|turns| - 1])))
  {
    var init, last := turns[..|turns| - 1], turns[|turns| - 1];
    forall i | 0 <= i < |init| && init[i].Call? && init[i].call.CommitSendTo? ensures init[i].accept {
      assert init[i] == turns[i];
    }
    if last.Call? {
      assert Collect(CallOf, turns) == Collect(CallOf, init) + [last.call];
    }
  }

  /** Once the kernel took the commit that follows the sends, none of them waits in the ring any more. */
  lemma {:induction false} NothingWaits(cfg: Config, s: World, turns: seq<Turn>)
    requires Inv(cfg, s) && TakeAll(cfg, s, turns).Some? && Closing(Collect(CallOf, turns)) && CommitsTaken(turns)
    ensures var t := TakeAll(cfg, s, turns).value; t.sq == [] && !t.changed
  {
    if turns == [] {
    } else {
      var init, last := turns[..|turns| - 1], turns[|turns| - 1];
      CallsShorter(turns);
      TurnsKeep(cfg, s, init);
      LastTurn(cfg, s, turns);
      var t := TakeAll(cfg, s, init).value;
      match last
      case Other(step) =>
        NothingWaits(cfg, s, init);
        OtherTurn(cfg, t, step);
      case Call(CommitSendTo, accept) => CommitTurn(cfg, t, accept);
      case Call(FinishReadFrom, accept) =>
        NothingWaits(cfg, s, init);
        FinishTurn(cfg, t, accept);
      case Call(AddSendTo(_), _) =>
        assert false;
    }
  }

  /**
   * The calls of a cycle, its sends and then the commit and the giving back of buffers, with the
   * kernel acting at any time in between: if the kernel takes the commit, then every packet the
   * cycle sent was dropped for want of a slot or is taken, in order, and no taken one still waits.
   */
  lemma CycleFlushes(cfg: Config, s: World, turns: seq<Turn>, sends: seq<SocketCall>)
    requires Inv(cfg, s) && TakeAll(cfg, s, turns).Some? && CommitsTaken(turns)
    requires Collect(CallOf, turns) == sends + [CommitSendTo, FinishReadFrom]
    ensures var t := TakeAll(cfg, s, turns).value;
            Inv(cfg, t) && t.sq == [] && !t.changed && t.accepted == s.accepted + AllGranted(cfg, s, turns)
  {
    var calls := sends + [CommitSendTo, FinishReadFrom];
    assert calls[|calls| - 1] == FinishReadFrom && calls[|calls| - 2] == CommitSendTo;
    NothingWaits(cfg, s, turns);
    TurnsKeep(cfg, s, turns);
  }

  /** With a slot for every send none is dropped. */
  lemma {:induction false} NothingDropped(cfg: Config, s: World, turns: seq<Turn>)
    requires Inv(cfg, s) && TakeAll(cfg, s, turns).Some?
    requires |s.sq| + |s.kernel.sends| + |Collect(CallOf, turns)| <= cfg.sendQueue
    ensures AllGranted(cfg, s, turns) == Collect(PacketOf, Collect(CallOf, turns))
    ensures var t := TakeAll(cfg, s, turns).value;
            |t.sq| + |t.kernel.sends| <= |s.sq| + |s.kernel.sends| + |Collect(CallOf, turns)|
  {
    if turns == [] {
    } else {
      var init, last := turns[..|turns| - 1], turns[|turns| - 1];
      NothingDropped(cfg, s, init);
      TurnsKeep(cfg, s, init);
      LastTurn(cfg, s, turns);
      TurnHolds(cfg, TakeAll(cfg, s, init).value, last);
      if last.Call? {
        CollectAppend(PacketOf, Collect(CallOf, init), last.call);
      }
    }
  }

  function PacketOf(call: SocketCall): Option<Packet> {
    if call.AddSendTo? then Some(call.packet) else None
  }

  /** A turn takes up at most one more slot, and only a send does. */
  lemma TurnHolds(cfg: Config, s: World, turn: Turn)
    requires Inv(cfg, s) && Take(cfg, s, turn).Some?
    ensures var t := Take(cfg, s, turn).value;
            |t.sq| + |t.kernel.sends| <= |s.sq| + |s.kernel.sends| + if turn.Call? then 1 else 0
  {
    match turn
    case Other(step) => OtherHolds(cfg, s, step);
    case Call(AddSendTo(packet), accept) => SendHolds(cfg, s, packet, accept);
    case Call(CommitSendTo, accept) => HandoverHolds(cfg, s);
    case Call(FinishReadFrom, accept) => FinishHolds(cfg, s, accept);
  }

  lemma OtherHolds(cfg: Config, s: World, step: Step)
    requires Take(cfg, s, Other(step)).Some?
    ensures var t := Take(cfg, s, Other(step)).value; t.sq == s.sq && |t.kernel.sends| <= |s.kernel.sends|
  {}

  lemma SendHolds(cfg: Config, s: World, packet: Packet, accept: bool)
    requires Inv(cfg, s) && Take(cfg, s, Call(AddSendTo(packet), accept)).Some?
    ensures var t := Take(cfg, s, Call(AddSendTo(packet), accept)).value;
            |t.sq| <= |s.sq| + 1 && t.kernel == s.kernel
  {
    IoUringSocket.PollCall(cfg, s);
  }

  lemma HandoverHolds(cfg: Config, s: World)
    requires Inv(cfg, s)
    ensures |Handover(s.kernel, s.sq).sends| == |s.kernel.sends| + |s.sq|
  {
    SendEntriesOne(cfg, s.sq);
  }

  lemma {:induction false} SendEntriesOne(cfg: Config, sq: seq<Sqe>)
    requires SendEntries(cfg, sq)
    ensures |Collect(ToSend, sq)| == |sq|
  {
    if sq == [] {
    } else {
      assert SendEntries(cfg, sq[..|sq| - 1]);
      SendEntriesOne(cfg, sq[..|sq| - 1]);
    }
  }

  lemma FinishHolds(cfg: Config, s: World, accept: bool)
    requires Inv(cfg, s) && FinishRead(cfg, s, accept).Ok?
    ensures var t := FinishRead(cfg, s, accept).world; |t.sq| + |t.kernel.sends| <= |s.sq| + |s.kernel.sends|
  {
    if s.waitQueue == [] && s.freeGroups != [] {
      var g := s.freeGroups[0];
      SendEntriesOne(cfg, s.sq);
      CollectConcat(ToSend, s.sq, GroupEntries(g));
      ProvidesOnly(g, GROUP_SIZE);
      CollectAppend(ToSend, Provides(g, GROUP_SIZE), RecvMsgMulti(g, Encode(UserData.Recv(g))));
    }
  }
}
