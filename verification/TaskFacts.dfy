/** What reaches a task's engine, over whole sequences of calls, and what follows from it. */
module TaskFacts {
  import opened Seqs
  import opened Net
  import opened Tasks

  // ----- media ids -----

  /** The media id announced last for a kind, or `first` if none was. */
  function LastMid(os: seq<EngineOutput>, kind: MediaKind, first: Option<Mid>): Option<Mid> {
    if os == [] then first
    else
      match os[|os| - 1]
      case MediaAdded(k, mid) => if k == kind then Some(mid) else LastMid(os[..|os| - 1], kind, first)
      case _ => LastMid(os[..|os| - 1], kind, first)
  }

  lemma LastMidAppend(os: seq<EngineOutput>, o: EngineOutput, kind: MediaKind, first: Option<Mid>)
    ensures LastMid(os + [o], kind, first) ==
              if o.MediaAdded? && o.kind == kind then Some(o.mid) else LastMid(os, kind, first)
  {
    assert (os + [o])[..|os|] == os;
  }

  lemma PopMids(t: Task, now: Time)
    ensures var u := PopAction(t, now).1; var o := t.engine.Poll();
            && u.audioMid == (if Polls(t, now) && o.MediaAdded? && o.kind == Audio then Some(o.mid) else t.audioMid)
            && u.videoMid == (if Polls(t, now) && o.MediaAdded? && o.kind == Video then Some(o.mid) else t.videoMid)
  {}

  /** A task knows for each kind the media id its engine announced last. */
  lemma {:induction false} KnownMids(t: Task, ops: seq<Op>)
    ensures var tr := DoAll(t, ops);
            && tr.task.audioMid == LastMid(tr.consumed, Audio, t.audioMid)
            && tr.task.videoMid == LastMid(tr.consumed, Video, t.videoMid)
  {
    if ops == [] {
    } else {
      var init, op := ops[..|ops| - 1], ops[|ops| - 1];
      var tr := DoAll(t, init);
      KnownMids(t, init);
      match op
      case Pop(now) =>
        PopMids(tr.task, now);
        if Polls(tr.task, now) {
          LastMidAppend(tr.consumed, tr.task.engine.Poll(), Audio, t.audioMid);
          LastMidAppend(tr.consumed, tr.task.engine.Poll(), Video, t.videoMid);
        } else {
          assert tr.consumed + [] == tr.consumed;
        }
      case _ => OtherMids(tr, op);
    }
  }

  lemma OtherMids(tr: Trace, op: Op)
    requires !op.Pop?
    ensures var u := Do(tr, op); u.consumed == tr.consumed && u.task.audioMid == tr.task.audioMid && u.task.videoMid == tr.task.videoMid
  {}

  // ----- what the engine is handed -----

  /** What a call hands to the engine of a task with this role, video track, deadline and media ids. */
  function Handed(role: Role, track: TrackId, deadline: Option<Time>, audio: Option<Mid>, video: Option<Mid>, op: Op): seq<EngineInput> {
    match op
    case Pop(_) => []
    case TickOp(now, _) => if deadline.Some? && deadline.value <= now then [TimeoutDue(now)] else []
    case InputOp(UdpSocketRecv(from, to, buf), r) => if r.parses then [Received(from, to, buf)] else []
    case InputOp(MediaInput(media), r) =>
      if role == Whip || !r.hasStream then []
      else if media.payloadType == 111 then
        (if audio.Some? then [WriteRtp(audio.value, 111, media.seqNo, media.payload, false)] else [])
      else
        (if video.Some? then [WriteRtp(video.value, media.payloadType, media.seqNo, media.payload, true)] else [])
    case InputOp(KeyframeInput(t, kind), r) =>
      if role == Whip && t == track && video.Some? && r.hasStream then [AskKeyframe(video.value, kind)] else []
    case InputOp(HttpRequest(_), _) => []
  }

  function HandedTo(t: Task, op: Op): seq<EngineInput> {
    Handed(t.role, t.videoTrack, t.timeout, t.audioMid, t.videoMid, op)
  }

  function ReactionTo(op: Op): Reaction
    requires !op.Pop?
  {
    op.r
  }

  /**
   * A tick or an input that hands something to the engine leaves the task with the engine's answer,
   * and without a deadline unless it only asks for a keyframe; one that hands over nothing leaves
   * the task as it was.
   */
  lemma HandingOver(tr: Trace, op: Op)
    ensures Do(tr, op).task.fed == tr.task.fed + HandedTo(tr.task, op)
    ensures !op.Pop? && HandedTo(tr.task, op) != [] ==>
              && Do(tr, op).task.engine == ReactionTo(op).engine
              && Do(tr, op).task.timeout == (if HandedTo(tr.task, op)[0].AskKeyframe? then tr.task.timeout else None)
              && Do(tr, op).task.outputs == tr.task.outputs
    ensures !op.Pop? && HandedTo(tr.task, op) == [] ==> Do(tr, op).task == tr.task
  {
    match op
    case Pop(now) => PopHandsNothing(tr.task, now);
    case TickOp(_, _) =>
    case InputOp(event, _) =>
  }

  lemma PopHandsNothing(t: Task, now: Time)
    ensures PopAction(t, now).1.fed == t.fed
  {}

  /** What a sequence of calls hands to the engine, told from the calls, the engine's announcements and the deadlines. */
  function HandedBy(t: Task, ops: seq<Op>): seq<EngineInput> {
    if ops == [] then []
    else
      var init := ops[..|ops| - 1];
      var tr := DoAll(t, init);
      HandedBy(t, init) +
      Handed(t.role, t.videoTrack, tr.task.timeout, LastMid(tr.consumed, Audio, t.audioMid), LastMid(tr.consumed, Video, t.videoMid), ops[|ops| - 1])
  }

  /**
   * Over any sequence of calls the engine is handed exactly the datagrams that parse, the deadlines
   * that come, the media of a viewer whose kind was announced, under the media id announced last,
   * and the keyframe requests for a publisher's own announced video, all in order.
   */
  lemma {:induction false} FedRefinement(t: Task, ops: seq<Op>)
    ensures DoAll(t, ops).task.fed == t.fed + HandedBy(t, ops)
  {
    if ops == [] {
    } else {
      var init, op := ops[..|ops| - 1], ops[|ops| - 1];
      FedRefinement(t, init);
      HandedNext(t, init, op);
      HandingOver(DoAll(t, init), op);
      Chained(t.fed, DoAll(t, init).task.fed, DoAll(t, ops).task.fed, HandedBy(t, init), HandedBy(t, ops), HandedTo(DoAll(t, init).task, op));
    }
  }

  /** What the next call hands over can be told from what was announced so far. */
  lemma HandedNext(t: Task, ops: seq<Op>, op: Op)
    ensures var tr := DoAll(t, ops);
            HandedTo(tr.task, op) ==
              Handed(t.role, t.videoTrack, tr.task.timeout, LastMid(tr.consumed, Audio, t.audioMid), LastMid(tr.consumed, Video, t.videoMid), op)
  {
    KnownMids(t, ops);
    DriverRefinement(t, ops);
  }

  // ----- when the engine is asked -----

  /** Without queued actions, and without a deadline that is still to come, a pop takes what the engine has. */
  lemma PopAsks(tr: Trace, now: Time)
    requires tr.task.outputs == [] && (tr.task.timeout.None? || tr.task.timeout.value <= now)
    ensures Do(tr, Pop(now)).consumed == tr.consumed + [tr.task.engine.Poll()]
  {}

  /** What a datagram, media or a deadline brings about in the engine is taken by the next pop, whenever it comes. */
  lemma HandedIsTaken(tr: Trace, op: Op, now: Time)
    requires !op.Pop? && tr.task.outputs == [] && HandedTo(tr.task, op) != [] && !HandedTo(tr.task, op)[0].AskKeyframe?
    ensures Do(Do(tr, op), Pop(now)).consumed == tr.consumed + [ReactionTo(op).engine.Poll()]
  {
    HandingOver(tr, op);
    OtherMids(tr, op);
    PopAsks(Do(tr, op), now);
  }

  /** A new task has no deadline: the first pop brings its response, and the second takes what its engine has. */
  lemma NewTaskAsks(role: Role, reqId: nat, ufrag: string, engine: Engine, audio: TrackId, video: TrackId, now: Time, later: Time)
    ensures var tr := DoAll(NewTask(role, reqId, ufrag, engine, audio, video), [Pop(now), Pop(later)]);
            tr.consumed == [engine.Poll()] && tr.popped != [] && tr.popped[0] == HttpReply(reqId, 200)
  {
    var t := NewTask(role, reqId, ufrag, engine, audio, video);
    var tr := DoAll(t, [Pop(now)]);
    assert [Pop(now)][..0] == [] && [Pop(now), Pop(later)][..1] == [Pop(now)];
    assert DoFrom(Trace(t, [], []), []) == Trace(t, [], []);
    assert tr == Do(Trace(t, [], []), Pop(now));
    assert tr.task.outputs == [] && tr.popped == [HttpReply(reqId, 200)] && tr.consumed == [];
    PopAsks(tr, later);
  }
}
