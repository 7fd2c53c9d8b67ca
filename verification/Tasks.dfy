/**
 * The WHIP and WHEP server tasks: state machines without I/O over a WebRTC engine that is polled
 * for outputs. The engine is an oracle: a finite list of outputs, then a timeout.
 */
module Tasks {
  import opened Seqs
  import opened Net

  type TrackId = nat
  type Mid = string
  type Time = int

  datatype MediaKind = Audio | Video
  datatype KeyframeKind = Pli | Fir
  datatype IceState = New | Checking | IceConnected | Completed | Disconnected

  /** What `poll_output` may return. */
  datatype EngineOutput =
    | Timeout(at: Time)
    | Transmit(source: SocketAddr, destination: SocketAddr, contents: Bytes)
    | Connected
    | MediaAdded(kind: MediaKind, mid: Mid)
    | IceChange(state: IceState)
    | Rtp(payloadType: nat, seqNo: nat, payload: Bytes)
    | KeyframeRequest(keyframe: KeyframeKind)
    | OtherEvent
    | PollError

  /** The outputs the engine has ready, and the timeout it reports when there are none. */
  datatype Engine = Engine(ready: seq<EngineOutput>, idleUntil: Time) {
    function Poll(): EngineOutput {
      if ready == [] then Timeout(idleUntil) else ready[0]
    }

    function Polled(): Engine {
      if ready == [] then this else this.(ready := ready[1..])
    }
  }

  datatype TrackMedia = TrackMedia(trackId: TrackId, payloadType: nat, seqNo: nat, payload: Bytes)

  datatype TaskOutput =
    | UdpSocketSend(from: SocketAddr, to: SocketAddr, buf: Bytes)
    | HttpReply(reqId: nat, status: nat)
    | Media(media: TrackMedia)
    | TaskEnded
    | PublishTrack(trackId: TrackId)
    | SubscribeTrack(trackId: TrackId)
    | RequestKeyframe(trackId: TrackId, kind: KeyframeKind)

  datatype TaskInput =
    | HttpRequest(reqId: nat)
    | UdpSocketRecv(from: SocketAddr, to: SocketAddr, buf: Bytes)
    | MediaInput(media: TrackMedia)
    | KeyframeInput(trackId: TrackId, kind: KeyframeKind)

  /** How the engine takes an input: its next state, whether it has a stream for a media id, and whether a datagram parses. */
  datatype Reaction = Reaction(engine: Engine, hasStream: bool, parses: bool)

  /** What a task hands to its engine; a packet that may be asked for again is nackable. */
  datatype EngineInput =
    | TimeoutDue(now: Time)
    | Received(from: SocketAddr, to: SocketAddr, buf: Bytes)
    | WriteRtp(mid: Mid, payloadType: nat, seqNo: nat, payload: Bytes, nackable: bool)
    | AskKeyframe(mid: Mid, kind: KeyframeKind)

  datatype Role = Whip | Whep

  /** A task; `fed` is the history of what it handed to its engine. */
  datatype Task = Task(
    role: Role, ufrag: string, timeout: Option<Time>, engine: Engine, outputs: seq<TaskOutput>,
    audioMid: Option<Mid>, videoMid: Option<Mid>, audioTrack: TrackId, videoTrack: TrackId, fed: seq<EngineInput>)

  /** A `panic!` or `todo!` arm or a failed `expect` ends the worker. */
  datatype InputResult = Handled(task: Task) | Panic

  const OPUS: nat := 111

  function NewTask(role: Role, reqId: nat, ufrag: string, engine: Engine, audioTrack: TrackId, videoTrack: TrackId): Task {
    Task(role, ufrag, None, engine, [HttpReply(reqId, 200)], None, None, audioTrack, videoTrack, [])
  }

  function Tick(t: Task, now: Time, r: Reaction): Task {
    if t.timeout.Some? && now >= t.timeout.value
    then t.(engine := r.engine, timeout := None, fed := t.fed + [TimeoutDue(now)])
    else t
  }

  function InputUdp(t: Task, from: SocketAddr, to: SocketAddr, buf: Bytes, r: Reaction): InputResult {
    if r.parses then Handled(t.(engine := r.engine, timeout := None, fed := t.fed + [Received(from, to, buf)])) else Panic
  }

  function InputWhip(t: Task, event: TaskInput, r: Reaction): InputResult {
    match event
    case UdpSocketRecv(from, to, buf) => InputUdp(t, from, to, buf, r)
    case KeyframeInput(track, kind) =>
      if track != t.videoTrack || t.videoMid.None? then Handled(t)
      else if r.hasStream then Handled(t.(engine := r.engine, fed := t.fed + [AskKeyframe(t.videoMid.value, kind)]))
      else Panic
    case HttpRequest(_) => Panic
    case MediaInput(_) => Panic
  }

  function MidFor(t: Task, media: TrackMedia): Option<Mid> {
    if media.payloadType == OPUS then t.audioMid else t.videoMid
  }

  function RtpFor(mid: Mid, media: TrackMedia): EngineInput {
    WriteRtp(mid, media.payloadType, media.seqNo, media.payload, media.payloadType != OPUS)
  }

  function InputWhep(t: Task, event: TaskInput, r: Reaction): InputResult {
    match event
    case UdpSocketRecv(from, to, buf) => InputUdp(t, from, to, buf, r)
    case MediaInput(media) =>
      var mid := MidFor(t, media);
      if mid.Some? && r.hasStream
      then Handled(t.(engine := r.engine, timeout := None, fed := t.fed + [RtpFor(mid.value, media)]))
      else Handled(t)
    case HttpRequest(_) => Panic
    case KeyframeInput(_, _) => Panic
  }

  function Input(t: Task, event: TaskInput, r: Reaction): InputResult {
    match t.role case Whip => InputWhip(t, event, r) case Whep => InputWhep(t, event, r)
  }

  /** A deadline that has not come keeps the engine from being polled. */
  predicate Waiting(t: Task, now: Time) {
    t.timeout.Some? && t.timeout.value > now
  }

  predicate Polls(t: Task, now: Time) {
    t.outputs == [] && !Waiting(t, now)
  }

  function AddMid(t: Task, kind: MediaKind, mid: Mid): Task {
    if kind == Audio then t.(audioMid := Some(mid)) else t.(videoMid := Some(mid))
  }

  function HandleWhip(t: Task, o: EngineOutput): (Option<TaskOutput>, Task) {
    match o
    case Timeout(at) => (None, t.(timeout := Some(at)))
    case Transmit(src, dst, buf) => (Some(UdpSocketSend(src, dst, buf)), t)
    case Connected => (None, t.(outputs := t.outputs + [PublishTrack(t.audioTrack), PublishTrack(t.videoTrack)]))
    case MediaAdded(kind, mid) => (None, AddMid(t, kind, mid))
    case IceChange(state) => (if state == Disconnected then Some(TaskEnded) else None, t)
    case Rtp(pt, seqNo, payload) =>
      (Some(Media(TrackMedia(if pt == OPUS then t.audioTrack else t.videoTrack, pt, seqNo, payload))), t)
    case _ => (None, t)
  }

  function HandleWhep(t: Task, o: EngineOutput): (Option<TaskOutput>, Task) {
    match o
    case Timeout(at) => (None, t.(timeout := Some(at)))
    case Transmit(src, dst, buf) => (Some(UdpSocketSend(src, dst, buf)), t)
    case Connected => (None, t.(outputs := t.outputs + [SubscribeTrack(t.audioTrack), SubscribeTrack(t.videoTrack)]))
    case MediaAdded(kind, mid) => (None, AddMid(t, kind, mid))
    case IceChange(state) => (if state == Disconnected then Some(TaskEnded) else None, t)
    case KeyframeRequest(kind) => (Some(RequestKeyframe(t.videoTrack, kind)), t)
    case _ => (None, t)
  }

  function Handle(t: Task, o: EngineOutput): (Option<TaskOutput>, Task) {
    match t.role case Whip => HandleWhip(t, o) case Whep => HandleWhep(t, o)
  }

  function PopAction(t: Task, now: Time): (Option<TaskOutput>, Task) {
    if t.outputs != [] then (Some(t.outputs[0]), t.(outputs := t.outputs[1..]))
    else if Waiting(t, now) then (None, t)
    else Handle(t.(engine := t.engine.Polled()), t.engine.Poll())
  }

  /** What every pop uses up: engine outputs, then queued outputs. */
  function Work(t: Task): nat {
    |t.engine.ready| + |t.outputs|
  }

  /** A pop that gives an action uses up work, so the loop of `pop_task` ends. */
  lemma PopProgress(t: Task, now: Time)
    requires PopAction(t, now).0.Some?
    ensures t.outputs != [] || t.engine.ready != []
    ensures Work(PopAction(t, now).1) < Work(t)
  {}

  // ----- the pure translation the tasks refine -----

  /** The actions one engine output stands for. */
  function Translate(role: Role, audio: TrackId, video: TrackId, o: EngineOutput): seq<TaskOutput> {
    match (role, o)
    case (_, Transmit(src, dst, buf)) => [UdpSocketSend(src, dst, buf)]
    case (_, IceChange(Disconnected)) => [TaskEnded]
    case (Whip, Connected) => [PublishTrack(audio), PublishTrack(video)]
    case (Whep, Connected) => [SubscribeTrack(audio), SubscribeTrack(video)]
    case (Whip, Rtp(pt, seqNo, payload)) => [Media(TrackMedia(if pt == OPUS then audio else video, pt, seqNo, payload))]
    case (Whep, KeyframeRequest(kind)) => [RequestKeyframe(video, kind)]
    case _ => []
  }

  function Translator(role: Role, audio: TrackId, video: TrackId): EngineOutput -> seq<TaskOutput> {
    o => Translate(role, audio, video, o)
  }

  function TranslatorOf(t: Task): EngineOutput -> seq<TaskOutput> {
    Translator(t.role, t.audioTrack, t.videoTrack)
  }

  datatype Op = Pop(now: Time) | TickOp(now: Time, r: Reaction) | InputOp(event: TaskInput, r: Reaction)

  /** A task after some calls, the actions they returned and the engine outputs they consumed. */
  datatype Trace = Trace(task: Task, popped: seq<TaskOutput>, consumed: seq<EngineOutput>)

  function Do(tr: Trace, op: Op): Trace {
    match op
    case Pop(now) =>
      var (out, t) := PopAction(tr.task, now);
      Trace(t, tr.popped + OptionToSeq(out), tr.consumed + if Polls(tr.task, now) then [tr.task.engine.Poll()] else [])
    case TickOp(now, r) => tr.(task := Tick(tr.task, now, r))
    case InputOp(event, r) =>
      match Input(tr.task, event, r) case Panic => tr case Handled(t) => tr.(task := t)
  }

  function DoFrom(tr: Trace, ops: seq<Op>): Trace {
    if ops == [] then tr else Do(DoFrom(tr, ops[..|ops| - 1]), ops[|ops| - 1])
  }

  function DoAll(t: Task, ops: seq<Op>): Trace {
    DoFrom(Trace(t, [], []), ops)
  }

  /** What the engine gives up in a pop at `now`. */
  function Eaten(t: Task, now: Time): seq<EngineOutput> {
    if Polls(t, now) then [t.engine.Poll()] else []
  }

  /** One pop keeps the balance between what was consumed and what came out or waits. */
  lemma PopBalance(t: Task, now: Time)
    ensures var (out, u) := PopAction(t, now);
            && u.role == t.role && u.ufrag == t.ufrag && u.audioTrack == t.audioTrack && u.videoTrack == t.videoTrack
            && OptionToSeq(out) + u.outputs == t.outputs + FlatMap(TranslatorOf(t), Eaten(t, now))
  {
    if Polls(t, now) {
      FlatMapOne(TranslatorOf(t), t.engine.Poll());
      HandledIs(t.(engine := t.engine.Polled()), t.engine.Poll());
    }
  }

  /** What the task does with an engine output is what the output stands for: an action now, or actions queued. */
  lemma HandledIs(t: Task, o: EngineOutput)
    requires t.outputs == []
    ensures var (out, u) := Handle(t, o);
            && u.role == t.role && u.ufrag == t.ufrag && u.audioTrack == t.audioTrack && u.videoTrack == t.videoTrack
            && OptionToSeq(out) + u.outputs == Translate(t.role, t.audioTrack, t.videoTrack, o)
  {}

  function Consumes(t: Task, op: Op): seq<EngineOutput> {
    if op.Pop? then Eaten(t, op.now) else []
  }

  lemma DoBalance(tr: Trace, op: Op)
    ensures var u := Do(tr, op);
            && u.task.role == tr.task.role && u.task.ufrag == tr.task.ufrag
            && u.task.audioTrack == tr.task.audioTrack && u.task.videoTrack == tr.task.videoTrack
            && u.consumed == tr.consumed + Consumes(tr.task, op)
            && u.popped + u.task.outputs == tr.popped + tr.task.outputs + FlatMap(TranslatorOf(tr.task), Consumes(tr.task, op))
  {
    if op.Pop? {
      PopBalance(tr.task, op.now);
      var u := Do(tr, op);
      assert u.popped + u.task.outputs == tr.popped + (OptionToSeq(PopAction(tr.task, op.now).0) + u.task.outputs);
    }
  }

  /** What came out or waits is what waited in `t` and the translation of what was consumed since. */
  ghost predicate Balanced(t: Task, tr: Trace) {
    && tr.task.role == t.role && tr.task.ufrag == t.ufrag && tr.task.audioTrack == t.audioTrack && tr.task.videoTrack == t.videoTrack
    && tr.popped + tr.task.outputs == t.outputs + FlatMap(TranslatorOf(t), tr.consumed)
  }

  lemma BalancedExtend(t: Task, tr: Trace, u: Trace, eaten: seq<EngineOutput>)
    requires Balanced(t, tr)
    requires u.task.role == t.role && u.task.ufrag == t.ufrag && u.task.audioTrack == t.audioTrack && u.task.videoTrack == t.videoTrack
    requires u.consumed == tr.consumed + eaten
    requires u.popped + u.task.outputs == tr.popped + tr.task.outputs + FlatMap(TranslatorOf(t), eaten)
    ensures Balanced(t, u)
  {
    FlatMapConcat(TranslatorOf(t), tr.consumed, eaten);
  }

  lemma DoBalanced(t: Task, tr: Trace, op: Op)
    requires Balanced(t, tr)
    ensures Balanced(t, Do(tr, op))
  {
    DoBalance(tr, op);
    BalancedExtend(t, tr, Do(tr, op), Consumes(tr.task, op));
  }

  /**
   * Driver refinement: in any order of pops, ticks and inputs, and whatever the engine puts out,
   * the actions popped so far followed by the queue are the initial queue followed by the
   * translation of the engine outputs consumed so far.
   */
  lemma {:induction false} DriverRefinement(t: Task, ops: seq<Op>)
    ensures Balanced(t, DoAll(t, ops))
  {
    if ops == [] {
    } else {
      DriverRefinement(t, ops[..|ops| - 1]);
      DoBalanced(t, DoAll(t, ops[..|ops| - 1]), ops[|ops| - 1]);
    }
  }

  /** A new task answers its request once, first, and everything after that is translation. */
  lemma NewTaskRefinement(role: Role, reqId: nat, ufrag: string, engine: Engine, audio: TrackId, video: TrackId, ops: seq<Op>)
    ensures var tr := DoAll(NewTask(role, reqId, ufrag, engine, audio, video), ops);
            tr.popped + tr.task.outputs == [HttpReply(reqId, 200)] + FlatMap(Translator(role, audio, video), tr.consumed)
    ensures forall i :: 0 < i < |DoAll(NewTask(role, reqId, ufrag, engine, audio, video), ops).popped| ==>
              !DoAll(NewTask(role, reqId, ufrag, engine, audio, video), ops).popped[i].HttpReply?
  {
    var t := NewTask(role, reqId, ufrag, engine, audio, video);
    DriverRefinement(t, ops);
    var tr := DoAll(t, ops);
    NoReply(role, audio, video, tr.consumed);
    forall i | 0 < i < |tr.popped| ensures !tr.popped[i].HttpReply? {
      assert tr.popped[i] == (tr.popped + tr.task.outputs)[i];
    }
  }

  lemma {:induction false} NoReply(role: Role, audio: TrackId, video: TrackId, os: seq<EngineOutput>)
    ensures forall i :: 0 <= i < |FlatMap(Translator(role, audio, video), os)| ==> !FlatMap(Translator(role, audio, video), os)[i].HttpReply?
  {
    if os == [] {
    } else {
      NoReply(role, audio, video, os[..|os| - 1]);
    }
  }

  /** The call comes before the deadline `at` and is not one that clears deadlines. */
  predicate Before(op: Op, at: Time) {
    match op
    case Pop(now) => now < at
    case TickOp(now, _) => now < at
    case InputOp(event, _) => event.KeyframeInput? || event.HttpRequest?
  }

  lemma BeforeWaits(tr: Trace, op: Op, at: Time)
    requires tr.task.timeout == Some(at) && Before(op, at)
    ensures Do(tr, op).task.timeout == Some(at) && Do(tr, op).consumed == tr.consumed
  {}

  /**
   * No engine poll before a recorded deadline: once a pop consumed a timeout, and until a call at or
   * after it or an input that clears it, no call consumes anything, however many there are.
   */
  lemma {:induction false} NothingBeforeDeadline(t: Task, ops: seq<Op>, i: nat, at: Time)
    requires i < |ops| && ops[i].Pop?
    requires var tr := DoAll(t, ops[..i]); Polls(tr.task, ops[i].now) && tr.task.engine.Poll() == Timeout(at)
    requires forall j :: i < j < |ops| ==> Before(ops[j], at)
    ensures DoAll(t, ops).consumed == DoAll(t, ops[..i]).consumed + [Timeout(at)] && DoAll(t, ops).task.timeout == Some(at)
  {
    var init := ops[..|ops| - 1];
    if i < |init| {
      assert init[..i] == ops[..i];
      NothingBeforeDeadline(t, init, i, at);
      BeforeWaits(DoAll(t, init), ops[|ops| - 1], at);
    } else {
      assert init == ops[..i];
      PollsTimeout(DoAll(t, init).task, ops[i].now, at);
    }
  }

  lemma PollsTimeout(t: Task, now: Time, at: Time)
    requires Polls(t, now) && t.engine.Poll() == Timeout(at)
    ensures PopAction(t, now).1.timeout == Some(at)
  {}

  predicate Immediate(o: EngineOutput) {
    !o.Timeout?
  }

  lemma {:induction false} DoFromFront(tr: Trace, op: Op, n: nat)
    ensures DoFrom(Do(tr, op), seq(n, _ => op)) == DoFrom(tr, seq(n + 1, _ => op))
  {
    var longer, shorter := seq(n + 1, _ => op), seq(n, _ => op);
    assert longer[..n] == shorter;
    if n == 0 {
    } else {
      assert shorter[..n - 1] == seq(n - 1, _ => op);
      DoFromFront(tr, op, n - 1);
    }
  }

  /** One pop of a task that waits for nothing shortens its work and leaves it waiting for nothing. */
  lemma PopWorks(t: Task, now: Time)
    requires !Waiting(t, now) && AllImmediate(t.engine.ready)
    requires t.outputs != [] || t.engine.ready != []
    ensures var u := PopAction(t, now).1;
            && !Waiting(u, now) && u.engine.ready == t.engine.ready[if t.outputs == [] then 1 else 0..]
            && (t.outputs != [] ==> |u.outputs| < |t.outputs|)
  {}

  ghost predicate AllImmediate(os: seq<EngineOutput>) {
    forall i :: 0 <= i < |os| ==> Immediate(os[i])
  }

  lemma PopDrains(tr: Trace, now: Time)
    requires !Waiting(tr.task, now) && AllImmediate(tr.task.engine.ready)
    requires tr.task.outputs != [] || tr.task.engine.ready != []
    ensures var u := Do(tr, Pop(now));
            && !Waiting(u.task, now) && AllImmediate(u.task.engine.ready)
            && u.consumed + u.task.engine.ready == tr.consumed + tr.task.engine.ready
            && (if tr.task.outputs == [] then |u.task.engine.ready| < |tr.task.engine.ready|
                else u.task.engine.ready == tr.task.engine.ready && |u.task.outputs| < |tr.task.outputs|)
  {
    PopWorks(tr.task, now);
    DoBalance(tr, Pop(now));
  }

  lemma {:induction false} DrainFrom(tr: Trace, now: Time) returns (n: nat)
    requires !Waiting(tr.task, now) && AllImmediate(tr.task.engine.ready)
    ensures var u := DoFrom(tr, seq(n, _ => Pop(now)));
            u.task.outputs == [] && u.task.engine.ready == [] && u.consumed == tr.consumed + tr.task.engine.ready
    decreases |tr.task.engine.ready|, |tr.task.outputs|
  {
    if tr.task.outputs == [] && tr.task.engine.ready == [] {
      n := 0;
      assert seq(0, _ => Pop(now)) == [];
    } else {
      PopDrains(tr, now);
      var u := Do(tr, Pop(now));
      var m := DrainFrom(u, now);
      DoFromFront(tr, Pop(now), m);
      n := m + 1;
    }
  }

  /**
   * The pops that return nothing in mid-stream lose nothing: with no deadline in the way, enough
   * pops bring out the whole queue and then the translation of everything the engine has ready.
   */
  lemma PopsBringEverything(t: Task, now: Time) returns (n: nat)
    requires !Waiting(t, now) && AllImmediate(t.engine.ready)
    ensures var tr := DoAll(t, seq(n, _ => Pop(now)));
            && tr.popped == t.outputs + FlatMap(TranslatorOf(t), t.engine.ready)
            && tr.consumed == t.engine.ready && tr.task.outputs == [] && tr.task.engine.ready == []
  {
    n := DrainFrom(Trace(t, [], []), now);
    DriverRefinement(t, seq(n, _ => Pop(now)));
    var tr := DoAll(t, seq(n, _ => Pop(now)));
    assert tr.consumed == t.engine.ready && tr.popped + [] == tr.popped;
  }

  // ----- roles -----

  predicate OutputAllowed(role: Role, o: TaskOutput) {
    match o
    case Media(_) => role == Whip
    case PublishTrack(_) => role == Whip
    case SubscribeTrack(_) => role == Whep
    case RequestKeyframe(_, _) => role == Whep
    case _ => true
  }

  predicate InputAllowed(role: Role, e: TaskInput) {
    match e
    case MediaInput(_) => role == Whep
    case KeyframeInput(_, _) => role == Whip
    case HttpRequest(_) => false
    case UdpSocketRecv(_, _, _) => true
  }

  ghost predicate RoleOk(t: Task) {
    forall i :: 0 <= i < |t.outputs| ==> OutputAllowed(t.role, t.outputs[i])
  }

  /** A keyframe request for a publisher whose engine has no receive stream for the media id it announced. */
  predicate MissesStream(t: Task, e: TaskInput, r: Reaction) {
    t.role == Whip && e.KeyframeInput? && e.trackId == t.videoTrack && t.videoMid.Some? && !r.hasStream
  }

  /** A datagram that is neither STUN, DTLS nor RTP. */
  predicate Garbled(e: TaskInput, r: Reaction) {
    e.UdpSocketRecv? && !r.parses
  }

  /** A task panics on exactly the inputs of the other role, garbled datagrams and keyframe requests that miss their stream. */
  lemma PanicExactly(t: Task, e: TaskInput, r: Reaction)
    ensures Input(t, e, r).Panic? <==> !InputAllowed(t.role, e) || MissesStream(t, e, r) || Garbled(e, r)
  {}

  lemma PopRoleOk(t: Task, now: Time)
    requires RoleOk(t)
    ensures RoleOk(PopAction(t, now).1)
    ensures PopAction(t, now).0.Some? ==> OutputAllowed(t.role, PopAction(t, now).0.value)
  {}
}
