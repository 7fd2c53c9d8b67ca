/**
 * The routing tables of a worker as a value, and the functions that its loops compute step by step:
 * taking an action from a task, delivering a bus event, receiving a datagram, removing a task.
 */
module Routing {
  import opened Seqs
  import opened Net
  import opened Tasks

  type TaskId = nat

  datatype Channel = Channel(sources: seq<TaskId>, consumers: seq<TaskId>)

  datatype Container = Container(task: Task, remotes: seq<SocketAddr>, subs: seq<TrackId>, pubs: seq<TrackId>)

  datatype BusEvent = MediaEvent(media: TrackMedia) | KeyframeEvent(trackId: TrackId, kind: KeyframeKind)

  datatype Tables = Tables(
    seed: nat,
    chans: map<TrackId, Channel>,
    tasks: map<TaskId, Container>,
    remotes: map<SocketAddr, TaskId>,
    ufrags: map<string, TaskId>,
    ended: seq<TaskId>)

  const EMPTY := Tables(0, map[], map[], map[], map[], [])

  function Sources(chans: map<TrackId, Channel>, t: TrackId): seq<TaskId> {
    if t in chans then chans[t].sources else []
  }

  function Consumers(chans: map<TrackId, Channel>, t: TrackId): seq<TaskId> {
    if t in chans then chans[t].consumers else []
  }

  // ----- a new task -----

  function Create(s: Tables, task: Task): Tables {
    s.(seed := s.seed + 1,
       ufrags := s.ufrags[task.ufrag := s.seed],
       tasks := s.tasks[s.seed := Container(task, [], [], [])])
  }

  // ----- taking actions from a task -----

  /** What `pop_task` may change: the channels, the list of ended tasks, and the task's own container. */
  datatype Local = Local(chans: map<TrackId, Channel>, ended: seq<TaskId>, box: Container)

  function Publish(chans: map<TrackId, Channel>, t: TrackId, id: TaskId): map<TrackId, Channel> {
    chans[t := Channel(Sources(chans, t) + [id], Consumers(chans, t))]
  }

  function Subscribe(chans: map<TrackId, Channel>, t: TrackId, id: TaskId): map<TrackId, Channel> {
    chans[t := Channel(Sources(chans, t), Consumers(chans, t) + [id])]
  }

  /** What one action does to the tables; media, keyframe requests, datagrams and replies leave the worker. */
  function Perform(id: TaskId, l: Local, out: TaskOutput): Local {
    match out
    case TaskEnded => l.(ended := l.ended + [id])
    case PublishTrack(t) => l.(chans := Publish(l.chans, t, id), box := l.box.(pubs := l.box.pubs + [t]))
    case SubscribeTrack(t) => l.(chans := Subscribe(l.chans, t, id), box := l.box.(subs := l.box.subs + [t]))
    case _ => l
  }

  /** What one action puts on the bus. */
  function ToBus(out: TaskOutput): Option<BusEvent> {
    match out
    case Media(media) => Some(MediaEvent(media))
    case RequestKeyframe(t, kind) => Some(KeyframeEvent(t, kind))
    case _ => None
  }

  function TakeAction(id: TaskId, l: Local, now: Time): (Option<TaskOutput>, Local) {
    var (out, t) := PopAction(l.box.task, now);
    var u := l.(box := l.box.(task := t));
    (out, if out.Some? then Perform(id, u, out.value) else u)
  }

  function Drain(id: TaskId, l: Local, now: Time): (seq<TaskOutput>, Local)
    decreases Work(l.box.task)
  {
    var (out, u) := TakeAction(id, l, now);
    if out.None? then ([], u)
    else
      PopProgress(l.box.task, now);
      var (outs, v) := Drain(id, u, now);
      ([out.value] + outs, v)
  }

  function LocalOf(s: Tables, id: TaskId): Local
    requires id in s.tasks
  {
    Local(s.chans, s.ended, s.tasks[id])
  }

  function WithLocal(s: Tables, id: TaskId, l: Local): Tables {
    s.(chans := l.chans, ended := l.ended, tasks := s.tasks[id := l.box])
  }

  /** One turn of the loop of `pop_task` on a task of the table. */
  function Take(s: Tables, id: TaskId, now: Time): (Option<TaskOutput>, Tables)
    requires id in s.tasks
  {
    var (out, l) := TakeAction(id, LocalOf(s, id), now);
    (out, WithLocal(s, id, l))
  }

  // ----- delivering -----

  datatype Delivery = Delivered(tasks: map<TaskId, Container>, log: seq<(TaskId, TaskInput)>) | Panicked

  function At(rs: seq<Reaction>, i: nat): Reaction {
    if i < |rs| then rs[i] else Reaction(Engine([], 0), false, false)
  }

  function GiveTo(tasks: map<TaskId, Container>, id: TaskId, e: TaskInput, r: Reaction): Delivery {
    if id !in tasks then Delivered(tasks, [])
    else match Input(tasks[id].task, e, r)
      case Panic => Panicked
      case Handled(t) => Delivered(tasks[id := tasks[id].(task := t)], [(id, e)])
  }

  /** The event goes to every listed id that still has a task, in list order. */
  function Deliver(tasks: map<TaskId, Container>, ids: seq<TaskId>, e: TaskInput, rs: seq<Reaction>): Delivery {
    if ids == [] then Delivered(tasks, [])
    else match Deliver(tasks, ids[..|ids| - 1], e, rs)
      case Panicked => Panicked
      case Delivered(m, log) =>
        match GiveTo(m, ids[|ids| - 1], e, At(rs, |ids| - 1))
        case Panicked => Panicked
        case Delivered(m', log') => Delivered(m', log + log')
  }

  function Receivers(s: Tables, ev: BusEvent): seq<TaskId> {
    match ev
    case MediaEvent(media) => Consumers(s.chans, media.trackId)
    case KeyframeEvent(t, _) => Sources(s.chans, t)
  }

  function AsInput(ev: BusEvent): TaskInput {
    match ev
    case MediaEvent(media) => MediaInput(media)
    case KeyframeEvent(t, kind) => KeyframeInput(t, kind)
  }

  function BusRead(s: Tables, ev: BusEvent, rs: seq<Reaction>): Delivery {
    Deliver(s.tasks, Receivers(s, ev), AsInput(ev), rs)
  }

  // ----- datagrams -----

  /** What STUN decoding makes of a datagram: nothing, a message without a user name, or the ufrag its user name begins with. */
  datatype Stun = NotStun | Unnamed | Naming(ufrag: string)

  /** A datagram, what it is as STUN, when it is read, and how the engine takes it. */
  datatype Datagram = Datagram(remote: SocketAddr, stun: Stun, buf: Bytes, at: Time, reaction: Reaction)

  /** A known address keeps its task; an unknown one is bound to the task whose ufrag it names. */
  function Bind(s: Tables, d: Datagram): (Option<TaskId>, Tables) {
    if d.remote in s.remotes then
      (if s.remotes[d.remote] in s.tasks then Some(s.remotes[d.remote]) else None, s)
    else if d.stun.Naming? && d.stun.ufrag in s.ufrags then
      var id := s.ufrags[d.stun.ufrag];
      var t := s.(remotes := s.remotes[d.remote := id]);
      if id in s.tasks
      then (Some(id), t.(tasks := s.tasks[id := s.tasks[id].(remotes := s.tasks[id].remotes + [d.remote])]))
      else (None, t)
    else (None, s)
  }

  datatype Udp = Routed(to: Option<TaskId>, tables: Tables) | UdpPanic

  /** Decoding fails on what is not STUN, and is tried only for unknown addresses. */
  function UdpRead(s: Tables, d: Datagram, local: SocketAddr): Udp {
    var (to, t) := Bind(s, d);
    if d.remote !in s.remotes && d.stun.NotStun? then UdpPanic
    else if to.None? || to.value !in t.tasks then Routed(None, t)
    else match GiveTo(t.tasks, to.value, UdpSocketRecv(d.remote, local, d.buf), d.reaction)
      case Panicked => UdpPanic
      case Delivered(m, _) => Routed(to, t.(tasks := m))
  }

  function TickTask(s: Tables, id: TaskId, now: Time, r: Reaction): Tables
    requires id in s.tasks
  {
    s.(tasks := s.tasks[id := s.tasks[id].(task := Tick(s.tasks[id].task, now, r))])
  }

  // ----- removing ended tasks -----

  function Without(ids: seq<TaskId>, id: TaskId): seq<TaskId> {
    if ids == [] then []
    else Without(ids[..|ids| - 1], id) + if ids[|ids| - 1] == id then [] else [ids[|ids| - 1]]
  }

  /** Filters the consumers of one track and drops an entry that is empty on both sides. */
  function CleanTrack(chans: map<TrackId, Channel>, t: TrackId, id: TaskId): map<TrackId, Channel> {
    if t !in chans then chans
    else
      var consumers := Without(chans[t].consumers, id);
      if consumers == [] && chans[t].sources == [] then chans - {t}
      else chans[t := Channel(chans[t].sources, consumers)]
  }

  function CleanTracks(chans: map<TrackId, Channel>, tracks: seq<TrackId>, id: TaskId): map<TrackId, Channel> {
    if tracks == [] then chans
    else CleanTrack(CleanTracks(chans, tracks[..|tracks| - 1], id), tracks[|tracks| - 1], id)
  }

  function DropRemotes(remotes: map<SocketAddr, TaskId>, addrs: seq<SocketAddr>): map<SocketAddr, TaskId> {
    if addrs == [] then remotes else DropRemotes(remotes, addrs[..|addrs| - 1]) - {addrs[|addrs| - 1]}
  }

  /** `None` is the failed `expect`. The loop over the published tracks filters consumers too, as written. */
  function Remove(s: Tables, id: TaskId): Option<Tables> {
    if id !in s.tasks then None
    else
      var c := s.tasks[id];
      Some(s.(tasks := s.tasks - {id},
              remotes := DropRemotes(s.remotes, c.remotes),
              ufrags := s.ufrags - {c.task.ufrag},
              chans := CleanTracks(CleanTracks(s.chans, c.subs, id), c.pubs, id)))
  }

  function RemoveAll(s: Tables, ids: seq<TaskId>): Option<Tables> {
    if ids == [] then Some(s)
    else match RemoveAll(s, ids[..|ids| - 1])
      case None => None
      case Some(t) => Remove(t, ids[|ids| - 1])
  }

  function PopEnded(s: Tables): Option<Tables> {
    RemoveAll(s.(ended := []), s.ended)
  }
}
