/** The agreement between a worker's tables, and that every step keeps it. */
module RoutingSafety {
  import opened Seqs
  import opened Net
  import opened Tasks
  import opened Routing

  function Count(s: seq<nat>, x: nat): nat {
    Tally(Same, s, x)
  }

  // ----- the invariant -----

  /** Ids are handed out in order; `roles` remembers the role of every id ever handed out. */
  ghost predicate IdsOk(s: Tables, roles: map<TaskId, Role>) {
    && (forall id: TaskId :: id in roles <==> id < s.seed)
    && (forall id :: id in s.tasks ==> id in roles && s.tasks[id].task.role == roles[id] && RoleOk(s.tasks[id].task))
  }

  /** Ufrags and live tasks correspond one to one. */
  ghost predicate UfragsOk(s: Tables) {
    && (forall u :: u in s.ufrags ==> s.ufrags[u] in s.tasks && s.tasks[s.ufrags[u]].task.ufrag == u)
    && (forall id :: id in s.tasks ==> s.tasks[id].task.ufrag in s.ufrags && s.ufrags[s.tasks[id].task.ufrag] == id)
  }

  predicate Distinct<T(==)>(xs: seq<T>) {
    forall i, j :: 0 <= i < j < |xs| ==> xs[i] != xs[j]
  }

  /** The address table is the inverse of the live tasks' address lists. */
  ghost predicate RemotesOk(s: Tables) {
    && (forall a :: a in s.remotes ==> s.remotes[a] in s.tasks && a in s.tasks[s.remotes[a]].remotes)
    && (forall id, a :: id in s.tasks && a in s.tasks[id].remotes ==> a in s.remotes && s.remotes[a] == id)
    && (forall id :: id in s.tasks ==> Distinct(s.tasks[id].remotes))
  }

  predicate NoEmptyEntry(chans: map<TrackId, Channel>) {
    forall t :: t in chans ==> chans[t].sources != [] || chans[t].consumers != []
  }

  function Subscriptions(s: Tables, id: TaskId, t: TrackId): nat {
    if id in s.tasks then Count(s.tasks[id].subs, t) else 0
  }

  function Publications(s: Tables, id: TaskId, t: TrackId): nat {
    if id in s.tasks then Count(s.tasks[id].pubs, t) else 0
  }

  /** Consumers agree with the live tasks' subscriptions, multiplicities included; nobody else is listed. */
  ghost predicate ConsumersAgree(s: Tables) {
    forall t: TrackId, id: TaskId :: Count(Consumers(s.chans, t), id) == Subscriptions(s, id, t)
  }

  /** Sources, seen through the live tasks, agree with their publications; stale ids may remain. */
  ghost predicate SourcesAgree(s: Tables) {
    forall t: TrackId, id: TaskId :: id in s.tasks ==> Count(Sources(s.chans, t), id) == Publications(s, id, t)
  }

  ghost predicate ListedRoles(s: Tables, roles: map<TaskId, Role>) {
    && (forall t: TrackId, i :: 0 <= i < |Consumers(s.chans, t)| ==> Consumers(s.chans, t)[i] in roles && roles[Consumers(s.chans, t)[i]] == Whep)
    && (forall t: TrackId, i :: 0 <= i < |Sources(s.chans, t)| ==> Sources(s.chans, t)[i] in roles && roles[Sources(s.chans, t)[i]] == Whip)
  }

  ghost predicate EndedOk(s: Tables) {
    forall i :: 0 <= i < |s.ended| ==> s.ended[i] in s.tasks
  }

  ghost predicate ChannelsOk(s: Tables, roles: map<TaskId, Role>) {
    NoEmptyEntry(s.chans) && ConsumersAgree(s) && SourcesAgree(s) && ListedRoles(s, roles)
  }

  ghost predicate TasksOk(s: Tables, roles: map<TaskId, Role>) {
    IdsOk(s, roles) && UfragsOk(s) && RemotesOk(s) && EndedOk(s)
  }

  ghost predicate Inv(s: Tables, roles: map<TaskId, Role>) {
    TasksOk(s, roles) && ChannelsOk(s, roles)
  }

  lemma EmptyInv()
    ensures Inv(EMPTY, map[])
  {}

  // ----- steps that leave routing alone -----

  /** The same tasks under the same names and addresses. */
  ghost predicate SameNames(a: map<TaskId, Container>, b: map<TaskId, Container>) {
    && a.Keys == b.Keys
    && (forall id :: id in a ==>
          b[id].remotes == a[id].remotes && b[id].task.role == a[id].task.role && b[id].task.ufrag == a[id].task.ufrag)
  }

  /** As above, with the same tracks; only the inside of a task may differ. */
  ghost predicate SameRouting(a: map<TaskId, Container>, b: map<TaskId, Container>) {
    SameNames(a, b) && (forall id :: id in a ==> b[id].subs == a[id].subs && b[id].pubs == a[id].pubs)
  }

  ghost predicate AllRoleOk(tasks: map<TaskId, Container>) {
    forall id :: id in tasks ==> RoleOk(tasks[id].task)
  }

  lemma SameNamesKeeps(s: Tables, t: Tables, roles: map<TaskId, Role>)
    requires TasksOk(s, roles) && SameNames(s.tasks, t.tasks) && AllRoleOk(t.tasks)
    requires t.seed == s.seed && t.remotes == s.remotes && t.ufrags == s.ufrags && t.ended == s.ended
    ensures TasksOk(t, roles)
  {
    assert UfragsOk(t);
    SameRemotes(s, t);
  }

  lemma SameRemotes(s: Tables, t: Tables)
    requires RemotesOk(s) && SameNames(s.tasks, t.tasks) && t.remotes == s.remotes
    ensures RemotesOk(t)
  {}

  lemma SameTracksKeeps(s: Tables, t: Tables, roles: map<TaskId, Role>)
    requires ChannelsOk(s, roles) && SameRouting(s.tasks, t.tasks) && t.chans == s.chans
    ensures ChannelsOk(t, roles)
  {
    forall k: TrackId, id: TaskId
      ensures Subscriptions(t, id, k) == Subscriptions(s, id, k) && Publications(t, id, k) == Publications(s, id, k) {}
  }

  lemma SameRoutingKeeps(s: Tables, tasks: map<TaskId, Container>, roles: map<TaskId, Role>)
    requires Inv(s, roles) && SameRouting(s.tasks, tasks) && AllRoleOk(tasks)
    ensures Inv(s.(tasks := tasks), roles)
  {
    SameNamesKeeps(s, s.(tasks := tasks), roles);
    SameTracksKeeps(s, s.(tasks := tasks), roles);
  }

  lemma TickKeeps(s: Tables, roles: map<TaskId, Role>, id: TaskId, now: Time, r: Reaction)
    requires Inv(s, roles) && id in s.tasks
    ensures Inv(TickTask(s, id, now, r), roles)
  {
    assert RoleOk(s.tasks[id].task);
    TickRole(s.tasks[id].task, now, r);
    SameRoutingKeeps(s, TickTask(s, id, now, r).tasks, roles);
  }

  lemma TickRole(t: Task, now: Time, r: Reaction)
    requires RoleOk(t)
    ensures RoleOk(Tick(t, now, r)) && Tick(t, now, r).role == t.role && Tick(t, now, r).ufrag == t.ufrag
  {}

  lemma GiveRouting(tasks: map<TaskId, Container>, id: TaskId, e: TaskInput, r: Reaction)
    ensures GiveTo(tasks, id, e, r).Delivered? ==>
              SameRouting(tasks, GiveTo(tasks, id, e, r).tasks) && SameVideo(tasks, GiveTo(tasks, id, e, r).tasks)
    ensures GiveTo(tasks, id, e, r).Delivered? && AllRoleOk(tasks) ==> AllRoleOk(GiveTo(tasks, id, e, r).tasks)
    ensures GiveTo(tasks, id, e, r).Panicked? <==>
              id in tasks && (!InputAllowed(tasks[id].task.role, e) || MissesStream(tasks[id].task, e, r) || Garbled(e, r))
  {
    if id in tasks {
      PanicExactly(tasks[id].task, e, r);
      if Input(tasks[id].task, e, r).Handled? {
        InputSame(tasks[id].task, e, r);
        WithSameTask(tasks, id, Input(tasks[id].task, e, r).task);
      }
    }
  }

  lemma WithSameTask(tasks: map<TaskId, Container>, id: TaskId, u: Task)
    requires id in tasks
    requires var t := tasks[id].task;
             && u.role == t.role && u.ufrag == t.ufrag && u.outputs == t.outputs
             && u.videoMid == t.videoMid && u.videoTrack == t.videoTrack
    ensures var m := tasks[id := tasks[id].(task := u)]; SameRouting(tasks, m) && SameVideo(tasks, m) && (AllRoleOk(tasks) ==> AllRoleOk(m))
  {
    var m := tasks[id := tasks[id].(task := u)];
    if AllRoleOk(tasks) {
      forall i | i in m ensures RoleOk(m[i].task) { assert RoleOk(tasks[i].task); }
    }
  }

  lemma InputSame(t: Task, e: TaskInput, r: Reaction)
    requires Input(t, e, r).Handled?
    ensures var u := Input(t, e, r).task;
            && u.role == t.role && u.ufrag == t.ufrag && u.outputs == t.outputs
            && u.videoMid == t.videoMid && u.videoTrack == t.videoTrack
  {}

  /** The same tasks with the same video: what decides whether a keyframe request misses its stream. */
  ghost predicate SameVideo(a: map<TaskId, Container>, b: map<TaskId, Container>) {
    && a.Keys == b.Keys
    && (forall id :: id in a ==>
          && b[id].task.role == a[id].task.role
          && b[id].task.videoMid == a[id].task.videoMid && b[id].task.videoTrack == a[id].task.videoTrack)
  }

  /** Every live receiver of a keyframe request that announced its video has the stream for it. */
  ghost predicate StreamsThere(tasks: map<TaskId, Container>, ids: seq<TaskId>, e: TaskInput, rs: seq<Reaction>) {
    forall i :: 0 <= i < |ids| && ids[i] in tasks ==> !MissesStream(tasks[ids[i]].task, e, At(rs, i))
  }

  ghost predicate Streams(s: Tables, ev: BusEvent, rs: seq<Reaction>) {
    StreamsThere(s.tasks, Receivers(s, ev), AsInput(ev), rs)
  }

  lemma StreamsSplit(tasks: map<TaskId, Container>, ids: seq<TaskId>, e: TaskInput, rs: seq<Reaction>)
    requires ids != []
    ensures StreamsThere(tasks, ids, e, rs) <==>
              && StreamsThere(tasks, ids[..|ids| - 1], e, rs)
              && (ids[|ids| - 1] in tasks ==> !MissesStream(tasks[ids[|ids| - 1]].task, e, At(rs, |ids| - 1)))
  {
    forall i | 0 <= i < |ids| - 1 ensures ids[..|ids| - 1][i] == ids[i] {}
  }

  /** When the live receivers have the role for an input, delivery panics exactly when one of them misses its stream. */
  lemma {:induction false} DeliverRouting(tasks: map<TaskId, Container>, ids: seq<TaskId>, e: TaskInput, rs: seq<Reaction>)
    requires !e.UdpSocketRecv? && forall i :: 0 <= i < |ids| && ids[i] in tasks ==> InputAllowed(tasks[ids[i]].task.role, e)
    ensures Deliver(tasks, ids, e, rs).Delivered? <==> StreamsThere(tasks, ids, e, rs)
    ensures Deliver(tasks, ids, e, rs).Delivered? ==>
              var m := Deliver(tasks, ids, e, rs).tasks; SameRouting(tasks, m) && SameVideo(tasks, m) && (AllRoleOk(tasks) ==> AllRoleOk(m))
  {
    if ids == [] {
    } else {
      var init := ids[..|ids| - 1];
      DeliverRouting(tasks, init, e, rs);
      StreamsSplit(tasks, ids, e, rs);
      if Deliver(tasks, init, e, rs).Delivered? {
        GiveRouting(Deliver(tasks, init, e, rs).tasks, ids[|ids| - 1], e, At(rs, |ids| - 1));
      }
    }
  }

  function Repeat<T>(x: T, n: nat): seq<T> {
    seq(n, _ => x)
  }

  /** The inputs a task got, in order. */
  function InputsTo(log: seq<(TaskId, TaskInput)>, id: TaskId): seq<TaskInput> {
    if log == [] then []
    else InputsTo(log[..|log| - 1], id) + if log[|log| - 1].0 == id then [log[|log| - 1].1] else []
  }

  lemma {:induction false} InputsToConcat(a: seq<(TaskId, TaskInput)>, b: seq<(TaskId, TaskInput)>, id: TaskId)
    ensures InputsTo(a + b, id) == InputsTo(a, id) + InputsTo(b, id)
    decreases |b|
  {
    if b == [] {
      assert a + b == a;
    } else {
      assert (a + b)[..|a + b| - 1] == a + b[..|b| - 1];
      InputsToConcat(a, b[..|b| - 1], id);
    }
  }

  /** A live task gets the event once for each time it is listed, and nobody else gets anything. */
  lemma {:induction false} DeliverCounts(tasks: map<TaskId, Container>, ids: seq<TaskId>, e: TaskInput, rs: seq<Reaction>, id: TaskId)
    requires Deliver(tasks, ids, e, rs).Delivered?
    ensures Deliver(tasks, ids, e, rs).tasks.Keys == tasks.Keys
    ensures InputsTo(Deliver(tasks, ids, e, rs).log, id) == Repeat(e, if id in tasks then Count(ids, id) else 0)
  {
    if ids == [] {
    } else {
      var init, last := ids[..|ids| - 1], ids[|ids| - 1];
      DeliverCounts(tasks, init, e, rs, id);
      var m := Deliver(tasks, init, e, rs);
      GiveRouting(m.tasks, last, e, At(rs, |ids| - 1));
      InputsToConcat(m.log, GiveTo(m.tasks, last, e, At(rs, |ids| - 1)).log, id);
      assert Count(ids, id) == Count(init, id) + One(Same(last), id);
    }
  }

  lemma ReceiversRole(s: Tables, roles: map<TaskId, Role>, ev: BusEvent)
    requires IdsOk(s, roles) && ListedRoles(s, roles)
    ensures forall i :: 0 <= i < |Receivers(s, ev)| && Receivers(s, ev)[i] in s.tasks ==>
              InputAllowed(s.tasks[Receivers(s, ev)[i]].task.role, AsInput(ev))
  {}

  /** Reading an event panics exactly when a live publisher misses its stream; otherwise the tables stay in agreement. */
  lemma BusReadKeeps(s: Tables, roles: map<TaskId, Role>, ev: BusEvent, rs: seq<Reaction>)
    requires Inv(s, roles)
    ensures BusRead(s, ev, rs).Delivered? <==> Streams(s, ev, rs)
    ensures BusRead(s, ev, rs).Delivered? ==>
              var m := BusRead(s, ev, rs).tasks; Inv(s.(tasks := m), roles) && SameRouting(s.tasks, m) && SameVideo(s.tasks, m)
  {
    ReceiversRole(s, roles, ev);
    DeliverRouting(s.tasks, Receivers(s, ev), AsInput(ev), rs);
    if Streams(s, ev, rs) { SameRoutingKeeps(s, BusRead(s, ev, rs).tasks, roles); }
  }

  /** Media never misses a stream. */
  lemma MediaStreams(s: Tables, media: TrackMedia, rs: seq<Reaction>)
    ensures Streams(s, MediaEvent(media), rs)
  {}

  // ----- a new task -----

  /** A new ufrag that no live task has keeps every table in agreement. */
  lemma CreateKeeps(s: Tables, roles: map<TaskId, Role>, task: Task)
    requires Inv(s, roles) && task.ufrag !in s.ufrags && RoleOk(task)
    ensures Inv(Create(s, task), roles[s.seed := task.role])
  {
    CreateIds(s, roles, task);
    CreateUfrags(s, roles, task);
    CreateRemotes(s, roles, task);
    CreateChannels(s, roles, task);
  }

  /** The ufrag table survives a new task exactly when the ufrag is new; otherwise the older task loses its entry. */
  lemma UfragCollision(s: Tables, roles: map<TaskId, Role>, task: Task)
    requires IdsOk(s, roles) && UfragsOk(s)
    ensures UfragsOk(Create(s, task)) <==> task.ufrag !in s.ufrags
  {
    assert s.seed !in s.tasks;
    var t := Create(s, task);
    if task.ufrag in s.ufrags {
      var older := s.ufrags[task.ufrag];
      assert older in t.tasks && t.tasks[older].task.ufrag == task.ufrag && t.ufrags[task.ufrag] != older;
    }
  }

  lemma CreateIds(s: Tables, roles: map<TaskId, Role>, task: Task)
    requires IdsOk(s, roles) && EndedOk(s) && RoleOk(task)
    ensures IdsOk(Create(s, task), roles[s.seed := task.role]) && EndedOk(Create(s, task))
  {}

  lemma CreateUfrags(s: Tables, roles: map<TaskId, Role>, task: Task)
    requires IdsOk(s, roles) && UfragsOk(s) && task.ufrag !in s.ufrags
    ensures UfragsOk(Create(s, task))
  {
    assert s.seed !in s.tasks;
  }

  lemma CreateRemotes(s: Tables, roles: map<TaskId, Role>, task: Task)
    requires IdsOk(s, roles) && RemotesOk(s)
    ensures RemotesOk(Create(s, task))
  {
    assert s.seed !in s.tasks;
  }

  lemma CreateChannels(s: Tables, roles: map<TaskId, Role>, task: Task)
    requires Inv(s, roles)
    ensures ChannelsOk(Create(s, task), roles[s.seed := task.role])
  {
    var t := Create(s, task);
    assert s.seed !in s.tasks && s.seed !in roles;
    forall k: TrackId, id: TaskId
      ensures Subscriptions(t, id, k) == Subscriptions(s, id, k) && Publications(t, id, k) == Publications(s, id, k) {}
    forall k: TrackId ensures Count(Sources(s.chans, k), s.seed) == 0 {
      if Count(Sources(s.chans, k), s.seed) > 0 {
        var i := TallyWitness(Same, Sources(s.chans, k), s.seed);
      }
    }
  }

  // ----- one action of a task -----

  lemma PopSameTask(t: Task, now: Time)
    ensures var u := PopAction(t, now).1; u.role == t.role && u.ufrag == t.ufrag
  {}

  function WithTask(s: Tables, id: TaskId, task: Task): Tables
    requires id in s.tasks
  {
    s.(tasks := s.tasks[id := s.tasks[id].(task := task)])
  }

  lemma QuietTakeKeeps(s: Tables, roles: map<TaskId, Role>, id: TaskId, task: Task)
    requires Inv(s, roles) && id in s.tasks
    requires task.role == s.tasks[id].task.role && task.ufrag == s.tasks[id].task.ufrag && RoleOk(task)
    ensures Inv(WithTask(s, id, task), roles)
  {
    assert forall i :: i in s.tasks ==> RoleOk(s.tasks[i].task);
    SameRoutingKeeps(s, s.tasks[id := s.tasks[id].(task := task)], roles);
  }

  /** What `Perform` does to a table. */
  function Performed(s: Tables, id: TaskId, out: Option<TaskOutput>): Tables
    requires id in s.tasks
  {
    if out.None? then s else WithLocal(s, id, Perform(id, LocalOf(s, id), out.value))
  }

  /** A turn of the loop is the pop of the task followed by what its action does. */
  lemma TakeSplit(s: Tables, id: TaskId, now: Time)
    requires id in s.tasks
    ensures var (out, task) := PopAction(s.tasks[id].task, now);
            Take(s, id, now) == (out, Performed(WithTask(s, id, task), id, out))
  {
    var (out, task) := PopAction(s.tasks[id].task, now);
    var m := WithTask(s, id, task);
    assert LocalOf(m, id) == LocalOf(s, id).(box := s.tasks[id].(task := task));
    if out.Some? {
      var box := Perform(id, LocalOf(m, id), out.value).box;
      assert m.tasks[id := box] == s.tasks[id := box];
    }
  }

  lemma PublishChannels(s: Tables, roles: map<TaskId, Role>, id: TaskId, k: TrackId, t: Tables)
    requires ChannelsOk(s, roles) && id in s.tasks && id in roles && roles[id] == Whip
    requires t.chans == Publish(s.chans, k, id)
    requires t.tasks == s.tasks[id := s.tasks[id].(pubs := s.tasks[id].pubs + [k])]
    ensures ChannelsOk(t, roles)
  {
    forall k': TrackId, i: TaskId
      ensures Count(Consumers(t.chans, k'), i) == Subscriptions(t, i, k')
    {
      assert Count(Consumers(s.chans, k'), i) == Subscriptions(s, i, k');
      assert Consumers(t.chans, k') == Consumers(s.chans, k');
    }
    forall k': TrackId, i: TaskId | i in t.tasks
      ensures Count(Sources(t.chans, k'), i) == Publications(t, i, k')
    {
      assert Count(Sources(s.chans, k'), i) == Publications(s, i, k');
      TallyAppend(Same, Sources(s.chans, k), id, i);
      TallyAppend(Same, s.tasks[id].pubs, k, k');
    }
    forall k': TrackId ensures Consumers(t.chans, k') == Consumers(s.chans, k')
                       ensures Sources(t.chans, k') == Sources(s.chans, k') + if k' == k then [id] else [] {}
  }

  lemma SubscribeChannels(s: Tables, roles: map<TaskId, Role>, id: TaskId, k: TrackId, t: Tables)
    requires ChannelsOk(s, roles) && id in s.tasks && id in roles && roles[id] == Whep
    requires t.chans == Subscribe(s.chans, k, id)
    requires t.tasks == s.tasks[id := s.tasks[id].(subs := s.tasks[id].subs + [k])]
    ensures ChannelsOk(t, roles)
  {
    forall k': TrackId, i: TaskId
      ensures Count(Consumers(t.chans, k'), i) == Subscriptions(t, i, k')
    {
      assert Count(Consumers(s.chans, k'), i) == Subscriptions(s, i, k');
      TallyAppend(Same, Consumers(s.chans, k), id, i);
      TallyAppend(Same, s.tasks[id].subs, k, k');
    }
    forall k': TrackId, i: TaskId | i in t.tasks
      ensures Count(Sources(t.chans, k'), i) == Publications(t, i, k')
    {
      assert Count(Sources(s.chans, k'), i) == Publications(s, i, k');
      assert Sources(t.chans, k') == Sources(s.chans, k');
    }
    forall k': TrackId ensures Sources(t.chans, k') == Sources(s.chans, k')
                       ensures Consumers(t.chans, k') == Consumers(s.chans, k') + if k' == k then [id] else [] {}
  }

  lemma PublishKeeps(s: Tables, roles: map<TaskId, Role>, id: TaskId, k: TrackId)
    requires Inv(s, roles) && id in s.tasks && s.tasks[id].task.role == Whip
    ensures Inv(WithLocal(s, id, Perform(id, LocalOf(s, id), PublishTrack(k))), roles)
  {
    var t := WithLocal(s, id, Perform(id, LocalOf(s, id), PublishTrack(k)));
    SameNamesKeeps(s, t, roles);
    PublishChannels(s, roles, id, k, t);
  }

  lemma SubscribeKeeps(s: Tables, roles: map<TaskId, Role>, id: TaskId, k: TrackId)
    requires Inv(s, roles) && id in s.tasks && s.tasks[id].task.role == Whep
    ensures Inv(WithLocal(s, id, Perform(id, LocalOf(s, id), SubscribeTrack(k))), roles)
  {
    var t := WithLocal(s, id, Perform(id, LocalOf(s, id), SubscribeTrack(k)));
    SameNamesKeeps(s, t, roles);
    SubscribeChannels(s, roles, id, k, t);
  }

  /** One action keeps the tables in agreement. */
  lemma TakeKeeps(s: Tables, roles: map<TaskId, Role>, id: TaskId, now: Time)
    requires Inv(s, roles) && id in s.tasks
    ensures Inv(Take(s, id, now).1, roles)
  {
    var t := s.tasks[id].task;
    PopRoleOk(t, now);
    PopSameTask(t, now);
    TakeSplit(s, id, now);
    PoppedKeeps(s, roles, id, PopAction(t, now).0, PopAction(t, now).1);
  }

  lemma PoppedKeeps(s: Tables, roles: map<TaskId, Role>, id: TaskId, out: Option<TaskOutput>, task: Task)
    requires Inv(s, roles) && id in s.tasks
    requires task.role == s.tasks[id].task.role && task.ufrag == s.tasks[id].task.ufrag && RoleOk(task)
    requires out.Some? ==> OutputAllowed(task.role, out.value)
    ensures Inv(Performed(WithTask(s, id, task), id, out), roles)
  {
    QuietTakeKeeps(s, roles, id, task);
    if out.Some? {
      PerformKeeps(WithTask(s, id, task), roles, id, out.value);
    }
  }

  lemma PerformKeeps(s: Tables, roles: map<TaskId, Role>, id: TaskId, out: TaskOutput)
    requires Inv(s, roles) && id in s.tasks && OutputAllowed(s.tasks[id].task.role, out)
    ensures Inv(WithLocal(s, id, Perform(id, LocalOf(s, id), out)), roles)
  {
    match out
    case PublishTrack(k) => PublishKeeps(s, roles, id, k);
    case SubscribeTrack(k) => SubscribeKeeps(s, roles, id, k);
    case TaskEnded =>
      var t := s.(ended := s.ended + [id]);
      assert WithLocal(s, id, Perform(id, LocalOf(s, id), out)) == t.(tasks := s.tasks[id := s.tasks[id]]);
      assert s.tasks[id := s.tasks[id]] == s.tasks;
      EndedKeeps(s, roles, id);
    case _ =>
      assert s.tasks[id := s.tasks[id]] == s.tasks;
  }

  lemma EndedKeeps(s: Tables, roles: map<TaskId, Role>, id: TaskId)
    requires Inv(s, roles) && id in s.tasks
    ensures Inv(s.(ended := s.ended + [id]), roles)
  {
    var t := s.(ended := s.ended + [id]);
    forall k: TrackId, i: TaskId
      ensures Subscriptions(t, i, k) == Subscriptions(s, i, k) && Publications(t, i, k) == Publications(s, i, k) {}
  }

  // ----- datagrams -----

  predicate Binds(s: Tables, d: Datagram) {
    d.remote !in s.remotes && d.stun.Naming? && d.stun.ufrag in s.ufrags
  }

  /** The tables after a new address was bound to the live task `id`. */
  function Bound(s: Tables, a: SocketAddr, id: TaskId): Tables
    requires id in s.tasks
  {
    s.(remotes := s.remotes[a := id], tasks := s.tasks[id := s.tasks[id].(remotes := s.tasks[id].remotes + [a])])
  }

  lemma BoundRemotes(s: Tables, a: SocketAddr, id: TaskId)
    requires RemotesOk(s) && id in s.tasks && a !in s.remotes
    ensures RemotesOk(Bound(s, a, id))
  {
    var t := Bound(s, a, id);
    assert forall i :: i in s.tasks ==> a !in s.tasks[i].remotes;
    assert t.tasks[id].remotes[|s.tasks[id].remotes|] == a;
    forall b | b in t.remotes ensures t.remotes[b] in t.tasks && b in t.tasks[t.remotes[b]].remotes {
      if b != a { assert b in s.tasks[s.remotes[b]].remotes; }
    }
    forall i, b | i in t.tasks && b in t.tasks[i].remotes ensures b in t.remotes && t.remotes[b] == i {
      if b != a { assert b in s.tasks[i].remotes; }
    }
  }

  lemma BoundOthers(s: Tables, roles: map<TaskId, Role>, a: SocketAddr, id: TaskId)
    requires IdsOk(s, roles) && UfragsOk(s) && EndedOk(s) && id in s.tasks
    ensures IdsOk(Bound(s, a, id), roles) && UfragsOk(Bound(s, a, id)) && EndedOk(Bound(s, a, id))
  {
    var t := Bound(s, a, id);
    assert forall i :: i in s.tasks ==> t.tasks[i].task == s.tasks[i].task;
  }

  lemma BindTables(s: Tables, roles: map<TaskId, Role>, d: Datagram)
    requires TasksOk(s, roles) && Binds(s, d)
    ensures s.ufrags[d.stun.ufrag] in s.tasks
    ensures Bind(s, d) == (Some(s.ufrags[d.stun.ufrag]), Bound(s, d.remote, s.ufrags[d.stun.ufrag]))
    ensures TasksOk(Bind(s, d).1, roles)
  {
    var id := s.ufrags[d.stun.ufrag];
    BoundRemotes(s, d.remote, id);
    BoundOthers(s, roles, d.remote, id);
  }

  lemma BindChannels(s: Tables, roles: map<TaskId, Role>, d: Datagram)
    requires TasksOk(s, roles) && ChannelsOk(s, roles) && Binds(s, d)
    ensures ChannelsOk(Bind(s, d).1, roles)
  {
    var t := Bind(s, d).1;
    forall k: TrackId, id: TaskId
      ensures Subscriptions(t, id, k) == Subscriptions(s, id, k) && Publications(t, id, k) == Publications(s, id, k) {}
  }

  lemma BindKeeps(s: Tables, roles: map<TaskId, Role>, d: Datagram)
    requires Inv(s, roles)
    ensures Inv(Bind(s, d).1, roles)
  {
    if Binds(s, d) {
      BindTables(s, roles, d);
      BindChannels(s, roles, d);
    }
  }

  /** From an unknown address a datagram must be STUN, and one that reaches a task must parse. */
  predicate Readable(s: Tables, d: Datagram) {
    && (d.remote in s.remotes || !d.stun.NotStun?)
    && (d.remote in s.remotes || (d.stun.Naming? && d.stun.ufrag in s.ufrags) ==> d.reaction.parses)
  }

  /** Reading a datagram panics exactly when it is not readable; otherwise the tables stay in agreement. */
  lemma UdpKeeps(s: Tables, roles: map<TaskId, Role>, d: Datagram, local: SocketAddr)
    requires Inv(s, roles)
    ensures UdpRead(s, d, local).Routed? <==> Readable(s, d)
    ensures UdpRead(s, d, local).Routed? ==> Inv(UdpRead(s, d, local).tables, roles)
  {
    BindKeeps(s, roles, d);
    BindReaches(s, roles, d);
    UdpReadIs(s, d, local);
    var (to, t) := Bind(s, d);
    if to.Some? {
      GiveKeeps(t, roles, to.value, UdpSocketRecv(d.remote, local, d.buf), d.reaction);
    }
  }

  lemma UdpReadIs(s: Tables, d: Datagram, local: SocketAddr)
    ensures var (to, t) := Bind(s, d);
            UdpRead(s, d, local) ==
              if d.remote !in s.remotes && d.stun.NotStun? then UdpPanic
              else if to.None? || to.value !in t.tasks then Routed(None, t)
              else match GiveTo(t.tasks, to.value, UdpSocketRecv(d.remote, local, d.buf), d.reaction)
                case Panicked => UdpPanic
                case Delivered(m, _) => Routed(to, t.(tasks := m))
  {}

  /** A datagram that is bound reaches a live task. */
  lemma BindReaches(s: Tables, roles: map<TaskId, Role>, d: Datagram)
    requires Inv(s, roles)
    ensures Bind(s, d).0.Some? <==> d.remote in s.remotes || (d.stun.Naming? && d.stun.ufrag in s.ufrags)
    ensures Bind(s, d).0.Some? ==> Bind(s, d).0.value in Bind(s, d).1.tasks
  {
    if Binds(s, d) { BindTables(s, roles, d); }
  }

  lemma GiveKeeps(s: Tables, roles: map<TaskId, Role>, id: TaskId, e: TaskInput, r: Reaction)
    requires Inv(s, roles) && id in s.tasks && e.UdpSocketRecv?
    ensures GiveTo(s.tasks, id, e, r).Delivered? <==> r.parses
    ensures GiveTo(s.tasks, id, e, r).Delivered? ==> Inv(s.(tasks := GiveTo(s.tasks, id, e, r).tasks), roles)
  {
    GiveRouting(s.tasks, id, e, r);
    assert AllRoleOk(s.tasks);
    if r.parses { SameRoutingKeeps(s, GiveTo(s.tasks, id, e, r).tasks, roles); }
  }

  /**
   * Address routing of a readable datagram: a known address reaches the live task it is bound to; an unknown address that
   * names a live task's ufrag is bound to that task and reaches it; nothing else reaches anybody,
   * and no binding moves.
   */
  lemma AddressRouting(s: Tables, roles: map<TaskId, Role>, d: Datagram, local: SocketAddr)
    requires Inv(s, roles)
    ensures UdpRead(s, d, local).Routed? <==> Readable(s, d)
    ensures Readable(s, d) ==>
            var r := UdpRead(s, d, local);
            && (d.remote in s.remotes ==> r.to == Some(s.remotes[d.remote]) && s.remotes[d.remote] in s.tasks)
            && (d.remote !in s.remotes ==>
                  (r.to.Some? <==> exists id :: id in s.tasks && d.stun == Naming(s.tasks[id].task.ufrag)))
            && (d.remote !in s.remotes && r.to.Some? ==>
                  && r.to.value in s.tasks && d.stun == Naming(s.tasks[r.to.value].task.ufrag)
                  && r.tables.remotes == s.remotes[d.remote := r.to.value])
            && (d.remote in s.remotes || r.to.None? ==> r.tables.remotes == s.remotes)
  {
    UdpKeeps(s, roles, d, local);
    if d.remote !in s.remotes && d.stun.Naming? && d.stun.ufrag in s.ufrags {
      assert s.ufrags[d.stun.ufrag] in s.tasks;
    }
  }

  // ----- removing tasks -----

  lemma {:induction false} DropRemotesIs(remotes: map<SocketAddr, TaskId>, addrs: seq<SocketAddr>)
    ensures forall a :: a in DropRemotes(remotes, addrs) <==> a in remotes && a !in addrs
    ensures forall a :: a in DropRemotes(remotes, addrs) ==> DropRemotes(remotes, addrs)[a] == remotes[a]
  {
    if addrs == [] {
    } else {
      DropRemotesIs(remotes, addrs[..|addrs| - 1]);
      assert addrs == addrs[..|addrs| - 1] + [addrs[|addrs| - 1]];
    }
  }

  lemma {:induction false} WithoutCount(ids: seq<TaskId>, id: TaskId, x: TaskId)
    ensures Count(Without(ids, id), x) == if x == id then 0 else Count(ids, x)
  {
    if ids == [] {
    } else {
      var init, last := ids[..|ids| - 1], ids[|ids| - 1];
      WithoutCount(init, id, x);
      TallyAppend(Same, Without(init, id), last, x);
      assert Without(init, id) + [] == Without(init, id);
    }
  }

  lemma {:induction false} WithoutAbsent(ids: seq<TaskId>, id: TaskId)
    requires Count(ids, id) == 0
    ensures Without(ids, id) == ids
  {
    if ids == [] {
    } else {
      var init, last := ids[..|ids| - 1], ids[|ids| - 1];
      assert ids == init + [last];
      TallyAppend(Same, init, last, id);
      WithoutAbsent(init, id);
      assert Without(ids, id) == Without(init, id) + [last];
    }
  }

  lemma {:induction false} WithoutMembers(ids: seq<TaskId>, id: TaskId)
    ensures forall i :: 0 <= i < |Without(ids, id)| ==> Without(ids, id)[i] in ids && Without(ids, id)[i] != id
  {
    if ids == [] {
    } else {
      WithoutMembers(ids[..|ids| - 1], id);
      assert ids == ids[..|ids| - 1] + [ids[|ids| - 1]];
    }
  }

  lemma WithoutTwice(ids: seq<TaskId>, id: TaskId)
    ensures Without(Without(ids, id), id) == Without(ids, id)
  {
    WithoutCount(ids, id, id);
    WithoutAbsent(Without(ids, id), id);
  }

  lemma CleanTrackIs(chans: map<TrackId, Channel>, k: TrackId, id: TaskId, t: TrackId)
    ensures Sources(CleanTrack(chans, k, id), t) == Sources(chans, t)
    ensures Consumers(CleanTrack(chans, k, id), t) == if t == k then Without(Consumers(chans, t), id) else Consumers(chans, t)
  {}

  /** Cleaning a list of tracks filters the consumers of those tracks and leaves all sources alone. */
  lemma {:induction false} CleanTracksIs(chans: map<TrackId, Channel>, tracks: seq<TrackId>, id: TaskId, t: TrackId)
    ensures Sources(CleanTracks(chans, tracks, id), t) == Sources(chans, t)
    ensures Consumers(CleanTracks(chans, tracks, id), t) == if t in tracks then Without(Consumers(chans, t), id) else Consumers(chans, t)
  {
    if tracks == [] {
    } else {
      var init, last := tracks[..|tracks| - 1], tracks[|tracks| - 1];
      CleanTracksIs(chans, init, id, t);
      CleanTrackIs(CleanTracks(chans, init, id), last, id, t);
      WithoutTwice(Consumers(chans, t), id);
      assert t in tracks <==> t in init || t == last by {
        assert tracks == init + [last];
      }
    }
  }

  lemma {:induction false} CleanTracksNonEmpty(chans: map<TrackId, Channel>, tracks: seq<TrackId>, id: TaskId)
    requires NoEmptyEntry(chans)
    ensures NoEmptyEntry(CleanTracks(chans, tracks, id))
  {
    if tracks == [] {
    } else {
      CleanTracksNonEmpty(chans, tracks[..|tracks| - 1], id);
    }
  }

  /** Removal takes the task out of every consumer list, on every track. */
  lemma RemoveConsumers(s: Tables, id: TaskId, t: TrackId)
    requires ConsumersAgree(s) && id in s.tasks
    ensures Consumers(Remove(s, id).value.chans, t) == Without(Consumers(s.chans, t), id)
    ensures Sources(Remove(s, id).value.chans, t) == Sources(s.chans, t)
  {
    var c := s.tasks[id];
    var first := CleanTracks(s.chans, c.subs, id);
    CleanTracksIs(s.chans, c.subs, id, t);
    CleanTracksIs(first, c.pubs, id, t);
    WithoutTwice(Consumers(s.chans, t), id);
    if t !in c.subs {
      assert Count(Consumers(s.chans, t), id) == Subscriptions(s, id, t);
      if Count(c.subs, t) > 0 { var i := TallyWitness(Same, c.subs, t); }
      WithoutAbsent(Consumers(s.chans, t), id);
    }
  }

  lemma RemoveChannels(s: Tables, roles: map<TaskId, Role>, id: TaskId)
    requires ChannelsOk(s, roles) && id in s.tasks
    ensures ChannelsOk(Remove(s, id).value, roles)
  {
    var t := Remove(s, id).value;
    CleanTracksNonEmpty(s.chans, s.tasks[id].subs, id);
    CleanTracksNonEmpty(CleanTracks(s.chans, s.tasks[id].subs, id), s.tasks[id].pubs, id);
    forall k: TrackId, i: TaskId
      ensures Count(Consumers(t.chans, k), i) == Subscriptions(t, i, k)
      ensures i in t.tasks ==> Count(Sources(t.chans, k), i) == Publications(t, i, k)
    {
      RemoveConsumers(s, id, k);
      WithoutCount(Consumers(s.chans, k), id, i);
      assert Count(Consumers(s.chans, k), i) == Subscriptions(s, i, k);
      if i in t.tasks { assert Count(Sources(s.chans, k), i) == Publications(s, i, k); }
    }
    forall k: TrackId
      ensures Sources(t.chans, k) == Sources(s.chans, k)
      ensures forall i :: 0 <= i < |Consumers(t.chans, k)| ==> Consumers(t.chans, k)[i] in Consumers(s.chans, k)
    {
      RemoveConsumers(s, id, k);
      WithoutMembers(Consumers(s.chans, k), id);
    }
  }

  lemma RemoveTables(s: Tables, roles: map<TaskId, Role>, id: TaskId)
    requires TasksOk(s, roles) && id in s.tasks && id !in s.ended
    ensures TasksOk(Remove(s, id).value, roles)
  {
    var t := Remove(s, id).value;
    RemoveAddresses(s, id, t);
    assert IdsOk(t, roles);
  }

  lemma RemoveAddresses(s: Tables, id: TaskId, t: Tables)
    requires RemotesOk(s) && id in s.tasks
    requires t.tasks == s.tasks - {id} && t.remotes == DropRemotes(s.remotes, s.tasks[id].remotes)
    ensures RemotesOk(t)
  {
    DropRemotesIs(s.remotes, s.tasks[id].remotes);
    forall i, a | i in t.tasks && a in t.tasks[i].remotes ensures a in t.remotes && t.remotes[a] == i {
      assert i in s.tasks && a in s.tasks[i].remotes && s.remotes[a] == i;
    }
    forall a | a in t.remotes ensures t.remotes[a] in t.tasks && a in t.tasks[t.remotes[a]].remotes {
      assert a in s.remotes && a !in s.tasks[id].remotes;
    }
  }

  /** Removing a live task keeps the tables in agreement. */
  lemma RemoveKeeps(s: Tables, roles: map<TaskId, Role>, id: TaskId)
    requires Inv(s, roles) && id in s.tasks && id !in s.ended
    ensures Inv(Remove(s, id).value, roles)
  {
    RemoveTables(s, roles, id);
    RemoveChannels(s, roles, id);
  }

  /** Draining the list never fails when its ids are live and distinct, in whatever order they ended, and only then. */
  lemma {:induction false} RemoveAllSucceeds(s: Tables, roles: map<TaskId, Role>, ids: seq<TaskId>)
    requires Inv(s, roles) && s.ended == []
    ensures RemoveAll(s, ids).Some? <==> Distinct(ids) && (forall i :: 0 <= i < |ids| ==> ids[i] in s.tasks)
    ensures RemoveAll(s, ids).Some? ==>
              var t := RemoveAll(s, ids).value;
              && Inv(t, roles) && t.ended == [] && t.seed == s.seed
              && (forall id :: id in t.tasks <==> id in s.tasks && id !in ids)
              && (forall id :: id in t.tasks ==> t.tasks[id] == s.tasks[id])
  {
    if ids == [] {
    } else {
      var init, last := ids[..|ids| - 1], ids[|ids| - 1];
      assert ids == init + [last];
      RemoveAllSucceeds(s, roles, init);
      if RemoveAll(s, init).Some? {
        var t := RemoveAll(s, init).value;
        if last in t.tasks { RemoveKeeps(t, roles, last); }
      }
    }
  }

  function Surviving(ids: seq<TaskId>, gone: seq<TaskId>): seq<TaskId> {
    if ids == [] then []
    else Surviving(ids[..|ids| - 1], gone) + if ids[|ids| - 1] in gone then [] else [ids[|ids| - 1]]
  }

  lemma {:induction false} SurvivingNobody(ids: seq<TaskId>)
    ensures Surviving(ids, []) == ids
  {
    if ids == [] {
    } else {
      SurvivingNobody(ids[..|ids| - 1]);
    }
  }

  lemma {:induction false} SurvivingMore(ids: seq<TaskId>, gone: seq<TaskId>, id: TaskId)
    ensures Surviving(ids, gone + [id]) == Without(Surviving(ids, gone), id)
  {
    if ids == [] {
    } else {
      var init, last := ids[..|ids| - 1], ids[|ids| - 1];
      SurvivingMore(init, gone, id);
      var kept := Surviving(init, gone);
      if last !in gone {
        assert (kept + [last])[..|kept|] == kept;
        assert last in gone + [id] <==> last == id;
      } else {
        assert last in gone + [id];
        assert kept + [] == kept && Without(kept, id) + [] == Without(kept, id);
      }
    }
  }

  lemma {:induction false} RemoveAllConsumers(s: Tables, roles: map<TaskId, Role>, ids: seq<TaskId>, t: TrackId)
    requires Inv(s, roles) && s.ended == [] && RemoveAll(s, ids).Some?
    ensures Consumers(RemoveAll(s, ids).value.chans, t) == Surviving(Consumers(s.chans, t), ids)
    ensures Sources(RemoveAll(s, ids).value.chans, t) == Sources(s.chans, t)
  {
    if ids == [] {
      SurvivingNobody(Consumers(s.chans, t));
    } else {
      var init, last := ids[..|ids| - 1], ids[|ids| - 1];
      assert ids == init + [last];
      RemoveAllSucceeds(s, roles, init);
      RemoveAllConsumers(s, roles, init, t);
      RemoveConsumers(RemoveAll(s, init).value, last, t);
      SurvivingMore(Consumers(s.chans, t), init, last);
    }
  }

  lemma ClearEnded(s: Tables, roles: map<TaskId, Role>)
    requires Inv(s, roles)
    ensures Inv(s.(ended := []), roles)
  {
    var t := s.(ended := []);
    forall k: TrackId, i: TaskId
      ensures Subscriptions(t, i, k) == Subscriptions(s, i, k) && Publications(t, i, k) == Publications(s, i, k) {}
  }

  /** The `expect` of `pop_ended_tasks` holds exactly when no task ended twice. */
  lemma PopEndedSucceeds(s: Tables, roles: map<TaskId, Role>)
    requires Inv(s, roles)
    ensures PopEnded(s).Some? <==> Distinct(s.ended)
  {
    ClearEnded(s, roles);
    RemoveAllSucceeds(s.(ended := []), roles, s.ended);
  }

  /**
   * Complete removal: `pop_ended_tasks` leaves no trace of an ended task except in source lists,
   * and changes nothing about the others, not even their order in a consumer list.
   */
  lemma CompleteRemoval(s: Tables, roles: map<TaskId, Role>)
    requires Inv(s, roles) && Distinct(s.ended)
    ensures PopEnded(s).Some?
    ensures var t := PopEnded(s).value;
            && Inv(t, roles) && t.ended == []
            && (forall id :: id in t.tasks <==> id in s.tasks && id !in s.ended)
            && (forall id :: id in t.tasks ==> t.tasks[id] == s.tasks[id])
            && (forall a :: a in t.remotes <==> a in s.remotes && s.remotes[a] !in s.ended)
            && (forall a :: a in t.remotes ==> t.remotes[a] == s.remotes[a])
            && (forall u :: u in t.ufrags <==> u in s.ufrags && s.ufrags[u] !in s.ended)
            && (forall u :: u in t.ufrags ==> t.ufrags[u] == s.ufrags[u])
            && (forall k :: Consumers(t.chans, k) == Surviving(Consumers(s.chans, k), s.ended) && Sources(t.chans, k) == Sources(s.chans, k))
  {
    ClearEnded(s, roles);
    RemoveAllSucceeds(s.(ended := []), roles, s.ended);
    forall k ensures Consumers(PopEnded(s).value.chans, k) == Surviving(Consumers(s.chans, k), s.ended)
             ensures Sources(PopEnded(s).value.chans, k) == Sources(s.chans, k) {
      RemoveAllConsumers(s.(ended := []), roles, s.ended, k);
    }
    RemovedRemotes(s, PopEnded(s).value, s.ended);
    RemovedUfrags(s, PopEnded(s).value, s.ended);
  }

  /** `t` has the tasks of `s` but the ended ones, unchanged. */
  ghost predicate TasksBut(s: Tables, t: Tables, ended: seq<TaskId>) {
    && (forall id :: id in t.tasks <==> id in s.tasks && id !in ended)
    && (forall id :: id in t.tasks ==> t.tasks[id] == s.tasks[id])
  }

  lemma RemovedRemotes(s: Tables, t: Tables, ended: seq<TaskId>)
    requires RemotesOk(s) && RemotesOk(t) && TasksBut(s, t, ended)
    ensures forall a :: a in t.remotes <==> a in s.remotes && s.remotes[a] !in ended
    ensures forall a :: a in t.remotes ==> t.remotes[a] == s.remotes[a]
  {}

  lemma RemovedUfrags(s: Tables, t: Tables, ended: seq<TaskId>)
    requires UfragsOk(s) && UfragsOk(t) && TasksBut(s, t, ended)
    ensures forall u :: u in t.ufrags <==> u in s.ufrags && s.ufrags[u] !in ended
    ensures forall u :: u in t.ufrags ==> t.ufrags[u] == s.ufrags[u]
  {}

  /**
   * Source lists are not cleaned: after the ended tasks are removed, no source list names one of
   * them exactly when none of them had published anything.
   */
  lemma StaleSources(s: Tables, roles: map<TaskId, Role>)
    requires Inv(s, roles) && Distinct(s.ended)
    ensures PopEnded(s).Some?
    ensures (forall k: TrackId, id: TaskId :: id in s.ended ==> Count(Sources(PopEnded(s).value.chans, k), id) == 0)
            <==> (forall id :: id in s.ended ==> s.tasks[id].pubs == [])
  {
    CompleteRemoval(s, roles);
    var t := PopEnded(s).value;
    forall k: TrackId, id: TaskId | id in s.ended ensures Count(Sources(t.chans, k), id) == Count(s.tasks[id].pubs, k) {
      assert Count(Sources(s.chans, k), id) == Publications(s, id, k);
    }
    if id :| id in s.ended && s.tasks[id].pubs != [] {
      TallyAt(Same, s.tasks[id].pubs, 0);
      assert Count(Sources(t.chans, s.tasks[id].pubs[0]), id) > 0;
    }
  }

  /** A keyframe request on the bus that no publisher misses reaches each live publisher of its track once per publication, and nobody else. */
  lemma KeyframeFanOut(s: Tables, roles: map<TaskId, Role>, k: TrackId, kind: KeyframeKind, rs: seq<Reaction>, id: TaskId)
    requires Inv(s, roles)
    ensures BusRead(s, KeyframeEvent(k, kind), rs).Delivered? <==> Streams(s, KeyframeEvent(k, kind), rs)
    ensures BusRead(s, KeyframeEvent(k, kind), rs).Delivered? ==>
              InputsTo(BusRead(s, KeyframeEvent(k, kind), rs).log, id) == Repeat(KeyframeInput(k, kind), Publications(s, id, k))
  {
    BusReadKeeps(s, roles, KeyframeEvent(k, kind), rs);
    if Streams(s, KeyframeEvent(k, kind), rs) { DeliverCounts(s.tasks, Sources(s.chans, k), KeyframeInput(k, kind), rs, id); }
    if id in s.tasks { assert Count(Sources(s.chans, k), id) == Publications(s, id, k); }
  }

  /** A media packet on the bus reaches each live subscriber of its track once per subscription, and nobody else. */
  lemma MediaFanOut(s: Tables, roles: map<TaskId, Role>, media: TrackMedia, rs: seq<Reaction>, id: TaskId)
    requires Inv(s, roles)
    ensures BusRead(s, MediaEvent(media), rs).Delivered?
    ensures InputsTo(BusRead(s, MediaEvent(media), rs).log, id) == Repeat(MediaInput(media), Subscriptions(s, id, media.trackId))
  {
    BusReadKeeps(s, roles, MediaEvent(media), rs);
    MediaStreams(s, media, rs);
    DeliverCounts(s.tasks, Consumers(s.chans, media.trackId), MediaInput(media), rs, id);
    assert Count(Consumers(s.chans, media.trackId), id) == Subscriptions(s, id, media.trackId);
  }
}
