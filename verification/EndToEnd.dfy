/** From a publisher's engine to a viewer's task, across workers. */
module EndToEnd {
  import opened Seqs
  import opened Tasks
  import opened Routing
  import opened RoutingSafety
  import opened Cluster
  import opened ClusterSafety

  // ----- histories -----

  /** A task is created before it does anything, with a response queued; and it does something only while it lives. */
  predicate EventOk(h: seq<Event>, e: Event) {
    && (e.Created? ==> Taken(h, e.id) == [] && |e.task.outputs| == 1 && e.task.outputs[0].HttpReply?)
    && (e.Took? ==> Live(h, e.id))
  }

  ghost predicate HistOk(h: seq<Event>) {
    h == [] || (HistOk(h[..|h| - 1]) && EventOk(h[..|h| - 1], h[|h| - 1]))
  }

  lemma HistAppend(h: seq<Event>, e: Event)
    requires HistOk(h) && EventOk(h, e)
    ensures HistOk(h + [e])
  {
    assert (h + [e])[..|h|] == h;
  }

  lemma HistTake(h: seq<Event>, id: TaskId, t: Task, now: Time)
    requires HistOk(h) && Live(h, id)
    ensures HistOk(h + TakeEvents(id, t, now))
  {
    var polled := if Polls(t, now) then [PolledEngine(id, t.engine.Poll())] else [];
    var h1 := h + polled;
    if Polls(t, now) {
      Extend(h, polled[0], id);
      HistAppend(h, polled[0]);
    } else {
      assert h1 == h;
    }
    var out := PopAction(t, now).0;
    if out.Some? {
      HistAppend(h1, Took(id, out.value));
      assert h + TakeEvents(id, t, now) == h1 + [Took(id, out.value)];
    } else {
      assert h + TakeEvents(id, t, now) == h1;
    }
  }

  lemma NodeKeepsHist(n: Node, w: nat, log: seq<Entry>, step: NodeStep)
    requires NodeOk(n) && HistOk(n.hist) && Enabled(n, log, step) && NodeNext(n, w, log, step).Fine?
    ensures HistOk(NodeNext(n, w, log, step).node.hist)
  {
    match step
    case NewStep(role, reqId, _, ufrag, engine, audio, video) =>
      HistAppend(n.hist, Created(n.tables.seed, NewTask(role, reqId, ufrag, engine, audio, video)));
    case TakeStep(id, now, _) => HistTake(n.hist, id, n.tables.tasks[id].task, now);
    case ReadStep(_) => HistAppend(n.hist, ReadBus(log[n.cursor].ev));
    case RemoveStep => HistAppend(n.hist, Removed(n.tables.ended[0]));
    case _ =>
  }

  ghost predicate AllHistOk(s: System) {
    forall w :: 0 <= w < |s.nodes| ==> HistOk(s.nodes[w].hist)
  }

  lemma NextKeepsHist(s: System, m: Move)
    requires SystemOk(s) && AllHistOk(s) && Next(s, m).Some?
    ensures AllHistOk(Next(s, m).value)
  {
    if m.Act? { NodeKeepsHist(s.nodes[m.w], m.w, s.log, m.step); }
  }

  lemma {:induction false} RunHist(moves: seq<Move>)
    requires Run(moves).Some?
    ensures AllHistOk(Run(moves).value)
  {
    if moves == [] {
    } else {
      var init := moves[..|moves| - 1];
      RunHist(init);
      RunKeeps(init);
      NextKeepsHist(Run(init).value, moves[|moves| - 1]);
    }
  }

  // ----- one track -----

  /** The media inputs on one track. */
  function OnTrack(inputs: seq<TaskInput>, t: TrackId): seq<TaskInput> {
    if inputs == [] then []
    else
      var e := inputs[|inputs| - 1];
      OnTrack(inputs[..|inputs| - 1], t) + if e.MediaInput? && e.media.trackId == t then [e] else []
  }

  /** What the media events on one track are as inputs. */
  function MediaOn(evs: seq<BusEvent>, t: TrackId): seq<TaskInput> {
    if evs == [] then []
    else
      var e := evs[|evs| - 1];
      MediaOn(evs[..|evs| - 1], t) + if e.MediaEvent? && e.media.trackId == t then [AsInput(e)] else []
  }

  lemma {:induction false} OnTrackConcat(a: seq<TaskInput>, b: seq<TaskInput>, t: TrackId)
    ensures OnTrack(a + b, t) == OnTrack(a, t) + OnTrack(b, t)
    decreases |b|
  {
    if b == [] {
      assert a + b == a;
    } else {
      assert (a + b)[..|a + b| - 1] == a + b[..|b| - 1];
      OnTrackConcat(a, b[..|b| - 1], t);
    }
  }

  lemma {:induction false} OnTrackRepeat(e: TaskInput, n: nat, t: TrackId)
    ensures OnTrack(Repeat(e, n), t) == if e.MediaInput? && e.media.trackId == t then Repeat(e, n) else []
  {
    if n == 0 {
    } else {
      assert Repeat(e, n)[..n - 1] == Repeat(e, n - 1);
      OnTrackRepeat(e, n - 1, t);
      assert Repeat(e, n) == Repeat(e, n - 1) + [e];
    }
  }

  lemma MediaOnAppend(evs: seq<BusEvent>, e: BusEvent, t: TrackId)
    ensures MediaOn(evs + [e], t) == MediaOn(evs, t) + if e.MediaEvent? && e.media.trackId == t then [AsInput(e)] else []
  {
    assert (evs + [e])[..|evs|] == evs;
  }

  function Subscribed(h: seq<Event>, id: TaskId, t: TrackId): nat {
    Tally(SubTrack, Taken(h, id), t)
  }

  /** What one more event means for a task and a track. */
  lemma TrackStep(h: seq<Event>, e: Event, id: TaskId, t: TrackId)
    ensures Subscribed(h + [e], id, t) == Subscribed(h, id, t) + if e == Took(id, SubscribeTrack(t)) then 1 else 0
    ensures OnTrack(Expected(h + [e], id), t) == OnTrack(Expected(h, id), t) +
              if e.ReadBus? && Live(h, id) && e.ev.MediaEvent? && e.ev.media.trackId == t then Repeat(AsInput(e.ev), Subscribed(h, id, t)) else []
    ensures Reads(h + [e]) == Reads(h) + if e.ReadBus? then [e.ev] else []
  {
    SubscribedStep(h, e, id, t);
    TrackExpected(h, e, id, t);
    assert (h + [e])[..|h|] == h;
  }

  lemma SubscribedStep(h: seq<Event>, e: Event, id: TaskId, t: TrackId)
    ensures Subscribed(h + [e], id, t) == Subscribed(h, id, t) + if e == Took(id, SubscribeTrack(t)) then 1 else 0
  {
    assert (h + [e])[..|h|] == h;
    if e.Took? && e.id == id {
      TallyAppend(SubTrack, Taken(h, id), e.out, t);
    } else {
      Nothing(Taken(h, id));
    }
  }

  lemma TrackExpected(h: seq<Event>, e: Event, id: TaskId, t: TrackId)
    ensures OnTrack(Expected(h + [e], id), t) == OnTrack(Expected(h, id), t) +
              if e.ReadBus? && Live(h, id) && e.ev.MediaEvent? && e.ev.media.trackId == t then Repeat(AsInput(e.ev), Subscribed(h, id, t)) else []
  {
    Extend(h, e, id);
    if e.ReadBus? && Live(h, id) {
      var more := Repeat(AsInput(e.ev), Registered(h, id, e.ev));
      OnTrackConcat(Expected(h, id), more, t);
      OnTrackRepeat(AsInput(e.ev), Registered(h, id, e.ev), t);
    } else {
      Nothing(Expected(h, id));
      Nothing(OnTrack(Expected(h, id), t));
    }
  }

  /** A task that never subscribed gets nothing on the track. */
  lemma {:induction false} BeforeSubscribing(h: seq<Event>, id: TaskId, t: TrackId)
    requires Subscribed(h, id, t) == 0
    ensures OnTrack(Expected(h, id), t) == []
  {
    if h == [] {
    } else {
      var init, e := h[..|h| - 1], h[|h| - 1];
      assert h == init + [e];
      TrackStep(init, e, id, t);
      BeforeSubscribing(init, id, t);
    }
  }

  /**
   * A task that subscribed once gets, on that track, the media its worker read in one stretch: from
   * the subscription on, and for as long as the task lives.
   */
  lemma {:induction false} Window(h: seq<Event>, id: TaskId, t: TrackId) returns (i: nat, j: nat)
    requires HistOk(h) && Subscribed(h, id, t) == 1
    ensures i <= j <= |Reads(h)| && (Live(h, id) ==> j == |Reads(h)|)
    ensures OnTrack(Expected(h, id), t) == MediaOn(Reads(h)[i..j], t)
  {
    if h == [] {
      assert false;
    } else {
      var init, e := h[..|h| - 1], h[|h| - 1];
      assert h == init + [e];
      TrackStep(init, e, id, t);
      Extend(init, e, id);
      if e == Took(id, SubscribeTrack(t)) {
        BeforeSubscribing(init, id, t);
        i, j := |Reads(h)|, |Reads(h)|;
      } else {
        i, j := Window(init, id, t);
        j := WindowStep(init, e, id, t, i, j);
      }
    }
  }

  lemma WindowStep(h: seq<Event>, e: Event, id: TaskId, t: TrackId, i: nat, j: nat) returns (j': nat)
    requires EventOk(h, e) && Subscribed(h, id, t) == 1 && e != Took(id, SubscribeTrack(t))
    requires i <= j <= |Reads(h)| && (Live(h, id) ==> j == |Reads(h)|) && OnTrack(Expected(h, id), t) == MediaOn(Reads(h)[i..j], t)
    ensures i <= j' <= |Reads(h + [e])| && (Live(h + [e], id) ==> j' == |Reads(h + [e])|)
    ensures OnTrack(Expected(h + [e], id), t) == MediaOn(Reads(h + [e])[i..j'], t)
  {
    TrackStep(h, e, id, t);
    ExtendLife(h, e, id, t);
    if e.ReadBus? && Live(h, id) {
      j' := j + 1;
      WindowMore(Reads(h), e.ev, t, i);
    } else {
      j' := j;
      Within(Reads(h), if e.ReadBus? then [e.ev] else [], i, j);
      Nothing(OnTrack(Expected(h, id), t));
      if !e.ReadBus? { Nothing(Reads(h)); }
    }
  }

  /** A task that subscribed before lives on exactly if it lived and is not removed. */
  lemma ExtendLife(h: seq<Event>, e: Event, id: TaskId, t: TrackId)
    requires EventOk(h, e) && Subscribed(h, id, t) > 0
    ensures Live(h + [e], id) <==> Live(h, id) && !(e.Removed? && e.id == id)
  {
    Extend(h, e, id);
  }

  lemma Nothing<T>(a: seq<T>)
    ensures a + [] == a
  {}

  lemma WindowMore(evs: seq<BusEvent>, ev: BusEvent, t: TrackId, i: nat)
    requires i <= |evs|
    ensures MediaOn((evs + [ev])[i..|evs| + 1], t) ==
              MediaOn(evs[i..|evs|], t) + if ev.MediaEvent? && ev.media.trackId == t then Repeat(AsInput(ev), 1) else []
  {
    assert (evs + [ev])[i..|evs| + 1] == evs[i..|evs|] + [ev];
    MediaOnAppend(evs[i..|evs|], ev, t);
    assert Repeat(AsInput(ev), 1) == [AsInput(ev)];
  }

  lemma Within<T>(a: seq<T>, b: seq<T>, i: nat, j: nat)
    requires i <= j <= |a|
    ensures (a + b)[i..j] == a[i..j]
  {}

  // ----- across workers -----

  /** On this track the stretch has only events of one task. */
  ghost predicate OnlyFrom(log: seq<Entry>, t: TrackId, v: nat, pid: TaskId) {
    forall i :: 0 <= i < |log| && log[i].ev.MediaEvent? && log[i].ev.media.trackId == t ==> log[i].worker == v && log[i].task == pid
  }

  lemma {:induction false} SoleSource(log: seq<Entry>, t: TrackId, v: nat, pid: TaskId)
    requires OnlyFrom(log, t, v, pid)
    ensures MediaOn(Events(log), t) == MediaOn(LogOf(log, v, pid), t)
  {
    if log == [] {
    } else {
      var init, e := log[..|log| - 1], log[|log| - 1];
      SoleSource(init, t, v, pid);
      assert Events(log) == Events(init) + [e.ev];
      MediaOnAppend(Events(init), e.ev, t);
      if e.worker == v && e.task == pid {
        MediaOnAppend(LogOf(init, v, pid), e.ev, t);
      } else {
        assert LogOf(log, v, pid) == LogOf(init, v, pid);
      }
    }
  }

  /** What a task put on any stretch of the log is a gap-free stretch of the translation of what its engine gave up. */
  lemma PublisherStretch(s: System, v: nat, pid: TaskId, a: nat, b: nat) returns (before: seq<BusEvent>, after: seq<BusEvent>)
    requires SystemOk(s) && v < |s.nodes| && pid < s.nodes[v].tables.seed && a <= b <= |s.log|
    ensures var h := s.nodes[v].hist;
            && Born(h, pid).Some?
            && before + LogOf(s.log[a..b], v, pid) + after
               == Collect(ToBus, Born(h, pid).value.outputs + FlatMap(TranslatorOf(Born(h, pid).value), PolledBy(h, pid)))
  {
    var h := s.nodes[v].hist;
    assert TaskTold(h, pid);
    var whole := Born(h, pid).value.outputs + FlatMap(TranslatorOf(Born(h, pid).value), PolledBy(h, pid));
    var rest := whole[|Taken(h, pid)|..];
    assert whole == Taken(h, pid) + rest;
    CollectConcat(ToBus, Taken(h, pid), rest);
    LogThree(s.log, v, pid, a, b);
    before := LogOf(s.log[..a], v, pid);
    after := LogOf(s.log[b..], v, pid) + Collect(ToBus, rest);
    Joined(before, LogOf(s.log[a..b], v, pid), LogOf(s.log[b..], v, pid), Collect(ToBus, rest));
  }

  lemma Joined<T>(a: seq<T>, b: seq<T>, c: seq<T>, d: seq<T>)
    ensures a + b + (c + d) == a + b + c + d
  {}

  lemma LogThree(log: seq<Entry>, v: nat, pid: TaskId, a: nat, b: nat)
    requires a <= b <= |log|
    ensures LogOf(log, v, pid) == LogOf(log[..a], v, pid) + LogOf(log[a..b], v, pid) + LogOf(log[b..], v, pid)
  {
    assert log == log[..a] + log[a..b] + log[b..];
    LogOfMore(log[..a] + log[a..b], log[b..], v, pid);
    LogOfMore(log[..a], log[a..b], v, pid);
  }

  lemma {:induction false} LogOfMore(a: seq<Entry>, b: seq<Entry>, v: nat, pid: TaskId)
    ensures LogOf(a + b, v, pid) == LogOf(a, v, pid) + LogOf(b, v, pid)
    decreases |b|
  {
    if b == [] {
      assert a + b == a;
    } else {
      assert (a + b)[..|a + b| - 1] == a + b[..|b| - 1];
      LogOfMore(a, b[..|b| - 1], v, pid);
    }
  }

  /**
   * From engine to viewer: what a viewer that subscribed once is given on the track is the media on
   * one stretch of the log, in log order; what any publisher, on whatever worker, contributed to the
   * stretch is a gap-free stretch of the translation of what its engine gave up; and if it alone
   * contributed on the track, that is what the viewer is given.
   */
  lemma ViewerGetsStretch(moves: seq<Move>, w: nat, id: TaskId, t: TrackId, v: nat, pid: TaskId)
    returns (a: nat, b: nat, before: seq<BusEvent>, after: seq<BusEvent>)
    requires Run(moves).Some? && w < |Run(moves).value.nodes| && v < |Run(moves).value.nodes|
    requires pid < Run(moves).value.nodes[v].tables.seed && Subscribed(Run(moves).value.nodes[w].hist, id, t) == 1
    ensures var s := Run(moves).value; var n := s.nodes[w]; var h := s.nodes[v].hist;
            && n.start <= a <= b <= n.cursor <= |s.log| && (id in n.tables.tasks ==> b == n.cursor)
            && OnTrack(InputsTo(n.inputs, id), t) == MediaOn(Events(s.log[a..b]), t)
            && Born(h, pid).Some?
            && before + LogOf(s.log[a..b], v, pid) + after
               == Collect(ToBus, Born(h, pid).value.outputs + FlatMap(TranslatorOf(Born(h, pid).value), PolledBy(h, pid)))
            && (OnlyFrom(s.log[a..b], t, v, pid) ==> OnTrack(InputsTo(n.inputs, id), t) == MediaOn(LogOf(s.log[a..b], v, pid), t))
  {
    RunKeeps(moves);
    RunHist(moves);
    var s := Run(moves).value;
    SystemTold(s, w, id);
    a, b := ViewerWindow(s.nodes[w], s.log, id, t);
    before, after := PublisherStretch(s, v, pid, a, b);
    if OnlyFrom(s.log[a..b], t, v, pid) { SoleSource(s.log[a..b], t, v, pid); }
  }

  /** What the invariant says of one worker and one task. */
  ghost predicate NodeTold(n: Node, log: seq<Entry>, id: TaskId) {
    && n.start <= n.cursor <= |log| && Reads(n.hist) == Events(log)[n.start..n.cursor]
    && InputsTo(n.inputs, id) == Expected(n.hist, id)
    && (Live(n.hist, id) <==> id in n.tables.tasks)
  }

  lemma SystemTold(s: System, w: nat, id: TaskId)
    requires SystemOk(s) && w < |s.nodes|
    ensures NodeTold(s.nodes[w], s.log, id)
  {
    assert NodeOk(s.nodes[w]);
  }

  lemma ViewerWindow(n: Node, log: seq<Entry>, id: TaskId, t: TrackId) returns (a: nat, b: nat)
    requires NodeTold(n, log, id) && HistOk(n.hist) && Subscribed(n.hist, id, t) == 1
    ensures n.start <= a <= b <= n.cursor <= |log| && (id in n.tables.tasks ==> b == n.cursor)
    ensures OnTrack(InputsTo(n.inputs, id), t) == MediaOn(Events(log[a..b]), t)
  {
    var i, j := Window(n.hist, id, t);
    a, b := n.start + i, n.start + j;
    EventsBetween(log, n.start, n.cursor, i, j);
  }

  lemma EventsBetween(log: seq<Entry>, start: nat, end: nat, i: nat, j: nat)
    requires start <= end <= |log| && i <= j <= end - start
    ensures Events(log)[start..end][i..j] == Events(log[start + i..start + j])
  {
    var x, y := Events(log)[start..end][i..j], Events(log[start + i..start + j]);
    forall k | 0 <= k < |x| ensures x[k] == y[k] {
      assert x[k] == Events(log)[start + i + k] && log[start + i..start + j][k] == log[start + i + k];
    }
  }

  // ----- joining -----

  /** Worker `w` joined with this move, when the log was `start` long. */
  ghost predicate JoinedAt(moves: seq<Move>, i: nat, w: nat, start: nat)
    requires i < |moves|
  {
    moves[i].Join? && Run(moves[..i]).Some? && |Run(moves[..i]).value.nodes| == w && |Run(moves[..i]).value.log| == start
  }

  /** A worker reads from where the log was when it joined: nothing older, and everything since. */
  lemma {:induction false} JoinsLate(moves: seq<Move>, w: nat)
    requires Run(moves).Some? && w < |Run(moves).value.nodes|
    ensures exists i :: 0 <= i < |moves| && JoinedAt(moves, i, w, Run(moves).value.nodes[w].start)
  {
    if moves == [] {
    } else {
      var n := |moves| - 1;
      var init := moves[..n];
      if moves[n].Join? && w == |Run(init).value.nodes| {
        assert JoinedAt(moves, n, w, Run(moves).value.nodes[w].start);
      } else {
        JoinsLate(init, w);
        StartStays(Run(init).value, moves[n], w);
        var i :| 0 <= i < n && JoinedAt(init, i, w, Run(init).value.nodes[w].start);
        assert init[..i] == moves[..i];
        assert JoinedAt(moves, i, w, Run(moves).value.nodes[w].start);
      }
    }
  }

  lemma StartStays(s: System, m: Move, w: nat)
    requires Next(s, m).Some? && w < |s.nodes|
    ensures w < |Next(s, m).value.nodes| && Next(s, m).value.nodes[w].start == s.nodes[w].start
  {}

  // ----- tracks -----

  /** The two tracks of a task, once for each time its engine connects. */
  function TracksOf(os: seq<EngineOutput>, audio: TrackId, video: TrackId): seq<TrackId> {
    if os == [] then []
    else TracksOf(os[..|os| - 1], audio, video) + if os[|os| - 1].Connected? then [audio, video] else []
  }

  /** What the actions for one engine output announce. */
  lemma AnnouncedOne(role: Role, audio: TrackId, video: TrackId, o: EngineOutput)
    ensures var outs := Translate(role, audio, video, o);
            && Collect(PubTrack, outs) == (if role == Whip && o.Connected? then [audio, video] else [])
            && Collect(SubTrack, outs) == (if role == Whep && o.Connected? then [audio, video] else [])
  {
    if o.Connected? {
      CollectTwo(PubTrack, PublishTrack(audio), PublishTrack(video));
      CollectTwo(SubTrack, PublishTrack(audio), PublishTrack(video));
      CollectTwo(PubTrack, SubscribeTrack(audio), SubscribeTrack(video));
      CollectTwo(SubTrack, SubscribeTrack(audio), SubscribeTrack(video));
    } else {
      SilentOne(role, audio, video, o);
    }
  }

  lemma SilentOne(role: Role, audio: TrackId, video: TrackId, o: EngineOutput)
    requires !o.Connected?
    ensures Collect(PubTrack, Translate(role, audio, video, o)) == [] && Collect(SubTrack, Translate(role, audio, video, o)) == []
  {
    var outs := Translate(role, audio, video, o);
    if |outs| == 1 {
      assert outs == [outs[0]];
      CollectTwo(PubTrack, outs[0], outs[0]);
      CollectTwo(SubTrack, outs[0], outs[0]);
    }
  }

  /**
   * A publisher announces both its tracks and a viewer asks for both of its own, each time its engine
   * connects, and neither does anything of the other's kind.
   */
  lemma {:induction false} Announces(role: Role, audio: TrackId, video: TrackId, os: seq<EngineOutput>)
    ensures var outs := FlatMap(Translator(role, audio, video), os);
            && Collect(PubTrack, outs) == (if role == Whip then TracksOf(os, audio, video) else [])
            && Collect(SubTrack, outs) == (if role == Whep then TracksOf(os, audio, video) else [])
  {
    if os == [] {
    } else {
      var init, o := os[..|os| - 1], os[|os| - 1];
      Announces(role, audio, video, init);
      AnnouncedOne(role, audio, video, o);
      CollectConcat(PubTrack, FlatMap(Translator(role, audio, video), init), Translate(role, audio, video, o));
      CollectConcat(SubTrack, FlatMap(Translator(role, audio, video), init), Translate(role, audio, video, o));
    }
  }

  // ----- from engine to viewer -----

  /** The media on one track among the outputs of a publisher's engine, as a viewer is given it. */
  function RtpOn(os: seq<EngineOutput>, audio: TrackId, video: TrackId, t: TrackId): seq<TaskInput> {
    if os == [] then []
    else
      var o := os[|os| - 1];
      RtpOn(os[..|os| - 1], audio, video, t) +
      if o.Rtp? && t == (if o.payloadType == 111 then audio else video)
      then [MediaInput(TrackMedia(t, o.payloadType, o.seqNo, o.payload))]
      else []
  }

  lemma {:induction false} MediaOnConcat(a: seq<BusEvent>, b: seq<BusEvent>, t: TrackId)
    ensures MediaOn(a + b, t) == MediaOn(a, t) + MediaOn(b, t)
    decreases |b|
  {
    if b == [] {
      assert a + b == a;
    } else {
      assert (a + b)[..|a + b| - 1] == a + b[..|b| - 1];
      MediaOnConcat(a, b[..|b| - 1], t);
    }
  }

  /** What one engine output of a publisher puts on the bus is the packet it carries, if any. */
  lemma BusOfOne(audio: TrackId, video: TrackId, o: EngineOutput)
    ensures Collect(ToBus, Translate(Whip, audio, video, o)) ==
              if o.Rtp? then [MediaEvent(TrackMedia(if o.payloadType == 111 then audio else video, o.payloadType, o.seqNo, o.payload))] else []
  {
    var outs := Translate(Whip, audio, video, o);
    if outs != [] { CollectTwo(ToBus, outs[0], outs[|outs| - 1]); }
    assert |outs| == 1 ==> outs == [outs[0]];
    assert |outs| == 2 ==> outs == [outs[0], outs[1]];
  }

  /** The media a publisher puts on a track is its engine's, packet for packet. */
  lemma {:induction false} MediaIsRtp(audio: TrackId, video: TrackId, os: seq<EngineOutput>, t: TrackId)
    ensures MediaOn(Collect(ToBus, FlatMap(Translator(Whip, audio, video), os)), t) == RtpOn(os, audio, video, t)
  {
    if os == [] {
    } else {
      var init, o := os[..|os| - 1], os[|os| - 1];
      MediaIsRtp(audio, video, init, t);
      BusOfOne(audio, video, o);
      CollectConcat(ToBus, FlatMap(Translator(Whip, audio, video), init), Translate(Whip, audio, video, o));
      var sofar := Collect(ToBus, FlatMap(Translator(Whip, audio, video), init));
      if o.Rtp? {
        MediaOnAppend(sofar, MediaEvent(TrackMedia(if o.payloadType == 111 then audio else video, o.payloadType, o.seqNo, o.payload)), t);
      } else {
        Nothing(sofar);
      }
    }
  }

  /** The keyframe requests among the outputs of a viewer's engine, as they go to the bus. */
  function KeyframesOf(os: seq<EngineOutput>, video: TrackId): seq<BusEvent> {
    if os == [] then []
    else
      var o := os[|os| - 1];
      KeyframesOf(os[..|os| - 1], video) + if o.KeyframeRequest? then [KeyframeEvent(video, o.keyframe)] else []
  }

  /** A viewer puts nothing on the bus but the keyframe requests of its engine, each for its video track. */
  lemma {:induction false} ViewerAsks(audio: TrackId, video: TrackId, os: seq<EngineOutput>)
    ensures Collect(ToBus, FlatMap(Translator(Whep, audio, video), os)) == KeyframesOf(os, video)
  {
    if os == [] {
    } else {
      var init, o := os[..|os| - 1], os[|os| - 1];
      ViewerAsks(audio, video, init);
      BusOfViewer(audio, video, o);
      CollectConcat(ToBus, FlatMap(Translator(Whep, audio, video), init), Translate(Whep, audio, video, o));
    }
  }

  lemma BusOfViewer(audio: TrackId, video: TrackId, o: EngineOutput)
    ensures Collect(ToBus, Translate(Whep, audio, video, o)) == if o.KeyframeRequest? then [KeyframeEvent(video, o.keyframe)] else []
  {
    var outs := Translate(Whep, audio, video, o);
    if outs != [] { CollectTwo(ToBus, outs[0], outs[|outs| - 1]); }
    assert |outs| == 1 ==> outs == [outs[0]];
    assert |outs| == 2 ==> outs == [outs[0], outs[1]];
  }

  lemma {:induction false} BornReplies(h: seq<Event>, id: TaskId)
    requires HistOk(h) && Born(h, id).Some?
    ensures |Born(h, id).value.outputs| == 1 && Born(h, id).value.outputs[0].HttpReply?
  {
    if h[|h| - 1].Created? && h[|h| - 1].id == id {
    } else {
      BornReplies(h[..|h| - 1], id);
    }
  }

  /** What a publisher's task ever puts on a track is the media of its engine's outputs. */
  lemma BornMedia(h: seq<Event>, id: TaskId, os: seq<EngineOutput>, t: TrackId)
    requires HistOk(h) && Born(h, id).Some? && Born(h, id).value.role == Whip
    ensures var born := Born(h, id).value;
            MediaOn(Collect(ToBus, born.outputs + FlatMap(TranslatorOf(born), os)), t) == RtpOn(os, born.audioTrack, born.videoTrack, t)
  {
    var born := Born(h, id).value;
    BornReplies(h, id);
    MediaIsRtp(born.audioTrack, born.videoTrack, os, t);
    CollectAppend(ToBus, [], born.outputs[0]);
    assert [] + [born.outputs[0]] == born.outputs;
    CollectConcat(ToBus, born.outputs, FlatMap(TranslatorOf(born), os));
    var more := Collect(ToBus, FlatMap(TranslatorOf(born), os));
    assert Collect(ToBus, born.outputs) == [] && [] + more == more;
  }

  lemma OnlyFromPart(log: seq<Entry>, t: TrackId, v: nat, pid: TaskId, a: nat, b: nat)
    requires OnlyFrom(log, t, v, pid) && a <= b <= |log|
    ensures OnlyFrom(log[a..b], t, v, pid)
  {
    forall i | 0 <= i < b - a && log[a..b][i].ev.MediaEvent? && log[a..b][i].ev.media.trackId == t
      ensures log[a..b][i].worker == v && log[a..b][i].task == pid
    {
      assert log[a..b][i] == log[a + i];
    }
  }

  /**
   * From the publisher's engine to the viewer's task, whatever the workers do in between: the media
   * a viewer that subscribed once is given on a track with one publisher is one gap-free stretch of
   * the packets the publisher's engine put out for that track, with payload type, sequence number
   * and payload unchanged, in order, none twice.
   */
  lemma EngineToViewer(moves: seq<Move>, w: nat, id: TaskId, t: TrackId, v: nat, pid: TaskId) returns (before: seq<TaskInput>, after: seq<TaskInput>)
    requires Run(moves).Some? && w < |Run(moves).value.nodes| && v < |Run(moves).value.nodes|
    requires pid < Run(moves).value.nodes[v].tables.seed && Subscribed(Run(moves).value.nodes[w].hist, id, t) == 1
    requires OnlyFrom(Run(moves).value.log, t, v, pid)
    ensures var s := Run(moves).value; var born := Born(s.nodes[v].hist, pid);
            && born.Some?
            && (born.value.role == Whip ==>
                  before + OnTrack(InputsTo(s.nodes[w].inputs, id), t) + after
                  == RtpOn(PolledBy(s.nodes[v].hist, pid), born.value.audioTrack, born.value.videoTrack, t))
  {
    var s := Run(moves).value;
    var a, b, front, back := ViewerGetsStretch(moves, w, id, t, v, pid);
    OnlyFromPart(s.log, t, v, pid, a, b);
    RunHist(moves);
    before, after := MediaOn(front, t), MediaOn(back, t);
    var share := LogOf(s.log[a..b], v, pid);
    MediaOnConcat(front + share, back, t);
    MediaOnConcat(front, share, t);
    if Born(s.nodes[v].hist, pid).value.role == Whip {
      BornMedia(s.nodes[v].hist, pid, PolledBy(s.nodes[v].hist, pid), t);
    }
  }
}
