/**
 * The trickle-ICE buffer of the WHIP client: candidates gather until a timer takes all of them, and
 * each batch becomes one fragment. One step is one uninterrupted piece of the event loop.
 */
module Trickle {
  import opened Seqs

  /** A media id; JavaScript lists object keys that are array indices first, in numeric order. */
  datatype Mid = Index(n: nat) | Name(s: string)

  datatype Candidate = Candidate(lineIndex: int, mid: Mid, text: string)

  /** What one run of `trickle` took, and whether there was a connection then. */
  datatype Snapshot = Snapshot(candidates: seq<Candidate>, endOfCandidates: bool, restartIce: bool, connected: bool)

  /** The client's fields; `scheduled`, `stored` and `batches` are history. */
  datatype State = State(
    connected: bool, hasResource: bool, candidates: seq<Candidate>, endOfCandidates: bool, restartIce: bool,
    timer: bool, scheduled: bool, stored: seq<Candidate>, batches: seq<Snapshot>)

  datatype Step =
    | Publish                          // `publish` up to its first wait; throws when already publishing
    | Located                          // the answer came with a location
    | Schedule                         // `publish` schedules its trickle
    | IceEvent(c: Option<Candidate>)   // a candidate, or the end of them
    | Restart
    | Fire                             // the timer runs `trickle` up to its first wait
    | Stop

  const INITIAL := State(false, false, [], false, false, false, false, [], [])

  predicate Pending(s: State) {
    s.candidates != [] || s.endOfCandidates || s.restartIce
  }

  predicate Enabled(s: State, step: Step) {
    match step
    case Schedule => s.hasResource
    case Fire => s.timer
    case _ => true
  }

  function Gather(s: State, c: Option<Candidate>): State {
    match c
    case None => s.(endOfCandidates := true, timer := true)
    case Some(candidate) =>
      if candidate.lineIndex > 0 then s
      else s.(candidates := s.candidates + [candidate], timer := true, stored := s.stored + [candidate])
  }

  function TakeBatch(s: State): (Option<Snapshot>, State) {
    var t := s.(timer := false);
    if !Pending(s) || !s.hasResource then (None, t)
    else
      var batch := Snapshot(s.candidates, s.endOfCandidates, s.restartIce, s.connected);
      (Some(batch), t.(candidates := [], endOfCandidates := false, restartIce := false, batches := s.batches + [batch]))
  }

  function Next(s: State, step: Step): State {
    match step
    case Publish => s.(connected := true)
    case Located => s.(hasResource := true)
    case Schedule => s.(timer := true, scheduled := true)
    case IceEvent(c) => Gather(s, c)
    case Restart => s.(restartIce := true, timer := true)
    case Fire => TakeBatch(s).1
    case Stop => if !s.connected then s else s.(timer := false, connected := false, scheduled := false)
  }

  function Run(steps: seq<Step>): Option<State> {
    if steps == [] then Some(INITIAL)
    else match Run(steps[..|steps| - 1])
      case None => None
      case Some(s) => if Enabled(s, steps[|steps| - 1]) then Some(Next(s, steps[|steps| - 1])) else None
  }

  function CandidatesOf(b: Snapshot): seq<Candidate> {
    b.candidates
  }

  ghost predicate Inv(s: State) {
    && s.stored == FlatMap(CandidatesOf, s.batches) + s.candidates
    && (s.scheduled ==> s.hasResource)
    && (s.scheduled && Pending(s) ==> s.timer)
    && (forall i :: 0 <= i < |s.stored| ==> s.stored[i].lineIndex <= 0)
  }

  lemma StepKeeps(s: State, step: Step)
    requires Inv(s) && Enabled(s, step)
    ensures Inv(Next(s, step))
  {
    match step
    case IceEvent(c) => GatherKeeps(s, c);
    case Fire => FireKeeps(s);
    case _ =>
  }

  lemma GatherKeeps(s: State, c: Option<Candidate>)
    requires Inv(s)
    ensures Inv(Gather(s, c))
  {
    if c.Some? {
      assert FlatMap(CandidatesOf, s.batches) + (s.candidates + [c.value]) == FlatMap(CandidatesOf, s.batches) + s.candidates + [c.value];
    }
  }

  lemma FireKeeps(s: State)
    requires Inv(s)
    ensures Inv(TakeBatch(s).1)
  {
    var t := TakeBatch(s).1;
    if t.batches != s.batches {
      assert t.batches[..|s.batches|] == s.batches;
    }
  }

  lemma {:induction false} RunKeeps(steps: seq<Step>)
    ensures Run(steps).Some? ==> Inv(Run(steps).value)
  {
    if steps == [] || Run(steps).None? {
    } else {
      RunKeeps(steps[..|steps| - 1]);
      StepKeeps(Run(steps[..|steps| - 1]).value, steps[|steps| - 1]);
    }
  }

  /**
   * No candidate is lost or sent twice: in every interleaving the candidates stored so far are the
   * batches taken, in order, followed by those still pending.
   */
  lemma BatchesAndPending(steps: seq<Step>)
    requires Run(steps).Some?
    ensures var s := Run(steps).value; s.stored == FlatMap(CandidatesOf, s.batches) + s.candidates
  {
    RunKeeps(steps);
  }

  /** Once `publish` has scheduled its trickle and until `stop`, pending data has an armed timer, and the timer takes all of it. */
  lemma PendingIsArmed(steps: seq<Step>)
    requires Run(steps).Some? && Run(steps).value.scheduled && Pending(Run(steps).value)
    ensures var s := Run(steps).value;
            && s.timer
            && TakeBatch(s).0 == Some(Snapshot(s.candidates, s.endOfCandidates, s.restartIce, s.connected))
            && !Pending(TakeBatch(s).1)
  {
    RunKeeps(steps);
  }

  /** Before that a trickle without a resource drops its timer and leaves what waits, say a restart. */
  lemma UnarmedBeforeSchedule()
    ensures var run := Run([Publish, Restart, Fire]);
            run.Some? && Pending(run.value) && !run.value.timer && !run.value.scheduled
  {
    var steps := [Publish, Restart, Fire];
    assert steps[..2] == [Publish, Restart] && steps[..2][..1] == [Publish] && [Publish][..0] == [];
    assert Run([Publish]) == Some(Next(INITIAL, Publish));
    assert Run(steps[..2]) == Some(Next(Next(INITIAL, Publish), Restart));
  }

  /** Pending data has an armed timer. */
  predicate Armed(s: State) {
    Pending(s) ==> s.timer
  }

  /** The steps that take the timer away from pending data: a trickle without a resource, and a stop. */
  predicate Disarms(s: State, step: Step) {
    Pending(s) && ((step.Fire? && !s.hasResource) || (step.Stop? && s.connected))
  }

  /** The steps that arm the timer whatever the state. */
  predicate Arms(step: Step) {
    match step
    case Schedule => true
    case Restart => true
    case IceEvent(c) => c.None? || c.value.lineIndex <= 0
    case _ => false
  }

  /** From an armed state exactly two steps leave pending data without a timer. */
  lemma ArmedStep(s: State, step: Step)
    requires Enabled(s, step) && Armed(s)
    ensures Armed(Next(s, step)) <==> !Disarms(s, step)
  {}

  /** Data left without a timer stays so until the next step that arms. */
  lemma UnarmedStep(s: State, step: Step)
    requires Enabled(s, step) && !Armed(s)
    ensures Armed(Next(s, step)) <==> Arms(step)
  {}

  /** Step `i` of the run disarms, and no later step arms. */
  ghost predicate DisarmedAt(steps: seq<Step>, i: nat)
    requires i < |steps|
  {
    && Run(steps[..i]).Some? && Disarms(Run(steps[..i]).value, steps[i])
    && (forall j :: i < j < |steps| ==> !Arms(steps[j]))
  }

  /**
   * In every run pending data is without a timer exactly when a trickle without a resource or a
   * stop disarmed it and nothing armed the timer again since.
   */
  lemma {:induction false} UnarmedExactly(steps: seq<Step>)
    requires Run(steps).Some?
    ensures !Armed(Run(steps).value) <==> exists i :: 0 <= i < |steps| && DisarmedAt(steps, i)
  {
    if steps == [] {
    } else {
      var init, last := steps[..|steps| - 1], steps[|steps| - 1];
      UnarmedExactly(init);
      DisarmedSomewhere(steps);
      DisarmsUnarmed(Run(init).value, last);
    }
  }

  lemma DisarmedSomewhere(steps: seq<Step>)
    requires steps != [] && Run(steps).Some?
    ensures var init, last := steps[..|steps| - 1], steps[|steps| - 1];
            && Run(init).Some?
            && ((exists i :: 0 <= i < |steps| && DisarmedAt(steps, i)) <==>
                Disarms(Run(init).value, last) || ((exists i :: 0 <= i < |init| && DisarmedAt(init, i)) && !Arms(last)))
  {
    var init, last := steps[..|steps| - 1], steps[|steps| - 1];
    forall i | 0 <= i < |init| ensures DisarmedAt(steps, i) <==> DisarmedAt(init, i) && !Arms(last) {
      DisarmedSplit(steps, i);
    }
    assert DisarmedAt(steps, |init|) <==> Disarms(Run(init).value, last);
  }

  lemma DisarmedSplit(steps: seq<Step>, i: nat)
    requires i < |steps| - 1
    ensures DisarmedAt(steps, i) <==> DisarmedAt(steps[..|steps| - 1], i) && !Arms(steps[|steps| - 1])
  {
    var init := steps[..|steps| - 1];
    assert init[..i] == steps[..i] && init[i] == steps[i];
    assert forall j :: i < j < |init| ==> init[j] == steps[j];
  }

  lemma DisarmsUnarmed(s: State, step: Step)
    requires Enabled(s, step)
    ensures !Armed(Next(s, step)) <==> Disarms(s, step) || (!Armed(s) && !Arms(step))
  {}

  // ----- from a batch to a fragment -----

  datatype Transceiver = Transceiver(mid: Mid, kind: string)

  datatype Media = Media(mid: Mid, kind: string, candidates: seq<Candidate>)

  function FindMedia(ms: seq<Media>, mid: Mid): (r: Option<nat>)
    ensures r.Some? ==> r.value < |ms| && ms[r.value].mid == mid
    ensures r.None? ==> forall i :: 0 <= i < |ms| ==> ms[i].mid != mid
  {
    if ms == [] then None
    else if ms[|ms| - 1].mid == mid then Some(|ms| - 1)
    else FindMedia(ms[..|ms| - 1], mid)
  }

  /** The first transceiver with this media id. */
  function FindKind(ts: seq<Transceiver>, mid: Mid): Option<string> {
    if ts == [] then None else if ts[0].mid == mid then Some(ts[0].kind) else FindKind(ts[1..], mid)
  }

  /** The kind found is that of the first transceiver with the media id, at `i`; there is none exactly if `i` is past the end. */
  lemma {:induction false} FirstKind(ts: seq<Transceiver>, mid: Mid) returns (i: nat)
    ensures i <= |ts| && forall j :: 0 <= j < i ==> ts[j].mid != mid
    ensures FindKind(ts, mid) == if i < |ts| then Some(ts[i].kind) else None
    ensures i < |ts| ==> ts[i].mid == mid
  {
    if ts == [] || ts[0].mid == mid {
      i := 0;
    } else {
      i := FirstKind(ts[1..], mid);
      i := i + 1;
      assert forall j :: 0 < j < |ts| ==> ts[j] == ts[1..][j - 1];
    }
  }

  /** One turn of the grouping loop; `None` is the exception for a media id without a transceiver. */
  function AddCandidate(ms: seq<Media>, c: Candidate, ts: seq<Transceiver>): Option<seq<Media>> {
    var i := FindMedia(ms, c.mid);
    if i.Some? then Some(ms[i.value := ms[i.value].(candidates := ms[i.value].candidates + [c])])
    else
      match FindKind(ts, c.mid)
      case None => None
      case Some(kind) => Some(ms + [Media(c.mid, kind, [c])])
  }

  /** The first media is always there unless the batch is only a restart. */
  function FirstMedia(ts: seq<Transceiver>): Option<seq<Media>> {
    if ts == [] then None else Some([Media(ts[0].mid, ts[0].kind, [])])
  }

  function Group(cs: seq<Candidate>, ended: bool, ts: seq<Transceiver>): Option<seq<Media>> {
    if cs == [] && !ended then Some([])
    else match FirstMedia(ts)
      case None => None
      case Some(ms) => GroupFrom(ms, cs, ts)
  }

  function GroupFrom(ms: seq<Media>, cs: seq<Candidate>, ts: seq<Transceiver>): Option<seq<Media>> {
    if cs == [] then Some(ms)
    else match GroupFrom(ms, cs[..|cs| - 1], ts)
      case None => None
      case Some(m) => AddCandidate(m, cs[|cs| - 1], ts)
  }

  function OfMid(cs: seq<Candidate>, mid: Mid): seq<Candidate> {
    if cs == [] then []
    else OfMid(cs[..|cs| - 1], mid) + if cs[|cs| - 1].mid == mid then [cs[|cs| - 1]] else []
  }

  lemma {:induction false} OfMidAppend(a: seq<Candidate>, b: seq<Candidate>, mid: Mid)
    ensures OfMid(a + b, mid) == OfMid(a, mid) + OfMid(b, mid)
  {
    if b == [] {
      assert a + b == a;
    } else {
      OfMidAppend(a, b[..|b| - 1], mid);
      assert (a + b)[..|a + b| - 1] == a + b[..|b| - 1];
    }
  }

  ghost predicate DistinctMids(ms: seq<Media>) {
    forall i, j :: 0 <= i < j < |ms| ==> ms[i].mid != ms[j].mid
  }

  ghost predicate HasMid(ms: seq<Media>, mid: Mid) {
    exists i :: 0 <= i < |ms| && ms[i].mid == mid
  }

  ghost predicate GroupOk(m: Media, cs: seq<Candidate>, ts: seq<Transceiver>) {
    m.candidates == OfMid(cs, m.mid) && FindKind(ts, m.mid) == Some(m.kind)
  }

  /** Each group has the candidates of its media id in batch order, and every candidate has exactly one group. */
  ghost predicate Grouped(ms: seq<Media>, cs: seq<Candidate>, ts: seq<Transceiver>) {
    && DistinctMids(ms)
    && (forall i :: 0 <= i < |ms| ==> GroupOk(ms[i], cs, ts))
    && (forall k :: 0 <= k < |cs| ==> HasMid(ms, cs[k].mid))
    && (forall i :: 0 < i < |ms| ==> ms[i].candidates != [])
  }

  lemma {:induction false} OfMidNone(cs: seq<Candidate>, mid: Mid)
    requires forall k :: 0 <= k < |cs| ==> cs[k].mid != mid
    ensures OfMid(cs, mid) == []
  {
    if cs == [] {
    } else {
      OfMidNone(cs[..|cs| - 1], mid);
    }
  }

  lemma OfMidOne(cs: seq<Candidate>, c: Candidate, mid: Mid)
    ensures OfMid(cs + [c], mid) == OfMid(cs, mid) + if c.mid == mid then [c] else []
  {
    assert (cs + [c])[..|cs|] == cs;
  }

  lemma ExtendGrouped(ms: seq<Media>, cs: seq<Candidate>, c: Candidate, ts: seq<Transceiver>, n: nat)
    requires Grouped(ms, cs, ts) && n < |ms| && ms[n].mid == c.mid
    ensures Grouped(ms[n := ms[n].(candidates := ms[n].candidates + [c])], cs + [c], ts)
  {
    var m := ms[n := ms[n].(candidates := ms[n].candidates + [c])];
    forall i | 0 <= i < |m| ensures GroupOk(m[i], cs + [c], ts) {
      ExtendOk(ms, cs, c, ts, n, i);
    }
    SameMids(ms, m, cs, c, n);
  }

  lemma ExtendOk(ms: seq<Media>, cs: seq<Candidate>, c: Candidate, ts: seq<Transceiver>, n: nat, i: nat)
    requires Grouped(ms, cs, ts) && n < |ms| && ms[n].mid == c.mid && i < |ms|
    ensures GroupOk(ms[n := ms[n].(candidates := ms[n].candidates + [c])][i], cs + [c], ts)
  {
    assert GroupOk(ms[i], cs, ts);
    OfMidOne(cs, c, ms[i].mid);
    if i != n {
      assert ms[i].mid != ms[n].mid;
      assert ms[i].candidates + [] == ms[i].candidates;
    }
  }

  lemma SameMids(ms: seq<Media>, m: seq<Media>, cs: seq<Candidate>, c: Candidate, n: nat)
    requires |m| == |ms| && n < |ms| && ms[n].mid == c.mid && forall i :: 0 <= i < |ms| ==> m[i].mid == ms[i].mid
    requires forall k :: 0 <= k < |cs| ==> HasMid(ms, cs[k].mid)
    ensures forall k :: 0 <= k < |cs + [c]| ==> HasMid(m, (cs + [c])[k].mid)
  {
    forall k | 0 <= k < |cs + [c]| ensures HasMid(m, (cs + [c])[k].mid) {
      assert HasMid(ms, (cs + [c])[k].mid);
      KeepsMids(ms, m, (cs + [c])[k].mid);
    }
  }

  lemma KeepsMids(ms: seq<Media>, m: seq<Media>, mid: Mid)
    requires |ms| <= |m| && forall i :: 0 <= i < |ms| ==> m[i].mid == ms[i].mid
    ensures HasMid(ms, mid) ==> HasMid(m, mid)
  {
    if HasMid(ms, mid) {
      var i :| 0 <= i < |ms| && ms[i].mid == mid;
      assert m[i].mid == mid;
    }
  }

  lemma AppendGrouped(ms: seq<Media>, cs: seq<Candidate>, c: Candidate, ts: seq<Transceiver>, kind: string)
    requires Grouped(ms, cs, ts) && FindKind(ts, c.mid) == Some(kind)
    requires forall i :: 0 <= i < |ms| ==> ms[i].mid != c.mid
    ensures Grouped(ms + [Media(c.mid, kind, [c])], cs + [c], ts)
  {
    var m := ms + [Media(c.mid, kind, [c])];
    forall k | 0 <= k < |cs| ensures cs[k].mid != c.mid {
      assert HasMid(ms, cs[k].mid);
    }
    OfMidNone(cs, c.mid);
    forall i | 0 <= i < |m| ensures GroupOk(m[i], cs + [c], ts) {
      assert i < |ms| ==> GroupOk(ms[i], cs, ts);
      OfMidOne(cs, c, m[i].mid);
    }
    AppendMids(ms, cs, c, m[|ms|]);
  }

  lemma AppendMids(ms: seq<Media>, cs: seq<Candidate>, c: Candidate, last: Media)
    requires last.mid == c.mid && forall k :: 0 <= k < |cs| ==> HasMid(ms, cs[k].mid)
    ensures forall k :: 0 <= k < |cs + [c]| ==> HasMid(ms + [last], (cs + [c])[k].mid)
  {
    var m := ms + [last];
    assert m[|ms|].mid == c.mid;
    forall k | 0 <= k < |cs + [c]| ensures HasMid(m, (cs + [c])[k].mid) {
      if k < |cs| { KeepsMids(ms, m, cs[k].mid); }
    }
  }

  lemma AddGrouped(ms: seq<Media>, cs: seq<Candidate>, c: Candidate, ts: seq<Transceiver>)
    requires Grouped(ms, cs, ts) && AddCandidate(ms, c, ts).Some?
    ensures Grouped(AddCandidate(ms, c, ts).value, cs + [c], ts)
    ensures ms != [] ==> AddCandidate(ms, c, ts).value != [] && AddCandidate(ms, c, ts).value[0].mid == ms[0].mid
  {
    var n := FindMedia(ms, c.mid);
    if n.Some? { ExtendGrouped(ms, cs, c, ts, n.value); } else { AppendGrouped(ms, cs, c, ts, FindKind(ts, c.mid).value); }
  }

  lemma {:induction false} GroupFromGrouped(ts: seq<Transceiver>, cs: seq<Candidate>)
    requires ts != [] && GroupFrom(FirstMedia(ts).value, cs, ts).Some?
    ensures var ms := GroupFrom(FirstMedia(ts).value, cs, ts).value;
            Grouped(ms, cs, ts) && ms != [] && ms[0].mid == ts[0].mid
  {
    if cs == [] {
    } else {
      var init, last := cs[..|cs| - 1], cs[|cs| - 1];
      var ms := GroupFrom(FirstMedia(ts).value, init, ts).value;
      GroupFromGrouped(ts, init);
      AddGrouped(ms, init, last, ts);
      assert init + [last] == cs;
    }
  }

  lemma {:induction false} GroupFails(ms: seq<Media>, ts: seq<Transceiver>, cs: seq<Candidate>)
    requires forall i :: 0 <= i < |ms| ==> FindKind(ts, ms[i].mid).Some?
    ensures GroupFrom(ms, cs, ts).Some? <==> forall k :: 0 <= k < |cs| ==> FindKind(ts, cs[k].mid).Some?
    ensures GroupFrom(ms, cs, ts).Some? ==>
              forall i :: 0 <= i < |GroupFrom(ms, cs, ts).value| ==> FindKind(ts, GroupFrom(ms, cs, ts).value[i].mid).Some?
  {
    if cs == [] {
    } else {
      var init := cs[..|cs| - 1];
      GroupFails(ms, ts, init);
      if GroupFrom(ms, init, ts).Some? {
        var m := GroupFrom(ms, init, ts).value;
        var i := FindMedia(m, cs[|cs| - 1].mid);
        assert i.Some? ==> FindKind(ts, m[i.value].mid).Some?;
      }
    }
  }

  /**
   * Grouping: it fails exactly when there is something to group and a candidate's media id (or, with
   * no transceiver at all, the first media) is unknown; otherwise the groups are the candidates by
   * media id, the first media's group leading.
   */
  lemma Grouping(cs: seq<Candidate>, ended: bool, ts: seq<Transceiver>)
    ensures Group(cs, ended, ts).Some? <==>
              ((cs != [] || ended) ==> ts != [] && forall k :: 0 <= k < |cs| ==> FindKind(ts, cs[k].mid).Some?)
    ensures Group(cs, ended, ts).Some? ==>
              && Grouped(Group(cs, ended, ts).value, cs, ts)
              && (cs != [] || ended <==> Group(cs, ended, ts).value != [])
              && (Group(cs, ended, ts).value != [] ==> ts != [] && Group(cs, ended, ts).value[0].mid == ts[0].mid)
  {
    if (cs != [] || ended) && ts != [] {
      GroupFails(FirstMedia(ts).value, ts, cs);
      if GroupFrom(FirstMedia(ts).value, cs, ts).Some? { GroupFromGrouped(ts, cs); }
    }
  }

  // ----- the order of object keys -----

  predicate Before(a: Media, b: Media) {
    a.mid.Index? && (b.mid.Name? || a.mid.n < b.mid.n)
  }

  /** Where a new property goes among those already listed. */
  function Insert(ms: seq<Media>, m: Media): seq<Media> {
    if ms == [] then [m]
    else if Before(m, ms[|ms| - 1]) then Insert(ms[..|ms| - 1], m) + [ms[|ms| - 1]]
    else ms + [m]
  }

  /** `Object.values`: index keys ascending, then the others in insertion order. */
  function ObjectValues(ms: seq<Media>): seq<Media> {
    if ms == [] then [] else Insert(ObjectValues(ms[..|ms| - 1]), ms[|ms| - 1])
  }

  lemma {:induction false} InsertMembers(ms: seq<Media>, m: Media)
    ensures multiset(Insert(ms, m)) == multiset(ms) + multiset{m}
  {
    if ms == [] {
    } else {
      InsertMembers(ms[..|ms| - 1], m);
      assert ms == ms[..|ms| - 1] + [ms[|ms| - 1]];
    }
  }

  /** Listing reorders the groups and loses none. */
  lemma {:induction false} ValuesMembers(ms: seq<Media>)
    ensures multiset(ObjectValues(ms)) == multiset(ms)
  {
    if ms == [] {
    } else {
      ValuesMembers(ms[..|ms| - 1]);
      InsertMembers(ObjectValues(ms[..|ms| - 1]), ms[|ms| - 1]);
      assert ms == ms[..|ms| - 1] + [ms[|ms| - 1]];
    }
  }

  ghost predicate KeyOrdered(ms: seq<Media>) {
    forall i, j :: 0 <= i < j < |ms| && ms[j].mid.Index? ==> ms[i].mid.Index? && ms[i].mid.n <= ms[j].mid.n
  }

  lemma {:induction false} InsertOrdered(ms: seq<Media>, m: Media)
    requires KeyOrdered(ms)
    ensures KeyOrdered(Insert(ms, m))
  {
    if ms != [] && Before(m, ms[|ms| - 1]) {
      var init, last := ms[..|ms| - 1], ms[|ms| - 1];
      InsertOrdered(init, m);
      InsertMembers(init, m);
      var r := Insert(init, m);
      forall i | 0 <= i < |r| && last.mid.Index? ensures r[i].mid.Index? && r[i].mid.n <= last.mid.n {
        assert r[i] in multiset(r);
        if r[i] != m { assert r[i] in init; }
      }
    }
  }

  function WithNames(ms: seq<Media>): seq<Media> {
    if ms == [] then [] else WithNames(ms[..|ms| - 1]) + if ms[|ms| - 1].mid.Name? then [ms[|ms| - 1]] else []
  }

  lemma NamedAppend(ms: seq<Media>, m: Media)
    ensures WithNames(ms + [m]) == WithNames(ms) + if m.mid.Name? then [m] else []
  {
    assert (ms + [m])[..|ms|] == ms;
  }

  lemma {:induction false} InsertNamed(ms: seq<Media>, m: Media)
    ensures WithNames(Insert(ms, m)) == WithNames(ms) + if m.mid.Name? then [m] else []
  {
    if ms != [] && Before(m, ms[|ms| - 1]) {
      InsertNamed(ms[..|ms| - 1], m);
      NamedAppend(Insert(ms[..|ms| - 1], m), ms[|ms| - 1]);
    } else {
      NamedAppend(ms, m);
    }
  }

  /** No index key is listed after a larger one or after a name, and names keep the order they were added in. */
  lemma {:induction false} ValuesOrdered(ms: seq<Media>)
    ensures KeyOrdered(ObjectValues(ms)) && WithNames(ObjectValues(ms)) == WithNames(ms)
  {
    if ms == [] {
    } else {
      ValuesOrdered(ms[..|ms| - 1]);
      InsertNamed(ObjectValues(ms[..|ms| - 1]), ms[|ms| - 1]);
      InsertOrdered(ObjectValues(ms[..|ms| - 1]), ms[|ms| - 1]);
    }
  }

  // ----- lines -----

  datatype Line =
    | IceUfrag(s: string) | IcePwd(s: string)
    | MLine(kind: string) | MidLine(mid: Mid) | CandidateLine(c: Candidate) | EndLine

  function MediaLines(m: Media, ended: bool): seq<Line> {
    [MLine(m.kind), MidLine(m.mid)] + CandidateLines(m.candidates) + if ended then [EndLine] else []
  }

  function CandidateLines(cs: seq<Candidate>): seq<Line> {
    seq(|cs|, i requires 0 <= i < |cs| => CandidateLine(cs[i]))
  }

  function AllLines(ms: seq<Media>, ended: bool): seq<Line> {
    if ms == [] then [] else AllLines(ms[..|ms| - 1], ended) + MediaLines(ms[|ms| - 1], ended)
  }

  function Fragment(ufrag: string, pwd: string, ms: seq<Media>, ended: bool): seq<Line> {
    [IceUfrag(ufrag), IcePwd(pwd)] + AllLines(ms, ended)
  }

  /** A media section of a fragment as its reader sees it. */
  datatype Section = Section(media: Media, ended: bool)

  function Sections(ms: seq<Media>, ended: bool): seq<Section> {
    if ms == [] then [] else Sections(ms[..|ms| - 1], ended) + [Section(ms[|ms| - 1], ended)]
  }

  /** What one more line says about the last section read so far. */
  function ParseLine(ss: seq<Section>, l: Line): seq<Section> {
    if l.MLine? then ss + [Section(Media(Name(""), l.kind, []), false)]
    else if ss == [] then ss
    else ss[..|ss| - 1] + [Amend(ss[|ss| - 1], l)]
  }

  function Amend(section: Section, l: Line): Section {
    match l
    case MidLine(mid) => section.(media := section.media.(mid := mid))
    case CandidateLine(c) => section.(media := section.media.(candidates := section.media.candidates + [c]))
    case EndLine => section.(ended := true)
    case _ => section
  }

  /** Reads the media sections back, line by line. */
  function Parse(lines: seq<Line>): seq<Section> {
    if lines == [] then [] else ParseLine(Parse(lines[..|lines| - 1]), lines[|lines| - 1])
  }

  lemma ParseAppend(lines: seq<Line>, l: Line)
    ensures Parse(lines + [l]) == ParseLine(Parse(lines), l)
  {
    assert (lines + [l])[..|lines|] == lines;
  }

  lemma {:induction false} ParseCandidates(lines: seq<Line>, ss: seq<Section>, m: Media)
    requires Parse(lines) == ss + [Section(m.(candidates := []), false)]
    ensures Parse(lines + CandidateLines(m.candidates)) == ss + [Section(m, false)]
    decreases |m.candidates|
  {
    var cs := m.candidates;
    if cs == [] {
      assert lines + CandidateLines(cs) == lines;
    } else {
      var init, last := m.(candidates := cs[..|cs| - 1]), cs[|cs| - 1];
      ParseCandidates(lines, ss, init);
      LastCandidate(lines, cs);
      ParseAppend(lines + CandidateLines(init.candidates), CandidateLine(last));
      AmendCandidate(ss, init, last);
      assert init.candidates + [last] == cs;
    }
  }

  lemma LastCandidate(lines: seq<Line>, cs: seq<Candidate>)
    requires cs != []
    ensures lines + CandidateLines(cs) == lines + CandidateLines(cs[..|cs| - 1]) + [CandidateLine(cs[|cs| - 1])]
  {}

  lemma AmendCandidate(ss: seq<Section>, m: Media, c: Candidate)
    ensures ParseLine(ss + [Section(m, false)], CandidateLine(c)) == ss + [Section(m.(candidates := m.candidates + [c]), false)]
  {}

  lemma ParseHeader(lines: seq<Line>, m: Media)
    ensures Parse(lines + [MLine(m.kind)] + [MidLine(m.mid)]) == Parse(lines) + [Section(m.(candidates := []), false)]
  {
    ParseAppend(lines, MLine(m.kind));
    ParseAppend(lines + [MLine(m.kind)], MidLine(m.mid));
  }

  lemma ParseMedia(lines: seq<Line>, m: Media, ended: bool)
    ensures Parse(lines + MediaLines(m, ended)) == Parse(lines) + [Section(m, ended)]
  {
    var header := lines + [MLine(m.kind)] + [MidLine(m.mid)];
    var all := header + CandidateLines(m.candidates);
    ParseHeader(lines, m);
    ParseCandidates(header, Parse(lines), m);
    MediaShape(lines, m, ended);
    if ended {
      ParseAppend(all, EndLine);
      AmendEnd(Parse(lines), m);
    }
  }

  lemma MediaShape(lines: seq<Line>, m: Media, ended: bool)
    ensures var all := lines + [MLine(m.kind)] + [MidLine(m.mid)] + CandidateLines(m.candidates);
            lines + MediaLines(m, ended) == if ended then all + [EndLine] else all
  {}

  lemma AmendEnd(ss: seq<Section>, m: Media)
    ensures ParseLine(ss + [Section(m, false)], EndLine) == ss + [Section(m, true)]
  {}

  lemma ParseCredentials(ufrag: string, pwd: string)
    ensures Parse([IceUfrag(ufrag), IcePwd(pwd)]) == []
  {
    ParseAppend([], IceUfrag(ufrag));
    ParseAppend([IceUfrag(ufrag)], IcePwd(pwd));
    assert [] + [IceUfrag(ufrag)] == [IceUfrag(ufrag)];
    assert [IceUfrag(ufrag)] + [IcePwd(pwd)] == [IceUfrag(ufrag), IcePwd(pwd)];
  }

  lemma FragmentAppend(ufrag: string, pwd: string, ms: seq<Media>, m: Media, ended: bool)
    ensures Fragment(ufrag, pwd, ms + [m], ended) == Fragment(ufrag, pwd, ms, ended) + MediaLines(m, ended)
  {
    assert (ms + [m])[..|ms|] == ms;
  }

  lemma NoMedia(ufrag: string, pwd: string, ended: bool)
    ensures Parse(Fragment(ufrag, pwd, [], ended)) == []
  {
    ParseCredentials(ufrag, pwd);
    assert Fragment(ufrag, pwd, [], ended) == [IceUfrag(ufrag), IcePwd(pwd)];
  }

  lemma OneMoreMedia(ufrag: string, pwd: string, ms: seq<Media>, m: Media, ended: bool)
    ensures Parse(Fragment(ufrag, pwd, ms + [m], ended)) == Parse(Fragment(ufrag, pwd, ms, ended)) + [Section(m, ended)]
  {
    FragmentAppend(ufrag, pwd, ms, m, ended);
    ParseMedia(Fragment(ufrag, pwd, ms, ended), m, ended);
  }

  /** The credentials among some lines. */
  function ToCredential(l: Line): Option<Line> {
    if l.IceUfrag? || l.IcePwd? then Some(l) else None
  }

  /** How far a reader is that wants the user name, the password, and then media sections with a media id, candidates and at most one end. */
  datatype Stage = Start | UserNamed | Body | Opened | Inside | Closed | Malformed

  function Advance(stage: Stage, l: Line): Stage {
    match l
    case IceUfrag(_) => if stage == Start then UserNamed else Malformed
    case IcePwd(_) => if stage == UserNamed then Body else Malformed
    case MLine(_) => if stage == Body || stage == Inside || stage == Closed then Opened else Malformed
    case MidLine(_) => if stage == Opened then Inside else Malformed
    case CandidateLine(_) => if stage == Inside then Inside else Malformed
    case EndLine => if stage == Inside then Closed else Malformed
  }

  function StageOf(lines: seq<Line>): Stage {
    if lines == [] then Start else Advance(StageOf(lines[..|lines| - 1]), lines[|lines| - 1])
  }

  predicate WellFormed(lines: seq<Line>) {
    StageOf(lines) == Body || StageOf(lines) == Inside || StageOf(lines) == Closed
  }

  lemma StageAppend(lines: seq<Line>, l: Line)
    ensures StageOf(lines + [l]) == Advance(StageOf(lines), l)
  {
    assert (lines + [l])[..|lines|] == lines;
  }

  lemma {:induction false} CandidateStages(lines: seq<Line>, cs: seq<Candidate>)
    requires StageOf(lines) == Inside
    ensures StageOf(lines + CandidateLines(cs)) == Inside
    ensures Collect(ToCredential, lines + CandidateLines(cs)) == Collect(ToCredential, lines)
  {
    if cs == [] {
      assert lines + CandidateLines(cs) == lines;
    } else {
      var init := cs[..|cs| - 1];
      CandidateStages(lines, init);
      LastCandidate(lines, cs);
      StageAppend(lines + CandidateLines(init), CandidateLine(cs[|cs| - 1]));
      CollectAppend(ToCredential, lines + CandidateLines(init), CandidateLine(cs[|cs| - 1]));
    }
  }

  lemma MediaStages(lines: seq<Line>, m: Media, ended: bool)
    requires WellFormed(lines)
    ensures StageOf(lines + MediaLines(m, ended)) == if ended then Closed else Inside
    ensures Collect(ToCredential, lines + MediaLines(m, ended)) == Collect(ToCredential, lines)
  {
    var header := lines + [MLine(m.kind)] + [MidLine(m.mid)];
    var all := header + CandidateLines(m.candidates);
    StageAppend(lines, MLine(m.kind));
    StageAppend(lines + [MLine(m.kind)], MidLine(m.mid));
    CollectAppend(ToCredential, lines, MLine(m.kind));
    CollectAppend(ToCredential, lines + [MLine(m.kind)], MidLine(m.mid));
    CandidateStages(header, m.candidates);
    MediaShape(lines, m, ended);
    if ended {
      StageAppend(all, EndLine);
      CollectAppend(ToCredential, all, EndLine);
    }
  }

  lemma CredentialStages(ufrag: string, pwd: string)
    ensures StageOf([IceUfrag(ufrag), IcePwd(pwd)]) == Body
    ensures Collect(ToCredential, [IceUfrag(ufrag), IcePwd(pwd)]) == [IceUfrag(ufrag), IcePwd(pwd)]
  {
    var first := [IceUfrag(ufrag)];
    assert [] + [IceUfrag(ufrag)] == first && first + [IcePwd(pwd)] == [IceUfrag(ufrag), IcePwd(pwd)];
    StageAppend([], IceUfrag(ufrag));
    StageAppend(first, IcePwd(pwd));
    CollectAppend(ToCredential, [], IceUfrag(ufrag));
    CollectAppend(ToCredential, first, IcePwd(pwd));
  }

  lemma {:induction false} FragmentStages(ufrag: string, pwd: string, ms: seq<Media>, ended: bool)
    ensures WellFormed(Fragment(ufrag, pwd, ms, ended))
    ensures Collect(ToCredential, Fragment(ufrag, pwd, ms, ended)) == [IceUfrag(ufrag), IcePwd(pwd)]
  {
    if ms == [] {
      CredentialStages(ufrag, pwd);
      assert Fragment(ufrag, pwd, [], ended) == [IceUfrag(ufrag), IcePwd(pwd)];
    } else {
      var init, last := ms[..|ms| - 1], ms[|ms| - 1];
      FragmentStages(ufrag, pwd, init, ended);
      FragmentAppend(ufrag, pwd, init, last, ended);
      MediaStages(Fragment(ufrag, pwd, init, ended), last, ended);
      assert init + [last] == ms;
    }
  }

  /**
   * A fragment reads back: its lines come in the order a reader wants, the credentials in it are the
   * given user name and password, once each and first, and its media sections are the groups that
   * went into it, all ended or none.
   */
  lemma {:induction false} FragmentRoundTrip(ufrag: string, pwd: string, ms: seq<Media>, ended: bool)
    ensures WellFormed(Fragment(ufrag, pwd, ms, ended))
    ensures Collect(ToCredential, Fragment(ufrag, pwd, ms, ended)) == [IceUfrag(ufrag), IcePwd(pwd)]
    ensures |Fragment(ufrag, pwd, ms, ended)| >= 2 && Fragment(ufrag, pwd, ms, ended)[..2] == [IceUfrag(ufrag), IcePwd(pwd)]
    ensures Parse(Fragment(ufrag, pwd, ms, ended)) == Sections(ms, ended)
  {
    FragmentStages(ufrag, pwd, ms, ended);
    if ms == [] {
      NoMedia(ufrag, pwd, ended);
    } else {
      var init, last := ms[..|ms| - 1], ms[|ms| - 1];
      FragmentRoundTrip(ufrag, pwd, init, ended);
      OneMoreMedia(ufrag, pwd, init, last, ended);
      assert init + [last] == ms;
    }
  }

  // ----- from the candidates stored to the fragments -----

  /** A restart's new offer gathers again, so its batch never says that candidates ended. */
  predicate Ended(b: Snapshot) {
    b.endOfCandidates && !b.restartIce
  }

  /**
   * The fragment of a batch; `None` is an exception: there is no connection any more, a restart's
   * offer was rejected, or a media id is unknown.
   */
  function FragmentOf(b: Snapshot, live: bool, offered: bool, ufrag: string, pwd: string, ts: seq<Transceiver>): Option<seq<Line>> {
    if !live || (b.restartIce && !offered) then None
    else match Group(b.candidates, Ended(b), ts)
      case None => None
      case Some(ms) => Some(Fragment(ufrag, pwd, ObjectValues(ms), Ended(b)))
  }

  /** Only a restart waits before it builds its fragment, so only then can the connection go away meanwhile. */
  predicate MayBeLive(b: Snapshot, live: bool) {
    (live ==> b.connected) && (!b.restartIce ==> live == b.connected)
  }

  /** A batch becomes a fragment exactly when there is a connection, a restart's offer is accepted and every media id it needs is known. */
  lemma RendersExactly(b: Snapshot, live: bool, offered: bool, ufrag: string, pwd: string, ts: seq<Transceiver>)
    ensures FragmentOf(b, live, offered, ufrag, pwd, ts).Some? <==>
              && live && (b.restartIce ==> offered)
              && (b.candidates != [] || Ended(b) ==> ts != [] && forall k :: 0 <= k < |b.candidates| ==> FindKind(ts, b.candidates[k].mid).Some?)
  {
    Grouping(b.candidates, Ended(b), ts);
  }

  /** The candidates under one media id. */
  function Under(ms: seq<Media>, mid: Mid): seq<Candidate> {
    if ms == [] then [] else Under(ms[..|ms| - 1], mid) + if ms[|ms| - 1].mid == mid then ms[|ms| - 1].candidates else []
  }

  /** What the reader of a fragment finds under one media id. */
  function ReadUnder(ss: seq<Section>, mid: Mid): seq<Candidate> {
    if ss == [] then []
    else ReadUnder(ss[..|ss| - 1], mid) + if ss[|ss| - 1].media.mid == mid then ss[|ss| - 1].media.candidates else []
  }

  lemma {:induction false} ReadSections(ms: seq<Media>, ended: bool, mid: Mid)
    ensures ReadUnder(Sections(ms, ended), mid) == Under(ms, mid)
  {
    if ms == [] {
    } else {
      ReadSections(ms[..|ms| - 1], ended, mid);
      assert Sections(ms, ended)[..|Sections(ms, ended)| - 1] == Sections(ms[..|ms| - 1], ended);
    }
  }

  lemma UnderAppend(ms: seq<Media>, m: Media, mid: Mid)
    ensures Under(ms + [m], mid) == Under(ms, mid) + if m.mid == mid then m.candidates else []
  {
    assert (ms + [m])[..|ms|] == ms;
  }

  lemma {:induction false} InsertUnder(ms: seq<Media>, m: Media, mid: Mid)
    requires forall i :: 0 <= i < |ms| ==> ms[i].mid != m.mid
    ensures Under(Insert(ms, m), mid) == Under(ms, mid) + if m.mid == mid then m.candidates else []
  {
    if ms != [] && Before(m, ms[|ms| - 1]) {
      var init, last := ms[..|ms| - 1], ms[|ms| - 1];
      InsertUnder(init, m, mid);
      UnderAppend(Insert(init, m), last, mid);
      if last.mid == mid { assert m.mid != mid; }
    } else {
      UnderAppend(ms, m, mid);
    }
  }

  lemma {:induction false} ValuesUnder(ms: seq<Media>, mid: Mid)
    requires DistinctMids(ms)
    ensures Under(ObjectValues(ms), mid) == Under(ms, mid)
  {
    if ms == [] {
    } else {
      var init, last := ms[..|ms| - 1], ms[|ms| - 1];
      ValuesUnder(init, mid);
      ValuesMembers(init);
      forall i | 0 <= i < |ObjectValues(init)| ensures ObjectValues(init)[i].mid != last.mid {
        assert ObjectValues(init)[i] in multiset(init);
      }
      InsertUnder(ObjectValues(init), last, mid);
    }
  }

  lemma {:induction false} UnderAt(ms: seq<Media>, i: nat)
    requires DistinctMids(ms) && i < |ms|
    ensures Under(ms, ms[i].mid) == ms[i].candidates
  {
    var init := ms[..|ms| - 1];
    if i < |init| { UnderAt(init, i); } else { UnderNone(init, ms[i].mid); }
  }

  lemma {:induction false} UnderNone(ms: seq<Media>, mid: Mid)
    requires forall i :: 0 <= i < |ms| ==> ms[i].mid != mid
    ensures Under(ms, mid) == []
  {
    if ms == [] {
    } else {
      UnderNone(ms[..|ms| - 1], mid);
    }
  }

  lemma GroupedUnder(ms: seq<Media>, cs: seq<Candidate>, ts: seq<Transceiver>, mid: Mid)
    requires Grouped(ms, cs, ts)
    ensures Under(ms, mid) == OfMid(cs, mid)
  {
    if i :| 0 <= i < |ms| && ms[i].mid == mid {
      UnderAt(ms, i);
      assert GroupOk(ms[i], cs, ts);
    } else {
      UnderNone(ms, mid);
      forall k | 0 <= k < |cs| ensures cs[k].mid != mid {
        assert HasMid(ms, cs[k].mid);
      }
      OfMidNone(cs, mid);
    }
  }

  /** What a reader of the fragment of a batch finds: the credentials, and sections that say whether the candidates ended. */
  ghost predicate Says(lines: seq<Line>, ufrag: string, pwd: string, ended: bool, some: bool) {
    && WellFormed(lines)
    && Collect(ToCredential, lines) == [IceUfrag(ufrag), IcePwd(pwd)]
    && (forall i :: 0 <= i < |Parse(lines)| ==> Parse(lines)[i].ended == ended)
    && (Parse(lines) != [] <==> some)
  }

  lemma {:induction false} SectionsEnded(ms: seq<Media>, ended: bool)
    ensures |Sections(ms, ended)| == |ms| && forall i :: 0 <= i < |ms| ==> Sections(ms, ended)[i] == Section(ms[i], ended)
  {
    if ms == [] {
    } else {
      SectionsEnded(ms[..|ms| - 1], ended);
    }
  }

  /**
   * The fragment of a batch has the credentials once and first; it has media sections exactly if the
   * batch has candidates or their end, and each says that the candidates ended exactly if the batch
   * has their end and is no restart, whose new offer gathers again.
   */
  lemma FragmentSays(b: Snapshot, live: bool, offered: bool, ufrag: string, pwd: string, ts: seq<Transceiver>)
    requires FragmentOf(b, live, offered, ufrag, pwd, ts).Some?
    ensures var ended := b.endOfCandidates && !b.restartIce;
            Says(FragmentOf(b, live, offered, ufrag, pwd, ts).value, ufrag, pwd, ended, b.candidates != [] || ended)
  {
    var ms := Group(b.candidates, Ended(b), ts).value;
    Grouping(b.candidates, Ended(b), ts);
    ValuesMembers(ms);
    assert |multiset(ObjectValues(ms))| == |multiset(ms)|;
    FragmentRoundTrip(ufrag, pwd, ObjectValues(ms), Ended(b));
    SectionsEnded(ObjectValues(ms), Ended(b));
  }

  /** Whoever reads a batch's fragment finds, under every media id, that id's candidates in the order they were stored. */
  lemma FragmentCarries(b: Snapshot, live: bool, offered: bool, ufrag: string, pwd: string, ts: seq<Transceiver>, mid: Mid)
    requires FragmentOf(b, live, offered, ufrag, pwd, ts).Some?
    ensures ReadUnder(Parse(FragmentOf(b, live, offered, ufrag, pwd, ts).value), mid) == OfMid(b.candidates, mid)
  {
    var ms := Group(b.candidates, Ended(b), ts).value;
    Grouping(b.candidates, Ended(b), ts);
    FragmentRoundTrip(ufrag, pwd, ObjectValues(ms), Ended(b));
    ReadSections(ObjectValues(ms), Ended(b), mid);
    ValuesUnder(ms, mid);
    GroupedUnder(ms, b.candidates, ts, mid);
  }

  /** What became of a batch: its fragment, or nothing because an exception came after the batch was taken. */
  type Result = Option<seq<Line>>

  /** What the readers of the fragments find under one media id. */
  function Delivered(results: seq<Result>, mid: Mid): seq<Candidate> {
    if results == [] then []
    else
      var last := results[|results| - 1];
      Delivered(results[..|results| - 1], mid) + if last.Some? then ReadUnder(Parse(last.value), mid) else []
  }

  /** The batches that became fragments. */
  function Rendered(batches: seq<Snapshot>, results: seq<Result>): seq<Snapshot>
    requires |results| == |batches|
  {
    if batches == [] then []
    else
      var n := |batches| - 1;
      Rendered(batches[..n], results[..n]) + if results[n].Some? then [batches[n]] else []
  }

  lemma RenderedLast(batches: seq<Snapshot>, results: seq<Result>)
    requires |results| == |batches| && batches != []
    ensures var n := |batches| - 1;
            FlatMap(CandidatesOf, Rendered(batches, results)) ==
              FlatMap(CandidatesOf, Rendered(batches[..n], results[..n])) + if results[n].Some? then batches[n].candidates else []
  {
    var n := |batches| - 1;
    var done := Rendered(batches[..n], results[..n]);
    if results[n].Some? {
      FlatMapConcat(CandidatesOf, done, [batches[n]]);
      FlatMapOne(CandidatesOf, batches[n]);
    } else {
      assert done + [] == done;
    }
  }

  ghost predicate IsResult(result: Result, b: Snapshot) {
    exists live, offered, ufrag, pwd, ts :: MayBeLive(b, live) && FragmentOf(b, live, offered, ufrag, pwd, ts) == result
  }

  ghost predicate ResultsOf(results: seq<Result>, batches: seq<Snapshot>) {
    |results| == |batches| && forall i :: 0 <= i < |batches| ==> IsResult(results[i], batches[i])
  }

  /** Readers find the candidates of the batches that became fragments, in order. */
  lemma {:induction false} RenderedDelivered(results: seq<Result>, batches: seq<Snapshot>, mid: Mid)
    requires ResultsOf(results, batches)
    ensures Delivered(results, mid) == OfMid(FlatMap(CandidatesOf, Rendered(batches, results)), mid)
  {
    if batches == [] {
    } else {
      var n := |batches| - 1;
      RenderedDelivered(results[..n], batches[..n], mid);
      assert IsResult(results[n], batches[n]);
      RenderedLast(batches, results);
      if results[n].Some? {
        var live, offered, ufrag, pwd, ts :| MayBeLive(batches[n], live) && FragmentOf(batches[n], live, offered, ufrag, pwd, ts) == results[n];
        FragmentCarries(batches[n], live, offered, ufrag, pwd, ts, mid);
        OfMidAppend(FlatMap(CandidatesOf, Rendered(batches[..n], results[..n])), batches[n].candidates, mid);
      } else {
        var done := FlatMap(CandidatesOf, Rendered(batches[..n], results[..n]));
        assert done + [] == done;
      }
    }
  }

  /** No batch with candidates was lost. */
  ghost predicate NoneLost(batches: seq<Snapshot>, results: seq<Result>)
    requires |results| == |batches|
  {
    forall i :: 0 <= i < |batches| && results[i].None? ==> batches[i].candidates == []
  }

  lemma {:induction false} AllRendered(batches: seq<Snapshot>, results: seq<Result>)
    requires |results| == |batches| && NoneLost(batches, results)
    ensures FlatMap(CandidatesOf, Rendered(batches, results)) == FlatMap(CandidatesOf, batches)
  {
    if batches == [] {
    } else {
      var n := |batches| - 1;
      AllRendered(batches[..n], results[..n]);
      RenderedLast(batches, results);
    }
  }

  /** A lost batch leaves fewer candidates behind. */
  lemma {:induction false} LostShorter(batches: seq<Snapshot>, results: seq<Result>)
    requires |results| == |batches|
    ensures |FlatMap(CandidatesOf, Rendered(batches, results))| <= |FlatMap(CandidatesOf, batches)|
    ensures |FlatMap(CandidatesOf, Rendered(batches, results))| == |FlatMap(CandidatesOf, batches)| ==> NoneLost(batches, results)
  {
    if batches == [] {
    } else {
      var n := |batches| - 1;
      LostShorter(batches[..n], results[..n]);
      RenderedLast(batches, results);
      assert forall i :: 0 <= i < n ==> batches[..n][i] == batches[i] && results[..n][i] == results[i];
    }
  }

  /** Lists that agree under every media id are equally long. */
  lemma {:induction false} SameLength(a: seq<Candidate>, b: seq<Candidate>)
    requires forall mid: Mid :: |OfMid(a, mid)| == |OfMid(b, mid)|
    ensures |a| == |b|
    decreases |a|
  {
    if a == [] {
      if b != [] {
        var none := |OfMid(a, b[0].mid)|;
        OfMidMember(b, 0);
      }
    } else {
      var n := |a| - 1;
      OfMidMember(a, n);
      var k := OfMidWitness(b, a[n].mid);
      forall mid: Mid ensures |OfMid(a[..n], mid)| == |OfMid(RemoveAt(b, k), mid)| {
        OfMidRemove(b, k, mid);
      }
      SameLength(a[..n], RemoveAt(b, k));
    }
  }

  lemma {:induction false} OfMidMember(cs: seq<Candidate>, k: nat)
    requires k < |cs|
    ensures OfMid(cs, cs[k].mid) != []
  {
    if k < |cs| - 1 { OfMidMember(cs[..|cs| - 1], k); }
  }

  lemma {:induction false} OfMidWitness(cs: seq<Candidate>, mid: Mid) returns (k: nat)
    requires OfMid(cs, mid) != []
    ensures k < |cs| && cs[k].mid == mid
  {
    if cs[|cs| - 1].mid == mid { k := |cs| - 1; } else { k := OfMidWitness(cs[..|cs| - 1], mid); }
  }

  lemma OfMidRemove(cs: seq<Candidate>, k: nat, mid: Mid)
    requires k < |cs|
    ensures |OfMid(cs, mid)| == |OfMid(RemoveAt(cs, k), mid)| + if cs[k].mid == mid then 1 else 0
  {
    var before, after := cs[..k], cs[k + 1..];
    assert cs == before + [cs[k]] + after;
    OfMidAppend(before + [cs[k]], after, mid);
    OfMidOne(before, cs[k], mid);
    OfMidAppend(before, after, mid);
  }

  /** Under every media id readers find everything stored but the pending. */
  ghost predicate Complete(s: State, results: seq<Result>) {
    forall mid: Mid :: OfMid(s.stored, mid) == Delivered(results, mid) + OfMid(s.candidates, mid)
  }

  /**
   * End to end: whatever the interleaving, and whatever credentials, transceivers and connection each
   * batch met, readers find under every media id the stored candidates of the batches that became
   * fragments, in order and once. That is everything stored but the pending exactly when every batch
   * that became no fragment had no candidates; `RendersExactly` says which those are.
   */
  lemma DeliveredExactly(steps: seq<Step>, results: seq<Result>)
    requires Run(steps).Some? && ResultsOf(results, Run(steps).value.batches)
    ensures var s := Run(steps).value;
            && (forall mid: Mid :: Delivered(results, mid) == OfMid(FlatMap(CandidatesOf, Rendered(s.batches, results)), mid))
            && (Complete(s, results) <==> NoneLost(s.batches, results))
  {
    var s := Run(steps).value;
    var taken, rendered := FlatMap(CandidatesOf, s.batches), FlatMap(CandidatesOf, Rendered(s.batches, results));
    RunKeeps(steps);
    forall mid: Mid
      ensures Delivered(results, mid) == OfMid(rendered, mid)
      ensures OfMid(s.stored, mid) == OfMid(taken, mid) + OfMid(s.candidates, mid)
    {
      RenderedDelivered(results, s.batches, mid);
      OfMidAppend(taken, s.candidates, mid);
    }
    if NoneLost(s.batches, results) {
      AllRendered(s.batches, results);
    } else if Complete(s, results) {
      forall mid: Mid ensures |OfMid(taken, mid)| == |OfMid(rendered, mid)| {
        assert OfMid(s.stored, mid) == Delivered(results, mid) + OfMid(s.candidates, mid);
      }
      SameLength(taken, rendered);
      LostShorter(s.batches, results);
      assert false;
    }
  }

  // ----- the client -----

  class WhipClient {
    var pc: bool
    var resourceURL: bool
    var candidates: seq<Candidate>
    var endOfcandidates: bool
    var restartIce: bool
    var iceTrickleTimeout: bool
    ghost var scheduled: bool
    ghost var stored: seq<Candidate>
    ghost var batches: seq<Snapshot>

    ghost function View(): State
      reads this
    {
      State(pc, resourceURL, candidates, endOfcandidates, restartIce, iceTrickleTimeout, scheduled, stored, batches)
    }

    constructor ()
      ensures View() == INITIAL
    {
      pc, resourceURL, candidates, endOfcandidates, restartIce, iceTrickleTimeout := false, false, [], false, false, false;
      scheduled, stored, batches := false, [], [];
    }

    method BeginPublish() returns (ok: bool)
      modifies this`pc
      ensures View() == Next(old(View()), Publish) && (ok <==> !old(pc))
    {
      if pc {
        return false;
      }
      pc := true;
      return true;
    }

    method OnIceCandidate(event: Option<Candidate>)
      modifies this
      ensures View() == Next(old(View()), IceEvent(event))
      ensures candidates == old(candidates) + if event.Some? && event.value.lineIndex <= 0 then [event.value] else []
      ensures endOfcandidates <==> old(endOfcandidates) || event.None?
      ensures iceTrickleTimeout <==> old(iceTrickleTimeout) || event.None? || event.value.lineIndex <= 0
    {
      if event.Some? {
        if event.value.lineIndex > 0 {
          return;
        }
        candidates := candidates + [event.value];
        stored := stored + [event.value];
      } else {
        endOfcandidates := true;
      }
      if !iceTrickleTimeout {
        iceTrickleTimeout := true;
      }
    }

    method ScheduleTrickle()
      requires resourceURL
      modifies this`iceTrickleTimeout, this`scheduled
      ensures View() == Next(old(View()), Schedule)
    {
      if !iceTrickleTimeout {
        iceTrickleTimeout := true;
      }
      scheduled := true;
    }

    method RestartIce()
      modifies this`iceTrickleTimeout, this`restartIce
      ensures View() == Next(old(View()), Restart)
    {
      restartIce := true;
      if !iceTrickleTimeout {
        iceTrickleTimeout := true;
      }
    }

    /** `trickle` up to its first wait: the batch it takes, if any. */
    method TakeTrickle() returns (batch: Option<Snapshot>)
      modifies this
      ensures TakeBatch(old(View())) == (batch, View())
    {
      iceTrickleTimeout := false;
      if !(candidates != [] || endOfcandidates || restartIce) || !resourceURL {
        return None;
      }
      batch := Some(Snapshot(candidates, endOfcandidates, restartIce, pc));
      candidates := [];
      endOfcandidates := false;
      restartIce := false;
      batches := batches + [batch.value];
    }

    /** Cancels the timer; false when there is no resource to delete. */
    method StopPublishing() returns (ok: bool)
      modifies this
      ensures View() == Next(old(View()), Stop) && (ok <==> !old(pc) || resourceURL)
      ensures !pc && (old(pc) ==> !iceTrickleTimeout) && candidates == old(candidates)
    {
      if !pc {
        return true;
      }
      iceTrickleTimeout := false;
      pc := false;
      scheduled := false;
      return resourceURL;
    }
  }

  /** The grouping loop of `trickle`. */
  method GroupCandidates(cs: seq<Candidate>, ended: bool, ts: seq<Transceiver>) returns (r: Option<seq<Media>>)
    ensures r == Group(cs, ended, ts)
  {
    var medias: seq<Media> := [];
    if cs != [] || ended {
      if ts == [] {
        return None;
      }
      medias := [Media(ts[0].mid, ts[0].kind, [])];
    } else {
      return Some([]);
    }
    ghost var first := medias;
    for k := 0 to |cs|
      invariant GroupFrom(first, cs[..k], ts) == Some(medias)
    {
      assert cs[..k + 1][..k] == cs[..k];
      var i := FindMedia(medias, cs[k].mid);
      if i.Some? {
        medias := medias[i.value := medias[i.value].(candidates := medias[i.value].candidates + [cs[k]])];
      } else {
        var kind := FindKind(ts, cs[k].mid);
        if kind.None? {
          GroupStops(first, cs, k + 1, ts);
          return None;
        }
        medias := medias + [Media(cs[k].mid, kind.value, [cs[k]])];
      }
    }
    assert cs[..|cs|] == cs;
    return Some(medias);
  }

  lemma {:induction false} GroupStops(ms: seq<Media>, cs: seq<Candidate>, n: nat, ts: seq<Transceiver>)
    requires n <= |cs| && GroupFrom(ms, cs[..n], ts).None?
    ensures GroupFrom(ms, cs, ts).None?
    decreases |cs|
  {
    if n < |cs| {
      assert cs[..|cs| - 1][..n] == cs[..n];
      GroupStops(ms, cs[..|cs| - 1], n, ts);
    } else {
      assert cs[..n] == cs;
    }
  }

  /** The loops that write a fragment: the credentials, then each media with its candidates. */
  method WriteFragment(ufrag: string, pwd: string, medias: seq<Media>, ended: bool) returns (fragment: seq<Line>)
    ensures fragment == Fragment(ufrag, pwd, medias, ended)
    ensures WellFormed(fragment) && Collect(ToCredential, fragment) == [IceUfrag(ufrag), IcePwd(pwd)]
    ensures Parse(fragment) == Sections(medias, ended)
  {
    fragment := [IceUfrag(ufrag), IcePwd(pwd)];
    for i := 0 to |medias|
      invariant fragment == Fragment(ufrag, pwd, medias[..i], ended)
    {
      ghost var before := fragment;
      var media := medias[i];
      fragment := fragment + [MLine(media.kind), MidLine(media.mid)];
      for k := 0 to |media.candidates|
        invariant fragment == before + ([MLine(media.kind), MidLine(media.mid)] + CandidateLines(media.candidates[..k]))
      {
        fragment := fragment + [CandidateLine(media.candidates[k])];
        assert CandidateLines(media.candidates[..k + 1]) == CandidateLines(media.candidates[..k]) + [CandidateLine(media.candidates[k])];
      }
      if ended {
        fragment := fragment + [EndLine];
      }
      assert media.candidates[..|media.candidates|] == media.candidates;
      assert fragment == before + MediaLines(media, ended);
      FragmentAppend(ufrag, pwd, medias[..i], media, ended);
      assert medias[..i + 1] == medias[..i] + [media];
    }
    assert medias[..|medias|] == medias;
    FragmentRoundTrip(ufrag, pwd, medias, ended);
  }

  /** `trickle` from its batch to the fragment it sends; `None` is an exception, and then the batch is lost. */
  method BuildFragment(batch: Snapshot, live: bool, offered: bool, ufrag: string, pwd: string, ts: seq<Transceiver>) returns (fragment: Result)
    ensures fragment == FragmentOf(batch, live, offered, ufrag, pwd, ts)
    ensures fragment.Some? ==> forall mid :: ReadUnder(Parse(fragment.value), mid) == OfMid(batch.candidates, mid)
    ensures fragment.Some? ==>
              var last := batch.endOfCandidates && !batch.restartIce;
              Says(fragment.value, ufrag, pwd, last, batch.candidates != [] || last)
  {
    var ended := batch.endOfCandidates;
    if !live {
      return None;
    }
    if batch.restartIce {
      if !offered {
        return None;
      }
      ended := false;
    }
    var medias := GroupCandidates(batch.candidates, ended, ts);
    if medias.None? {
      return None;
    }
    FragmentSays(batch, live, offered, ufrag, pwd, ts);
    var lines := WriteFragment(ufrag, pwd, ObjectValues(medias.value), ended);
    forall mid ensures ReadUnder(Parse(lines), mid) == OfMid(batch.candidates, mid) {
      FragmentCarries(batch, live, offered, ufrag, pwd, ts, mid);
    }
    return Some(lines);
  }
}
