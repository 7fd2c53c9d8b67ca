/** The trickle buffer told from what happened to it: the events alone say what waits and what each batch took. */
module TrickleStory {
  import opened Seqs
  import opened Trickle

  /** The candidates that are kept: those of the first line. */
  function Kept(steps: seq<Step>): seq<Candidate> {
    if steps == [] then []
    else
      var last := steps[|steps| - 1];
      Kept(steps[..|steps| - 1]) + if last.IceEvent? && last.c.Some? && last.c.value.lineIndex <= 0 then [last.c.value] else []
  }

  /** There is a connection: the last of the publishes and stops was a publish. */
  function Connected(steps: seq<Step>): bool {
    if steps == [] then false
    else
      match steps[|steps| - 1]
      case Publish => true
      case Stop => false
      case _ => Connected(steps[..|steps| - 1])
  }

  /** Something happened that a batch would carry. */
  predicate Worth(steps: seq<Step>) {
    Kept(steps) != [] || IceEvent(None) in steps || Restart in steps
  }

  /** The timer's run after these steps takes a batch: there is a resource, and something happened since the batch before. */
  predicate Takes(steps: seq<Step>) {
    Located in steps && Worth(Since(steps))
  }

  /** What happened since the last batch was taken. */
  function Since(steps: seq<Step>): seq<Step>
    decreases |steps|, 0
  {
    if steps == [] then []
    else
      var init, last := steps[..|steps| - 1], steps[|steps| - 1];
      if last.Fire? && Located in init && Worth(Since(init)) then [] else Since(init) + [last]
  }

  /** The batches: each with the candidates, the end and the restart of the time since the one before. */
  function Story(steps: seq<Step>): seq<Snapshot> {
    if steps == [] then []
    else
      var init, last := steps[..|steps| - 1], steps[|steps| - 1];
      if last.Fire? && Takes(init)
      then Story(init) + [Snapshot(Kept(Since(init)), IceEvent(None) in Since(init), Restart in Since(init), Connected(init))]
      else Story(init)
  }

  /** The timer is armed: something armed it, and it has neither run nor been stopped since. */
  function Ticking(steps: seq<Step>): bool {
    if steps == [] then false
    else
      var init, last := steps[..|steps| - 1], steps[|steps| - 1];
      Arms(last) || (!last.Fire? && !(last.Stop? && Connected(init)) && Ticking(init))
  }

  ghost predicate Told(s: State, steps: seq<Step>) {
    && s.stored == Kept(steps) && s.batches == Story(steps)
    && s.candidates == Kept(Since(steps))
    && (s.endOfCandidates <==> IceEvent(None) in Since(steps))
    && (s.restartIce <==> Restart in Since(steps))
    && (s.hasResource <==> Located in steps) && s.connected == Connected(steps) && s.timer == Ticking(steps)
  }

  lemma KeptAppend(steps: seq<Step>, step: Step)
    ensures Kept(steps + [step]) == Kept(steps) + if step.IceEvent? && step.c.Some? && step.c.value.lineIndex <= 0 then [step.c.value] else []
  {
    assert (steps + [step])[..|steps|] == steps;
  }

  lemma TakesIs(s: State, steps: seq<Step>)
    requires Told(s, steps)
    ensures TakeBatch(s).0 ==
              if Takes(steps)
              then Some(Snapshot(Kept(Since(steps)), IceEvent(None) in Since(steps), Restart in Since(steps), Connected(steps)))
              else None
  {}

  lemma Known<T>(s: seq<T>, a: T)
    ensures forall x :: x in s + [a] <==> x in s || x == a
  {}

  /** One more event that takes no batch. */
  lemma OnlyMore(init: seq<Step>, step: Step)
    requires !(step.Fire? && Takes(init))
    ensures var steps := init + [step];
            && Since(steps) == Since(init) + [step] && Story(steps) == Story(init)
            && Kept(Since(steps)) == Kept(Since(init)) + (if step.IceEvent? && step.c.Some? && step.c.value.lineIndex <= 0 then [step.c.value] else [])
            && (IceEvent(None) in Since(steps) <==> IceEvent(None) in Since(init) || step == IceEvent(None))
            && (Restart in Since(steps) <==> Restart in Since(init) || step == Restart)
  {
    assert (init + [step])[..|init|] == init;
    KeptAppend(Since(init), step);
    Known(Since(init), step);
  }

  lemma Taken(init: seq<Step>)
    requires Takes(init)
    ensures Since(init + [Fire]) == []
    ensures Story(init + [Fire]) == Story(init) + [Snapshot(Kept(Since(init)), IceEvent(None) in Since(init), Restart in Since(init), Connected(init))]
  {
    assert (init + [Fire])[..|init|] == init;
  }

  lemma Around(init: seq<Step>, step: Step)
    ensures var steps := init + [step];
            && Kept(steps) == Kept(init) + (if step.IceEvent? && step.c.Some? && step.c.value.lineIndex <= 0 then [step.c.value] else [])
            && (Located in steps <==> Located in init || step == Located)
            && Connected(steps) == (if step.Publish? then true else if step.Stop? then false else Connected(init))
            && Ticking(steps) == (Arms(step) || (!step.Fire? && !(step.Stop? && Connected(init)) && Ticking(init)))
  {
    assert (init + [step])[..|init|] == init;
    KeptAppend(init, step);
    Known(init, step);
  }

  lemma StepTold(s: State, init: seq<Step>, step: Step)
    requires Told(s, init) && Enabled(s, step)
    ensures Told(Next(s, step), init + [step])
  {
    Around(init, step);
    TakesIs(s, init);
    if step.Fire? && Takes(init) { Taken(init); } else { OnlyMore(init, step); }
  }

  /**
   * In every interleaving the events alone say everything: what waits and is flagged is what came
   * since the last batch, every batch carries exactly what came since the one before, and the timer
   * is armed exactly if something armed it that neither a run nor a stop undid.
   */
  lemma {:induction false} RunTold(steps: seq<Step>)
    requires Run(steps).Some?
    ensures Told(Run(steps).value, steps)
  {
    if steps == [] {
    } else {
      var init, last := steps[..|steps| - 1], steps[|steps| - 1];
      RunTold(init);
      assert steps == init + [last];
      StepTold(Run(init).value, init, last);
    }
  }

  /** After a stop nothing runs any more, whatever waits, until something arms the timer again. */
  lemma {:induction false} StoppedStays(steps: seq<Step>, more: seq<Step>)
    requires Run(steps + [Stop] + more).Some? && (forall i :: 0 <= i < |more| ==> !Arms(more[i]))
    requires Connected(steps)
    ensures Fire !in more && Story(steps + [Stop] + more) == Story(steps)
    decreases |more|
  {
    var stopped := steps + [Stop];
    assert stopped[..|steps|] == steps;
    if more == [] {
      assert stopped + more == stopped;
    } else {
      var init, last := more[..|more| - 1], more[|more| - 1];
      var before := stopped + init;
      assert (stopped + more)[..|stopped + more| - 1] == before;
      assert more == init + [last];
      StoppedStays(steps, init);
      NotTicking(steps, init);
      RunTold(before);
    }
  }

  lemma {:induction false} NotTicking(steps: seq<Step>, more: seq<Step>)
    requires Connected(steps) && forall i :: 0 <= i < |more| ==> !Arms(more[i])
    ensures !Ticking(steps + [Stop] + more)
    decreases |more|
  {
    var stopped := steps + [Stop];
    if more == [] {
      assert stopped + more == stopped && stopped[..|steps|] == steps;
    } else {
      assert (stopped + more)[..|stopped + more| - 1] == stopped + more[..|more| - 1];
      NotTicking(steps, more[..|more| - 1]);
    }
  }
}
