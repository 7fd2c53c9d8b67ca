/** In which order requests reach the workers, and when one is given up. */
module RequestOrder {
  import opened Seqs
  import opened Net
  import opened Tasks
  import opened Routing
  import opened Cycle
  import opened Replies
  import opened Requests

  /** What a worker has still to handle: the request in its hand, then those in its channel. */
  function Line(s: State, w: nat): seq<Request>
    requires w < |s.chans| && w < |s.hands|
  {
    OptionToSeq(s.hands[w]) + s.chans[w]
  }

  /** The request has been issued and is for worker `w` of `k`. */
  predicate Assigned(req: Request, w: nat, k: nat, issued: nat) {
    k > 0 && req.reqId < issued && req.reqId % k == w
  }

  /** The requests in line are those of worker `w` of `k`, oldest first. */
  ghost predicate InLine(line: seq<Request>, w: nat, k: nat, issued: nat) {
    && (forall i :: 0 <= i < |line| ==> Assigned(line[i], w, k, issued))
    && (forall i, j :: 0 <= i < j < |line| ==> line[i].reqId < line[j].reqId)
  }

  ghost predicate Lined(s: State) {
    |s.hands| == |s.chans| && forall w :: 0 <= w < |s.chans| ==> InLine(Line(s, w), w, |s.chans|, Issued(s))
  }

  lemma DispatchLined(s: State, req: Request, alive: bool)
    requires Inv(s) && Lined(s) && Enabled(s, Dispatch(req, true, alive)) && |s.chans| > 0
    ensures Lined(Next(s, Dispatch(req, true, alive)).state)
  {
    var t := Send(s, req, true, alive).state;
    var slot := s.count % |s.chans|;
    forall w | 0 <= w < |t.chans| ensures InLine(Line(t, w), w, |t.chans|, Issued(t)) {
      assert InLine(Line(s, w), w, |s.chans|, Issued(s));
      assert t.chans[w] != s.chans[w] ==> w == slot && Line(t, w) == Line(s, w) + [req];
    }
  }

  lemma SameLines(s: State, t: State)
    requires Lined(s) && t.chans == s.chans && t.hands == s.hands && Issued(t) == Issued(s)
    ensures Lined(t)
  {
    forall w | 0 <= w < |t.chans| ensures InLine(Line(t, w), w, |t.chans|, Issued(t)) {
      assert InLine(Line(s, w), w, |s.chans|, Issued(s));
    }
  }

  lemma TakeLined(s: State, w: nat)
    requires Lined(s) && Enabled(s, Take(w))
    ensures Lined(Next(s, Take(w)).state)
  {
    var t := Next(s, Take(w)).state;
    forall v | 0 <= v < |t.chans| ensures InLine(Line(t, v), v, |t.chans|, Issued(t)) {
      assert InLine(Line(s, v), v, |s.chans|, Issued(s));
      assert Line(t, v) == Line(s, v);
    }
  }

  lemma HandleLined(s: State, w: nat)
    requires Lined(s) && Enabled(s, Handle(w))
    ensures Lined(Next(s, Handle(w)).state)
  {
    HandleFrame(s, w);
    HandEmptied(s, Next(s, Handle(w)).state, w);
  }

  lemma HandleFrame(s: State, w: nat)
    requires Enabled(s, Handle(w))
    ensures var t := Next(s, Handle(w)).state;
            t.chans == s.chans && t.hands == s.hands[w := None] && t.holding == s.holding && t.next == s.next
  {
    var p := HttpOne(s.tables[w], s.hands[w].value);
    PostSame(s.(hands := s.hands[w := None], tables := s.tables[w := p.tables]), Collect(ToReply, p.outs));
    PostHolds(s.(hands := s.hands[w := None], tables := s.tables[w := p.tables]), Collect(ToReply, p.outs));
  }

  lemma HandEmptied(s: State, t: State, w: nat)
    requires Lined(s) && w < |s.hands| && s.hands[w].Some?
    requires t.chans == s.chans && t.hands == s.hands[w := None] && Issued(t) == Issued(s)
    ensures Lined(t)
  {
    forall v | 0 <= v < |t.chans| ensures InLine(Line(t, v), v, |t.chans|, Issued(t)) {
      assert InLine(Line(s, v), v, |s.chans|, Issued(s));
      if v == w {
        assert Line(t, v) == Line(s, v)[1..];
        LaterInLine(Line(s, v), v, |s.chans|, Issued(s));
      } else {
        assert Line(t, v) == Line(s, v);
      }
    }
  }

  lemma LaterInLine(line: seq<Request>, w: nat, k: nat, issued: nat)
    requires InLine(line, w, k, issued) && line != []
    ensures InLine(line[1..], w, k, issued)
  {
    forall i | 0 <= i < |line[1..]| ensures Assigned(line[1..][i], w, k, issued) {
      assert Assigned(line[i + 1], w, k, issued);
    }
  }

  lemma {:induction false} PostHolds(s: State, replies: seq<(nat, nat)>)
    ensures Post(s, replies).holding == s.holding
  {
    if replies == [] {
    } else {
      PostHolds(s, replies[..|replies| - 1]);
    }
  }

  lemma WorkLined(s: State, w: nat, part: Part)
    requires Lined(s) && Enabled(s, Work(w, part))
    ensures Lined(Next(s, Work(w, part)).state)
  {
    var p := DoPart(s.tables[w], part).value;
    PostSame(s.(tables := s.tables[w := p.tables]), Collect(ToReply, p.outs));
    PostHolds(s.(tables := s.tables[w := p.tables]), Collect(ToReply, p.outs));
    SameLines(s, Next(s, Work(w, part)).state);
  }

  lemma StepLined(s: State, step: Step)
    requires Inv(s) && Lined(s) && Enabled(s, step) && Next(s, step).Ok? && |s.chans| > 0
    ensures Lined(Next(s, step).state)
  {
    match step
    case Dispatch(req, _, alive) => DispatchLined(s, req, alive);
    case Record => SameLines(s, Next(s, Record).state);
    case Take(w) => TakeLined(s, w);
    case Handle(w) => HandleLined(s, w);
    case Work(w, part) => WorkLined(s, w, part);
    case Answer(delivered) => SameLines(s, Next(s, step).state);
  }

  /**
   * In every run request number n is only ever in line at worker n modulo the number of workers, and
   * every worker handles its requests in the order they were made.
   */
  lemma {:induction false} RunLined(workers: nat, steps: seq<Step>)
    requires workers > 0 && Run(workers, steps).Some?
    ensures |Run(workers, steps).value.chans| == workers && Lined(Run(workers, steps).value)
  {
    if steps == [] {
    } else {
      var init := steps[..|steps| - 1];
      RunKeeps(workers, init);
      RunLined(workers, init);
      StepLined(Run(workers, init).value, steps[|steps| - 1]);
      StepSame(Run(workers, init).value, steps[|steps| - 1]);
    }
  }

  // ----- giving up -----

  /** The channel of the worker in turn is full or its worker gone, or a response finds its channel full. */
  predicate GivesUp(s: State, step: Step) {
    match step
    case Dispatch(req, _, alive) => |s.chans| > 0 && (!alive || |s.chans[req.reqId % |s.chans|]| >= 100)
    case Handle(_) => |s.resp| >= 100
    case _ => false
  }

  /** The one request that a step may give up. */
  function Concerned(s: State, step: Step): nat
    requires Enabled(s, step)
  {
    match step
    case Dispatch(req, _, _) => req.reqId
    case Handle(w) => s.hands[w].value.reqId
    case _ => 0
  }

  /**
   * A request is given up exactly when its worker's channel is full or its worker gone, or when its
   * response finds a hundred others; otherwise responses are answered in the order they were given.
   */
  lemma DropsExactly(s: State, step: Step)
    requires Inv(s) && Enabled(s, step) && Next(s, step).Ok?
    ensures Next(s, step).state.dropped == s.dropped + if GivesUp(s, step) then [Concerned(s, step)] else []
    ensures step.Handle? && !GivesUp(s, step) ==>
              Next(s, step).state.resp == s.resp + [(Concerned(s, step), StatusOf(s.hands[step.w].value))]
    ensures step.Answer? ==> [Next(s, step).state.answered[|s.answered|]] + Next(s, step).state.resp == s.resp
    ensures !step.Handle? && !step.Answer? ==> Next(s, step).state.resp == s.resp
  {
    match step
    case Dispatch(req, _, alive) =>
    case Handle(w) => HandleIs(s, w);
    case Work(w, part) =>
      PartQuiet(s.tables[w], part);
      SilentKeeps(s, w, DoPart(s.tables[w], part).value);
    case _ =>
  }
}
