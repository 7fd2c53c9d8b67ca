/**
 * HTTP request accounting across the main thread, the controller and the workers: where every
 * request is, from the moment it is dispatched. The workers are the tables and the phases of
 * `Cycle`; which responses they give is computed by their tasks.
 */
module Requests {
  import opened Seqs
  import opened Net
  import opened Tasks
  import opened Routing
  import opened Cycle
  import opened Replies

  const CHANNEL: nat := 100

  /**
   * The main thread (`next`, `holding` between the dispatch and the entry into `reqs`, `reqs`), the
   * controller (`count`, a channel per worker, the response channel of ids and statuses), for each
   * worker the request it has in hand and its tables, and the history: the requests issued, the
   * slots they were offered to, the responses given to clients and the ids given up.
   */
  datatype State = State(
    next: nat, holding: bool, reqs: set<nat>, count: nat,
    chans: seq<seq<Request>>, hands: seq<Option<Request>>, tables: seq<Tables>, resp: seq<(nat, nat)>,
    issued: seq<Request>, offers: seq<nat>, answered: seq<(nat, nat)>, dropped: seq<nat>)

  /** What else a worker does in its cycle. */
  datatype Part =
    | BusPart(evs: seq<BusEvent>, rss: seq<seq<Reaction>>)
    | TickPart(tickAt: Time, ticks: map<TaskId, Reaction>)
    | PopPart(order: seq<TaskId>, popAt: Time)
    | RemovalPart
    | UdpPart(ds: seq<Datagram>, local: SocketAddr)

  datatype Step =
    | Dispatch(req: Request, readable: bool, alive: bool)  // its body is read, then `Controller::input`; the worker may be gone
    | Record                               // `reqs.insert`
    | Take(w: nat)                         // a worker's `try_recv`
    | Handle(w: nat)                       // one turn of `process_http`
    | Work(w: nat, part: Part)             // another phase of the worker's cycle
    | Answer(delivered: bool)              // a response reaches the main thread; its client may be gone

  /** A failed `expect` or `unwrap`, or the remainder by a worker count of zero. */
  datatype Outcome = Ok(state: State) | Crash

  function Initial(workers: nat): State {
    State(0, false, {}, 0, seq(workers, _ => []), seq(workers, _ => None), seq(workers, _ => EMPTY), [], [], [], [], [])
  }

  /** `None` is a crash of the worker, which then does nothing any more. */
  function DoPart(s: Tables, part: Part): Option<Phase> {
    match part
    case BusPart(evs, rss) => (match BusAll(s, evs, rss) case None => None case Some(t) => Some(Phase([], t)))
    case TickPart(tickAt, ticks) => Some(Phase([], TickAll(s, tickAt, ticks)))
    case PopPart(order, popAt) => Some(PopAll(s, order, popAt))
    case RemovalPart => (match PopEnded(s) case None => None case Some(t) => Some(Phase([], t)))
    case UdpPart(ds, local) => UdpAll(s, ds, local)
  }

  predicate Enabled(s: State, step: Step) {
    match step
    case Dispatch(req, _, _) => !s.holding && req.reqId == s.next
    case Record => s.holding
    case Take(w) => w < |s.chans| && w < |s.hands| && s.chans[w] != [] && s.hands[w].None?
    // a bad offer is the end of the worker; the 404 waits for room in the response channel
    case Handle(w) =>
      w < |s.hands| && w < |s.tables| && s.hands[w].Some? && Builds(s.hands[w].value) && (RoleFor(s.hands[w].value.path).Some? || |s.resp| < CHANNEL)
    case Work(w, part) => w < |s.hands| && w < |s.tables| && s.hands[w].None? && DoPart(s.tables[w], part).Some?
    case Answer(_) => !s.holding && s.resp != []
  }

  function Send(s: State, req: Request, readable: bool, alive: bool): Outcome {
    if !readable || |s.chans| == 0 then Crash
    else
      var slot := s.count % |s.chans|;
      var t := s.(count := s.count + 1, holding := true, issued := s.issued + [req], offers := s.offers + [slot]);
      if alive && |s.chans[slot]| < CHANNEL
      then Ok(t.(chans := s.chans[slot := s.chans[slot] + [req]]))
      else Ok(t.(dropped := s.dropped + [req.reqId]))
  }

  /** Each response goes into the channel or, when that is full, is given up. */
  function Post(s: State, replies: seq<(nat, nat)>): State {
    if replies == [] then s
    else
      var t := Post(s, replies[..|replies| - 1]);
      var reply := replies[|replies| - 1];
      if |t.resp| < CHANNEL then t.(resp := t.resp + [reply]) else t.(dropped := t.dropped + [reply.0])
  }

  /** What a worker's phase comes to: new tables, and its responses posted. */
  function Done(s: State, w: nat, p: Phase): State
    requires w < |s.tables|
  {
    Post(s.(tables := s.tables[w := p.tables]), Collect(ToReply, p.outs))
  }

  function Finish(s: State, delivered: bool): Outcome
    requires s.resp != []
  {
    var reply := s.resp[0];
    if reply.0 !in s.reqs || !delivered then Crash
    else Ok(s.(resp := s.resp[1..], reqs := s.reqs - {reply.0}, answered := s.answered + [reply]))
  }

  function Next(s: State, step: Step): Outcome
    requires Enabled(s, step)
  {
    match step
    case Dispatch(req, readable, alive) => Send(s, req, readable, alive)
    case Record => Ok(s.(reqs := s.reqs + {s.next}, next := s.next + 1, holding := false))
    case Take(w) => Ok(s.(hands := s.hands[w := Some(s.chans[w][0])], chans := s.chans[w := s.chans[w][1..]]))
    case Handle(w) => Ok(Done(s.(hands := s.hands[w := None]), w, HttpOne(s.tables[w], s.hands[w].value)))
    case Work(w, part) => Ok(Done(s, w, DoPart(s.tables[w], part).value))
    case Answer(delivered) => Finish(s, delivered)
  }

  function Run(workers: nat, steps: seq<Step>): Option<State> {
    if steps == [] then Some(Initial(workers))
    else match Run(workers, steps[..|steps| - 1])
      case None => None
      case Some(s) =>
        if !Enabled(s, steps[|steps| - 1]) then None
        else match Next(s, steps[|steps| - 1]) case Crash => None case Ok(t) => Some(t)
  }

  // ----- the invariant -----

  function IdOf(r: Request): Option<nat> {
    Some(r.reqId)
  }

  function InHand(h: Option<Request>): Option<nat> {
    if h.Some? then Some(h.value.reqId) else None
  }

  function ReplyId(reply: (nat, nat)): Option<nat> {
    Some(reply.0)
  }

  function InChannels(chans: seq<seq<Request>>, x: nat): nat {
    if chans == [] then 0 else InChannels(chans[..|chans| - 1], x) + Tally(IdOf, chans[|chans| - 1], x)
  }

  /** In how many places request `x` is. */
  function Places(s: State, x: nat): nat {
    InChannels(s.chans, x) + Tally(InHand, s.hands, x) + Tally(ReplyId, s.resp, x) + Tally(ReplyId, s.answered, x) + Tally(Same, s.dropped, x)
  }

  function Issued(s: State): nat {
    if s.holding then s.next + 1 else s.next
  }

  /** The requests were offered to the workers in turn. */
  ghost predicate InTurn(offers: seq<nat>, workers: nat) {
    forall i :: 0 <= i < |offers| ==> workers > 0 && offers[i] == i % workers
  }

  ghost predicate Counted(s: State) {
    && (forall x: nat :: Places(s, x) == if x < Issued(s) then 1 else 0)
    && (forall x: nat :: x in s.reqs <==> x < s.next && Tally(ReplyId, s.answered, x) == 0)
    && (forall x: nat :: x >= s.next ==> Tally(ReplyId, s.answered, x) == 0)
    && s.count == Issued(s) == |s.offers| && InTurn(s.offers, |s.chans|)
    && |s.hands| == |s.chans|
  }

  /** The request is the one that was issued under its id. */
  predicate Known(issued: seq<Request>, req: Request) {
    req.reqId < |issued| && issued[req.reqId] == req
  }

  /** The response has the status that the request issued under its id should get. */
  predicate Right(issued: seq<Request>, reply: (nat, nat)) {
    reply.0 < |issued| && reply.1 == StatusOf(issued[reply.0])
  }

  ghost predicate Genuine(s: State) {
    && |s.issued| == Issued(s)
    && (forall w, i :: 0 <= w < |s.chans| && 0 <= i < |s.chans[w]| ==> Known(s.issued, s.chans[w][i]))
    && (forall w :: 0 <= w < |s.hands| && s.hands[w].Some? ==> Known(s.issued, s.hands[w].value))
    && (forall i :: 0 <= i < |s.resp| ==> Right(s.issued, s.resp[i]))
    && (forall i :: 0 <= i < |s.answered| ==> Right(s.issued, s.answered[i]))
  }

  /** No worker has a task with a response to give. */
  ghost predicate Quiet(s: State) {
    |s.tables| == |s.chans| && forall w :: 0 <= w < |s.tables| ==> NoReplyQueued(s.tables[w])
  }

  ghost predicate Inv(s: State) {
    Counted(s) && Genuine(s) && Quiet(s)
  }

  lemma {:induction false} ChannelUpdate(chans: seq<seq<Request>>, w: nat, c: seq<Request>, x: nat)
    requires w < |chans|
    ensures InChannels(chans[w := c], x) + Tally(IdOf, chans[w], x) == InChannels(chans, x) + Tally(IdOf, c, x)
  {
    var init := chans[..|chans| - 1];
    if w < |chans| - 1 {
      ChannelUpdate(init, w, c, x);
      assert chans[w := c][..|chans| - 1] == init[w := c];
    } else {
      assert chans[w := c][..|chans| - 1] == init;
    }
  }

  lemma {:induction false} NoRequests(n: nat, x: nat)
    ensures InChannels(seq(n, _ => []), x) == 0 && Tally(InHand, seq(n, _ => None), x) == 0
  {
    if n == 0 {
    } else {
      NoRequests(n - 1, x);
      var c: seq<seq<Request>> := seq(n, _ => []);
      var h: seq<Option<Request>> := seq(n, _ => None);
      assert c[..n - 1] == seq(n - 1, _ => []) && h[..n - 1] == seq(n - 1, _ => None);
    }
  }

  lemma InitialInv(workers: nat)
    ensures Inv(Initial(workers))
  {
    forall x: nat ensures Places(Initial(workers), x) == 0 {
      NoRequests(workers, x);
    }
  }

  lemma DispatchCounted(s: State, req: Request, alive: bool)
    requires Counted(s) && Enabled(s, Dispatch(req, true, alive)) && |s.chans| > 0
    ensures Send(s, req, true, alive).Ok? && Counted(Send(s, req, true, alive).state)
  {
    var t := Send(s, req, true, alive).state;
    var slot := s.count % |s.chans|;
    forall x: nat ensures Places(t, x) == Places(s, x) + if x == s.next then 1 else 0 {
      ChannelUpdate(s.chans, slot, s.chans[slot] + [req], x);
      TallyAppend(IdOf, s.chans[slot], req, x);
      TallyAppend(Same, s.dropped, req.reqId, x);
    }
  }

  lemma DispatchKeeps(s: State, req: Request, alive: bool)
    requires Inv(s) && Enabled(s, Dispatch(req, true, alive)) && |s.chans| > 0
    ensures Send(s, req, true, alive).Ok? && Inv(Send(s, req, true, alive).state)
  {
    DispatchCounted(s, req, alive);
    assert Genuine(Send(s, req, true, alive).state);
  }

  lemma TakeKeeps(s: State, w: nat)
    requires Inv(s) && Enabled(s, Take(w))
    ensures Inv(Next(s, Take(w)).state)
  {
    var t := Next(s, Take(w)).state;
    forall x: nat ensures Places(t, x) == Places(s, x) {
      ChannelUpdate(s.chans, w, s.chans[w][1..], x);
      TallyHead(IdOf, s.chans[w], x);
      TallyUpdate(InHand, s.hands, w, Some(s.chans[w][0]), x);
    }
    assert Genuine(t);
  }

  /** A worker that does not answer changes nothing but its tables. */
  lemma SilentKeeps(s: State, w: nat, p: Phase)
    requires Inv(s) && w < |s.tables| && Collect(ToReply, p.outs) == [] && NoReplyQueued(p.tables)
    ensures Done(s, w, p) == s.(tables := s.tables[w := p.tables]) && Inv(Done(s, w, p))
  {
    forall x: nat ensures Places(Done(s, w, p), x) == Places(s, x) {}
  }

  /** The worker has answered the request in its hand. */
  function Replied(s: State, w: nat, tables: Tables, reply: (nat, nat)): State
    requires w < |s.hands| && w < |s.tables|
  {
    var t := s.(hands := s.hands[w := None], tables := s.tables[w := tables]);
    if |s.resp| < CHANNEL then t.(resp := s.resp + [reply]) else t.(dropped := s.dropped + [reply.0])
  }

  lemma DoneOnce(s: State, w: nat, p: Phase, reply: (nat, nat))
    requires w < |s.hands| && w < |s.tables| && Collect(ToReply, p.outs) == [reply]
    ensures Done(s.(hands := s.hands[w := None]), w, p) == Replied(s, w, p.tables, reply)
  {
    var t := s.(hands := s.hands[w := None], tables := s.tables[w := p.tables]);
    assert [reply][..0] == [] && Post(t, []) == t;
  }

  /** Answering once moves the request on. */
  lemma RepliedCounted(s: State, w: nat, tables: Tables, reply: (nat, nat))
    requires Counted(s) && w < |s.hands| && w < |s.tables| && s.hands[w].Some? && reply.0 == s.hands[w].value.reqId
    ensures Counted(Replied(s, w, tables, reply))
  {
    var t := Replied(s, w, tables, reply);
    forall x: nat ensures Places(t, x) == Places(s, x) {
      TallyUpdate(InHand, s.hands, w, None, x);
      TallyAppend(ReplyId, s.resp, reply, x);
      TallyAppend(Same, s.dropped, reply.0, x);
    }
  }

  lemma RepliedGenuine(s: State, w: nat, tables: Tables, reply: (nat, nat))
    requires Genuine(s) && w < |s.hands| && w < |s.tables| && Right(s.issued, reply)
    ensures Genuine(Replied(s, w, tables, reply))
  {}

  lemma HandleKeeps(s: State, w: nat)
    requires Inv(s) && Enabled(s, Handle(w))
    ensures Inv(Next(s, Handle(w)).state)
  {
    var req := s.hands[w].value;
    HttpOneReplies(s.tables[w], req);
    HandleIs(s, w);
    assert Known(s.issued, req);
    RepliedKeeps(s, w, HttpOne(s.tables[w], req).tables, (req.reqId, StatusOf(req)));
  }

  /** Handling a request comes to replying to it once. */
  lemma HandleIs(s: State, w: nat)
    requires Enabled(s, Handle(w)) && NoReplyQueued(s.tables[w])
    ensures var req := s.hands[w].value;
            Next(s, Handle(w)) == Ok(Replied(s, w, HttpOne(s.tables[w], req).tables, (req.reqId, StatusOf(req))))
  {
    var req := s.hands[w].value;
    HttpOneReplies(s.tables[w], req);
    DoneOnce(s, w, HttpOne(s.tables[w], req), (req.reqId, StatusOf(req)));
  }

  lemma RepliedKeeps(s: State, w: nat, tables: Tables, reply: (nat, nat))
    requires Inv(s) && w < |s.hands| && s.hands[w].Some? && reply.0 == s.hands[w].value.reqId
    requires NoReplyQueued(tables) && Right(s.issued, reply)
    ensures Inv(Replied(s, w, tables, reply))
  {
    RepliedCounted(s, w, tables, reply);
    RepliedGenuine(s, w, tables, reply);
    RepliedQuiet(s, w, tables, reply);
  }

  lemma RepliedQuiet(s: State, w: nat, tables: Tables, reply: (nat, nat))
    requires Quiet(s) && w < |s.hands| && w < |s.tables| && NoReplyQueued(tables)
    ensures Quiet(Replied(s, w, tables, reply))
  {}

  /** The other phases answer nobody. */
  lemma PartQuiet(s: Tables, part: Part)
    requires NoReplyQueued(s) && DoPart(s, part).Some?
    ensures Collect(ToReply, DoPart(s, part).value.outs) == [] && NoReplyQueued(DoPart(s, part).value.tables)
  {
    match part
    case BusPart(evs, rss) => BusAllQuiet(s, evs, rss);
    case TickPart(tickAt, ticks) => TickAllQuiet(s, tickAt, ticks);
    case PopPart(order, popAt) => PopAllQuiet(s, order, popAt);
    case RemovalPart => RemoveAllQuiet(s.(ended := []), s.ended);
    case UdpPart(ds, local) => UdpAllQuiet(s, ds, local);
  }

  lemma WorkKeeps(s: State, w: nat, part: Part)
    requires Inv(s) && Enabled(s, Work(w, part))
    ensures Inv(Next(s, Work(w, part)).state)
  {
    PartQuiet(s.tables[w], part);
    SilentKeeps(s, w, DoPart(s.tables[w], part).value);
  }

  /** A response that reaches the main thread finds its request. */
  lemma AnswerKeeps(s: State)
    requires Inv(s) && Enabled(s, Answer(true))
    ensures s.resp[0].0 in s.reqs && Inv(Finish(s, true).state)
  {
    var id: nat := s.resp[0].0;
    TallyAt(ReplyId, s.resp, 0);
    assert Places(s, id) == if id < Issued(s) then 1 else 0;
    assert id in s.reqs;
    FinishCounted(s);
    assert Genuine(Finish(s, true).state);
  }

  lemma FinishCounted(s: State)
    requires Counted(s) && !s.holding && s.resp != [] && Finish(s, true).Ok?
    ensures Counted(Finish(s, true).state)
  {
    var id: nat := s.resp[0].0;
    var t := Finish(s, true).state;
    forall x: nat
      ensures Places(t, x) == Places(s, x)
      ensures Tally(ReplyId, t.answered, x) == Tally(ReplyId, s.answered, x) + if x == id then 1 else 0
    {
      TallyHead(ReplyId, s.resp, x);
      TallyAppend(ReplyId, s.answered, s.resp[0], x);
    }
    TallyAt(ReplyId, s.resp, 0);
    assert Places(s, id) == if id < Issued(s) then 1 else 0;
  }

  lemma RecordKeeps(s: State)
    requires Inv(s) && s.holding
    ensures Inv(Next(s, Record).state)
  {
    var t := Next(s, Record).state;
    forall x: nat ensures Places(t, x) == Places(s, x) {}
    forall x: nat ensures x in t.reqs <==> x < t.next && Tally(ReplyId, t.answered, x) == 0 {
      assert Places(s, x) == if x < Issued(s) then 1 else 0;
    }
    assert Genuine(t);
  }

  /** The client does its part: its request can be read, and it is there for its response. */
  predicate Smooth(step: Step) {
    match step
    case Dispatch(_, readable, _) => readable
    case Answer(delivered) => delivered
    case _ => true
  }

  lemma StepKeeps(s: State, step: Step)
    requires Inv(s) && Enabled(s, step) && |s.chans| > 0
    ensures Next(s, step).Ok? <==> Smooth(step)
    ensures Next(s, step).Ok? ==> Inv(Next(s, step).state)
  {
    match step
    case Dispatch(req, _, alive) => DispatchKeeps(s, req, alive);
    case Record => RecordKeeps(s);
    case Take(w) => TakeKeeps(s, w);
    case Handle(w) => HandleKeeps(s, w);
    case Work(w, part) => WorkKeeps(s, w, part);
    case Answer(_) => AnswerKeeps(s);
  }

  lemma {:induction false} PostSame(s: State, replies: seq<(nat, nat)>)
    ensures var t := Post(s, replies);
            && t.chans == s.chans && s.dropped <= t.dropped && t.issued == s.issued
            && t.hands == s.hands && t.answered == s.answered && t.reqs == s.reqs && t.next == s.next
  {
    if replies == [] {
    } else {
      PostSame(s, replies[..|replies| - 1]);
    }
  }

  lemma StepSame(s: State, step: Step)
    requires Enabled(s, step) && Next(s, step).Ok?
    ensures var t := Next(s, step).state; |t.chans| == |s.chans| && s.dropped <= t.dropped && s.issued <= t.issued
  {
    match step
    case Handle(w) =>
      var p := HttpOne(s.tables[w], s.hands[w].value);
      PostSame(s.(hands := s.hands[w := None], tables := s.tables[w := p.tables]), Collect(ToReply, p.outs));
    case Work(w, part) =>
      var p := DoPart(s.tables[w], part).value;
      PostSame(s.(tables := s.tables[w := p.tables]), Collect(ToReply, p.outs));
    case _ =>
  }

  lemma {:induction false} RunKeeps(workers: nat, steps: seq<Step>)
    requires workers > 0
    ensures Run(workers, steps).Some? ==> Inv(Run(workers, steps).value) && |Run(workers, steps).value.chans| == workers
  {
    if steps == [] {
      InitialInv(workers);
    } else if Run(workers, steps).Some? {
      RunKeeps(workers, steps[..|steps| - 1]);
      StepKeeps(Run(workers, steps[..|steps| - 1]).value, steps[|steps| - 1]);
      StepSame(Run(workers, steps[..|steps| - 1]).value, steps[|steps| - 1]);
    }
  }

  // ----- what callers see -----

  /**
   * Conservation: in every run every request id handed out is in exactly one place (a worker's
   * channel, a worker's hand, the response channel, answered, given up), and no other id is anywhere.
   */
  lemma Conservation(workers: nat, steps: seq<Step>, x: nat)
    requires workers > 0 && Run(workers, steps).Some?
    ensures var s := Run(workers, steps).value;
            InChannels(s.chans, x) + Tally(InHand, s.hands, x) + Tally(ReplyId, s.resp, x) + Tally(ReplyId, s.answered, x) + Tally(Same, s.dropped, x)
            == if x < Issued(s) then 1 else 0
  {
    RunKeeps(workers, steps);
    assert Places(Run(workers, steps).value, x) == if x < Issued(Run(workers, steps).value) then 1 else 0;
  }

  /** Every response a client gets is for a request that was made, and its status is right for that request's path. */
  lemma RightAnswers(workers: nat, steps: seq<Step>, i: nat)
    requires workers > 0 && Run(workers, steps).Some? && i < |Run(workers, steps).value.answered|
    ensures var s := Run(workers, steps).value; var (id, status) := s.answered[i];
            && id < |s.issued| && s.issued[id].reqId == id
            && status == if s.issued[id].path == WHIP_PATH || s.issued[id].path == WHEP_PATH then 200 else 404
  {
    RunKeeps(workers, steps);
    var s := Run(workers, steps).value;
    assert Right(s.issued, s.answered[i]);
    IssuedInOrder(workers, steps, s.answered[i].0);
  }

  lemma {:induction false} IssuedInOrder(workers: nat, steps: seq<Step>, id: nat)
    requires workers > 0 && Run(workers, steps).Some? && id < |Run(workers, steps).value.issued|
    ensures Run(workers, steps).value.issued[id].reqId == id
  {
    if steps == [] {
    } else {
      var s, step := Run(workers, steps[..|steps| - 1]).value, steps[|steps| - 1];
      RunKeeps(workers, steps[..|steps| - 1]);
      StepSame(s, step);
      StepIssues(s, step);
      if id < |s.issued| { IssuedInOrder(workers, steps[..|steps| - 1], id); }
    }
  }

  lemma StepIssues(s: State, step: Step)
    requires Enabled(s, step) && Next(s, step).Ok?
    ensures Next(s, step).state.issued == s.issued + if step.Dispatch? then [step.req] else []
  {
    match step
    case Handle(w) =>
      var p := HttpOne(s.tables[w], s.hands[w].value);
      PostSame(s.(hands := s.hands[w := None], tables := s.tables[w := p.tables]), Collect(ToReply, p.outs));
    case Work(w, part) =>
      var p := DoPart(s.tables[w], part).value;
      PostSame(s.(tables := s.tables[w := p.tables]), Collect(ToReply, p.outs));
    case _ =>
  }

  /** Without workers nothing happens before the first request, which is the end. */
  lemma {:induction false} NoWorkersIdle(steps: seq<Step>)
    requires Run(0, steps).Some?
    ensures steps == []
  {
    if steps == [] {
    } else {
      NoWorkersIdle(steps[..|steps| - 1]);
    }
  }

  /**
   * The front end crashes in exactly three ways: a request arrives and there are no workers, its body
   * cannot be read, or the client of a response is gone. In particular the `expect` on the request
   * table always holds, although workers may reply before the request is recorded.
   */
  lemma CrashesExactly(workers: nat, steps: seq<Step>, step: Step)
    requires Run(workers, steps).Some? && Enabled(Run(workers, steps).value, step)
    ensures Next(Run(workers, steps).value, step).Crash? <==> (step.Dispatch? && workers == 0) || !Smooth(step)
    ensures step.Answer? ==> Run(workers, steps).value.resp[0].0 in Run(workers, steps).value.reqs
  {
    if workers == 0 {
      NoWorkersIdle(steps);
    } else {
      RunKeeps(workers, steps);
      StepKeeps(Run(workers, steps).value, step);
      if step.Answer? { AnswerKeeps(Run(workers, steps).value); }
    }
  }

  /** The requests still open are those not answered; one given up stays open and is never answered. */
  lemma {:induction false} DroppedStaysOpen(workers: nat, steps: seq<Step>, more: seq<Step>, x: nat)
    requires workers > 0 && Run(workers, steps + more).Some? && Run(workers, steps).Some?
    requires x in Run(workers, steps).value.dropped
    ensures var s := Run(workers, steps + more).value;
            x in s.dropped && (forall i :: 0 <= i < |s.answered| ==> s.answered[i].0 != x) && (x < s.next ==> x in s.reqs)
    decreases |more|
  {
    if more == [] {
      assert steps + more == steps;
    } else {
      var init := more[..|more| - 1];
      assert (steps + more)[..|steps + more| - 1] == steps + init;
      DroppedStaysOpen(workers, steps, init, x);
      StepSame(Run(workers, steps + init).value, more[|more| - 1]);
    }
    RunKeeps(workers, steps + more);
    DroppedOpen(Run(workers, steps + more).value, x);
  }

  lemma DroppedOpen(s: State, x: nat)
    requires Inv(s) && x in s.dropped
    ensures (forall i :: 0 <= i < |s.answered| ==> s.answered[i].0 != x) && (x < s.next ==> x in s.reqs)
  {
    var i :| 0 <= i < |s.dropped| && s.dropped[i] == x;
    TallyAt(Same, s.dropped, i);
    assert Places(s, x) == if x < Issued(s) then 1 else 0;
    if j :| 0 <= j < |s.answered| && s.answered[j].0 == x {
      TallyAt(ReplyId, s.answered, j);
      assert false;
    }
  }

  /** How many of the first `n` requests went to worker `i` of `k`. */
  function Share(n: nat, k: nat, i: nat): nat
    requires k > 0
  {
    if n == 0 then 0 else Share(n - 1, k, i) + if (n - 1) % k == i then 1 else 0
  }

  lemma {:induction false} ShareIs(n: nat, k: nat, i: nat)
    requires k > 0 && i < k
    ensures Share(n, k, i) == n / k + if i < n % k then 1 else 0
  {
    if n == 0 {
    } else {
      ShareIs(n - 1, k, i);
      DivStep(n - 1, k);
    }
  }

  lemma DivStep(n: nat, k: nat)
    requires k > 0
    ensures n % k + 1 < k ==> (n + 1) / k == n / k && (n + 1) % k == n % k + 1
    ensures n % k + 1 == k ==> (n + 1) / k == n / k + 1 && (n + 1) % k == 0
  {
    var q, r := n / k, n % k;
    assert n + 1 == q * k + (r + 1);
    if r + 1 == k {
      assert n + 1 == (q + 1) * k;
      DivUnique(n + 1, k, q + 1, 0);
    } else {
      DivUnique(n + 1, k, q, r + 1);
    }
  }

  lemma AtLeast(d: int, k: nat)
    requires d >= 1
    ensures d * k >= k
  {
    assert d * k == (d - 1) * k + k;
  }

  lemma DivUnique(n: nat, k: nat, q: nat, r: nat)
    requires k > 0 && n == q * k + r && r < k
    ensures n / k == q && n % k == r
  {
    var q', r' := n / k, n % k;
    assert n == q' * k + r' && r' < k;
    SameQuotient(k, q, r, q', r');
  }

  lemma SameQuotient(k: nat, q: nat, r: nat, q': nat, r': nat)
    requires q * k + r == q' * k + r' && r < k && r' < k
    ensures q == q' && r == r'
  {
    assert (q - q') * k == r' - r && (q' - q) * k == r - r';
    if q > q' {
      AtLeast(q - q', k);
    } else if q < q' {
      AtLeast(q' - q, k);
    }
  }

  lemma {:induction false} OfferedShare(offers: seq<nat>, k: nat, i: nat)
    requires k > 0 && InTurn(offers, k)
    ensures Tally(Same, offers, i) == Share(|offers|, k, i)
  {
    if offers == [] {
    } else {
      OfferedShare(offers[..|offers| - 1], k, i);
    }
  }

  /**
   * Round robin: after n dispatches each of k workers has been offered n/k requests, the first n%k of
   * them one more, whether or not the offers were taken; so no two differ by more than one.
   */
  lemma RoundRobin(workers: nat, steps: seq<Step>, i: nat, j: nat)
    requires workers > 0 && Run(workers, steps).Some? && i < workers && j < workers
    ensures var s := Run(workers, steps).value;
            && Tally(Same, s.offers, i) == Issued(s) / workers + (if i < Issued(s) % workers then 1 else 0)
            && Tally(Same, s.offers, i) <= Tally(Same, s.offers, j) + 1
  {
    RunKeeps(workers, steps);
    var s := Run(workers, steps).value;
    OfferedShare(s.offers, workers, i);
    OfferedShare(s.offers, workers, j);
    ShareIs(|s.offers|, workers, i);
    ShareIs(|s.offers|, workers, j);
  }

  // ----- the main thread and the controller -----

  /** All responses that are there reach the main thread, whose clients may be gone. */
  function AnswerAll(s: State, delivered: seq<bool>): Outcome
    requires |delivered| == |s.resp|
    decreases |s.resp|
  {
    if s.resp == [] then Ok(s)
    else match Finish(s, delivered[0]) case Crash => Crash case Ok(t) => AnswerAll(t, delivered[1..])
  }

  lemma {:induction false} AnswerAllKeeps(s: State, delivered: seq<bool>)
    requires Inv(s) && !s.holding && |delivered| == |s.resp|
    ensures AnswerAll(s, delivered).Ok? <==> false !in delivered
    ensures AnswerAll(s, delivered).Ok? ==>
              var t := AnswerAll(s, delivered).state; Inv(t) && t.resp == [] && t.answered == s.answered + s.resp
    decreases |s.resp|
  {
    if s.resp != [] {
      AnswerKeeps(s);
      assert delivered == [delivered[0]] + delivered[1..];
      if delivered[0] {
        AnswerAllKeeps(Finish(s, true).state, delivered[1..]);
        assert s.answered + [s.resp[0]] + s.resp[1..] == s.answered + s.resp;
      }
    } else {
      assert s.answered + [] == s.answered;
    }
  }

  class Controller {
    var count: nat
    var slots: seq<seq<Request>>
    var workerRecv: seq<(nat, nat)>

    constructor (workers: nat)
      ensures count == 0 && slots == seq(workers, _ => []) && workerRecv == []
    {
      count, slots, workerRecv := 0, seq(workers, _ => []), [];
    }

    /** Offers the request to the next worker in turn; a full channel or a worker that is gone loses it. */
    method Input(req: Request, alive: bool) returns (sent: bool)
      requires |slots| > 0
      modifies this`count, this`slots
      ensures count == old(count) + 1
      ensures var i := old(count) % |old(slots)|;
              && (sent <==> alive && |old(slots)[i]| < CHANNEL)
              && slots == if sent then old(slots)[i := old(slots)[i] + [req]] else old(slots)
    {
      var slotIndex := count % |slots|;
      sent := false;
      if alive && |slots[slotIndex]| < CHANNEL {
        slots := slots[slotIndex := slots[slotIndex] + [req]];
        sent := true;
      }
      count := count + 1;
    }

    method PopAction() returns (res: Option<(nat, nat)>)
      modifies this`workerRecv
      ensures if old(workerRecv) == [] then res.None? && workerRecv == []
              else res == Some(old(workerRecv)[0]) && workerRecv == old(workerRecv)[1..]
    {
      if workerRecv == [] {
        return None;
      }
      res := Some(workerRecv[0]);
      workerRecv := workerRecv[1..];
    }
  }

  /** The request table and the dispatch and response loop of `main`. */
  class FrontEnd {
    const controller: Controller
    var reqId: nat
    var reqs: set<nat>
    ghost var holding: bool
    ghost var hands: seq<Option<Request>>
    ghost var tables: seq<Tables>
    ghost var issued: seq<Request>
    ghost var offers: seq<nat>
    ghost var answered: seq<(nat, nat)>
    ghost var dropped: seq<nat>

    ghost function View(): State
      reads this, controller
    {
      State(reqId, holding, reqs, controller.count, controller.slots, hands, tables, controller.workerRecv, issued, offers, answered, dropped)
    }

    constructor (workers: nat)
      ensures View() == Initial(workers) && fresh(controller)
    {
      controller := new Controller(workers);
      reqId, reqs, holding := 0, {}, false;
      hands, tables := seq(workers, _ => None), seq(workers, _ => EMPTY);
      issued, offers, answered, dropped := [], [], [], [];
    }

    /** Gives an incoming request the next id, dispatches it and records it; false is a crash. */
    method HandleRequest(incoming: Request, readable: bool, alive: bool) returns (ok: bool)
      requires !holding
      modifies this, controller
      ensures match Send(old(View()), incoming.(reqId := old(reqId)), readable, alive)
              case Crash => !ok
              case Ok(t) => ok && Enabled(t, Record) && Next(t, Record) == Ok(View())
    {
      if !readable || |controller.slots| == 0 {
        return false;
      }
      Admit(incoming.(reqId := reqId), alive);
      return true;
    }

    method Admit(req: Request, alive: bool)
      requires !holding && req.reqId == reqId && |controller.slots| > 0
      modifies this, controller
      ensures var t := Send(old(View()), req, true, alive); t.Ok? && Enabled(t.state, Record) && Next(t.state, Record) == Ok(View())
    {
      Offer(req, alive);
      reqs := reqs + {reqId};
      reqId := reqId + 1;
      holding := false;
    }

    /** The request goes to the controller. */
    method Offer(req: Request, alive: bool)
      requires req.reqId == reqId && |controller.slots| > 0
      modifies this`issued, this`offers, this`dropped, this`holding, controller`count, controller`slots
      ensures Send(old(View()), req, true, alive) == Ok(View()) && holding
    {
      issued, offers := issued + [req], offers + [controller.count % |controller.slots|];
      var sent := controller.Input(req, alive);
      if !sent {
        dropped := dropped + [reqId];
      }
      holding := true;
    }

    /** The state while one response is out of the channel and not answered yet. */
    ghost function Holding(action: Option<(nat, nat)>): State
      reads this, controller
    {
      View().(resp := OptionToSeq(action) + controller.workerRecv)
    }

    /** Answers every response that is there, in order; each finds its request. False when a client is gone. */
    method Respond(delivered: seq<bool>) returns (ok: bool)
      requires !holding && Inv(View()) && |delivered| == |controller.workerRecv|
      modifies this`reqs, this`answered, controller`workerRecv
      ensures match AnswerAll(old(View()), delivered) case Crash => !ok case Ok(t) => ok && View() == t && Inv(t)
      ensures ok <==> false !in delivered
      ensures ok ==> controller.workerRecv == [] && answered == old(answered) + old(controller.workerRecv)
    {
      AnswerAllKeeps(View(), delivered);
      ghost var s := View();
      TiedAtFirst(s, delivered);
      var action := NextAction();
      var n := 0;
      while action.Some?
        invariant action.None? ==> controller.workerRecv == []
        invariant |OptionToSeq(action)| + |controller.workerRecv| + n == |delivered|
        invariant Tied(s, Holding(action), delivered, n)
        decreases |controller.workerRecv| + if action.Some? then 1 else 0
      {
        TiedMore(s, Holding(action), delivered, n);
        if !delivered[n] {
          return false;
        }
        AnswerOne(action.value);
        action := NextAction();
        n := n + 1;
      }
      TiedAtLast(s, View(), delivered, n);
      return true;
    }

    method NextAction() returns (action: Option<(nat, nat)>)
      modifies controller`workerRecv
      ensures Holding(action) == old(View()) && (action.None? ==> controller.workerRecv == [])
      ensures |controller.workerRecv| + |OptionToSeq(action)| == old(|controller.workerRecv|)
    {
      action := controller.PopAction();
      assert OptionToSeq(action) + controller.workerRecv == old(controller.workerRecv);
    }

    /** Takes the request out of the table and gives the client its response. */
    method AnswerOne(reply: (nat, nat))
      requires reply.0 in reqs
      modifies this`reqs, this`answered
      ensures Finish(old(Holding(Some(reply))), true) == Ok(View())
    {
      reqs := reqs - {reply.0};
      answered := answered + [reply];
      assert ([reply] + controller.workerRecv)[1..] == controller.workerRecv;
    }
  }

  /** Answering everything from `s` comes to answering the rest from `t`, and that meets no missing request. */
  ghost predicate Tied(s: State, t: State, delivered: seq<bool>, n: nat) {
    && |delivered| == |s.resp| && n <= |delivered| && |t.resp| == |delivered| - n
    && Inv(t) && !t.holding && AnswerAll(s, delivered) == AnswerAll(t, delivered[n..])
  }

  lemma TiedAtFirst(s: State, delivered: seq<bool>)
    requires Inv(s) && !s.holding && |delivered| == |s.resp|
    ensures Tied(s, s, delivered, 0)
  {
    assert delivered[0..] == delivered;
  }

  lemma TiedAtLast(s: State, t: State, delivered: seq<bool>, n: nat)
    requires Tied(s, t, delivered, n) && t.resp == []
    ensures AnswerAll(s, delivered) == Ok(t) && Inv(t)
  {}

  lemma TiedMore(s: State, t: State, delivered: seq<bool>, n: nat)
    requires Tied(s, t, delivered, n) && t.resp != []
    ensures t.resp[0].0 in t.reqs
    ensures if delivered[n] then Finish(t, true).Ok? && Tied(s, Finish(t, true).state, delivered, n + 1) else AnswerAll(s, delivered).Crash?
  {
    AnswerKeeps(t);
    assert delivered[n..][1..] == delivered[n + 1..];
  }
}
