/**
 The replayer can always finish (pkg/replayer/replayer_impl.go): from every state that a run can reach,
 once the queue is closed, steps of the dispatcher and the workers alone lead to its return, with the
 executor returning. There is a measure that a step of theirs decreases in every such state.
 */
module Progress {
  import opened Core
  import Codec
  import Fifo
  import opened Replay

  /** A step of the dispatcher or a worker. */
  predicate OwnStep(a: Step) { !a.Produce? && !a.CloseQueue? && !a.Cancel? }

  // ----- The measure -----------------------------------------------------------------------------

  function WorkerWeight(w: Worker): nat {
    match w case Holding(_) => 4 case Executing(_) => 3 case Idle => 1 case Retired(_) => 0
  }

  function LaneWeight(l: Lane): nat { 4 * |l.buf| + WorkerWeight(l.worker) }

  function LanesWeight(lanes: seq<Lane>): nat {
    if lanes == [] then 0 else LanesWeight(lanes[..|lanes| - 1]) + LaneWeight(lanes[|lanes| - 1])
  }

  /** An event in the dispatcher's hand weighs more while its lane has still to be opened. */
  function HandWeight(cfg: Config, s: State): nat {
    if !s.dispatcher.Got? then 0
    else if FindLane(s.lanes, LaneKey(cfg, s.dispatcher.ev)) == |s.lanes| then 7 else 5
  }

  /** The work left: every event weighs less from stage to stage. */
  function Work(cfg: Config, s: State): nat {
    8 * |s.queue.items| + HandWeight(cfg, s) + LanesWeight(s.lanes)
  }

  /** The sum the dispatcher is heading for. */
  function Heading(s: State): int
    requires s.dispatcher.Summing?
  {
    s.dispatcher.sum + Buffered(s.lanes, {}) - Buffered(s.lanes, s.dispatcher.todo)
  }

  /** How far the dispatcher is from its next event or its end, while no work is done. */
  function Rank(cfg: Config, s: State): nat {
    var n := |s.lanes|;
    match s.dispatcher
    case Done => 0
    case Closing(todo) => 1 + |todo|
    case Got(_) => 0
    case Ready => n + 2
    case Waiting => 2 * n + 4
    case Summing(todo, _) => if Heading(s) < cfg.maxDepth then n + 3 + |todo| else 2 * n + 5 + |todo|
  }

  predicate Less(cfg: Config, t: State, s: State) {
    Work(cfg, t) < Work(cfg, s) || (Work(cfg, t) == Work(cfg, s) && Rank(cfg, t) < Rank(cfg, s))
  }

  // ----- The dispatcher's lists ------------------------------------------------------------------

  /** The dispatcher's lists name lanes, and a lane it does not have to close any more is closed. */
  predicate Listed(s: State) {
    match s.dispatcher
    case Summing(todo, _) => forall i :: i in todo ==> i < |s.lanes|
    case Closing(todo) =>
      && (forall i :: i in todo ==> i < |s.lanes|)
      && (forall i: nat :: i < |s.lanes| ==> i in todo || s.lanes[i].closed)
    case _ => true
  }

  lemma StepKeepsListed(cfg: Config, s: State, a: Step)
    requires Enabled(cfg, s, a) && Listed(s)
    ensures Listed(Next(cfg, s, a))
  {
    hide Fetched, QueueStep;
    if a.Fetch? { FetchCases(cfg, s); }
  }

  lemma {:induction false} RunKeepsListed(cfg: Config, s: State, steps: seq<Step>)
    requires CanRun(cfg, s, steps) && Listed(s)
    ensures Listed(Run(cfg, s, steps))
    decreases |steps|
  {
    hide Next, Enabled, Listed;
    if steps != [] {
      StepKeepsListed(cfg, s, steps[0]);
      RunKeepsListed(cfg, Next(cfg, s, steps[0]), steps[1..]);
    }
  }

  // ----- Workers -----------------------------------------------------------------------------------

  lemma {:induction false} WeightUpdate(lanes: seq<Lane>, i: nat, l: Lane)
    requires i < |lanes|
    ensures LanesWeight(lanes[i := l]) == LanesWeight(lanes) - LaneWeight(lanes[i]) + LaneWeight(l)
  {
    var n := |lanes| - 1;
    if i < n {
      WeightUpdate(lanes[..n], i, l);
      assert lanes[i := l][..n] == lanes[..n][i := l];
    } else {
      assert lanes[i := l][..n] == lanes[..n];
    }
  }

  lemma SameFind(lanes: seq<Lane>, i: nat, l: Lane, key: string)
    requires i < |lanes| && l.key == lanes[i].key
    ensures FindLane(lanes[i := l], key) == FindLane(lanes, key)
  {
    assert forall j :: 0 <= j < |lanes| ==> lanes[i := l][j].key == lanes[j].key;
  }

  /** Every step of a worker does work. */
  lemma WorkerWorks(cfg: Config, s: State, a: Step)
    requires WorkerStep(a) && WorkerEnabled(cfg, s, a) && OwnLane(cfg, s.lanes[a.lane])
    ensures Work(cfg, WorkerNext(cfg, s, a)) < Work(cfg, s)
  {
    hide LanesWeight, FindLane, OwnLane;
    var l := s.lanes[a.lane];
    var m := Moved(a, l);
    MovedLane(cfg, s, a);
    WeightUpdate(s.lanes, a.lane, m);
    if s.dispatcher.Got? { SameFind(s.lanes, a.lane, m, LaneKey(cfg, s.dispatcher.ev)); }
    MovedLess(cfg, s, a);
  }

  lemma MovedLess(cfg: Config, s: State, a: Step)
    requires WorkerStep(a) && WorkerEnabled(cfg, s, a)
    ensures LaneWeight(Moved(a, s.lanes[a.lane])) < LaneWeight(s.lanes[a.lane])
    ensures var t := WorkerNext(cfg, s, a); t.queue == s.queue && t.dispatcher == s.dispatcher
  {
  }

  /** A lane in which nothing is left to do for the worker, until it is closed. */
  predicate Resting(l: Lane) { l.worker.Retired? || (l.worker.Idle? && l.buf == [] && !l.closed) }

  lemma {:induction false} SomeExecutes(lanes: seq<Lane>) returns (i: nat)
    requires CountExecuting(lanes) > 0
    ensures i < |lanes| && lanes[i].worker.Executing?
  {
    var n := |lanes| - 1;
    if lanes[n].worker.Executing? {
      i := n;
    } else {
      i := SomeExecutes(lanes[..n]);
    }
  }

  /** A worker that holds an event can start it, or another one can return. */
  lemma WorkerCan(cfg: Config, s: State, i: nat) returns (a: Step)
    requires Inv(cfg, s) && cfg.concurrency >= 1 && i < |s.lanes| && !Resting(s.lanes[i])
    ensures WorkerStep(a) && WorkerEnabled(cfg, s, a)
  {
    hide Flow, Serially, Depth, Life, Passed, Own, Distinct, CountExecuting;
    var w := s.lanes[i].worker;
    if w.Idle? {
      a := if s.lanes[i].buf != [] then Take(i) else Retire(i);
    } else if w.Holding? && s.sem < cfg.concurrency {
      a := Start(i);
    } else {
      var j := i;
      if w.Holding? { j := SomeExecutes(s.lanes); }
      ExecutingCounts(s.lanes, j);
      a := Finish(j);
    }
  }

  lemma {:induction false} ExecutingCounts(lanes: seq<Lane>, i: nat)
    requires i < |lanes| && lanes[i].worker.Executing?
    ensures CountExecuting(lanes) > 0
  {
    if i < |lanes| - 1 { ExecutingCounts(lanes[..|lanes| - 1], i); }
  }

  // ----- The dispatcher ------------------------------------------------------------------------------

  /** An answer of a closed queue: an event, or the end. */
  lemma FetchWorks(cfg: Config, s: State)
    requires s.dispatcher.Ready? && s.queue.closed
    ensures Less(cfg, Fetched(cfg, s), s)
  {
    hide LanesWeight, FindLane;
    FetchShrinks(cfg, s);
    BelowSize(|s.lanes|);
  }

  lemma FetchShrinks(cfg: Config, s: State)
    requires s.dispatcher.Ready? && s.queue.closed
    ensures var t := Fetched(cfg, s);
      && t.lanes == s.lanes
      && (if s.queue.items == [] then t.queue.items == [] && t.dispatcher == Closing(All(s.lanes))
          else |t.queue.items| < |s.queue.items| && (t.dispatcher.Got? || t.dispatcher == Closing(All(s.lanes))))
  {
    hide Fifo.SkipOversize, Fifo.Oversize, Codec.Norm;
    Fifo.SkipShrinks(s.queue.items);
  }

  lemma {:induction false} BelowSize(n: nat)
    ensures |Below(n)| == n
  {
    if n > 0 { BelowSize(n - 1); }
  }

  lemma {:induction false} RestingBuffers(lanes: seq<Lane>, skip: set<nat>)
    requires forall i :: 0 <= i < |lanes| ==> lanes[i].buf == []
    ensures Buffered(lanes, skip) == 0
  {
    if lanes != [] { RestingBuffers(lanes[..|lanes| - 1], skip); }
  }

  lemma FindNew(lanes: seq<Lane>, l: Lane)
    requires FindLane(lanes, l.key) == |lanes|
    ensures FindLane(lanes + [l], l.key) == |lanes|
  {
    var more := lanes + [l];
    assert forall j :: 0 <= j < |lanes| ==> more[j] == lanes[j] && lanes[j].key != l.key;
    assert more[|lanes|] == l;
  }

  lemma OpenLaneWorks(cfg: Config, s: State)
    requires Enabled(cfg, s, OpenLane)
    ensures Work(cfg, Next(cfg, s, OpenLane)) < Work(cfg, s)
  {
    var key := LaneKey(cfg, s.dispatcher.ev);
    var l := Lane(key, [], false, Idle);
    var more := s.lanes + [l];
    assert more[..|s.lanes|] == s.lanes;
    FindNew(s.lanes, l);
  }

  lemma RouteWorks(cfg: Config, s: State)
    requires Enabled(cfg, s, Route)
    ensures Work(cfg, Next(cfg, s, Route)) < Work(cfg, s)
  {
    hide LanesWeight;
    var i := FindLane(s.lanes, LaneKey(cfg, s.dispatcher.ev));
    var l := s.lanes[i].(buf := s.lanes[i].buf + [s.dispatcher.ev]);
    WeightUpdate(s.lanes, i, l);
  }

  lemma CloseLaneWorks(cfg: Config, s: State, k: nat)
    requires Enabled(cfg, s, CloseLane(k))
    ensures Less(cfg, Next(cfg, s, CloseLane(k)), s)
  {
    hide LanesWeight;
    WeightUpdate(s.lanes, k, s.lanes[k].(closed := true));
    OneFewer(s.dispatcher.todo, k);
  }

  lemma OneFewer(todo: set<nat>, k: nat)
    requires k in todo
    ensures |todo - {k}| == |todo| - 1
  {
  }

  lemma ReadLaneWorks(cfg: Config, s: State, k: nat)
    requires Enabled(cfg, s, ReadLane(k))
    ensures Less(cfg, Next(cfg, s, ReadLane(k)), s)
  {
    hide LanesWeight, Buffered;
    BufferedRead(s.lanes, s.dispatcher.todo, k);
    OneFewer(s.dispatcher.todo, k);
  }

  /** When no worker can step the dispatcher can, and gets closer. */
  lemma DispatcherCan(cfg: Config, s: State) returns (a: Step)
    requires Inv(cfg, s) && Listed(s) && s.queue.closed && !s.dispatcher.Done? && cfg.maxDepth >= 1
    requires forall i :: 0 <= i < |s.lanes| ==> Resting(s.lanes[i])
    ensures OwnStep(a) && Enabled(cfg, s, a) && Less(cfg, Next(cfg, s, a), s)
  {
    hide Inv, Work, Rank, Next, Enabled, Resting;
    match s.dispatcher
    case Got(ev) => a := GotCan(cfg, s);
    case Ready =>
      FetchIsNext(cfg, s);
      a := Fetch;
    case Waiting => a := WaitingCan(cfg, s);
    case Summing(todo, sum) => a := SummingCan(cfg, s);
    case Closing(todo) => a := ClosingCan(cfg, s);
  }

  lemma GotCan(cfg: Config, s: State) returns (a: Step)
    requires s.dispatcher.Got?
    ensures OwnStep(a) && Enabled(cfg, s, a) && Less(cfg, Next(cfg, s, a), s)
  {
    hide Work, Next;
    if FindLane(s.lanes, LaneKey(cfg, s.dispatcher.ev)) == |s.lanes| {
      OpenLaneWorks(cfg, s);
      a := OpenLane;
    } else {
      RouteWorks(cfg, s);
      a := Route;
    }
  }

  lemma FetchIsNext(cfg: Config, s: State)
    requires s.dispatcher.Ready? && s.queue.closed
    ensures Enabled(cfg, s, Fetch) && Less(cfg, Next(cfg, s, Fetch), s)
  {
    hide Work, Rank, Fetched;
    FetchWorks(cfg, s);
  }

  lemma WaitingCan(cfg: Config, s: State) returns (a: Step)
    requires Inv(cfg, s) && s.dispatcher.Waiting? && cfg.maxDepth >= 1
    requires forall i :: 0 <= i < |s.lanes| ==> Resting(s.lanes[i])
    ensures OwnStep(a) && Enabled(cfg, s, a) && Less(cfg, Next(cfg, s, a), s)
  {
    hide Flow, Serially, Depth, Passed, Own, Distinct, LanesWeight, Slots, Life, Resting, Heading;
    a := if s.cancelled then GiveUp else Resume;
    BelowSize(|s.lanes|);
    if !s.cancelled { ResumeIsFresh(cfg, s); }
  }

  lemma SummingCan(cfg: Config, s: State) returns (a: Step)
    requires s.dispatcher.Summing? && Listed(s)
    ensures OwnStep(a) && Enabled(cfg, s, a) && Less(cfg, Next(cfg, s, a), s)
  {
    hide LanesWeight, Buffered;
    if s.dispatcher.todo == {} {
      a := if s.dispatcher.sum < cfg.maxDepth then Proceed else Pause;
    } else {
      var k :| k in s.dispatcher.todo;
      ReadLaneWorks(cfg, s, k);
      a := ReadLane(k);
    }
  }

  lemma ClosingCan(cfg: Config, s: State) returns (a: Step)
    requires s.dispatcher.Closing? && Listed(s)
    requires forall i :: 0 <= i < |s.lanes| ==> Resting(s.lanes[i])
    ensures OwnStep(a) && Enabled(cfg, s, a) && Less(cfg, Next(cfg, s, a), s)
  {
    hide LanesWeight;
    if s.dispatcher.todo == {} {
      a := Join;
    } else {
      var k :| k in s.dispatcher.todo;
      CloseLaneWorks(cfg, s, k);
      a := CloseLane(k);
    }
  }

  /** After a rest the lanes are found empty. */
  lemma ResumeIsFresh(cfg: Config, s: State)
    requires Life(s) && s.dispatcher.Waiting? && !s.cancelled && cfg.maxDepth >= 1
    requires forall i :: 0 <= i < |s.lanes| ==> Resting(s.lanes[i])
    ensures Heading(Next(cfg, s, Resume)) < cfg.maxDepth
  {
    forall i | 0 <= i < |s.lanes| ensures s.lanes[i].buf == [] {
      assert LaneLife(s, i);
    }
    RestingBuffers(s.lanes, {});
    RestingBuffers(s.lanes, All(s.lanes));
  }

  // ----- It can finish -------------------------------------------------------------------------------

  /** In every state with a closed queue a step of the dispatcher or a worker decreases the measure. */
  lemma SomeStepHelps(cfg: Config, s: State) returns (a: Step)
    requires Inv(cfg, s) && Listed(s) && s.queue.closed && !s.dispatcher.Done?
    requires cfg.concurrency >= 1 && cfg.maxDepth >= 1
    ensures OwnStep(a) && Enabled(cfg, s, a) && Less(cfg, Next(cfg, s, a), s)
  {
    hide Flow, Serially, Depth, Passed, Distinct, Life, Slots, Work, Rank, WorkerNext, WorkerEnabled, OwnLane;
    if i: nat :| i < |s.lanes| && !Resting(s.lanes[i]) {
      a := WorkerCan(cfg, s, i);
      WorkerInRange(cfg, s, a);
      WorkerWorks(cfg, s, a);
    } else {
      a := DispatcherCan(cfg, s);
    }
  }

  lemma WorkerInRange(cfg: Config, s: State, a: Step)
    requires WorkerStep(a) && WorkerEnabled(cfg, s, a)
    ensures a.lane < |s.lanes|
  {
  }

  lemma OwnStepKeepsClosed(cfg: Config, s: State, a: Step)
    requires Enabled(cfg, s, a) && OwnStep(a) && s.queue.closed
    ensures Next(cfg, s, a).queue.closed
  {
    hide Fetched, QueueStep;
    if a.Fetch? { FetchCases(cfg, s); }
  }

  lemma CanFinishFrom(cfg: Config, s: State) returns (steps: seq<Step>)
    requires Inv(cfg, s) && Listed(s) && s.queue.closed && cfg.concurrency >= 1 && cfg.maxDepth >= 1
    ensures CanRun(cfg, s, steps) && Run(cfg, s, steps).dispatcher.Done?
    ensures forall i :: 0 <= i < |steps| ==> OwnStep(steps[i])
    decreases Work(cfg, s), Rank(cfg, s)
  {
    hide Inv, Listed, Next, Enabled, Work, Rank;
    steps := [];
    if !s.dispatcher.Done? {
      var a := SomeStepHelps(cfg, s);
      var t := Next(cfg, s, a);
      StepKeepsInv(cfg, s, a);
      StepKeepsListed(cfg, s, a);
      OwnStepKeepsClosed(cfg, s, a);
      var rest := CanFinishFrom(cfg, t);
      steps := [a] + rest;
      assert steps[1..] == rest;
    }
  }

  /** From every state that a run can reach with the queue closed, cancelled or not, the dispatcher and the
      workers can bring the replayer to its end. */
  lemma ReplayerCanFinish(cfg: Config, queue: Fifo.Queue, run: seq<Step>) returns (steps: seq<Step>)
    requires cfg.concurrency >= 1 && cfg.maxDepth >= 1 && CanRun(cfg, Init(queue), run)
    requires Run(cfg, Init(queue), run).queue.closed
    ensures var s := Run(cfg, Init(queue), run);
      && CanRun(cfg, s, steps) && Run(cfg, s, steps).dispatcher.Done?
      && forall i :: 0 <= i < |steps| ==> OwnStep(steps[i])
  {
    hide Inv, Run, CanRun;
    InitInv(cfg, queue);
    RunKeepsInv(cfg, Init(queue), run);
    RunKeepsListed(cfg, Init(queue), run);
    steps := CanFinishFrom(cfg, Run(cfg, Init(queue), run));
  }
}
