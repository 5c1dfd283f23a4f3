/**
 The replayer (pkg/replayer/replayer_impl.go, pkg/replayer/unbounded_lane.go) as a state machine:
 a dispatcher routes events from the queue onto lanes, one worker drains each lane, a semaphore
 limits how many execute at once. Every lock section, channel operation and executor call is a
 step of its own; a run is any interleaving of steps.
 */
module Replay {
  import opened Core
  import Codec
  import Fifo

  const DEFAULT_WORKERS := 32
  const DEFAULT_POOL_MAX_CONNS := 100
  const DEFAULT_MAX_LANE_DEPTH := 100000

  datatype Mode = Bounded | Faithful | Serial

  datatype Settings = Settings(mode: Mode, workers: int, poolMax: int, maxConcurrency: int, maxLaneDepth: int)

  /** Which queue the events come from. */
  datatype Backend = Memory | File

  /** `connKey` names a connection; in serial mode all events share one lane. */
  datatype Config = Config(backend: Backend, serial: bool, concurrency: nat, maxDepth: nat, connKey: ConnId -> string)

  const SERIAL_KEY := "__serial__"

  function OrDefault(n: int, default: nat): int { if n <= 0 then default else n }

  function ConfigureMode(cfg: Settings, backend: Backend, connKey: ConnId -> string): (r: Config)
    ensures r.serial <==> cfg.mode == Serial
    ensures r.serial ==> r.concurrency == 1
    ensures var workers := if cfg.workers > 0 then cfg.workers else 32;
      var poolMax := if cfg.poolMax > 0 then cfg.poolMax else 100;
      && (cfg.mode == Bounded ==>
            r.concurrency <= workers && r.concurrency <= poolMax && r.concurrency in {workers, poolMax})
      && (cfg.mode == Faithful ==> r.concurrency == if cfg.maxConcurrency > 0 then cfg.maxConcurrency else workers)
    ensures r.maxDepth == if cfg.maxLaneDepth > 0 then cfg.maxLaneDepth else 100000
    ensures r.concurrency >= 1 && r.maxDepth >= 1
    ensures r.backend == backend && r.connKey == connKey
  {
    var workers := OrDefault(cfg.workers, DEFAULT_WORKERS);
    var poolMax := OrDefault(cfg.poolMax, DEFAULT_POOL_MAX_CONNS);
    var c := match cfg.mode
      case Serial => 1
      case Faithful => OrDefault(cfg.maxConcurrency, workers)
      case Bounded => if poolMax < workers then poolMax else workers;
    Config(backend, cfg.mode.Serial?, if c < 1 then 1 else c, OrDefault(cfg.maxLaneDepth, DEFAULT_MAX_LANE_DEPTH),
           connKey)
  }

  function ConnLane(cfg: Config, conn: ConnId): string {
    if cfg.serial then SERIAL_KEY else cfg.connKey(conn)
  }

  function LaneKey(cfg: Config, ev: Event): string { ConnLane(cfg, ev.conn) }

  // ----- States ----------------------------------------------------------------------------------

  /** Where a lane's worker is. A retired worker may have given up the event it held. */
  datatype Worker = Idle | Holding(ev: Event) | Executing(ev: Event) | Retired(dropped: seq<Event>)

  datatype Lane = Lane(key: string, buf: seq<Event>, closed: bool, worker: Worker)

  /** Where the dispatcher is. It reads the lane lengths one at a time, in any order: `todo` are the
      lanes it has not read yet. It also closes the lanes one at a time. */
  datatype Dispatcher =
    | Summing(todo: set<nat>, sum: nat)
    | Waiting
    | Ready
    | Got(ev: Event)
    | Closing(todo: set<nat>)
    | Done

  /** `admitted`, `dequeued`, `started` and `finished` are the histories: events let into the queue,
      delivered by it, passed to the executor, and returned by it. `sem` counts the slots taken.
      `skipped`: the file queue has passed over an over-long record. */
  datatype State = State(
    queue: Fifo.Queue,
    cancelled: bool,
    dispatcher: Dispatcher,
    lanes: seq<Lane>,
    sem: nat,
    skipped: bool,
    admitted: seq<Event>,
    dequeued: seq<Event>,
    started: seq<Event>,
    finished: seq<Event>)

  function Init(queue: Fifo.Queue): State {
    State(queue, false, Summing({}, 0), [], 0, false, queue.items, [], [], [])
  }

  function Below(n: nat): (r: set<nat>)
    ensures forall i: nat :: i in r <==> i < n
  {
    if n == 0 then {} else Below(n - 1) + {n - 1}
  }

  function All(lanes: seq<Lane>): set<nat> { Below(|lanes|) }

  /** The index of the lane for `key`, or the number of lanes. */
  function FindLane(lanes: seq<Lane>, key: string): (i: nat)
    ensures i <= |lanes| && (i < |lanes| ==> lanes[i].key == key)
    ensures forall j :: 0 <= j < i ==> lanes[j].key != key
  {
    if lanes == [] || lanes[0].key == key then 0 else 1 + FindLane(lanes[1..], key)
  }

  // ----- Steps -------------------------------------------------------------------------------------

  datatype Step =
    // the rest of the program
    | Produce(ev: Event) | CloseQueue | Cancel
    // the dispatcher
    | ReadLane(lane: nat) | Pause | Resume | GiveUp | Proceed | Fetch | OpenLane | Route | CloseLane(lane: nat) | Join
    // the worker of a lane
    | Take(lane: nat) | Start(lane: nat) | Abandon(lane: nat) | Finish(lane: nat) | Retire(lane: nat)

  predicate WorkerStep(a: Step) { a.Take? || a.Start? || a.Abandon? || a.Finish? || a.Retire? }

  predicate Enabled(cfg: Config, s: State, a: Step) {
    match a
    case Produce(_) => true
    case CloseQueue => true
    case Cancel => true
    case ReadLane(k) => s.dispatcher.Summing? && k in s.dispatcher.todo && k < |s.lanes|
    case Pause => s.dispatcher.Summing? && s.dispatcher.todo == {}
    case Resume => s.dispatcher.Waiting?
    case GiveUp => s.dispatcher.Waiting? && s.cancelled
    case Proceed => s.dispatcher.Summing? && s.dispatcher.todo == {} && s.dispatcher.sum < cfg.maxDepth
    case Fetch => s.dispatcher.Ready?
    case OpenLane => s.dispatcher.Got? && FindLane(s.lanes, LaneKey(cfg, s.dispatcher.ev)) == |s.lanes|
    case Route => s.dispatcher.Got? && FindLane(s.lanes, LaneKey(cfg, s.dispatcher.ev)) < |s.lanes|
    case CloseLane(k) => s.dispatcher.Closing? && k in s.dispatcher.todo && k < |s.lanes|
    case Join => s.dispatcher == Closing({}) && forall i :: 0 <= i < |s.lanes| ==> s.lanes[i].worker.Retired?
    case _ => WorkerEnabled(cfg, s, a)
  }

  predicate WorkerEnabled(cfg: Config, s: State, a: Step)
    requires WorkerStep(a)
  {
    && a.lane < |s.lanes|
    && var l := s.lanes[a.lane];
       match a
       case Take(_) => l.worker.Idle? && l.buf != []
       case Start(_) => l.worker.Holding? && s.sem < cfg.concurrency
       case Abandon(_) => l.worker.Holding? && s.cancelled
       case Finish(_) => l.worker.Executing? && s.sem > 0
       case Retire(_) => l.worker.Idle? && l.buf == [] && l.closed
  }

  function QueueStep(cfg: Config, q: Fifo.Queue, op: Fifo.Op): (Fifo.Queue, Fifo.Reply) {
    if cfg.backend.File? then Fifo.FileStep(q, op) else Fifo.Step(q, op)
  }

  /** What the queue delivers of a buffered event. */
  function Stored(cfg: Config, ev: Event): Event { if cfg.backend.File? then Codec.Norm(ev) else ev }

  predicate Skips(cfg: Config, q: Fifo.Queue) {
    cfg.backend.File? && q.items != [] && Fifo.Oversize(q.items[0])
  }

  /** The dispatcher asks the queue: an event, the end, or nothing yet. */
  function Fetched(cfg: Config, s: State): State {
    var (q, reply) := QueueStep(cfg, s.queue, Fifo.Dequeue(s.cancelled));
    var t := s.(queue := q, skipped := s.skipped || Skips(cfg, s.queue));
    match reply
    case Delivered(ev) => t.(dispatcher := Got(ev), dequeued := s.dequeued + [ev])
    case Ended => t.(dispatcher := Closing(All(s.lanes)))
    case _ => t
  }

  /** One step. Cancelling after the replayer has returned reaches nobody. */
  function Next(cfg: Config, s: State, a: Step): State
    requires Enabled(cfg, s, a)
  {
    match a
    case Produce(ev) =>
      s.(queue := QueueStep(cfg, s.queue, Fifo.Enqueue(ev)).0,
         admitted := s.admitted + Fifo.Admits(s.queue, Fifo.Enqueue(ev)))
    case CloseQueue => s.(queue := QueueStep(cfg, s.queue, Fifo.Close).0)
    case Cancel => s.(cancelled := s.cancelled || !s.dispatcher.Done?)
    case ReadLane(k) =>
      s.(dispatcher := Summing(s.dispatcher.todo - {k}, s.dispatcher.sum + |s.lanes[k].buf|))
    case Pause => s.(dispatcher := Waiting)
    case Resume => s.(dispatcher := Summing(All(s.lanes), 0))
    case GiveUp => s.(dispatcher := Closing(All(s.lanes)))
    case Proceed => s.(dispatcher := Ready)
    case Fetch => Fetched(cfg, s)
    case OpenLane =>
      s.(lanes := s.lanes + [Lane(LaneKey(cfg, s.dispatcher.ev), [], false, Idle)])
    case Route =>
      var i := FindLane(s.lanes, LaneKey(cfg, s.dispatcher.ev));
      s.(lanes := s.lanes[i := s.lanes[i].(buf := s.lanes[i].buf + [s.dispatcher.ev])],
         dispatcher := Summing(All(s.lanes), 0))
    case CloseLane(k) =>
      s.(lanes := s.lanes[k := s.lanes[k].(closed := true)], dispatcher := Closing(s.dispatcher.todo - {k}))
    case Join => s.(dispatcher := Done)
    case _ => WorkerNext(cfg, s, a)
  }

  function WorkerNext(cfg: Config, s: State, a: Step): State
    requires WorkerStep(a) && WorkerEnabled(cfg, s, a)
  {
    var i, l := a.lane, s.lanes[a.lane];
    match a
    case Take(_) => s.(lanes := s.lanes[i := l.(buf := l.buf[1..], worker := Holding(l.buf[0]))])
    case Start(_) =>
      s.(lanes := s.lanes[i := l.(worker := Executing(l.worker.ev))], sem := s.sem + 1,
         started := s.started + [l.worker.ev])
    case Abandon(_) => s.(lanes := s.lanes[i := l.(worker := Retired([l.worker.ev]))])
    case Finish(_) =>
      s.(lanes := s.lanes[i := l.(worker := Idle)], sem := s.sem - 1,
         finished := s.finished + [l.worker.ev])
    case Retire(_) => s.(lanes := s.lanes[i := l.(worker := Retired([]))])
  }

  predicate CanRun(cfg: Config, s: State, steps: seq<Step>)
    decreases |steps|
  {
    steps == [] || (Enabled(cfg, s, steps[0]) && CanRun(cfg, Next(cfg, s, steps[0]), steps[1..]))
  }

  function Run(cfg: Config, s: State, steps: seq<Step>): State
    requires CanRun(cfg, s, steps)
    decreases |steps|
  {
    if steps == [] then s else Run(cfg, Next(cfg, s, steps[0]), steps[1..])
  }

  // ----- The invariant --------------------------------------------------------------------------------

  /** The events that go to one lane, in order. */
  function Of(cfg: Config, evs: seq<Event>, key: string): seq<Event> {
    if evs == [] then []
    else Of(cfg, evs[..|evs| - 1], key) + OfOne(cfg, evs[|evs| - 1], key)
  }

  function OfOne(cfg: Config, ev: Event, key: string): seq<Event> {
    if LaneKey(cfg, ev) == key then [ev] else []
  }

  /** What a lane has taken over but not passed to the executor; what it is executing. */
  function Unstarted(l: Lane): seq<Event> {
    (match l.worker
     case Holding(ev) => [ev]
     case Retired(dropped) => dropped
     case _ => []) + l.buf
  }

  function Running(l: Lane): seq<Event> {
    if l.worker.Executing? then [l.worker.ev] else []
  }

  function UnstartedFor(lanes: seq<Lane>, key: string): seq<Event> {
    var i := FindLane(lanes, key);
    if i < |lanes| then Unstarted(lanes[i]) else []
  }

  function RunningFor(lanes: seq<Lane>, key: string): seq<Event> {
    var i := FindLane(lanes, key);
    if i < |lanes| then Running(lanes[i]) else []
  }

  function InHand(cfg: Config, d: Dispatcher, key: string): seq<Event> {
    if d.Got? then OfOne(cfg, d.ev, key) else []
  }

  predicate Distinct(lanes: seq<Lane>) {
    forall i, j :: 0 <= i < j < |lanes| ==> lanes[i].key != lanes[j].key
  }

  predicate OwnLane(cfg: Config, l: Lane) {
    && (forall j :: 0 <= j < |l.buf| ==> LaneKey(cfg, l.buf[j]) == l.key)
    && (l.worker.Holding? || l.worker.Executing? ==> LaneKey(cfg, l.worker.ev) == l.key)
  }

  predicate Own(cfg: Config, lanes: seq<Lane>) {
    forall i :: 0 <= i < |lanes| ==> OwnLane(cfg, lanes[i])
  }

  /** Per lane: what was dequeued is what was started, then what the lane still has, then what the
      dispatcher is about to route there. */
  ghost predicate Flow(cfg: Config, s: State) {
    forall key :: Of(cfg, s.dequeued, key)
      == Of(cfg, s.started, key) + UnstartedFor(s.lanes, key) + InHand(cfg, s.dispatcher, key)
  }

  /** Per lane: what was started is what finished, then the one event that is executing. */
  ghost predicate Serially(cfg: Config, s: State) {
    forall key :: Of(cfg, s.started, key) == Of(cfg, s.finished, key) + RunningFor(s.lanes, key)
  }

  function CountExecuting(lanes: seq<Lane>): nat {
    if lanes == [] then 0
    else CountExecuting(lanes[..|lanes| - 1]) + |Running(lanes[|lanes| - 1])|
  }

  /** The number of events buffered in the lanes outside `skip`. */
  function Buffered(lanes: seq<Lane>, skip: set<nat>): nat {
    if lanes == [] then 0
    else Buffered(lanes[..|lanes| - 1], skip) + (if |lanes| - 1 in skip then 0 else |lanes[|lanes| - 1].buf|)
  }

  predicate Slots(cfg: Config, s: State) {
    s.sem == CountExecuting(s.lanes) && s.sem <= cfg.concurrency
  }

  /** The dispatcher's stale sum is an upper bound of what it has read. */
  predicate Depth(cfg: Config, s: State) {
    && Buffered(s.lanes, {}) <= cfg.maxDepth
    && match s.dispatcher
       case Summing(todo, sum) => Buffered(s.lanes, todo) <= sum
       case Ready => Buffered(s.lanes, {}) < cfg.maxDepth
       case Got(_) => Buffered(s.lanes, {}) < cfg.maxDepth
       case _ => true
  }

  predicate LaneLife(s: State, i: nat)
    requires i < |s.lanes|
  {
    var l := s.lanes[i];
    && (l.closed ==> s.dispatcher.Closing? || s.dispatcher.Done?)
    && (!s.cancelled && l.worker.Retired? ==> l.closed && l.buf == [] && l.worker.dropped == [])
    && (s.dispatcher.Done? ==> l.worker.Retired?)
  }

  predicate QueueOver(s: State) { s.cancelled || s.skipped || (s.queue.closed && s.queue.items == []) }

  /** Lanes close only when the dispatcher stops, and it stops only when the queue has ended. */
  predicate Life(s: State) {
    && (forall i :: 0 <= i < |s.lanes| ==> LaneLife(s, i))
    && (s.dispatcher.Closing? || s.dispatcher.Done? ==> QueueOver(s))
  }

  function StoredAll(cfg: Config, evs: seq<Event>): (r: seq<Event>)
    ensures |r| == |evs|
  {
    seq(|evs|, i requires 0 <= i < |evs| => Stored(cfg, evs[i]))
  }

  /** Under the blocking policy: what was let in is what was delivered, then what is buffered. */
  predicate Passed(cfg: Config, s: State) {
    if s.queue.policy.Block? && !s.skipped
    then StoredAll(cfg, s.admitted) == s.dequeued + StoredAll(cfg, s.queue.items)
    else true
  }

  ghost predicate Inv(cfg: Config, s: State) {
    && Distinct(s.lanes)
    && Own(cfg, s.lanes)
    && Flow(cfg, s)
    && Serially(cfg, s)
    && Slots(cfg, s)
    && Depth(cfg, s)
    && Life(s)
    && Passed(cfg, s)
  }

  // ----- One lane changes ------------------------------------------------------------------------------

  lemma OfSnoc(cfg: Config, evs: seq<Event>, ev: Event, key: string)
    ensures Of(cfg, evs + [ev], key) == Of(cfg, evs, key) + OfOne(cfg, ev, key)
  {
    assert (evs + [ev])[..|evs|] == evs;
  }

  lemma LaneUpdate(lanes: seq<Lane>, i: nat, l: Lane, key: string)
    requires i < |lanes| && Distinct(lanes) && l.key == lanes[i].key
    ensures UnstartedFor(lanes[i := l], key) == if key == l.key then Unstarted(l) else UnstartedFor(lanes, key)
    ensures RunningFor(lanes[i := l], key) == if key == l.key then Running(l) else RunningFor(lanes, key)
    ensures key == l.key ==> UnstartedFor(lanes, key) == Unstarted(lanes[i])
    ensures key == l.key ==> RunningFor(lanes, key) == Running(lanes[i])
  {
    var lanes' := lanes[i := l];
    assert forall j :: 0 <= j < |lanes| ==> lanes'[j].key == lanes[j].key;
    assert FindLane(lanes', key) == FindLane(lanes, key);
    if key == l.key { assert FindLane(lanes, key) == i; }
  }

  lemma {:induction false} CountUpdate(lanes: seq<Lane>, i: nat, l: Lane)
    requires i < |lanes|
    ensures CountExecuting(lanes[i := l]) == CountExecuting(lanes) - |Running(lanes[i])| + |Running(l)|
  {
    var n := |lanes| - 1;
    if i < n {
      CountUpdate(lanes[..n], i, l);
      assert lanes[i := l][..n] == lanes[..n][i := l];
    } else {
      assert lanes[i := l][..n] == lanes[..n];
    }
  }

  lemma {:induction false} BufferedUpdate(lanes: seq<Lane>, skip: set<nat>, i: nat, l: Lane)
    requires i < |lanes|
    ensures Buffered(lanes[i := l], skip)
         == Buffered(lanes, skip) + if i in skip then 0 else |l.buf| - |lanes[i].buf|
  {
    var n := |lanes| - 1;
    if i < n {
      BufferedUpdate(lanes[..n], skip, i, l);
      assert lanes[i := l][..n] == lanes[..n][i := l];
    } else {
      assert lanes[i := l][..n] == lanes[..n];
    }
  }

  lemma {:induction false} BufferedRead(lanes: seq<Lane>, skip: set<nat>, i: nat)
    requires i < |lanes| && i in skip
    ensures Buffered(lanes, skip - {i}) == Buffered(lanes, skip) + |lanes[i].buf|
  {
    var n := |lanes| - 1;
    if i < n { BufferedRead(lanes[..n], skip, i); } else { BufferedBeyond(lanes[..n], skip, i); }
  }

  lemma {:induction false} BufferedBeyond(lanes: seq<Lane>, skip: set<nat>, i: nat)
    requires i >= |lanes|
    ensures Buffered(lanes, skip - {i}) == Buffered(lanes, skip)
  {
    if lanes != [] { BufferedBeyond(lanes[..|lanes| - 1], skip, i); }
  }

  lemma {:induction false} BufferedAll(lanes: seq<Lane>, skip: set<nat>)
    requires forall i: nat :: i < |lanes| ==> i in skip
    ensures Buffered(lanes, skip) == 0
  {
    if lanes != [] { BufferedAll(lanes[..|lanes| - 1], skip); }
  }

  // ----- Workers keep the invariant ------------------------------------------------------------------------

  /** What a worker step does to its lane. */
  function Moved(a: Step, l: Lane): Lane
    requires WorkerStep(a) && (a.Take? ==> l.buf != []) && (a.Start? || a.Abandon? ==> l.worker.Holding?)
  {
    match a
    case Take(_) => l.(buf := l.buf[1..], worker := Holding(l.buf[0]))
    case Start(_) => l.(worker := Executing(l.worker.ev))
    case Abandon(_) => l.(worker := Retired([l.worker.ev]))
    case Finish(_) => l.(worker := Idle)
    case Retire(_) => l.(worker := Retired([]))
  }

  lemma MovedLane(cfg: Config, s: State, a: Step)
    requires WorkerStep(a) && WorkerEnabled(cfg, s, a) && OwnLane(cfg, s.lanes[a.lane])
    ensures var l := s.lanes[a.lane]; var m := Moved(a, l);
      && m.key == l.key && OwnLane(cfg, m)
      && WorkerNext(cfg, s, a).lanes == s.lanes[a.lane := m]
      && (if a.Start? then
            Unstarted(l) == [l.worker.ev] + Unstarted(m) && Running(l) == [] && Running(m) == [l.worker.ev]
          else if a.Finish? then Unstarted(l) == Unstarted(m) && Running(l) == [l.worker.ev] && Running(m) == []
          else Unstarted(l) == Unstarted(m) && Running(l) == Running(m))
  {
    var l := s.lanes[a.lane];
    if a.Take? { assert [l.buf[0]] + l.buf[1..] == l.buf; }
  }

  lemma WorkerFlow(cfg: Config, s: State, a: Step, key: string)
    requires WorkerStep(a) && WorkerEnabled(cfg, s, a) && Distinct(s.lanes) && OwnLane(cfg, s.lanes[a.lane])
    requires Of(cfg, s.dequeued, key)
          == Of(cfg, s.started, key) + UnstartedFor(s.lanes, key) + InHand(cfg, s.dispatcher, key)
    requires Of(cfg, s.started, key) == Of(cfg, s.finished, key) + RunningFor(s.lanes, key)
    ensures var s' := WorkerNext(cfg, s, a);
      && Of(cfg, s'.dequeued, key)
           == Of(cfg, s'.started, key) + UnstartedFor(s'.lanes, key) + InHand(cfg, s'.dispatcher, key)
      && Of(cfg, s'.started, key) == Of(cfg, s'.finished, key) + RunningFor(s'.lanes, key)
  {
    hide Of, UnstartedFor, RunningFor, Unstarted, Running, InHand;
    var l := s.lanes[a.lane];
    var m := Moved(a, l);
    MovedLane(cfg, s, a);
    LaneUpdate(s.lanes, a.lane, m, key);
    if a.Start? {
      OfSnoc(cfg, s.started, l.worker.ev, key);
    } else if a.Finish? {
      OfSnoc(cfg, s.finished, l.worker.ev, key);
    }
  }

  lemma WorkerKeepsFlow(cfg: Config, s: State, a: Step)
    requires WorkerStep(a) && WorkerEnabled(cfg, s, a) && Inv(cfg, s)
    ensures var s' := WorkerNext(cfg, s, a); Flow(cfg, s') && Serially(cfg, s')
  {
    hide Of, UnstartedFor, RunningFor, InHand, Depth, Life, Slots, WorkerNext;
    forall key ensures var s' := WorkerNext(cfg, s, a);
      && Of(cfg, s'.dequeued, key)
           == Of(cfg, s'.started, key) + UnstartedFor(s'.lanes, key) + InHand(cfg, s'.dispatcher, key)
      && Of(cfg, s'.started, key) == Of(cfg, s'.finished, key) + RunningFor(s'.lanes, key)
    {
      WorkerFlow(cfg, s, a, key);
    }
  }

  lemma WorkerKeepsBounds(cfg: Config, s: State, a: Step)
    requires WorkerStep(a) && WorkerEnabled(cfg, s, a) && Inv(cfg, s)
    ensures var s' := WorkerNext(cfg, s, a);
      Distinct(s'.lanes) && Own(cfg, s'.lanes) && Slots(cfg, s') && Depth(cfg, s')
  {
    hide Flow, Serially, Life, Buffered, CountExecuting, OwnLane;
    var l := s.lanes[a.lane];
    var m := Moved(a, l);
    MovedLane(cfg, s, a);
    CountUpdate(s.lanes, a.lane, m);
    BufferedUpdate(s.lanes, {}, a.lane, m);
    if s.dispatcher.Summing? { BufferedUpdate(s.lanes, s.dispatcher.todo, a.lane, m); }
  }

  lemma WorkerKeepsLife(cfg: Config, s: State, a: Step)
    requires WorkerStep(a) && WorkerEnabled(cfg, s, a) && Inv(cfg, s)
    ensures Life(WorkerNext(cfg, s, a))
  {
    hide Flow, Serially, Depth, Slots, Own, Distinct;
    var s' := WorkerNext(cfg, s, a);
    forall i | 0 <= i < |s'.lanes| ensures LaneLife(s', i) {
      assert LaneLife(s, i);
    }
  }

  lemma WorkerKeepsQueue(cfg: Config, s: State, a: Step)
    requires WorkerStep(a) && WorkerEnabled(cfg, s, a) && Passed(cfg, s)
    ensures Passed(cfg, WorkerNext(cfg, s, a))
  {
    hide StoredAll;
  }

  // ----- The dispatcher and the rest of the program keep it ---------------------------------------------------

  /** Steps that move neither events nor lanes. */
  lemma QuietFlow(cfg: Config, s: State, s': State)
    requires Flow(cfg, s) && Serially(cfg, s) && s'.lanes == s.lanes
    requires s'.dequeued == s.dequeued && s'.started == s.started && s'.finished == s.finished
    requires s'.dispatcher == s.dispatcher || (!s.dispatcher.Got? && !s'.dispatcher.Got?)
    ensures Flow(cfg, s') && Serially(cfg, s')
  {
    hide Of, UnstartedFor, RunningFor;
    forall key ensures
      && Of(cfg, s'.dequeued, key)
           == Of(cfg, s'.started, key) + UnstartedFor(s'.lanes, key) + InHand(cfg, s'.dispatcher, key)
      && Of(cfg, s'.started, key) == Of(cfg, s'.finished, key) + RunningFor(s'.lanes, key)
    {
      assert InHand(cfg, s'.dispatcher, key) == InHand(cfg, s.dispatcher, key);
      assert Of(cfg, s.dequeued, key)
          == Of(cfg, s.started, key) + UnstartedFor(s.lanes, key) + InHand(cfg, s.dispatcher, key);
    }
  }

  /** One answer of the queue. */
  lemma FetchCases(cfg: Config, s: State)
    requires s.dispatcher.Ready?
    ensures var t := Fetched(cfg, s);
      && t.lanes == s.lanes && t.started == s.started && t.finished == s.finished && t.admitted == s.admitted
      && t.cancelled == s.cancelled && t.queue.closed == s.queue.closed && t.queue.policy == s.queue.policy
      && t.sem == s.sem && (s.skipped ==> t.skipped)
      && (if t.dispatcher.Got? then t.dequeued == s.dequeued + [t.dispatcher.ev]
          else t.dequeued == s.dequeued && t.dispatcher in {s.dispatcher, Closing(All(s.lanes))})
  {
    hide Codec.Norm, Fifo.SkipOversize, Fifo.Oversize;
  }

  /** Unless it skips, the queue delivers its oldest event, or ends when it is empty. */
  lemma FetchOldest(cfg: Config, s: State)
    requires !Skips(cfg, s.queue)
    ensures var t := Fetched(cfg, s);
      if s.queue.items == [] then
        t == s || (t == s.(dispatcher := Closing(All(s.lanes))) && (s.queue.closed || s.cancelled))
      else
        var ev := Stored(cfg, s.queue.items[0]);
        t == s.(queue := s.queue.(items := s.queue.items[1..]), dispatcher := Got(ev), dequeued := s.dequeued + [ev])
  {
    hide Codec.Norm, Fifo.Oversize;
    Fifo.StepsAgree(s.queue, Fifo.Dequeue(s.cancelled));
  }

  lemma FetchFlow(cfg: Config, s: State)
    requires s.dispatcher.Ready? && Flow(cfg, s) && Serially(cfg, s)
    ensures var s' := Next(cfg, s, Fetch); Flow(cfg, s') && Serially(cfg, s')
  {
    hide Of, UnstartedFor, RunningFor, Fetched;
    var s' := Next(cfg, s, Fetch);
    FetchCases(cfg, s);
    if s'.dispatcher.Got? {
      var ev := s'.dispatcher.ev;
      forall key ensures
        && Of(cfg, s'.dequeued, key)
             == Of(cfg, s'.started, key) + UnstartedFor(s'.lanes, key) + InHand(cfg, s'.dispatcher, key)
        && Of(cfg, s'.started, key) == Of(cfg, s'.finished, key) + RunningFor(s'.lanes, key)
      {
        OfSnoc(cfg, s.dequeued, ev, key);
        assert Of(cfg, s.dequeued, key)
            == Of(cfg, s.started, key) + UnstartedFor(s.lanes, key) + InHand(cfg, s.dispatcher, key);
      }
    } else {
      QuietFlow(cfg, s, s');
    }
  }

  lemma OpenLaneFlow(cfg: Config, s: State)
    requires Enabled(cfg, s, OpenLane) && Flow(cfg, s) && Serially(cfg, s)
    ensures var s' := Next(cfg, s, OpenLane); Flow(cfg, s') && Serially(cfg, s')
  {
    hide Of;
    var s' := Next(cfg, s, OpenLane);
    forall key ensures
      && Of(cfg, s'.dequeued, key)
           == Of(cfg, s'.started, key) + UnstartedFor(s'.lanes, key) + InHand(cfg, s'.dispatcher, key)
      && Of(cfg, s'.started, key) == Of(cfg, s'.finished, key) + RunningFor(s'.lanes, key)
    {
      NewLane(s.lanes, LaneKey(cfg, s.dispatcher.ev), key);
      assert Of(cfg, s.dequeued, key)
          == Of(cfg, s.started, key) + UnstartedFor(s.lanes, key) + InHand(cfg, s.dispatcher, key);
    }
  }

  lemma NewLane(lanes: seq<Lane>, newKey: string, key: string)
    requires FindLane(lanes, newKey) == |lanes|
    ensures var more := lanes + [Lane(newKey, [], false, Idle)];
      UnstartedFor(more, key) == UnstartedFor(lanes, key) && RunningFor(more, key) == RunningFor(lanes, key)
  {
    var more := lanes + [Lane(newKey, [], false, Idle)];
    assert forall j :: 0 <= j < |lanes| ==> more[j] == lanes[j];
    var i := FindLane(lanes, key);
    if i < |lanes| { assert FindLane(more, key) == i; }
  }

  lemma RouteFlow(cfg: Config, s: State)
    requires Enabled(cfg, s, Route) && Flow(cfg, s) && Serially(cfg, s) && Distinct(s.lanes)
    ensures var s' := Next(cfg, s, Route); Flow(cfg, s') && Serially(cfg, s')
  {
    hide Of, UnstartedFor, RunningFor;
    var s' := Next(cfg, s, Route);
    var ev := s.dispatcher.ev;
    var i := FindLane(s.lanes, LaneKey(cfg, ev));
    var l := s.lanes[i];
    var m := l.(buf := l.buf + [ev]);
    assert Unstarted(m) == Unstarted(l) + [ev];
    forall key ensures
      && Of(cfg, s'.dequeued, key)
           == Of(cfg, s'.started, key) + UnstartedFor(s'.lanes, key) + InHand(cfg, s'.dispatcher, key)
      && Of(cfg, s'.started, key) == Of(cfg, s'.finished, key) + RunningFor(s'.lanes, key)
    {
      LaneUpdate(s.lanes, i, m, key);
      assert Of(cfg, s.dequeued, key)
          == Of(cfg, s.started, key) + UnstartedFor(s.lanes, key) + InHand(cfg, s.dispatcher, key);
    }
  }

  lemma CloseLaneFlow(cfg: Config, s: State, k: nat)
    requires Enabled(cfg, s, CloseLane(k)) && Flow(cfg, s) && Serially(cfg, s) && Distinct(s.lanes)
    ensures var s' := Next(cfg, s, CloseLane(k)); Flow(cfg, s') && Serially(cfg, s')
  {
    hide Of, UnstartedFor, RunningFor;
    var s' := Next(cfg, s, CloseLane(k));
    var m := s.lanes[k].(closed := true);
    assert Unstarted(m) == Unstarted(s.lanes[k]);
    forall key ensures
      && Of(cfg, s'.dequeued, key)
           == Of(cfg, s'.started, key) + UnstartedFor(s'.lanes, key) + InHand(cfg, s'.dispatcher, key)
      && Of(cfg, s'.started, key) == Of(cfg, s'.finished, key) + RunningFor(s'.lanes, key)
    {
      LaneUpdate(s.lanes, k, m, key);
      assert Of(cfg, s.dequeued, key)
          == Of(cfg, s.started, key) + UnstartedFor(s.lanes, key) + InHand(cfg, s.dispatcher, key);
    }
  }

  lemma DispatcherKeepsFlow(cfg: Config, s: State, a: Step)
    requires !WorkerStep(a) && Enabled(cfg, s, a) && Inv(cfg, s)
    ensures var s' := Next(cfg, s, a); Flow(cfg, s') && Serially(cfg, s')
  {
    hide Flow, Serially, Depth, Slots, Life, Own, Distinct, Passed, Fetched, QueueStep;
    if a.Fetch? {
      FetchFlow(cfg, s);
    } else if a.OpenLane? {
      OpenLaneFlow(cfg, s);
    } else if a.Route? {
      RouteFlow(cfg, s);
    } else if a.CloseLane? {
      CloseLaneFlow(cfg, s, a.lane);
    } else {
      QuietFlow(cfg, s, Next(cfg, s, a));
    }
  }

  lemma LanesStay(cfg: Config, s: State, a: Step)
    requires !WorkerStep(a) && Enabled(cfg, s, a) && !a.OpenLane? && !a.Route? && !a.CloseLane?
    ensures var s' := Next(cfg, s, a); s'.lanes == s.lanes && s'.sem == s.sem
  {
    hide Fetched, QueueStep;
    if a.Fetch? { FetchCases(cfg, s); }
  }

  lemma DispatcherKeepsLanes(cfg: Config, s: State, a: Step)
    requires !WorkerStep(a) && Enabled(cfg, s, a) && Inv(cfg, s)
    ensures var s' := Next(cfg, s, a); Distinct(s'.lanes) && Own(cfg, s'.lanes) && Slots(cfg, s')
  {
    hide Flow, Serially, Depth, Life, CountExecuting, Passed, Fetched, QueueStep;
    if a.OpenLane? {
      CountNew(s.lanes, Lane(LaneKey(cfg, s.dispatcher.ev), [], false, Idle));
    } else if a.Route? {
      var i := FindLane(s.lanes, LaneKey(cfg, s.dispatcher.ev));
      CountUpdate(s.lanes, i, s.lanes[i].(buf := s.lanes[i].buf + [s.dispatcher.ev]));
    } else if a.CloseLane? {
      CountUpdate(s.lanes, a.lane, s.lanes[a.lane].(closed := true));
    } else {
      hide Next, Own, Distinct;
      LanesStay(cfg, s, a);
    }
  }

  lemma CountNew(lanes: seq<Lane>, l: Lane)
    requires l.worker.Idle? && l.buf == []
    ensures CountExecuting(lanes + [l]) == CountExecuting(lanes)
    ensures forall skip :: Buffered(lanes + [l], skip) == Buffered(lanes, skip)
  {
    assert (lanes + [l])[..|lanes|] == lanes;
  }

  lemma DispatcherKeepsDepth(cfg: Config, s: State, a: Step)
    requires !WorkerStep(a) && Enabled(cfg, s, a) && Inv(cfg, s)
    ensures Depth(cfg, Next(cfg, s, a))
  {
    hide Flow, Serially, Life, CountExecuting, Buffered, Slots, Passed, Fetched, QueueStep;
    if a.Fetch? { FetchCases(cfg, s); }
    match a
    case ReadLane(k) => BufferedRead(s.lanes, s.dispatcher.todo, k);
    case Resume => BufferedAll(s.lanes, All(s.lanes));
    case OpenLane => CountNew(s.lanes, Lane(LaneKey(cfg, s.dispatcher.ev), [], false, Idle));
    case Route =>
      var i := FindLane(s.lanes, LaneKey(cfg, s.dispatcher.ev));
      BufferedUpdate(s.lanes, {}, i, s.lanes[i].(buf := s.lanes[i].buf + [s.dispatcher.ev]));
      BufferedAll(s.lanes, All(s.lanes));
      BufferedUpdate(s.lanes, All(s.lanes), i, s.lanes[i].(buf := s.lanes[i].buf + [s.dispatcher.ev]));
    case CloseLane(k) =>
      BufferedUpdate(s.lanes, {}, k, s.lanes[k].(closed := true));
    case _ =>
  }

  lemma DispatcherKeepsLife(cfg: Config, s: State, a: Step)
    requires !WorkerStep(a) && Enabled(cfg, s, a) && Inv(cfg, s)
    ensures Life(Next(cfg, s, a))
  {
    hide Flow, Serially, Depth, Slots, Own, Distinct, Passed, Fetched, QueueStep;
    var s' := Next(cfg, s, a);
    if a.Fetch? { FetchCases(cfg, s); }
    QueueCases(cfg, s.queue, a);
    forall i | 0 <= i < |s'.lanes| ensures LaneLife(s', i) {
      if i < |s.lanes| { assert LaneLife(s, i); }
    }
    if a.Fetch? { FetchEnds(cfg, s); }
  }

  lemma FetchEnds(cfg: Config, s: State)
    requires s.dispatcher.Ready?
    ensures var t := Fetched(cfg, s);
      t.dispatcher.Closing? ==> QueueOver(t)
  {
    hide QueueStep;
    if !Skips(cfg, s.queue) { FetchOldest(cfg, s); }
  }

  /** Producing and closing: a queue that is closed stays as it is. */
  lemma QueueCases(cfg: Config, q: Fifo.Queue, a: Step)
    ensures a.Produce? ==> var t := QueueStep(cfg, q, Fifo.Enqueue(a.ev)).0;
      && t.policy == q.policy && t.closed == q.closed && (q.closed ==> t == q)
      && (q.policy.Block? ==> t.items == q.items + Fifo.Admits(q, Fifo.Enqueue(a.ev)))
    ensures a.CloseQueue? ==> QueueStep(cfg, q, Fifo.Close).0 == q.(closed := true)
  {
  }

  lemma StoredConcat(cfg: Config, a: seq<Event>, b: seq<Event>)
    ensures StoredAll(cfg, a + b) == StoredAll(cfg, a) + StoredAll(cfg, b)
  {
    hide Stored;
  }

  lemma DispatcherKeepsPassed(cfg: Config, s: State, a: Step)
    requires !WorkerStep(a) && Enabled(cfg, s, a) && Inv(cfg, s)
    ensures Passed(cfg, Next(cfg, s, a))
  {
    hide Flow, Serially, Depth, Slots, Own, Distinct, Life, Fetched, QueueStep, StoredAll, Stored, Skips;
    QueueCases(cfg, s.queue, a);
    if a.Produce? {
      var more := Fifo.Admits(s.queue, Fifo.Enqueue(a.ev));
      StoredConcat(cfg, s.admitted, more);
      StoredConcat(cfg, s.queue.items, more);
      Regroup(s.dequeued, StoredAll(cfg, s.queue.items), StoredAll(cfg, more));
    } else if a.Fetch? {
      FetchPasses(cfg, s);
    }
  }

  lemma Regroup(a: seq<Event>, b: seq<Event>, c: seq<Event>)
    ensures a + (b + c) == a + b + c
  {
  }

  lemma FetchPasses(cfg: Config, s: State)
    requires Passed(cfg, s) && s.dispatcher.Ready?
    ensures Passed(cfg, Fetched(cfg, s))
  {
    hide QueueStep, StoredAll, Stored, Skips;
    FetchCases(cfg, s);
    if Skips(cfg, s.queue) {
      SkipMarks(cfg, s);
    } else {
      FetchOldest(cfg, s);
      var items := s.queue.items;
      if items != [] {
        assert items == [items[0]] + items[1..];
        StoredConcat(cfg, [items[0]], items[1..]);
        StoredOne(cfg, items[0]);
        Regroup(s.dequeued, [Stored(cfg, items[0])], StoredAll(cfg, items[1..]));
      }
    }
  }

  lemma SkipMarks(cfg: Config, s: State)
    requires Skips(cfg, s.queue)
    ensures Fetched(cfg, s).skipped
  {
    hide QueueStep;
  }

  lemma StoredOne(cfg: Config, ev: Event)
    ensures StoredAll(cfg, [ev]) == [Stored(cfg, ev)]
  {
    hide Stored;
  }

  lemma StepKeepsInv(cfg: Config, s: State, a: Step)
    requires Inv(cfg, s) && Enabled(cfg, s, a)
    ensures Inv(cfg, Next(cfg, s, a))
  {
    hide Distinct, Own, Flow, Serially, Slots, Depth, Life, WorkerNext, WorkerEnabled, Passed;
    if WorkerStep(a) {
      WorkerKeepsFlow(cfg, s, a);
      WorkerKeepsBounds(cfg, s, a);
      WorkerKeepsLife(cfg, s, a);
      WorkerKeepsQueue(cfg, s, a);
    } else {
      DispatcherKeepsPassed(cfg, s, a);
      DispatcherKeepsFlow(cfg, s, a);
      DispatcherKeepsLanes(cfg, s, a);
      DispatcherKeepsDepth(cfg, s, a);
      DispatcherKeepsLife(cfg, s, a);
    }
  }

  // ----- Every run ------------------------------------------------------------------------------------------

  lemma InitInv(cfg: Config, queue: Fifo.Queue)
    ensures Inv(cfg, Init(queue))
  {
  }

  lemma {:induction false} RunKeepsInv(cfg: Config, s: State, steps: seq<Step>)
    requires Inv(cfg, s) && CanRun(cfg, s, steps)
    ensures Inv(cfg, Run(cfg, s, steps))
    decreases |steps|
  {
    hide Inv, Next, Enabled;
    if steps != [] {
      StepKeepsInv(cfg, s, steps[0]);
      RunKeepsInv(cfg, Next(cfg, s, steps[0]), steps[1..]);
    }
  }

  /** One connection's events, in order. */
  function OfConn(evs: seq<Event>, conn: ConnId): seq<Event> {
    if evs == [] then []
    else OfConn(evs[..|evs| - 1], conn) + (if evs[|evs| - 1].conn == conn then [evs[|evs| - 1]] else [])
  }

  lemma {:induction false} OfConnConcat(a: seq<Event>, b: seq<Event>, conn: ConnId)
    ensures OfConn(a + b, conn) == OfConn(a, conn) + OfConn(b, conn)
  {
    if b == [] {
      assert a + b == a;
    } else {
      var n := |b| - 1;
      OfConnConcat(a, b[..n], conn);
      assert (a + b)[..|a| + n] == a + b[..n];
    }
  }

  /** A connection's events all go to one lane. */
  lemma {:induction false} ConnWithinLane(cfg: Config, evs: seq<Event>, ev: Event)
    ensures OfConn(Of(cfg, evs, LaneKey(cfg, ev)), ev.conn) == OfConn(evs, ev.conn)
  {
    if evs != [] {
      var n, key := |evs| - 1, LaneKey(cfg, ev);
      ConnWithinLane(cfg, evs[..n], ev);
      OfConnConcat(Of(cfg, evs[..n], key), OfOne(cfg, evs[n], key), ev.conn);
      OneOfConn(cfg, evs[n], ev);
    }
  }

  lemma OneOfConn(cfg: Config, e: Event, ev: Event)
    ensures OfConn(OfOne(cfg, e, LaneKey(cfg, ev)), ev.conn) == if e.conn == ev.conn then [e] else []
  {
    assert [e][..0] == [];
  }

  /**
   In every run, cancelled or not, what one connection has been passed to the executor is a prefix
   of what was dequeued for it, and all of it but at most the last event has returned: each event
   at most once, in order, one at a time.
   */
  lemma InOrderAtMostOnce(cfg: Config, queue: Fifo.Queue, steps: seq<Step>, ev: Event)
    requires CanRun(cfg, Init(queue), steps)
    ensures var s := Run(cfg, Init(queue), steps);
      && OfConn(s.started, ev.conn) <= OfConn(s.dequeued, ev.conn)
      && OfConn(s.finished, ev.conn) <= OfConn(s.started, ev.conn)
      && |OfConn(s.started, ev.conn)| <= |OfConn(s.finished, ev.conn)| + 1
  {
    hide Run, Init, Inv;
    InitInv(cfg, queue);
    RunKeepsInv(cfg, Init(queue), steps);
    InvFlow(cfg, Run(cfg, Init(queue), steps));
    InOrder(cfg, Run(cfg, Init(queue), steps), ev);
  }

  lemma InvFlow(cfg: Config, s: State)
    requires Inv(cfg, s)
    ensures Flow(cfg, s) && Serially(cfg, s)
  {
  }

  lemma InOrder(cfg: Config, s: State, ev: Event)
    requires Flow(cfg, s) && Serially(cfg, s)
    ensures OfConn(s.started, ev.conn) <= OfConn(s.dequeued, ev.conn)
    ensures OfConn(s.finished, ev.conn) <= OfConn(s.started, ev.conn)
    ensures |OfConn(s.started, ev.conn)| <= |OfConn(s.finished, ev.conn)| + 1
  {
    hide Of, LaneKey, OfConn, UnstartedFor, RunningFor, InHand;
    var key, c := LaneKey(cfg, ev), ev.conn;
    ConnWithinLane(cfg, s.dequeued, ev);
    ConnWithinLane(cfg, s.started, ev);
    ConnWithinLane(cfg, s.finished, ev);
    var rest := UnstartedFor(s.lanes, key) + InHand(cfg, s.dispatcher, key);
    assert Of(cfg, s.dequeued, key)
        == Of(cfg, s.started, key) + UnstartedFor(s.lanes, key) + InHand(cfg, s.dispatcher, key);
    Regroup(Of(cfg, s.started, key), UnstartedFor(s.lanes, key), InHand(cfg, s.dispatcher, key));
    OfConnConcat(Of(cfg, s.started, key), rest, c);
    OfConnConcat(Of(cfg, s.finished, key), RunningFor(s.lanes, key), c);
    AtMostOneRuns(s.lanes, key, c);
  }

  lemma AtMostOneRuns(lanes: seq<Lane>, key: string, conn: ConnId)
    ensures |OfConn(RunningFor(lanes, key), conn)| <= 1
  {
    var r := RunningFor(lanes, key);
    if r != [] { assert r[..0] == []; }
  }

  lemma {:induction false} CountIn(cfg: Config, evs: seq<Event>, ev: Event)
    ensures multiset(evs)[ev] == multiset(Of(cfg, evs, LaneKey(cfg, ev)))[ev]
  {
    if evs != [] {
      var n := |evs| - 1;
      CountIn(cfg, evs[..n], ev);
      assert evs == evs[..n] + [evs[n]];
    }
  }

  /**
   When the replayer has returned and was never cancelled, every event it dequeued was passed to
   the executor exactly once and has returned, each lane's in the order they were dequeued.
   */
  lemma ExactlyOnce(cfg: Config, queue: Fifo.Queue, steps: seq<Step>)
    requires CanRun(cfg, Init(queue), steps)
    requires var s := Run(cfg, Init(queue), steps); s.dispatcher.Done? && !s.cancelled
    ensures var s := Run(cfg, Init(queue), steps);
      && (forall key :: Of(cfg, s.started, key) == Of(cfg, s.dequeued, key) == Of(cfg, s.finished, key))
      && multiset(s.started) == multiset(s.dequeued) == multiset(s.finished)
      && (s.skipped || (s.queue.closed && s.queue.items == []))
  {
    hide Run, Init, Distinct, Own, Slots, Depth, Of;
    InitInv(cfg, queue);
    RunKeepsInv(cfg, Init(queue), steps);
    AllStarted(cfg, Run(cfg, Init(queue), steps));
  }

  lemma AllStarted(cfg: Config, s: State)
    requires Inv(cfg, s) && s.dispatcher.Done? && !s.cancelled
    ensures forall key :: Of(cfg, s.started, key) == Of(cfg, s.dequeued, key) == Of(cfg, s.finished, key)
    ensures multiset(s.started) == multiset(s.dequeued) == multiset(s.finished)
  {
    hide Distinct, Own, Slots, Depth, Of;
    forall key ensures Of(cfg, s.started, key) == Of(cfg, s.dequeued, key) == Of(cfg, s.finished, key) {
      NothingLeft(s, key);
      assert Of(cfg, s.dequeued, key)
          == Of(cfg, s.started, key) + UnstartedFor(s.lanes, key) + InHand(cfg, s.dispatcher, key);
    }
    forall ev ensures multiset(s.started)[ev] == multiset(s.dequeued)[ev] == multiset(s.finished)[ev] {
      CountIn(cfg, s.started, ev);
      CountIn(cfg, s.dequeued, ev);
      CountIn(cfg, s.finished, ev);
    }
  }

  lemma NothingLeft(s: State, key: string)
    requires Life(s) && s.dispatcher.Done? && !s.cancelled
    ensures UnstartedFor(s.lanes, key) == [] && RunningFor(s.lanes, key) == []
  {
    var i := FindLane(s.lanes, key);
    if i < |s.lanes| { assert LaneLife(s, i); }
  }

  /** In serial mode one lane takes every event. */
  lemma {:induction false} AllInOneLane(cfg: Config, evs: seq<Event>)
    requires cfg.serial
    ensures Of(cfg, evs, SERIAL_KEY) == evs
  {
    if evs != [] {
      var n := |evs| - 1;
      AllInOneLane(cfg, evs[..n]);
      assert evs == evs[..n] + [evs[n]];
    }
  }

  /**
   Serial mode. In every run, cancelled or not, and whatever connections the events are of, what was
   passed to the executor is a prefix of what was dequeued, and all of it but at most the last event has
   returned; when the replayer has returned uncancelled, all of it has.
   */
  lemma SerialOrder(cfg: Config, queue: Fifo.Queue, steps: seq<Step>)
    requires cfg.serial && CanRun(cfg, Init(queue), steps)
    ensures var s := Run(cfg, Init(queue), steps);
      && s.finished <= s.started <= s.dequeued && |s.started| <= |s.finished| + 1
      && (s.dispatcher.Done? && !s.cancelled ==> s.finished == s.started == s.dequeued)
  {
    hide Run, Init, Inv, Of, UnstartedFor, RunningFor, InHand;
    InitInv(cfg, queue);
    RunKeepsInv(cfg, Init(queue), steps);
    var s, key := Run(cfg, Init(queue), steps), SERIAL_KEY;
    InvFlow(cfg, s);
    AllInOneLane(cfg, s.dequeued);
    AllInOneLane(cfg, s.started);
    AllInOneLane(cfg, s.finished);
    assert Of(cfg, s.dequeued, key)
        == Of(cfg, s.started, key) + UnstartedFor(s.lanes, key) + InHand(cfg, s.dispatcher, key);
    assert Of(cfg, s.started, key) == Of(cfg, s.finished, key) + RunningFor(s.lanes, key);
    OneRuns(s.lanes, key);
    if s.dispatcher.Done? && !s.cancelled { AllStarted(cfg, s); }
  }

  lemma OneRuns(lanes: seq<Lane>, key: string)
    ensures |RunningFor(lanes, key)| <= 1
  {
  }

  /** The same of the configuration that serial mode is given. */
  lemma SerialModeOrder(settings: Settings, backend: Backend, connKey: ConnId -> string, queue: Fifo.Queue,
                        steps: seq<Step>)
    requires settings.mode == Serial && CanRun(ConfigureMode(settings, backend, connKey), Init(queue), steps)
    ensures var s := Run(ConfigureMode(settings, backend, connKey), Init(queue), steps);
      && s.finished <= s.started <= s.dequeued && |s.started| <= |s.finished| + 1
      && (s.dispatcher.Done? && !s.cancelled ==> s.finished == s.started == s.dequeued)
  {
    SerialOrder(ConfigureMode(settings, backend, connKey), queue, steps);
  }

  /** An event that a lane has not passed on yet, or is executing. */
  predicate InLane(l: Lane, ev: Event) {
    ev in l.buf || l.worker == Holding(ev) || l.worker == Executing(ev)
  }

  /** In every run two events wait or execute in the same lane exactly when the mode is serial or their
      connections have the same key. */
  lemma LanesAreConnections(cfg: Config, queue: Fifo.Queue, steps: seq<Step>, i: nat, j: nat, e: Event, f: Event)
    requires CanRun(cfg, Init(queue), steps)
    requires var s := Run(cfg, Init(queue), steps);
      i < |s.lanes| && j < |s.lanes| && InLane(s.lanes[i], e) && InLane(s.lanes[j], f)
    ensures i == j <==> cfg.serial || cfg.connKey(e.conn) == cfg.connKey(f.conn)
  {
    hide Run, Init, Flow, Serially, Life, Slots, Depth;
    InitInv(cfg, queue);
    RunKeepsInv(cfg, Init(queue), steps);
    var s := Run(cfg, Init(queue), steps);
    assert OwnLane(cfg, s.lanes[i]) && OwnLane(cfg, s.lanes[j]);
    assert i != j ==> s.lanes[i].key != s.lanes[j].key;
  }

  /**
   In every run: at most `concurrency` events execute at once, no two of one connection; and the
   lanes never buffer more than `maxDepth` events, although the dispatcher adds up their lengths
   one by one while workers drain them.
   */
  lemma Bounds(cfg: Config, queue: Fifo.Queue, steps: seq<Step>)
    requires CanRun(cfg, Init(queue), steps)
    ensures var s := Run(cfg, Init(queue), steps);
      && CountExecuting(s.lanes) <= cfg.concurrency
      && Buffered(s.lanes, {}) <= cfg.maxDepth
      && forall i, j :: 0 <= i < j < |s.lanes| && s.lanes[i].worker.Executing? && s.lanes[j].worker.Executing?
           ==> s.lanes[i].worker.ev.conn != s.lanes[j].worker.ev.conn
  {
    hide Run, Init, Flow, Serially, Life, CountExecuting, Buffered;
    InitInv(cfg, queue);
    RunKeepsInv(cfg, Init(queue), steps);
    var s := Run(cfg, Init(queue), steps);
    forall i, j | 0 <= i < j < |s.lanes| && s.lanes[i].worker.Executing? && s.lanes[j].worker.Executing?
      ensures s.lanes[i].worker.ev.conn != s.lanes[j].worker.ev.conn
    {
      assert OwnLane(cfg, s.lanes[i]) && OwnLane(cfg, s.lanes[j]);
    }
  }

  /** In every run an event that a worker holds can start unless `concurrency` events are executing. */
  lemma StartsUnlessFull(cfg: Config, queue: Fifo.Queue, steps: seq<Step>, i: nat)
    requires CanRun(cfg, Init(queue), steps) && i < |Run(cfg, Init(queue), steps).lanes|
    requires Run(cfg, Init(queue), steps).lanes[i].worker.Holding?
    ensures var s := Run(cfg, Init(queue), steps);
      Enabled(cfg, s, Start(i)) <==> CountExecuting(s.lanes) != cfg.concurrency
  {
    hide Run, Init, Flow, Serially, Life, Depth, CountExecuting;
    InitInv(cfg, queue);
    RunKeepsInv(cfg, Init(queue), steps);
  }

  /**
   In every run, while one lane executes an event no other lane has to do with its connection: not an
   event to execute, and nothing to release when it retires. So the pool sees at most one call at a
   time for a connection, which is what module `Pool` asks of its callers.
   */
  lemma OneCallPerConnection(cfg: Config, queue: Fifo.Queue, steps: seq<Step>, i: nat, j: nat, e: Event)
    requires CanRun(cfg, Init(queue), steps)
    requires var s := Run(cfg, Init(queue), steps);
      && i < |s.lanes| && j < |s.lanes| && i != j
      && s.lanes[i].worker.Executing? && LaneKey(cfg, e) == s.lanes[j].key
    ensures Run(cfg, Init(queue), steps).lanes[i].worker.ev.conn != e.conn
  {
    hide Run, Init, Flow, Serially, Life, Slots, Depth;
    InitInv(cfg, queue);
    RunKeepsInv(cfg, Init(queue), steps);
    var s := Run(cfg, Init(queue), steps);
    assert OwnLane(cfg, s.lanes[i]);
    assert s.lanes[i].key != s.lanes[j].key;
  }
}
