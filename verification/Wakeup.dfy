/**
 The condition-variable protocol of the two queue backends (pkg/queue/ringbuffer.go,
 pkg/queue/filequeue.go) as a state machine over its atomic lock sections.

 A thread is running, asleep on the condition variable, or woken and about to take the lock
 again. `Signal` wakes one sleeper of the scheduler's choice, `Broadcast` wakes them all.
 The ring buffer signals, the file queue broadcasts; both broadcast on close. A dequeue that
 goes to sleep arms a watcher that broadcasts once its context is cancelled.
 */
module Wakeup {
  import opened Core
  import opened Fifo

  type Tid = nat

  datatype Role = Producer | Consumer
  datatype Pc = Running | Asleep | Woken
  datatype Thread = Thread(role: Role, pc: Pc)

  datatype Params = Params(capacity: nat, policy: Policy, broadcasts: bool)

  datatype State = State(
    count: nat,
    closed: bool,
    cancelled: bool,
    threads: map<Tid, Thread>,
    watchers: set<Tid>)

  /** One atomic step. `wakes` is the sleeper a signal picks; `taken` is how many records a
      dequeue moves past (more than one only when the file queue skips records). */
  datatype Step =
    | Enq(t: Tid, wakes: Tid)
    | Deq(t: Tid, taken: nat, wakes: Tid)
    | CloseQueue
    | CancelContext
    | WatcherFires(t: Tid)

  ghost predicate IsAsleep(s: State, t: Tid) {
    t in s.threads && s.threads[t].pc.Asleep?
  }

  ghost predicate SomeAsleep(s: State) {
    exists t :: IsAsleep(s, t)
  }

  function WakeAll(ts: map<Tid, Thread>): map<Tid, Thread> {
    map t | t in ts :: if ts[t].pc.Asleep? then ts[t].(pc := Woken) else ts[t]
  }

  function SetPc(ts: map<Tid, Thread>, t: Tid, pc: Pc): map<Tid, Thread>
    requires t in ts
  {
    ts[t := ts[t].(pc := pc)]
  }

  /** The backend's notification: a broadcast, or a signal to the chosen sleeper. */
  ghost function Notify(p: Params, s: State, wakes: Tid): map<Tid, Thread> {
    if p.broadcasts then WakeAll(s.threads)
    else if SomeAsleep(s) && wakes in s.threads then SetPc(s.threads, wakes, Woken)
    else s.threads
  }

  ghost predicate Enabled(p: Params, s: State, step: Step) {
    match step
    case Enq(t, wakes) =>
      && t in s.threads && s.threads[t].role.Producer? && !s.threads[t].pc.Asleep?
      && (SomeAsleep(s) ==> IsAsleep(s, wakes))
    case Deq(t, taken, wakes) =>
      && t in s.threads && s.threads[t].role.Consumer? && !s.threads[t].pc.Asleep?
      && (s.count > 0 ==> 1 <= taken <= s.count)
      && (!p.broadcasts ==> taken <= 1)
      && (SomeAsleep(s) ==> IsAsleep(s, wakes))
    case CloseQueue => true
    case CancelContext => true
    case WatcherFires(t) => s.cancelled && t in s.watchers
  }

  /** The effect of one enabled step. */
  ghost function Apply(p: Params, s: State, step: Step): State
    requires Enabled(p, s, step)
  {
    match step
    case Enq(t, wakes) =>
      if s.closed then s.(threads := SetPc(s.threads, t, Running))
      else if s.count < p.capacity then
        s.(count := s.count + 1, threads := SetPc(Notify(p, s, wakes), t, Running))
      else (match p.policy
            case DropNewest => s.(threads := SetPc(s.threads, t, Running))
            case Block => s.(threads := SetPc(s.threads, t, Asleep))
            case DropOldest => s.(threads := SetPc(Notify(p, s, wakes), t, Running)))
    case Deq(t, taken, wakes) =>
      if s.count > 0 then
        s.(count := s.count - taken, threads := SetPc(Notify(p, s, wakes), t, Running), watchers := s.watchers - {t})
      else if s.closed || s.cancelled then
        s.(threads := SetPc(s.threads, t, Running), watchers := s.watchers - {t})
      else
        s.(threads := SetPc(s.threads, t, Asleep), watchers := s.watchers + {t})
    case CloseQueue => if s.closed then s else s.(closed := true, threads := WakeAll(s.threads))
    case CancelContext => s.(cancelled := true)
    case WatcherFires(t) => s.(threads := WakeAll(s.threads), watchers := s.watchers - {t})
  }

  ghost predicate ValidRun(p: Params, s: State, steps: seq<Step>)
    decreases |steps|
  {
    steps == [] || (Enabled(p, s, steps[0]) && ValidRun(p, Apply(p, s, steps[0]), steps[1..]))
  }

  ghost function After(p: Params, s: State, steps: seq<Step>): State
    requires ValidRun(p, s, steps)
    decreases |steps|
  {
    if steps == [] then s else After(p, Apply(p, s, steps[0]), steps[1..])
  }

  /**
   Nobody sleeps through a reason to run: a producer asleep and not yet notified implies a full,
   open queue; a consumer asleep and not yet notified implies an empty, open queue and an armed
   watcher, so that a cancellation, past or future, still ends in a broadcast.
   */
  ghost predicate NoLostWakeup(p: Params, s: State) {
    forall t :: IsAsleep(s, t) ==> SleepsSafely(p, s, t)
  }

  ghost predicate SleepsSafely(p: Params, s: State, t: Tid)
    requires t in s.threads
  {
    if s.threads[t].role.Producer? then p.policy.Block? && s.count == p.capacity && !s.closed
    else s.count == 0 && !s.closed && t in s.watchers
  }

  ghost predicate Has(s: State, role: Role) {
    exists t :: t in s.threads && s.threads[t].role == role
  }

  ghost predicate AtMostOne(s: State, role: Role) {
    forall t, u :: t in s.threads && u in s.threads && s.threads[t].role == s.threads[u].role == role ==> t == u
  }

  /** What a queue that signals asks of its threads: a signal must not be able to reach a thread that
      cannot use it. */
  ghost predicate Matched(p: Params, s: State) {
    && (Has(s, Producer) ==> AtMostOne(s, Consumer))
    && (Has(s, Consumer) && p.policy.Block? ==> AtMostOne(s, Producer))
  }

  ghost predicate Inv(p: Params, s: State) {
    && p.capacity >= 1
    && s.count <= p.capacity
    && NoLostWakeup(p, s)
    && (!p.broadcasts ==> Matched(p, s))
  }

  /** After the notification of an enqueue or a dequeue that moved the queue nobody is left asleep. */
  lemma NotifyWakes(p: Params, s: State, wakes: Tid, runner: Tid, t: Tid)
    requires Inv(p, s)
    requires SomeAsleep(s) ==> IsAsleep(s, wakes)
    requires runner in s.threads && !s.threads[runner].pc.Asleep?
    requires if s.threads[runner].role.Producer? then s.count < p.capacity || !p.policy.Block? else s.count > 0
    requires t in s.threads
    ensures t in Notify(p, s, wakes) && Notify(p, s, wakes).Keys == s.threads.Keys
    ensures Notify(p, s, wakes)[t].role == s.threads[t].role
    ensures !Notify(p, s, wakes)[t].pc.Asleep?
  {
    if !p.broadcasts && s.threads[t].pc.Asleep? {
      assert IsAsleep(s, t) && IsAsleep(s, wakes);
      assert SleepsSafely(p, s, t) && SleepsSafely(p, s, wakes);
      assert Has(s, s.threads[runner].role);
    }
  }

  lemma StepKeepsThreads(p: Params, s: State, step: Step)
    requires Enabled(p, s, step)
    ensures Apply(p, s, step).threads.Keys == s.threads.Keys
    ensures forall t :: t in s.threads ==> Apply(p, s, step).threads[t].role == s.threads[t].role
  {
  }

  lemma SleeperStaysSafe(p: Params, s: State, step: Step, t: Tid)
    requires Inv(p, s) && Enabled(p, s, step)
    requires IsAsleep(Apply(p, s, step), t) && t in s.threads
    ensures SleepsSafely(p, Apply(p, s, step), t)
  {
    hide Notify, Matched;
    assert s.threads[t].pc.Asleep? ==> IsAsleep(s, t);
    match step {
      case Enq(u, wakes) =>
        if !s.closed && (s.count < p.capacity || p.policy.DropOldest?) { NotifyWakes(p, s, wakes, u, t); }
      case Deq(u, _, wakes) =>
        if s.count > 0 { NotifyWakes(p, s, wakes, u, t); }
      case _ =>
    }
  }

  lemma MatchedStays(p: Params, s: State, s': State)
    requires Matched(p, s) && s'.threads.Keys == s.threads.Keys
    requires forall t :: t in s.threads ==> s'.threads[t].role == s.threads[t].role
    ensures Matched(p, s')
  {
    forall r | Has(s', r) ensures Has(s, r) {
      var t :| t in s'.threads && s'.threads[t].role == r;
      assert t in s.threads && s.threads[t].role == r;
    }
  }

  /** Every step keeps the invariant, whichever sleeper a signal picks. */
  lemma StepKeepsInv(p: Params, s: State, step: Step)
    requires Inv(p, s) && Enabled(p, s, step)
    ensures Inv(p, Apply(p, s, step))
  {
    hide Notify, Matched;
    StepKeepsThreads(p, s, step);
    var s' := Apply(p, s, step);
    assert s'.count <= p.capacity;
    if !p.broadcasts { MatchedStays(p, s, s'); }
    forall t | IsAsleep(s', t)
      ensures SleepsSafely(p, s', t)
    {
      SleeperStaysSafe(p, s, step, t);
    }
  }

  lemma {:induction false} RunKeepsInv(p: Params, s: State, steps: seq<Step>)
    requires Inv(p, s) && ValidRun(p, s, steps)
    ensures Inv(p, After(p, s, steps))
    decreases |steps|
  {
    if steps != [] {
      StepKeepsInv(p, s, steps[0]);
      RunKeepsInv(p, Apply(p, s, steps[0]), steps[1..]);
    }
  }

  /** A new queue and its threads. */
  function Start(producers: set<Tid>, consumers: set<Tid>, cancelled: bool): State {
    State(0, false, cancelled,
          map t | t in producers + consumers :: Thread(if t in producers then Producer else Consumer, Running), {})
  }

  /** When a queue that signals is safe, by its policy and its threads. */
  predicate SafeThreads(p: Params, producers: set<Tid>, consumers: set<Tid>) {
    && (producers == {} || |consumers| <= 1)
    && (consumers == {} || !p.policy.Block? || |producers| <= 1)
  }

  lemma StartMatched(p: Params, producers: set<Tid>, consumers: set<Tid>, cancelled: bool)
    requires producers !! consumers && SafeThreads(p, producers, consumers)
    ensures Matched(p, Start(producers, consumers, cancelled))
  {
    var s := Start(producers, consumers, cancelled);
    forall t, u | t in s.threads && u in s.threads && s.threads[t].role == s.threads[u].role
      ensures s.threads[t].role.Producer? ==> t in producers && u in producers
      ensures s.threads[t].role.Consumer? ==> t in consumers && u in consumers
    {
    }
    forall ts: set<Tid>, t, u | |ts| <= 1 && t in ts && u in ts ensures t == u { OnlyOne(ts, t, u); }
  }

  lemma OnlyOne(ts: set<Tid>, t: Tid, u: Tid)
    requires |ts| <= 1 && t in ts && u in ts
    ensures t == u
  {
    var rest := ts - {t};
    assert |rest| == |ts| - 1;
    assert u in {t} + rest;
  }

  /** Safe threads, and any threads of a queue that broadcasts, never lose a wakeup: any capacity, any
      schedule, any choice of sleeper, with a context that may be cancelled from the start. */
  lemma WakeupsAreNeverLost(p: Params, producers: set<Tid>, consumers: set<Tid>, cancelled: bool, steps: seq<Step>)
    requires p.capacity >= 1 && producers !! consumers && (p.broadcasts || SafeThreads(p, producers, consumers))
    requires ValidRun(p, Start(producers, consumers, cancelled), steps)
    ensures var t := After(p, Start(producers, consumers, cancelled), steps);
      NoLostWakeup(p, t) && t.count <= p.capacity
  {
    hide After, ValidRun, Matched;
    if !p.broadcasts { StartMatched(p, producers, consumers, cancelled); }
    RunKeepsInv(p, Start(producers, consumers, cancelled), steps);
  }

  // ----- Unsafe threads do lose one ------------------------------------------------------------

  lemma Cons(p: Params, s: State, step: Step, s': State, rest: seq<Step>)
    requires Enabled(p, s, step) && Apply(p, s, step) == s' && ValidRun(p, s', rest)
    ensures ValidRun(p, s, [step] + rest) && After(p, s, [step] + rest) == After(p, s', rest)
  {
    assert ([step] + rest)[1..] == rest;
  }

  /** A schedule that loses a wakeup. */
  ghost predicate Loses(p: Params, s: State, steps: seq<Step>) {
    ValidRun(p, s, steps) && !NoLostWakeup(p, After(p, s, steps))
  }

  lemma LosesCons(p: Params, s: State, step: Step, rest: seq<Step>)
    requires Enabled(p, s, step) && Loses(p, Apply(p, s, step), rest)
    ensures Loses(p, s, [step] + rest)
  {
    Cons(p, s, step, Apply(p, s, step), rest);
  }

  /** One step after which `t` sleeps beside a reason to run. */
  lemma LosesNow(p: Params, s: State, step: Step, t: Tid)
    requires Enabled(p, s, step) && IsAsleep(Apply(p, s, step), t) && !SleepsSafely(p, Apply(p, s, step), t)
    ensures Loses(p, s, [step] + [])
  {
    Cons(p, s, step, Apply(p, s, step), []);
    assert [step] + [] == [step];
  }

  /** Two consumers sleep on an empty queue, one event comes, one of them is notified. */
  lemma TwoConsumersLose(p: Params, s: State, a: Tid, c: Tid, d: Tid) returns (steps: seq<Step>)
    requires p.capacity >= 1 && !p.broadcasts && s.count == 0 && !s.closed && !s.cancelled
    requires c != d && a in s.threads && c in s.threads && d in s.threads
    requires forall t :: t in s.threads ==> s.threads[t].pc.Running?
    requires s.threads[a].role.Producer? && s.threads[c].role.Consumer? && s.threads[d].role.Consumer?
    ensures Loses(p, s, steps)
  {
    var s1 := Apply(p, s, Deq(c, 0, c));
    assert IsAsleep(s1, c);
    var s2 := Apply(p, s1, Deq(d, 0, c));
    assert IsAsleep(s2, c) && IsAsleep(s2, d);
    LosesNow(p, s2, Enq(a, c), d);
    LosesCons(p, s1, Deq(d, 0, c), [Enq(a, c)] + []);
    LosesCons(p, s, Deq(c, 0, c), [Deq(d, 0, c)] + ([Enq(a, c)] + []));
    steps := [Deq(c, 0, c)] + ([Deq(d, 0, c)] + ([Enq(a, c)] + []));
  }

  /** Two producers sleep on a full queue, one event goes, one of them is notified. */
  lemma TwoProducersLoseWhenFull(p: Params, s: State, a: Tid, b: Tid, c: Tid) returns (steps: seq<Step>)
    requires p.capacity >= 1 && !p.broadcasts && p.policy.Block? && s.count == p.capacity && !s.closed
    requires a != b && a in s.threads && b in s.threads && c in s.threads
    requires forall t :: t in s.threads ==> s.threads[t].pc.Running?
    requires s.threads[a].role.Producer? && s.threads[b].role.Producer? && s.threads[c].role.Consumer?
    ensures Loses(p, s, steps)
  {
    var s1 := Apply(p, s, Enq(a, a));
    assert IsAsleep(s1, a);
    var s2 := Apply(p, s1, Enq(b, a));
    assert IsAsleep(s2, a) && IsAsleep(s2, b);
    LosesNow(p, s2, Deq(c, 1, a), b);
    LosesCons(p, s1, Enq(b, a), [Deq(c, 1, a)] + []);
    LosesCons(p, s, Enq(a, a), [Enq(b, a)] + ([Deq(c, 1, a)] + []));
    steps := [Enq(a, a)] + ([Enq(b, a)] + ([Deq(c, 1, a)] + []));
  }

  /** One producer first fills the queue, whatever its capacity. */
  lemma {:induction false} TwoProducersLose(p: Params, s: State, a: Tid, b: Tid, c: Tid) returns (steps: seq<Step>)
    requires p.capacity >= 1 && !p.broadcasts && p.policy.Block? && s.count <= p.capacity && !s.closed
    requires a != b && a in s.threads && b in s.threads && c in s.threads
    requires forall t :: t in s.threads ==> s.threads[t].pc.Running?
    requires s.threads[a].role.Producer? && s.threads[b].role.Producer? && s.threads[c].role.Consumer?
    ensures Loses(p, s, steps)
    decreases p.capacity - s.count
  {
    if s.count == p.capacity {
      steps := TwoProducersLoseWhenFull(p, s, a, b, c);
    } else {
      assert !SomeAsleep(s);
      var rest := TwoProducersLose(p, Apply(p, s, Enq(a, a)), a, b, c);
      LosesCons(p, s, Enq(a, a), rest);
      steps := [Enq(a, a)] + rest;
    }
  }

  lemma TwoOf(ts: set<Tid>) returns (t: Tid, u: Tid)
    requires |ts| >= 2
    ensures t in ts && u in ts && t != u
  {
    t :| t in ts;
    assert |ts - {t}| >= 1;
    u :| u in ts - {t};
  }

  lemma UnsafeThreadsLose(p: Params, producers: set<Tid>, consumers: set<Tid>) returns (steps: seq<Step>)
    requires p.capacity >= 1 && producers !! consumers && !p.broadcasts && !SafeThreads(p, producers, consumers)
    ensures Loses(p, Start(producers, consumers, false), steps)
  {
    hide Loses;
    var s := Start(producers, consumers, false);
    if producers != {} && |consumers| > 1 {
      var a :| a in producers;
      var c, d := TwoOf(consumers);
      steps := TwoConsumersLose(p, s, a, c, d);
    } else {
      var a, b := TwoOf(producers);
      var c :| c in consumers;
      steps := TwoProducersLose(p, s, a, b, c);
    }
  }

  ghost predicate NeverLoses(p: Params, producers: set<Tid>, consumers: set<Tid>) {
    forall steps :: !Loses(p, Start(producers, consumers, false), steps)
  }

  /**
   The exact condition, for every capacity, policy and set of threads of a new queue: no schedule
   loses a wakeup if and only if the queue broadcasts or its threads are safe.
   */
  lemma WakeupsAreSafeIff(p: Params, producers: set<Tid>, consumers: set<Tid>)
    requires p.capacity >= 1 && producers !! consumers
    ensures NeverLoses(p, producers, consumers) <==> p.broadcasts || SafeThreads(p, producers, consumers)
  {
    hide SafeThreads;
    var s := Start(producers, consumers, false);
    if p.broadcasts || SafeThreads(p, producers, consumers) {
      forall steps ensures !Loses(p, s, steps) {
        if ValidRun(p, s, steps) { WakeupsAreNeverLost(p, producers, consumers, false, steps); }
      }
    } else {
      var steps := UnsafeThreadsLose(p, producers, consumers);
    }
  }

  // ----- Getting stuck ---------------------------------------------------------------------------

  /** Somebody sleeps beside a reason to run, and nobody has been notified who might wake him. */
  ghost predicate Stuck(p: Params, s: State) {
    && (exists t :: IsAsleep(s, t) && !SleepsSafely(p, s, t))
    && !exists t :: t in s.threads && s.threads[t].pc.Woken?
  }

  function WokenSet(s: State): set<Tid> { set t | t in s.threads && s.threads[t].pc.Woken? }

  /** Without blocking, only consumers sleep, and if one does, enough are notified for what is queued. */
  ghost predicate Served(p: Params, s: State) {
    && s.count <= p.capacity && p.capacity >= 1
    && (forall t :: IsAsleep(s, t) ==> s.threads[t].role.Consumer? && t in s.watchers)
    && (SomeAsleep(s) ==> !s.closed && s.count <= |WokenSet(s)|)
  }

  lemma WakeAllWakes(s: State, t: Tid)
    ensures t in WakeAll(s.threads) ==> !WakeAll(s.threads)[t].pc.Asleep?
  {
  }

  /** The notified threads after a notification by `u`, which then runs or sleeps. */
  lemma NotifiedSet(p: Params, s: State, s': State, wakes: Tid, u: Tid, pc: Pc)
    requires !p.broadcasts && u in s.threads && !s.threads[u].pc.Asleep? && !pc.Woken?
    requires SomeAsleep(s) ==> IsAsleep(s, wakes)
    requires s'.threads == SetPc(Notify(p, s, wakes), u, pc)
    ensures WokenSet(s') == (WokenSet(s) + if SomeAsleep(s) then {wakes} else {}) - {u}
    ensures SomeAsleep(s) ==> wakes !in WokenSet(s) && wakes != u
  {
  }

  lemma QuietSet(s: State, s': State, u: Tid, pc: Pc)
    requires u in s.threads && !pc.Woken? && s'.threads == SetPc(s.threads, u, pc)
    ensures WokenSet(s') == WokenSet(s) - {u}
  {
  }

  lemma EnqServes(p: Params, s: State, u: Tid, wakes: Tid)
    requires Served(p, s) && !p.broadcasts && !p.policy.Block? && Enabled(p, s, Enq(u, wakes))
    requires !s.threads[u].pc.Woken?
    ensures Served(p, Apply(p, s, Enq(u, wakes)))
  {
    hide WokenSet;
    var s' := Apply(p, s, Enq(u, wakes));
    forall t | IsAsleep(s', t) ensures IsAsleep(s, t) { }
    if SomeAsleep(s') {
      var t :| IsAsleep(s', t);
      assert IsAsleep(s, t);
      WokenEnq(p, s, s', u, wakes);
    }
  }

  lemma WokenEnq(p: Params, s: State, s': State, u: Tid, wakes: Tid)
    requires Served(p, s) && !p.broadcasts && !p.policy.Block? && Enabled(p, s, Enq(u, wakes)) && SomeAsleep(s)
    requires !s.threads[u].pc.Woken? && s' == Apply(p, s, Enq(u, wakes))
    ensures s'.count <= |WokenSet(s')|
  {
    if s.count < p.capacity || p.policy.DropOldest? {
      NotifiedSet(p, s, s', wakes, u, Running);
      assert WokenSet(s') == WokenSet(s) + {wakes};
    } else {
      QuietSet(s, s', u, Running);
      assert WokenSet(s') == WokenSet(s);
    }
  }

  lemma DeqServes(p: Params, s: State, u: Tid, taken: nat, wakes: Tid)
    requires Served(p, s) && !p.broadcasts && Enabled(p, s, Deq(u, taken, wakes))
    ensures Served(p, Apply(p, s, Deq(u, taken, wakes)))
  {
    hide WokenSet;
    var s' := Apply(p, s, Deq(u, taken, wakes));
    forall t | IsAsleep(s', t) && t != u ensures IsAsleep(s, t) { }
    if SomeAsleep(s') && s.count > 0 {
      var t :| IsAsleep(s', t);
      assert IsAsleep(s, t);
      WokenDeq(p, s, s', u, taken, wakes);
    }
  }

  lemma WokenDeq(p: Params, s: State, s': State, u: Tid, taken: nat, wakes: Tid)
    requires Served(p, s) && !p.broadcasts && Enabled(p, s, Deq(u, taken, wakes)) && SomeAsleep(s) && s.count > 0
    requires s' == Apply(p, s, Deq(u, taken, wakes))
    ensures s'.count <= |WokenSet(s')|
  {
    hide WokenSet, Notify;
    NotifiedSet(p, s, s', wakes, u, Running);
    OneOff(WokenSet(s), wakes, u);
  }

  lemma OneOff(ts: set<Tid>, t: Tid, u: Tid)
    requires t !in ts && t != u
    ensures |(ts + {t}) - {u}| >= |ts|
  {
    assert |ts + {t}| == |ts| + 1;
    if u in ts {
      assert ts + {t} == ((ts + {t}) - {u}) + {u};
    } else {
      assert (ts + {t}) - {u} == ts + {t};
    }
  }

  lemma StepServes(p: Params, s: State, step: Step)
    requires Served(p, s) && ProducersRun(s) && !p.broadcasts && !p.policy.Block? && Enabled(p, s, step)
    ensures Served(p, Apply(p, s, step)) && ProducersRun(Apply(p, s, step))
  {
    var s' := Apply(p, s, step);
    if step.Enq? {
      EnqServes(p, s, step.t, step.wakes);
    } else if step.Deq? {
      DeqServes(p, s, step.t, step.taken, step.wakes);
    } else if s'.threads == s.threads {
      SameThreads(s, s');
    } else {
      forall t ensures !IsAsleep(s', t) { WakeAllWakes(s, t); }
    }
  }

  lemma SameThreads(s: State, s': State)
    requires s'.threads == s.threads
    ensures WokenSet(s') == WokenSet(s) && (SomeAsleep(s') <==> SomeAsleep(s))
    ensures forall t :: IsAsleep(s', t) <==> IsAsleep(s, t)
  {
    if SomeAsleep(s') { var t :| IsAsleep(s', t); assert IsAsleep(s, t); }
    if SomeAsleep(s) { var t :| IsAsleep(s, t); assert IsAsleep(s', t); }
  }

  ghost predicate ProducersRun(s: State) {
    forall t :: t in s.threads && s.threads[t].role.Producer? ==> s.threads[t].pc.Running?
  }

  lemma {:induction false} RunServes(p: Params, s: State, steps: seq<Step>)
    requires Served(p, s) && ProducersRun(s) && !p.broadcasts && !p.policy.Block? && ValidRun(p, s, steps)
    ensures Served(p, After(p, s, steps))
    decreases |steps|
  {
    hide Served, ProducersRun, Apply, Enabled;
    if steps != [] {
      StepServes(p, s, steps[0]);
      RunServes(p, Apply(p, s, steps[0]), steps[1..]);
    }
  }

  lemma ServedIsNotStuck(p: Params, s: State)
    requires Served(p, s)
    ensures !Stuck(p, s)
  {
    assert (forall t :: t in s.threads ==> !s.threads[t].pc.Woken?) ==> WokenSet(s) == {};
  }

  /** With a dropping policy nobody ever gets stuck, however many threads there are. */
  lemma DroppingNeverSticks(p: Params, producers: set<Tid>, consumers: set<Tid>, cancelled: bool, steps: seq<Step>)
    requires p.capacity >= 1 && producers !! consumers && !p.policy.Block?
    requires ValidRun(p, Start(producers, consumers, cancelled), steps)
    ensures !Stuck(p, After(p, Start(producers, consumers, cancelled), steps))
  {
    hide After, ValidRun, Stuck;
    var s := Start(producers, consumers, cancelled);
    if p.broadcasts {
      WakeupsAreNeverLost(p, producers, consumers, cancelled, steps);
      SafeIsNotStuck(p, After(p, s, steps));
    } else {
      assert !SomeAsleep(s);
      RunServes(p, s, steps);
      ServedIsNotStuck(p, After(p, s, steps));
    }
  }

  lemma SafeIsNotStuck(p: Params, s: State)
    requires NoLostWakeup(p, s)
    ensures !Stuck(p, s)
  {
  }

  // ----- Under blocking it can happen ------------------------------------------------------------

  ghost predicate CanStick(p: Params, s: State) {
    exists steps :: ValidRun(p, s, steps) && Stuck(p, After(p, s, steps))
  }

  lemma StuckNow(p: Params, s: State)
    requires Stuck(p, s)
    ensures CanStick(p, s)
  {
    var none: seq<Step> := [];
    assert ValidRun(p, s, none) && After(p, s, none) == s;
  }

  lemma StickCons(p: Params, s: State, step: Step)
    requires Enabled(p, s, step) && CanStick(p, Apply(p, s, step))
    ensures CanStick(p, s)
  {
    hide Stuck, Apply, Enabled;
    var s' := Apply(p, s, step);
    var rest :| ValidRun(p, s', rest) && Stuck(p, After(p, s', rest));
    Cons(p, s, step, s', rest);
    assert ValidRun(p, s, [step] + rest);
  }

  /** All that is notified are producers, the queue is open and blocks, and `c` is a consumer. */
  ghost predicate Scene(p: Params, s: State, c: Tid) {
    && p.capacity >= 1 && p.policy.Block? && !p.broadcasts && !s.closed && !s.cancelled && s.count <= p.capacity
    && c in s.threads && s.threads[c].role.Consumer?
    && (forall t :: t in s.threads && s.threads[t].pc.Woken? ==> s.threads[t].role.Producer?)
  }

  ghost predicate Sleeping(s: State, ts: set<Tid>) {
    forall t :: t in ts ==> IsAsleep(s, t) && s.threads[t].role.Producer?
  }

  ghost predicate Notified(s: State, ts: set<Tid>) {
    forall t :: t in ts ==> t in s.threads && s.threads[t].pc.Woken? && s.threads[t].role.Producer?
  }

  /** The queue is full, the consumer sleeps; the notified producers find it full and sleep again. */
  lemma {:induction false} AllSleepAgain(p: Params, s: State, c: Tid)
    requires Scene(p, s, c) && IsAsleep(s, c) && s.count == p.capacity
    ensures CanStick(p, s)
    decreases |WokenSet(s)|
  {
    if WokenSet(s) == {} {
      assert !SleepsSafely(p, s, c);
      assert forall t :: t in s.threads && s.threads[t].pc.Woken? ==> t in WokenSet(s);
      StuckNow(p, s);
    } else {
      var t :| t in WokenSet(s);
      var step := Enq(t, c);
      var s' := Apply(p, s, step);
      QuietSet(s, s', t, Asleep);
      assert IsAsleep(s', c);
      AllSleepAgain(p, s', c);
      StickCons(p, s, step);
    }
  }

  /** The consumer sleeps; each notified producer fills a slot and its signal reaches a sleeping producer. */
  lemma {:induction false} SignalsGoAstray(p: Params, s: State, c: Tid, xs: set<Tid>, zs: set<Tid>)
    requires Scene(p, s, c) && IsAsleep(s, c) && Notified(s, xs) && Sleeping(s, zs)
    requires s.count + |xs| == p.capacity && |zs| >= |xs|
    ensures CanStick(p, s)
    decreases |xs|
  {
    if xs == {} {
      AllSleepAgain(p, s, c);
    } else {
      var x :| x in xs;
      var z :| z in zs;
      var step := Enq(x, z);
      var s' := Apply(p, s, step);
      assert s'.threads == s.threads[z := s.threads[z].(pc := Woken)][x := s.threads[x].(pc := Running)];
      assert IsAsleep(s', c) && Notified(s', xs - {x}) && Sleeping(s', zs - {z});
      SignalsGoAstray(p, s', c, xs - {x}, zs - {z});
      StickCons(p, s, step);
    }
  }

  /** The consumer empties the queue, each time notifying a sleeping producer, and goes to sleep. */
  lemma {:induction false} ConsumerDrains(p: Params, s: State, c: Tid, xs: set<Tid>, zs: set<Tid>)
    requires Scene(p, s, c) && s.threads[c].pc.Running? && Notified(s, xs) && Sleeping(s, zs)
    requires s.count + |xs| == p.capacity && |zs| >= p.capacity + s.count
    ensures CanStick(p, s)
    decreases s.count
  {
    var z :| z in zs;
    if s.count == 0 {
      var step := Deq(c, 0, z);
      var s' := Apply(p, s, step);
      assert s'.threads == s.threads[c := s.threads[c].(pc := Asleep)];
      assert IsAsleep(s', c) && Notified(s', xs) && Sleeping(s', zs);
      SignalsGoAstray(p, s', c, xs, zs);
      StickCons(p, s, step);
    } else {
      var step := Deq(c, 1, z);
      var s' := Apply(p, s, step);
      assert s'.threads == s.threads[z := s.threads[z].(pc := Woken)][c := s.threads[c]];
      assert z !in xs;
      assert Notified(s', xs + {z}) && Sleeping(s', zs - {z});
      ConsumerDrains(p, s', c, xs + {z}, zs - {z});
      StickCons(p, s, step);
    }
  }

  /** The producers find the queue full and sleep. */
  lemma {:induction false} ProducersSleep(p: Params, s: State, c: Tid, rs: set<Tid>, zs: set<Tid>)
    requires Scene(p, s, c) && s.threads[c].pc.Running? && Sleeping(s, zs) && s.count == p.capacity
    requires forall t :: t in rs ==> t in s.threads && s.threads[t].role.Producer? && s.threads[t].pc.Running?
    requires |rs| + |zs| >= 2 * p.capacity && rs !! zs
    ensures CanStick(p, s)
    decreases |rs|
  {
    if rs == {} {
      ConsumerDrains(p, s, c, {}, zs);
    } else {
      var r :| r in rs;
      var w := if SomeAsleep(s) then var t :| IsAsleep(s, t); t else r;
      var step := Enq(r, w);
      var s' := Apply(p, s, step);
      assert s'.threads == s.threads[r := s.threads[r].(pc := Asleep)];
      assert Sleeping(s', zs + {r});
      ProducersSleep(p, s', c, rs - {r}, zs + {r});
      StickCons(p, s, step);
    }
  }

  lemma {:induction false} QueueFills(p: Params, s: State, c: Tid, rs: set<Tid>)
    requires Scene(p, s, c) && |rs| >= 2 * p.capacity && c !in rs
    requires forall t :: t in s.threads ==> s.threads[t].pc.Running?
    requires forall t :: t in rs ==> t in s.threads && s.threads[t].role.Producer?
    ensures CanStick(p, s)
    decreases p.capacity - s.count
  {
    if s.count == p.capacity {
      ProducersSleep(p, s, c, rs, {});
    } else {
      var r :| r in rs;
      assert !SomeAsleep(s);
      var s' := Apply(p, s, Enq(r, r));
      assert s'.threads == s.threads;
      QueueFills(p, s', c, rs);
      StickCons(p, s, Enq(r, r));
    }
  }

  /** With the blocking policy it happens to a queue of any capacity that signals, given a consumer and
      twice as many producers as it has slots. */
  lemma BlockingCanStick(p: Params, producers: set<Tid>, consumers: set<Tid>)
    requires p.capacity >= 1 && p.policy.Block? && !p.broadcasts && producers !! consumers
    requires consumers != {} && |producers| >= 2 * p.capacity
    ensures CanStick(p, Start(producers, consumers, false))
  {
    hide CanStick;
    var c :| c in consumers;
    QueueFills(p, Start(producers, consumers, false), c, producers);
  }

  /** The lock sections of this protocol are the operations of the bounded FIFO: they move the count
      the same way, and a thread goes to sleep exactly when the FIFO tells its caller to wait. */
  lemma SectionsFollowFifo(p: Params, s: State, q: Queue, t: Tid, ev: Event, wakes: Tid)
    requires q.policy == p.policy && q.capacity == p.capacity && p.capacity >= 1
    requires q.closed == s.closed && |q.items| == s.count <= p.capacity
    ensures Enabled(p, s, Enq(t, wakes)) ==>
      var (q', reply) := Fifo.Step(q, Enqueue(ev));
      var s' := Apply(p, s, Enq(t, wakes));
      |q'.items| == s'.count && (reply == MustWait <==> s'.threads[t].pc.Asleep?)
    ensures Enabled(p, s, Deq(t, 1, wakes)) ==>
      var (q', reply) := Fifo.Step(q, Dequeue(s.cancelled));
      var s' := Apply(p, s, Deq(t, 1, wakes));
      |q'.items| == s'.count && (reply == MustWait <==> s'.threads[t].pc.Asleep?)
  {
  }
}
