/** The threads that run queued tasks, until they are told to exit. */
module WorkerPool {
  datatype Worker = Waiting | Busy(task: nat) | Gone

  datatype Take = Take(worker: nat, task: nat)

  datatype State = State(queue: seq<nat>, workers: seq<Worker>, exiting: bool,
    enqueued: seq<nat>, takes: seq<Take>, ended: seq<nat>)

  datatype Event =
    | Enqueued(task: nat)
    | Taken(worker: nat)
    | Ended(worker: nat)
    | ExitAsked
    | Left(worker: nat)

  /** A worker wakes up for a task or to exit, and exits only when no task is queued. */
  predicate Legal(s: State, e: Event) {
    match e
    case Enqueued(_) => !s.exiting
    case Taken(w) => w < |s.workers| && s.workers[w].Waiting? && s.queue != []
    case Ended(w) => w < |s.workers| && s.workers[w].Busy?
    case ExitAsked => true
    case Left(w) => w < |s.workers| && s.workers[w].Waiting? && s.exiting && s.queue == []
  }

  function Apply(s: State, e: Event): State
    requires Legal(s, e)
  {
    match e
    case Enqueued(t) => s.(queue := s.queue + [t], enqueued := s.enqueued + [t])
    case Taken(w) =>
      s.(queue := s.queue[1..], workers := s.workers[w := Busy(s.queue[0])], takes := s.takes + [Take(w, s.queue[0])])
    case Ended(w) => s.(workers := s.workers[w := Waiting], ended := s.ended + [s.workers[w].task])
    case ExitAsked => s.(exiting := true)
    case Left(w) => s.(workers := s.workers[w := Gone])
  }

  function TasksOf(takes: seq<Take>): seq<nat> {
    seq(|takes|, i requires 0 <= i < |takes| => takes[i].task)
  }

  function Times(tasks: seq<nat>, t: nat): nat {
    if tasks == [] then 0 else Times(tasks[..|tasks| - 1], t) + if tasks[|tasks| - 1] == t then 1 else 0
  }

  function At(w: Worker, t: nat): nat {
    if w == Busy(t) then 1 else 0
  }

  /** How many workers are at a task. */
  function Held(ws: seq<Worker>, t: nat): nat {
    if ws == [] then 0 else At(ws[0], t) + Held(ws[1..], t)
  }

  lemma {:induction false} HeldUpdate(ws: seq<Worker>, w: nat, x: Worker, t: nat)
    requires w < |ws|
    ensures Held(ws[w := x], t) + At(ws[w], t) == Held(ws, t) + At(x, t)
  {
    if w == 0 {
      assert ws[0 := x][1..] == ws[1..];
    } else {
      HeldUpdate(ws[1..], w - 1, x, t);
      assert ws[w := x][1..] == ws[1..][w - 1 := x];
    }
  }

  lemma TimesSnoc(tasks: seq<nat>, x: nat, t: nat)
    ensures Times(tasks + [x], t) == Times(tasks, t) + if x == t then 1 else 0
  {
    assert (tasks + [x])[..|tasks|] == tasks;
  }

  /** A task has been taken as often as it has ended or is held. */
  ghost predicate Balanced(s: State, t: nat) {
    Times(TasksOf(s.takes), t) == Times(s.ended, t) + Held(s.workers, t)
  }

  ghost predicate Inv(s: State) {
    TasksOf(s.takes) + s.queue == s.enqueued && (forall t: nat :: Balanced(s, t)) &&
    (forall w :: 0 <= w < |s.workers| && s.workers[w].Gone? ==> s.exiting && s.queue == [])
  }

  lemma TakingKeepsBalance(s: State, w: nat, t: nat)
    requires Balanced(s, t) && Legal(s, Taken(w))
    ensures Balanced(Apply(s, Taken(w)), t)
  {
    hide Held, Times, TasksOf;
    HeldUpdate(s.workers, w, Busy(s.queue[0]), t);
    TimesSnoc(TasksOf(s.takes), s.queue[0], t);
    TasksOfSnoc(s.takes, Take(w, s.queue[0]));
  }

  lemma TasksOfSnoc(takes: seq<Take>, x: Take)
    ensures TasksOf(takes + [x]) == TasksOf(takes) + [x.task]
  {
  }

  lemma EndingKeepsBalance(s: State, w: nat, t: nat)
    requires Balanced(s, t) && Legal(s, Ended(w))
    ensures Balanced(Apply(s, Ended(w)), t)
  {
    hide Held, Times, TasksOf;
    HeldUpdate(s.workers, w, Waiting, t);
    TimesSnoc(s.ended, s.workers[w].task, t);
  }

  lemma ApplyKeepsBalance(s: State, e: Event, t: nat)
    requires Balanced(s, t) && Legal(s, e)
    ensures Balanced(Apply(s, e), t)
  {
    match e {
      case Enqueued(_) =>
      case Taken(w) => TakingKeepsBalance(s, w, t);
      case Ended(w) => EndingKeepsBalance(s, w, t);
      case ExitAsked =>
      case Left(w) => HeldUpdate(s.workers, w, Gone, t);
    }
  }

  lemma ApplyKeepsInv(s: State, e: Event)
    requires Inv(s) && Legal(s, e)
    ensures Inv(Apply(s, e))
  {
    forall t: nat ensures Balanced(Apply(s, e), t) {
      ApplyKeepsBalance(s, e, t);
    }
    hide Balanced;
    match e {
      case Enqueued(x) => assert TasksOf(s.takes) + (s.queue + [x]) == (TasksOf(s.takes) + s.queue) + [x];
      case Taken(w) =>
        assert TasksOf(Apply(s, e).takes) == TasksOf(s.takes) + [s.queue[0]];
        assert s.queue == [s.queue[0]] + s.queue[1..];
      case _ =>
    }
  }

  ghost predicate LegalRun(s: State, run: seq<Event>)
    decreases |run|
  {
    run == [] || (Legal(s, run[0]) && LegalRun(Apply(s, run[0]), run[1..]))
  }

  function After(s: State, run: seq<Event>): State
    requires LegalRun(s, run)
    decreases |run|
  {
    if run == [] then s else After(Apply(s, run[0]), run[1..])
  }

  function Start(n: nat): State {
    State([], seq(n, _ => Waiting), false, [], [], [])
  }

  lemma {:induction false} NothingHeld(ws: seq<Worker>, t: nat)
    requires forall w :: 0 <= w < |ws| ==> !ws[w].Busy?
    ensures Held(ws, t) == 0
  {
    if ws != [] {
      NothingHeld(ws[1..], t);
    }
  }

  lemma StartIsFine(n: nat)
    ensures Inv(Start(n))
  {
    forall t: nat ensures Balanced(Start(n), t) {
      NothingHeld(Start(n).workers, t);
    }
  }

  lemma {:induction false} RunKeepsInv(s: State, run: seq<Event>)
    requires Inv(s) && LegalRun(s, run)
    ensures Inv(After(s, run)) && |After(s, run).workers| == |s.workers|
    decreases |run|
  {
    if run != [] {
      ApplyKeepsInv(s, run[0]);
      RunKeepsInv(Apply(s, run[0]), run[1..]);
    }
  }

  /** The tasks that a run queues, in order. */
  function Queued(run: seq<Event>): seq<nat> {
    if run == [] then [] else (if run[0].Enqueued? then [run[0].task] else []) + Queued(run[1..])
  }

  function Takings(run: seq<Event>): nat {
    if run == [] then 0 else (if run[0].Taken? then 1 else 0) + Takings(run[1..])
  }

  function Endings(run: seq<Event>): nat {
    if run == [] then 0 else (if run[0].Ended? then 1 else 0) + Endings(run[1..])
  }

  lemma {:induction false} RunFollows(s: State, run: seq<Event>)
    requires LegalRun(s, run)
    ensures var t := After(s, run);
            t.enqueued == s.enqueued + Queued(run) && |t.takes| == |s.takes| + Takings(run) &&
            |t.ended| == |s.ended| + Endings(run) && t.exiting == (s.exiting || ExitAsked in run)
    decreases |run|
  {
    if run == [] {
      assert s.enqueued + [] == s.enqueued;
    } else {
      RunFollows(Apply(s, run[0]), run[1..]);
      assert run == [run[0]] + run[1..];
      if run[0].Enqueued? {
        assert s.enqueued + ([run[0].task] + Queued(run[1..])) == s.enqueued + [run[0].task] + Queued(run[1..]);
      } else {
        assert [] + Queued(run[1..]) == Queued(run[1..]);
      }
    }
  }

  /** Tasks are taken in the order in which the run queued them, one by each taking; and when all workers have
      gone, which is what the destructor waits for, every task has been taken and has ended, as often as it was
      queued. */
  lemma EveryTaskIsRunOnce(n: nat, run: seq<Event>, t: nat)
    requires n > 0 && LegalRun(Start(n), run)
    ensures var s := After(Start(n), run);
            |s.workers| == n && Takings(run) <= |Queued(run)| && TasksOf(s.takes) == Queued(run)[..Takings(run)] &&
            |s.ended| == Endings(run) && (s.exiting <==> ExitAsked in run) &&
            ((forall w :: 0 <= w < n ==> s.workers[w].Gone?) ==>
              Takings(run) == |Queued(run)| && Times(s.ended, t) == Times(Queued(run), t))
  {
    RunFollows(Start(n), run);
    assert [] + Queued(run) == Queued(run);
    StartIsFine(n);
    RunKeepsInv(Start(n), run);
    var s := After(Start(n), run);
    assert Balanced(s, t);
    if forall w :: 0 <= w < n ==> s.workers[w].Gone? {
      NothingHeld(s.workers, t);
      assert s.workers[0].Gone?;
      assert TasksOf(s.takes) + [] == TasksOf(s.takes);
    }
  }

  // ----- when the exit is reached

  /** The steps that are left to the workers once they are asked to exit: two for each queued task, one for
      each task at hand, and one for each worker to leave. */
  function StepsLeft(s: State): nat {
    2 * |s.queue| + Busies(s.workers) + Staying(s.workers)
  }

  function Busies(ws: seq<Worker>): nat {
    if ws == [] then 0 else (if ws[0].Busy? then 1 else 0) + Busies(ws[1..])
  }

  function Staying(ws: seq<Worker>): nat {
    if ws == [] then 0 else (if ws[0].Gone? then 0 else 1) + Staying(ws[1..])
  }

  lemma {:induction false} CountsUpdate(ws: seq<Worker>, w: nat, x: Worker)
    requires w < |ws|
    ensures Busies(ws[w := x]) + (if ws[w].Busy? then 1 else 0) == Busies(ws) + if x.Busy? then 1 else 0
    ensures Staying(ws[w := x]) + (if ws[w].Gone? then 0 else 1) == Staying(ws) + if x.Gone? then 0 else 1
  {
    if w == 0 {
      assert ws[0 := x][1..] == ws[1..];
    } else {
      CountsUpdate(ws[1..], w - 1, x);
      assert ws[w := x][1..] == ws[1..][w - 1 := x];
    }
  }

  lemma {:induction false} NoneIff(ws: seq<Worker>)
    ensures Busies(ws) == 0 <==> forall w :: 0 <= w < |ws| ==> !ws[w].Busy?
    ensures Staying(ws) == 0 <==> forall w :: 0 <= w < |ws| ==> ws[w].Gone?
    ensures Staying(ws) == 0 ==> Busies(ws) == 0
  {
    if ws != [] {
      NoneIff(ws[1..]);
      assert forall w :: 1 <= w < |ws| ==> ws[w] == ws[1..][w - 1];
    }
  }

  predicate OfWorker(e: Event) {
    e.Taken? || e.Ended? || e.Left?
  }

  lemma StepTaken(s: State, e: Event)
    requires Legal(s, e) && OfWorker(e)
    ensures StepsLeft(Apply(s, e)) == StepsLeft(s) - 1 && Apply(s, e).exiting == s.exiting
  {
    match e
    case Taken(w) => CountsUpdate(s.workers, w, Busy(s.queue[0]));
    case Ended(w) => CountsUpdate(s.workers, w, Waiting);
    case Left(w) => CountsUpdate(s.workers, w, Gone);
  }

  /** Once asked to exit, the workers go on for exactly that many steps, whatever their order: before that
      one of them can go on, and after that all have gone. */
  lemma {:induction false} ExitIsReached(s: State, run: seq<Event>)
    requires Inv(s) && s.exiting && s.workers != [] && LegalRun(s, run)
    requires forall i :: 0 <= i < |run| ==> OfWorker(run[i])
    ensures var t := After(s, run);
            |run| + StepsLeft(t) == StepsLeft(s) &&
            (StepsLeft(t) == 0 <==> forall w :: 0 <= w < |t.workers| ==> t.workers[w].Gone?) &&
            (StepsLeft(t) > 0 ==> exists e :: OfWorker(e) && Legal(t, e))
    decreases |run|
  {
    if run == [] {
      NoneIff(s.workers);
      if forall w :: 0 <= w < |s.workers| ==> s.workers[w].Gone? {
        assert s.workers[0].Gone?;
      } else {
        var w :| 0 <= w < |s.workers| && !s.workers[w].Gone?;
        assert Legal(s, Taken(w)) || Legal(s, Ended(w)) || Legal(s, Left(w));
      }
    } else {
      ApplyKeepsInv(s, run[0]);
      StepTaken(s, run[0]);
      ExitIsReached(Apply(s, run[0]), run[1..]);
    }
  }

  // ----- what an empty queue means

  /** As many tasks have been taken as have ended or are at hand. */
  lemma {:induction false} TakesAreCounted(s: State, run: seq<Event>)
    requires LegalRun(s, run) && |s.takes| == |s.ended| + Busies(s.workers)
    ensures var t := After(s, run); |t.takes| == |t.ended| + Busies(t.workers)
    decreases |run|
  {
    if run != [] {
      match run[0] {
        case Taken(w) => CountsUpdate(s.workers, w, Busy(s.queue[0]));
        case Ended(w) => CountsUpdate(s.workers, w, Waiting);
        case Left(w) => CountsUpdate(s.workers, w, Gone);
        case _ =>
      }
      TakesAreCounted(Apply(s, run[0]), run[1..]);
    }
  }

  /** Over every run, an empty queue means that no task is running exactly when as many have ended as were
      queued. */
  lemma EmptyQueueIsIdleIff(n: nat, run: seq<Event>)
    requires LegalRun(Start(n), run) && After(Start(n), run).queue == []
    ensures var s := After(Start(n), run);
            (forall w :: 0 <= w < |s.workers| ==> !s.workers[w].Busy?) <==> Endings(run) == |Queued(run)|
  {
    var s := After(Start(n), run);
    RunFollows(Start(n), run);
    assert [] + Queued(run) == Queued(run);
    StartIsFine(n);
    RunKeepsInv(Start(n), run);
    NoneIff(Start(n).workers);
    TakesAreCounted(Start(n), run);
    NoneIff(s.workers);
    assert |TasksOf(s.takes)| == |s.enqueued|;
  }
}

/** An execution of the task manager together with the pool: its tasks go to the workers, or run in the
    thread that executes once the queue is empty. */
module Dispatching {
  import TaskManager
  import Timestamps
  import WorkerPool

  type Task = TaskManager.Task

  /** The pool, the position in the list of tasks due, and whether the task there is running in the thread. */
  datatype State = State(pool: WorkerPool.State, pos: nat, inline: bool)

  datatype Event = Sent | Begun | Done | Worked(e: WorkerPool.Event)

  predicate Legal(due: seq<Task>, s: State, e: Event) {
    match e
    case Sent => !s.inline && s.pos < |due| && due[s.pos].runnable && !s.pool.exiting
    case Begun => !s.inline && s.pos < |due| && !due[s.pos].runnable && s.pool.queue == []
    case Done => s.inline
    case Worked(e) => (e.Taken? || e.Ended?) && WorkerPool.Legal(s.pool, e)
  }

  function Apply(due: seq<Task>, s: State, e: Event): State
    requires Legal(due, s, e)
  {
    match e
    case Sent => s.(pool := WorkerPool.Apply(s.pool, WorkerPool.Enqueued(due[s.pos].id)), pos := s.pos + 1)
    case Begun => s.(inline := true)
    case Done => s.(inline := false, pos := s.pos + 1)
    case Worked(e) => s.(pool := WorkerPool.Apply(s.pool, e))
  }

  ghost predicate LegalRun(due: seq<Task>, s: State, run: seq<Event>)
    decreases |run|
  {
    run == [] || (Legal(due, s, run[0]) && LegalRun(due, Apply(due, s, run[0]), run[1..]))
  }

  function After(due: seq<Task>, s: State, run: seq<Event>): State
    requires LegalRun(due, s, run)
    decreases |run|
  {
    if run == [] then s else After(due, Apply(due, s, run[0]), run[1..])
  }

  predicate Idle(p: WorkerPool.State) {
    forall w :: 0 <= w < |p.workers| ==> !p.workers[w].Busy?
  }

  /** A pool that is not being shut down, with at least one worker; it may still be at earlier tasks. */
  predicate InService(p: WorkerPool.State) {
    p.workers != [] && !p.exiting && forall w :: 0 <= w < |p.workers| ==> !p.workers[w].Gone?
  }

  predicate AtRest(p: WorkerPool.State) {
    p.queue == [] && Idle(p)
  }

  predicate SentBefore(due: seq<Task>, k: nat) {
    exists j :: 0 <= j < k <= |due| && due[j].runnable
  }

  /** In no run is a worker at a task while the i-th runs in the thread. */
  ghost predicate AlwaysAlone(due: seq<Task>, p: WorkerPool.State, i: nat) {
    forall run :: LegalRun(due, State(p, 0, false), run) ==> AloneAt(After(due, State(p, 0, false), run), i)
  }

  predicate AloneAt(s: State, i: nat) {
    s.inline && s.pos == i ==> Idle(s.pool)
  }

  // Nothing sent, nothing running.

  predicate Quiet(due: seq<Task>, s: State) {
    s.pos <= |due| && (s.inline ==> s.pos < |due|) && (SentBefore(due, s.pos) || AtRest(s.pool))
  }

  lemma StaysQuiet(due: seq<Task>, s: State, e: Event)
    requires Quiet(due, s) && Legal(due, s, e)
    ensures Quiet(due, Apply(due, s, e))
  {
    if e.Sent? {
      assert due[s.pos].runnable;
    }
  }

  lemma {:induction false} RunStaysQuiet(due: seq<Task>, s: State, run: seq<Event>)
    requires Quiet(due, s) && LegalRun(due, s, run)
    ensures Quiet(due, After(due, s, run))
    decreases |run|
  {
    if run != [] {
      StaysQuiet(due, s, run[0]);
      RunStaysQuiet(due, Apply(due, s, run[0]), run[1..]);
    }
  }

  // A worker that is still at the last task sent.

  lemma {:induction false} OneMore(due: seq<Task>, s: State, run: seq<Event>, e: Event)
    requires LegalRun(due, s, run) && Legal(due, After(due, s, run), e)
    ensures LegalRun(due, s, run + [e]) && After(due, s, run + [e]) == Apply(due, After(due, s, run), e)
    decreases |run|
  {
    if run == [] {
      assert run + [e] == [e] && [e][1..] == [];
    } else {
      OneMore(due, Apply(due, s, run[0]), run[1..], e);
      assert (run + [e])[0] == run[0] && (run + [e])[1..] == run[1..] + [e];
    }
  }

  /** All tasks before the k-th are behind; worker w is at the last of them that was sent, or, if none was
      and it was busy at first, at an earlier task. */
  predicate Lagging(due: seq<Task>, s: State, k: nat, w: nat, busy: bool) {
    s.pos == k <= |due| && !s.inline && !s.pool.exiting && s.pool.queue == [] && w < |s.pool.workers| &&
    (if busy || SentBefore(due, k) then s.pool.workers[w].Busy? else s.pool.workers[w].Waiting?)
  }

  lemma SendNext(due: seq<Task>, s0: State, run: seq<Event>, k: nat, w: nat, busy: bool) returns (more: seq<Event>)
    requires LegalRun(due, s0, run) && Lagging(due, After(due, s0, run), k, w, busy) && k < |due| && due[k].runnable
    ensures LegalRun(due, s0, more) && Lagging(due, After(due, s0, more), k + 1, w, busy)
  {
    var s := After(due, s0, run);
    more := run;
    if s.pool.workers[w].Busy? {
      OneMore(due, s0, more, Worked(WorkerPool.Ended(w)));
      more := more + [Worked(WorkerPool.Ended(w))];
    }
    OneMore(due, s0, more, Sent);
    more := more + [Sent];
    OneMore(due, s0, more, Worked(WorkerPool.Taken(w)));
    more := more + [Worked(WorkerPool.Taken(w))];
    assert SentBefore(due, k + 1);
  }

  lemma RunNext(due: seq<Task>, s0: State, run: seq<Event>, k: nat, w: nat, busy: bool) returns (more: seq<Event>)
    requires LegalRun(due, s0, run) && Lagging(due, After(due, s0, run), k, w, busy) && k < |due| && !due[k].runnable
    ensures LegalRun(due, s0, more) && Lagging(due, After(due, s0, more), k + 1, w, busy)
  {
    OneMore(due, s0, run, Begun);
    more := run + [Begun];
    OneMore(due, s0, more, Done);
    more := more + [Done];
    assert SentBefore(due, k + 1) <==> SentBefore(due, k);
  }

  lemma {:induction false} LagBehind(due: seq<Task>, s0: State, start: seq<Event>, k: nat, w: nat, busy: bool)
    returns (run: seq<Event>)
    requires LegalRun(due, s0, start) && Lagging(due, After(due, s0, start), 0, w, busy) && k <= |due|
    ensures LegalRun(due, s0, run) && Lagging(due, After(due, s0, run), k, w, busy)
  {
    if k == 0 {
      return start;
    }
    run := LagBehind(due, s0, start, k - 1, w, busy);
    if due[k - 1].runnable {
      run := SendNext(due, s0, run, k - 1, w, busy);
    } else {
      run := RunNext(due, s0, run, k - 1, w, busy);
    }
  }

  // A worker that is still at an earlier task.

  /** The first worker alone works the queue off, up to its last task. */
  lemma {:induction false} WorkOff(due: seq<Task>, s0: State, run: seq<Event>) returns (more: seq<Event>)
    requires LegalRun(due, s0, run)
    requires var s := After(due, s0, run);
             s.pos == 0 && !s.inline && InService(s.pool) && s.pool.workers[0].Waiting? && s.pool.queue != []
    ensures LegalRun(due, s0, more) && Lagging(due, After(due, s0, more), 0, 0, true)
    decreases |After(due, s0, run).pool.queue|
  {
    OneMore(due, s0, run, Worked(WorkerPool.Taken(0)));
    more := run + [Worked(WorkerPool.Taken(0))];
    if After(due, s0, more).pool.queue != [] {
      OneMore(due, s0, more, Worked(WorkerPool.Ended(0)));
      more := WorkOff(due, s0, more + [Worked(WorkerPool.Ended(0))]);
    }
  }

  lemma StillBusy(due: seq<Task>, p: WorkerPool.State) returns (run: seq<Event>, w: nat)
    requires InService(p) && !AtRest(p)
    ensures LegalRun(due, State(p, 0, false), run) && Lagging(due, After(due, State(p, 0, false), run), 0, w, true)
  {
    var s0 := State(p, 0, false);
    run, w := [], 0;
    if p.queue == [] {
      w :| 0 <= w < |p.workers| && p.workers[w].Busy?;
    } else {
      if p.workers[0].Busy? {
        OneMore(due, s0, run, Worked(WorkerPool.Ended(0)));
        run := run + [Worked(WorkerPool.Ended(0))];
      }
      run := WorkOff(due, s0, run);
    }
  }

  lemma NotAlone(due: seq<Task>, p: WorkerPool.State, i: nat, run: seq<Event>)
    requires LegalRun(due, State(p, 0, false), run) && !AloneAt(After(due, State(p, 0, false), run), i)
    ensures !AlwaysAlone(due, p, i)
  {
  }

  /** A task that an execution runs in its own thread runs alone, whatever the workers do, exactly when they
      had nothing left to do as the execution began and no task dispatched before it went to them. */
  lemma RunsAloneIff(ts: seq<TaskManager.Entry>, now: Timestamps.Time, p: WorkerPool.State, i: nat)
    requires InService(p) && i < |TaskManager.Dispatched(ts, now)| && !TaskManager.Dispatched(ts, now)[i].runnable
    ensures var due := TaskManager.Dispatched(ts, now);
            AlwaysAlone(due, p, i) <==> AtRest(p) && forall j :: 0 <= j < i ==> !due[j].runnable
  {
    var due := TaskManager.Dispatched(ts, now);
    var s0 := State(p, 0, false);
    if AtRest(p) && !SentBefore(due, i) {
      forall run | LegalRun(due, s0, run) ensures AloneAt(After(due, s0, run), i) {
        RunStaysQuiet(due, s0, run);
      }
    } else {
      var run, w := [], 0;
      if !AtRest(p) {
        run, w := StillBusy(due, p);
      }
      run := LagBehind(due, s0, run, i, w, !AtRest(p));
      OneMore(due, s0, run, Begun);
      NotAlone(due, p, i, run + [Begun]);
    }
  }

  /** The state in which an execution can return: its queue is empty, but a worker is at its last task. A task
      that the next execution runs in its own thread then has company. */
  lemma {:induction false} NextExecutionHasCompany(t: nat, due: seq<Task>)
    requires due != [] && !due[0].runnable
    ensures var run := [WorkerPool.Enqueued(t), WorkerPool.Taken(0)];
            WorkerPool.LegalRun(WorkerPool.Start(1), run) &&
            !AlwaysAlone(due, WorkerPool.After(WorkerPool.Start(1), run), 0)
  {
    var start := WorkerPool.Start(1);
    var queued := WorkerPool.Apply(start, WorkerPool.Enqueued(t));
    var p := WorkerPool.Apply(queued, WorkerPool.Taken(0));
    var run := [WorkerPool.Enqueued(t), WorkerPool.Taken(0)];
    assert run[1..] == [WorkerPool.Taken(0)] && run[1..][1..] == [];
    assert WorkerPool.LegalRun(p, []) && WorkerPool.After(p, []) == p;
    assert WorkerPool.LegalRun(queued, run[1..]) && WorkerPool.After(queued, run[1..]) == p;
    assert p.workers[0] == WorkerPool.Busy(t);
    assert !AloneAt(Apply(due, State(p, 0, false), Begun), 0);
    OneMore(due, State(p, 0, false), [], Begun);
    NotAlone(due, p, 0, [] + [Begun]);
  }
}
