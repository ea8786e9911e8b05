/** What becomes of a scheduler after the two kinds of configuration that do not keep its books: one with a
    null interval, dropped after queue and counter have been reset, and one whose slots shrink to nothing. */
module DroppedUpdates {
  import opened Arithmetic
  import opened CheckRuns
  import opened Collections
  import opened Scheduler

  // ----- runs without another configuration

  /** What the steps of a scheduler need, books kept or not. */
  ghost predicate Steppable(s: State) {
    Known(s.checks, s.queue) && forall x :: x in Current(s) ==> s.checks[x].step >= MICRO
  }

  predicate Possible(s: State, e: Scheduler.Event) {
    match e
    case Configure(_, _, _, _) => false
    case Tick(_) => true
    case Completion(x, tag, _) => x in s.checks && Issued(s.checks[x].run, tag)
    case Halt => true
  }

  ghost function Step(s: State, e: Scheduler.Event): State
    requires Steppable(s) && Possible(s, e)
  {
    match e
    case Configure(_, _, _, _) => s
    case Tick(now) => StartWaiting(s, now)
    case Completion(x, tag, now) => Finish(s, x, tag, now)
    case Halt => Stop(s)
  }

  lemma {:induction false} StartWaitingSteps(s: State, now: int)
    requires Steppable(s)
    ensures Steppable(StartWaiting(s, now))
    decreases |s.queue|
  {
    if CanStart(s, now) {
      StartWaitingSteps(StartOne(s), now);
    }
  }

  lemma RescheduleFrame(s: State, x: Id, now: int)
    requires Reschedulable(s, x)
    ensures var t := Reschedule(s, x, now);
            Known(t.checks, t.queue) && t.queue != [] && t.conf == s.conf && t.alive == s.alive &&
            t.active == s.active && Current(t) == Current(s) && Running(t) == Running(s) &&
            t.checks.Keys == s.checks.Keys &&
            forall y :: y in s.checks ==> t.checks[y].step == s.checks[y].step && t.checks[y].run == s.checks[y].run
  {
    var t := Reschedule(s, x, now);
    InsertMembers(t.checks, s.queue, x);
  }

  /** A completion that counts takes its check off the running ones; all others change nothing here. */
  lemma FinishFrame(s: State, x: Id, tag: nat, now: int)
    requires Steppable(s) && x in s.checks && Issued(s.checks[x].run, tag)
    ensures var t := Finish(s, x, tag, now);
            Steppable(t) && t.conf == s.conf && t.alive == s.alive &&
            if x in Current(s) && Accepts(s.checks[x].run, tag) then
              x in Running(s) && Running(t) == Running(s) - {x} && t.active == (s.active - 1) % UINT32 &&
              (if s.alive then t.queue != [] else t.queue == s.queue)
            else Running(t) == Running(s) && t.active == s.active && t.queue == s.queue
  {
    var c := s.checks[x];
    if Accepts(c.run, tag) {
      var closed := s.(checks := s.checks[x := c.(run := Complete(c.run, tag))]);
      assert Current(closed) == Current(s);
      if x in Current(s) {
        var freed := closed.(active := (s.active - 1) % UINT32);
        assert Current(freed) == Current(s) && Running(freed) == Running(s) - {x};
        if s.alive {
          RescheduleFrame(freed, x, now);
        }
      } else {
        assert Running(closed) == Running(s);
      }
    }
  }

  lemma StepKeepsSteppable(s: State, e: Scheduler.Event)
    requires Steppable(s) && Possible(s, e)
    ensures Steppable(Step(s, e))
  {
    match e
    case Configure(_, _, _, _) =>
    case Tick(now) => StartWaitingSteps(s, now);
    case Completion(x, tag, now) => FinishFrame(s, x, tag, now);
    case Halt => assert Current(Stop(s)) == Current(s);
  }

  ghost predicate PossibleRun(s: State, run: seq<Scheduler.Event>)
    requires Steppable(s)
    decreases |run|
  {
    run == [] ||
    (Possible(s, run[0]) && (StepKeepsSteppable(s, run[0]); PossibleRun(Step(s, run[0]), run[1..])))
  }

  ghost function AfterRun(s: State, run: seq<Scheduler.Event>): State
    requires Steppable(s) && PossibleRun(s, run)
    decreases |run|
  {
    if run == [] then s else StepKeepsSteppable(s, run[0]); AfterRun(Step(s, run[0]), run[1..])
  }

  /** Some tick would start a check. */
  ghost predicate Starting(s: State) {
    exists t :: CanStart(s, t)
  }

  /** Whatever completes and however often the timer fires, no tick starts anything. */
  ghost predicate Stalled(s: State)
    requires Steppable(s)
  {
    forall run :: PossibleRun(s, run) ==> !Starting(AfterRun(s, run))
  }

  // ----- a null interval

  /** The counter when r of n checks are still running and it was reset to zero with all n running. */
  function Miscounted(r: nat, n: nat): int
    requires r <= n
  {
    if r == n then 0 else UINT32 - (n - r)
  }

  /** The counter counts from the wrong start: the n checks that ran when it was reset are missing in it. */
  ghost predicate Drifting(s: State, n: nat) {
    Steppable(s) && |Running(s)| <= n < UINT32 && s.active == Miscounted(|Running(s)|, n) &&
    (|Running(s)| == n ==> s.queue == [])
  }

  lemma DriftStarts(s: State, n: nat)
    requires Drifting(s, n) && n + s.conf.maxConcurrent <= UINT32
    ensures forall t :: !CanStart(s, t)
  {
  }

  lemma DriftingStep(s: State, n: nat, e: Scheduler.Event)
    requires Drifting(s, n) && Possible(s, e) && n + s.conf.maxConcurrent <= UINT32
    ensures Drifting(Step(s, e), n) && Step(s, e).conf == s.conf
  {
    DriftStarts(s, n);
    match e
    case Tick(now) => assert Step(s, e) == s;
    case Completion(x, tag, now) => DriftingFinish(s, n, x, tag, now);
    case Halt => assert Running(Stop(s)) == Running(s) && Current(Stop(s)) == Current(s);
  }

  lemma DriftingFinish(s: State, n: nat, x: Id, tag: nat, now: int)
    requires Drifting(s, n) && x in s.checks && Issued(s.checks[x].run, tag)
    ensures Drifting(Finish(s, x, tag, now), n)
  {
    FinishFrame(s, x, tag, now);
    if x in Running(s) {
      OneFewer(Running(s), x);
      CountsDown(|Running(s)|, n);
    }
    hide Finish, Steppable, Current, Running, Miscounted;
  }

  lemma OneFewer(all: set<Id>, x: Id)
    requires x in all
    ensures |all| == |all - {x}| + 1
  {
    assert all == (all - {x}) + {x};
  }

  lemma CountsDown(r: nat, n: nat)
    requires 0 < r <= n < UINT32
    ensures (Miscounted(r, n) - 1) % UINT32 == Miscounted(r - 1, n)
  {
  }

  lemma {:induction false} DriftStalls(s: State, n: nat, run: seq<Scheduler.Event>)
    requires Drifting(s, n) && PossibleRun(s, run) && n + s.conf.maxConcurrent <= UINT32
    ensures !Starting(AfterRun(s, run))
    decreases |run|
  {
    if run == [] {
      DriftStarts(s, n);
    } else {
      DriftingStep(s, n, run[0]);
      DriftStalls(Step(s, run[0]), n, run[1..]);
    }
  }

  /** All checks that were running complete. */
  lemma {:induction false} AllComplete(s: State, n: nat) returns (run: seq<Scheduler.Event>)
    requires Drifting(s, n) && s.alive
    ensures PossibleRun(s, run)
    ensures var t := AfterRun(s, run);
            Drifting(t, n) && t.alive && Running(t) == {} && t.conf == s.conf &&
            (Running(s) != {} || s.queue != [] ==> t.queue != [])
    decreases |Running(s)|
  {
    if Running(s) == {} {
      return [];
    }
    var x :| x in Running(s);
    var e := Scheduler.Completion(x, s.checks[x].run.index, 0);
    FinishFrame(s, x, e.tag, 0);
    DriftingFinish(s, n, x, e.tag, 0);
    var t := Step(s, e);
    assert |Running(s)| == |Running(t)| + 1;
    var rest := AllComplete(t, n);
    run := [e] + rest;
    assert run[1..] == rest;
  }

  /** A null interval received while checks run stops the scheduler for good, until it is configured anew,
      exactly when the counter cannot come down from its wrapped value to the limit: with as many completions
      as there were checks running it is that many below 4294967296. */
  lemma DroppedUpdateStallsIff(s: State, c: Config, built: seq<bool>, now: int, later: int)
    requires Inv(s) && Received(s, c, built) && c.interval == 0
    ensures var d := Update(s, c, built, now, later);
            Steppable(d) && (Stalled(d) <==> !s.alive || |Running(s)| + s.conf.maxConcurrent <= UINT32)
  {
    var d, n := Update(s, c, built, now, later), |Running(s)|;
    assert Current(d) == Current(s) && Running(d) == Running(s);
    assert Drifting(d, n);
    if !s.alive {
      forall run | PossibleRun(d, run) ensures !Starting(AfterRun(d, run)) {
        NeverQueued(d, run);
      }
    } else if n + s.conf.maxConcurrent <= UINT32 {
      forall run | PossibleRun(d, run) ensures !Starting(AfterRun(d, run)) {
        DriftStalls(d, n, run);
      }
    } else {
      var run := AllComplete(d, n);
      var t := AfterRun(d, run);
      assert CanStart(t, t.checks[t.queue[0]].StartTime());
    }
  }

  /** Once stopped, the scheduler does not queue anything any more. */
  lemma {:induction false} NeverQueued(s: State, run: seq<Scheduler.Event>)
    requires Steppable(s) && PossibleRun(s, run) && !s.alive && s.queue == []
    ensures AfterRun(s, run).queue == []
    decreases |run|
  {
    if run != [] {
      match run[0] {
        case Tick(now) =>
        case Completion(x, tag, now) => FinishFrame(s, x, tag, now);
        case Halt =>
      }
      StepKeepsSteppable(s, run[0]);
      NeverQueued(Step(s, run[0]), run[1..]);
    }
  }

  // ----- slots that shrink to nothing

  /** With slots of no length all checks of the configuration start at t: the first built is queued, the
      others are refused their place. */
  ghost predicate Heaped(s: State, t: int, n: nat) {
    (forall x :: x in s.checks ==> x < s.next) && |Current(s)| == n &&
    (forall x :: x in Current(s) ==> s.checks[x].step == 0 && s.checks[x].first == t && !s.checks[x].run.running) &&
    (if n == 0 then s.queue == [] else |s.queue| == 1 && s.queue[0] in Current(s))
  }

  lemma AddCheckHeaps(s: State, t: int, n: nat)
    requires Heaped(s, t, n) && StepOf(s.conf) == 0
    ensures Known(s.checks, s.queue) && Heaped(AddCheck(s, s.conf, t), t, n + 1)
  {
    var r := AddCheck(s, s.conf, t);
    AddedCheck(s, t, r);
    if n > 0 {
      assert s.checks[s.queue[0]].StartTime() == t;
      assert t in Starts(s.checks, s.queue);
    }
  }

  lemma {:induction false} BuildHeaps(s: State, built: seq<bool>, t: int, n: nat)
    requires Heaped(s, t, n) && StepOf(s.conf) == 0
    ensures Known(s.checks, s.queue)
    ensures var r := Build(s, s.conf, built, t);
            Heaped(r, t, n + Count(built)) && r.conf == s.conf && r.alive == s.alive
    decreases |built|
  {
    if built != [] {
      if built[0] {
        AddCheckHeaps(s, t, n);
        InsertKnown(s, s.conf, t);
        BuildHeaps(AddCheck(s, s.conf, t), built[1..], t, n + 1);
      } else {
        BuildHeaps(s, built[1..], t, n);
      }
    }
  }

  lemma HeapedConserved(s: State, t: int, n: nat, now: int)
    requires Heaped(s, t, n) && s.alive
    ensures var r := StartWaiting(s, now);
            (Conserved(r) <==> n <= 1) && Current(r) == Current(s) &&
            forall x :: x in Current(r) ==> r.checks[x].step == 0
  {
    var r := StartWaiting(s, now);
    if CanStart(s, now) {
      assert r == StartWaiting(StartOne(s), now) == StartOne(s);
    }
    assert Current(r) == Current(s);
    if n > 1 {
      var first := s.queue[0];
      if forall x :: x in Current(s) ==> x == first {
        AtMostOne(Current(s), first);
      }
      var x :| x in Current(s) && x != first;
      assert x !in r.queue && !r.checks[x].run.running;
    } else if n == 1 {
      OnlyOne(Current(s), s.queue[0]);
    }
  }

  lemma AtMostOne(all: set<Id>, x: Id)
    requires forall y :: y in all ==> y == x
    ensures |all| <= 1
  {
    SubsetSize(all, {x});
  }

  lemma OnlyOne(all: set<Id>, x: Id)
    requires |all| == 1 && x in all
    ensures all == {x}
  {
    assert |all - {x}| == 0;
  }

  /** Which updates of a live scheduler lose a check: those with a non-null interval whose slots have no
      length and of which two or more checks are built, all but one of these being neither queued nor
      running. If one check is built it is kept, but its grid has no step to divide by when it completes. */
  lemma UpdateConservesIff(s: State, c: Config, built: seq<bool>, now: int, later: int)
    requires Inv(s) && Received(s, c, built) && c.interval > 0 && s.alive
    ensures var r := Update(s, c, built, now, later);
            (Conserved(r) <==> StepOf(c) > 0 || Count(built) <= 1) &&
            (StepOf(c) == 0 ==> |Current(r)| == Count(built) && forall x :: x in Current(r) ==> !Reschedulable(r, x))
  {
    if StepOf(c) > 0 {
      RunnableUpdateKeepsInv(s, c, built, now, later);
    } else {
      var cleared := s.(queue := [], active := 0);
      var base := if c.services > 0 then now else s.base;
      var start := cleared.(conf := c, base := base);
      BuildIgnoresConf(cleared, c, built, now, base);
      assert Current(start) == {};
      BuildHeaps(start, built, now, 0);
      HeapedConserved(Build(start, c, built, now), now, Count(built), later);
    }
  }
}
