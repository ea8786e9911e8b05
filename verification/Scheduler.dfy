/** One monitoring check of the agent as far as runs go: every start opens a run identified by the
    running index, and timeouts, process ends and posted failures all complete it by that index. */
module CheckRuns {

  datatype Run = Run(running: bool, index: nat)

  function Start(r: Run): Run {
    r.(running := true)
  }

  /** A completion counts if it is tagged with the index of the current run. */
  predicate Accepts(r: Run, tag: nat) {
    tag == r.index
  }

  function Complete(r: Run, tag: nat): Run {
    if Accepts(r, tag) then Run(false, r.index + 1) else r
  }

  /** Tags are handed out when a run starts, to the timeout timer and to the process. */
  predicate Issued(r: Run, tag: nat) {
    tag < r.index || (tag == r.index && r.running)
  }

  // ----- every interleaving of starts and completions

  /** A call of the completion handler: for a run, with the `running` flag the handler sees, or for
      a start that was refused because a run was open. */
  datatype Call = Finished(tag: nat, running: bool) | Refused

  datatype Event = Begin | Completion(tag: nat) | PostedRefusal

  /** The run, the starts attempted, the refusals posted but not yet run, and the calls so far. */
  datatype History = History(run: Run, attempts: nat, posted: nat, calls: seq<Call>)

  const FRESH := History(Run(false, 0), 0, 0, [])

  function Apply(h: History, e: Event): History {
    match e
    case Begin =>
      if h.run.running then h.(attempts := h.attempts + 1, posted := h.posted + 1)
      else h.(run := Start(h.run), attempts := h.attempts + 1)
    case Completion(tag) =>
      var run := Complete(h.run, tag);
      if Accepts(h.run, tag) then h.(run := run, calls := h.calls + [Finished(tag, run.running)]) else h
    case PostedRefusal =>
      if h.posted > 0 then h.(posted := h.posted - 1, calls := h.calls + [Refused]) else h
  }

  function ApplyAll(events: seq<Event>): History {
    if events == [] then FRESH else Apply(ApplyAll(events[..|events| - 1]), events[|events| - 1])
  }

  /** Completions only ever carry tags that a start has handed out. */
  predicate Legal(events: seq<Event>) {
    events == [] ||
    (Legal(events[..|events| - 1]) &&
     var e := events[|events| - 1];
     e.Completion? ==> Issued(ApplyAll(events[..|events| - 1]).run, e.tag))
  }

  function FinishedCalls(calls: seq<Call>): seq<Call> {
    if calls == [] then []
    else
      FinishedCalls(calls[..|calls| - 1]) + if calls[|calls| - 1].Finished? then [calls[|calls| - 1]] else []
  }

  /** Whatever the interleaving, the handler is called once for every finished run, in order and
      with the run already closed; and every attempted start is accounted for once, as a call, a
      refusal on its way, or the run that is open. */
  lemma {:induction false} OneCompletionPerStart(events: seq<Event>)
    requires Legal(events)
    ensures var h := ApplyAll(events);
            FinishedCalls(h.calls) == seq(h.run.index, (i: nat) => Finished(i, false)) &&
            h.attempts == |h.calls| + h.posted + if h.run.running then 1 else 0
  {
    if events != [] {
      var before := ApplyAll(events[..|events| - 1]);
      OneCompletionPerStart(events[..|events| - 1]);
      var h := ApplyAll(events);
      if h.calls != before.calls {
        assert h.calls[..|h.calls| - 1] == before.calls;
      }
    }
  }

  /** The check object, updated in place. */
  class RunningCheck {
    var run: Run

    constructor ()
      ensures run == Run(false, 0)
    {
      run := Run(false, 0);
    }

    /** Opens a run unless one is open; the tag goes to the timeout timer. */
    method StartCheck() returns (accepted: bool, tag: nat)
      modifies this
      ensures accepted == !old(run.running)
      ensures run == Start(old(run)) && tag == run.index && Issued(run, tag)
    {
      accepted, tag := !run.running, run.index;
      if accepted {
        run := run.(running := true);
      }
    }

    /** Closes the current run if the tag is its own; `call` says whether the handler is called. */
    method OnCompletion(tag: nat) returns (call: bool)
      modifies this
      ensures run == Complete(old(run), tag)
      ensures call == Accepts(old(run), tag) && (call ==> !run.running && !Accepts(run, tag))
    {
      call := tag == run.index;
      if call {
        run := Run(false, run.index + 1);
      }
    }
  }
}

/** The agent's check scheduler: a queue of waiting checks ordered by their expected start, a counter
    of running ones, replacement of the whole configuration, and re-queueing of completed checks on
    a shared grid of start times. Times are in nanoseconds, as on the clock the agent uses. */
module Scheduler {
  import opened Arithmetic
  import opened CheckRuns
  import opened Collections

  type Id = nat

  const MICRO: nat := 1000
  const SECOND: nat := 1000000 * MICRO

  /** A configuration received; `id` stands for the address by which checks refer to it. */
  datatype Config = Config(id: nat, interval: nat, maxConcurrent: nat, services: nat)

  predicate IsUint32(x: int) { 0 <= x < UINT32 }

  /** The time between two slots: the check interval in microseconds, a 32-bit product, divided by
      the number of services. */
  function StepOf(c: Config): nat {
    if c.services == 0 then 0 else (c.interval * 1000000) % UINT32 / c.services * MICRO
  }

  /** A check: the configuration it was built for, its grid and its position there, and its run. */
  datatype Check = Check(conf: nat, first: int, step: nat, index: nat, run: Run)
  {
    function StartTime(): int { first + index * step }
  }

  /** `checks` holds the check objects that anything still refers to, by address. */
  datatype State = State(checks: map<Id, Check>, next: Id, queue: seq<Id>, active: int, alive: bool, conf: Config,
                         base: int)

  // ----- the grid

  /** The first index whose slot is at or after min, as the agent computes it. */
  function IndexAfter(first: int, step: nat, min: int): nat
    requires step >= MICRO && min >= first
  {
    (min - first + step - MICRO) / step
  }

  /** The slot is within one microsecond of the first one at or after min; it is exactly that one
      unless min falls less than a microsecond past a slot, and then it is the slot before. */
  lemma SlotAfterMin(first: int, step: nat, min: int)
    requires step >= MICRO && min >= first
    ensures var slot := first + IndexAfter(first, step, min) * step;
            min - MICRO < slot < min + step &&
            (slot >= min <==> (min - first) % step == 0 || (min - first) % step >= MICRO) &&
            (slot < min ==> slot == min - (min - first) % step)
  {
    var d := min - first;
    var q, r := d / step, d % step;
    assert d == q * step + r;
    var i := IndexAfter(first, step, min);
    if r < MICRO && r > 0 {
      DivMod(d + step - MICRO, step, q, r + step - MICRO);
    } else if r == 0 {
      DivMod(d + step - MICRO, step, q, step - MICRO);
    } else {
      assert (q + 1) * step == q * step + step;
      DivMod(d + step - MICRO, step, q + 1, r - MICRO);
    }
  }

  // ----- the slot search

  ghost function From(taken: set<int>, t: int): set<int> {
    set x | x in taken && x >= t
  }

  /** The first index from i on whose slot is free. */
  ghost function FirstFree(first: int, step: nat, i: nat, taken: set<int>): nat
    requires step > 0
    decreases |From(taken, first + i * step)|
  {
    if first + i * step in taken then
      NextFrom(first, step, i, taken);
      FirstFree(first, step, i + 1, taken)
    else i
  }

  lemma NextFrom(first: int, step: nat, i: nat, taken: set<int>)
    requires step > 0 && first + i * step in taken
    ensures |From(taken, first + (i + 1) * step)| < |From(taken, first + i * step)|
  {
    var t, u := first + i * step, first + (i + 1) * step;
    assert u == t + step;
    assert From(taken, u) <= From(taken, t) - {t};
    SubsetSize(From(taken, u), From(taken, t) - {t});
  }

  /** Pigeonhole: the search ends on a free slot no further than there are slots taken, and no slot
      that it passes is free. */
  lemma {:induction false} FirstFreeBound(first: int, step: nat, i: nat, taken: set<int>)
    requires step > 0
    ensures var j := FirstFree(first, step, i, taken);
            i <= j <= i + |From(taken, first + i * step)| &&
            first + j * step !in taken && forall k :: i <= k < j ==> first + k * step in taken
    decreases |From(taken, first + i * step)|
  {
    if first + i * step in taken {
      NextFrom(first, step, i, taken);
      FirstFreeBound(first, step, i + 1, taken);
    }
  }

  // ----- the steps

  ghost function Starts(checks: map<Id, Check>, queue: seq<Id>): set<int> {
    set i | 0 <= i < |queue| && queue[i] in checks :: checks[queue[i]].StartTime()
  }

  predicate Known(checks: map<Id, Check>, queue: seq<Id>) {
    forall i :: 0 <= i < |queue| ==> queue[i] in checks
  }

  /** Insertion into the ordered queue. */
  function Insert(checks: map<Id, Check>, queue: seq<Id>, x: Id): seq<Id>
    requires Known(checks, queue) && x in checks
  {
    if queue == [] || checks[x].StartTime() < checks[queue[0]].StartTime() then [x] + queue
    else [queue[0]] + Insert(checks, queue[1..], x)
  }

  function StartOne(s: State): State
    requires s.queue != [] && s.queue[0] in s.checks
  {
    var c := s.checks[s.queue[0]];
    s.(checks := s.checks[s.queue[0] := c.(run := Start(c.run))], queue := s.queue[1..],
       active := (s.active + 1) % UINT32)
  }

  predicate CanStart(s: State, now: int) {
    s.queue != [] && s.queue[0] in s.checks && s.checks[s.queue[0]].StartTime() <= now &&
    s.active < s.conf.maxConcurrent
  }

  /** Starts waiting checks, earliest first, while they are due and there is room. */
  function StartWaiting(s: State, now: int): State
    decreases |s.queue|
  {
    if CanStart(s, now) then StartWaiting(StartOne(s), now) else s
  }

  /** A check built for the next service, queued unless its slot is taken. */
  ghost function AddCheck(s: State, c: Config, t: int): State
    requires Known(s.checks, s.queue)
  {
    var checks := s.checks[s.next := Check(c.id, t, StepOf(c), 0, Run(false, 0))];
    s.(checks := checks, next := s.next + 1,
       queue := if t in Starts(s.checks, s.queue) then s.queue else Insert(checks, s.queue, s.next))
  }

  /** The checks of a configuration, one slot after the other; services whose check cannot be built
      are skipped and take no slot. */
  ghost function Build(s: State, c: Config, built: seq<bool>, t: int): State
    requires Known(s.checks, s.queue) && forall x :: x in s.checks ==> x < s.next
    decreases |built|
  {
    if built == [] then s
    else if built[0] then
      InsertKnown(s, c, t);
      Build(AddCheck(s, c, t), c, built[1..], t + StepOf(c))
    else Build(s, c, built[1..], t)
  }

  lemma {:induction false} InsertMembers(checks: map<Id, Check>, queue: seq<Id>, x: Id)
    requires Known(checks, queue) && x in checks
    ensures forall y :: y in Insert(checks, queue, x) <==> y == x || y in queue
    ensures Known(checks, Insert(checks, queue, x))
    ensures |Insert(checks, queue, x)| == |queue| + 1
    decreases |queue|
  {
    if !(queue == [] || checks[x].StartTime() < checks[queue[0]].StartTime()) {
      InsertMembers(checks, queue[1..], x);
      assert queue == [queue[0]] + queue[1..];
    }
    var r := Insert(checks, queue, x);
    assert forall i :: 0 <= i < |r| ==> r[i] in r;
  }

  lemma InsertKnown(s: State, c: Config, t: int)
    requires Known(s.checks, s.queue) && forall x :: x in s.checks ==> x < s.next
    ensures var r := AddCheck(s, c, t); Known(r.checks, r.queue) && forall x :: x in r.checks ==> x < r.next
  {
    InsertMembers(AddCheck(s, c, t).checks, s.queue, s.next);
  }

  /** A new configuration: the queue is cleared and the counter reset; one with a null interval is
      then dropped, any other is built and started. */
  ghost function Update(s: State, c: Config, built: seq<bool>, now: int, later: int): State
    requires forall x :: x in s.checks ==> x < s.next
  {
    var cleared := s.(queue := [], active := 0);
    if c.interval == 0 then cleared
    else
      var ready := Build(cleared, c, built, now);
      StartWaiting(ready.(conf := c, base := if c.services > 0 then now else s.base), later)
  }

  /** The start that a completed check may not have before: one interval after its last, or the present. */
  function Earliest(last: int, interval: nat, now: int): (t: int)
    ensures t >= last + interval * SECOND && t >= now && (t == last + interval * SECOND || t == now)
  {
    if last + interval * SECOND < now then now else last + interval * SECOND
  }

  predicate Reschedulable(s: State, x: Id) {
    Known(s.checks, s.queue) && x in s.checks && s.checks[x].step >= MICRO
  }

  lemma EarliestAfterFirst(c: Check, interval: nat, now: int)
    ensures Earliest(c.StartTime(), interval, now) >= c.first
  {
    assert c.index * c.step >= 0;
  }

  /** Back into the queue, at the first free slot from the earliest one allowed. */
  ghost function Reschedule(s: State, x: Id, now: int): State
    requires Reschedulable(s, x)
  {
    var c := s.checks[x];
    EarliestAfterFirst(c, s.conf.interval, now);
    var i := IndexAfter(c.first, c.step, Earliest(c.StartTime(), s.conf.interval, now));
    var j := FirstFree(c.first, c.step, i, Starts(s.checks, s.queue));
    var checks := s.checks[x := c.(index := j)];
    s.(checks := checks, queue := Insert(checks, s.queue, x))
  }

  /** The completion handler of a check of the current configuration. */
  ghost function Handle(s: State, x: Id, now: int): State
    requires Reschedulable(s, x)
  {
    var freed := s.(active := (s.active - 1) % UINT32);
    if s.alive then Reschedule(freed, x, now) else freed
  }

  /** A completion tagged with a run: ignored if the run is over, and without effect on the
      scheduler if the check belongs to an earlier configuration. */
  ghost function Finish(s: State, x: Id, tag: nat, now: int): State
    requires Known(s.checks, s.queue) && x in s.checks
    requires s.checks[x].conf == s.conf.id ==> Reschedulable(s, x)
  {
    var c := s.checks[x];
    if !Accepts(c.run, tag) then s
    else
      var closed := s.(checks := s.checks[x := c.(run := Complete(c.run, tag))]);
      if c.conf != s.conf.id then closed else Handle(closed, x, now)
  }

  function Stop(s: State): State { s.(alive := false) }

  // ----- what every step keeps

  /** The checks built for the current configuration. */
  function Current(s: State): set<Id> {
    set x | x in s.checks && s.checks[x].conf == s.conf.id
  }

  function Running(s: State): set<Id> {
    set x | x in s.checks && s.checks[x].conf == s.conf.id && s.checks[x].run.running
  }

  /** The queue is strictly ordered by start time and holds only idle checks of the current
      configuration. */
  predicate QueueOk(s: State) {
    (forall i :: 0 <= i < |s.queue| ==> s.queue[i] in Current(s) && !s.checks[s.queue[i]].run.running) &&
    Sorted(s.checks, s.queue)
  }

  predicate Sorted(checks: map<Id, Check>, queue: seq<Id>) {
    Known(checks, queue) &&
    forall i, j :: 0 <= i < j < |queue| ==> checks[queue[i]].StartTime() < checks[queue[j]].StartTime()
  }

  /** Conservation: while the scheduler is alive, a check of the current configuration is waiting or
      running, never both and never neither. After a stop, completed checks are let go. */
  predicate Conserved(s: State) {
    forall x :: x in Current(s) ==>
      (x in s.queue ==> !s.checks[x].run.running) && (s.alive && !s.checks[x].run.running ==> x in s.queue)
  }

  ghost predicate OnGrid(base: int, step: nat, t: int) {
    exists k: nat :: t == base + k * step
  }

  /** Every check of the current configuration starts on the grid they share. */
  ghost predicate Aligned(s: State) {
    forall x :: x in Current(s) ==>
      s.checks[x].step == StepOf(s.conf) && s.checks[x].step >= MICRO &&
      OnGrid(s.base, s.checks[x].step, s.checks[x].first)
  }

  /** The counter is the number of running checks of the current configuration, within the limit. */
  predicate Counted(s: State) {
    s.active == |Running(s)| && s.active <= s.conf.maxConcurrent && IsUint32(s.conf.maxConcurrent) &&
    |Current(s)| <= s.conf.services && IsUint32(s.conf.interval)
  }

  ghost predicate Inv(s: State) {
    (forall x :: x in s.checks ==> x < s.next) && QueueOk(s) && Conserved(s) && Aligned(s) && Counted(s)
  }

  /** Starting the head of the queue moves one check from waiting to running; in particular it was
      not running, so the check object never refuses the start. */
  lemma StartOneKeepsInv(s: State, now: int)
    requires Inv(s) && CanStart(s, now)
    ensures Inv(StartOne(s)) && !s.checks[s.queue[0]].run.running
    ensures StartOne(s).active == s.active + 1
    ensures Current(StartOne(s)) == Current(s) && Running(StartOne(s)) == Running(s) + {s.queue[0]}
  {
    var t := StartOne(s);
    var x := s.queue[0];
    assert Current(t) == Current(s);
    assert Running(t) == Running(s) + {x} && x !in Running(s);
    PoppedQueue(s, t);
  }

  lemma PoppedQueue(s: State, t: State)
    requires QueueOk(s) && s.queue != [] && t == StartOne(s)
    ensures QueueOk(t) && forall y :: y in t.queue <==> y in s.queue && y != s.queue[0]
  {
    var x := s.queue[0];
    assert s.queue == [x] + t.queue;
    forall i | 0 <= i < |t.queue| ensures t.queue[i] in Current(t) && t.checks[t.queue[i]] == s.checks[t.queue[i]] {
      assert t.queue[i] == s.queue[i + 1];
      assert s.checks[x].StartTime() < s.checks[s.queue[i + 1]].StartTime();
    }
    PoppedMembers(s.queue);
  }

  lemma PoppedMembers(queue: seq<Id>)
    requires queue != [] && queue[0] !in queue[1..]
    ensures forall y :: y in queue[1..] <==> y in queue && y != queue[0]
  {
    assert queue == [queue[0]] + queue[1..];
  }

  lemma {:induction false} StartWaitingKeepsInv(s: State, now: int)
    requires Inv(s)
    ensures Inv(StartWaiting(s, now)) && Current(StartWaiting(s, now)) == Current(s)
    decreases |s.queue|
  {
    if CanStart(s, now) {
      StartOneKeepsInv(s, now);
      StartWaitingKeepsInv(StartOne(s), now);
    }
  }

  /** A tick starts the due checks, in queue order, as far as there is room, and no others. */
  lemma {:induction false} StartWaitingTakesDuePrefix(s: State, now: int) returns (k: nat)
    requires Inv(s)
    ensures k <= |s.queue| && StartWaiting(s, now).queue == s.queue[k..]
    ensures StartWaiting(s, now).active == s.active + k
    ensures forall i :: 0 <= i < k ==>
              s.checks[s.queue[i]].StartTime() <= now && s.queue[i] in Running(StartWaiting(s, now))
    ensures k < |s.queue| ==> s.checks[s.queue[k]].StartTime() > now || s.active + k >= s.conf.maxConcurrent
    decreases |s.queue|
  {
    if CanStart(s, now) {
      var t := StartOne(s);
      StartOneKeepsInv(s, now);
      var j := StartWaitingTakesDuePrefix(t, now);
      k := j + 1;
      StartWaitingKeepsRunning(t, now, s.queue[0]);
      forall i | 0 <= i < k
        ensures s.checks[s.queue[i]].StartTime() <= now && s.queue[i] in Running(StartWaiting(s, now))
      {
        if i > 0 {
          assert s.queue[i] == t.queue[i - 1];
        }
      }
    } else {
      k := 0;
    }
  }

  lemma {:induction false} StartWaitingKeepsRunning(s: State, now: int, x: Id)
    requires Inv(s) && x in Running(s)
    ensures x in Running(StartWaiting(s, now))
    decreases |s.queue|
  {
    if CanStart(s, now) {
      StartOneKeepsInv(s, now);
      StartWaitingKeepsRunning(StartOne(s), now, x);
    }
  }

  // ----- re-queueing a completed check

  /** The invariant while x, just completed, is in neither place. */
  ghost predicate InvBut(s: State, x: Id) {
    (forall y :: y in s.checks ==> y < s.next) && QueueOk(s) && Aligned(s) && Counted(s) &&
    x in Current(s) && !s.checks[x].run.running && x !in s.queue &&
    forall y :: y in Current(s) && y != x ==>
      (y in s.queue ==> !s.checks[y].run.running) && (s.alive && !s.checks[y].run.running ==> y in s.queue)
  }

  lemma {:induction false} InsertSorted(checks: map<Id, Check>, queue: seq<Id>, x: Id)
    requires Sorted(checks, queue) && x in checks && checks[x].StartTime() !in Starts(checks, queue)
    ensures Sorted(checks, Insert(checks, queue, x))
    decreases |queue|
  {
    InsertMembers(checks, queue, x);
    var r := Insert(checks, queue, x);
    if queue != [] && !(checks[x].StartTime() < checks[queue[0]].StartTime()) {
      var rest := Insert(checks, queue[1..], x);
      InsertSorted(checks, queue[1..], x);
      InsertMembers(checks, queue[1..], x);
      forall j | 0 <= j < |rest| ensures checks[queue[0]].StartTime() < checks[rest[j]].StartTime() {
        assert rest[j] in rest;
        if rest[j] != x {
          var i :| 0 <= i < |queue[1..]| && queue[1..][i] == rest[j];
          assert queue[i + 1] == rest[j];
        }
      }
    }
  }

  lemma {:induction false} StartsCount(checks: map<Id, Check>, queue: seq<Id>, within: set<Id>)
    requires Sorted(checks, queue) && forall i :: 0 <= i < |queue| ==> queue[i] in within
    ensures |Starts(checks, queue)| <= |within| && |queue| <= |within|
    decreases |queue|
  {
    if queue == [] {
      assert Starts(checks, queue) == {};
    } else {
      var last := queue[|queue| - 1];
      var front := queue[..|queue| - 1];
      forall i | 0 <= i < |front| ensures front[i] in within - {last} {
        assert checks[queue[i]].StartTime() < checks[last].StartTime();
      }
      StartsCount(checks, front, within - {last});
      assert Starts(checks, queue) <= Starts(checks, front) + {checks[last].StartTime()};
      SubsetSize(Starts(checks, queue), Starts(checks, front) + {checks[last].StartTime()});
    }
  }

  /** The slots of all services fill the interval but for less than a microsecond each, exactly when its
      microseconds fit in 32 bits. */
  lemma SlotsFillIntervalIff(c: Config)
    requires 0 < c.services < UINT32
    ensures c.interval * SECOND - c.services * StepOf(c) < c.services * MICRO <==> c.interval * 1000000 < UINT32
  {
    var product := c.interval * 1000000;
    var w, q := product % UINT32, product % UINT32 / c.services;
    assert w - c.services < c.services * q <= w;
    assert c.services * StepOf(c) == c.services * q * MICRO;
    assert c.interval * SECOND == product * MICRO;
    assert product < UINT32 ==> w == product;
    assert product >= UINT32 ==> product >= w + UINT32;
  }

  lemma IntervalHoldsAllSlots(c: Config)
    ensures c.services * StepOf(c) <= c.interval * SECOND
  {
    if c.services > 0 {
      var w := (c.interval * 1000000) % UINT32;
      var q := w / c.services;
      assert c.services * q <= w;
      assert c.services * (q * MICRO) == c.services * q * MICRO;
      assert c.interval * SECOND == c.interval * 1000000 * MICRO;
    }
  }

  /** The slot t for a check that last started at `last`: not taken, at least one interval later and less than a
      microsecond before the present; less than one interval after the earliest time allowed, with no free slot
      passed over on the way. It is before the present exactly when the check is late, the present is less than a
      microsecond past a slot, and that slot is not taken. */
  ghost predicate WellPlaced(first: int, step: nat, last: int, interval: nat, now: int, taken: set<int>, t: int)
    requires step > 0
  {
    t !in taken && t >= last + interval * SECOND && t > now - MICRO &&
    t < Earliest(last, interval, now) + interval * SECOND &&
    (forall k: nat :: Earliest(last, interval, now) <= first + k * step < t ==> first + k * step in taken) &&
    (t < now <==> last + interval * SECOND <= now && 0 < (now - first) % step < MICRO &&
                  now - (now - first) % step !in taken)
  }

  /** Where a completed check goes: onto the shared grid, well placed after its last start. That it is less than
      one interval after the earliest time allowed is by pigeonhole: there is a slot for each service. */
  lemma RescheduleBound(s: State, x: Id, now: int)
    requires InvBut(s, x)
    ensures var c, t := s.checks[x], Reschedule(s, x, now).checks[x].StartTime();
            c.step > 0 && OnGrid(s.base, c.step, t) &&
            WellPlaced(c.first, c.step, c.StartTime(), s.conf.interval, now, Starts(s.checks, s.queue), t)
  {
    hide WellPlaced, Starts, InvBut, OnGrid, StepOf, FirstFree, IndexAfter, Earliest, Reschedule, Check.StartTime;
    OnItsGrid(s, x);
    var c, taken := s.checks[x], Starts(s.checks, s.queue);
    OthersCount(s, x);
    IntervalHoldsAllSlots(s.conf);
    OnTimeIsExact(s, c);
    var j := SlotTaken(s, x, now);
    GridShift(s.base, c.step, c.first, j);
    SlotIsWellPlaced(c.first, c.step, c.StartTime(), s.conf.interval, now, taken, s.conf.services);
  }

  lemma SlotTaken(s: State, x: Id, now: int) returns (j: nat)
    requires Reschedulable(s, x)
    ensures var c := s.checks[x]; var min := Earliest(c.StartTime(), s.conf.interval, now);
            c.first <= c.StartTime() && c.first <= min &&
            j == FirstFree(c.first, c.step, IndexAfter(c.first, c.step, min), Starts(s.checks, s.queue)) &&
            x in Reschedule(s, x, now).checks && Reschedule(s, x, now).checks[x].StartTime() == c.first + j * c.step
  {
    var c := s.checks[x];
    assert c.index * c.step >= 0;
    EarliestAfterFirst(c, s.conf.interval, now);
    j := Reschedule(s, x, now).checks[x].index;
    hide FirstFree, IndexAfter, Starts;
  }

  lemma OnItsGrid(s: State, x: Id)
    requires InvBut(s, x)
    ensures Reschedulable(s, x) && s.checks[x].step == StepOf(s.conf)
    ensures OnGrid(s.base, s.checks[x].step, s.checks[x].first)
  {
  }

  lemma SlotIsWellPlaced(first: int, step: nat, last: int, interval: nat, now: int, taken: set<int>, n: nat)
    requires step >= MICRO && last >= first && |taken| <= n - 1 && n * step <= interval * SECOND
    requires var d := last + interval * SECOND - first; d % step == 0 || d % step >= MICRO
    ensures var i := IndexAfter(first, step, Earliest(last, interval, now));
            WellPlaced(first, step, last, interval, now, taken, first + FirstFree(first, step, i, taken) * step)
  {
    var min := Earliest(last, interval, now);
    var j := FirstFree(first, step, IndexAfter(first, step, min), taken);
    SlotBound(first, step, min, taken, n);
    NotBeforeDue(first, step, j, last + interval * SECOND);
    hide FirstFree, IndexAfter;
  }

  /** A slot less than a microsecond before a time that is on the grid, or a microsecond or more past it, is not
      before it. */
  lemma NotBeforeDue(first: int, step: nat, j: nat, due: int)
    requires step >= MICRO && ((due - first) % step == 0 || (due - first) % step >= MICRO)
    requires first + j * step > due - MICRO
    ensures first + j * step >= due
  {
    if first + j * step < due {
      DivMod(due - first, step, j, due - first - j * step);
    }
  }

  /** The slot search over at most n - 1 taken slots. */
  lemma SlotBound(first: int, step: nat, min: int, taken: set<int>, n: nat)
    requires step >= MICRO && min >= first && |taken| <= n - 1
    ensures var t := first + FirstFree(first, step, IndexAfter(first, step, min), taken) * step;
            t !in taken && min - MICRO < t < min + n * step &&
            (t < min <==> 0 < (min - first) % step < MICRO && min - (min - first) % step !in taken) &&
            forall k: nat :: min <= first + k * step < t ==> first + k * step in taken
  {
    var i := IndexAfter(first, step, min);
    SlotAfterMin(first, step, min);
    FirstFreeBound(first, step, i, taken);
    SubsetSize(From(taken, first + i * step), taken);
    var j := FirstFree(first, step, i, taken);
    SlotArithmetic(first, step, i, j, n);
    if j > i {
      SlotArithmetic(first, step, i + 1, j, j - i);
      assert (i + 1) * step == i * step + step;
    }
    forall k: nat | min <= first + k * step < first + j * step ensures first + k * step in taken {
      MulBetween(k, j, step);
      NotBeforeIndex(first, step, i, k, min);
    }
  }

  lemma OthersCount(s: State, x: Id)
    requires InvBut(s, x)
    ensures |Starts(s.checks, s.queue)| <= s.conf.services - 1
  {
    StartsCount(s.checks, s.queue, Current(s) - {x});
  }

  lemma SlotArithmetic(first: int, step: nat, i: nat, j: nat, n: nat)
    requires i <= j <= i + n - 1
    ensures first + i * step <= first + j * step <= first + i * step + n * step - step
  {
    MulMonotone(i, j, step);
    MulMonotone(j, i + n - 1, step);
    assert (i + n - 1) * step == i * step + n * step - step;
  }

  lemma NotBeforeIndex(first: int, step: nat, i: nat, k: nat, min: int)
    requires first + i * step < min + step && min <= first + k * step
    ensures k >= i
  {
    assert (k + 1) * step == k * step + step;
    if k < i {
      MulMonotone(k + 1, i, step);
    }
  }

  lemma MulBetween(k: nat, j: nat, step: nat)
    requires k * step < j * step
    ensures k < j
  {
    if k >= j {
      MulMonotone(j, k, step);
    }
  }

  lemma MulMonotone(a: int, b: int, step: nat)
    requires a <= b
    ensures a * step <= b * step
  {
  }

  lemma GridShift(base: int, step: nat, first: int, j: nat)
    requires OnGrid(base, step, first)
    ensures OnGrid(base, step, first + j * step)
  {
    var k: nat :| first == base + k * step;
    assert (k + j) * step == k * step + j * step;
    assert first + j * step == base + (k + j) * step;
  }

  /** A check that is on time finds the earliest time allowed a whole number of microseconds past a
      slot, so that the slot found is not before it. */
  lemma OnTimeIsExact(s: State, c: Check)
    requires c.step == StepOf(s.conf) && c.step >= MICRO
    ensures var d := c.StartTime() + s.conf.interval * SECOND - c.first;
            d % c.step == 0 || d % c.step >= MICRO
  {
    var d := c.StartTime() + s.conf.interval * SECOND - c.first;
    var q := (s.conf.interval * 1000000) % UINT32 / s.conf.services;
    assert c.step == q * MICRO;
    assert d == c.index * c.step + s.conf.interval * SECOND;
    assert c.index * c.step == c.index * q * MICRO;
    assert s.conf.interval * SECOND == s.conf.interval * 1000000 * MICRO;
    MultipleRemainder(c.index * q + s.conf.interval * 1000000, q);
  }

  lemma MultipleRemainder(n: nat, q: nat)
    requires q > 0
    ensures (n * MICRO) % (q * MICRO) == n % q * MICRO
  {
    assert n * MICRO == n / q * (q * MICRO) + n % q * MICRO;
    DivMod(n * MICRO, q * MICRO, n / q, n % q * MICRO);
  }

  /** Inserting one idle check at a free start time keeps the queue in order. */
  lemma InsertKeepsQueue(s: State, r: State, x: Id)
    requires QueueOk(s) && r.conf.id == s.conf.id && x in Current(r) && !r.checks[x].run.running && x !in s.queue
    requires forall y :: y in s.queue ==> y in r.checks && r.checks[y] == s.checks[y]
    requires r.checks[x].StartTime() !in Starts(s.checks, s.queue)
    requires Known(r.checks, s.queue) && r.queue == Insert(r.checks, s.queue, x)
    ensures QueueOk(r) && forall y :: y in r.queue <==> y == x || y in s.queue
  {
    assert Starts(r.checks, s.queue) == Starts(s.checks, s.queue);
    assert Sorted(r.checks, s.queue);
    InsertSorted(r.checks, s.queue, x);
    InsertMembers(r.checks, s.queue, x);
    forall i | 0 <= i < |r.queue| ensures r.queue[i] in Current(r) && !r.checks[r.queue[i]].run.running {
      assert r.queue[i] in r.queue;
    }
  }

  lemma RescheduleIsFree(s: State, x: Id, now: int)
    requires InvBut(s, x)
    ensures Reschedulable(s, x) && Reschedule(s, x, now).checks[x].StartTime() !in Starts(s.checks, s.queue)
  {
    hide Reschedule, Starts;
    RescheduleBound(s, x, now);
  }

  lemma RescheduleKeepsInv(s: State, x: Id, now: int)
    requires InvBut(s, x)
    ensures Inv(Reschedule(s, x, now))
  {
    var t := Reschedule(s, x, now);
    RescheduleIsFree(s, x, now);
    assert Current(t) == Current(s) && Running(t) == Running(s);
    InsertKeepsQueue(s, t, x);
  }

  /** Every completion whose tag was handed out, current or stale, keeps the invariant. */
  lemma FinishKeepsInv(s: State, x: Id, tag: nat, now: int)
    requires Inv(s) && x in s.checks && Issued(s.checks[x].run, tag)
    ensures Inv(Finish(s, x, tag, now))
  {
    var c := s.checks[x];
    if Accepts(c.run, tag) {
      var closed := s.(checks := s.checks[x := c.(run := Complete(c.run, tag))]);
      if c.conf != s.conf.id {
        StaleKeepsInv(s, x, closed);
      } else {
        var freed := closed.(active := (s.active - 1) % UINT32);
        FreedKeepsRest(s, x, freed);
        if s.alive {
          RescheduleKeepsInv(freed, x, now);
        }
      }
    }
  }

  lemma StaleKeepsInv(s: State, x: Id, t: State)
    requires Inv(s) && x in s.checks && s.checks[x].conf != s.conf.id
    requires t == s.(checks := s.checks[x := s.checks[x].(run := Complete(s.checks[x].run, s.checks[x].run.index))])
    ensures Inv(t)
  {
    assert Current(t) == Current(s) && Running(t) == Running(s);
  }

  lemma FreedKeepsRest(s: State, x: Id, t: State)
    requires Inv(s) && x in Running(s)
    requires t == s.(checks := s.checks[x := s.checks[x].(run := Complete(s.checks[x].run, s.checks[x].run.index))],
                     active := (s.active - 1) % UINT32)
    ensures InvBut(t, x) && t.active == s.active - 1
    ensures !s.alive ==> Inv(t)
  {
    assert Current(t) == Current(s) && Running(t) == Running(s) - {x};
    assert |Running(s)| == |Running(t)| + 1;
  }

  // ----- a new configuration

  /** Half-way through building: every check built so far waits in the queue, one slot each, and
      `t` is the next slot. */
  ghost predicate Building(s: State, t: int, n: nat) {
    (forall x :: x in s.checks ==> x < s.next) && QueueOk(s) && Aligned(s) && s.active == 0 && Running(s) == {} &&
    |Current(s)| == n && OnGrid(s.base, StepOf(s.conf), t) &&
    forall x :: x in Current(s) ==> x in s.queue && s.checks[x].StartTime() < t
  }

  lemma AddedCheck(s: State, t: int, r: State)
    requires (forall x :: x in s.checks ==> x < s.next) && Known(s.checks, s.queue) && r == AddCheck(s, s.conf, t)
    ensures Current(r) == Current(s) + {s.next} && Running(r) == Running(s) && s.next !in Current(s)
    ensures r.checks[s.next].StartTime() == t
    ensures forall y :: y in s.checks ==> r.checks[y] == s.checks[y]
  {
  }

  lemma AddedIsQueued(s: State, t: int, n: nat, r: State)
    requires Building(s, t, n) && r == AddCheck(s, s.conf, t)
    ensures QueueOk(r) && forall x :: x in Current(r) ==> x in r.queue
  {
    hide StepOf, OnGrid, Aligned;
    AddedCheck(s, t, r);
    assert t !in Starts(s.checks, s.queue);
    InsertKeepsQueue(s, r, s.next);
  }

  lemma AddedIsAligned(s: State, t: int, n: nat, r: State)
    requires Building(s, t, n) && StepOf(s.conf) >= MICRO && r == AddCheck(s, s.conf, t)
    ensures Aligned(r) && OnGrid(r.base, StepOf(r.conf), t + StepOf(r.conf))
  {
    hide StepOf, OnGrid, Starts, Insert, Check.StartTime;
    AddedCheck(s, t, r);
    GridShift(s.base, StepOf(s.conf), t, 1);
    hide QueueOk, Sorted;
  }

  lemma AddCheckKeepsBuilding(s: State, t: int, n: nat)
    requires Building(s, t, n) && StepOf(s.conf) >= MICRO
    ensures Known(s.checks, s.queue) && Building(AddCheck(s, s.conf, t), t + StepOf(s.conf), n + 1)
  {
    hide StepOf, OnGrid, Aligned, Starts, Insert, Check.StartTime;
    var r := AddCheck(s, s.conf, t);
    AddedCheck(s, t, r);
    AddedIsQueued(s, t, n, r);
    AddedIsAligned(s, t, n, r);
    hide QueueOk, Sorted;
  }

  lemma {:induction false} BuildKeepsBuilding(s: State, built: seq<bool>, t: int, n: nat)
    requires Building(s, t, n) && (StepOf(s.conf) >= MICRO || true !in built)
    ensures var r := Build(s, s.conf, built, t);
            r.conf == s.conf && r.base == s.base && r.alive == s.alive &&
            exists m: nat, u :: m <= n + |built| && Building(r, u, m)
    decreases |built|
  {
    if built == [] {
    } else if built[0] {
      AddCheckKeepsBuilding(s, t, n);
      BuildKeepsBuilding(AddCheck(s, s.conf, t), built[1..], t + StepOf(s.conf), n + 1);
    } else {
      BuildKeepsBuilding(s, built[1..], t, n);
    }
  }

  lemma {:induction false} BuildIgnoresConf(s: State, c: Config, built: seq<bool>, t: int, base: int)
    requires Known(s.checks, s.queue) && forall x :: x in s.checks ==> x < s.next
    ensures Build(s, c, built, t).(conf := c, base := base) == Build(s.(conf := c, base := base), c, built, t)
    decreases |built|
  {
    if built != [] {
      if built[0] {
        InsertKnown(s, c, t);
        BuildIgnoresConf(AddCheck(s, c, t), c, built[1..], t + StepOf(c), base);
      } else {
        BuildIgnoresConf(s, c, built[1..], t, base);
      }
    }
  }

  /** What a caller must see to about a configuration: its numbers are 32-bit, it says which of its
      services could be built, and no check of an earlier configuration refers to it. */
  predicate Received(s: State, c: Config, built: seq<bool>) {
    IsUint32(c.interval) && IsUint32(c.maxConcurrent) && |built| == c.services &&
    forall x :: x in s.checks ==> s.checks[x].conf != c.id
  }

  /** A configuration the scheduler can run: its interval is not null, and leaves at least a
      microsecond to each service. */
  predicate Runnable(c: Config, built: seq<bool>) {
    c.interval > 0 && (StepOf(c) >= MICRO || true !in built)
  }

  lemma RunnableUpdateReady(s: State, c: Config, built: seq<bool>, now: int)
    requires Inv(s) && Received(s, c, built) && Runnable(c, built)
    ensures Inv(Build(s.(queue := [], active := 0), c, built, now)
                .(conf := c, base := if c.services > 0 then now else s.base))
  {
    var cleared := s.(queue := [], active := 0);
    var base := if c.services > 0 then now else s.base;
    var start := cleared.(conf := c, base := base);
    BuildIgnoresConf(cleared, c, built, now, base);
    assert Current(start) == {} && Running(start) == {};
    if c.services > 0 {
      assert now == base + 0 * StepOf(c);
      assert Building(start, now, 0);
      BuildKeepsBuilding(start, built, now, 0);
      BuiltIsInv(Build(start, c, built, now));
    } else {
      assert Inv(start);
    }
  }

  lemma RunnableUpdateKeepsInv(s: State, c: Config, built: seq<bool>, now: int, later: int)
    requires Inv(s) && Received(s, c, built) && Runnable(c, built)
    ensures Inv(Update(s, c, built, now, later))
  {
    RunnableUpdateReady(s, c, built, now);
    StartWaitingKeepsInv(Build(s.(queue := [], active := 0), c, built, now)
                         .(conf := c, base := if c.services > 0 then now else s.base), later);
  }

  lemma BuiltIsInv(s: State)
    requires exists m: nat, u :: m <= s.conf.services && Building(s, u, m)
    requires IsUint32(s.conf.interval) && IsUint32(s.conf.maxConcurrent)
    ensures Inv(s)
  {
  }

  // ----- where a new configuration puts its checks

  /** How many of the services could be built. */
  function Count(built: seq<bool>): (n: nat)
    ensures n <= |built|
  {
    if built == [] then 0 else (if built[0] then 1 else 0) + Count(built[1..])
  }

  /** The check of the k-th service that could be built, as built: idle, on its own first slot. */
  function Fresh(c: Config, now: int, k: nat): Check {
    Check(c.id, Slot(c, now, k), StepOf(c), 0, Run(false, 0))
  }

  function Slot(c: Config, now: int, k: nat): int {
    now + k * StepOf(c)
  }

  function Ids(from: Id, n: nat): seq<Id> {
    seq(n, k => from + k)
  }

  lemma {:induction false} BuildFrame(s: State, c: Config, built: seq<bool>, t: int)
    requires Known(s.checks, s.queue) && forall x :: x in s.checks ==> x < s.next
    ensures var r := Build(s, c, built, t);
            r.next == s.next + Count(built) && r.active == s.active && r.alive == s.alive && r.conf == s.conf &&
            Known(r.checks, r.queue) && forall x :: x in r.checks <==> x in s.checks || s.next <= x < r.next
    ensures forall x :: x in s.checks ==> Build(s, c, built, t).checks[x] == s.checks[x]
    decreases |built|
  {
    if built != [] {
      if built[0] {
        InsertKnown(s, c, t);
        BuildFrame(AddCheck(s, c, t), c, built[1..], t + StepOf(c));
      } else {
        BuildFrame(s, c, built[1..], t);
      }
    }
  }

  /** r has n checks more than s, the first of them k slots after now, one slot apart and waiting in that order. */
  ghost predicate SpreadOut(s: State, c: Config, now: int, k: nat, n: nat, r: State) {
    r.queue == s.queue + Ids(s.next, n) &&
    forall x :: s.next <= x < s.next + n ==> x in r.checks && r.checks[x] == Fresh(c, now, k + (x - s.next))
  }

  /** The k-th service that could be built starts k slots after the first, and they wait in that order. */
  lemma {:induction false} BuildSpreads(s: State, c: Config, built: seq<bool>, now: int, k: nat)
    requires Known(s.checks, s.queue) && forall x :: x in s.checks ==> x < s.next
    requires StepOf(c) > 0 && forall x :: x in s.queue ==> s.checks[x].StartTime() < now + k * StepOf(c)
    ensures SpreadOut(s, c, now, k, Count(built), Build(s, c, built, now + k * StepOf(c)))
    decreases |built|
  {
    var t := now + k * StepOf(c);
    if built == [] {
      assert s.queue + Ids(s.next, 0) == s.queue;
    } else if built[0] {
      var r := AddCheck(s, c, t);
      assert now + (k + 1) * StepOf(c) == t + StepOf(c);
      InsertKnown(s, c, t);
      AddCheckLast(s, c, t);
      BuildFrame(r, c, built[1..], t + StepOf(c));
      hide StepOf, AddCheck, SpreadOut, Fresh;
      assert forall x :: x in r.queue ==> x in s.queue || x == s.next;
      BuildSpreads(r, c, built[1..], now, k + 1);
      SpreadOneMore(s, r, c, now, k, Count(built[1..]), Build(r, c, built[1..], t + StepOf(c)));
    } else {
      BuildSpreads(s, c, built[1..], now, k);
    }
  }

  lemma SpreadOneMore(s: State, u: State, c: Config, now: int, k: nat, n: nat, r: State)
    requires SpreadOut(u, c, now, k + 1, n, r) && u.queue == s.queue + [s.next] && u.next == s.next + 1
    requires s.next in r.checks && r.checks[s.next] == Fresh(c, now, k)
    ensures SpreadOut(s, c, now, k, n + 1, r)
  {
    hide Fresh;
    IdsCons(s.queue, s.next, n);
    forall x | s.next <= x < s.next + n + 1 ensures x in r.checks && r.checks[x] == Fresh(c, now, k + (x - s.next)) {
      if x > s.next {
        assert k + 1 + (x - u.next) == k + (x - s.next);
      }
    }
  }

  lemma AddCheckLast(s: State, c: Config, t: int)
    requires Known(s.checks, s.queue) && (forall x :: x in s.checks ==> x < s.next)
    requires forall x :: x in s.queue ==> s.checks[x].StartTime() < t
    ensures var r := AddCheck(s, c, t);
            r.queue == s.queue + [s.next] && r.next == s.next + 1 && r.checks.Keys == s.checks.Keys + {s.next} &&
            r.checks[s.next] == Check(c.id, t, StepOf(c), 0, Run(false, 0)) && r.checks[s.next].StartTime() == t
    ensures forall x :: x in s.checks ==> AddCheck(s, c, t).checks[x] == s.checks[x]
  {
    var r := AddCheck(s, c, t);
    InsertAt(r.checks, s.queue, s.next, |s.queue|);
    assert s.queue[..|s.queue|] + [s.next] + s.queue[|s.queue|..] == s.queue + [s.next];
  }

  lemma IdsCons(queue: seq<Id>, from: Id, n: nat)
    ensures queue + [from] + Ids(from + 1, n) == queue + Ids(from, n + 1)
  {
  }

  function Begun(c: Check): Check {
    c.(run := Start(c.run))
  }

  /** The first m checks of the queue started. */
  function StartFirst(s: State, m: nat): (t: State)
    requires Known(s.checks, s.queue) && m <= |s.queue|
    ensures t.checks.Keys == s.checks.Keys
    decreases m
  {
    if m == 0 then s else StartFirst(StartOne(s), m - 1)
  }

  /** Check i of the queue is due once those before it have been started. */
  predicate DueAt(s: State, i: nat, now: int) {
    Known(s.checks, s.queue) && i < |s.queue| && StartFirst(s, i).checks[s.queue[i]].StartTime() <= now
  }

  lemma DueNext(s: State, i: nat, now: int)
    requires Known(s.checks, s.queue) && s.queue != []
    ensures DueAt(s, i + 1, now) <==> DueAt(StartOne(s), i, now)
  {
  }

  /** A tick starts some number of checks from the front of the queue. */
  lemma {:induction false} StartedPrefix(s: State, now: int) returns (m: nat)
    requires Known(s.checks, s.queue) && 0 <= s.active && IsUint32(s.conf.maxConcurrent)
    ensures m <= |s.queue| && (m > 0 ==> s.active + m <= s.conf.maxConcurrent)
    ensures StartWaiting(s, now) == StartFirst(s, m)
    ensures forall i :: 0 <= i < m ==> DueAt(s, i, now)
    ensures m < |s.queue| ==> !DueAt(s, m, now) || s.active + m >= s.conf.maxConcurrent
    decreases |s.queue|
  {
    m := 0;
    if CanStart(s, now) {
      var r := StartOne(s);
      var k := StartedPrefix(r, now);
      m := k + 1;
      assert DueAt(s, 0, now);
      hide DueAt, StartWaiting;
      DueNext(s, k, now);
      forall i | 0 <= i < m ensures DueAt(s, i, now) {
        if i > 0 {
          DueNext(s, i - 1, now);
        }
      }
    }
  }

  lemma {:induction false} StartFirstIs(s: State, m: nat, x: Id)
    requires Known(s.checks, s.queue) && m <= |s.queue| && 0 <= s.active && s.active + m < UINT32
    requires forall i, j :: 0 <= i < j < |s.queue| ==> s.queue[i] != s.queue[j]
    ensures var t := StartFirst(s, m);
            t.queue == s.queue[m..] && t.active == s.active + m && t.conf == s.conf &&
            (x in s.checks ==> t.checks[x] == if x in s.queue[..m] then Begun(s.checks[x]) else s.checks[x])
    decreases m
  {
    if m > 0 {
      var r := StartOne(s);
      StartFirstIs(r, m - 1, x);
      assert s.queue[..m] == [s.queue[0]] + r.queue[..m - 1];
      assert s.queue[0] !in r.queue[..m - 1];
    }
  }

  lemma BuiltInOrder(s: State, c: Config, built: seq<bool>, now: int, base: int)
    requires (forall x :: x in s.checks ==> x < s.next) && StepOf(c) > 0
    ensures var r, n := Build(s.(queue := [], active := 0), c, built, now).(conf := c, base := base), Count(built);
            r.queue == Ids(s.next, n) && r.active == 0 && r.conf == c && Known(r.checks, r.queue) &&
            forall x :: s.next <= x < s.next + n ==> x in r.checks && r.checks[x] == Fresh(c, now, x - s.next)
  {
    var cleared := s.(queue := [], active := 0);
    BuildFrame(cleared, c, built, now);
    assert now + 0 * StepOf(c) == now;
    BuildSpreads(cleared, c, built, now, 0);
    assert [] + Ids(s.next, Count(built)) == Ids(s.next, Count(built));
  }

  lemma WithinInterval(c: Config, k: nat)
    requires k < c.services
    ensures 0 <= k * StepOf(c) && k * StepOf(c) + StepOf(c) <= c.interval * SECOND
  {
    MulMonotone(k + 1, c.services, StepOf(c));
    assert (k + 1) * StepOf(c) == k * StepOf(c) + StepOf(c);
    IntervalHoldsAllSlots(c);
  }

  /** Checks from, from + 1 and so on wait in order, and the first m of them are started. */
  ghost predicate StartedInOrder(from: Id, n: nat, c: Config, now: int, m: nat, r: State) {
    m <= n && r.conf == c && r.active == m && r.queue == Ids(from + m, n - m) &&
    forall x :: from <= x < from + n ==>
      x in r.checks && r.checks[x] == Fresh(c, now, x - from).(run := Run(x < from + m, 0))
  }

  lemma StartFirstInOrder(s: State, from: Id, n: nat, c: Config, now: int, m: nat)
    requires StartedInOrder(from, n, c, now, 0, s) && Known(s.checks, s.queue) && m <= n && m < UINT32
    ensures StartedInOrder(from, n, c, now, m, StartFirst(s, m))
  {
    hide StartFirst, Fresh, Known;
    forall x | from <= x < from + n
      ensures StartFirst(s, m).checks[x] == Fresh(c, now, x - from).(run := Run(x < from + m, 0))
    {
      StartFirstIs(s, m, x);
      AmongFirst(from, n, m, x);
      FreshBegun(c, now, x - from);
    }
    StartFirstIs(s, m, from);
    assert Ids(from, n)[m..] == Ids(from + m, n - m);
  }

  lemma FreshBegun(c: Config, now: int, k: nat)
    ensures Fresh(c, now, k).run == Run(false, 0) && Begun(Fresh(c, now, k)).run == Run(true, 0)
    ensures Fresh(c, now, k).StartTime() == Slot(c, now, k)
  {
  }

  lemma OrderedQueue(s: State, from: Id, n: nat, c: Config, now: int)
    requires StartedInOrder(from, n, c, now, 0, s)
    ensures |s.queue| == n && s.active == 0 && s.conf == c
  {
  }

  lemma WaitingInOrder(s: State, from: Id, n: nat, c: Config, now: int, later: int) returns (m: nat)
    requires StartedInOrder(from, n, c, now, 0, s) && Known(s.checks, s.queue) && IsUint32(c.maxConcurrent)
    ensures m <= n && m <= c.maxConcurrent && StartedInOrder(from, n, c, now, m, StartWaiting(s, later))
    ensures forall k :: 0 <= k < m ==> Slot(c, now, k) <= later
    ensures m < n ==> Slot(c, now, m) > later || m == c.maxConcurrent
  {
    hide StartWaiting, StartFirst, StepOf, StartedInOrder, Slot, Known, DueAt;
    OrderedQueue(s, from, n, c, now);
    m := StartedPrefix(s, later);
    StartFirstInOrder(s, from, n, c, now, m);
    forall k | 0 <= k < m ensures Slot(c, now, k) <= later {
      SlotInOrder(s, from, n, c, now, k);
      assert DueAt(s, k, later);
    }
    if m < n {
      SlotInOrder(s, from, n, c, now, m);
    }
  }

  lemma SlotInOrder(s: State, from: Id, n: nat, c: Config, now: int, k: nat)
    requires StartedInOrder(from, n, c, now, 0, s) && Known(s.checks, s.queue) && k < n && k < UINT32
    ensures forall t :: DueAt(s, k, t) <==> Slot(c, now, k) <= t
  {
    hide StartFirst, Fresh, Slot;
    StartFirstInOrder(s, from, n, c, now, k);
    assert s.queue[k] == from + k;
    FreshBegun(c, now, k);
  }

  /** What a new configuration comes to: its k-th check starts k slots from now, all within the interval; the
      first m of them are started at once, being all that is due and has room, and the others wait in order. */
  lemma UpdateSpreads(s: State, c: Config, built: seq<bool>, now: int, later: int) returns (m: nat)
    requires Inv(s) && Received(s, c, built) && c.interval > 0 && StepOf(c) > 0
    ensures m <= Count(built) && m <= c.maxConcurrent
    ensures forall k :: 0 <= k < m ==> Slot(c, now, k) <= later
    ensures m < Count(built) ==> Slot(c, now, m) > later || m == c.maxConcurrent
    ensures forall k :: 0 <= k < Count(built) ==>
              now <= Slot(c, now, k) == now + k * StepOf(c) < now + c.interval * SECOND
    ensures StartedInOrder(s.next, Count(built), c, now, m, Update(s, c, built, now, later))
  {
    var n, base := Count(built), if c.services > 0 then now else s.base;
    var ready := Build(s.(queue := [], active := 0), c, built, now).(conf := c, base := base);
    BuiltInOrder(s, c, built, now, base);
    assert StartedInOrder(s.next, n, c, now, 0, ready);
    assert Update(s, c, built, now, later) == StartWaiting(ready, later);
    hide Build, Inv, StartWaiting, StepOf, StartedInOrder, Update;
    m := WaitingInOrder(ready, s.next, n, c, now, later);
    forall k | 0 <= k < n ensures now <= Slot(c, now, k) == now + k * StepOf(c) < now + c.interval * SECOND {
      WithinInterval(c, k);
    }
    hide Slot;
  }

  lemma AmongFirst(from: Id, n: nat, m: nat, x: Id)
    requires m <= n && from <= x < from + n
    ensures x in Ids(from, n)[..m] <==> x < from + m
  {
    if x < from + m {
      assert Ids(from, n)[..m][x - from] == x;
    }
  }

  // ----- configurations that break the books

  lemma {:induction false} StartWaitingFrame(s: State, now: int)
    ensures var t := StartWaiting(s, now);
            t.conf == s.conf && t.checks.Keys == s.checks.Keys &&
            forall x :: x in s.checks ==> t.checks[x].conf == s.checks[x].conf && t.checks[x].step == s.checks[x].step
    decreases |s.queue|
  {
    if CanStart(s, now) {
      StartWaitingFrame(StartOne(s), now);
    }
  }

  predicate BuiltFor(s: State, c: Config, x: Id) {
    x in s.checks && s.checks[x].conf == c.id && s.checks[x].step == StepOf(c)
  }

  lemma {:induction false} BuildAddsOne(s: State, c: Config, built: seq<bool>, t: int)
    requires Known(s.checks, s.queue) && (forall x :: x in s.checks ==> x < s.next)
    ensures forall x :: x in s.checks ==>
              x in Build(s, c, built, t).checks && Build(s, c, built, t).checks[x] == s.checks[x]
    ensures true in built ==> exists x :: BuiltFor(Build(s, c, built, t), c, x)
    decreases |built|
  {
    if built != [] {
      if built[0] {
        InsertKnown(s, c, t);
        BuildAddsOne(AddCheck(s, c, t), c, built[1..], t + StepOf(c));
        assert BuiltFor(Build(s, c, built, t), c, s.next);
      } else {
        BuildAddsOne(s, c, built[1..], t);
        if true in built {
          assert built == [built[0]] + built[1..];
          var x :| BuiltFor(Build(s, c, built[1..], t), c, x);
          assert BuiltFor(Build(s, c, built, t), c, x);
        }
      }
    }
  }

  /** A configuration the scheduler can run, or one that it drops while there is nothing to lose. */
  predicate Harmless(s: State, c: Config, built: seq<bool>) {
    if c.interval == 0 then Running(s) == {} && (s.alive ==> Current(s) == {}) else Runnable(c, built)
  }

  /** Exactly which updates keep the invariant. A runnable configuration always does. One with a null
      interval, which is dropped after the queue and the counter have been reset, does only if no
      check is running and, while the scheduler is alive, none exists at all. One whose slots shrink
      to nothing does only if none of its checks can be built. */
  lemma UpdateKeepsInvExactly(s: State, c: Config, built: seq<bool>, now: int, later: int)
    requires Inv(s) && Received(s, c, built)
    ensures Inv(Update(s, c, built, now, later)) <==> Harmless(s, c, built)
  {
    var cleared := s.(queue := [], active := 0);
    if c.interval == 0 {
      assert Current(cleared) == Current(s) && Running(cleared) == Running(s);
    } else if Runnable(c, built) {
      RunnableUpdateKeepsInv(s, c, built, now, later);
    } else {
      var ready := Build(cleared, c, built, now).(conf := c, base := if c.services > 0 then now else s.base);
      BuildAddsOne(cleared, c, built, now);
      var x :| BuiltFor(Build(cleared, c, built, now), c, x);
      StartWaitingFrame(ready, later);
      assert x in Current(Update(s, c, built, now, later));
    }
  }

  /** What a dropped update does to the first running check that completes: the counter wraps around to
      its largest value, at which no tick starts anything. */
  lemma DroppedUpdateWraps(s: State, c: Config, built: seq<bool>, now: int, later: int, x: Id)
    requires Inv(s) && Received(s, c, built) && c.interval == 0 && x in Running(s)
    ensures var dropped := Update(s, c, built, now, later);
            Reschedulable(dropped, x) &&
            var done := Finish(dropped, x, s.checks[x].run.index, later);
            done.active == UINT32 - 1 && forall t :: StartWaiting(done, t) == done
  {
  }

  // ----- every run

  datatype Event =
    | Configure(conf: Config, built: seq<bool>, now: int, later: int)
    | Tick(now: int)
    | Completion(x: Id, tag: nat, now: int)
    | Halt

  /** What the environment may do: send configurations that keep the books, fire the timer, which a stop does not
      keep from firing if its handler is already on its way, and deliver completions, stale ones included, with
      tags that were handed out. */
  predicate Legal(s: State, e: Event) {
    match e
    case Configure(c, built, _, _) => Received(s, c, built) && Harmless(s, c, built)
    case Tick(_) => true
    case Completion(x, tag, _) => x in s.checks && Issued(s.checks[x].run, tag)
    case Halt => true
  }

  ghost function Apply(s: State, e: Event): (t: State)
    requires Inv(s) && Legal(s, e)
    ensures Inv(t)
  {
    match e
    case Configure(c, built, now, later) =>
      UpdateKeepsInvExactly(s, c, built, now, later);
      Update(s, c, built, now, later)
    case Tick(now) =>
      StartWaitingKeepsInv(s, now);
      StartWaiting(s, now)
    case Completion(x, tag, now) =>
      FinishKeepsInv(s, x, tag, now);
      Finish(s, x, tag, now)
    case Halt =>
      assert Current(Stop(s)) == Current(s) && Running(Stop(s)) == Running(s);
      Stop(s)
  }

  ghost predicate LegalRun(s: State, events: seq<Event>)
    requires Inv(s)
    decreases |events|
  {
    events == [] || (Legal(s, events[0]) && LegalRun(Apply(s, events[0]), events[1..]))
  }

  ghost function After(s: State, events: seq<Event>): (t: State)
    requires Inv(s) && LegalRun(s, events)
    ensures Inv(t)
    decreases |events|
  {
    if events == [] then s else After(Apply(s, events[0]), events[1..])
  }

  function Initial(c: Config, now: int): State {
    State(map[], 0, [], 0, true, c, now)
  }

  /** Over every run from a fresh scheduler, however configurations, ticks, completions and stale
      completions interleave: the number of running checks of the current configuration never
      exceeds the limit, the counter is that number, and while the scheduler is alive each check
      that was built for the current configuration is waiting or running, exactly one of the two. */
  lemma EveryRunIsSafe(c: Config, now: int, events: seq<Event>)
    requires IsUint32(c.interval) && IsUint32(c.maxConcurrent)
    ensures Inv(Initial(c, now))
    ensures LegalRun(Initial(c, now), events) ==>
              var s := After(Initial(c, now), events);
              s.active == |Running(s)| <= s.conf.maxConcurrent &&
              forall x :: x in Current(s) && s.alive ==> (x in s.queue <==> x !in Running(s))
  {
    var s := Initial(c, now);
    assert Current(s) == {} && Running(s) == {};
  }

  /** After a stop and until a new configuration, no check is queued any more: what waits is what is left of the
      queue as it was. */
  lemma StopLetsGo(s: State, events: seq<Event>)
    requires Inv(s) && LegalRun(s, [Halt] + events) && forall i :: 0 <= i < |events| ==> !events[i].Configure?
    ensures var t := After(s, [Halt] + events); !t.alive && exists k: nat :: k <= |s.queue| && t.queue == s.queue[k..]
  {
    assert ([Halt] + events)[1..] == events;
    QueueOnlyShrinks(Apply(s, Halt), events);
  }

  lemma {:induction false} QueueOnlyShrinks(s: State, events: seq<Event>)
    requires Inv(s) && !s.alive && LegalRun(s, events) && forall i :: 0 <= i < |events| ==> !events[i].Configure?
    ensures !After(s, events).alive && exists k: nat :: k <= |s.queue| && After(s, events).queue == s.queue[k..]
    decreases |events|
  {
    hide Inv;
    if events == [] {
      assert s.queue == s.queue[0..];
    } else {
      var t := Apply(s, events[0]);
      var j := StepShrinks(s, events[0]);
      QueueOnlyShrinks(t, events[1..]);
      var k: nat :| k <= |t.queue| && After(t, events[1..]).queue == t.queue[k..];
      assert t.queue[k..] == s.queue[j + k..];
    }
  }

  lemma StepShrinks(s: State, e: Event) returns (k: nat)
    requires Inv(s) && !s.alive && Legal(s, e) && !e.Configure?
    ensures k <= |s.queue| && Apply(s, e).queue == s.queue[k..] && !Apply(s, e).alive
  {
    k := 0;
    if e.Tick? {
      k := StartWaitingTakesDuePrefix(s, e.now);
      StaysStopped(s, e.now);
    }
  }

  lemma {:induction false} StaysStopped(s: State, now: int)
    ensures StartWaiting(s, now).alive == s.alive
    decreases |s.queue|
  {
    if CanStart(s, now) {
      StaysStopped(StartOne(s), now);
    }
  }

  // ----- the scheduler, updating its state in place

  /** Slot i of a check's grid is not taken. */
  ghost predicate Free(c: Check, i: nat, taken: set<int>) {
    c.first + i * c.step !in taken
  }

  ghost function Remaining(c: Check, i: nat, taken: set<int>): nat {
    |From(taken, c.first + i * c.step)|
  }

  lemma SlotStep(c: Check, i: nat, taken: set<int>)
    requires c.step > 0
    ensures Free(c, i, taken) ==> FirstFree(c.first, c.step, i, taken) == i
    ensures !Free(c, i, taken) ==>
              FirstFree(c.first, c.step, i, taken) == FirstFree(c.first, c.step, i + 1, taken) &&
              Remaining(c, i + 1, taken) < Remaining(c, i, taken)
  {
    if !Free(c, i, taken) {
      NextFrom(c.first, c.step, i, taken);
    }
  }

  lemma {:induction false} InsertAt(checks: map<Id, Check>, queue: seq<Id>, x: Id, i: nat)
    requires Known(checks, queue) && x in checks && i <= |queue|
    requires forall j :: 0 <= j < i ==> checks[queue[j]].StartTime() < checks[x].StartTime()
    requires i < |queue| ==> checks[x].StartTime() < checks[queue[i]].StartTime()
    ensures Insert(checks, queue, x) == queue[..i] + [x] + queue[i..]
    decreases i
  {
    if i > 0 {
      InsertAt(checks, queue[1..], x, i - 1);
      assert queue[..i] == [queue[0]] + queue[1..][..i - 1];
      assert queue[1..][i - 1..] == queue[i..];
    }
  }

  class CheckScheduler {
    var checks: map<Id, Check>
    var next: Id
    var queue: seq<Id>
    var active: int
    var alive: bool
    var conf: Config
    var base: int

    constructor (conf: Config, now: int)
      ensures Snapshot() == Initial(conf, now)
    {
      checks, next, queue, active, alive, this.conf, base := map[], 0, [], 0, true, conf, now;
    }

    ghost function Snapshot(): State
      reads this
    {
      State(checks, next, queue, active, alive, conf, base)
    }

    /** Insertion into the ordered set of waiting checks; refused if the start time is there. */
    method InsertCheck(x: Id) returns (inserted: bool)
      requires Sorted(checks, queue) && x in checks
      modifies this`queue
      ensures inserted <==> checks[x].StartTime() !in Starts(checks, old(queue))
      ensures queue == if inserted then Insert(checks, old(queue), x) else old(queue)
    {
      var i := 0;
      while i < |queue| && checks[queue[i]].StartTime() < checks[x].StartTime()
        invariant i <= |queue|
        invariant forall j :: 0 <= j < i ==> checks[queue[j]].StartTime() < checks[x].StartTime()
      {
        i := i + 1;
      }
      inserted := !(i < |queue| && checks[queue[i]].StartTime() == checks[x].StartTime());
      if inserted {
        assert forall j :: i < j < |queue| ==> checks[queue[i]].StartTime() < checks[queue[j]].StartTime();
        InsertAt(checks, queue, x, i);
        queue := queue[..i] + [x] + queue[i..];
      }
    }

    /** The timer tick. */
    method StartWaitingChecks(now: int)
      requires Known(checks, queue)
      modifies this
      ensures Snapshot() == StartWaiting(old(Snapshot()), now)
    {
      ghost var target := StartWaiting(Snapshot(), now);
      while queue != [] && checks[queue[0]].StartTime() <= now && active < conf.maxConcurrent
        invariant Known(checks, queue) && StartWaiting(Snapshot(), now) == target
        decreases |queue|
      {
        var x := queue[0];
        active := (active + 1) % UINT32;
        checks := checks[x := checks[x].(run := Start(checks[x].run))];
        queue := queue[1..];
      }
    }

    /** A completion: the check closes its run, and the handler puts it back into the queue. */
    method OnCompletion(x: Id, tag: nat, now: int)
      requires Sorted(checks, queue) && x in checks
      requires checks[x].conf == conf.id ==> checks[x].step >= MICRO && (Accepts(checks[x].run, tag) ==> x !in queue)
      modifies this
      ensures Snapshot() == Finish(old(Snapshot()), x, tag, now)
    {
      if tag != checks[x].run.index {
        return;
      }
      ghost var before := Snapshot();
      checks := checks[x := checks[x].(run := Run(false, tag + 1))];
      if checks[x].conf != conf.id {
        return;
      }
      active := (active - 1) % UINT32;
      if alive {
        SameStarts(before.checks, checks, queue, x);
        Requeue(x, now);
      }
    }

    /** Back into the queue, from the earliest slot allowed. */
    method Requeue(x: Id, now: int)
      requires Sorted(checks, queue) && x in checks && checks[x].step >= MICRO && x !in queue
      modifies this`checks, this`queue
      ensures Snapshot() == Reschedule(old(Snapshot()), x, now)
    {
      EarliestAfterFirst(checks[x], conf.interval, now);
      var i := FirstIndex(checks[x], now);
      SearchSlot(x, i);
    }

    /** The search for a free start slot from the i-th on. */
    method SearchSlot(x: Id, i: nat)
      requires Sorted(checks, queue) && x in checks && checks[x].step >= MICRO && x !in queue
      modifies this`checks, this`queue
      ensures var c := old(checks)[x];
              checks == old(checks)[x := c.(index := FirstFree(c.first, c.step, i, Starts(old(checks), old(queue))))]
      ensures queue == Insert(checks, old(queue), x)
    {
      assert Known(checks, queue);
      hide Insert, Starts, Sorted, FirstFree, Remaining, Free;
      ghost var was, before := checks, queue;
      ghost var taken := Starts(checks, queue);
      var c := checks[x];
      ghost var target := FirstFree(c.first, c.step, i, taken);
      var j: nat := i;
      SlotStep(c, j, taken);
      var inserted := Place(x, j, was);
      while !inserted
        invariant checks == was[x := c.(index := j)]
        invariant FirstFree(c.first, c.step, j, taken) == target && (inserted ==> j == target)
        invariant inserted <==> Free(c, j, taken)
        invariant queue == if inserted then Insert(checks, before, x) else before
        decreases Remaining(c, j, taken), !inserted
      {
        SlotStep(c, j, taken);
        j := j + 1;
        SlotStep(c, j, taken);
        inserted := Place(x, j, was);
      }
    }

    /** The earliest slot allowed to a completed check. */
    method FirstIndex(c: Check, now: int) returns (i: nat)
      requires c.step >= MICRO && Earliest(c.StartTime(), conf.interval, now) >= c.first
      ensures i == IndexAfter(c.first, c.step, Earliest(c.StartTime(), conf.interval, now))
    {
      var min := c.StartTime() + conf.interval * SECOND;
      if min < now {
        min := now;
      }
      i := (min - c.first + c.step - MICRO) / c.step;
    }

    /** Moves the check to slot i and tries to insert it there. */
    method Place(x: Id, i: nat, ghost was: map<Id, Check>) returns (inserted: bool)
      requires Sorted(was, queue) && x in was && x !in queue && x in checks
      requires checks == was[x := was[x].(index := checks[x].index)]
      modifies this`checks, this`queue
      ensures checks == was[x := was[x].(index := i)]
      ensures inserted <==> Free(was[x], i, Starts(was, old(queue)))
      ensures queue == if inserted then Insert(checks, old(queue), x) else old(queue)
    {
      checks := checks[x := checks[x].(index := i)];
      SameStarts(was, checks, queue, x);
      inserted := InsertCheck(x);
    }

    /** A new configuration. */
    method UpdateConfig(c: Config, built: seq<bool>, now: int, later: int)
      requires forall y :: y in checks ==> y < next
      requires |built| == c.services
      modifies this
      ensures Snapshot() == Update(old(Snapshot()), c, built, now, later)
    {
      queue, active := [], 0;
      if c.interval == 0 {
        return;
      }
      BuildChecks(c, built, now);
      conf := c;
      if c.services > 0 {
        base := now;
      }
      StartWaitingChecks(later);
    }

    method BuildChecks(c: Config, built: seq<bool>, now: int)
      requires Sorted(checks, queue) && forall y :: y in checks ==> y < next
      modifies this`checks, this`queue, this`next
      ensures Known(checks, queue)
      ensures Snapshot() == Build(old(Snapshot()), c, built, now)
    {
      ghost var target := Build(Snapshot(), c, built, now);
      var t := now;
      assert built[0..] == built;
      for k := 0 to |built|
        invariant Sorted(checks, queue) && forall y :: y in checks ==> y < next
        invariant Build(Snapshot(), c, built[k..], t) == target
      {
        assert built[k..][0] == built[k] && built[k..][1..] == built[k + 1..];
        if built[k] {
          InsertKnown(Snapshot(), c, t);
          BuildCheck(c, t);
          t := t + StepOf(c);
        }
      }
    }

    method BuildCheck(c: Config, t: int)
      requires Sorted(checks, queue) && forall y :: y in checks ==> y < next
      modifies this`checks, this`queue, this`next
      ensures Snapshot() == AddCheck(old(Snapshot()), c, t) && Sorted(checks, queue)
    {
      ghost var was := checks;
      checks := checks[next := Check(c.id, t, StepOf(c), 0, Run(false, 0))];
      assert next !in queue;
      SameStarts(was, checks, queue, next);
      ghost var before := queue;
      var inserted := InsertCheck(next);
      if inserted {
        InsertSorted(checks, before, next);
      }
      next := next + 1;
    }

    method StopScheduling()
      modifies this`alive
      ensures Snapshot() == Stop(old(Snapshot()))
    {
      alive := false;
    }
  }

  /** A change to a check that is not in the queue leaves the queue as it is. */
  lemma SameStarts(was: map<Id, Check>, checks: map<Id, Check>, queue: seq<Id>, x: Id)
    requires Sorted(was, queue) && x !in queue && x in checks && checks == was[x := checks[x]]
    ensures Sorted(checks, queue) && Starts(checks, queue) == Starts(was, queue)
  {
    assert forall j :: 0 <= j < |queue| ==> queue[j] != x && checks[queue[j]] == was[queue[j]];
  }
}
