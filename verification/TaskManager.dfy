/** Seconds and microseconds, kept apart. */
module Timestamps {
  const MICROS: int := 1000000

  datatype Time = Time(secs: int, usecs: int)

  predicate Normal(t: Time) {
    0 <= t.usecs < MICROS
  }

  /** The microseconds that a timestamp stands for. */
  function Total(t: Time): int {
    t.secs * MICROS + t.usecs
  }

  predicate Less(a: Time, b: Time) {
    a.secs < b.secs || (a.secs == b.secs && a.usecs < b.usecs)
  }

  predicate LessEq(a: Time, b: Time) {
    a.secs < b.secs || (a.secs == b.secs && a.usecs <= b.usecs)
  }

  /** On normal timestamps the comparisons are those of the microseconds, and so is equality. */
  lemma OrderIsThatOfTotals(a: Time, b: Time)
    requires Normal(a) && Normal(b)
    ensures (Less(a, b) <==> Total(a) < Total(b)) && (LessEq(a, b) <==> Total(a) <= Total(b))
    ensures a == b <==> Total(a) == Total(b)
  {
  }

  /** Division and remainder of the source, which round towards zero. */
  function Quotient(n: int, d: int): int
    requires d > 0
  {
    if n < 0 then -(-n / d) else n / d
  }

  function Remainder(n: int, d: int): int
    requires d > 0
  {
    n - d * Quotient(n, d)
  }

  /** The timestamp that is n microseconds later, or earlier. */
  function Later(t: Time, n: int): (r: Time)
    ensures Normal(r) && Total(r) == Total(t) + n
  {
    var us := t.usecs + n;
    Time(t.secs + us / MICROS, us % MICROS)
  }

  /** Subtraction leaves the microseconds of its left side alone when no borrow is needed. */
  function Minus(a: Time, b: Time): Time {
    if a.usecs < b.usecs then Time(a.secs - b.secs - 1, a.usecs - b.usecs + MICROS)
    else Time(a.secs - b.secs, a.usecs)
  }

  lemma MinusIsExactIff(a: Time, b: Time)
    requires Normal(a) && Normal(b)
    ensures Normal(Minus(a, b))
    ensures Total(Minus(a, b)) == Total(a) - Total(b) <==> a.usecs < b.usecs || b.usecs == 0
    ensures Total(Minus(a, b)) == Total(a) - Total(b) + if a.usecs < b.usecs then 0 else b.usecs
  {
  }

  lemma MinusCanBeWrong()
    ensures Total(Minus(Time(5, 700000), Time(2, 300000))) == 3700000 != Total(Time(5, 700000)) - Total(Time(2, 300000))
  {
  }

  class Timestamp {
    var secs: int
    var usecs: int

    function Value(): Time
      reads this
    {
      Time(secs, usecs)
    }

    constructor (s: int, us: int)
      ensures Value() == Later(Time(s, 0), us)
    {
      secs, usecs := s, 0;
      new;
      AddUseconds(us);
    }

    method AddUseconds(n: int)
      modifies this
      ensures Value() == Later(old(Value()), n)
    {
      var us := usecs + n;
      if us < 0 {
        secs := secs + Quotient(us, MICROS);
        us := Remainder(us, MICROS);
        if us != 0 {
          secs := secs - 1;
          us := us + MICROS;
        }
      } else if us >= MICROS {
        secs := secs + Quotient(us, MICROS);
        us := Remainder(us, MICROS);
      }
      usecs := us;
    }

    method Add(right: Time)
      requires Normal(Value()) && Normal(right)
      modifies this
      ensures Normal(Value()) && Total(Value()) == Total(old(Value())) + Total(right)
    {
      secs := secs + right.secs;
      usecs := usecs + right.usecs;
      if usecs >= MICROS {
        usecs := usecs - MICROS;
        secs := secs + 1;
      }
    }

    method Subtract(right: Time)
      modifies this
      ensures Value() == Minus(old(Value()), right)
    {
      secs := secs - right.secs;
      var d := usecs - right.usecs;
      if d < 0 {
        usecs := d + MICROS;
        secs := secs - 1;
      }
    }
  }
}

/** Tasks kept by the time they are due, run once or again and again. */
module TaskManager {
  import opened Arithmetic
  import opened Timestamps

  /** A task with interval 0 is run once. */
  datatype Task = Task(id: nat, work: int, runnable: bool, interval: nat)

  datatype Entry = Entry(when: Time, task: Task)

  predicate Sorted(ts: seq<Entry>) {
    (forall k :: 0 <= k < |ts| ==> Normal(ts[k].when)) &&
    forall j, k :: 0 <= j < k < |ts| ==> LessEq(ts[j].when, ts[k].when)
  }

  /** An entry goes after those that are due no later. */
  function Insert(ts: seq<Entry>, e: Entry): seq<Entry> {
    if ts == [] || Less(e.when, ts[0].when) then [e] + ts else [ts[0]] + Insert(ts[1..], e)
  }

  function InsertAll(ts: seq<Entry>, more: seq<Entry>): seq<Entry>
    decreases |more|
  {
    if more == [] then ts else InsertAll(Insert(ts, more[0]), more[1..])
  }

  function DueCount(ts: seq<Entry>, now: Time): (n: nat)
    ensures n <= |ts|
  {
    if ts == [] || !LessEq(ts[0].when, now) then 0 else 1 + DueCount(ts[1..], now)
  }

  /** The interval is added as a signed 32-bit number. */
  function NextTime(now: Time, interval: nat): Time {
    Later(now, ToInt32(interval))
  }

  function Recurring(due: seq<Entry>, now: Time): seq<Entry> {
    if due == [] then [] else
    (if due[0].task.interval != 0 then [Entry(NextTime(now, due[0].task.interval), due[0].task)] else [])
      + Recurring(due[1..], now)
  }

  function Executed(ts: seq<Entry>, now: Time): seq<Entry> {
    var n := DueCount(ts, now);
    InsertAll(ts[n..], Recurring(ts[..n], now))
  }

  function Tasks(ts: seq<Entry>): seq<Task> {
    if ts == [] then [] else [ts[0].task] + Tasks(ts[1..])
  }

  function Dispatched(ts: seq<Entry>, now: Time): seq<Task> {
    Tasks(ts[..DueCount(ts, now)])
  }

  // ----- order and contents

  lemma {:induction false} InsertKeeps(ts: seq<Entry>, e: Entry)
    requires Sorted(ts) && Normal(e.when)
    ensures Sorted(Insert(ts, e)) && multiset(Insert(ts, e)) == multiset(ts) + multiset{e}
  {
    InsertAdds(ts, e);
    if ts != [] && !Less(e.when, ts[0].when) {
      InsertKeeps(ts[1..], e);
      var r := Insert(ts[1..], e);
      forall k | 0 <= k < |r| ensures LessEq(ts[0].when, r[k].when) {
        assert r[k] in multiset(r);
        assert r[k] == e || r[k] in ts[1..];
      }
    }
  }

  lemma {:induction false} InsertAdds(ts: seq<Entry>, e: Entry)
    ensures multiset(Insert(ts, e)) == multiset(ts) + multiset{e}
  {
    hide Less;
    if ts != [] {
      InsertAdds(ts[1..], e);
      assert ts == [ts[0]] + ts[1..];
    }
  }

  lemma {:induction false} InsertAllKeeps(ts: seq<Entry>, more: seq<Entry>)
    requires Sorted(ts) && forall k :: 0 <= k < |more| ==> Normal(more[k].when)
    ensures Sorted(InsertAll(ts, more)) && multiset(InsertAll(ts, more)) == multiset(ts) + multiset(more)
    decreases |more|
  {
    if more != [] {
      InsertKeeps(ts, more[0]);
      InsertAllKeeps(Insert(ts, more[0]), more[1..]);
      assert more == [more[0]] + more[1..];
    }
  }

  /** The tasks due are exactly those that come first. */
  lemma {:induction false} DueIsPrefix(ts: seq<Entry>, now: Time, k: nat)
    requires Sorted(ts) && Normal(now) && k < |ts|
    ensures LessEq(ts[k].when, now) <==> k < DueCount(ts, now)
  {
    if LessEq(ts[0].when, now) {
      if k > 0 {
        DueIsPrefix(ts[1..], now, k - 1);
      }
    } else {
      assert k > 0 ==> LessEq(ts[0].when, ts[k].when);
    }
  }

  lemma {:induction false} RecurringIs(due: seq<Entry>, now: Time, e: Entry)
    ensures e in Recurring(due, now) ==>
              Normal(e.when) && e.task.interval != 0 && e.when == NextTime(now, e.task.interval)
    ensures e.task.interval != 0 && e.when == NextTime(now, e.task.interval) &&
            (exists k :: 0 <= k < |due| && due[k].task == e.task) ==>
              e in Recurring(due, now)
  {
    if due != [] {
      RecurringIs(due[1..], now, e);
      if exists k :: 0 <= k < |due| && due[k].task == e.task {
        var k :| 0 <= k < |due| && due[k].task == e.task;
        if k > 0 {
          assert due[1..][k - 1].task == e.task;
        }
      }
    }
  }

  lemma ExecutedKeeps(ts: seq<Entry>, now: Time)
    requires Sorted(ts)
    ensures var n := DueCount(ts, now);
            Sorted(Executed(ts, now)) &&
            multiset(Executed(ts, now)) == multiset(ts[n..]) + multiset(Recurring(ts[..n], now))
  {
    var n := DueCount(ts, now);
    var more := Recurring(ts[..n], now);
    forall k | 0 <= k < |more| ensures Normal(more[k].when) {
      RecurringIs(ts[..n], now, more[k]);
    }
    InsertAllKeeps(ts[n..], more);
  }

  /** An execution dispatches exactly the tasks that are due, recurring or not, in the order of the table. */
  lemma ExecutionDispatchesDue(ts: seq<Entry>, now: Time)
    requires Sorted(ts) && Normal(now)
    ensures |Dispatched(ts, now)| <= |ts|
    ensures forall k :: 0 <= k < |ts| ==> (LessEq(ts[k].when, now) <==> k < |Dispatched(ts, now)|)
    ensures forall k :: 0 <= k < |Dispatched(ts, now)| ==> Dispatched(ts, now)[k] == ts[k].task
  {
    var n := DueCount(ts, now);
    forall k | 0 <= k < |ts| ensures LessEq(ts[k].when, now) <==> k < n {
      DueIsPrefix(ts, now, k);
    }
    TasksAt(ts[..n]);
  }

  lemma {:induction false} TasksAt(ts: seq<Entry>)
    ensures |Tasks(ts)| == |ts| && forall k :: 0 <= k < |ts| ==> Tasks(ts)[k] == ts[k].task
  {
    if ts != [] {
      TasksAt(ts[1..]);
    }
  }

  /** A new entry goes behind those due no later and before those due later, whose order stays. */
  lemma {:induction false} InsertPlace(ts: seq<Entry>, e: Entry) returns (k: nat)
    requires Sorted(ts) && Normal(e.when)
    ensures k <= |ts| && Insert(ts, e) == ts[..k] + [e] + ts[k..]
    ensures forall j :: 0 <= j < |ts| ==> (j < k <==> Total(ts[j].when) <= Total(e.when))
  {
    k := 0;
    while k < |ts| && !Less(e.when, ts[k].when)
      invariant k <= |ts| && forall j :: 0 <= j < k ==> !Less(e.when, ts[j].when)
    {
      k := k + 1;
    }
    InsertAt(ts, e, k);
    forall j | 0 <= j < |ts| ensures j < k <==> Total(ts[j].when) <= Total(e.when) {
      OrderIsThatOfTotals(e.when, ts[j].when);
      if k < |ts| {
        OrderIsThatOfTotals(e.when, ts[k].when);
        OrderIsThatOfTotals(ts[k].when, ts[j].when);
      }
    }
  }

  const MAX_INTERVAL := 0x7fff_ffff

  lemma NextTimeIsLaterIff(now: Time, interval: nat)
    requires Normal(now) && 0 < interval < UINT32
    ensures Less(now, NextTime(now, interval)) <==> interval <= MAX_INTERVAL
    ensures interval <= MAX_INTERVAL ==> Total(NextTime(now, interval)) == Total(now) + interval
  {
    OrderIsThatOfTotals(now, NextTime(now, interval));
  }

  predicate AllLater(ts: seq<Entry>, now: Time) {
    forall k :: 0 <= k < |ts| ==> Less(now, ts[k].when)
  }

  /** After an execution the next one is due later, exactly when no task that was due repeats after more
      than 2147483647 microseconds: those are put back before now. */
  lemma NothingLeftDueIff(ts: seq<Entry>, now: Time)
    requires Sorted(ts) && Normal(now) && forall k :: 0 <= k < |ts| ==> ts[k].task.interval < UINT32
    ensures AllLater(Executed(ts, now), now) <==>
            forall k :: 0 <= k < DueCount(ts, now) ==> ts[k].task.interval <= MAX_INTERVAL
  {
    var n, r := DueCount(ts, now), Executed(ts, now);
    ExecutedKeeps(ts, now);
    if AllLater(r, now) {
      forall k | 0 <= k < n ensures ts[k].task.interval <= MAX_INTERVAL {
        if ts[k].task.interval != 0 {
          PutBack(ts, now, k);
        }
      }
    } else {
      var k :| 0 <= k < |r| && !Less(now, r[k].when);
      FoundDue(ts, now, r[k]);
    }
  }

  lemma PutBack(ts: seq<Entry>, now: Time, k: nat)
    requires Sorted(ts) && Normal(now) && k < DueCount(ts, now) && 0 < ts[k].task.interval < UINT32
    ensures AllLater(Executed(ts, now), now) ==> ts[k].task.interval <= MAX_INTERVAL
  {
    var n, r := DueCount(ts, now), Executed(ts, now);
    var e := Entry(NextTime(now, ts[k].task.interval), ts[k].task);
    ExecutedKeeps(ts, now);
    assert ts[..n][k].task == e.task;
    RecurringIs(ts[..n], now, e);
    assert e in multiset(r);
    var j :| 0 <= j < |r| && r[j] == e;
    NextTimeIsLaterIff(now, ts[k].task.interval);
  }

  lemma NotDueIsLater(ts: seq<Entry>, now: Time, k: nat)
    requires Sorted(ts) && Normal(now) && DueCount(ts, now) <= k < |ts|
    ensures Less(now, ts[k].when)
  {
    DueIsPrefix(ts, now, k);
    OrderIsThatOfTotals(ts[k].when, now);
    OrderIsThatOfTotals(now, ts[k].when);
  }

  lemma FoundDue(ts: seq<Entry>, now: Time, e: Entry)
    requires Sorted(ts) && Normal(now) && e in Executed(ts, now) && !Less(now, e.when)
    requires forall k :: 0 <= k < |ts| ==> ts[k].task.interval < UINT32
    ensures exists k :: 0 <= k < DueCount(ts, now) && ts[k].task.interval > MAX_INTERVAL
  {
    var n, r := DueCount(ts, now), Executed(ts, now);
    ExecutedKeeps(ts, now);
    assert e in multiset(r);
    hide Executed, Recurring, Less, NextTime;
    if e in ts[n..] {
      var k :| n <= k < |ts| && ts[k] == e;
      NotDueIsLater(ts, now, k);
    } else {
      RecurringFrom(ts[..n], now, e);
      var k :| 0 <= k < n && ts[..n][k].task == e.task;
      NextTimeIsLaterIff(now, e.task.interval);
      assert ts[k].task.interval > MAX_INTERVAL;
    }
  }

  lemma {:induction false} RecurringFrom(due: seq<Entry>, now: Time, e: Entry)
    requires e in Recurring(due, now)
    ensures exists k :: 0 <= k < |due| && due[k].task == e.task
    ensures e.task.interval != 0 && e.when == NextTime(now, e.task.interval)
  {
    RecurringIs(due, now, e);
    if due[0].task != e.task {
      RecurringFrom(due[1..], now, e);
      var k :| 0 <= k < |due[1..]| && due[1..][k].task == e.task;
      assert due[k + 1].task == e.task;
    }
  }

  // ----- whole runs

  lemma {:induction false} TasksSplit(ts: seq<Entry>, n: nat)
    requires n <= |ts|
    ensures Tasks(ts) == Tasks(ts[..n]) + Tasks(ts[n..])
  {
    if n > 0 {
      TasksSplit(ts[1..], n - 1);
      assert ts[1..][..n - 1] == ts[..n][1..] && ts[1..][n - 1..] == ts[n..];
    } else {
      assert ts[0..] == ts;
    }
  }

  lemma {:induction false} TasksInsert(ts: seq<Entry>, e: Entry)
    ensures multiset(Tasks(Insert(ts, e))) == multiset(Tasks(ts)) + multiset{e.task}
  {
    if ts != [] && !Less(e.when, ts[0].when) {
      TasksInsert(ts[1..], e);
      var r := Insert(ts[1..], e);
      assert ([ts[0]] + r)[1..] == r;
    } else {
      assert ([e] + ts)[1..] == ts;
    }
  }

  lemma {:induction false} TasksInsertAll(ts: seq<Entry>, more: seq<Entry>)
    ensures multiset(Tasks(InsertAll(ts, more))) == multiset(Tasks(ts)) + multiset(Tasks(more))
    decreases |more|
  {
    if more != [] {
      TasksInsert(ts, more[0]);
      TasksInsertAll(Insert(ts, more[0]), more[1..]);
    }
  }

  lemma {:induction false} TasksRecurring(due: seq<Entry>, now: Time, t: Task)
    ensures multiset(Tasks(Recurring(due, now)))[t] == if t.interval != 0 then multiset(Tasks(due))[t] else 0
  {
    if due != [] {
      TasksRecurring(due[1..], now, t);
      var rest := Recurring(due[1..], now);
      if due[0].task.interval != 0 {
        assert Recurring(due, now)[1..] == rest;
      } else {
        assert Recurring(due, now) == rest;
      }
    }
  }

  /** One execution: a task that recurs stays, one that does not is dispatched or stays. */
  lemma ExecutionConserves(ts: seq<Entry>, now: Time, t: Task)
    ensures var left := multiset(Tasks(Executed(ts, now)))[t];
            if t.interval != 0 then left == multiset(Tasks(ts))[t]
            else left + multiset(Dispatched(ts, now))[t] == multiset(Tasks(ts))[t]
  {
    var n := DueCount(ts, now);
    TasksSplit(ts, n);
    TasksInsertAll(ts[n..], Recurring(ts[..n], now));
    TasksRecurring(ts[..n], now, t);
  }

  function Without(ts: seq<Entry>, work: int): seq<Entry> {
    if ts == [] then [] else (if ts[0].task.work == work then [] else [ts[0]]) + Without(ts[1..], work)
  }

  lemma SortedCons(x: Entry, r: seq<Entry>)
    requires Sorted(r) && Normal(x.when) && forall k :: 0 <= k < |r| ==> LessEq(x.when, r[k].when)
    ensures Sorted([x] + r)
  {
  }

  lemma {:induction false} WithoutKeeps(ts: seq<Entry>, work: int)
    requires Sorted(ts)
    ensures Sorted(Without(ts, work))
    ensures forall k :: 0 <= k < |Without(ts, work)| ==> Without(ts, work)[k] in ts
  {
    if ts != [] {
      WithoutKeeps(ts[1..], work);
      var r := Without(ts[1..], work);
      forall k | 0 <= k < |r| ensures r[k] in ts && LessEq(ts[0].when, r[k].when) {
        assert r[k] in ts[1..];
      }
      SortedCons(ts[0], r);
      hide Sorted, LessEq;
      assert [] + r == r;
    }
  }

  lemma {:induction false} TasksWithout(ts: seq<Entry>, work: int, t: Task)
    ensures multiset(Tasks(Without(ts, work)))[t] == if t.work == work then 0 else multiset(Tasks(ts))[t]
  {
    if ts != [] {
      TasksWithout(ts[1..], work, t);
      var r := Without(ts[1..], work);
      TasksCons(ts[0], r);
      assert Without(ts, work) == if ts[0].task.work == work then r else [ts[0]] + r;
      hide Without, Tasks;
    }
  }

  lemma TasksCons(e: Entry, ts: seq<Entry>)
    ensures Tasks([e] + ts) == [e.task] + Tasks(ts)
  {
    assert ([e] + ts)[1..] == ts;
  }

  /** What is asked of the table: a new entry, the removal of a task, or an execution. */
  datatype Request = Added(entry: Entry) | Removed(work: int) | Ran(now: Time)

  function Served(ts: seq<Entry>, r: Request): seq<Entry> {
    match r
    case Added(e) => Insert(ts, e)
    case Removed(work) => Without(ts, work)
    case Ran(now) => Executed(ts, now)
  }

  function After(ts: seq<Entry>, rs: seq<Request>): seq<Entry>
    decreases |rs|
  {
    if rs == [] then ts else After(Served(ts, rs[0]), rs[1..])
  }

  /** Everything dispatched by the executions among these requests, in order. */
  function Log(ts: seq<Entry>, rs: seq<Request>): seq<Task>
    decreases |rs|
  {
    if rs == [] then [] else (if rs[0].Ran? then Dispatched(ts, rs[0].now) else []) + Log(Served(ts, rs[0]), rs[1..])
  }

  /** How often a task was added, and how many entries of it were removed. */
  function Additions(rs: seq<Request>, t: Task): nat {
    if rs == [] then 0 else (if rs[0].Added? && rs[0].entry.task == t then 1 else 0) + Additions(rs[1..], t)
  }

  function Removals(ts: seq<Entry>, rs: seq<Request>, t: Task): nat
    decreases |rs|
  {
    if rs == [] then 0 else
    (if rs[0].Removed? && rs[0].work == t.work then multiset(Tasks(ts))[t] else 0) +
    Removals(Served(ts, rs[0]), rs[1..], t)
  }

  lemma ServedConserves(ts: seq<Entry>, r: Request, t: Task)
    ensures multiset(Tasks(Served(ts, r)))[t] + Removals(ts, [r], t) +
            (if t.interval == 0 then multiset(Log(ts, [r]))[t] else 0) == multiset(Tasks(ts))[t] + Additions([r], t)
  {
    assert [r][1..] == [];
    match r {
      case Added(e) => TasksInsert(ts, e);
      case Removed(work) => TasksWithout(ts, work, t);
      case Ran(now) =>
        ExecutionConserves(ts, now, t);
        assert Log(ts, [r]) == Dispatched(ts, now) + [] == Dispatched(ts, now);
    }
  }

  /** Over any additions, removals and executions no task is lost or doubled: what was there or added is
      there, was removed, or, if it runs once, was dispatched. */
  lemma {:induction false} RunConserves(ts: seq<Entry>, rs: seq<Request>, t: Task)
    ensures multiset(Tasks(After(ts, rs)))[t] + Removals(ts, rs, t) +
            (if t.interval == 0 then multiset(Log(ts, rs))[t] else 0) == multiset(Tasks(ts))[t] + Additions(rs, t)
    decreases |rs|
  {
    if rs != [] {
      ServedConserves(ts, rs[0], t);
      RunConserves(Served(ts, rs[0]), rs[1..], t);
      OneRequest(ts, rs[0], t);
    }
  }

  lemma OneRequest(ts: seq<Entry>, r: Request, t: Task)
    ensures Log(ts, [r]) == if r.Ran? then Dispatched(ts, r.now) else []
    ensures Additions([r], t) == if r.Added? && r.entry.task == t then 1 else 0
    ensures Removals(ts, [r], t) == if r.Removed? && r.work == t.work then multiset(Tasks(ts))[t] else 0
  {
    assert [r][1..] == [];
  }

  lemma LeftIsLater(ts: seq<Entry>, now: Time, e: Entry)
    requires Sorted(ts) && Normal(now) && e in Executed(ts, now) && e.task.interval == 0
    ensures e in ts && Less(now, e.when)
  {
    var n := DueCount(ts, now);
    ExecutedKeeps(ts, now);
    assert e in multiset(Executed(ts, now));
    RecurringIs(ts[..n], now, e);
    var k :| n <= k < |ts| && ts[k] == e;
    DueIsPrefix(ts, now, k);
    OrderIsThatOfTotals(e.when, now);
    OrderIsThatOfTotals(now, e.when);
  }

  predicate NormalTimes(rs: seq<Request>) {
    forall i :: 0 <= i < |rs| ==> (rs[i].Added? ==> Normal(rs[i].entry.when)) && (rs[i].Ran? ==> Normal(rs[i].now))
  }

  /** No execution from the k-th request on had come to e. */
  predicate NotDueFrom(rs: seq<Request>, k: nat, e: Entry) {
    forall i :: k <= i < |rs| && rs[i].Ran? ==> Less(rs[i].now, e.when)
  }

  lemma ServedKeeps(ts: seq<Entry>, r: Request)
    requires Sorted(ts) && (r.Added? ==> Normal(r.entry.when)) && (r.Ran? ==> Normal(r.now))
    ensures Sorted(Served(ts, r))
    ensures forall e :: e in Served(ts, r) && e.task.interval == 0 ==>
              r == Added(e) || (e in ts && (r.Ran? ==> Less(r.now, e.when)))
  {
    match r {
      case Added(x) =>
        InsertKeeps(ts, x);
        forall e | e in Served(ts, r) ensures r == Added(e) || e in ts {
          assert e in multiset(Insert(ts, x));
        }
      case Removed(work) => WithoutKeeps(ts, work);
      case Ran(now) =>
        ExecutedKeeps(ts, now);
        forall e | e in Served(ts, r) && e.task.interval == 0 ensures e in ts && Less(now, e.when) {
          LeftIsLater(ts, now, e);
        }
    }
  }

  /** And a task that runs once and is left was not due at any execution since it came into the table. */
  lemma {:induction false} LeftWasNotDue(ts: seq<Entry>, rs: seq<Request>, e: Entry) returns (k: nat)
    requires Sorted(ts) && NormalTimes(rs) && e in After(ts, rs) && e.task.interval == 0
    ensures k <= |rs| && NotDueFrom(rs, k, e) && if k == 0 then e in ts else rs[k - 1] == Added(e)
    decreases |rs|
  {
    if rs == [] {
      return 0;
    }
    ServedKeeps(ts, rs[0]);
    var j := LeftWasNotDue(Served(ts, rs[0]), rs[1..], e);
    if j > 0 || rs[0] == Added(e) {
      k := j + 1;
    } else {
      k := 0;
    }
    assert forall i :: 1 <= i < |rs| ==> rs[i] == rs[1..][i - 1];
  }

  // ----- the manager

  lemma {:induction false} InsertAt(ts: seq<Entry>, e: Entry, k: nat)
    requires k <= |ts| && (forall j :: 0 <= j < k ==> !Less(e.when, ts[j].when))
    requires k < |ts| ==> Less(e.when, ts[k].when)
    ensures Insert(ts, e) == ts[..k] + [e] + ts[k..]
  {
    if k > 0 {
      InsertAt(ts[1..], e, k - 1);
      assert ts[1..][..k - 1] == ts[1..k] && ts[..k] == [ts[0]] + ts[1..k] && ts[1..][k - 1..] == ts[k..];
    }
  }

  class Manager {
    var tasks: seq<Entry>
    var queue: seq<Task>
    var currentId: nat
    ghost var dispatched: seq<Task>

    constructor ()
      ensures tasks == [] && queue == [] && currentId == 0 && dispatched == []
    {
      tasks, queue, currentId, dispatched := [], [], 0, [];
    }

    method InsertTask(e: Entry)
      modifies this`tasks
      ensures tasks == Insert(old(tasks), e)
    {
      var k := 0;
      while k < |tasks| && !Less(e.when, tasks[k].when)
        invariant 0 <= k <= |tasks| && forall j :: 0 <= j < k ==> !Less(e.when, tasks[j].when)
      {
        k := k + 1;
      }
      InsertAt(tasks, e, k);
      tasks := tasks[..k] + [e] + tasks[k..];
    }

    method Add(work: int, when: Time, interval: nat, runnable: bool) returns (id: nat)
      modifies this
      ensures id == currentId == old(currentId) + 1 && queue == old(queue) && dispatched == old(dispatched)
      ensures tasks == Insert(old(tasks), Entry(when, Task(id, work, runnable, interval)))
    {
      currentId := currentId + 1;
      id := currentId;
      InsertTask(Entry(when, Task(id, work, runnable, interval)));
    }

    method NextExecutionTime(max: Time) returns (t: Time)
      requires Sorted(tasks)
      ensures tasks == [] ==> t == max
      ensures tasks != [] ==> t == tasks[0].when && forall k :: 0 <= k < |tasks| ==> LessEq(t, tasks[k].when)
    {
      t := if tasks == [] then max else tasks[0].when;
    }

    method Remove(work: int) returns (count: nat)
      modifies this`tasks
      ensures tasks == Without(old(tasks), work) && count == |old(tasks)| - |tasks|
    {
      count := 0;
      var k := 0;
      while k < |tasks|
        invariant k <= |tasks| && tasks[..k] + Without(tasks[k..], work) == Without(old(tasks), work)
        invariant count == |old(tasks)| - |tasks|
        decreases |tasks| - k
      {
        assert tasks[k..][1..] == tasks[k + 1..];
        if tasks[k].task.work == work {
          tasks := tasks[..k] + tasks[k + 1..];
          count := count + 1;
        } else {
          assert tasks[..k + 1] == tasks[..k] + [tasks[k]];
          k := k + 1;
        }
      }
      assert tasks[..k] == tasks && tasks[k..] == [];
    }

    /** Workers take what is queued until nothing is. */
    method WaitForQueueEmpty()
      modifies this`queue
      ensures queue == []
    {
      while queue != []
        decreases |queue|
      {
        queue := queue[1..];
      }
    }

    method Dispatch(t: Task)
      modifies this`queue, this`dispatched
      ensures dispatched == old(dispatched) + [t]
    {
      if t.runnable {
        queue := queue + [t];
      } else {
        WaitForQueueEmpty();
      }
      dispatched := dispatched + [t];
    }

    method Execute(now: Time) returns (count: nat)
      modifies this
      ensures tasks == Executed(old(tasks), now) && dispatched == old(dispatched) + Dispatched(old(tasks), now)
      ensures count == DueCount(old(tasks), now) && queue == [] && currentId == old(currentId)
    {
      var recurring;
      count, recurring := DispatchDue(now);
      var k := 0;
      while k < |recurring|
        invariant k <= |recurring| && InsertAll(tasks, recurring[k..]) == Executed(old(tasks), now)
        invariant dispatched == old(dispatched) + Dispatched(old(tasks), now) && currentId == old(currentId)
      {
        assert recurring[k..][1..] == recurring[k + 1..];
        InsertTask(recurring[k]);
        k := k + 1;
      }
      WaitForQueueEmpty();
    }

    method DispatchDue(now: Time) returns (count: nat, recurring: seq<Entry>)
      modifies this
      ensures count == DueCount(old(tasks), now) && tasks == old(tasks)[count..] && currentId == old(currentId)
      ensures recurring == Recurring(old(tasks)[..count], now)
      ensures dispatched == old(dispatched) + Dispatched(old(tasks), now)
    {
      count, recurring := 0, [];
      ghost var all := tasks;
      while tasks != [] && LessEq(tasks[0].when, now)
        invariant count <= |all| && tasks == all[count..] && count + DueCount(tasks, now) == DueCount(all, now)
        invariant recurring == Recurring(all[..count], now) && dispatched == old(dispatched) + Tasks(all[..count])
        invariant currentId == old(currentId)
        decreases |tasks|
      {
        RecurringSnoc(all[..count], tasks[0], now);
        assert all[..count + 1] == all[..count] + [tasks[0]];
        var t := tasks[0].task;
        tasks := tasks[1..];
        if t.interval != 0 {
          recurring := recurring + [Entry(NextTime(now, t.interval), t)];
        }
        Dispatch(t);
        count := count + 1;
      }
    }
  }

  lemma {:induction false} RecurringSnoc(due: seq<Entry>, e: Entry, now: Time)
    ensures Recurring(due + [e], now) ==
            Recurring(due, now) + if e.task.interval != 0 then [Entry(NextTime(now, e.task.interval), e.task)] else []
    ensures Tasks(due + [e]) == Tasks(due) + [e.task]
  {
    if due != [] {
      RecurringSnoc(due[1..], e, now);
      assert (due + [e])[1..] == due[1..] + [e];
    } else {
      assert due + [e] == [e];
    }
  }
}
