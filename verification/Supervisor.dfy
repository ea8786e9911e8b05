/** The process manager: tables of streams, pids, orphan exits and deadlines that one thread keeps while
    processes are started, registered, reaped and closed at any time. */
module Supervisor {
  import opened Collections

  // ----- state

  /** A process object, -1 standing for no pid and for a closed stream. It is `known` once the manager has
      taken it over; `pids` are those it was started with, and `finishes` counts the notifications of an end. */
  datatype Proc = Proc(pid: int, input: int, out: int, err: int, outOn: bool, errOn: bool, deadline: nat,
    status: int, timedOut: bool, known: bool, pids: seq<int>, finishes: nat)

  predicate Running(p: Proc) {
    p.pid != -1 || p.input != -1 || p.out != -1 || p.err != -1
  }

  datatype Exit = Exit(pid: int, status: int)

  /** `direct` if the exit was passed on when it was reaped, not as an orphan. */
  datatype Delivery = Delivery(proc: nat, exit: Exit, direct: bool)

  datatype Deadline = Deadline(time: nat, proc: nat)

  /** Where the manager's thread is in its loop, and at which orphan. */
  datatype Phase = Top | Streams | Reaping | Orphans(at: nat) | Killing

  /** Whether a process that has been told of its end is still to be taken off the list of deadlines. */
  datatype Pending = Nothing | Erasure(proc: nat)

  datatype State = State(procs: map<nat, Proc>, queue: seq<(int, nat)>, byFd: map<int, nat>, fds: seq<int>,
    byPid: map<int, nat>, orphans: seq<Exit>, deadlines: seq<Deadline>, update: bool, phase: Phase, pending: Pending,
    children: set<int>, reaped: seq<Exit>, delivered: seq<Delivery>, killed: seq<int>)

  // ----- steps of a process

  /** The listener is told when nothing of the process is left. */
  function Notified(p: Proc): Proc {
    if Running(p) then p else p.(finishes := p.finishes + 1)
  }

  function Ended(p: Proc, status: int): Proc {
    if Running(p) then Notified(p.(status := status, pid := -1, input := -1)) else p
  }

  function Closed(p: Proc, fd: int): Proc {
    Notified(if p.out == fd then p.(out := -1) else if p.err == fd then p.(err := -1) else p)
  }

  // ----- steps of the manager

  function WithProc(s: State, i: nat, p: Proc): State {
    s.(procs := s.procs[i := p])
  }

  /** Keeps the deadlines in order, equal ones in the order of registration. */
  function Scheduled(d: seq<Deadline>, e: Deadline): seq<Deadline> {
    if d == [] || e.time < d[0].time then [e] + d else [d[0]] + Scheduled(d[1..], e)
  }

  function Erased(d: seq<Deadline>, e: Deadline): seq<Deadline> {
    if d == [] then [] else if d[0] == e then d[1..] else [d[0]] + Erased(d[1..], e)
  }

  function Expired(d: seq<Deadline>, now: nat): (n: nat)
    ensures n <= |d|
  {
    if d == [] || d[0].time > now then 0 else 1 + Expired(d[1..], now)
  }

  /** A process has been executed and its pid and streams are those given. */
  function Exec(s: State, i: nat, pid: int, input: int, out: int, err: int, deadline: nat): State {
    var pids, finishes := if i in s.procs then s.procs[i].pids else [], if i in s.procs then s.procs[i].finishes else 0;
    WithProc(s, i, Proc(pid, input, out, err, out != -1, err != -1, deadline, 0, false, false, pids + [pid], finishes))
      .(children := s.children + {pid})
  }

  function Add(s: State, i: nat): State
    requires i in s.procs
  {
    s.(queue := s.queue + [(s.procs[i].pid, i)], update := true)
  }

  function RegisterOne(s: State, pid: int, i: nat): State
    requires i in s.procs
  {
    var p := s.procs[i];
    var byOut := if p.outOn then s.byFd[p.out := i] else s.byFd;
    WithProc(s, i, p.(known := true)).(
      byFd := if p.errOn then byOut[p.err := i] else byOut,
      byPid := s.byPid[pid := i],
      deadlines := if p.deadline != 0 then Scheduled(s.deadlines, Deadline(p.deadline, i)) else s.deadlines)
  }

  /** The first process of the queue is taken over. */
  function RegisterHead(s: State): State
    requires s.queue != [] && s.queue[0].1 in s.procs
  {
    RegisterOne(s, s.queue[0].0, s.queue[0].1).(queue := s.queue[1..])
  }

  predicate Queueable(s: State) {
    forall k :: 0 <= k < |s.queue| ==> s.queue[k].1 in s.procs
  }

  function RegisterAll(s: State): State
    requires Queueable(s)
    decreases |s.queue|
  {
    if s.queue == [] then s else RegisterAll(RegisterHead(s))
  }

  predicate Lists(fds: seq<int>, keys: set<int>) {
    (forall k :: 0 <= k < |fds| ==> fds[k] in keys) && (forall fd :: fd in keys ==> fd in fds) &&
    (forall j, k :: 0 <= j < k < |fds| ==> fds[j] != fds[k])
  }

  /** The tables hold processes that exist. */
  predicate Linked(s: State) {
    (forall fd :: fd in s.byFd ==> s.byFd[fd] in s.procs) && (forall pid :: pid in s.byPid ==> s.byPid[pid] in s.procs)
  }

  function CloseStream(s: State, fd: int): State
    requires Linked(s)
  {
    if fd in s.byFd then
      WithProc(s, s.byFd[fd], Closed(s.procs[s.byFd[fd]], fd)).(byFd := s.byFd - {fd}, update := true)
    else s.(update := true)
  }

  /** The exit of a registered process reaches it; only one that was reaped directly tells a kill. Its deadline
      stays on the list for the moment. */
  function Deliver(s: State, e: Exit, direct: bool): State
    requires Linked(s) && e.pid in s.byPid
  {
    var i := s.byPid[e.pid];
    var p := s.procs[i];
    WithProc(s, i, Ended(if direct && WasKilled(e) then p.(timedOut := true) else p, e.status)).(
      byPid := s.byPid - {e.pid},
      pending := Erasure(i),
      delivered := s.delivered + [Delivery(i, e, direct)])
  }

  function WithoutDeadline(p: Proc, i: nat, d: seq<Deadline>): seq<Deadline> {
    if p.deadline != 0 then Erased(d, Deadline(p.deadline, i)) else d
  }

  /** The process told of its end is looked up among the deadlines by the one it has now. */
  function TakenOff(s: State): State
    requires s.pending.Erasure? && s.pending.proc in s.procs
  {
    s.(deadlines := WithoutDeadline(s.procs[s.pending.proc], s.pending.proc, s.deadlines), pending := Nothing)
  }

  const SIGKILL := 9

  /** The signal part of a wait status. */
  function Signal(status: int): int {
    status % 128
  }

  predicate WasKilled(e: Exit) {
    Signal(e.status) == SIGKILL
  }

  function Reap(s: State, e: Exit): State
    requires Linked(s)
  {
    var t := s.(children := s.children - {e.pid}, reaped := s.reaped + [e]);
    if e.pid in s.byPid then Deliver(t, e, true)
    else t.(orphans := t.orphans + [e], update := true)
  }

  function DeliverOrphan(s: State, k: nat): State
    requires k < |s.orphans| && Linked(s) && s.orphans[k].pid in s.byPid
  {
    Deliver(s, s.orphans[k], false).(orphans := s.orphans[..k] + s.orphans[k + 1..])
  }

  // ----- the invariant

  ghost predicate ProcOk(p: Proc) {
    |p.pids| == p.finishes + (if Running(p) then 1 else 0) &&
    (p.pid != -1 ==> p.pids != [] && p.pids[|p.pids| - 1] == p.pid) &&
    p.out >= -1 && p.err >= -1 && (p.out != -1 ==> p.out != p.err) && (p.input != -1 ==> p.pid != -1) &&
    (!p.known ==> p.pid != -1 && p.outOn == (p.out != -1) && p.errOn == (p.err != -1))
  }

  type Processes = map<nat, Proc>

  ghost predicate Procs(procs: Processes) {
    forall i :: i in procs ==> ProcOk(procs[i])
  }

  ghost predicate Pids(procs: Processes, byPid: map<int, nat>) {
    (forall pid :: pid in byPid ==>
       byPid[pid] in procs && procs[byPid[pid]].pid == pid != -1 && procs[byPid[pid]].known) &&
    (forall i :: i in procs && procs[i].known && procs[i].pid != -1 ==>
       procs[i].pid in byPid && byPid[procs[i].pid] == i) &&
    (forall i, j :: i in procs && j in procs && i != j && procs[i].pid != -1 ==> procs[i].pid != procs[j].pid)
  }

  ghost predicate HasStream(p: Proc, fd: int) {
    fd != -1 && (p.out == fd || p.err == fd)
  }

  ghost predicate Fds(procs: Processes, byFd: map<int, nat>) {
    (forall fd :: fd in byFd ==> byFd[fd] in procs && HasStream(procs[byFd[fd]], fd) && procs[byFd[fd]].known) &&
    (forall i, fd :: i in procs && procs[i].known && HasStream(procs[i], fd) ==> fd in byFd && byFd[fd] == i) &&
    (forall i, j, fd :: i in procs && j in procs && HasStream(procs[i], fd) && HasStream(procs[j], fd) ==> i == j)
  }

  ghost predicate Queue(procs: Processes, queue: seq<(int, nat)>) {
    (forall k :: 0 <= k < |queue| ==>
      queue[k].1 in procs && !procs[queue[k].1].known && procs[queue[k].1].pid == queue[k].0) &&
    (forall j, k :: 0 <= j < k < |queue| ==> queue[j].1 != queue[k].1)
  }

  ghost predicate Polls(byFd: map<int, nat>, fds: seq<int>, update: bool) {
    (forall fd :: fd in byFd ==> fd in fds) &&
    (forall j, k :: 0 <= j < k < |fds| ==> fds[j] != fds[k]) &&
    (!update ==> Lists(fds, byFd.Keys))
  }

  ghost predicate Orphaned(orphans: seq<Exit>, pid: int) {
    exists k :: 0 <= k < |orphans| && orphans[k].pid == pid
  }

  ghost predicate Exits(procs: Processes, children: set<int>, orphans: seq<Exit>) {
    (forall j, k :: 0 <= j < k < |orphans| ==> orphans[j].pid != orphans[k].pid) &&
    (forall k :: 0 <= k < |orphans| ==> orphans[k].pid !in children) &&
    (forall i :: i in procs && procs[i].pid != -1 ==> procs[i].pid in children || Orphaned(orphans, procs[i].pid))
  }

  predicate Sorted(d: seq<Deadline>) {
    forall j, k :: 0 <= j < k < |d| ==> d[j].time <= d[k].time
  }

  ghost predicate Listed(procs: Processes, deadlines: seq<Deadline>) {
    Sorted(deadlines) && forall k :: 0 <= k < |deadlines| ==> deadlines[k].proc in procs
  }

  function ExitsOf(d: seq<Delivery>): multiset<Exit> {
    if d == [] then multiset{} else ExitsOf(d[..|d| - 1]) + multiset{d[|d| - 1].exit}
  }

  function DeliveredTo(d: seq<Delivery>, i: nat): seq<Exit> {
    if d == [] then [] else
    DeliveredTo(d[..|d| - 1], i) + if d[|d| - 1].proc == i then [d[|d| - 1].exit] else []
  }

  /** Every start of a process is answered by the exit of the pid it was started with, except the current one
      while it is not delivered. */
  ghost predicate Answered(p: Proc, exits: seq<Exit>) {
    |exits| + (if p.pid != -1 then 1 else 0) == |p.pids| &&
    (forall k :: 0 <= k < |exits| ==> exits[k].pid == p.pids[k]) &&
    (p.pid == -1 ==> exits != [] && exits[|exits| - 1].status == p.status)
  }

  ghost predicate Log(procs: Processes, delivered: seq<Delivery>) {
    forall i: nat ::
      if i in procs then Answered(procs[i], DeliveredTo(delivered, i)) else DeliveredTo(delivered, i) == []
  }

  /** Every exit reaped has been delivered or is held as an orphan. */
  ghost predicate Conserved(reaped: seq<Exit>, delivered: seq<Delivery>, orphans: seq<Exit>) {
    multiset(reaped) == ExitsOf(delivered) + multiset(orphans)
  }

  /** No orphan is registered. */
  ghost predicate Settled(orphans: seq<Exit>, byPid: map<int, nat>) {
    forall k :: 0 <= k < |orphans| ==> orphans[k].pid !in byPid
  }

  ghost predicate Core(s: State) {
    Procs(s.procs) && Pids(s.procs, s.byPid) && Fds(s.procs, s.byFd) && Queue(s.procs, s.queue) &&
    Exits(s.procs, s.children, s.orphans) && Listed(s.procs, s.deadlines) &&
    Log(s.procs, s.delivered) && Conserved(s.reaped, s.delivered, s.orphans)
  }

  /** Where the manager's thread may be: no orphan passed over is registered, and a deadline is still to be
      taken off only while exits are dealt with. */
  ghost predicate Placed(s: State) {
    (s.phase.Killing? ==> Settled(s.orphans, s.byPid)) &&
    (s.phase.Orphans? ==> s.phase.at <= |s.orphans| && Settled(s.orphans[..s.phase.at], s.byPid)) &&
    (s.pending.Erasure? ==>
      s.pending.proc in s.procs && (s.phase.Reaping? || s.phase.Orphans?) &&
      (s.procs[s.pending.proc].pid == -1 || !s.procs[s.pending.proc].known))
  }

  ghost predicate Inv(s: State) {
    Core(s) && Polls(s.byFd, s.fds, s.update) && Placed(s)
  }

  lemma IsLinked(s: State)
    requires Core(s)
    ensures Linked(s) && Queueable(s)
  {
  }

  // ----- closing a stream

  /** Only the streams of process i change. */
  ghost predicate SameBut(p: Proc, q: Proc) {
    q.pid == p.pid && q.known == p.known && q.deadline == p.deadline && q.pids == p.pids && q.status == p.status
  }

  lemma StreamsOnly(procs: Processes, i: nat, p: Proc, byPid: map<int, nat>, queue: seq<(int, nat)>, s: State)
    requires i in procs && SameBut(procs[i], p)
    ensures Pids(procs, byPid) ==> Pids(procs[i := p], byPid)
    ensures Queue(procs, queue) ==> Queue(procs[i := p], queue)
    ensures Exits(procs, s.children, s.orphans) ==> Exits(procs[i := p], s.children, s.orphans)
    ensures Listed(procs, s.deadlines) ==> Listed(procs[i := p], s.deadlines)
    ensures Log(procs, s.delivered) ==> Log(procs[i := p], s.delivered)
  {
  }

  lemma ClosedProc(p: Proc, fd: int)
    requires ProcOk(p) && p.known && HasStream(p, fd)
    ensures SameBut(p, Closed(p, fd)) && ProcOk(Closed(p, fd)) && Closed(p, fd).known
    ensures forall g :: HasStream(Closed(p, fd), g) <==> HasStream(p, g) && g != fd
  {
  }

  lemma CloseKeepsFds(procs: Processes, byFd: map<int, nat>, i: nat, fd: int, q: Proc)
    requires Fds(procs, byFd) && fd in byFd && byFd[fd] == i && q.known
    requires forall g :: HasStream(q, g) <==> HasStream(procs[i], g) && g != fd
    ensures Fds(procs[i := q], byFd - {fd})
  {
    hide HasStream;
  }

  lemma CloseKeepsInv(s: State, fd: int)
    requires Inv(s)
    ensures Linked(s) && Inv(CloseStream(s, fd))
  {
    hide Procs, Pids, Queue, Fds, Exits, Listed, Log, Conserved, Settled, ProcOk, HasStream, Closed, SameBut;
    IsLinked(s);
    if fd in s.byFd {
      var i := s.byFd[fd];
      StreamOf(s, fd);
      var q := Closed(s.procs[i], fd);
      ClosedProc(s.procs[i], fd);
      OneProc(s.procs, i, q);
      CloseKeepsFds(s.procs, s.byFd, i, fd, q);
      StreamsOnly(s.procs, i, q, s.byPid, s.queue, s);
    }
  }

  lemma OneProc(procs: Processes, i: nat, q: Proc)
    requires Procs(procs) && ProcOk(q)
    ensures Procs(procs[i := q])
  {
  }

  lemma StreamOf(s: State, fd: int)
    requires Core(s) && fd in s.byFd
    ensures s.byFd[fd] in s.procs
    ensures var p := s.procs[s.byFd[fd]]; ProcOk(p) && p.known && HasStream(p, fd)
  {
    hide Pids, Queue, Exits, Listed, Log, Conserved;
  }

  // ----- executing and queueing a process

  /** Pids and streams are not in use elsewhere. */
  ghost predicate CanExec(s: State, i: nat, pid: int, input: int, out: int, err: int) {
    Idle(s.procs, i) && pid > 0 && pid !in s.children && !Orphaned(s.orphans, pid) &&
    out >= -1 && err >= -1 && (out != -1 ==> out != err) &&
    forall j :: j in s.procs ==> !HasStream(s.procs[j], out) && !HasStream(s.procs[j], err)
  }

  ghost predicate Idle(procs: Processes, i: nat) {
    i in procs ==> !Running(procs[i])
  }

  lemma ExecKeepsPids(procs: Processes, byPid: map<int, nat>, i: nat, p: Proc)
    requires Pids(procs, byPid) && Idle(procs, i) && !p.known && p.pid != -1
    requires forall j :: j in procs ==> procs[j].pid != p.pid
    ensures Pids(procs[i := p], byPid)
  {
  }

  lemma ExecKeepsFds(procs: Processes, byFd: map<int, nat>, i: nat, p: Proc)
    requires Fds(procs, byFd) && Idle(procs, i) && !p.known
    requires forall j :: j in procs ==> !HasStream(procs[j], p.out) && !HasStream(procs[j], p.err)
    ensures Fds(procs[i := p], byFd)
  {
  }

  lemma ExecKeepsQueue(procs: Processes, queue: seq<(int, nat)>, deadlines: seq<Deadline>, i: nat, p: Proc)
    requires Procs(procs) && Queue(procs, queue) && Listed(procs, deadlines) && Idle(procs, i)
    ensures Queue(procs[i := p], queue) && Listed(procs[i := p], deadlines)
  {
  }

  lemma ExecKeepsExits(s: State, i: nat, p: Proc)
    requires Core(s) && Idle(s.procs, i)
    requires p.pid > 0 && p.pid !in s.children && !Orphaned(s.orphans, p.pid)
    requires p.pids == (if i in s.procs then s.procs[i].pids else []) + [p.pid]
    ensures Exits(s.procs[i := p], s.children + {p.pid}, s.orphans) && Log(s.procs[i := p], s.delivered)
  {
    hide Pids, Fds, Queue, Listed;
  }

  lemma PidIsNew(s: State, pid: int)
    requires Core(s) && pid > 0 && pid !in s.children && !Orphaned(s.orphans, pid)
    ensures forall j :: j in s.procs ==> s.procs[j].pid != pid
  {
    hide Pids, Queue, Fds, Listed, Log, Conserved, Procs;
  }

  lemma ExecProc(s: State, i: nat, pid: int, input: int, out: int, err: int, deadline: nat)
    requires Core(s) && CanExec(s, i, pid, input, out, err)
    ensures ProcOk(Exec(s, i, pid, input, out, err, deadline).procs[i])
  {
    hide Pids, Queue, Fds, Exits, Listed, Log, Conserved;
  }

  lemma ExecKeepsInv(s: State, i: nat, pid: int, input: int, out: int, err: int, deadline: nat)
    requires Inv(s) && CanExec(s, i, pid, input, out, err)
    ensures Inv(Exec(s, i, pid, input, out, err, deadline))
  {
    hide Procs, Pids, Queue, Fds, Exits, Listed, Log, Conserved, Settled, ProcOk, Polls, Orphaned, HasStream;
    var p := Exec(s, i, pid, input, out, err, deadline).procs[i];
    PidIsNew(s, pid);
    ExecProc(s, i, pid, input, out, err, deadline);
    OneProc(s.procs, i, p);
    ExecKeepsPids(s.procs, s.byPid, i, p);
    ExecKeepsFds(s.procs, s.byFd, i, p);
    ExecKeepsQueue(s.procs, s.queue, s.deadlines, i, p);
    ExecKeepsExits(s, i, p);
  }

  /** A process is added once for each execution. */
  ghost predicate CanAdd(s: State, i: nat) {
    i in s.procs && !s.procs[i].known && forall k :: 0 <= k < |s.queue| ==> s.queue[k].1 != i
  }

  lemma AddKeepsInv(s: State, i: nat)
    requires Inv(s) && CanAdd(s, i)
    ensures Inv(Add(s, i))
  {
    assert Queue(s.procs, s.queue + [(s.procs[i].pid, i)]);
    hide Pids, Queue, Fds, Exits, Listed, Log, Conserved, Settled;
  }

  // ----- registration

  lemma {:induction false} ScheduledSorted(d: seq<Deadline>, e: Deadline)
    requires Sorted(d)
    ensures Sorted(Scheduled(d, e)) && |Scheduled(d, e)| == |d| + 1
    ensures forall k :: 0 <= k < |Scheduled(d, e)| ==> Scheduled(d, e)[k] == e || Scheduled(d, e)[k] in d
  {
    if d != [] && e.time >= d[0].time {
      ScheduledSorted(d[1..], e);
      var r := Scheduled(d[1..], e);
      forall k | 0 <= k < |r| ensures r[k].time >= d[0].time && (r[k] == e || r[k] in d) {
        assert r[k] == e || r[k] in d[1..];
      }
    }
  }

  lemma RegisterKeepsPids(procs: Processes, byPid: map<int, nat>, i: nat)
    requires Pids(procs, byPid) && i in procs && procs[i].pid != -1 && !procs[i].known
    ensures Pids(procs[i := procs[i].(known := true)], byPid[procs[i].pid := i])
  {
  }

  /** The table of streams with those of process i added. */
  ghost predicate StreamsAdded(p: Proc, i: nat, byFd: map<int, nat>, more: map<int, nat>) {
    forall fd :: (fd in more <==> fd in byFd || HasStream(p, fd)) &&
                 (fd in more ==> more[fd] == if HasStream(p, fd) then i else byFd[fd])
  }

  lemma RegisterAddsStreams(p: Proc, i: nat, byFd: map<int, nat>, withOut: map<int, nat>, more: map<int, nat>)
    requires ProcOk(p) && !p.known
    requires withOut == if p.outOn then byFd[p.out := i] else byFd
    requires more == if p.errOn then withOut[p.err := i] else withOut
    ensures StreamsAdded(p, i, byFd, more)
  {
  }

  lemma RegisterKeepsFds(procs: Processes, byFd: map<int, nat>, i: nat, more: map<int, nat>)
    requires Fds(procs, byFd) && i in procs && !procs[i].known && StreamsAdded(procs[i], i, byFd, more)
    ensures Fds(procs[i := procs[i].(known := true)], more)
  {
  }

  lemma RegisterKeepsRest(s: State, i: nat, p: Proc)
    requires Core(s) && s.queue != [] && i == s.queue[0].1 && p == s.procs[i].(known := true)
    ensures ProcOk(p) && Queue(s.procs[i := p], s.queue[1..])
    ensures Exits(s.procs[i := p], s.children, s.orphans) && Log(s.procs[i := p], s.delivered)
  {
    hide Pids, Fds, Listed, Conserved;
  }

  lemma RegisterKeepsDeadlines(procs: Processes, deadlines: seq<Deadline>, i: nat, p: Proc)
    requires Listed(procs, deadlines) && i in procs
    ensures Listed(procs[i := p], deadlines) && Listed(procs[i := p], Scheduled(deadlines, Deadline(p.deadline, i)))
  {
    ScheduledSorted(deadlines, Deadline(p.deadline, i));
  }

  lemma HeadOfQueue(s: State, i: nat)
    requires Core(s) && s.queue != [] && i == s.queue[0].1
    ensures i in s.procs && !s.procs[i].known && s.procs[i].pid == s.queue[0].0 != -1 && ProcOk(s.procs[i])
  {
    hide Pids, Fds, Exits, Listed, Log, Conserved;
  }

  lemma RegisterHeadKeepsCore(s: State)
    requires Core(s) && s.queue != []
    ensures Queueable(s) && Core(RegisterHead(s))
  {
    hide Pids, Queue, Fds, Exits, Listed, Log, Conserved, ProcOk, StreamsAdded;
    IsLinked(s);
    var i, r := s.queue[0].1, RegisterHead(s);
    HeadOfQueue(s, i);
    var p := s.procs[i];
    RegisterKeepsPids(s.procs, s.byPid, i);
    RegisterAddsStreams(p, i, s.byFd, if p.outOn then s.byFd[p.out := i] else s.byFd, r.byFd);
    RegisterKeepsFds(s.procs, s.byFd, i, r.byFd);
    RegisterKeepsRest(s, i, p.(known := true));
    RegisterKeepsDeadlines(s.procs, s.deadlines, i, p.(known := true));
  }

  lemma {:induction false} RegisterAllKeepsCore(s: State)
    requires Core(s)
    ensures Queueable(s) && Core(RegisterAll(s)) && RegisterAll(s).queue == []
    decreases |s.queue|
  {
    hide Core;
    IsLinked(s);
    if s.queue != [] {
      RegisterHeadKeepsCore(s);
      RegisterAllKeepsCore(RegisterHead(s));
    }
  }

  /** The queue is emptied into the tables and the descriptors to poll are listed anew, in any order. */
  function Update(s: State, order: seq<int>): State
    requires Queueable(s)
  {
    RegisterAll(s).(fds := order, update := false)
  }

  // ----- exits

  lemma {:induction false} ErasedKeeps(d: seq<Deadline>, e: Deadline)
    requires Sorted(d)
    ensures Sorted(Erased(d, e)) && forall k :: 0 <= k < |Erased(d, e)| ==> Erased(d, e)[k] in d
  {
    if d != [] && d[0] != e {
      ErasedKeeps(d[1..], e);
      var r := Erased(d[1..], e);
      forall k | 0 <= k < |r| ensures r[k].time >= d[0].time && r[k] in d {
        assert r[k] in d[1..];
      }
    }
  }

  lemma EraseKeepsInv(s: State)
    requires Inv(s) && s.pending.Erasure?
    ensures Inv(TakenOff(s))
  {
    hide Procs, Pids, Queue, Fds, Exits, Log, Conserved, Settled, Polls;
    var i := s.pending.proc;
    ErasedKeeps(s.deadlines, Deadline(s.procs[i].deadline, i));
    var d := TakenOff(s).deadlines;
    forall k | 0 <= k < |d| ensures d[k].proc in s.procs {
      assert d[k] in s.deadlines;
    }
  }

  lemma DeliverKeepsPids(procs: Processes, byPid: map<int, nat>, pid: int, i: nat, q: Proc)
    requires Pids(procs, byPid) && pid in byPid && byPid[pid] == i && q.pid == -1
    ensures Pids(procs[i := q], byPid - {pid})
  {
  }

  lemma DeliverKeepsFds(procs: Processes, byFd: map<int, nat>, queue: seq<(int, nat)>, i: nat, q: Proc)
    requires Fds(procs, byFd) && Queue(procs, queue) && i in procs && procs[i].known && q.known
    requires q.out == procs[i].out && q.err == procs[i].err
    ensures Fds(procs[i := q], byFd) && Queue(procs[i := q], queue)
  {
  }

  lemma DeliveredSnoc(d: seq<Delivery>, i: nat, e: Exit, direct: bool)
    ensures ExitsOf(d + [Delivery(i, e, direct)]) == ExitsOf(d) + multiset{e}
    ensures forall j: nat ::
              DeliveredTo(d + [Delivery(i, e, direct)], j) == DeliveredTo(d, j) + if j == i then [e] else []
  {
    assert (d + [Delivery(i, e, direct)])[..|d|] == d;
  }

  lemma DeliverKeepsLog(procs: Processes, delivered: seq<Delivery>, i: nat, e: Exit, direct: bool, q: Proc)
    requires Log(procs, delivered) && i in procs && ProcOk(procs[i]) && procs[i].pid == e.pid != -1
    requires q.pid == -1 && q.pids == procs[i].pids && q.status == e.status
    ensures Log(procs[i := q], delivered + [Delivery(i, e, direct)])
  {
    DeliveredSnoc(delivered, i, e, direct);
  }

  /** What the end of its execution makes of a process. */
  lemma EndedProc(p: Proc, status: int)
    requires ProcOk(p) && p.pid != -1 && p.known
    ensures var q := Ended(p, status);
            ProcOk(q) && q.pid == -1 && q.known && q.out == p.out && q.err == p.err && q.pids == p.pids &&
            q.status == status
  {
  }

  /** All but the bookkeeping of exits, which differs between the two ways of delivery. */
  lemma DeliverKeepsTables(s: State, e: Exit, direct: bool)
    requires Core(s) && e.pid in s.byPid
    ensures Linked(s)
    ensures var t := Deliver(s, e, direct);
            Procs(t.procs) && Pids(t.procs, t.byPid) && Fds(t.procs, t.byFd) && Queue(t.procs, t.queue) &&
            Listed(t.procs, t.deadlines) && Log(t.procs, t.delivered)
    ensures var i, procs := s.byPid[e.pid], Deliver(s, e, direct).procs;
            s.procs[i].pid == e.pid && procs == s.procs[i := procs[i]] && procs[i].pid == -1
  {
    hide Queue, Fds, Exits, Log, Conserved, ProcOk;
    IsLinked(s);
    var i := s.byPid[e.pid];
    assert s.procs[i].pid == e.pid != -1 && s.procs[i].known;
    hide Pids;
    var p, q := s.procs[i], Deliver(s, e, direct).procs[i];
    ToldIsOk(p, direct && WasKilled(e));
    EndedProc(if direct && WasKilled(e) then p.(timedOut := true) else p, e.status);
    DeliverKeepsPids(s.procs, s.byPid, e.pid, i, q);
    DeliverKeepsFds(s.procs, s.byFd, s.queue, i, q);
    DeliverKeepsLog(s.procs, s.delivered, i, e, direct, q);
  }

  lemma ToldIsOk(p: Proc, killed: bool)
    requires ProcOk(p)
    ensures ProcOk(if killed then p.(timedOut := true) else p)
  {
  }

  lemma ReapKeepsExits(procs: Processes, children: set<int>, orphans: seq<Exit>, i: nat, q: Proc, pid: int)
    requires Exits(procs, children, orphans) && i in procs && procs[i].pid == pid != -1 && q.pid == -1
    requires forall j :: j in procs && j != i ==> procs[j].pid != pid
    ensures Exits(procs[i := q], children - {pid}, orphans)
  {
  }

  lemma OrphanKeepsExits(procs: Processes, children: set<int>, orphans: seq<Exit>, e: Exit)
    requires Exits(procs, children, orphans) && e.pid in children
    ensures Exits(procs, children - {e.pid}, orphans + [e])
  {
    var more := orphans + [e];
    forall i | i in procs && procs[i].pid != -1
      ensures procs[i].pid in children - {e.pid} || Orphaned(more, procs[i].pid)
    {
      if procs[i].pid == e.pid {
        assert more[|orphans|].pid == e.pid;
      } else if procs[i].pid !in children {
        var k :| 0 <= k < |orphans| && orphans[k].pid == procs[i].pid;
        assert more[k].pid == procs[i].pid;
      }
    }
  }

  lemma AdoptKeepsExits(procs: Processes, children: set<int>, orphans: seq<Exit>, k: nat, i: nat, q: Proc,
                        fewer: seq<Exit>)
    requires Exits(procs, children, orphans) && k < |orphans| && fewer == orphans[..k] + orphans[k + 1..]
    requires i in procs && procs[i].pid == orphans[k].pid != -1 && q.pid == -1
    requires forall j :: j in procs && j != i ==> procs[j].pid != orphans[k].pid
    ensures Exits(procs[i := q], children, fewer)
  {
    forall j | j in procs && j != i && procs[j].pid != -1
      ensures procs[j].pid in children || Orphaned(fewer, procs[j].pid)
    {
      if procs[j].pid !in children {
        var m :| 0 <= m < |orphans| && orphans[m].pid == procs[j].pid;
        assert fewer[if m < k then m else m - 1].pid == procs[j].pid;
      }
    }
  }

  lemma OthersDiffer(procs: Processes, byPid: map<int, nat>, pid: int)
    requires Pids(procs, byPid) && pid in byPid
    ensures pid != -1 && forall j :: j in procs && j != byPid[pid] ==> procs[j].pid != pid
  {
  }

  lemma ReapOrphanKeepsInv(s: State, e: Exit)
    requires Inv(s) && e.pid in s.children && s.phase.Reaping? && s.pending.Nothing? && e.pid !in s.byPid
    ensures Linked(s) && Inv(Reap(s, e))
    ensures Reap(s, e).orphans == s.orphans + [e] && Reap(s, e).update && Reap(s, e).procs == s.procs
  {
    hide Procs, Pids, Queue, Fds, Exits, Listed, Log;
    IsLinked(s);
    OrphanKeepsExits(s.procs, s.children, s.orphans, e);
  }

  lemma ReapChildKeepsInv(s: State, e: Exit)
    requires Inv(s) && e.pid in s.children && s.phase.Reaping? && s.pending.Nothing? && e.pid in s.byPid
    ensures Linked(s) && Inv(Reap(s, e))
  {
    hide Procs, Pids, Queue, Fds, Exits, Listed, Log, Ended;
    IsLinked(s);
    var i := s.byPid[e.pid];
    DeliverKeepsTables(s, e, true);
    OthersDiffer(s.procs, s.byPid, e.pid);
    ReapKeepsExits(s.procs, s.children, s.orphans, i, Deliver(s, e, true).procs[i], e.pid);
    DeliveredSnoc(s.delivered, i, e, true);
  }

  lemma ReapKeepsInv(s: State, e: Exit)
    requires Inv(s) && e.pid in s.children && s.phase.Reaping? && s.pending.Nothing?
    ensures Linked(s) && Inv(Reap(s, e))
  {
    hide Inv;
    if e.pid in s.byPid {
      ReapChildKeepsInv(s, e);
    } else {
      ReapOrphanKeepsInv(s, e);
    }
  }

  lemma DeliverOrphanKeepsCore(s: State, k: nat)
    requires Core(s) && k < |s.orphans| && s.orphans[k].pid in s.byPid
    ensures Linked(s) && Core(DeliverOrphan(s, k))
  {
    hide Procs, Pids, Queue, Fds, Exits, Listed, Log;
    IsLinked(s);
    var e := s.orphans[k];
    var i, fewer := s.byPid[e.pid], s.orphans[..k] + s.orphans[k + 1..];
    DeliverKeepsTables(s, e, false);
    OthersDiffer(s.procs, s.byPid, e.pid);
    AdoptKeepsExits(s.procs, s.children, s.orphans, k, i, Deliver(s, e, false).procs[i], fewer);
    DeliveredSnoc(s.delivered, i, e, false);
    assert s.orphans == s.orphans[..k] + [e] + s.orphans[k + 1..];
  }

  /** The next orphan is delivered if it belongs to a registered process, and passed over otherwise. */
  function MeetOrphan(s: State): State
    requires Linked(s) && s.phase.Orphans? && s.phase.at < |s.orphans|
  {
    if s.orphans[s.phase.at].pid in s.byPid then DeliverOrphan(s, s.phase.at)
    else s.(phase := Orphans(s.phase.at + 1))
  }

  lemma MeetOrphanKeepsInv(s: State)
    requires Inv(s) && s.phase.Orphans? && s.phase.at < |s.orphans| && s.pending.Nothing?
    ensures Linked(s) && Inv(MeetOrphan(s))
  {
    hide Core, Polls;
    IsLinked(s);
    var k, t := s.phase.at, MeetOrphan(s);
    if s.orphans[k].pid in s.byPid {
      DeliverOrphanKeepsCore(s, k);
      OrphanOwner(s, k);
      assert t.orphans[..k] == s.orphans[..k];
    } else {
      PhaseKeepsCore(s, t.phase);
      assert s.orphans[..k + 1] == s.orphans[..k] + [s.orphans[k]];
    }
  }

  lemma OrphanOwner(s: State, k: nat)
    requires Linked(s) && k < |s.orphans| && s.orphans[k].pid in s.byPid
    ensures s.byPid[s.orphans[k].pid] in DeliverOrphan(s, k).procs
  {
  }

  // ----- deadlines

  /** The pids signalled for these deadlines: those of the processes that have one. */
  function PidsOf(procs: Processes, d: seq<Deadline>): seq<int>
    requires forall k :: 0 <= k < |d| ==> d[k].proc in procs
  {
    if d == [] then []
    else (if procs[d[0].proc].pid != -1 then [procs[d[0].proc].pid] else []) + PidsOf(procs, d[1..])
  }

  lemma {:induction false} PidsOfHas(procs: Processes, d: seq<Deadline>, pid: int)
    requires forall k :: 0 <= k < |d| ==> d[k].proc in procs
    ensures pid in PidsOf(procs, d) <==> pid != -1 && exists k :: 0 <= k < |d| && procs[d[k].proc].pid == pid
  {
    if d != [] {
      PidsOfHas(procs, d[1..], pid);
      assert forall k :: 1 <= k < |d| ==> d[k] == d[1..][k - 1];
    }
  }

  lemma {:induction false} ExpiredPrefix(d: seq<Deadline>, now: nat)
    requires Sorted(d)
    ensures forall k :: 0 <= k < |d| ==> (d[k].time <= now <==> k < Expired(d, now))
  {
    if d != [] && d[0].time <= now {
      ExpiredPrefix(d[1..], now);
      assert forall k :: 1 <= k < |d| ==> d[k] == d[1..][k - 1];
    }
  }

  /** The processes whose deadline has passed are sent a kill signal and taken off the list. */
  function Kill(s: State, now: nat): State
    requires forall k :: 0 <= k < |s.deadlines| ==> s.deadlines[k].proc in s.procs
  {
    var n := Expired(s.deadlines, now);
    s.(killed := s.killed + PidsOf(s.procs, s.deadlines[..n]), deadlines := s.deadlines[n..])
  }

  lemma KillKeepsInv(s: State, now: nat)
    requires Inv(s)
    ensures forall k :: 0 <= k < |s.deadlines| ==> s.deadlines[k].proc in s.procs
    ensures Inv(Kill(s, now))
  {
    hide Procs, Pids, Queue, Fds, Exits, Log, Polls, Conserved, Settled;
  }

  /** The list holds a deadline of process i that has passed. */
  ghost predicate Overdue(s: State, now: nat, i: nat) {
    exists k :: 0 <= k < |s.deadlines| && s.deadlines[k].proc == i && s.deadlines[k].time <= now
  }

  /** Whatever the list holds, a process is signalled if and only if it runs and a deadline listed for it has
      passed, and exactly the later ones stay on the list. */
  lemma KillSignalsIff(s: State, now: nat, i: nat)
    requires Inv(s) && i in s.procs
    ensures forall k :: 0 <= k < |s.deadlines| ==> s.deadlines[k].proc in s.procs
    ensures var t := Kill(s, now);
            s.killed <= t.killed &&
            (s.procs[i].pid in t.killed[|s.killed|..] <==> s.procs[i].pid != -1 && Overdue(s, now, i)) &&
            forall d :: d in t.deadlines <==> d in s.deadlines && d.time > now
  {
    hide Procs, Queue, Fds, Exits, Log, Conserved, Polls, Placed, PidsOf;
    var d, n, t := s.deadlines, Expired(s.deadlines, now), Kill(s, now);
    ExpiredPrefix(d, now);
    assert t.killed[|s.killed|..] == PidsOf(s.procs, d[..n]);
    PidsOfHas(s.procs, d[..n], s.procs[i].pid);
    assert forall k :: 0 <= k < n ==> d[..n][k] == d[k];
    forall x | x in d && x.time > now ensures x in d[n..] {
      var k :| 0 <= k < |d| && d[k] == x;
      assert d[n..][k - n] == x;
    }
    assert Overdue(s, now, i) ==> exists k :: 0 <= k < n && d[..n][k].proc == i;
  }

  // ----- runs

  /** Executions and additions happen at any time; the other events are those of the manager's thread, in
      the order of its loop. A process is told of its end and taken off the list of deadlines in two of them. */
  datatype Event =
    | Executed(proc: nat, pid: int, input: int, out: int, err: int, deadline: nat)
    | Added(proc: nat)
    | Polled(order: seq<int>)
    | HungUp(fd: int)
    | StreamsDone
    | Exited(exit: Exit)
    | DeadlineErased
    | ExitsDone
    | OrphanMet
    | OrphansDone
    | TimeChecked(now: nat)

  ghost predicate Legal(s: State, e: Event) {
    match e
    case Executed(i, pid, input, out, err, _) => CanExec(s, i, pid, input, out, err)
    case Added(i) => CanAdd(s, i)
    case Polled(order) => s.phase.Top? && (s.update ==> Queueable(s) && Lists(order, RegisterAll(s).byFd.Keys))
    case HungUp(fd) => s.phase.Streams? && fd in s.fds
    case StreamsDone => s.phase.Streams?
    case Exited(x) => s.phase.Reaping? && s.pending.Nothing? && x.pid in s.children
    case DeadlineErased => s.pending.Erasure?
    case ExitsDone => s.phase.Reaping? && s.pending.Nothing?
    case OrphanMet => s.phase.Orphans? && s.pending.Nothing? && s.phase.at < |s.orphans|
    case OrphansDone => s.phase.Orphans? && s.pending.Nothing? && s.phase.at == |s.orphans|
    case TimeChecked(_) => s.phase.Killing?
  }

  ghost function Apply(s: State, e: Event): State
    requires Inv(s) && Legal(s, e)
  {
    IsLinked(s);
    match e
    case Executed(i, pid, input, out, err, deadline) => Exec(s, i, pid, input, out, err, deadline)
    case Added(i) => Add(s, i)
    case Polled(order) => (if s.update then Update(s, order) else s).(phase := Streams)
    case HungUp(fd) => CloseStream(s, fd)
    case StreamsDone => s.(phase := Reaping)
    case Exited(x) => Reap(s, x)
    case DeadlineErased => TakenOff(s)
    case ExitsDone => s.(phase := Orphans(0))
    case OrphanMet => MeetOrphan(s)
    case OrphansDone => s.(phase := Killing)
    case TimeChecked(now) => KillKeepsInv(s, now); Kill(s, now).(phase := Top)
  }

  /** At every poll the descriptors listed are those of the table. */
  lemma TablesAgreeAtPoll(s: State, order: seq<int>)
    requires Inv(s) && Legal(s, Polled(order))
    ensures Inv(Apply(s, Polled(order))) && Lists(Apply(s, Polled(order)).fds, Apply(s, Polled(order)).byFd.Keys)
  {
    if s.update {
      RegisterAllKeepsCore(s);
      RegisterAllFrame(s);
    }
  }

  lemma ApplyKeepsInv(s: State, e: Event)
    requires Inv(s) && Legal(s, e)
    ensures Inv(Apply(s, e))
  {
    hide Core, Polls, CanExec, CanAdd;
    match e
    case Executed(i, pid, input, out, err, deadline) => ExecKeepsInv(s, i, pid, input, out, err, deadline);
    case Added(i) => AddKeepsInv(s, i);
    case Polled(order) => TablesAgreeAtPoll(s, order);
    case HungUp(fd) => CloseKeepsInv(s, fd);
    case StreamsDone => PhaseKeepsCore(s, Reaping);
    case Exited(x) => ReapKeepsInv(s, x);
    case DeadlineErased => EraseKeepsInv(s);
    case ExitsDone => PhaseKeepsCore(s, Orphans(0));
    case OrphanMet => MeetOrphanKeepsInv(s);
    case OrphansDone =>
      assert s.orphans[..s.phase.at] == s.orphans;
      PhaseKeepsCore(s, Killing);
    case TimeChecked(now) =>
      KillKeepsInv(s, now);
      PhaseKeepsCore(Kill(s, now), Top);
  }

  lemma PhaseKeepsCore(s: State, phase: Phase)
    requires Core(s)
    ensures Core(s.(phase := phase))
  {
  }

  const START: State := State(map[], [], map[], [], map[], [], [], true, Top, Nothing, {}, [], [], [])

  ghost predicate LegalRun(s: State, run: seq<Event>)
    requires Inv(s)
    decreases |run|
  {
    run == [] || (Legal(s, run[0]) && (ApplyKeepsInv(s, run[0]); LegalRun(Apply(s, run[0]), run[1..])))
  }

  ghost function After(s: State, run: seq<Event>): State
    requires Inv(s) && LegalRun(s, run)
    decreases |run|
  {
    if run == [] then s else ApplyKeepsInv(s, run[0]); After(Apply(s, run[0]), run[1..])
  }

  lemma StartIsFine()
    ensures Inv(START)
  {
  }

  lemma {:induction false} EveryRunKeepsInv(s: State, run: seq<Event>)
    requires Inv(s) && LegalRun(s, run)
    ensures Inv(After(s, run))
    decreases |run|
  {
    hide Inv;
    if run != [] {
      ApplyKeepsInv(s, run[0]);
      EveryRunKeepsInv(Apply(s, run[0]), run[1..]);
    }
  }

  lemma {:induction false} RunConcat(s: State, a: seq<Event>, b: seq<Event>)
    requires Inv(s) && LegalRun(s, a) && Inv(After(s, a)) && LegalRun(After(s, a), b)
    ensures LegalRun(s, a + b) && After(s, a + b) == After(After(s, a), b)
    decreases |a|
  {
    hide Inv, Legal, Apply;
    if a == [] {
      assert a + b == b;
    } else {
      ApplyKeepsInv(s, a[0]);
      RunConcat(Apply(s, a[0]), a[1..], b);
      assert (a + b)[0] == a[0] && (a + b)[1..] == a[1..] + b;
    }
  }

  lemma RunOne(s: State, e: Event)
    requires Inv(s) && Legal(s, e)
    ensures LegalRun(s, [e]) && After(s, [e]) == Apply(s, e) && Inv(Apply(s, e))
  {
    hide Inv;
    ApplyKeepsInv(s, e);
    assert [e][1..] == [];
    assert LegalRun(Apply(s, e), []) && After(Apply(s, e), []) == Apply(s, e);
  }

  /** Over every run: a process is told of its end once for each execution that is over, and every exit
      reaped has reached the process that was started with that pid, or waits among the orphans. */
  lemma EveryRunIsAccounted(run: seq<Event>, i: nat)
    ensures Inv(START)
    ensures LegalRun(START, run) ==>
            var s := After(START, run);
            multiset(s.reaped) == ExitsOf(s.delivered) + multiset(s.orphans) &&
            (i in s.procs ==>
              var p, exits := s.procs[i], DeliveredTo(s.delivered, i);
              p.finishes == |p.pids| - (if Running(p) then 1 else 0) &&
              |exits| == |p.pids| - (if p.pid != -1 then 1 else 0) &&
              (forall k :: 0 <= k < |exits| ==> exits[k].pid == p.pids[k]) &&
              (p.pid == -1 ==> exits != [] && exits[|exits| - 1].status == p.status) &&
              (p.pid != -1 ==> p.pid in s.children || Orphaned(s.orphans, p.pid)))
  {
    StartIsFine();
    if LegalRun(START, run) {
      EveryRunKeepsInv(START, run);
      var s := After(START, run);
      hide Pids, Fds, Queue, Listed, Polls;
      assert i in s.procs ==> ProcOk(s.procs[i]) && Answered(s.procs[i], DeliveredTo(s.delivered, i));
    }
  }

  /** The listener is called in the very step that takes the last of pid and streams away. */
  lemma FinishedAtTheLastStep(s: State, e: Event, i: nat)
    requires Inv(s) && Legal(s, e) && i in s.procs && !(e.Executed? && e.proc == i)
    ensures var t := Apply(s, e);
            i in t.procs && t.procs[i].pids == s.procs[i].pids &&
            t.procs[i].finishes == s.procs[i].finishes + if Running(s.procs[i]) && !Running(t.procs[i]) then 1 else 0
  {
    hide Inv, Apply, Legal;
    ApplyKeepsInv(s, e);
    CountsFollow(s, e, i);
    ProcAt(s, i);
    ProcAt(Apply(s, e), i);
  }

  ghost predicate Follows(p: Proc, q: Proc) {
    q.pids == p.pids && q.finishes >= p.finishes
  }

  lemma CountsFollow(s: State, e: Event, i: nat)
    requires Inv(s) && Legal(s, e) && i in s.procs && !(e.Executed? && e.proc == i)
    ensures i in Apply(s, e).procs && Follows(s.procs[i], Apply(s, e).procs[i])
  {
    hide Core, Polls, CanExec, CanAdd, CloseStream, Reap;
    IsLinked(s);
    match e {
      case Polled(_) => RegisterAllFollows(s, i);
      case HungUp(fd) => CloseFollows(s, fd, i);
      case Exited(x) => ReapFollows(s, x, i);
      case OrphanMet => MeetOrphanFollows(s, i);
      case TimeChecked(now) => KillKeepsInv(s, now);
      case _ =>
    }
  }

  lemma CloseFollows(s: State, fd: int, i: nat)
    requires Linked(s) && i in s.procs
    ensures i in CloseStream(s, fd).procs && Follows(s.procs[i], CloseStream(s, fd).procs[i])
  {
  }

  lemma ReapFollows(s: State, e: Exit, i: nat)
    requires Linked(s) && i in s.procs
    ensures i in Reap(s, e).procs && Follows(s.procs[i], Reap(s, e).procs[i])
  {
  }

  lemma ProcAt(s: State, i: nat)
    requires Inv(s) && i in s.procs
    ensures ProcOk(s.procs[i])
  {
    hide Pids, Queue, Fds, Exits, Listed, Log, Conserved, Settled, Polls;
  }

  lemma {:induction false} RegisterAllFollows(s: State, i: nat)
    requires Queueable(s) && i in s.procs
    ensures i in RegisterAll(s).procs && Follows(s.procs[i], RegisterAll(s).procs[i])
    decreases |s.queue|
  {
    if s.queue != [] {
      RegisterAllFollows(RegisterHead(s), i);
    }
  }

  lemma MeetOrphanFollows(s: State, i: nat)
    requires Linked(s) && s.phase.Orphans? && s.phase.at < |s.orphans| && i in s.procs
    ensures i in MeetOrphan(s).procs && Follows(s.procs[i], MeetOrphan(s).procs[i])
  {
  }

  /** Once the orphans have been looked at, the exit of a registered process has been delivered if it was
      reaped, whether before the process was registered or after. */
  lemma RegisteringLateLosesNothing(s: State, i: nat)
    requires Inv(s) && s.phase.Killing? && i in s.procs && s.procs[i].known
    ensures s.procs[i].pid != -1 ==> s.procs[i].pid in s.children && !Orphaned(s.orphans, s.procs[i].pid)
    ensures var exits := DeliveredTo(s.delivered, i);
            (forall k :: 0 <= k < |exits| ==> k < |s.procs[i].pids| && exits[k].pid == s.procs[i].pids[k]) &&
            (s.procs[i].pid == -1 ==> |exits| == |s.procs[i].pids|)
  {
    assert Answered(s.procs[i], DeliveredTo(s.delivered, i));
  }

  // ----- whose deadlines are listed

  /** A deadline is that of the execution under way of a registered process, or of the one whose end is being
      dealt with. */
  ghost predicate Due(procs: Processes, d: Deadline, pending: Pending) {
    d.proc in procs && 0 != d.time == procs[d.proc].deadline &&
    ((procs[d.proc].known && procs[d.proc].pid != -1) || pending == Erasure(d.proc))
  }

  ghost predicate AllDue(procs: Processes, deadlines: seq<Deadline>, pending: Pending) {
    forall k :: 0 <= k < |deadlines| ==> Due(procs, deadlines[k], pending)
  }

  ghost predicate Apart(d: seq<Deadline>) {
    forall j, k :: 0 <= j < k < |d| ==> d[j].proc != d[k].proc
  }

  /** Every deadline listed is the current one of its process, and listed once. */
  ghost predicate Sound(s: State) {
    AllDue(s.procs, s.deadlines, s.pending) && Apart(s.deadlines)
  }

  /** A process that has been told of its end is executed again, with another deadline, before the old one,
      which is still listed, has been taken off. */
  ghost predicate Late(s: State, e: Event) {
    e.Executed? && s.pending == Erasure(e.proc) && e.proc in s.procs && e.deadline != s.procs[e.proc].deadline &&
    Deadline(s.procs[e.proc].deadline, e.proc) in s.deadlines
  }

  lemma ExecSoundIff(s: State, e: Event)
    requires Inv(s) && Sound(s) && Legal(s, e) && e.Executed?
    ensures Sound(Apply(s, e)) <==> !Late(s, e)
  {
    hide Pids, Fds, Queue, Exits, Log, Conserved, Polls, Listed, Orphaned, HasStream, Settled;
    var i, t := e.proc, Apply(s, e);
    if Late(s, e) {
      var k :| 0 <= k < |s.deadlines| && s.deadlines[k] == Deadline(s.procs[i].deadline, i);
      assert !Due(t.procs, t.deadlines[k], t.pending);
    } else {
      forall k | 0 <= k < |t.deadlines| ensures Due(t.procs, t.deadlines[k], t.pending) {
        assert Due(s.procs, s.deadlines[k], s.pending);
      }
    }
  }

  lemma {:induction false} ScheduledApart(d: seq<Deadline>, e: Deadline)
    requires Sorted(d) && Apart(d) && forall k :: 0 <= k < |d| ==> d[k].proc != e.proc
    ensures Apart(Scheduled(d, e))
  {
    if d != [] && e.time >= d[0].time {
      ScheduledApart(d[1..], e);
      ScheduledSorted(d[1..], e);
      var r := Scheduled(d[1..], e);
      forall k | 0 <= k < |r| ensures r[k].proc != d[0].proc {
        assert r[k] == e || r[k] in d[1..];
      }
    }
  }

  lemma RegisterHeadSound(s: State)
    requires Core(s) && Sound(s) && s.pending.Nothing? && s.queue != [] && Queueable(s)
    ensures Sound(RegisterHead(s)) && RegisterHead(s).pending.Nothing?
  {
    hide Pids, Fds, Exits, Log, Conserved, Procs;
    var i, r := s.queue[0].1, RegisterHead(s);
    HeadOfQueue(s, i);
    var e := Deadline(s.procs[i].deadline, i);
    forall k | 0 <= k < |s.deadlines| ensures s.deadlines[k].proc != i && Due(r.procs, s.deadlines[k], Nothing) {
      assert Due(s.procs, s.deadlines[k], s.pending);
    }
    ScheduledApart(s.deadlines, e);
    ScheduledSorted(s.deadlines, e);
    forall k | 0 <= k < |r.deadlines| ensures Due(r.procs, r.deadlines[k], Nothing) {
      assert r.deadlines[k] == e || r.deadlines[k] in s.deadlines;
    }
  }

  lemma {:induction false} RegisterAllSound(s: State)
    requires Core(s) && Sound(s) && s.pending.Nothing?
    ensures Queueable(s) && Sound(RegisterAll(s)) && RegisterAll(s).pending.Nothing?
    decreases |s.queue|
  {
    hide Core, Sound;
    IsLinked(s);
    if s.queue != [] {
      RegisterHeadKeepsCore(s);
      RegisterHeadSound(s);
      RegisterAllSound(RegisterHead(s));
    }
  }

  lemma CloseSound(s: State, fd: int)
    requires Linked(s) && Sound(s)
    ensures Sound(CloseStream(s, fd))
  {
    var t := CloseStream(s, fd);
    forall k | 0 <= k < |t.deadlines| ensures Due(t.procs, t.deadlines[k], t.pending) {
      assert Due(s.procs, s.deadlines[k], s.pending);
    }
  }

  lemma DeliverSound(s: State, e: Exit, direct: bool)
    requires Linked(s) && Sound(s) && s.pending.Nothing? && e.pid in s.byPid
    ensures Sound(Deliver(s, e, direct))
  {
    var t := Deliver(s, e, direct);
    forall k | 0 <= k < |t.deadlines| ensures Due(t.procs, t.deadlines[k], t.pending) {
      assert Due(s.procs, s.deadlines[k], s.pending);
    }
  }

  lemma {:induction false} ErasedApart(d: seq<Deadline>, e: Deadline)
    requires Sorted(d) && Apart(d) && forall k :: 0 <= k < |d| && d[k].proc == e.proc ==> d[k] == e
    ensures Apart(Erased(d, e)) && forall k :: 0 <= k < |Erased(d, e)| ==> Erased(d, e)[k].proc != e.proc
  {
    if d != [] && d[0] != e {
      ErasedApart(d[1..], e);
      ErasedKeeps(d[1..], e);
      var r := Erased(d[1..], e);
      forall k | 0 <= k < |r| ensures r[k].proc != d[0].proc {
        assert r[k] in d[1..];
      }
    }
  }

  lemma EraseSound(s: State)
    requires Inv(s) && Sound(s) && s.pending.Erasure?
    ensures Sound(TakenOff(s))
  {
    hide Procs, Pids, Fds, Queue, Exits, Log, Conserved, Polls, Settled;
    var i, t := s.pending.proc, TakenOff(s);
    var e := Deadline(s.procs[i].deadline, i);
    assert forall k :: 0 <= k < |s.deadlines| ==> Due(s.procs, s.deadlines[k], s.pending);
    ErasedApart(s.deadlines, e);
    ErasedKeeps(s.deadlines, e);
    forall k | 0 <= k < |t.deadlines| ensures Due(t.procs, t.deadlines[k], Nothing) {
      assert t.deadlines[k] in s.deadlines;
    }
  }

  /** An event keeps the list sound unless it is such a late execution, and that one never does. */
  lemma StepSoundIff(s: State, e: Event)
    requires Inv(s) && Sound(s) && Legal(s, e)
    ensures Sound(Apply(s, e)) <==> !Late(s, e)
  {
    hide Core, Polls, CanExec, CanAdd, Deliver, CloseStream, TakenOff, Due;
    IsLinked(s);
    match e {
      case Executed(_, _, _, _, _, _) => ExecSoundIff(s, e);
      case Polled(_) => RegisterAllSound(s);
      case HungUp(fd) => CloseSound(s, fd);
      case Exited(x) => ReapSound(s, x);
      case DeadlineErased => EraseSound(s);
      case OrphanMet =>
        if s.orphans[s.phase.at].pid in s.byPid {
          DeliverSound(s, s.orphans[s.phase.at], false);
        }
      case TimeChecked(now) => KillKeepsInv(s, now);
      case _ =>
    }
  }

  lemma ReapSound(s: State, x: Exit)
    requires Linked(s) && Sound(s) && s.pending.Nothing?
    ensures Sound(Reap(s, x))
  {
    hide Deliver, Due;
    if x.pid in s.byPid {
      DeliverSound(s.(children := s.children - {x.pid}, reaped := s.reaped + [x]), x, true);
    }
  }

  ghost predicate NeverLate(s: State, run: seq<Event>)
    requires Inv(s) && LegalRun(s, run)
    decreases |run|
  {
    run == [] || (!Late(s, run[0]) && (ApplyKeepsInv(s, run[0]); NeverLate(Apply(s, run[0]), run[1..])))
  }

  ghost predicate AlwaysSound(s: State, run: seq<Event>)
    requires Inv(s) && LegalRun(s, run)
    decreases |run|
  {
    Sound(s) && (run == [] || (ApplyKeepsInv(s, run[0]); AlwaysSound(Apply(s, run[0]), run[1..])))
  }

  lemma {:induction false} RunSoundIff(s: State, run: seq<Event>)
    requires Inv(s) && Sound(s) && LegalRun(s, run)
    ensures AlwaysSound(s, run) <==> NeverLate(s, run)
    ensures NeverLate(s, run) ==> Sound(After(s, run))
    decreases |run|
  {
    hide Inv, Sound, Late, Apply, Legal;
    if run != [] {
      ApplyKeepsInv(s, run[0]);
      StepSoundIff(s, run[0]);
      if Sound(Apply(s, run[0])) {
        RunSoundIff(Apply(s, run[0]), run[1..]);
      }
    }
  }

  /** Over every run, each deadline listed is the current one of its process all along, if and only if no
      process is executed again with another deadline between the two steps that deal with its end. */
  lemma DeadlinesAreCurrentIff(run: seq<Event>)
    ensures Inv(START)
    ensures LegalRun(START, run) ==> (AlwaysSound(START, run) <==> NeverLate(START, run))
  {
    StartIsFine();
    assert Sound(START);
    if LegalRun(START, run) {
      RunSoundIff(START, run);
    }
  }

  lemma DeadlineIsAlive(s: State, k: nat)
    requires Inv(s) && s.phase.Killing? && Sound(s) && k < |s.deadlines|
    ensures s.deadlines[k].proc in s.procs && s.procs[s.deadlines[k].proc].pid in s.children
    ensures s.deadlines[k].time == s.procs[s.deadlines[k].proc].deadline
  {
    hide Procs, Queue, Fds, Log, Conserved, Polls;
    assert Due(s.procs, s.deadlines[k], s.pending);
  }

  /** While the list is sound, a process on it is signalled if and only if its own deadline has passed, and then
      its pid is that of a child not yet reaped. */
  lemma KillIsSafe(s: State, now: nat, k: nat)
    requires Inv(s) && s.phase.Killing? && Sound(s) && k < |s.deadlines|
    ensures forall j :: 0 <= j < |s.deadlines| ==> s.deadlines[j].proc in s.procs
    ensures var p, t := s.procs[s.deadlines[k].proc], Kill(s, now);
            p.pid in s.children && s.killed <= t.killed &&
            (p.pid in t.killed[|s.killed|..] <==> p.deadline <= now)
  {
    hide Inv, Kill;
    DeadlineIsAlive(s, k);
    assert s.procs[s.deadlines[k].proc].pid != -1 by {
      assert Due(s.procs, s.deadlines[k], s.pending);
      AliveIsReal(s);
    }
    KillSignalsIff(s, now, s.deadlines[k].proc);
    assert Overdue(s, now, s.deadlines[k].proc) <==> s.deadlines[k].time <= now;
  }

  lemma AliveIsReal(s: State)
    requires Inv(s) && s.phase.Killing?
    ensures s.pending.Nothing?
  {
  }

  // No deadline is forgotten, late executions or not.

  /** A registered process that runs with a deadline is on the list, or has been sent the signal. */
  ghost predicate Watched(s: State) {
    forall i :: i in s.procs ==> IsWatched(s, s.procs[i], i)
  }

  ghost predicate IsWatched(s: State, p: Proc, i: nat) {
    p.known && p.pid != -1 && p.deadline != 0 ==> Deadline(p.deadline, i) in s.deadlines || p.pid in s.killed
  }

  lemma {:induction false} ScheduledHas(d: seq<Deadline>, e: Deadline, x: Deadline)
    requires x == e || x in d
    ensures x in Scheduled(d, e)
  {
    if d != [] && e.time >= d[0].time && x != d[0] {
      ScheduledHas(d[1..], e, x);
    }
  }

  lemma {:induction false} RegisterAllWatched(s: State)
    requires Queueable(s) && Watched(s)
    ensures Watched(RegisterAll(s))
    decreases |s.queue|
  {
    if s.queue != [] {
      var i, t := s.queue[0].1, RegisterHead(s);
      forall j | j in t.procs ensures IsWatched(t, t.procs[j], j) {
        assert IsWatched(s, s.procs[j], j);
        var x := Deadline(s.procs[j].deadline, j);
        if x in s.deadlines || j == i {
          ScheduledHas(s.deadlines, Deadline(s.procs[i].deadline, i), x);
        }
      }
      RegisterAllWatched(t);
    }
  }

  lemma {:induction false} OthersStay(d: seq<Deadline>, e: Deadline, x: Deadline)
    requires x in d && x != e
    ensures x in Erased(d, e)
  {
    if d[0] != e && d[0] != x {
      OthersStay(d[1..], e, x);
    }
  }

  lemma EraseWatched(s: State)
    requires Inv(s) && s.pending.Erasure? && Watched(s)
    ensures Watched(TakenOff(s))
  {
    hide Core, Polls, Settled;
    var i, t := s.pending.proc, TakenOff(s);
    forall j | j in t.procs ensures IsWatched(t, t.procs[j], j) {
      assert IsWatched(s, s.procs[j], j);
      var x := Deadline(s.procs[j].deadline, j);
      if j != i && x in s.deadlines {
        OthersStay(s.deadlines, Deadline(s.procs[i].deadline, i), x);
      }
    }
  }

  lemma KillWatched(s: State, now: nat)
    requires Inv(s) && Watched(s)
    ensures (forall k :: 0 <= k < |s.deadlines| ==> s.deadlines[k].proc in s.procs) && Watched(Kill(s, now))
  {
    KillKeepsInv(s, now);
    hide Inv, Kill;
    var t := Kill(s, now);
    forall j | j in t.procs ensures IsWatched(t, t.procs[j], j) {
      KillSignalsIff(s, now, j);
      assert t.procs == s.procs;
      assert IsWatched(s, s.procs[j], j);
      var x := Deadline(s.procs[j].deadline, j);
      if x in s.deadlines && x.time <= now {
        var k :| 0 <= k < |s.deadlines| && s.deadlines[k] == x;
        assert Overdue(s, now, j);
      }
    }
  }

  lemma DeliverWatched(s: State, e: Exit, direct: bool)
    requires Linked(s) && Watched(s) && e.pid in s.byPid
    ensures Watched(Deliver(s, e, direct))
  {
    var t := Deliver(s, e, direct);
    forall j | j in t.procs ensures IsWatched(t, t.procs[j], j) {
      assert IsWatched(s, s.procs[j], j);
    }
  }

  lemma CloseWatched(s: State, fd: int)
    requires Linked(s) && Watched(s)
    ensures Watched(CloseStream(s, fd))
  {
    var t := CloseStream(s, fd);
    forall j | j in t.procs ensures IsWatched(t, t.procs[j], j) {
      assert IsWatched(s, s.procs[j], j);
    }
  }

  lemma ExecWatched(s: State, i: nat, pid: int, input: int, out: int, err: int, deadline: nat)
    requires Watched(s)
    ensures Watched(Exec(s, i, pid, input, out, err, deadline))
  {
    var t := Exec(s, i, pid, input, out, err, deadline);
    forall j | j in t.procs ensures IsWatched(t, t.procs[j], j) {
      assert j != i ==> IsWatched(s, s.procs[j], j);
    }
  }

  /** With other fields than those of processes and deadlines changed. */
  lemma SameWatched(s: State, t: State)
    requires Watched(s) && t.procs == s.procs && t.deadlines == s.deadlines && t.killed == s.killed
    ensures Watched(t)
  {
    forall j | j in t.procs ensures IsWatched(t, t.procs[j], j) {
      assert IsWatched(s, s.procs[j], j);
    }
  }

  lemma StepWatched(s: State, e: Event)
    requires Inv(s) && Watched(s) && Legal(s, e)
    ensures Watched(Apply(s, e))
  {
    hide Core, Polls, CanExec, CanAdd, Deliver, CloseStream, TakenOff, Watched, Exec, Kill;
    IsLinked(s);
    match e {
      case Executed(i, pid, input, out, err, deadline) => ExecWatched(s, i, pid, input, out, err, deadline);
      case Polled(_) =>
        RegisterAllWatched(s);
        SameWatched(if s.update then RegisterAll(s) else s, Apply(s, e));
      case HungUp(fd) => CloseWatched(s, fd);
      case Exited(x) => ReapWatched(s, x);
      case DeadlineErased => EraseWatched(s);
      case OrphanMet =>
        if s.orphans[s.phase.at].pid in s.byPid {
          DeliverWatched(s, s.orphans[s.phase.at], false);
          SameWatched(Deliver(s, s.orphans[s.phase.at], false), Apply(s, e));
        } else {
          SameWatched(s, Apply(s, e));
        }
      case TimeChecked(now) =>
        KillWatched(s, now);
        SameWatched(Kill(s, now), Apply(s, e));
      case _ => SameWatched(s, Apply(s, e));
    }
  }

  lemma ReapWatched(s: State, x: Exit)
    requires Linked(s) && Watched(s)
    ensures Watched(Reap(s, x))
  {
    hide Deliver, Watched;
    var t := s.(children := s.children - {x.pid}, reaped := s.reaped + [x]);
    SameWatched(s, t);
    if x.pid in s.byPid {
      DeliverWatched(t, x, true);
    } else {
      SameWatched(t, Reap(s, x));
    }
  }

  lemma {:induction false} RunWatched(s: State, run: seq<Event>)
    requires Inv(s) && Watched(s) && LegalRun(s, run)
    ensures Watched(After(s, run))
    decreases |run|
  {
    hide Inv, Watched, Apply, Legal;
    if run != [] {
      ApplyKeepsInv(s, run[0]);
      StepWatched(s, run[0]);
      RunWatched(Apply(s, run[0]), run[1..]);
    }
  }

  /** Over every run, a registered process that runs with a deadline is on the list at that deadline until it is
      sent the signal; in particular it has been sent it once the time was read after the deadline. */
  lemma EveryDeadlineIsKept(run: seq<Event>, now: nat, i: nat)
    ensures Inv(START)
    ensures LegalRun(START, run) ==> Watched(After(START, run))
    ensures LegalRun(START, run) && Legal(After(START, run), TimeChecked(now)) && Inv(After(START, run)) ==>
              var t := Apply(After(START, run), TimeChecked(now));
              i in t.procs && t.procs[i].known && t.procs[i].pid != -1 && 0 != t.procs[i].deadline <= now ==>
                t.procs[i].pid in t.killed
  {
    StartIsFine();
    if LegalRun(START, run) {
      RunWatched(START, run);
      EveryRunKeepsInv(START, run);
      var s := After(START, run);
      hide Inv, Watched;
      if Legal(s, TimeChecked(now)) {
        StepWatched(s, TimeChecked(now));
        AfterTheCheck(s, now, i);
      }
    }
  }

  lemma AfterTheCheck(s: State, now: nat, i: nat)
    requires Inv(s) && Legal(s, TimeChecked(now)) && Watched(Apply(s, TimeChecked(now)))
    ensures var t := Apply(s, TimeChecked(now));
            i in t.procs && t.procs[i].known && t.procs[i].pid != -1 && 0 != t.procs[i].deadline <= now ==>
              t.procs[i].pid in t.killed
  {
    hide Core, Polls;
    var t := Apply(s, TimeChecked(now));
    KillLeavesLater(s, now);
    assert i in t.procs ==> IsWatched(t, t.procs[i], i);
  }

  // What a process is told of a kill.

  /** The last exit delivered to process i was passed on when it was reaped, and was that of a killed process. */
  predicate LastWasKilled(d: seq<Delivery>, i: nat) {
    if d == [] then false
    else if d[|d| - 1].proc == i then d[|d| - 1].direct && WasKilled(d[|d| - 1].exit)
    else LastWasKilled(d[..|d| - 1], i)
  }

  ghost predicate IsFlagged(s: State, p: Proc, i: nat) {
    p.timedOut <==> p.pid == -1 && LastWasKilled(s.delivered, i)
  }

  ghost predicate Flagged(s: State) {
    forall i :: i in s.procs ==> IsFlagged(s, s.procs[i], i)
  }

  lemma SameFlagged(s: State, t: State)
    requires Flagged(s) && t.procs == s.procs && t.delivered == s.delivered
    ensures Flagged(t)
  {
    forall i | i in t.procs ensures IsFlagged(t, t.procs[i], i) {
      assert IsFlagged(s, s.procs[i], i);
    }
  }

  lemma DeliverFlagged(s: State, e: Exit, direct: bool)
    requires Core(s) && Flagged(s) && e.pid in s.byPid
    ensures Linked(s) && Flagged(Deliver(s, e, direct))
  {
    hide Procs, Fds, Queue, Exits, Log, Conserved, Listed;
    IsLinked(s);
    var i, t := s.byPid[e.pid], Deliver(s, e, direct);
    assert t.delivered[..|s.delivered|] == s.delivered;
    assert s.procs[i].pid == e.pid != -1;
    forall j | j in t.procs ensures IsFlagged(t, t.procs[j], j) {
      assert IsFlagged(s, s.procs[j], j);
    }
  }

  lemma CloseFlagged(s: State, fd: int)
    requires Linked(s) && Flagged(s)
    ensures Flagged(CloseStream(s, fd))
  {
    var t := CloseStream(s, fd);
    forall j | j in t.procs ensures IsFlagged(t, t.procs[j], j) {
      assert IsFlagged(s, s.procs[j], j);
    }
  }

  lemma ExecFlagged(s: State, i: nat, pid: int, input: int, out: int, err: int, deadline: nat)
    requires Flagged(s) && pid > 0
    ensures Flagged(Exec(s, i, pid, input, out, err, deadline))
  {
    var t := Exec(s, i, pid, input, out, err, deadline);
    forall j | j in t.procs ensures IsFlagged(t, t.procs[j], j) {
      assert j != i ==> IsFlagged(s, s.procs[j], j);
    }
  }

  lemma {:induction false} RegisterAllFlagged(s: State)
    requires Queueable(s) && Flagged(s)
    ensures Flagged(RegisterAll(s))
    decreases |s.queue|
  {
    if s.queue != [] {
      var t := RegisterHead(s);
      forall j | j in t.procs ensures IsFlagged(t, t.procs[j], j) {
        assert IsFlagged(s, s.procs[j], j);
      }
      RegisterAllFlagged(t);
    }
  }

  lemma ReapFlagged(s: State, x: Exit)
    requires Inv(s) && Flagged(s)
    ensures Linked(s) && Flagged(Reap(s, x))
  {
    hide Deliver, Flagged, Polls, Placed, Pids, Procs, Fds, Queue, Exits, Log, Listed;
    IsLinked(s);
    if x.pid in s.byPid {
      DeliverFlagged(s, x, true);
      SameDelivery(s, s.(children := s.children - {x.pid}, reaped := s.reaped + [x]), x, true);
      SameFlagged(Deliver(s, x, true), Reap(s, x));
    } else {
      SameFlagged(s, Reap(s, x));
    }
  }

  lemma SameDelivery(s: State, t: State, e: Exit, direct: bool)
    requires Linked(s) && e.pid in s.byPid && Linked(t) && t.procs == s.procs && t.byPid == s.byPid
    requires t.delivered == s.delivered
    ensures Deliver(t, e, direct).procs == Deliver(s, e, direct).procs
    ensures Deliver(t, e, direct).delivered == Deliver(s, e, direct).delivered
  {
  }

  lemma StepFlagged(s: State, e: Event)
    requires Inv(s) && Flagged(s) && Legal(s, e)
    ensures Flagged(Apply(s, e))
  {
    hide Core, Polls, Deliver, CloseStream, TakenOff, Flagged, Exec, Kill, Reap;
    IsLinked(s);
    match e {
      case Executed(i, pid, input, out, err, deadline) => ExecFlagged(s, i, pid, input, out, err, deadline);
      case Polled(_) =>
        RegisterAllFlagged(s);
        SameFlagged(if s.update then RegisterAll(s) else s, Apply(s, e));
      case HungUp(fd) => CloseFlagged(s, fd);
      case Exited(x) => ReapFlagged(s, x);
      case DeadlineErased => SameAfterErasure(s);
      case OrphanMet =>
        if s.orphans[s.phase.at].pid in s.byPid {
          DeliverFlagged(s, s.orphans[s.phase.at], false);
          SameFlagged(Deliver(s, s.orphans[s.phase.at], false), Apply(s, e));
        } else {
          SameFlagged(s, Apply(s, e));
        }
      case TimeChecked(now) =>
        KillKeepsInv(s, now);
        KillFrame(s, now);
        SameFlagged(s, Apply(s, e));
      case _ => SameFlagged(s, Apply(s, e));
    }
  }

  lemma SameAfterErasure(s: State)
    requires Inv(s) && Flagged(s) && s.pending.Erasure?
    ensures Flagged(TakenOff(s))
  {
    hide Flagged, Core, Polls;
    SameFlagged(s, TakenOff(s));
  }

  lemma KillFrame(s: State, now: nat)
    requires forall k :: 0 <= k < |s.deadlines| ==> s.deadlines[k].proc in s.procs
    ensures Kill(s, now).procs == s.procs && Kill(s, now).delivered == s.delivered
  {
  }

  lemma {:induction false} RunFlagged(s: State, run: seq<Event>)
    requires Inv(s) && Flagged(s) && LegalRun(s, run)
    ensures Flagged(After(s, run))
    decreases |run|
  {
    hide Inv, Flagged, Apply, Legal;
    if run != [] {
      ApplyKeepsInv(s, run[0]);
      StepFlagged(s, run[0]);
      RunFlagged(Apply(s, run[0]), run[1..]);
    }
  }

  /** Over every run, a process counts as timed out exactly when it has ended and its last exit was that of a killed
      process and came to it directly: a kill that was reaped before the process was registered does not count. */
  lemma TimedOutIff(run: seq<Event>, i: nat)
    ensures Inv(START)
    ensures LegalRun(START, run) && i in After(START, run).procs ==>
              var s := After(START, run);
              s.procs[i].timedOut <==> s.procs[i].pid == -1 && LastWasKilled(s.delivered, i)
  {
    StartIsFine();
    assert Flagged(START);
    if LegalRun(START, run) && i in After(START, run).procs {
      RunFlagged(START, run);
      assert IsFlagged(After(START, run), After(START, run).procs[i], i);
    }
  }

  // What an execution, a hangup and an addition come to.

  /** An execution gives the process its pid, streams and deadline, and changes no other process and no table. */
  lemma ExecutionStarts(s: State, i: nat, pid: int, input: int, out: int, err: int, deadline: nat)
    requires Inv(s) && Legal(s, Executed(i, pid, input, out, err, deadline))
    ensures var t := Apply(s, Executed(i, pid, input, out, err, deadline));
            i in t.procs && t.procs.Keys == s.procs.Keys + {i} && t.children == s.children + {pid} &&
            t == s.(procs := t.procs, children := t.children) &&
            (forall j :: j in s.procs && j != i ==> t.procs[j] == s.procs[j]) &&
            var p := t.procs[i];
            p.pid == pid && p.input == input && p.out == out && p.err == err && p.deadline == deadline &&
            !p.known && !p.timedOut && p.pids[|p.pids| - 1..] == [pid] && Running(p)
  {
    hide Inv;
  }

  /** A hangup closes the stream of the process that has it registered, and nothing else. */
  lemma HangUpCloses(s: State, fd: int)
    requires Inv(s) && Legal(s, HungUp(fd))
    ensures var t := Apply(s, HungUp(fd));
            t.byFd == s.byFd - {fd} && t.procs.Keys == s.procs.Keys &&
            forall i :: i in s.procs ==>
              (s.procs[i].known ==> forall g :: HasStream(t.procs[i], g) <==> HasStream(s.procs[i], g) && g != fd) &&
              (!s.procs[i].known || !HasStream(s.procs[i], fd) ==> t.procs[i] == s.procs[i])
  {
    hide Pids, Queue, Exits, Log, Conserved, Listed, Polls, Placed;
    IsLinked(s);
    if fd in s.byFd {
      StreamOf(s, fd);
      ClosedProc(s.procs[s.byFd[fd]], fd);
    } else {
      assert s.byFd - {fd} == s.byFd;
      assert fd == -1 ==> forall i :: i in s.procs ==> !HasStream(s.procs[i], fd);
    }
  }

  /** Process i is in the queue, and the next poll will look at it. */
  ghost predicate Waits(s: State, i: nat, pid: int) {
    s.update && i in s.procs && s.procs[i].pid == pid != -1 && !s.procs[i].known && (pid, i) in s.queue
  }

  ghost predicate Registered(s: State, i: nat, pid: int) {
    i in s.procs && s.procs[i].pid == pid && s.procs[i].known && pid in s.byPid && s.byPid[pid] == i
  }

  lemma StepKeepsWaiting(s: State, e: Event, i: nat, pid: int)
    requires Inv(s) && Legal(s, e) && !e.Polled? && Waits(s, i, pid)
    ensures Waits(Apply(s, e), i, pid)
  {
    hide Procs, Exits, Log, Conserved, Listed, Polls, Settled, Kill;
    IsLinked(s);
    match e {
      case Executed(_, _, _, _, _, _) =>
      case TimeChecked(now) =>
        KillKeepsInv(s, now);
        KillWaits(s, now, i, pid);
      case _ =>
    }
  }

  lemma KillWaits(s: State, now: nat, i: nat, pid: int)
    requires (forall k :: 0 <= k < |s.deadlines| ==> s.deadlines[k].proc in s.procs) && Waits(s, i, pid)
    ensures Waits(Kill(s, now).(phase := Top), i, pid)
  {
  }

  ghost predicate Lined(s: State, i: nat, pid: int) {
    i in s.procs && s.procs[i].pid == pid != -1 && (s.procs[i].known || (pid, i) in s.queue)
  }

  lemma RegisterHeadAdvances(s: State, i: nat, pid: int)
    requires s.queue != [] && s.queue[0].1 in s.procs && Lined(s, i, pid)
    ensures Lined(RegisterHead(s), i, pid)
  {
    assert s.queue == [s.queue[0]] + s.queue[1..];
  }

  lemma {:induction false} RegisterAllRegisters(s: State, i: nat, pid: int)
    requires Core(s) && Lined(s, i, pid)
    ensures Queueable(s)
    ensures var t := RegisterAll(s); i in t.procs && t.procs[i].pid == pid && t.procs[i].known
    decreases |s.queue|
  {
    hide Core;
    IsLinked(s);
    if s.queue != [] {
      RegisterHeadKeepsCore(s);
      RegisterHeadAdvances(s, i, pid);
      hide Lined;
      RegisterAllRegisters(RegisterHead(s), i, pid);
    }
  }

  lemma KnownIsRegistered(s: State, i: nat, pid: int)
    requires Core(s) && i in s.procs && s.procs[i].pid == pid != -1 && s.procs[i].known
    ensures Registered(s, i, pid)
  {
    hide Procs, Queue, Fds, Exits, Log, Conserved, Listed;
  }

  lemma {:induction false} RunKeepsWaiting(s: State, run: seq<Event>, i: nat, pid: int)
    requires Inv(s) && LegalRun(s, run) && Waits(s, i, pid) && forall k :: 0 <= k < |run| ==> !run[k].Polled?
    ensures Waits(After(s, run), i, pid)
    decreases |run|
  {
    hide Inv, Waits, Apply, Legal;
    if run != [] {
      ApplyKeepsInv(s, run[0]);
      StepKeepsWaiting(s, run[0], i, pid);
      RunKeepsWaiting(Apply(s, run[0]), run[1..], i, pid);
    }
  }

  lemma {:induction false} RunSplit(s: State, a: seq<Event>, b: seq<Event>)
    requires Inv(s) && LegalRun(s, a + b)
    ensures LegalRun(s, a) && Inv(After(s, a)) && LegalRun(After(s, a), b) && After(s, a + b) == After(After(s, a), b)
    decreases |a|
  {
    hide Inv, Legal, Apply;
    if a == [] {
      assert a + b == b;
    } else {
      ApplyKeepsInv(s, a[0]);
      assert (a + b)[0] == a[0] && (a + b)[1..] == a[1..] + b;
      RunSplit(Apply(s, a[0]), a[1..], b);
    }
  }

  lemma OneEvent(s: State, e: Event)
    requires Inv(s) && LegalRun(s, [e])
    ensures Legal(s, e) && After(s, [e]) == Apply(s, e) && Inv(Apply(s, e))
  {
    ApplyKeepsInv(s, e);
    hide Inv, Legal, Apply;
    assert [e][1..] == [];
  }

  /** A process that is added is registered by the next poll, whatever happens in between. */
  lemma AddedIsRegistered(s: State, i: nat, run: seq<Event>, order: seq<int>)
    requires Inv(s) && LegalRun(s, [Added(i)] + run + [Polled(order)])
    requires forall k :: 0 <= k < |run| ==> !run[k].Polled?
    ensures i in s.procs && Registered(After(s, [Added(i)] + run + [Polled(order)]), i, s.procs[i].pid)
  {
    hide Inv, Waits, Registered, LegalRun, After, Apply;
    RunSplit(s, [Added(i)] + run, [Polled(order)]);
    RunSplit(s, [Added(i)], run);
    OneEvent(s, Added(i));
    var t := Apply(s, Added(i));
    AddWaits(s, i);
    RunKeepsWaiting(t, run, i, s.procs[i].pid);
    var u := After(t, run);
    OneEvent(u, Polled(order));
    PollRegisters(u, i, s.procs[i].pid, order);
  }

  lemma AddWaits(s: State, i: nat)
    requires Inv(s) && Legal(s, Added(i))
    ensures Waits(Apply(s, Added(i)), i, s.procs[i].pid)
  {
    hide Pids, Fds, Exits, Log, Conserved, Listed, Polls;
    assert ProcOk(s.procs[i]);
    assert (s.procs[i].pid, i) in Add(s, i).queue;
  }

  lemma PollRegisters(s: State, i: nat, pid: int, order: seq<int>)
    requires Inv(s) && Legal(s, Polled(order)) && Waits(s, i, pid)
    ensures Registered(Apply(s, Polled(order)), i, pid)
  {
    hide Pids, Fds, Exits, Log, Conserved, Listed, Polls, Procs, Queue;
    IsLinked(s);
    TablesAgreeAtPoll(s, order);
    RegisterAllRegisters(s, i, pid);
    KnownIsRegistered(Apply(s, Polled(order)), i, pid);
  }

  // A late execution, to its end.

  /** Process i, not yet registered, runs with pid while a deadline of another execution is listed for it. */
  ghost predicate Stale(s: State, i: nat, pid: int, time: nat) {
    i in s.procs && s.procs[i].pid == pid != -1 && !s.procs[i].known && s.procs[i].deadline != time &&
    Deadline(time, i) in s.deadlines
  }

  lemma EraseKeepsStale(s: State, i: nat, pid: int, time: nat)
    requires Inv(s) && s.pending.Erasure? && Stale(s, i, pid, time)
    ensures Stale(TakenOff(s), i, pid, time)
  {
    var j := s.pending.proc;
    OthersStay(s.deadlines, Deadline(s.procs[j].deadline, j), Deadline(time, i));
  }

  lemma MeetKeepsStale(s: State, i: nat, pid: int, time: nat)
    requires Inv(s) && s.phase.Orphans? && s.phase.at < |s.orphans| && s.pending.Nothing? && Stale(s, i, pid, time)
    ensures Linked(s) && Stale(MeetOrphan(s), i, pid, time)
  {
    hide Procs, Fds, Queue, Exits, Log, Conserved, Polls, Listed;
    IsLinked(s);
  }

  /** From the orphans to the deadlines. */
  lemma {:induction false} ToTheDeadlines(s: State, i: nat, pid: int, time: nat) returns (run: seq<Event>)
    requires Inv(s) && s.phase.Orphans? && Stale(s, i, pid, time)
    ensures LegalRun(s, run) && forall k :: 0 <= k < |run| ==> !run[k].TimeChecked?
    ensures var t := After(s, run); t.phase.Killing? && Stale(t, i, pid, time) && t.killed == s.killed
    decreases |s.orphans| - s.phase.at, if s.pending.Erasure? then 1 else 0
  {
    hide Core, Polls, Stale;
    var e := if s.pending.Erasure? then DeadlineErased else if s.phase.at < |s.orphans| then OrphanMet else OrphansDone;
    ApplyKeepsInv(s, e);
    var t := Apply(s, e);
    run := [];
    if e.DeadlineErased? {
      EraseKeepsStale(s, i, pid, time);
      run := ToTheDeadlines(t, i, pid, time);
    } else if e.OrphanMet? {
      MeetKeepsStale(s, i, pid, time);
      run := ToTheDeadlines(t, i, pid, time);
    } else {
      StaleAnywhere(s, i, pid, time, Killing);
    }
    FirstThen(s, e, run);
    run := [e] + run;
  }

  lemma StaleAnywhere(s: State, i: nat, pid: int, time: nat, phase: Phase)
    requires Stale(s, i, pid, time)
    ensures Stale(s.(phase := phase), i, pid, time)
  {
  }

  lemma FirstThen(s: State, e: Event, run: seq<Event>)
    requires Inv(s) && Legal(s, e) && Inv(Apply(s, e)) && LegalRun(Apply(s, e), run)
    ensures LegalRun(s, [e] + run) && After(s, [e] + run) == After(Apply(s, e), run)
  {
    hide Inv, Legal, Apply;
    assert ([e] + run)[1..] == run;
  }

  /** A late execution is killed when the old deadline passes, whether or not its own has come: in the run in
      which nothing else happens, the time read is that of the old one. */
  lemma LateIsKilled(s: State, e: Event) returns (run: seq<Event>)
    requires Inv(s) && Sound(s) && Legal(s, e) && Late(s, e)
    ensures var time := s.procs[e.proc].deadline;
            LegalRun(s, [e] + run) && s.killed <= After(s, [e] + run).killed &&
            e.pid in After(s, [e] + run).killed[|s.killed|..] &&
            forall k :: 0 <= k < |run| && run[k].TimeChecked? ==> run[k].now == time
  {
    hide Core, Polls, CanExec, Stale, Kill;
    var i, pid, time := e.proc, e.pid, s.procs[e.proc].deadline;
    ApplyKeepsInv(s, e);
    var t := Apply(s, e);
    LateIsStale(s, e);
    ApplyKeepsInv(t, DeadlineErased);
    var u := Apply(t, DeadlineErased);
    EraseKeepsStale(t, i, pid, time);
    if u.phase.Reaping? {
      ApplyKeepsInv(u, ExitsDone);
      StaleAnywhere(u, i, pid, time, Orphans(0));
      run := ToTheKill(Apply(u, ExitsDone), i, pid, time);
      FirstThen(u, ExitsDone, run);
      run := [ExitsDone] + run;
    } else {
      run := ToTheKill(u, i, pid, time);
    }
    FirstThen(t, DeadlineErased, run);
    run := [DeadlineErased] + run;
    FirstThen(s, e, run);
  }

  lemma ToTheKill(s: State, i: nat, pid: int, time: nat) returns (run: seq<Event>)
    requires Inv(s) && s.phase.Orphans? && Stale(s, i, pid, time)
    ensures LegalRun(s, run) && forall k :: 0 <= k < |run| && run[k].TimeChecked? ==> run[k].now == time
    ensures s.killed <= After(s, run).killed && pid in After(s, run).killed[|s.killed|..]
  {
    hide Inv, Stale, Kill, LegalRun, After;
    run := ToTheDeadlines(s, i, pid, time);
    var end := After(s, run);
    EveryRunKeepsInv(s, run);
    StaleIsKilled(end, i, pid, time);
    RunOne(end, TimeChecked(time));
    RunConcat(s, run, [TimeChecked(time)]);
    run := run + [TimeChecked(time)];
  }

  lemma LateIsStale(s: State, e: Event)
    requires Inv(s) && Legal(s, e) && Late(s, e)
    ensures var t := Apply(s, e);
            Stale(t, e.proc, e.pid, s.procs[e.proc].deadline) && t.pending.Erasure? && t.killed == s.killed &&
            t.phase == s.phase && (s.phase.Reaping? || s.phase.Orphans?)
  {
    hide Core, Polls;
  }

  lemma StaleIsKilled(s: State, i: nat, pid: int, time: nat)
    requires Inv(s) && s.phase.Killing? && Stale(s, i, pid, time)
    ensures var t := Apply(s, TimeChecked(time)); s.killed <= t.killed && pid in t.killed[|s.killed|..]
  {
    hide Inv, Kill;
    KillSignalsIff(s, time, i);
    var k :| 0 <= k < |s.deadlines| && s.deadlines[k] == Deadline(time, i);
    assert Overdue(s, time, i);
  }

  // ----- the manager

  lemma {:induction false} ErasedAt(d: seq<Deadline>, e: Deadline, k: nat)
    requires k < |d| && d[k] == e && forall j :: 0 <= j < k ==> d[j] != e
    ensures Erased(d, e) == d[..k] + d[k + 1..]
  {
    if k > 0 {
      ErasedAt(d[1..], e, k - 1);
      assert d[1..][..k - 1] == d[1..k] && d[1..][k..] == d[k + 1..];
      assert [d[0]] + (d[1..k] + d[k + 1..]) == d[..k] + d[k + 1..];
    }
  }

  lemma {:induction false} NotErased(d: seq<Deadline>, e: Deadline)
    requires e !in d
    ensures Erased(d, e) == d
  {
    if d != [] {
      NotErased(d[1..], e);
    }
  }

  lemma {:induction false} ScheduledAt(d: seq<Deadline>, e: Deadline, k: nat)
    requires k <= |d| && (forall j :: 0 <= j < k ==> d[j].time <= e.time) && (k < |d| ==> e.time < d[k].time)
    ensures Scheduled(d, e) == d[..k] + [e] + d[k..]
  {
    if k > 0 {
      ScheduledAt(d[1..], e, k - 1);
      assert d[1..][..k - 1] == d[1..k] && d[..k] == [d[0]] + d[1..k] && d[1..][k - 1..] == d[k..];
    }
  }

  lemma EmptyOrNot(keys: set<int>)
    ensures keys == {} || exists fd: int :: fd in keys
  {
    if forall fd: int :: fd !in keys {
      assert keys == {};
    }
  }

  lemma ListsSize(fds: seq<int>, keys: set<int>)
    requires Lists(fds, keys)
    ensures |fds| == |keys|
    decreases |fds|
  {
    if fds != [] {
      var last, front := fds[|fds| - 1], fds[..|fds| - 1];
      forall fd | fd in keys - {last} ensures fd in front {
        var k :| 0 <= k < |fds| && fds[k] == fd;
        assert front[k] == fd;
      }
      ListsSize(front, keys - {last});
    } else {
      assert forall fd :: fd in keys ==> fd in fds;
    }
  }

  ghost predicate Reapable(children: set<int>, exits: seq<Exit>) {
    (forall k :: 0 <= k < |exits| ==> exits[k].pid in children) &&
    (forall j, k :: 0 <= j < k < |exits| ==> exits[j].pid != exits[k].pid)
  }

  lemma ReapableRest(children: set<int>, exits: seq<Exit>, s: State, e: Exit)
    requires Reapable(children, exits) && exits != [] && e == exits[0] && Linked(s) && s.children == children
    ensures Reapable(children - {e.pid}, exits[1..])
    ensures Reap(s, e).children == children - {e.pid} && Reap(s, e).phase == s.phase && Reap(s, e).fds == s.fds
  {
  }

  lemma {:induction false} RegisterAllFrame(s: State)
    requires Queueable(s)
    ensures var r := RegisterAll(s); r.children == s.children && r.phase == s.phase && r.pending == s.pending
    decreases |s.queue|
  {
    if s.queue != [] {
      RegisterAllFrame(RegisterHead(s));
    }
  }

  lemma KillLeavesLater(s: State, now: nat)
    requires Inv(s)
    ensures forall k :: 0 <= k < |s.deadlines| ==> s.deadlines[k].proc in s.procs
    ensures forall k :: 0 <= k < |Kill(s, now).deadlines| ==> Kill(s, now).deadlines[k].time > now
  {
    KillKeepsInv(s, now);
    ExpiredPrefix(s.deadlines, now);
  }

  lemma SortedDeadlines(s: State)
    requires Core(s)
    ensures Sorted(s.deadlines)
  {
    hide Procs, Pids, Queue, Fds, Exits, Log, Conserved;
  }

  function HangUps(fds: seq<int>, hung: set<int>): seq<Event> {
    if fds == [] then [] else (if fds[0] in hung then [HungUp(fds[0])] else []) + HangUps(fds[1..], hung)
  }

  function ExitsReported(exits: seq<Exit>): seq<Event> {
    if exits == [] then [] else [Exited(exits[0])] + ExitsReported(exits[1..])
  }

  /** The events of a run but for those that follow from the tables alone. */
  function Outline(run: seq<Event>): seq<Event> {
    if run == [] then []
    else (if run[0].DeadlineErased? || run[0].OrphanMet? then [] else [run[0]]) + Outline(run[1..])
  }

  lemma {:induction false} OutlineConcat(a: seq<Event>, b: seq<Event>)
    ensures Outline(a + b) == Outline(a) + Outline(b)
  {
    if a == [] {
      assert a + b == b;
    } else {
      var head := if a[0].DeadlineErased? || a[0].OrphanMet? then [] else [a[0]];
      assert (a + b)[0] == a[0] && (a + b)[1..] == a[1..] + b;
      OutlineConcat(a[1..], b);
      ConcatAssociative(head, Outline(a[1..]), Outline(b));
    }
  }

  lemma {:induction false} OutlineOfHangUps(fds: seq<int>, hung: set<int>)
    ensures Outline(HangUps(fds, hung)) == HangUps(fds, hung)
  {
    if fds != [] {
      OutlineOfHangUps(fds[1..], hung);
      OutlineConcat(if fds[0] in hung then [HungUp(fds[0])] else [], HangUps(fds[1..], hung));
    }
  }

  /** The events of one turn of the loop. */
  function Turn(fds: seq<int>, hung: set<int>, exits: seq<Exit>, now: nat): seq<Event> {
    [Polled(fds)] + HangUps(fds, hung) + ([StreamsDone] + ExitsReported(exits)) +
    [ExitsDone, OrphansDone, TimeChecked(now)]
  }

  lemma OutlineOfOne(e: Event)
    ensures Outline([e]) == if e.DeadlineErased? || e.OrphanMet? then [] else [e]
  {
    assert [e][1..] == [];
  }

  lemma OneReported(exits: seq<Exit>, k: nat, run: seq<Event>)
    requires k < |exits| && Outline(run) + ExitsReported(exits[k..]) == ExitsReported(exits)
    ensures Outline(run) + Outline([Exited(exits[k])]) + ExitsReported(exits[k + 1..]) == ExitsReported(exits)
  {
    assert exits[k..][1..] == exits[k + 1..];
    assert Outline([Exited(exits[k])]) == [Exited(exits[k])];
    ConcatAssociative(Outline(run), [Exited(exits[k])], ExitsReported(exits[k + 1..]));
  }

  lemma StreamsEnd(s: State)
    requires Inv(s) && s.phase.Streams?
    ensures s.pending.Nothing?
  {
  }

  /** The first deadline, if it has passed, is dealt with before the others. */
  lemma {:induction false} OneSignalled(s: State, now: nat)
    requires forall k :: 0 <= k < |s.deadlines| ==> s.deadlines[k].proc in s.procs
    requires s.deadlines != [] && s.deadlines[0].time <= now
    ensures var p := s.procs[s.deadlines[0].proc];
            var t := s.(killed := s.killed + (if p.pid != -1 then [p.pid] else []), deadlines := s.deadlines[1..]);
            Kill(t, now) == Kill(s, now)
  {
    var d, n := s.deadlines, Expired(s.deadlines, now);
    assert d[..n][1..] == d[1..][..n - 1] && d[1..][n - 1..] == d[n..];
    var head := if s.procs[d[0].proc].pid != -1 then [s.procs[d[0].proc].pid] else [];
    ConcatAssociative(s.killed, head, PidsOf(s.procs, d[1..][..n - 1]));
  }

  /** What follows a delivery when nothing comes between. */
  function Dealt(s: State): State
    requires s.pending.Erasure? ==> s.pending.proc in s.procs
  {
    if s.pending.Erasure? then TakenOff(s) else s
  }

  /** The events of a step of the manager and of the erasure that it leaves, if any. */
  lemma StepAndErasure(s: State, e: Event) returns (run: seq<Event>)
    requires Inv(s) && s.pending.Nothing? && Legal(s, e) && (e.Exited? || e.OrphanMet?)
    ensures Inv(Apply(s, e)) && LegalRun(s, run) && After(s, run) == Dealt(Apply(s, e)) && Inv(After(s, run))
    ensures Outline(run) == Outline([e])
  {
    hide Inv, Legal, Apply;
    RunOne(s, e);
    var t := Apply(s, e);
    run := [e];
    if t.pending.Erasure? {
      ErasureIsLegal(t);
      RunOne(t, DeadlineErased);
      RunConcat(s, [e], [DeadlineErased]);
      OutlineConcat([e], [DeadlineErased]);
      assert Outline([DeadlineErased]) == [];
      run := [e] + [DeadlineErased];
    }
  }

  lemma KilledMeans(e: Exit)
    ensures WasKilled(e) <==> Signal(e.status) == SIGKILL
  {
  }

  lemma EndKeepsDeadline(p: Proc, was: Proc, i: nat, status: int, d: seq<Deadline>)
    requires p.deadline == was.deadline
    ensures WithoutDeadline(Ended(p, status), i, d) == WithoutDeadline(was, i, d) == WithoutDeadline(p, i, d)
  {
  }

  lemma ErasureIsLegal(s: State)
    requires Inv(s) && s.pending.Erasure?
    ensures s.pending.proc in s.procs && Legal(s, DeadlineErased) && Apply(s, DeadlineErased) == TakenOff(s)
  {
  }

  class Manager {
    var procs: map<nat, Proc>
    var queue: seq<(int, nat)>
    var byFd: map<int, nat>
    var fds: seq<int>
    var byPid: map<int, nat>
    var orphans: seq<Exit>
    var deadlines: seq<Deadline>
    var update: bool
    ghost var phase: Phase
    ghost var pending: Pending
    ghost var children: set<int>
    ghost var reaped: seq<Exit>
    ghost var delivered: seq<Delivery>
    ghost var killed: seq<int>

    ghost function View(): State
      reads this
    {
      State(procs, queue, byFd, fds, byPid, orphans, deadlines, update, phase, pending, children, reaped, delivered,
        killed)
    }

    constructor ()
      ensures View() == START
    {
      procs, queue, byFd, fds, byPid, orphans, deadlines, update := map[], [], map[], [], map[], [], [], true;
      phase, pending, children, reaped, delivered, killed := Top, Nothing, {}, [], [], [];
    }

    method AddProcess(i: nat)
      requires i in procs
      modifies this
      ensures View() == Add(old(View()), i)
    {
      queue := queue + [(procs[i].pid, i)];
      update := true;
    }

    method InsertTimeout(e: Deadline)
      requires Sorted(deadlines)
      modifies this`deadlines
      ensures deadlines == Scheduled(old(deadlines), e)
    {
      var k := 0;
      while k < |deadlines| && deadlines[k].time <= e.time
        invariant 0 <= k <= |deadlines| && forall j :: 0 <= j < k ==> deadlines[j].time <= e.time
      {
        k := k + 1;
      }
      ScheduledAt(deadlines, e, k);
      deadlines := deadlines[..k] + [e] + deadlines[k..];
    }

    method EraseTimeout(i: nat)
      requires i in procs
      modifies this`deadlines
      ensures deadlines == WithoutDeadline(procs[i], i, old(deadlines))
    {
      var e := Deadline(procs[i].deadline, i);
      if e.time != 0 {
        var k := 0;
        while k < |deadlines| && deadlines[k] != e
          invariant 0 <= k <= |deadlines| && forall j :: 0 <= j < k ==> deadlines[j] != e
        {
          k := k + 1;
        }
        if k < |deadlines| {
          ErasedAt(deadlines, e, k);
          deadlines := deadlines[..k] + deadlines[k + 1..];
        } else {
          NotErased(deadlines, e);
        }
      }
    }

    method CloseStreamOf(fd: int)
      requires Linked(View())
      modifies this
      ensures View() == CloseStream(old(View()), fd)
    {
      update := true;
      if fd in byFd {
        var i := byFd[fd];
        byFd := byFd - {fd};
        procs := procs[i := Closed(procs[i], fd)];
      }
    }

    /** The exit of process i is passed on, whatever way it came, and nobody executes it again meanwhile. */
    method UpdateEndingProcess(i: nat, status: int)
      requires i in procs
      modifies this`procs, this`deadlines
      ensures procs == old(procs)[i := Ended(old(procs)[i], status)]
      ensures deadlines == WithoutDeadline(old(procs)[i], i, old(deadlines))
    {
      procs := procs[i := Ended(procs[i], status)];
      EraseTimeout(i);
    }

    /** Takes over the processes of the queue, one after the other. */
    method RegisterQueued()
      requires Core(View())
      modifies this`procs, this`queue, this`byFd, this`byPid, this`deadlines
      ensures Queueable(old(View())) && View() == RegisterAll(old(View()))
    {
      IsLinked(View());
      while queue != []
        invariant Core(View()) && Queueable(View()) && RegisterAll(View()) == RegisterAll(old(View()))
        decreases |queue|
      {
        RegisterFirst();
        IsLinked(View());
      }
    }

    method RegisterFirst()
      requires Core(View()) && queue != []
      modifies this`procs, this`queue, this`byFd, this`byPid, this`deadlines
      ensures Queueable(old(View())) && Core(View()) && View() == RegisterHead(old(View()))
    {
      RegisterHeadKeepsCore(View());
      SortedDeadlines(View());
      hide Core;
      EnterTables(queue[0].0, queue[0].1);
      queue := queue[1..];
    }

    method EnterTables(pid: int, i: nat)
      requires i in procs && Sorted(deadlines)
      modifies this`procs, this`byFd, this`byPid, this`deadlines
      ensures View() == RegisterOne(old(View()), pid, i)
    {
      var p := procs[i];
      if p.outOn {
        byFd := byFd[p.out := i];
      }
      if p.errOn {
        byFd := byFd[p.err := i];
      }
      if p.deadline != 0 {
        InsertTimeout(Deadline(p.deadline, i));
      }
      byPid := byPid[pid := i];
      procs := procs[i := p.(known := true)];
    }

    method ListFds()
      modifies this`fds
      ensures Lists(fds, byFd.Keys)
    {
      var keys: set<int> := byFd.Keys;
      fds := [];
      while keys != {}
        invariant keys <= byFd.Keys && Lists(fds, byFd.Keys - keys)
        decreases |keys|
      {
        EmptyOrNot(keys);
        var fd :| fd in keys;
        fds := fds + [fd];
        keys := keys - {fd};
      }
      assert byFd.Keys - {} == byFd.Keys;
    }

    method UpdateList()
      requires Core(View())
      modifies this
      ensures Queueable(old(View())) && View() == Update(old(View()), fds) && Lists(fds, byFd.Keys)
    {
      RegisterQueued();
      ListFds();
      update := false;
    }

    method WaitProcess(e: Exit)
      requires Linked(View()) && pending.Nothing?
      modifies this`procs, this`byPid, this`orphans, this`deadlines, this`update
      modifies this`children, this`reaped, this`delivered
      ensures View() == Dealt(Reap(old(View()), e))
    {
      children, reaped := children - {e.pid}, reaped + [e];
      if e.pid !in byPid {
        orphans := orphans + [e];
        update := true;
      } else {
        PassOn(e, true);
      }
    }

    /** A registered process is unregistered and told of its exit. */
    method PassOn(e: Exit, direct: bool)
      requires Linked(View()) && e.pid in byPid && pending.Nothing?
      modifies this`byPid, this`procs, this`deadlines, this`delivered
      ensures View() == TakenOff(Deliver(old(View()), e, direct))
    {
      hide Ended, WithoutDeadline, WasKilled, Signal;
      KilledMeans(e);
      var i := byPid[e.pid];
      ghost var before := procs;
      ghost var p := if direct && WasKilled(e) then procs[i].(timedOut := true) else procs[i];
      byPid := byPid - {e.pid};
      if direct && Signal(e.status) == SIGKILL {
        procs := procs[i := procs[i].(timedOut := true)];
      }
      delivered := delivered + [Delivery(i, e, direct)];
      UpdateEndingProcess(i, e.status);
      assert procs == before[i := Ended(p, e.status)];
      EndKeepsDeadline(p, before[i], i, e.status, old(deadlines));
    }

    method WaitProcesses(exits: seq<Exit>) returns (ghost run: seq<Event>)
      requires Inv(View()) && phase.Reaping? && pending.Nothing? && Reapable(children, exits)
      modifies this`procs, this`byPid, this`orphans, this`deadlines, this`update
      modifies this`children, this`reaped, this`delivered
      ensures Inv(View()) && Outline(run) == ExitsReported(exits)
      ensures LegalRun(old(View()), run) && View() == After(old(View()), run)
    {
      hide Inv, Reap;
      ghost var start := View();
      run := [];
      assert exits[0..] == exits;
      for k := 0 to |exits|
        invariant Inv(View()) && phase == start.phase && pending.Nothing? && fds == start.fds
        invariant Reapable(children, exits[k..])
        invariant Outline(run) + ExitsReported(exits[k..]) == ExitsReported(exits)
        invariant LegalRun(start, run) && View() == After(start, run)
      {
        ghost var before, e := View(), Exited(exits[k]);
        ReapKeepsInv(before, exits[k]);
        ReapableRest(children, exits[k..], before, exits[k]);
        assert exits[k..][1..] == exits[k + 1..];
        WaitProcess(exits[k]);
        ghost var more := StepAndErasure(before, e);
        RunConcat(start, run, more);
        OutlineConcat(run, more);
        OneReported(exits, k, run);
        run := run + more;
      }
      assert Outline(run) + [] == Outline(run);
    }

    method WaitOrphansPid() returns (ghost run: seq<Event>)
      requires Inv(View()) && phase == Orphans(0) && pending.Nothing?
      modifies this`procs, this`byPid, this`orphans, this`deadlines, this`delivered, this`phase
      ensures Inv(View()) && pending.Nothing? && phase == Orphans(|orphans|) && Outline(run) == []
      ensures LegalRun(old(View()), run) && View() == After(old(View()), run)
    {
      hide Inv;
      ghost var start := View();
      run := [];
      var k: nat := 0;
      while k < |orphans|
        invariant k <= |orphans| && Inv(View()) && pending.Nothing? && phase == Orphans(k) && Outline(run) == []
        invariant LegalRun(start, run) && View() == After(start, run)
        decreases |orphans| - k
      {
        ghost var more;
        k, more := LookAt(k);
        RunConcat(start, run, more);
        OutlineConcat(run, more);
        run := run + more;
      }
    }

    /** One orphan is passed over or delivered, after which the next is in its place. */
    method LookAt(k: nat) returns (next: nat, ghost run: seq<Event>)
      requires Inv(View()) && phase == Orphans(k) && pending.Nothing? && k < |orphans|
      modifies this`procs, this`byPid, this`orphans, this`deadlines, this`delivered, this`phase
      ensures Inv(View()) && pending.Nothing? && phase == Orphans(next) && Outline(run) == []
      ensures next <= |orphans| && |orphans| - next < old(|orphans|) - k
      ensures LegalRun(old(View()), run) && View() == After(old(View()), run)
    {
      hide Core, Polls, LegalRun, After, Outline, Ended, WithoutDeadline;
      IsLinked(View());
      run := StepAndErasure(View(), OrphanMet);
      OutlineOfOne(OrphanMet);
      next := k;
      if orphans[k].pid !in byPid {
        next := k + 1;
        phase := Orphans(next);
      } else {
        AdoptOrphan(k);
      }
    }

    method AdoptOrphan(k: nat)
      requires k < |orphans| && Linked(View()) && orphans[k].pid in byPid && pending.Nothing?
      modifies this`procs, this`byPid, this`orphans, this`deadlines, this`delivered
      ensures View() == TakenOff(DeliverOrphan(old(View()), k))
    {
      var e := orphans[k];
      orphans := orphans[..k] + orphans[k + 1..];
      PassOn(e, false);
    }

    method KillProcessesTimeout(now: nat)
      requires forall k :: 0 <= k < |deadlines| ==> deadlines[k].proc in procs
      modifies this`deadlines, this`killed
      ensures View() == Kill(old(View()), now)
    {
      ghost var start := View();
      while deadlines != [] && deadlines[0].time <= now
        invariant forall k :: 0 <= k < |deadlines| ==> deadlines[k].proc in procs
        invariant procs == start.procs && Kill(View(), now) == Kill(start, now)
        decreases |deadlines|
      {
        OneSignalled(View(), now);
        if procs[deadlines[0].proc].pid != -1 {
          killed := killed + [procs[deadlines[0].proc].pid];
        }
        deadlines := deadlines[1..];
      }
    }

    /** What comes before a poll: the list is brought up to date if need be. */
    method Refresh()
      requires Inv(View()) && phase.Top?
      modifies this
      ensures Inv(View()) && Lists(fds, byFd.Keys) && |fds| == |byFd.Keys|
      ensures children == old(children) && phase.Streams?
      ensures Legal(old(View()), Polled(fds)) && View() == Apply(old(View()), Polled(fds))
    {
      ghost var start := View();
      if update {
        RegisterAllKeepsCore(start);
        RegisterAllFrame(start);
        UpdateList();
      }
      phase := Streams;
      TablesAgreeAtPoll(start, fds);
      hide Core;
      ListsSize(fds, byFd.Keys);
    }

    /** The streams that hang up are closed, in the order of the list. */
    method CloseStreams(hung: set<int>) returns (ghost run: seq<Event>)
      requires Inv(View()) && phase.Streams?
      modifies this
      ensures Inv(View()) && phase.Streams? && children == old(children) && fds == old(fds)
      ensures run == HangUps(fds, hung) && LegalRun(old(View()), run) && View() == After(old(View()), run)
    {
      hide Inv;
      ghost var start, all := View(), fds;
      run := [];
      for k := 0 to |fds|
        invariant Inv(View()) && phase.Streams? && children == old(children) && fds == all
        invariant run + HangUps(all[k..], hung) == HangUps(all, hung)
        invariant LegalRun(start, run) && View() == After(start, run)
      {
        assert all[k..][1..] == all[k + 1..];
        if fds[k] in hung {
          CloseKeepsInv(View(), fds[k]);
          RunOne(View(), HungUp(fds[k]));
          RunConcat(start, run, [HungUp(fds[k])]);
          ConcatAssociative(run, [HungUp(fds[k])], HangUps(all[k + 1..], hung));
          run := run + [HungUp(fds[k])];
          CloseStreamOf(fds[k]);
        } else {
          assert [] + HangUps(all[k + 1..], hung) == HangUps(all[k + 1..], hung);
        }
      }
      assert run + [] == run;
    }

    /** One turn of the manager's loop, given the streams that hang up, the exits reported and the time: the
        run of exactly the events of the turn. */
    method Round(hung: set<int>, exits: seq<Exit>, now: nat) returns (ghost run: seq<Event>)
      requires Inv(View()) && phase.Top? && Reapable(children, exits)
      modifies this
      ensures Inv(View()) && phase.Top? && Outline(run) == Turn(fds, hung, exits, now)
      ensures LegalRun(old(View()), run) && View() == After(old(View()), run)
      ensures forall k :: 0 <= k < |deadlines| ==> deadlines[k].time > now
    {
      hide Inv, Legal, Apply;
      ghost var start := View();
      Refresh();
      RunOne(start, Polled(fds));
      run := [Polled(fds)];
      ghost var closed := CloseStreams(hung);
      OutlineOfHangUps(fds, hung);
      RunConcat(start, run, closed);
      OutlineConcat(run, closed);
      run := run + closed;
      ghost var reaped := ReapExits(exits);
      RunConcat(start, run, reaped);
      OutlineConcat(run, reaped);
      run := run + reaped;
      ghost var rest := Finish(now);
      RunConcat(start, run, rest);
      OutlineConcat(run, rest);
      run := run + rest;
    }

    /** The exits are reaped. */
    method ReapExits(exits: seq<Exit>) returns (ghost run: seq<Event>)
      requires Inv(View()) && phase.Streams? && Reapable(children, exits)
      modifies this
      ensures Inv(View()) && phase.Reaping? && pending.Nothing? && fds == old(fds)
      ensures Outline(run) == [StreamsDone] + ExitsReported(exits)
      ensures LegalRun(old(View()), run) && View() == After(old(View()), run)
    {
      ghost var start := View();
      StreamsEnd(start);
      hide Inv;
      RunOne(start, StreamsDone);
      phase := Reaping;
      ghost var more := WaitProcesses(exits);
      RunConcat(start, [StreamsDone], more);
      OutlineConcat([StreamsDone], more);
      run := [StreamsDone] + more;
    }

    /** Orphans and deadlines. */
    method Finish(now: nat) returns (ghost run: seq<Event>)
      requires Inv(View()) && phase.Reaping? && pending.Nothing?
      modifies this
      ensures Inv(View()) && phase.Top? && fds == old(fds)
      ensures Outline(run) == [ExitsDone, OrphansDone, TimeChecked(now)]
      ensures LegalRun(old(View()), run) && View() == After(old(View()), run)
      ensures forall k :: 0 <= k < |deadlines| ==> deadlines[k].time > now
    {
      hide Inv, LegalRun, After, Outline, Apply, Legal;
      ghost var start := View();
      run := MeetOrphans();
      ghost var last := View();
      CheckTime(now);
      RunOne(last, TimeChecked(now));
      RunConcat(start, run, [TimeChecked(now)]);
      OutlineConcat(run, [TimeChecked(now)]);
      OutlineOfOne(TimeChecked(now));
      run := run + [TimeChecked(now)];
    }

    method MeetOrphans() returns (ghost run: seq<Event>)
      requires Inv(View()) && phase.Reaping? && pending.Nothing?
      modifies this
      ensures Inv(View()) && phase.Killing? && fds == old(fds) && Outline(run) == [ExitsDone, OrphansDone]
      ensures LegalRun(old(View()), run) && View() == After(old(View()), run)
    {
      hide Inv, LegalRun, After, Outline;
      ghost var start := View();
      RunOne(start, ExitsDone);
      phase := Orphans(0);
      run := WaitOrphansPid();
      RunOne(View(), OrphansDone);
      RunConcat(start, [ExitsDone], run);
      OutlineConcat([ExitsDone], run);
      OutlineOfOne(ExitsDone);
      run := [ExitsDone] + run;
      RunConcat(start, run, [OrphansDone]);
      OutlineConcat(run, [OrphansDone]);
      OutlineOfOne(OrphansDone);
      run := run + [OrphansDone];
      phase := Killing;
    }

    method CheckTime(now: nat)
      requires Inv(View()) && phase.Killing?
      modifies this
      ensures Inv(View()) && phase.Top? && fds == old(fds)
      ensures Legal(old(View()), TimeChecked(now)) && View() == Apply(old(View()), TimeChecked(now))
      ensures forall k :: 0 <= k < |deadlines| ==> deadlines[k].time > now
    {
      hide Core, Polls;
      ApplyKeepsInv(View(), TimeChecked(now));
      KillLeavesLater(View(), now);
      KillProcessesTimeout(now);
      phase := Top;
    }
  }
}
