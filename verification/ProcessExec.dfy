/** How a process is started: the standard descriptors of the caller are set aside, replaced by what the
    child is to have, and put back, with a failure possible at every system call on the way. */
module ProcessExec {

  // ----- the descriptors of the calling process

  /** What a descriptor refers to: something opened, or one end of a pipe. */
  datatype File = Node(id: nat) | Pipe(id: nat, writable: bool)

  datatype Entry = Entry(file: File, cloexec: bool)

  /** Identities at or above `next` have not been given out. */
  datatype Table = Table(open: map<int, Entry>, next: nat)

  predicate Sane(t: Table) {
    forall fd :: fd in t.open ==> fd >= 0 && t.open[fd].file.id < t.next
  }

  lemma SaneAt(t: Table, fd: int)
    requires Sane(t) && fd in t.open
    ensures t.open[fd].file.id < t.next
  {
  }

  lemma FewerAbove(open: map<int, Entry>, from: int)
    requires from in open
    ensures |set fd | fd in open && from + 1 <= fd| < |set fd | fd in open && from <= fd|
  {
    var all, above := set fd | fd in open && from <= fd, set fd | fd in open && from + 1 <= fd;
    assert all == above + {from};
  }

  /** The kernel gives out the lowest descriptor that is free. */
  function LowestFree(open: map<int, Entry>, from: nat): (fd: int)
    ensures from <= fd && fd !in open && forall k :: from <= k < fd ==> k in open
    decreases |set fd | fd in open && from <= fd|
  {
    if from !in open then from else FewerAbove(open, from); LowestFree(open, from + 1)
  }

  function Opened(t: Table, fd: int, e: Entry): Table {
    t.(open := t.open[fd := e])
  }

  /** What a program that is started inherits. */
  function Inherited(t: Table): map<int, File> {
    map fd | fd in t.open && !t.open[fd].cloexec :: t.open[fd].file
  }

  /** System calls, each of which may be refused. */
  class Kernel {
    var fds: Table
    var children: map<int, map<int, File>>

    method Dup(oldfd: int) returns (fd: int)
      modifies this`fds
      ensures fd == -1 ==> fds == old(fds)
      ensures fd != -1 ==>
        oldfd in old(fds.open) && fd == LowestFree(old(fds.open), 0) &&
        fds == Opened(old(fds), fd, Entry(old(fds.open)[oldfd].file, false))
    {
      var refused: bool := *;
      fd := -1;
      if !refused && oldfd in fds.open {
        fd := LowestFree(fds.open, 0);
        fds := Opened(fds, fd, Entry(fds.open[oldfd].file, false));
      }
    }

    method Dup2(oldfd: int, newfd: int) returns (ok: bool)
      requires oldfd in fds.open
      modifies this`fds
      ensures fds == if ok then Opened(old(fds), newfd, Entry(old(fds.open)[oldfd].file, false)) else old(fds)
    {
      ok := *;
      if ok {
        fds := Opened(fds, newfd, Entry(fds.open[oldfd].file, false));
      }
    }

    /** The calls that put a descriptor back are not refused. */
    method Restore(oldfd: int, newfd: int)
      requires oldfd in fds.open
      modifies this`fds
      ensures fds == Opened(old(fds), newfd, Entry(old(fds.open)[oldfd].file, false))
    {
      fds := Opened(fds, newfd, Entry(fds.open[oldfd].file, false));
    }

    method OpenNode() returns (fd: int)
      modifies this`fds
      ensures fd == -1 ==> fds == old(fds)
      ensures fd != -1 ==>
        fd == LowestFree(old(fds.open), 0) &&
        fds == Table(old(fds.open)[fd := Entry(Node(old(fds.next)), false)], old(fds.next) + 1)
    {
      var refused: bool := *;
      fd := -1;
      if !refused {
        fd := LowestFree(fds.open, 0);
        fds := Table(fds.open[fd := Entry(Node(fds.next), false)], fds.next + 1);
      }
    }

    method MakePipe() returns (r: int, w: int)
      modifies this`fds
      ensures r == -1 ==> w == -1 && fds == old(fds)
      ensures r != -1 ==>
        var n, reading := old(fds.next), old(fds.open)[r := Entry(Pipe(old(fds.next), false), false)];
        r == LowestFree(old(fds.open), 0) && w == LowestFree(reading, 0) &&
        fds == Table(reading[w := Entry(Pipe(n, true), false)], n + 1)
    {
      var refused: bool := *;
      r, w := -1, -1;
      if !refused {
        r := LowestFree(fds.open, 0);
        fds := fds.(open := fds.open[r := Entry(Pipe(fds.next, false), false)]);
        w := LowestFree(fds.open, 0);
        fds := Table(fds.open[w := Entry(Pipe(fds.next, true), false)], fds.next + 1);
      }
    }

    method SetCloexec(fd: int) returns (ok: bool)
      requires fd in fds.open
      modifies this`fds
      ensures fds == if ok then Opened(old(fds), fd, old(fds.open)[fd].(cloexec := true)) else old(fds)
    {
      ok := *;
      if ok {
        fds := Opened(fds, fd, fds.open[fd].(cloexec := true));
      }
    }

    /** Closing asks for an open descriptor: nothing is closed twice. */
    method Close(fd: int)
      requires fd in fds.open
      modifies this`fds
      ensures fds == old(fds).(open := old(fds.open) - {fd})
    {
      fds := fds.(open := fds.open - {fd});
    }

    method Spawn() returns (pid: int)
      modifies this`children
      ensures pid == -1 ==> children == old(children)
      ensures pid != -1 ==> pid > 0 && pid !in old(children) && children == old(children)[pid := Inherited(fds)]
    {
      var refused: bool, any: int := *, *;
      pid := -1;
      if !refused && any > 0 && any !in children {
        pid := any;
        children := children[pid := Inherited(fds)];
      }
    }
  }

  // ----- intermediate states

  predicate Distinct(held: seq<int>) {
    forall i, j :: 0 <= i < j < |held| && held[i] >= 0 ==> held[i] != held[j]
  }

  /** Only the descriptors held have been opened since t0, and only those of the standard streams replaced. */
  predicate Holding(t0: Table, t: Table, held: seq<int>) {
    Sane(t0) && Sane(t) && t0.next <= t.next && Distinct(held) &&
    (forall i :: 0 <= i < |held| && held[i] >= 0 ==> held[i] !in t0.open && held[i] in t.open) &&
    (forall fd :: fd in t.open ==> fd in t0.open || fd in held) &&
    (forall fd :: fd in t0.open ==> fd in t.open && (fd > 2 ==> t.open[fd] == t0.open[fd]))
  }

  /** The standard streams are as they were at t0, as far as what they refer to goes. */
  predicate SameStreams(t0: Table, t: Table) {
    forall fd :: 0 <= fd < 3 && fd in t0.open ==> fd in t.open && t.open[fd].file == t0.open[fd].file
  }

  /** Every descriptor of t0 is as it was. */
  predicate Intact(t0: Table, t: Table) {
    forall fd :: fd in t0.open ==> fd in t.open && t.open[fd] == t0.open[fd]
  }

  /** The standard descriptors refer to what they did at t0, and none is closed on exec any more. */
  predicate Cleared(t0: Table, t: Table) {
    forall fd :: 0 <= fd < 3 ==> fd in t0.open && fd in t.open && t.open[fd] == Entry(t0.open[fd].file, false)
  }

  /** So a descriptor is as it was exactly if it was not closed on exec. */
  lemma ClearedIsIntactIff(t0: Table, t: Table, held: seq<int>)
    requires Holding(t0, t, held) && Cleared(t0, t)
    ensures Intact(t0, t) <==> forall fd :: 0 <= fd < 3 ==> !t0.open[fd].cloexec
  {
  }

  /** The standard descriptors have been set aside. */
  predicate Backed(base: Table, t0: Table, std: seq<int>) {
    |std| == 3 && Holding(base, t0, std) && SameStreams(base, t0) &&
    (forall i :: 0 <= i < 3 ==>
      std[i] in t0.open && i in t0.open && t0.open[std[i]] == Entry(t0.open[i].file, true)) &&
    (if 1 in base.open && 2 in base.open then forall i :: 0 <= i < 3 ==> std[i] > 2 else std[0] == 1 || std[0] == 2)
  }

  function ParentEnd(pipes: seq<int>, i: nat): int
    requires |pipes| == 6 && i < 3
  {
    pipes[if i == 0 then 1 else 2 * i]
  }

  function ChildEnd(pipes: seq<int>, i: nat): int
    requires |pipes| == 6 && i < 3
  {
    pipes[if i == 0 then 0 else 2 * i + 1]
  }

  /** Stream i is what the child is to have, and the other end of its pipe is held. */
  predicate Wired(t0: Table, t: Table, pipes: seq<int>, i: nat, enabled: bool)
    requires |pipes| == 6 && i < 3
  {
    var p := ParentEnd(pipes, i);
    i in t0.open && i in t.open && !t.open[i].cloexec && t.open[i].file.id >= t0.next && ChildEnd(pipes, i) == -1 &&
    (if enabled then
       t.open[i].file == Pipe(t.open[i].file.id, i != 0) && p >= 0 && p in t.open &&
       t.open[p] == Entry(Pipe(t.open[i].file.id, i == 0), true)
     else t.open[i].file.Node? && p == -1)
  }

  predicate Untouched(t0: Table, t: Table, pipes: seq<int>, i: nat)
    requires |pipes| == 6 && i < 3
  {
    i in t.open && i in t0.open && t.open[i] == t0.open[i] && ParentEnd(pipes, i) == -1 && ChildEnd(pipes, i) == -1
  }

  predicate WiredUpTo(t0: Table, t: Table, pipes: seq<int>, enable: seq<bool>, k: nat) {
    |pipes| == 6 && |enable| == 3 && Holding(t0, t, pipes) &&
    forall i :: 0 <= i < 3 ==> if i < k then Wired(t0, t, pipes, i, enable[i]) else Untouched(t0, t, pipes, i)
  }

  // ----- setting the standard descriptors aside

  /** The first n standard descriptors have been copied. */
  predicate Copied(base: Table, t: Table, std: seq<int>, n: nat) {
    |std| == 3 && n <= 3 && Holding(base, t, std) && Intact(base, t) &&
    (if n == 0 then t == base else 0 in base.open && std[0] == LowestFree(base.open, 0)) &&
    forall i :: 0 <= i < 3 ==>
      if i < n then std[i] in t.open && i in t.open && t.open[std[i]].file == t.open[i].file else std[i] == -1
  }

  lemma CopyStep(base: Table, t: Table, std: seq<int>, n: nat, fd: int, u: Table, more: seq<int>)
    requires Copied(base, t, std, n) && n < 3 && n in t.open && fd == LowestFree(t.open, 0)
    requires u == Opened(t, fd, Entry(t.open[n].file, false)) && more == std[n := fd]
    ensures Copied(base, u, more, n + 1)
  {
    SaneAt(t, n);
    HoldingMore(base, t, std, n, fd, u, more);
    hide Holding;
    forall i | 0 <= i < 3
      ensures if i < n + 1 then more[i] in u.open && i in u.open && u.open[more[i]].file == u.open[i].file
              else more[i] == -1
    {
      if i < n {
        assert std[i] in t.open && i in t.open;
      }
    }
  }

  method Copy(os: Kernel, ghost base: Table, std: seq<int>, n: nat) returns (ok: bool, more: seq<int>)
    requires n < 3 && Copied(base, os.fds, std, n)
    modifies os`fds
    ensures Copied(base, os.fds, more, if ok then n + 1 else n)
  {
    ghost var t := os.fds;
    var fd := os.Dup(n);
    ok, more := fd != -1, std;
    if ok {
      more := std[n := fd];
      CopyStep(base, t, std, n, fd, os.fds, more);
    }
  }

  /** The first n copies are not passed on to programs. */
  predicate Guarded(t: Table, std: seq<int>, n: nat) {
    |std| == 3 && n <= 3 && forall i :: 0 <= i < n ==> std[i] in t.open && t.open[std[i]].cloexec
  }

  lemma GuardStep(base: Table, t: Table, std: seq<int>, i: nat, u: Table)
    requires Copied(base, t, std, 3) && Guarded(t, std, i) && i < 3
    requires u == Opened(t, std[i], t.open[std[i]].(cloexec := true))
    ensures Copied(base, u, std, 3) && Guarded(u, std, i + 1)
  {
    assert std[i] !in base.open;
  }

  method Guard(os: Kernel, ghost base: Table, std: seq<int>) returns (ok: bool)
    requires Copied(base, os.fds, std, 3)
    modifies os`fds
    ensures Copied(base, os.fds, std, 3) && (ok ==> Guarded(os.fds, std, 3))
  {
    ok := true;
    var i := 0;
    while i < 3 && ok
      invariant 0 <= i <= 3 && Copied(base, os.fds, std, 3) && Guarded(os.fds, std, i)
      decreases 3 - i, ok
    {
      ghost var t := os.fds;
      ok := os.SetCloexec(std[i]);
      if ok {
        GuardStep(base, t, std, i, os.fds);
        i := i + 1;
      }
    }
  }

  lemma BackupDone(base: Table, t: Table, std: seq<int>)
    requires Copied(base, t, std, 3) && Guarded(t, std, 3)
    ensures Backed(base, t, std)
  {
    forall i | 0 <= i < 3
      ensures std[i] in t.open && i in t.open && t.open[std[i]] == Entry(t.open[i].file, true)
    {
      assert std[i] in t.open && t.open[std[i]].cloexec;
    }
    if 1 !in base.open {
      assert std[0] == 1;
    } else if 2 !in base.open {
      assert std[0] == 2;
    }
  }

  method Backup(os: Kernel) returns (ok: bool, std: seq<int>)
    requires Sane(os.fds)
    modifies os`fds
    ensures ok ==> 0 in old(os.fds.open) && Backed(old(os.fds), os.fds, std)
    ensures !ok ==> |std| == 3 && Holding(old(os.fds), os.fds, std) && Intact(old(os.fds), os.fds)
  {
    ghost var base := os.fds;
    ok, std := Copy(os, base, [-1, -1, -1], 0);
    if ok {
      ok, std := Copy(os, base, std, 1);
    }
    if ok {
      ok, std := Copy(os, base, std, 2);
    }
    if ok {
      ok := Guard(os, base, std);
    }
    if ok {
      BackupDone(base, os.fds, std);
    }
  }

  // ----- wiring the streams of the child

  method DevNull(os: Kernel, i: nat) returns (ok: bool)
    requires Sane(os.fds) && i in os.fds.open
    modifies os`fds
    ensures !ok ==> os.fds.open == old(os.fds.open) && old(os.fds.next) <= os.fds.next
    ensures ok ==> os.fds == Table(old(os.fds.open)[i := Entry(Node(old(os.fds.next)), false)], old(os.fds.next) + 1)
  {
    var fd := os.OpenNode();
    if fd == -1 {
      return false;
    }
    ok := os.Dup2(fd, i);
    os.Close(fd);
    assert os.fds.open == if ok then old(os.fds.open)[i := Entry(Node(old(os.fds.next)), false)] else old(os.fds.open);
  }

  // What each system call does to a table seen on top of another.

  lemma HoldingMore(t0: Table, t: Table, held: seq<int>, k: nat, fd: int, u: Table, more: seq<int>)
    requires Holding(t0, t, held) && k < |held| && held[k] == -1 && fd >= 0 && fd !in t.open
    requires t.next <= u.next && Sane(u) && u.open.Keys == t.open.Keys + {fd} && more == held[k := fd]
    requires forall x :: x in t.open ==> u.open[x] == t.open[x]
    ensures Holding(t0, u, more)
  {
    assert more[k] == fd;
    forall x | x in held && x >= 0 ensures x in more {
      var j :| 0 <= j < |held| && held[j] == x;
      assert more[j] == x;
    }
  }

  lemma HoldingLess(t0: Table, t: Table, held: seq<int>, k: nat, u: Table, less: seq<int>)
    requires Holding(t0, t, held) && k < |held| && held[k] >= 0
    requires u == t.(open := t.open - {held[k]}) && less == held[k := -1]
    ensures Holding(t0, u, less)
  {
    forall x | x in held && x != held[k] ensures x in less {
      var j :| 0 <= j < |held| && held[j] == x;
      assert less[j] == x;
    }
  }

  lemma HoldingStream(t0: Table, t: Table, held: seq<int>, i: nat, e: Entry, u: Table)
    requires Holding(t0, t, held) && i < 3 && i in t.open && e.file.id < t.next && u == Opened(t, i, e)
    ensures Holding(t0, u, held)
  {
  }

  lemma HoldingFlag(t0: Table, t: Table, held: seq<int>, k: nat, u: Table)
    requires Holding(t0, t, held) && k < |held| && held[k] >= 0
    requires u == Opened(t, held[k], t.open[held[k]].(cloexec := true))
    ensures Holding(t0, u, held)
  {
    assert held[k] !in t0.open;
  }

  /** The streams other than i are wired below i and untouched above. */
  predicate WiredBut(t0: Table, t: Table, pipes: seq<int>, enable: seq<bool>, i: nat) {
    |pipes| == 6 && |enable| == 3 && i < 3 && i in t0.open && i in t.open && Holding(t0, t, pipes) &&
    forall j :: 0 <= j < 3 && j != i ==>
      if j < i then Wired(t0, t, pipes, j, enable[j]) else Untouched(t0, t, pipes, j)
  }

  /** Moreover both ends of a new pipe for stream i are held. */
  predicate Piped(t0: Table, t: Table, pipes: seq<int>, enable: seq<bool>, i: nat, n: nat) {
    WiredBut(t0, t, pipes, enable, i) && t0.next <= n < t.next &&
    ParentEnd(pipes, i) >= 0 && t.open[ParentEnd(pipes, i)] == Entry(Pipe(n, i == 0), false) &&
    ChildEnd(pipes, i) >= 0 && t.open[ChildEnd(pipes, i)] == Entry(Pipe(n, i != 0), false)
  }

  lemma PipeMade(t0: Table, t: Table, pipes: seq<int>, enable: seq<bool>, i: nat, r: int, w: int, u: Table,
                 more: seq<int>)
    requires i < 3 && WiredUpTo(t0, t, pipes, enable, i)
    requires r == LowestFree(t.open, 0)
    requires var reading := t.open[r := Entry(Pipe(t.next, false), false)];
             w == LowestFree(reading, 0) && u == Table(reading[w := Entry(Pipe(t.next, true), false)], t.next + 1)
    requires more == pipes[2 * i := r][2 * i + 1 := w]
    ensures Piped(t0, u, more, enable, i, t.next)
  {
    assert Untouched(t0, t, pipes, i);
    var v := Table(t.open[r := Entry(Pipe(t.next, false), false)], t.next + 1);
    HoldingMore(t0, t, pipes, 2 * i, r, v, pipes[2 * i := r]);
    HoldingMore(t0, v, pipes[2 * i := r], 2 * i + 1, w, u, more);
    assert r !in t.open && w !in t.open;
    forall j: nat | j < 3 && j != i
      ensures if j < i then Wired(t0, u, more, j, enable[j]) else Untouched(t0, u, more, j)
    {
      assert if j < i then Wired(t0, t, pipes, j, enable[j]) else Untouched(t0, t, pipes, j);
    }
  }

  /** The child's end takes the place of the stream and is closed, the parent's is kept from programs. */
  lemma PipeWired(t0: Table, t: Table, pipes: seq<int>, enable: seq<bool>, i: nat, n: nat, c: nat, u: Table,
                  less: seq<int>, v: Table)
    requires Piped(t0, t, pipes, enable, i, n) && c == (if i == 0 then 0 else 2 * i + 1) && less == pipes[c := -1]
    requires u == t.(open := t.open[i := Entry(t.open[pipes[c]].file, false)] - {pipes[c]})
    requires v == Opened(u, ParentEnd(less, i), u.open[ParentEnd(less, i)].(cloexec := true))
    requires enable[i]
    ensures Holding(t0, u, less) && WiredUpTo(t0, v, less, enable, i + 1)
  {
    var w := Opened(t, i, Entry(t.open[pipes[c]].file, false));
    HoldingStream(t0, t, pipes, i, Entry(t.open[pipes[c]].file, false), w);
    HoldingLess(t0, w, pipes, c, u, less);
    HoldingFlag(t0, u, less, if i == 0 then 1 else 2 * i, v);
    forall j: nat | j < 3 && j != i
      ensures if j < i then Wired(t0, v, less, j, enable[j]) else Untouched(t0, v, less, j)
    {
      OtherStream(t0, t, pipes, enable, i, n, j);
    }
  }

  /** The ends of the new pipe are none of the descriptors that another stream uses. */
  lemma OtherStream(t0: Table, t: Table, pipes: seq<int>, enable: seq<bool>, i: nat, n: nat, j: nat)
    requires Piped(t0, t, pipes, enable, i, n) && j < 3 && j != i
    ensures if j < i then Wired(t0, t, pipes, j, enable[j]) else Untouched(t0, t, pipes, j)
    ensures j !in {ParentEnd(pipes, i), ChildEnd(pipes, i)}
    ensures ParentEnd(pipes, j) >= 0 ==> ParentEnd(pipes, j) !in {i, ParentEnd(pipes, i), ChildEnd(pipes, i)}
  {
  }

  lemma NullWired(t0: Table, t: Table, pipes: seq<int>, enable: seq<bool>, i: nat, u: Table)
    requires i < 3 && WiredUpTo(t0, t, pipes, enable, i) && !enable[i]
    requires u == Table(t.open[i := Entry(Node(t.next), false)], t.next + 1)
    ensures WiredUpTo(t0, u, pipes, enable, i + 1)
  {
    assert Untouched(t0, t, pipes, i);
    HoldingStream(t0, t.(next := t.next + 1), pipes, i, Entry(Node(t.next), false), u);
    forall j: nat | j < 3 && j != i
      ensures if j < i then Wired(t0, u, pipes, j, enable[j]) else Untouched(t0, u, pipes, j)
    {
      assert if j < i then Wired(t0, t, pipes, j, enable[j]) else Untouched(t0, t, pipes, j);
    }
  }

  method WireStream(os: Kernel, ghost t0: Table, pipes: seq<int>, enable: seq<bool>, i: nat)
    returns (ok: bool, ends: seq<int>)
    requires i < 3 && WiredUpTo(t0, os.fds, pipes, enable, i)
    modifies os`fds
    ensures |ends| == 6
    ensures if ok then WiredUpTo(t0, os.fds, ends, enable, i + 1) else Holding(t0, os.fds, ends)
  {
    ghost var t := os.fds;
    assert Untouched(t0, t, pipes, i);
    ends := pipes;
    if !enable[i] {
      ok := DevNull(os, i);
      if ok {
        NullWired(t0, t, pipes, enable, i, os.fds);
      }
    } else {
      ok, ends := WirePipe(os, t0, pipes, enable, i);
    }
  }

  method WirePipe(os: Kernel, ghost t0: Table, pipes: seq<int>, enable: seq<bool>, i: nat)
    returns (ok: bool, ends: seq<int>)
    requires i < 3 && WiredUpTo(t0, os.fds, pipes, enable, i) && enable[i]
    modifies os`fds
    ensures |ends| == 6
    ensures if ok then WiredUpTo(t0, os.fds, ends, enable, i + 1) else Holding(t0, os.fds, ends)
  {
    ghost var t := os.fds;
    var r, w := os.MakePipe();
    ends := pipes;
    if r == -1 {
      return false, ends;
    }
    ends := pipes[2 * i := r][2 * i + 1 := w];
    ghost var made, both := os.fds, ends;
    PipeMade(t0, t, pipes, enable, i, r, w, made, both);
    ok := os.Dup2(ChildEnd(ends, i), i);
    if ok {
      var c := if i == 0 then 0 else 2 * i + 1;
      os.Close(ends[c]);
      ends := ends[c := -1];
      ghost var u := os.fds;
      ghost var v := Opened(u, ParentEnd(ends, i), u.open[ParentEnd(ends, i)].(cloexec := true));
      PipeWired(t0, made, both, enable, i, t.next, c, u, ends, v);
      ok := os.SetCloexec(ParentEnd(ends, i));
    }
  }

  method WireAll(os: Kernel, enable: seq<bool>) returns (ok: bool, pipes: seq<int>)
    requires |enable| == 3 && Sane(os.fds) && forall i :: 0 <= i < 3 ==> i in os.fds.open
    modifies os`fds
    ensures |pipes| == 6
    ensures if ok then WiredUpTo(old(os.fds), os.fds, pipes, enable, 3) else Holding(old(os.fds), os.fds, pipes)
  {
    ghost var t0 := os.fds;
    pipes := [-1, -1, -1, -1, -1, -1];
    ok, pipes := WireStream(os, t0, pipes, enable, 0);
    if ok {
      ok, pipes := WireStream(os, t0, pipes, enable, 1);
    }
    if ok {
      ok, pipes := WireStream(os, t0, pipes, enable, 2);
    }
  }

  // ----- putting back and closing

  /** The standard descriptors after they have been put back, in this order. */
  function PutBack(t: Table, std: seq<int>): (r: Table)
    requires |std| == 3 && forall i :: 0 <= i < 3 ==> std[i] in t.open
    ensures r.open.Keys == t.open.Keys + {0, 1, 2} && r.next == t.next
  {
    var t1 := Opened(t, 0, Entry(t.open[std[0]].file, false));
    var t2 := Opened(t1, 1, Entry(t1.open[std[1]].file, false));
    Opened(t2, 2, Entry(t2.open[std[2]].file, false))
  }

  lemma HoldingPutBack(base: Table, t: Table, held: seq<int>, std: seq<int>)
    requires |std| == 3 && Holding(base, t, held) && forall i :: 0 <= i < 3 ==> std[i] in t.open && i in t.open
    ensures Holding(base, PutBack(t, std), held)
  {
    var t1 := Opened(t, 0, Entry(t.open[std[0]].file, false));
    var t2 := Opened(t1, 1, Entry(t1.open[std[1]].file, false));
    SaneAt(t, std[0]);
    SaneAt(t1, std[1]);
    SaneAt(t2, std[2]);
    HoldingStream(base, t, held, 0, Entry(t.open[std[0]].file, false), t1);
    HoldingStream(base, t1, held, 1, Entry(t1.open[std[1]].file, false), t2);
    HoldingStream(base, t2, held, 2, Entry(t2.open[std[2]].file, false), PutBack(t, std));
  }

  lemma HoldingBoth(base: Table, t0: Table, t: Table, std: seq<int>, pipes: seq<int>)
    requires Holding(base, t0, std) && Holding(t0, t, pipes)
    ensures Holding(base, t, std + pipes)
  {
    var held := std + pipes;
    forall x | x in std || x in pipes ensures x in held {
    }
    forall i, j | 0 <= i < j < |held| && held[i] >= 0 ensures held[i] != held[j] {
    }
  }

  /** With all three descriptors open at the start the streams come back. */
  lemma StreamsRestored(base: Table, t0: Table, t: Table, std: seq<int>, pipes: seq<int>)
    requires Backed(base, t0, std) && Holding(t0, t, pipes) && 0 in base.open && 1 in base.open && 2 in base.open
    ensures Cleared(base, PutBack(t, std))
  {
  }

  /** Otherwise a copy of standard input took the place of the missing one, and is lost with it. */
  lemma InputLost(base: Table, t0: Table, t: Table, std: seq<int>, pipes: seq<int>, enable: seq<bool>)
    requires Backed(base, t0, std) && WiredUpTo(t0, t, pipes, enable, 3) && 0 in base.open
    requires !(1 in base.open && 2 in base.open)
    ensures PutBack(t, std).open[0].file != base.open[0].file
  {
    assert Wired(t0, t, pipes, std[0], enable[std[0]]);
  }

  method CloseOne(os: Kernel, fd: int)
    requires fd >= 0 ==> fd in os.fds.open
    modifies os`fds
    ensures os.fds == old(os.fds).(open := old(os.fds.open) - if fd >= 0 then {fd} else {})
  {
    if fd >= 0 {
      os.Close(fd);
    } else {
      assert os.fds.open - {} == os.fds.open;
    }
  }

  function Descriptors(held: seq<int>): set<int> {
    set fd | fd in held && fd >= 0
  }

  method CloseAll(os: Kernel, held: seq<int>)
    requires Distinct(held) && forall k :: 0 <= k < |held| && held[k] >= 0 ==> held[k] in os.fds.open
    modifies os`fds
    ensures os.fds == old(os.fds).(open := old(os.fds.open) - Descriptors(held))
  {
    for i := 0 to |held|
      invariant os.fds == old(os.fds).(open := old(os.fds.open) - Descriptors(held[..i]))
    {
      assert held[..i + 1] == held[..i] + [held[i]];
      assert Descriptors(held[..i + 1]) == Descriptors(held[..i]) + if held[i] >= 0 then {held[i]} else {};
      assert held[i] >= 0 ==> held[i] !in Descriptors(held[..i]);
      CloseOne(os, held[i]);
    }
    assert held[..|held|] == held;
  }

  predicate SameEntries(base: Table, t: Table, u: Table) {
    forall fd :: fd in base.open ==> fd in t.open && fd in u.open && u.open[fd] == t.open[fd]
  }

  lemma ClearedStays(base: Table, t: Table, u: Table)
    requires Cleared(base, t) && SameEntries(base, t, u)
    ensures Cleared(base, u) && SameStreams(base, u)
  {
  }

  lemma LostStays(base: Table, t: Table, u: Table)
    requires 0 in base.open && SameEntries(base, t, u) && t.open[0].file != base.open[0].file
    ensures !SameStreams(base, u)
  {
  }

  /** Closing what is held on top of base leaves base. */
  lemma AllClosed(base: Table, t: Table, held: seq<int>, u: Table)
    requires Holding(base, t, held) && u == t.(open := t.open - Descriptors(held))
    ensures Holding(base, u, []) && SameEntries(base, t, u)
  {
    forall fd | fd in Descriptors(held) ensures fd !in base.open {
      var k :| 0 <= k < |held| && held[k] == fd;
    }
  }

  /** Everything held is open, and only once. */
  lemma MayClose(base: Table, t: Table, std: seq<int>, pipes: seq<int>)
    requires Holding(base, t, std + pipes)
    ensures Distinct(std + pipes) && Distinct(std)
    ensures forall k :: 0 <= k < |std + pipes| && (std + pipes)[k] >= 0 ==> (std + pipes)[k] in t.open
    ensures forall k :: 0 <= k < |std| && std[k] >= 0 ==> std[k] in t.open
  {
    var held := std + pipes;
    forall k | 0 <= k < |std| ensures std[k] == held[k] {
    }
  }

  method RestoreAll(os: Kernel, std: seq<int>)
    requires |std| == 3 && forall i :: 0 <= i < 3 ==> std[i] in os.fds.open
    modifies os`fds
    ensures os.fds == PutBack(old(os.fds), std)
  {
    os.Restore(std[0], 0);
    os.Restore(std[1], 1);
    os.Restore(std[2], 2);
  }

  // ----- the process

  datatype Outcome = Started | AlreadyRunning | Failed

  /** The child has its standard streams, whose other ends the parent holds, and what base passes on. */
  predicate Launched(base: Table, t: Table, stream: seq<int>, enable: seq<bool>, child: map<int, File>) {
    |stream| == 3 && |enable| == 3 &&
    child.Keys == {0, 1, 2} + (set fd | fd in base.open && fd > 2 && !base.open[fd].cloexec) &&
    (forall fd :: fd in child && fd > 2 ==> child[fd] == base.open[fd].file) &&
    forall i :: 0 <= i < 3 ==> Connected(t, stream[i], i, enable[i], child)
  }

  predicate Connected(t: Table, fd: int, i: int, enabled: bool, child: map<int, File>) {
    i in child &&
    if enabled then
      child[i] == Pipe(child[i].id, i != 0) && fd >= 0 && fd in t.open &&
      t.open[fd] == Entry(Pipe(child[i].id, i == 0), true)
    else child[i].Node? && fd == -1
  }

  function ParentEnds(pipes: seq<int>): seq<int>
    requires |pipes| == 6
  {
    [pipes[1], pipes[2], pipes[4]]
  }

  /** Closing the copies leaves base and the parent's ends. */
  lemma CopiesClosed(base: Table, t: Table, std: seq<int>, pipes: seq<int>, u: Table)
    requires |std| == 3 && |pipes| == 6 && Holding(base, t, std + pipes) && u == t.(open := t.open - Descriptors(std))
    requires pipes[0] == pipes[3] == pipes[5] == -1
    ensures Holding(base, u, ParentEnds(pipes)) && SameEntries(base, t, u)
  {
    var held := std + pipes;
    assert held[..3] == std && held[3..] == pipes;
    forall fd | fd in std && fd >= 0 ensures fd !in base.open && fd !in pipes {
      var k :| 0 <= k < 3 && held[k] == fd;
    }
    forall k | 0 <= k < 6 && pipes[k] >= 0 ensures pipes[k] !in base.open && pipes[k] in u.open {
      assert held[k + 3] == pipes[k];
    }
    forall fd | fd in u.open && fd !in base.open ensures fd in ParentEnds(pipes) {
      var k :| 0 <= k < 9 && held[k] == fd;
      assert pipes[k - 3] == fd;
    }
  }

  /** A program started at this point gets no copy and no end of a pipe that is the parent's. */
  lemma ChildInherits(base: Table, t0: Table, t: Table, std: seq<int>, pipes: seq<int>, enable: seq<bool>, u: Table)
    requires Backed(base, t0, std) && WiredUpTo(t0, t, pipes, enable, 3)
    requires 0 in base.open && 1 in base.open && 2 in base.open
    requires u == PutBack(t, std).(open := PutBack(t, std).open - Descriptors(std))
    ensures Launched(base, u, ParentEnds(pipes), enable, Inherited(t))
  {
    assert |enable| == 3 && |pipes| == 6;
    hide Backed, WiredUpTo, Holding, Inherited, Connected;
    ChildConnected(base, t0, t, std, pipes, enable, u, 0);
    ChildConnected(base, t0, t, std, pipes, enable, u, 1);
    ChildConnected(base, t0, t, std, pipes, enable, u, 2);
    ChildHasOnly(base, t0, t, std, pipes, enable);
  }

  lemma ChildConnected(base: Table, t0: Table, t: Table, std: seq<int>, pipes: seq<int>, enable: seq<bool>, u: Table,
                       i: nat)
    requires Backed(base, t0, std) && WiredUpTo(t0, t, pipes, enable, 3) && i < 3
    requires u == PutBack(t, std).(open := PutBack(t, std).open - Descriptors(std))
    ensures Connected(u, ParentEnd(pipes, i), i, enable[i], Inherited(t))
  {
    assert Wired(t0, t, pipes, i, enable[i]);
    if enable[i] {
      ParentEndKept(base, t0, t, std, pipes, ParentEnd(pipes, i));
    }
  }

  lemma ChildHasOnly(base: Table, t0: Table, t: Table, std: seq<int>, pipes: seq<int>, enable: seq<bool>)
    requires Backed(base, t0, std) && WiredUpTo(t0, t, pipes, enable, 3)
    requires 0 in base.open && 1 in base.open && 2 in base.open
    ensures Inherited(t).Keys == {0, 1, 2} + (set fd | fd in base.open && fd > 2 && !base.open[fd].cloexec)
    ensures forall fd :: fd in Inherited(t) && fd > 2 ==> Inherited(t)[fd] == base.open[fd].file
  {
    hide Backed, WiredUpTo, Holding;
    forall fd
      ensures fd in Inherited(t) <==> 0 <= fd < 3 || (fd in base.open && fd > 2 && !base.open[fd].cloexec)
      ensures fd in Inherited(t) && fd > 2 ==> Inherited(t)[fd] == base.open[fd].file
    {
      ChildHas(base, t0, t, std, pipes, enable, fd);
    }
  }

  lemma ChildHas(base: Table, t0: Table, t: Table, std: seq<int>, pipes: seq<int>, enable: seq<bool>, fd: int)
    requires Backed(base, t0, std) && WiredUpTo(t0, t, pipes, enable, 3)
    requires 0 in base.open && 1 in base.open && 2 in base.open
    ensures fd in Inherited(t) <==> 0 <= fd < 3 || (fd in base.open && fd > 2 && !base.open[fd].cloexec)
    ensures fd > 2 && fd in base.open ==> fd in t.open && t.open[fd] == base.open[fd]
  {
    if 0 <= fd < 3 {
      assert Wired(t0, t, pipes, fd, enable[fd]);
    } else if fd in t.open && fd !in base.open {
      NotInherited(base, t0, t, std, pipes, enable, fd);
    }
  }

  lemma ParentEndKept(base: Table, t0: Table, t: Table, std: seq<int>, pipes: seq<int>, p: int)
    requires Backed(base, t0, std) && Holding(t0, t, pipes) && p in pipes && p >= 0
    ensures p in t.open && p !in std && p > 2 && PutBack(t, std).open[p] == t.open[p]
  {
    var k :| 0 <= k < |pipes| && pipes[k] == p;
    assert p !in t0.open;
    assert 0 in t0.open && 1 in t0.open && 2 in t0.open;
  }

  lemma NotInherited(base: Table, t0: Table, t: Table, std: seq<int>, pipes: seq<int>, enable: seq<bool>, fd: int)
    requires Backed(base, t0, std) && WiredUpTo(t0, t, pipes, enable, 3) && fd in t.open && fd > 2 && fd !in base.open
    ensures t.open[fd].cloexec
  {
    if fd in t0.open {
      var i :| 0 <= i < 3 && std[i] == fd;
    } else {
      var k :| 0 <= k < 6 && pipes[k] == fd;
      assert Wired(t0, t, pipes, k / 2, enable[k / 2]);
    }
  }

  lemma ChildEndsClosed(t0: Table, t: Table, pipes: seq<int>, enable: seq<bool>)
    requires WiredUpTo(t0, t, pipes, enable, 3)
    ensures pipes[0] == pipes[3] == pipes[5] == -1
  {
    assert Wired(t0, t, pipes, 0, enable[0]) && Wired(t0, t, pipes, 1, enable[1]) && Wired(t0, t, pipes, 2, enable[2]);
  }

  lemma HeldThrough(base: Table, t0: Table, t: Table, std: seq<int>, pipes: seq<int>)
    requires Backed(base, t0, std) && Holding(t0, t, pipes)
    ensures forall i :: 0 <= i < 3 ==> std[i] in t.open
    ensures Holding(base, PutBack(t, std), std + pipes)
  {
    HoldingBoth(base, t0, t, std, pipes);
    HoldingPutBack(base, t, std + pipes, std);
  }

  lemma CopiesApart(base: Table, t0: Table, std: seq<int>)
    requires Backed(base, t0, std) && 0 in base.open
    ensures Sane(t0) && 0 !in Descriptors(std)
  {
  }

  class Process {
    const enable: seq<bool>
    var stream: seq<int>
    var pid: int

    constructor (hasIn: bool, hasOut: bool, hasErr: bool)
      ensures enable == [hasIn, hasOut, hasErr] && stream == [-1, -1, -1] && pid == -1
    {
      enable, stream, pid := [hasIn, hasOut, hasErr], [-1, -1, -1], -1;
    }

    predicate Running()
      reads this
    {
      pid != -1 || stream != [-1, -1, -1]
    }

    /** Whatever is refused on the way, every descriptor is accounted for, and the standard streams are
        back in place unless standard output or error was closed at the start while input was open. Those
        that were put back are inherited by programs from then on. */
    method Exec(os: Kernel) returns (outcome: Outcome)
      requires |enable| == 3 && Sane(os.fds)
      modifies this, os
      ensures outcome.AlreadyRunning? <==> old(Running())
      ensures outcome.AlreadyRunning? ==>
        pid == old(pid) && stream == old(stream) && os.fds == old(os.fds) && os.children == old(os.children)
      ensures outcome.Failed? ==> !Running() && os.children == old(os.children) && Holding(old(os.fds), os.fds, [])
      ensures outcome.Failed? && (0 in old(os.fds.open) ==> 1 in old(os.fds.open) && 2 in old(os.fds.open)) ==>
        SameStreams(old(os.fds), os.fds) && (Intact(old(os.fds), os.fds) || Cleared(old(os.fds), os.fds))
      ensures outcome.Started? ==>
        0 in old(os.fds.open) && pid > 0 && pid !in old(os.children) && Holding(old(os.fds), os.fds, stream) &&
        pid in os.children && os.children == old(os.children)[pid := os.children[pid]]
      ensures outcome.Started? ==>
        (SameStreams(old(os.fds), os.fds) <==> 1 in old(os.fds.open) && 2 in old(os.fds.open))
      ensures outcome.Started? && 1 in old(os.fds.open) && 2 in old(os.fds.open) ==>
        Cleared(old(os.fds), os.fds) && Launched(old(os.fds), os.fds, stream, enable, os.children[pid])
    {
      if Running() {
        return AlreadyRunning;
      }
      ghost var base := os.fds;
      var ok, std := Backup(os);
      if !ok {
        ghost var t := os.fds;
        CloseAll(os, std);
        AllClosed(base, t, std, os.fds);
        return Failed;
      }
      outcome := Launch(os, base, std);
    }

    /** The part of Exec that runs with the standard descriptors set aside. */
    method Launch(os: Kernel, ghost base: Table, std: seq<int>) returns (outcome: Outcome)
      requires |enable| == 3 && !Running() && Backed(base, os.fds, std) && 0 in base.open
      modifies this, os
      ensures outcome.Failed? ==> !Running() && os.children == old(os.children) && Holding(base, os.fds, [])
      ensures outcome.Failed? && 1 in base.open && 2 in base.open ==> SameStreams(base, os.fds) && Cleared(base, os.fds)
      ensures outcome.Started? ==>
        pid > 0 && pid !in old(os.children) && Holding(base, os.fds, stream) &&
        pid in os.children && os.children == old(os.children)[pid := os.children[pid]]
      ensures outcome.Started? ==> (SameStreams(base, os.fds) <==> 1 in base.open && 2 in base.open)
      ensures outcome.Started? && 1 in base.open && 2 in base.open ==>
        Cleared(base, os.fds) && Launched(base, os.fds, stream, enable, os.children[pid])
      ensures outcome != AlreadyRunning
    {
      hide Holding, Wired, Launched, Cleared, SameStreams, SameEntries;
      ghost var t0 := os.fds;
      CopiesApart(base, t0, std);
      var ok, pipes := WireAll(os, enable);
      if ok {
        pid := os.Spawn();
      }
      ghost var t := os.fds;
      HeldThrough(base, t0, t, std, pipes);
      RestoreAll(os, std);
      ghost var back := os.fds;
      if 1 in base.open && 2 in base.open {
        StreamsRestored(base, t0, t, std, pipes);
      }
      MayClose(base, back, std, pipes);
      if pid == -1 {
        CloseAll(os, std + pipes);
        AllClosed(base, back, std + pipes, os.fds);
        if 1 in base.open && 2 in base.open {
          ClearedStays(base, back, os.fds);
        }
        return Failed;
      }
      CloseAll(os, std);
      stream := ParentEnds(pipes);
      ChildEndsClosed(t0, t, pipes, enable);
      CopiesClosed(base, back, std, pipes, os.fds);
      if 1 in base.open && 2 in base.open {
        ChildInherits(base, t0, t, std, pipes, enable, os.fds);
        ClearedStays(base, back, os.fds);
      } else {
        InputLost(base, t0, t, std, pipes, enable);
        LostStays(base, back, os.fds);
      }
      outcome := Started;
    }
  }
}
