/** The stream between agent and engine: one write and one read at a time, queued messages in order, and a
    client that replaces a stream after an error. Every critical section is one step, so that writers,
    completions and errors may follow each other in any order. */
module Bireactor {
  import opened Collections

  type Message = int

  /** The fields of a stream, what has been handed to the transport and not come back, and the calls that
      threads have still to make: `starters` of start_write, `readers` of start_read, `errors` of on_error
      and `closers` of shutdown. */
  datatype Reactor = Reactor(queue: seq<Message>, writePending: bool, reading: bool, alive: bool,
    sending: seq<Message>, inFlight: seq<Message>, readsOut: nat,
    starters: nat, readers: nat, errors: nat, closers: nat, broken: bool,
    accepted: seq<Message>, handed: seq<Message>, acked: seq<Message>)

  const NEW: Reactor := Reactor([], false, false, true, [], [], 0, 0, 1, 0, 0, false, [], [], [])

  datatype Step =
    | Write(message: Message)
    | StartWrite
    | HandOver
    | WriteDone(ok: bool)
    | StartRead
    | ReadDone(ok: bool)
    | Report
    | Close

  predicate Enabled(r: Reactor, e: Step) {
    match e
    case Write(_) => true
    case StartWrite => r.starters > 0
    case HandOver => r.sending != []
    case WriteDone(_) => r.inFlight != []
    case StartRead => r.readers > 0
    case ReadDone(_) => r.readsOut > 0
    case Report => r.errors > 0
    case Close => r.closers > 0
  }

  /** What has been taken from the queue for sending and has not been answered. */
  function Outstanding(r: Reactor): seq<Message> {
    r.inFlight + r.sending
  }

  /** At most one write is under way and it is that of the first message; acknowledged and queued messages
      are those accepted, in order; and no message waits without somebody to send it. */
  predicate Writing(r: Reactor) {
    r.acked + r.queue == r.accepted && (r.broken ==> r.writePending) &&
    |Outstanding(r)| == (if r.writePending && !r.broken then 1 else 0) &&
    (r.writePending ==> r.queue != []) && (Outstanding(r) != [] ==> Outstanding(r)[0] == r.queue[0]) &&
    r.handed == r.acked + (if r.broken then [r.queue[0]] else r.inFlight) &&
    (r.alive && r.queue != [] && !r.writePending ==> r.starters > 0)
  }

  predicate Reading(r: Reactor) {
    r.readsOut <= 1 && (r.readsOut > 0 ==> r.reading) && (r.alive && !r.reading ==> r.readers > 0)
  }

  predicate Inv(r: Reactor) {
    Writing(r) && Reading(r)
  }

  function Next(r: Reactor, e: Step): Reactor
    requires Inv(r) && Enabled(r, e)
  {
    match e
    case Write(m) =>
      if r.alive then r.(queue := r.queue + [m], accepted := r.accepted + [m], starters := r.starters + 1) else r
    case StartWrite =>
      var t := r.(starters := r.starters - 1);
      if !r.alive || r.writePending || r.queue == [] then t
      else t.(writePending := true, sending := r.sending + [r.queue[0]])
    case HandOver =>
      r.(sending := r.sending[1..], inFlight := r.inFlight + [r.sending[0]], handed := r.handed + [r.sending[0]])
    case WriteDone(ok) =>
      var t := r.(inFlight := r.inFlight[1..]);
      if !ok then t.(broken := true, errors := r.errors + 1)
      else t.(writePending := false, acked := r.acked + [r.queue[0]], queue := r.queue[1..], starters := r.starters + 1)
    case StartRead =>
      var t := r.(readers := r.readers - 1);
      if !r.alive || r.reading then t else t.(reading := true, readsOut := r.readsOut + 1)
    case ReadDone(ok) =>
      var t := r.(readsOut := r.readsOut - 1);
      if ok then t.(reading := false, readers := r.readers + 1) else t.(errors := r.errors + 1)
    case Report => r.(errors := r.errors - 1, closers := r.closers + 1)
    case Close => r.(closers := r.closers - 1, alive := false)
  }

  lemma WriteKeepsInv(r: Reactor, m: Message)
    requires Inv(r)
    ensures Inv(Next(r, Write(m)))
  {
    assert r.acked + (r.queue + [m]) == (r.acked + r.queue) + [m];
  }

  lemma StartWriteKeepsInv(r: Reactor)
    requires Inv(r) && Enabled(r, StartWrite)
    ensures Inv(Next(r, StartWrite))
  {
  }

  lemma HandOverKeepsInv(r: Reactor)
    requires Inv(r) && Enabled(r, HandOver)
    ensures Inv(Next(r, HandOver))
  {
    assert r.inFlight == [] && r.sending == [r.queue[0]];
    assert r.handed == r.acked && r.acked + [] == r.acked;
  }

  /** What the completion takes off the queue is the message that was under way. */
  lemma WriteDoneKeepsInv(r: Reactor, ok: bool)
    requires Inv(r) && Enabled(r, WriteDone(ok))
    ensures r.inFlight == [r.queue[0]] && Inv(Next(r, WriteDone(ok)))
  {
    assert r.inFlight == [r.queue[0]] && r.sending == [];
    assert r.queue == [r.queue[0]] + r.queue[1..];
    if ok {
      assert r.acked + ([r.queue[0]] + r.queue[1..]) == (r.acked + [r.queue[0]]) + r.queue[1..];
      assert (r.acked + [r.queue[0]]) + [] == r.acked + [r.queue[0]];
    }
  }

  lemma NextKeepsInv(r: Reactor, e: Step)
    requires Inv(r) && Enabled(r, e)
    ensures Inv(Next(r, e))
  {
    match e {
      case Write(m) => WriteKeepsInv(r, m);
      case StartWrite => StartWriteKeepsInv(r);
      case HandOver => HandOverKeepsInv(r);
      case WriteDone(ok) => WriteDoneKeepsInv(r, ok);
      case _ =>
    }
  }

  ghost predicate LegalSteps(r: Reactor, steps: seq<Step>)
    requires Inv(r)
    decreases |steps|
  {
    steps == [] || (Enabled(r, steps[0]) && (NextKeepsInv(r, steps[0]); LegalSteps(Next(r, steps[0]), steps[1..])))
  }

  ghost function After(r: Reactor, steps: seq<Step>): Reactor
    requires Inv(r) && LegalSteps(r, steps)
    decreases |steps|
  {
    if steps == [] then r else NextKeepsInv(r, steps[0]); After(Next(r, steps[0]), steps[1..])
  }

  lemma {:induction false} AfterKeepsInv(r: Reactor, steps: seq<Step>)
    requires Inv(r) && LegalSteps(r, steps)
    ensures Inv(After(r, steps))
    decreases |steps|
  {
    hide Inv;
    if steps != [] {
      NextKeepsInv(r, steps[0]);
      AfterKeepsInv(Next(r, steps[0]), steps[1..]);
    }
  }

  // What the steps alone say about the state after them.

  /** The messages written before the first Close. */
  function Written(steps: seq<Step>): seq<Message> {
    if steps == [] || steps[0].Close? then []
    else (if steps[0].Write? then [steps[0].message] else []) + Written(steps[1..])
  }

  function Times(steps: seq<Step>, e: Step): nat {
    if steps == [] then 0 else (if steps[0] == e then 1 else 0) + Times(steps[1..], e)
  }

  /** What the steps from r to t did to the messages: those written while the stream was alive were accepted, one
      was handed over by each hand-over and acknowledged by each success; a thread was left to start a write by
      each message accepted and each success, and one made its attempt by each start. */
  ghost predicate MessagesFollow(r: Reactor, steps: seq<Step>, t: Reactor) {
    var written := if r.alive then Written(steps) else [];
    t.alive == (r.alive && Times(steps, Close) == 0) && t.accepted == r.accepted + written &&
    |t.handed| == |r.handed| + Times(steps, HandOver) && |t.acked| == |r.acked| + Times(steps, WriteDone(true)) &&
    t.starters + Times(steps, StartWrite) == r.starters + |written| + Times(steps, WriteDone(true))
  }

  /** The same for reads, failures and reports. */
  ghost predicate ReadsFollow(r: Reactor, steps: seq<Step>, t: Reactor) {
    t.readers + Times(steps, StartRead) == r.readers + Times(steps, ReadDone(true)) &&
    t.errors + Times(steps, Report) == r.errors + Times(steps, WriteDone(false)) + Times(steps, ReadDone(false)) &&
    t.closers + Times(steps, Close) == r.closers + Times(steps, Report)
  }

  lemma StepFollows(r: Reactor, e: Step)
    requires Inv(r) && Enabled(r, e)
    ensures MessagesFollow(r, [e], Next(r, e)) && ReadsFollow(r, [e], Next(r, e))
  {
    hide Inv;
    forall x ensures Times([e], x) == if e == x then 1 else 0 {
      assert [e][1..] == [];
    }
    hide Times;
    assert [e][1..] == [] && Written([]) == [];
    assert Written([e]) == if e.Write? then [e.message] else [];
  }

  lemma TimesCons(e: Step, steps: seq<Step>, x: Step)
    ensures Times([e] + steps, x) == Times([e], x) + Times(steps, x)
  {
    assert ([e] + steps)[1..] == steps && [e][1..] == [];
  }

  lemma WrittenCons(e: Step, steps: seq<Step>)
    ensures Written([e] + steps) == if e.Close? then [] else Written([e]) + Written(steps)
  {
    assert ([e] + steps)[1..] == steps && [e][1..] == [];
  }

  lemma MessagesCompose(r: Reactor, e: Step, u: Reactor, steps: seq<Step>, t: Reactor)
    requires MessagesFollow(r, [e], u) && MessagesFollow(u, steps, t)
    ensures MessagesFollow(r, [e] + steps, t)
  {
    hide Times, Written;
    TimesCons(e, steps, Close);
    TimesCons(e, steps, HandOver);
    TimesCons(e, steps, WriteDone(true));
    TimesCons(e, steps, StartWrite);
    OnlyClose(e);
    WrittenCons(e, steps);
    var first := if r.alive then Written([e]) else [];
    ConcatAssociative(r.accepted, first, if u.alive then Written(steps) else []);
    assert (if r.alive then Written([e] + steps) else []) == first + if u.alive then Written(steps) else [];
  }

  lemma OnlyClose(e: Step)
    ensures Times([e], Close) == if e.Close? then 1 else 0
    ensures e.Close? ==> Written([e]) == []
  {
    assert [e][1..] == [];
  }

  lemma ReadsCompose(r: Reactor, e: Step, u: Reactor, steps: seq<Step>, t: Reactor)
    requires ReadsFollow(r, [e], u) && ReadsFollow(u, steps, t)
    ensures ReadsFollow(r, [e] + steps, t)
  {
    hide Times;
    TimesCons(e, steps, StartRead);
    TimesCons(e, steps, ReadDone(true));
    TimesCons(e, steps, ReadDone(false));
    TimesCons(e, steps, WriteDone(false));
    TimesCons(e, steps, Report);
    TimesCons(e, steps, Close);
  }

  lemma {:induction false} AfterFollows(r: Reactor, steps: seq<Step>)
    requires Inv(r) && LegalSteps(r, steps)
    ensures MessagesFollow(r, steps, After(r, steps)) && ReadsFollow(r, steps, After(r, steps))
    decreases |steps|
  {
    if steps == [] {
      assert r.accepted + [] == r.accepted;
    } else {
      var u := Next(r, steps[0]);
      NextKeepsInv(r, steps[0]);
      StepFollows(r, steps[0]);
      hide Inv, Next, MessagesFollow, ReadsFollow;
      AfterFollows(u, steps[1..]);
      assert [steps[0]] + steps[1..] == steps;
      MessagesCompose(r, steps[0], u, steps[1..], After(r, steps));
      ReadsCompose(r, steps[0], u, steps[1..], After(r, steps));
    }
  }

  /** There is a read under way while `reading` is set, unless one has failed. */
  predicate ReadUnderWay(r: Reactor, failed: bool) {
    r.readsOut == (if r.reading && !failed then 1 else 0) && (failed ==> r.reading)
  }

  lemma {:induction false} ReadsAfter(r: Reactor, steps: seq<Step>, failed: bool)
    requires Inv(r) && LegalSteps(r, steps) && ReadUnderWay(r, failed)
    ensures ReadUnderWay(After(r, steps), failed || Times(steps, ReadDone(false)) > 0)
    decreases |steps|
  {
    if steps != [] {
      var now := failed || steps[0] == ReadDone(false);
      hide Inv, Next, ReadUnderWay;
      NextKeepsInv(r, steps[0]);
      StepReads(r, steps[0], failed);
      ReadsAfter(Next(r, steps[0]), steps[1..], now);
    }
  }

  lemma StepReads(r: Reactor, e: Step, failed: bool)
    requires Inv(r) && Enabled(r, e) && ReadUnderWay(r, failed)
    ensures ReadUnderWay(Next(r, e), failed || e == ReadDone(false))
  {
    hide Writing;
  }

  /** Whatever the order of the steps, a stream accepts the messages written before it is closed and hands them
      over in order: the first ones, as many as there were hand-overs, of which as many are acknowledged as there
      were successes, at most one less. One that waits has a thread on its way to send it, and there is at most
      one read under way, exactly one between its start and its end. */
  lemma MessagesInOrder(steps: seq<Step>)
    requires LegalSteps(NEW, steps)
    ensures var r, written := After(NEW, steps), Written(steps);
            var given, done := Times(steps, HandOver), Times(steps, WriteDone(true));
            r.accepted == written && done <= given <= |written| && given <= done + 1 && |r.inFlight| <= 1 &&
            r.handed == written[..given] && r.acked == written[..done] && r.queue == written[done..] &&
            (r.alive <==> Times(steps, Close) == 0) &&
            (r.alive && r.queue != [] && !r.writePending ==> |written| + done > Times(steps, StartWrite)) &&
            r.readsOut == if r.reading && Times(steps, ReadDone(false)) == 0 then 1 else 0
  {
    AfterKeepsInv(NEW, steps);
    var r := After(NEW, steps);
    AfterFollows(NEW, steps);
    ReadsAfter(NEW, steps, false);
    Prefixes(r);
    hide Times, Written, LegalSteps, After, Writing;
    assert r.accepted == Written(steps);
  }

  lemma Prefixes(r: Reactor)
    requires Writing(r)
    ensures |r.acked| <= |r.handed| <= |r.accepted| && |r.handed| <= |r.acked| + 1 && |r.inFlight| <= 1
    ensures r.handed == r.accepted[..|r.handed|] && r.acked == r.accepted[..|r.acked|]
    ensures r.queue == r.accepted[|r.acked|..]
    ensures r.alive && r.queue != [] && !r.writePending ==> r.starters > 0
  {
    if r.queue != [] {
      assert r.queue == [r.queue[0]] + r.queue[1..];
      assert r.accepted[|r.acked|] == r.queue[0];
    }
  }

  // ----- the methods of a stream

  class Stream {
    var queue: seq<Message>
    var writePending: bool
    var reading: bool
    var alive: bool
    ghost var transport: Reactor

    /** The fields, with what the transport and the other threads have in hand. */
    ghost function View(): Reactor
      reads this
    {
      transport.(queue := queue, writePending := writePending, reading := reading, alive := alive)
    }

    constructor ()
      ensures View() == NEW
    {
      queue, writePending, reading, alive := [], false, false, true;
      transport := NEW;
    }

    method Write(m: Message)
      requires Inv(View())
      modifies this
      ensures View() == Next(old(View()), Step.Write(m)) && Inv(View())
      ensures alive == old(alive) && queue == old(queue) + if alive then [m] else []
    {
      NextKeepsInv(View(), Step.Write(m));
      if alive {
        queue := queue + [m];
        transport := transport.(accepted := transport.accepted + [m], starters := transport.starters + 1);
      }
    }

    method StartWrite() returns (toSend: seq<Message>)
      requires Inv(View()) && Enabled(View(), Step.StartWrite)
      modifies this
      ensures View() == Next(old(View()), Step.StartWrite) && Inv(View())
      ensures View().sending == old(View().sending) + toSend
    {
      NextKeepsInv(View(), Step.StartWrite);
      hide Inv;
      toSend := [];
      if alive && !writePending && queue != [] {
        toSend := [queue[0]];
        writePending := true;
      }
      transport := transport.(starters := transport.starters - 1, sending := transport.sending + toSend);
    }

    method OnWriteDone(ok: bool)
      requires Inv(View()) && Enabled(View(), WriteDone(ok))
      modifies this
      ensures View() == Next(old(View()), WriteDone(ok)) && Inv(View())
    {
      NextKeepsInv(View(), WriteDone(ok));
      transport := transport.(inFlight := transport.inFlight[1..]);
      if ok {
        transport := transport.(acked := transport.acked + [queue[0]], starters := transport.starters + 1);
        writePending := false;
        queue := queue[1..];
      } else {
        transport := transport.(broken := true, errors := transport.errors + 1);
      }
    }

    method StartRead()
      requires Inv(View()) && Enabled(View(), Step.StartRead)
      modifies this
      ensures View() == Next(old(View()), Step.StartRead) && Inv(View())
    {
      NextKeepsInv(View(), Step.StartRead);
      transport := transport.(readers := transport.readers - 1);
      if alive && !reading {
        reading := true;
        transport := transport.(readsOut := transport.readsOut + 1);
      }
    }

    method OnReadDone(ok: bool)
      requires Inv(View()) && Enabled(View(), ReadDone(ok))
      modifies this
      ensures View() == Next(old(View()), ReadDone(ok)) && Inv(View())
    {
      NextKeepsInv(View(), ReadDone(ok));
      transport := transport.(readsOut := transport.readsOut - 1);
      if ok {
        reading := false;
        transport := transport.(readers := transport.readers + 1);
      } else {
        transport := transport.(errors := transport.errors + 1);
      }
    }
  }

  // ----- the client

  /** The streams created so far, the one in use or -1, the timers set to create another, and whether the
      client has been shut down. */
  datatype Client = Client(streams: map<nat, Reactor>, current: int, reconnects: nat, next: nat, stopped: bool)

  const HELLO: Message := 0

  /** A new stream reads and has the introduction to send. */
  const OPENED: Reactor := NEW.(queue := [HELLO], accepted := [HELLO], starters := 1)

  function Dead(c: Client, id: nat): Client
    requires id in c.streams
  {
    c.(streams := c.streams[id := c.streams[id].(alive := false)])
  }

  function Create(c: Client): Client
    requires c.current == -1 || c.current in c.streams
  {
    var d := if c.current != -1 then Dead(c, c.current) else c;
    d.(streams := d.streams[c.next := OPENED], current := c.next, next := c.next + 1)
  }

  datatype Event =
    | Sent(message: Message)
    | Stepped(stream: nat, step: Step)
    | Failed(stream: nat)
    | Reconnected
    | Stopped

  predicate Valid(c: Client) {
    (forall id :: id in c.streams ==> id < c.next && Inv(c.streams[id])) &&
    c.reconnects == (if c.current == -1 then 1 else 0) &&
    (c.current != -1 ==>
      c.current in c.streams && c.streams[c.current].closers == 0 && (c.stopped || c.streams[c.current].alive))
  }

  predicate Legal(c: Client, e: Event) {
    match e
    case Sent(_) => true
    case Stepped(id, step) => id in c.streams && !step.Write? && !step.Report? && Enabled(c.streams[id], step)
    case Failed(id) => id in c.streams && Enabled(c.streams[id], Report)
    case Reconnected => c.reconnects > 0
    case Stopped => true
  }

  function Apply(c: Client, e: Event): Client
    requires Valid(c) && Legal(c, e)
  {
    match e
    case Sent(m) =>
      if c.current == -1 then c else c.(streams := c.streams[c.current := Next(c.streams[c.current], Write(m))])
    case Stepped(id, step) => c.(streams := c.streams[id := Next(c.streams[id], step)])
    case Failed(id) =>
      var d := c.(streams := c.streams[id := Next(c.streams[id], Report)]);
      if id == c.current then d.(current := -1, reconnects := d.reconnects + 1) else d
    case Reconnected => Create(c.(reconnects := c.reconnects - 1))
    case Stopped => (if c.current != -1 then Dead(c, c.current) else c).(stopped := true)
  }

  lemma ApplyKeepsValid(c: Client, e: Event)
    requires Valid(c) && Legal(c, e)
    ensures Valid(Apply(c, e))
  {
    hide Inv;
    match e {
      case Sent(m) => if c.current != -1 { NextKeepsInv(c.streams[c.current], Write(m)); }
      case Stepped(id, step) =>
        NextKeepsInv(c.streams[id], step);
      case Failed(id) => NextKeepsInv(c.streams[id], Report);
      case Reconnected => OpenedIsFine();
      case Stopped => if c.current != -1 { DeathKeepsInv(c.streams[c.current]); }
    }
  }

  lemma OpenedIsFine()
    ensures Inv(OPENED) && Inv(NEW)
  {
  }

  lemma DeathKeepsInv(r: Reactor)
    requires Inv(r)
    ensures Inv(r.(alive := false))
  {
  }

  ghost predicate LegalRun(c: Client, run: seq<Event>)
    requires Valid(c)
    decreases |run|
  {
    run == [] || (Legal(c, run[0]) && (ApplyKeepsValid(c, run[0]); LegalRun(Apply(c, run[0]), run[1..])))
  }

  ghost function AfterRun(c: Client, run: seq<Event>): Client
    requires Valid(c) && LegalRun(c, run)
    decreases |run|
  {
    if run == [] then c else ApplyKeepsValid(c, run[0]); AfterRun(Apply(c, run[0]), run[1..])
  }

  lemma {:induction false} RunKeepsValid(c: Client, run: seq<Event>)
    requires Valid(c) && LegalRun(c, run)
    ensures Valid(AfterRun(c, run))
    decreases |run|
  {
    hide Valid;
    if run != [] {
      ApplyKeepsValid(c, run[0]);
      RunKeepsValid(Apply(c, run[0]), run[1..]);
    }
  }

  predicate Up(c: Client) {
    c.current in c.streams && c.streams[c.current].alive
  }

  const STARTED: Client := Client(map[0 := OPENED], 0, 0, 1, false)

  /** Until it is shut down a client has a live stream, or exactly one timer set to create one. */
  lemma LiveOrReconnecting(run: seq<Event>)
    ensures Valid(STARTED)
    ensures LegalRun(STARTED, run) ==>
            var c := AfterRun(STARTED, run);
            !c.stopped ==> (c.reconnects == 0 && Up(c)) || (c.reconnects == 1 && c.current == -1)
  {
    if LegalRun(STARTED, run) {
      RunKeepsValid(STARTED, run);
    }
  }

  /** The streams whose failure set a timer, in order. */
  ghost function Lost(c: Client, run: seq<Event>): seq<nat>
    requires Valid(c) && LegalRun(c, run)
    decreases |run|
  {
    if run == [] then []
    else
      ApplyKeepsValid(c, run[0]);
      var d := Apply(c, run[0]);
      var culprit := if run[0].Failed? then run[0].stream else c.next;
      (if d.reconnects > c.reconnects then [culprit] else []) + Lost(d, run[1..])
  }

  /** The stream in use, if any, is the last one created. */
  predicate UsesLast(c: Client) {
    c.next > 0 && (c.current != -1 ==> c.current == c.next - 1)
  }

  /** How many streams have been created and are no longer in use. */
  function Losses(c: Client): nat
    requires UsesLast(c)
  {
    if c.current == -1 then c.next else c.next - 1
  }

  lemma {:induction false} RunLoses(c: Client, run: seq<Event>)
    requires Valid(c) && UsesLast(c) && LegalRun(c, run)
    ensures var d := AfterRun(c, run);
            UsesLast(d) && |Lost(c, run)| == Losses(d) - Losses(c) &&
            forall k :: 0 <= k < |Lost(c, run)| ==> Lost(c, run)[k] == Losses(c) + k
    decreases |run|
  {
    hide Inv, Next, Enabled;
    if run != [] {
      ApplyKeepsValid(c, run[0]);
      RunLoses(Apply(c, run[0]), run[1..]);
    }
  }

  /** Over every run, each stream sets one timer, when it fails while in use, and in turn: those of which a
      failure has set a timer are exactly the streams created before the one in use, or all of them while a timer
      is set. Failures of a stream no longer in use set none. */
  lemma EveryStreamIsLostOnce(run: seq<Event>)
    ensures Valid(STARTED)
    ensures LegalRun(STARTED, run) ==>
            var c := AfterRun(STARTED, run);
            |Lost(STARTED, run)| == c.next - (1 - c.reconnects) &&
            forall k :: 0 <= k < |Lost(STARTED, run)| ==> Lost(STARTED, run)[k] == k
  {
    if LegalRun(STARTED, run) {
      RunKeepsValid(STARTED, run);
      RunLoses(STARTED, run);
    }
  }

  /** The messages sent while the stream was in use and alive. */
  ghost function SentTo(c: Client, run: seq<Event>, id: nat): seq<Message>
    requires Valid(c) && LegalRun(c, run)
    decreases |run|
  {
    if run == [] then []
    else
      ApplyKeepsValid(c, run[0]);
      Gives(c, run[0], id) + SentTo(Apply(c, run[0]), run[1..], id)
  }

  /** The message that an event gives to the stream, if any. */
  function Gives(c: Client, e: Event, id: nat): seq<Message> {
    if e.Sent? && c.current == id && id in c.streams && c.streams[id].alive then [e.message] else []
  }

  function AcceptedBy(c: Client, id: nat): seq<Message> {
    if id in c.streams then c.streams[id].accepted else [HELLO]
  }

  lemma {:induction false} RunAccepts(c: Client, run: seq<Event>, id: nat)
    requires Valid(c) && LegalRun(c, run)
    ensures AcceptedBy(AfterRun(c, run), id) == AcceptedBy(c, id) + SentTo(c, run, id)
    decreases |run|
  {
    if run == [] {
      assert AcceptedBy(c, id) + [] == AcceptedBy(c, id);
    } else {
      ApplyKeepsValid(c, run[0]);
      StepAccepts(c, run[0], id);
      var d := Apply(c, run[0]);
      hide Valid, Legal, Apply, AcceptedBy, Gives;
      RunAccepts(d, run[1..], id);
      ConcatAssociative(AcceptedBy(c, id), Gives(c, run[0], id), SentTo(d, run[1..], id));
    }
  }

  lemma StepAccepts(c: Client, e: Event, id: nat)
    requires Valid(c) && Legal(c, e)
    ensures AcceptedBy(Apply(c, e), id) == AcceptedBy(c, id) + Gives(c, e, id)
  {
    hide Inv, Enabled;
    assert AcceptedBy(c, id) + [] == AcceptedBy(c, id);
  }

  /** Over every run, each stream has accepted the introduction and then exactly the messages sent while it was in
      use and alive, in order. */
  lemma MessagesGoToTheStreamInUse(run: seq<Event>, id: nat)
    ensures Valid(STARTED)
    ensures LegalRun(STARTED, run) && id in AfterRun(STARTED, run).streams ==>
              AfterRun(STARTED, run).streams[id].accepted == [HELLO] + SentTo(STARTED, run, id)
  {
    if LegalRun(STARTED, run) {
      RunAccepts(STARTED, run, id);
    }
  }

  // ----- after a shutdown

  /** Something is under way on the stream that can still fail, or a failure has still to be reported. */
  predicate MayFail(r: Reactor) {
    r.readsOut > 0 || Outstanding(r) != [] || r.errors > 0
  }

  /** Shut down, with the stream in use closed and nothing under way on it. */
  ghost predicate Down(c: Client) {
    Valid(c) && c.stopped && c.current != -1 && !c.streams[c.current].alive && !MayFail(c.streams[c.current])
  }

  lemma StepStaysQuiet(r: Reactor, e: Step)
    requires Inv(r) && Enabled(r, e) && !r.alive && !MayFail(r)
    ensures !Next(r, e).alive && !MayFail(Next(r, e))
  {
  }

  lemma StaysDown(c: Client, e: Event)
    requires Down(c) && Legal(c, e)
    ensures Down(Apply(c, e))
  {
    hide Inv, MayFail, Next;
    ApplyKeepsValid(c, e);
    var r := c.streams[c.current];
    match e {
      case Sent(m) => StepStaysQuiet(r, Write(m));
      case Stepped(id, step) => if id == c.current { StepStaysQuiet(r, step); }
      case Failed(id) => NothingToReport(r);
      case Reconnected =>
      case Stopped => DeadAlready(c);
    }
  }

  lemma NothingToReport(r: Reactor)
    requires !MayFail(r)
    ensures !Enabled(r, Report)
  {
  }

  lemma DeadAlready(c: Client)
    requires c.current in c.streams && !c.streams[c.current].alive
    ensures Dead(c, c.current) == c
  {
    assert c.streams[c.current := c.streams[c.current].(alive := false)] == c.streams;
  }

  lemma {:induction false} RunStaysDown(c: Client, run: seq<Event>)
    requires Down(c) && LegalRun(c, run)
    ensures !Up(AfterRun(c, run))
    decreases |run|
  {
    if run != [] {
      StaysDown(c, run[0]);
      RunStaysDown(Apply(c, run[0]), run[1..]);
    }
  }

  /** A timer that is set brings a stream back. */
  lemma TimerBringsBack(c: Client) returns (run: seq<Event>)
    requires Valid(c) && c.current == -1
    ensures LegalRun(c, run) && Up(AfterRun(c, run))
  {
    run := [Reconnected];
    ApplyKeepsValid(c, Reconnected);
    EndOfRun(Apply(c, Reconnected));
    OneStep(c, run, Apply(c, Reconnected));
  }

  /** So does an error of the stream in use, once it is reported. */
  lemma ErrorBringsBack(c: Client, id: nat) returns (run: seq<Event>)
    requires Valid(c) && c.current == id && c.streams[id].errors > 0
    ensures LegalRun(c, run) && Up(AfterRun(c, run))
  {
    ApplyKeepsValid(c, Failed(id));
    var rest := TimerBringsBack(Apply(c, Failed(id)));
    run := [Failed(id)] + rest;
    OneStep(c, run, AfterRun(Apply(c, Failed(id)), rest));
  }

  /** And so does whatever is under way on it, if it fails. */
  lemma StepBringsBack(c: Client, id: nat, step: Step, rest: seq<Event>) returns (run: seq<Event>)
    requires Valid(c) && Legal(c, Stepped(id, step))
    requires Valid(Apply(c, Stepped(id, step))) && LegalRun(Apply(c, Stepped(id, step)), rest)
    requires Up(AfterRun(Apply(c, Stepped(id, step)), rest))
    ensures LegalRun(c, run) && Up(AfterRun(c, run))
  {
    run := [Stepped(id, step)] + rest;
    OneStep(c, run, AfterRun(Apply(c, Stepped(id, step)), rest));
  }

  lemma FailureBringsBack(c: Client, id: nat, step: Step) returns (run: seq<Event>)
    requires Valid(c) && c.current == id && Enabled(c.streams[id], step)
    requires step == ReadDone(false) || step == WriteDone(false)
    ensures LegalRun(c, run) && Up(AfterRun(c, run))
  {
    ApplyKeepsValid(c, Stepped(id, step));
    var rest := ErrorBringsBack(Apply(c, Stepped(id, step)), id);
    run := StepBringsBack(c, id, step, rest);
  }

  lemma UnderWayBringsBack(c: Client, id: nat) returns (run: seq<Event>)
    requires Valid(c) && c.current == id && MayFail(c.streams[id])
    ensures LegalRun(c, run) && Up(AfterRun(c, run))
  {
    var r := c.streams[id];
    if r.errors > 0 {
      run := ErrorBringsBack(c, id);
    } else if r.readsOut > 0 {
      run := FailureBringsBack(c, id, ReadDone(false));
    } else if r.inFlight != [] {
      run := FailureBringsBack(c, id, WriteDone(false));
    } else {
      ApplyKeepsValid(c, Stepped(id, HandOver));
      var rest := FailureBringsBack(Apply(c, Stepped(id, HandOver)), id, WriteDone(false));
      run := StepBringsBack(c, id, HandOver, rest);
    }
  }

  /** No run brings the client back. */
  ghost predicate Final(c: Client)
    requires Valid(c)
  {
    forall run :: LegalRun(c, run) ==> !Up(AfterRun(c, run))
  }

  lemma NotFinal(c: Client, run: seq<Event>)
    requires Valid(c) && LegalRun(c, run) && Up(AfterRun(c, run))
    ensures !Final(c)
  {
  }

  /** Shutting a client down is final exactly when, at that moment, no timer is set and nothing is under way
      on the stream in use: no read, no write, no error still to be reported. */
  lemma ShutdownIsFinalIff(c: Client)
    requires Valid(c)
    ensures Valid(Apply(c, Stopped))
    ensures Final(Apply(c, Stopped)) <==> c.current != -1 && !MayFail(c.streams[c.current])
  {
    var d := Apply(c, Stopped);
    ApplyKeepsValid(c, Stopped);
    if c.current == -1 {
      var run := TimerBringsBack(d);
      NotFinal(d, run);
    } else if MayFail(c.streams[c.current]) {
      var run := UnderWayBringsBack(d, c.current);
      NotFinal(d, run);
    } else {
      forall run | LegalRun(d, run) ensures !Up(AfterRun(d, run)) {
        RunStaysDown(d, run);
      }
    }
  }

  lemma EndOfRun(c: Client)
    requires Valid(c)
    ensures LegalRun(c, []) && AfterRun(c, []) == c
  {
  }

  lemma OneStep(c: Client, run: seq<Event>, end: Client)
    requires Valid(c) && run != [] && Legal(c, run[0])
    requires Valid(Apply(c, run[0])) && LegalRun(Apply(c, run[0]), run[1..])
    requires AfterRun(Apply(c, run[0]), run[1..]) == end
    ensures LegalRun(c, run) && AfterRun(c, run) == end
  {
  }

  class StreamingClient {
    var streams: map<nat, Reactor>
    var reactor: int
    var next: nat
    ghost var reconnects: nat
    ghost var stopped: bool

    ghost function View(): Client
      reads this
    {
      Client(streams, reactor, reconnects, next, stopped)
    }

    constructor ()
      ensures View() == STARTED && Valid(View())
    {
      streams, reactor, next := map[0 := OPENED], 0, 1;
      reconnects, stopped := 0, false;
      OpenedIsFine();
    }

    method CreateReactor()
      requires reactor != -1 ==> reactor in streams
      modifies this
      ensures View() == Create(old(View()))
      ensures reactor == old(next) && next == old(next) + 1 && reactor in streams && streams[reactor] == OPENED
      ensures old(reactor) != -1 && old(reactor) != old(next) ==>
                old(reactor) in streams && streams[old(reactor)] == old(streams)[old(reactor)].(alive := false)
    {
      if reactor != -1 {
        streams := streams[reactor := streams[reactor].(alive := false)];
      }
      streams := streams[next := OPENED];
      reactor, next := next, next + 1;
    }

    method Send(m: Message)
      requires Valid(View())
      modifies this
      ensures View() == Apply(old(View()), Sent(m)) && Valid(View()) && reactor == old(reactor)
      ensures reactor in streams && streams[reactor].alive ==>
                streams[reactor].queue == old(streams)[reactor].queue + [m]
    {
      ApplyKeepsValid(View(), Sent(m));
      if reactor != -1 {
        streams := streams[reactor := Next(streams[reactor], Write(m))];
      }
    }

    method OnError(caller: nat)
      requires Valid(View()) && Legal(View(), Failed(caller))
      modifies this
      ensures View() == Apply(old(View()), Failed(caller)) && Valid(View())
    {
      ApplyKeepsValid(View(), Failed(caller));
      streams := streams[caller := Next(streams[caller], Report)];
      if caller == reactor {
        reactor := -1;
        reconnects := reconnects + 1;
      }
    }

    method Shutdown()
      requires Valid(View())
      modifies this
      ensures View() == Apply(old(View()), Stopped) && Valid(View())
    {
      hide Inv;
      ApplyKeepsValid(View(), Stopped);
      if reactor != -1 {
        streams := streams[reactor := streams[reactor].(alive := false)];
      }
      stopped := true;
    }
  }
}
