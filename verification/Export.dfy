/** The export requests in which the agent's scheduler batches check results: one resource per
    service, one metric per name in it, found through index maps, and a new request after each send. */
module Export {

  datatype Point = Status(status: int, time: nat) | Perf(value: real, time: nat)
  datatype Metric = Metric(name: string, points: seq<Point>)
  datatype Resource = Resource(service: string, metrics: seq<Metric>)
  type Request = seq<Resource>

  datatype Perfdata = Perfdata(name: string, value: real)
  datatype Result = Result(service: string, status: int, perfs: seq<Perfdata>, now: nat)

  // ----- storing a result, by linear search

  function AddToMetrics(metrics: seq<Metric>, name: string, p: Point): seq<Metric> {
    if metrics == [] then [Metric(name, [p])]
    else if metrics[0].name == name then [metrics[0].(points := metrics[0].points + [p])] + metrics[1..]
    else [metrics[0]] + AddToMetrics(metrics[1..], name, p)
  }

  function AddPoint(r: Request, service: string, name: string, p: Point): Request {
    if r == [] then [Resource(service, [Metric(name, [p])])]
    else if r[0].service == service then [r[0].(metrics := AddToMetrics(r[0].metrics, name, p))] + r[1..]
    else [r[0]] + AddPoint(r[1..], service, name, p)
  }

  function AddPerfs(r: Request, service: string, perfs: seq<Perfdata>, now: nat): Request
    decreases |perfs|
  {
    if perfs == [] then r
    else AddPerfs(AddPoint(r, service, perfs[0].name, Perf(perfs[0].value, now)), service, perfs[1..], now)
  }

  function Store(r: Request, x: Result): Request {
    AddPerfs(AddPoint(r, x.service, "status", Status(x.status, x.now)), x.service, x.perfs, x.now)
  }

  // ----- what a request holds

  function MetricPoints(metrics: seq<Metric>, name: string): seq<Point> {
    if metrics == [] then []
    else if metrics[0].name == name then metrics[0].points
    else MetricPoints(metrics[1..], name)
  }

  /** The points a request holds for one metric of one service. */
  function Points(r: Request, service: string, name: string): seq<Point> {
    if r == [] then []
    else if r[0].service == service then MetricPoints(r[0].metrics, name)
    else Points(r[1..], service, name)
  }

  function PerfPoints(perfs: seq<Perfdata>, name: string, now: nat): seq<Point> {
    if perfs == [] then []
    else (if perfs[0].name == name then [Perf(perfs[0].value, now)] else []) + PerfPoints(perfs[1..], name, now)
  }

  /** The points one result contributes to a metric: its status, and its performance data by name (a
      performance data called "status" lands in the status metric). */
  function Contribution(x: Result, service: string, name: string): seq<Point> {
    if x.service != service then []
    else (if name == "status" then [Status(x.status, x.now)] else []) + PerfPoints(x.perfs, name, x.now)
  }

  lemma {:induction false} AddToMetricsPoints(metrics: seq<Metric>, name: string, p: Point, other: string)
    ensures MetricPoints(AddToMetrics(metrics, name, p), other)
            == MetricPoints(metrics, other) + if other == name then [p] else []
  {
    if metrics != [] && metrics[0].name != name {
      AddToMetricsPoints(metrics[1..], name, p, other);
    }
  }

  lemma {:induction false} AddPointPoints(r: Request, service: string, name: string, p: Point, s: string, n: string)
    ensures Points(AddPoint(r, service, name, p), s, n)
            == Points(r, s, n) + if s == service && n == name then [p] else []
  {
    if r == [] {
      AddToMetricsPoints([], name, p, n);
    } else if r[0].service == service {
      AddToMetricsPoints(r[0].metrics, name, p, n);
    } else {
      AddPointPoints(r[1..], service, name, p, s, n);
    }
  }

  lemma {:induction false} AddPerfsPoints(r: Request, service: string, perfs: seq<Perfdata>, now: nat, s: string,
                                          n: string)
    ensures Points(AddPerfs(r, service, perfs, now), s, n)
            == Points(r, s, n) + if s == service then PerfPoints(perfs, n, now) else []
    decreases |perfs|
  {
    if perfs != [] {
      var p := Perf(perfs[0].value, now);
      AddPointPoints(r, service, perfs[0].name, p, s, n);
      AddPerfsPoints(AddPoint(r, service, perfs[0].name, p), service, perfs[1..], now, s, n);
    }
  }

  /** Storing a result adds its contribution to every metric of every service, and nothing else. */
  lemma StorePoints(r: Request, x: Result, s: string, n: string)
    ensures Points(Store(r, x), s, n) == Points(r, s, n) + Contribution(x, s, n)
  {
    var p := Status(x.status, x.now);
    AddPointPoints(r, x.service, "status", p, s, n);
    AddPerfsPoints(AddPoint(r, x.service, "status", p), x.service, x.perfs, x.now, s, n);
  }

  // ----- every run of results and sends

  datatype Event = Stored(result: Result) | SendTimer

  datatype Exporter = Exporter(sent: seq<Request>, current: Request)

  /** A send hands the current request over, unless it is empty, and starts a new one. */
  function Apply(e: Exporter, event: Event): Exporter {
    match event
    case Stored(x) => e.(current := Store(e.current, x))
    case SendTimer => if e.current == [] then e else Exporter(e.sent + [e.current], [])
  }

  function ApplyAll(events: seq<Event>): Exporter {
    if events == [] then Exporter([], []) else Apply(ApplyAll(events[..|events| - 1]), events[|events| - 1])
  }

  function AllPoints(requests: seq<Request>, s: string, n: string): seq<Point> {
    if requests == [] then []
    else AllPoints(requests[..|requests| - 1], s, n) + Points(requests[|requests| - 1], s, n)
  }

  function Contributions(events: seq<Event>, s: string, n: string): seq<Point> {
    if events == [] then []
    else
      Contributions(events[..|events| - 1], s, n) +
      var e := events[|events| - 1];
      if e.Stored? then Contribution(e.result, s, n) else []
  }

  /** Over every run, the requests sent and the current one together hold, for each metric of each
      service, exactly the points of the results stored, in order: none is lost, repeated or moved. */
  lemma {:induction false} ResultsAreConserved(events: seq<Event>, s: string, n: string)
    ensures var e := ApplyAll(events); AllPoints(e.sent, s, n) + Points(e.current, s, n) == Contributions(events, s, n)
  {
    if events != [] {
      var before := ApplyAll(events[..|events| - 1]);
      ResultsAreConserved(events[..|events| - 1], s, n);
      match events[|events| - 1]
      case Stored(x) =>
        StorePoints(before.current, x, s, n);
      case SendTimer =>
        assert (before.sent + [before.current])[..|before.sent|] == before.sent;
    }
  }

  // Which results go out together.

  /** The results stored since the last send timer. */
  function Open(events: seq<Event>): seq<Result> {
    if events == [] then []
    else match events[|events| - 1]
      case Stored(x) => Open(events[..|events| - 1]) + [x]
      case SendTimer => []
  }

  /** The results stored between one send timer and the next, where there were any. */
  function Batches(events: seq<Event>): seq<seq<Result>> {
    if events == [] then []
    else
      var front := events[..|events| - 1];
      Batches(front) + if events[|events| - 1].SendTimer? && Open(front) != [] then [Open(front)] else []
  }

  function ContributionOfAll(xs: seq<Result>, s: string, n: string): seq<Point> {
    if xs == [] then []
    else ContributionOfAll(xs[..|xs| - 1], s, n) + Contribution(xs[|xs| - 1], s, n)
  }

  /** The request holds the points of these results, per service and metric and in order, and no others; it is
      empty exactly if there are none. */
  ghost predicate HoldsExactly(r: Request, xs: seq<Result>) {
    (r == [] <==> xs == []) && forall s, n :: Points(r, s, n) == ContributionOfAll(xs, s, n)
  }

  lemma AddPointIsSome(r: Request, service: string, name: string, p: Point)
    ensures AddPoint(r, service, name, p) != []
  {
  }

  lemma {:induction false} AddPerfsIsSome(r: Request, service: string, perfs: seq<Perfdata>, now: nat)
    requires r != []
    ensures AddPerfs(r, service, perfs, now) != []
    decreases |perfs|
  {
    if perfs != [] {
      var p := Perf(perfs[0].value, now);
      AddPointIsSome(r, service, perfs[0].name, p);
      AddPerfsIsSome(AddPoint(r, service, perfs[0].name, p), service, perfs[1..], now);
    }
  }

  lemma OneMoreResult(r: Request, xs: seq<Result>, x: Result)
    requires HoldsExactly(r, xs)
    ensures HoldsExactly(Store(r, x), xs + [x])
  {
    var p := Status(x.status, x.now);
    AddPointIsSome(r, x.service, "status", p);
    AddPerfsIsSome(AddPoint(r, x.service, "status", p), x.service, x.perfs, x.now);
    assert (xs + [x])[..|xs|] == xs;
    forall s, n ensures Points(Store(r, x), s, n) == ContributionOfAll(xs + [x], s, n) {
      StorePoints(r, x, s, n);
    }
  }

  /** Over every run: the requests sent are, in order, one for each send timer before which a result was stored
      since the one before it, each with exactly the results stored in between; the current one has those since. */
  lemma {:induction false} EachTimerSendsItsBatch(events: seq<Event>)
    ensures var e, batches := ApplyAll(events), Batches(events);
            |e.sent| == |batches| && HoldsExactly(e.current, Open(events)) &&
            (forall k :: 0 <= k < |batches| ==> batches[k] != [] && HoldsExactly(e.sent[k], batches[k])) &&
            (events != [] && events[|events| - 1].SendTimer? ==> e.current == [])
  {
    if events != [] {
      var front := events[..|events| - 1];
      var before := ApplyAll(front);
      EachTimerSendsItsBatch(front);
      match events[|events| - 1]
      case Stored(x) => OneMoreResult(before.current, Open(front), x);
      case SendTimer =>
    }
  }

  // ----- the index maps

  /** Where a service and its metrics are in the request. */
  datatype Scope = Scope(at: nat, metrics: map<string, nat>)

  ghost predicate MetricsIndexed(metrics: seq<Metric>, index: map<string, nat>) {
    (forall k :: 0 <= k < |metrics| ==> metrics[k].name in index && index[metrics[k].name] == k) &&
    forall name :: name in index ==> index[name] < |metrics| && metrics[index[name]].name == name
  }

  /** The index names exactly the services and metrics of the request, at their places; so each
      service has one resource, and each metric name in it one metric. */
  ghost predicate Indexed(r: Request, index: map<string, Scope>) {
    (forall i :: 0 <= i < |r| ==>
       r[i].service in index && index[r[i].service].at == i &&
       MetricsIndexed(r[i].metrics, index[r[i].service].metrics)) &&
    forall s :: s in index ==> index[s].at < |r| && r[index[s].at].service == s
  }

  lemma {:induction false} AddToMetricsAt(metrics: seq<Metric>, name: string, p: Point, k: nat)
    requires k <= |metrics| && forall i :: 0 <= i < k ==> metrics[i].name != name
    requires k < |metrics| ==> metrics[k].name == name
    ensures AddToMetrics(metrics, name, p)
            == if k == |metrics| then metrics + [Metric(name, [p])]
               else metrics[k := metrics[k].(points := metrics[k].points + [p])]
    decreases k
  {
    if k > 0 {
      AddToMetricsAt(metrics[1..], name, p, k - 1);
    }
  }

  lemma PutFirst(r: Request, x: Resource)
    requires r != []
    ensures [x] + r[1..] == r[0 := x]
  {
  }

  lemma PutLater(r: Request, i: nat, x: Resource)
    requires 0 < i < |r|
    ensures [r[0]] + r[1..][i - 1 := x] == r[i := x]
  {
  }

  lemma {:induction false} AddPointAt(r: Request, service: string, name: string, p: Point, i: nat)
    requires i <= |r| && forall j :: 0 <= j < i ==> r[j].service != service
    requires i < |r| ==> r[i].service == service
    ensures AddPoint(r, service, name, p)
            == if i == |r| then r + [Resource(service, [Metric(name, [p])])]
               else r[i := r[i].(metrics := AddToMetrics(r[i].metrics, name, p))]
    decreases i
  {
    hide AddToMetrics;
    if i == 0 {
      if r != [] {
        PutFirst(r, r[0].(metrics := AddToMetrics(r[0].metrics, name, p)));
      }
    } else {
      AddPointAt(r[1..], service, name, p, i - 1);
      if i < |r| {
        PutLater(r, i, r[i].(metrics := AddToMetrics(r[i].metrics, name, p)));
      }
    }
  }

  lemma PutKeepsIndexed(r: Request, index: map<string, Scope>, at: nat, x: Resource, names: map<string, nat>)
    requires Indexed(r, index) && at < |r| && r[at].service == x.service && MetricsIndexed(x.metrics, names)
    ensures Indexed(r[at := x], index[x.service := Scope(at, names)])
  {
  }

  ghost predicate Findable(r: Request) {
    exists index :: Indexed(r, index)
  }

  lemma AddToMetricsIndexed(metrics: seq<Metric>, index: map<string, nat>, name: string, p: Point)
    returns (names: map<string, nat>)
    requires MetricsIndexed(metrics, index)
    ensures MetricsIndexed(AddToMetrics(metrics, name, p), names)
  {
    var k := if name in index then index[name] else |metrics|;
    names := index[name := k];
    AddToMetricsAt(metrics, name, p, k);
  }

  lemma Located(r: Request, index: map<string, Scope>, service: string) returns (at: nat)
    requires Indexed(r, index) && service in index
    ensures at < |r| && at == index[service].at && r[at].service == service
    ensures MetricsIndexed(r[at].metrics, index[service].metrics)
    ensures forall i :: 0 <= i < at ==> r[i].service != service
  {
    at := index[service].at;
  }

  lemma NewServiceIndexed(r: Request, index: map<string, Scope>, service: string, name: string, p: Point)
    requires Indexed(r, index) && service !in index
    ensures forall i :: 0 <= i < |r| ==> r[i].service != service
    ensures Indexed(r + [Resource(service, [Metric(name, [p])])], index[service := Scope(|r|, map[name := 0])])
  {
  }

  lemma AddPointFindable(r: Request, service: string, name: string, p: Point)
    requires Findable(r)
    ensures Findable(AddPoint(r, service, name, p))
  {
    var index: map<string, Scope> :| Indexed(r, index);
    hide AddToMetrics, AddPoint, MetricsIndexed, Indexed;
    if service in index {
      var at := Located(r, index, service);
      AddPointAt(r, service, name, p, at);
      var names := AddToMetricsIndexed(r[at].metrics, index[service].metrics, name, p);
      PutKeepsIndexed(r, index, at, r[at].(metrics := AddToMetrics(r[at].metrics, name, p)), names);
    } else {
      NewServiceIndexed(r, index, service, name, p);
      AddPointAt(r, service, name, p, |r|);
    }
  }

  lemma {:induction false} AddPerfsFindable(r: Request, service: string, perfs: seq<Perfdata>, now: nat)
    requires Findable(r)
    ensures Findable(AddPerfs(r, service, perfs, now))
    decreases |perfs|
  {
    if perfs != [] {
      var p := Perf(perfs[0].value, now);
      AddPointFindable(r, service, perfs[0].name, p);
      AddPerfsFindable(AddPoint(r, service, perfs[0].name, p), service, perfs[1..], now);
    }
  }

  /** Over every run, each request sent and the current one has one resource per service and one
      metric per name in it: the points found by name are all the points there are. */
  lemma {:induction false} EveryRequestIsFindable(events: seq<Event>)
    ensures var e := ApplyAll(events); Findable(e.current) && forall q :: q in e.sent ==> Findable(q)
  {
    if events == [] {
      assert Indexed([], map[]);
    } else {
      var before := ApplyAll(events[..|events| - 1]);
      EveryRequestIsFindable(events[..|events| - 1]);
      match events[|events| - 1]
      case Stored(x) =>
        var p := Status(x.status, x.now);
        AddPointFindable(before.current, x.service, "status", p);
        AddPerfsFindable(AddPoint(before.current, x.service, "status", p), x.service, x.perfs, x.now);
      case SendTimer =>
        assert Indexed([], map[]);
    }
  }

  /** Finds a metric by name through the index, or creates it, and appends a point to it. */
  method AddToMetric(metrics: seq<Metric>, index: map<string, nat>, name: string, p: Point)
    returns (r: seq<Metric>, names: map<string, nat>)
    requires MetricsIndexed(metrics, index)
    ensures r == AddToMetrics(metrics, name, p) && MetricsIndexed(r, names)
  {
    if name in index {
      AddToMetricsAt(metrics, name, p, index[name]);
      r, names := metrics[index[name] := Metric(name, metrics[index[name]].points + [p])], index;
    } else {
      AddToMetricsAt(metrics, name, p, |metrics|);
      r, names := metrics + [Metric(name, [p])], index[name := |metrics|];
    }
  }

  class Sender {
    var sent: seq<Request>
    var current: Request
    var index: map<string, Scope>

    constructor ()
      ensures Valid() && State() == Exporter([], [])
    {
      sent, current, index := [], [], map[];
    }

    ghost predicate Valid()
      reads this
    {
      Indexed(current, index)
    }

    ghost function State(): Exporter
      reads this
    {
      Exporter(sent, current)
    }

    /** The resource of a service, added to the request at its first use. */
    method GetScopeMetrics(service: string) returns (at: nat)
      requires Valid()
      modifies this`current, this`index
      ensures Valid() && at < |current| && current[at].service == service
      ensures current == if service in old(index) then old(current) else old(current) + [Resource(service, [])]
    {
      if service in index {
        return index[service].at;
      }
      at := |current|;
      current := current + [Resource(service, [])];
      index := index[service := Scope(at, map[])];
    }

    /** Adds a point to a metric of the service, as a linear search of the request would. */
    method AddDataPoint(service: string, name: string, p: Point)
      requires Valid()
      modifies this`current, this`index
      ensures Valid() && current == AddPoint(old(current), service, name, p)
    {
      ghost var before := current;
      var at := GetScopeMetrics(service);
      AddPointAt(before, service, name, p, at);
      var metrics, names := AddToMetric(current[at].metrics, index[service].metrics, name, p);
      PutKeepsIndexed(current, index, at, Resource(service, metrics), names);
      current := current[at := Resource(service, metrics)];
      index := index[service := Scope(at, names)];
    }

    /** Stores the status and the performance data of one completed check. */
    method StoreResult(x: Result)
      requires Valid()
      modifies this`current, this`index
      ensures Valid() && State() == Apply(old(State()), Stored(x))
    {
      AddDataPoint(x.service, "status", Status(x.status, x.now));
      ghost var target := AddPerfs(current, x.service, x.perfs, x.now);
      assert x.perfs[0..] == x.perfs;
      for k := 0 to |x.perfs|
        invariant Valid() && AddPerfs(current, x.service, x.perfs[k..], x.now) == target
      {
        assert x.perfs[k..][0] == x.perfs[k] && x.perfs[k..][1..] == x.perfs[k + 1..];
        AddDataPoint(x.service, x.perfs[k].name, Perf(x.perfs[k].value, x.now));
      }
    }

    /** The send timer: the request goes out as it is, and the index with it. */
    method OnSendTimer()
      requires Valid()
      modifies this
      ensures Valid() && State() == Apply(old(State()), SendTimer)
      ensures current == [] && sent == old(sent) + if |old(current)| > 0 then [old(current)] else []
    {
      if |current| > 0 {
        sent, current, index := sent + [current], [], map[];
      }
    }
  }
}
