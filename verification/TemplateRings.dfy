/** Templates that use one another in a ring: what resolution makes of them, and when the order decides it. */
module TemplateRings {
  import opened Templates

  predicate Uses(c: Config, x: Id, y: Id) {
    x in c.use && |c.use[x]| == 1 && c.use[x][0] in c.templates && c.templates[c.use[x][0]] == y
  }

  function Next(r: seq<Id>, k: nat): Id
    requires k < |r|
  {
    if k + 1 < |r| then r[k + 1] else r[0]
  }

  /** Distinct objects, as parsed, each of which uses only the next one round. */
  predicate Ring(c: Config, w: Work, r: seq<Id>) {
    Fits(c, w) && w.resolved == {} && r != [] && (forall j, k :: 0 <= j < k < |r| ==> r[j] != r[k]) &&
    forall k :: 0 <= k < |r| ==> r[k] in c.use && Uses(c, r[k], Next(r, k))
  }

  /** Resolving an object that uses one template: the template first, then the merge. */
  lemma ResolveSingle(c: Config, w: Work, x: Id, y: Id)
    requires Fits(c, w) && Uses(c, x, y) && x !in w.resolved
    ensures y in c.use && Fits(c, Mark(w, x))
    ensures var first := Resolve(c, Mark(w, x), y);
            Resolve(c, w, x).ok == first.ok &&
            (first.ok ==> Resolve(c, w, x).work == MergeInto(c, first.work, x, y))
  {
    UsesUnfold(c, Mark(w, x), x, 0);
  }

  function Marked(w: Work, xs: seq<Id>): Work {
    w.(resolved := w.resolved + set x | x in xs)
  }

  // ----- resolution from the first object of a ring

  /** What reaches the j-th object of the ring, and through it those before: its own fields merged with what
      reaches it, up to the first object as parsed. */
  ghost function Carried(c: Config, w: Work, r: seq<Id>, j: nat): (f: seq<Field>)
    requires Ring(c, w, r) && j <= |r|
    ensures |f| == |c.schema|
    decreases |r| - j
  {
    if j == |r| then w.fields[r[0]] else MergeFields(c.schema, w.fields[r[j]], Carried(c, w, r, j + 1))
  }

  /** The objects of the ring before the k-th are as parsed; the others have got what reaches them. */
  ghost predicate Spread(c: Config, w: Work, v: Work, r: seq<Id>, k: nat) {
    Ring(c, w, r) && Fits(c, v) && k <= |r| &&
    (forall j :: 0 <= j < k ==> v.fields[r[j]] == w.fields[r[j]]) &&
    forall j :: k <= j < |r| ==> v.fields[r[j]] == Carried(c, w, r, j)
  }

  /** Merging the next object into the k-th takes its fields one object further up the ring. */
  lemma MergeSpreads(c: Config, w: Work, v: Work, r: seq<Id>, k: nat)
    requires Ring(c, w, r) && k < |r| && Spread(c, w, v, r, k + 1)
    ensures Next(r, k) in c.use && Spread(c, w, MergeInto(c, v, r[k], Next(r, k)), r, k)
  {
    var x, y := r[k], Next(r, k);
    assert x in c.use && y in c.use;
    assert v.fields[y] == Carried(c, w, r, k + 1);
    assert Carried(c, w, r, k) == MergeFields(c.schema, w.fields[x], Carried(c, w, r, k + 1));
    assert forall j :: 0 <= j < |r| && j != k ==> r[j] != x;
    var u := MergeInto(c, v, x, y);
    MergedAt(c, v, x, y);
    hide Uses, Next, Carried, MergeFields, MergeInto;
    assert u.fields[x] == Carried(c, w, r, k);
  }

  lemma MergedAt(c: Config, v: Work, x: Id, y: Id)
    requires Fits(c, v) && x in c.use && y in c.use
    ensures var u := MergeInto(c, v, x, y);
            Fits(c, u) && u.fields[x] == MergeFields(c.schema, v.fields[x], v.fields[y]) &&
            forall z :: z in c.use && z != x ==> u.fields[z] == v.fields[z]
  {
  }

  /** Resolving the k-th object of the ring while those before it are under way. */
  lemma {:induction false} RingTail(c: Config, w: Work, r: seq<Id>, k: nat)
    requires Ring(c, w, r) && k < |r|
    ensures Fits(c, Marked(w, r[..k]))
    ensures var o := Resolve(c, Marked(w, r[..k]), r[k]); o.ok && Spread(c, w, o.work, r, k)
    decreases |r| - k
  {
    var v := Marked(w, r[..k]);
    assert Mark(v, r[k]) == Marked(w, r[..k + 1]);
    assert r[k] !in r[..k];
    ResolveSingle(c, v, r[k], Next(r, k));
    var first := Resolve(c, Mark(v, r[k]), Next(r, k));
    if k + 1 < |r| {
      RingTail(c, w, r, k + 1);
    } else {
      assert first.work == Mark(v, r[k]);
    }
    hide Carried;
    MergeSpreads(c, w, first.work, r, k);
  }

  /** Every field, of whatever kind: each object is merged with what the next one ends up with, but the last
      with the first as it was parsed. */
  lemma RingOutcome(c: Config, w: Work, r: seq<Id>)
    requires Ring(c, w, r)
    ensures forall j :: 0 <= j < |r| ==> Resolve(c, w, r[0]).work.fields[r[j]] == Carried(c, w, r, j)
  {
    assert Marked(w, r[..0]) == w;
    RingTail(c, w, r, 0);
  }

  // ----- and from any other

  function Turned(r: seq<Id>, s: nat): seq<Id>
    requires s < |r|
  {
    r[s..] + r[..s]
  }

  /** The k-th object of the ring turned by s, and the one it uses, are those of the ring at j. */
  lemma TurnedAt(r: seq<Id>, s: nat, k: nat) returns (j: nat)
    requires s < |r| && k < |r|
    ensures j == (if k < |r| - s then k + s else k + s - |r|) && j < |r|
    ensures |Turned(r, s)| == |r| && Turned(r, s)[k] == r[j] && Next(Turned(r, s), k) == Next(r, j)
  {
    j := if k < |r| - s then k + s else k + s - |r|;
  }

  lemma TurnedIsRing(c: Config, w: Work, r: seq<Id>, s: nat)
    requires Ring(c, w, r) && s < |r|
    ensures Ring(c, w, Turned(r, s)) && Turned(r, s)[0] == r[s]
  {
    var t := Turned(r, s);
    hide Uses, Next, Turned, Fits;
    forall k | 0 <= k < |t| ensures t[k] in c.use && Uses(c, t[k], Next(t, k)) {
      var j := TurnedAt(r, s, k);
    }
    forall j, k | 0 <= j < k < |t| ensures t[j] != t[k] {
      var a := TurnedAt(r, s, j);
      var b := TurnedAt(r, s, k);
    }
    var first := TurnedAt(r, s, 0);
  }

  lemma PlaceTurned(c: Config, w: Work, r: seq<Id>, s: nat, z: Id) returns (j: nat)
    requires Ring(c, w, r) && s < |r| && z in r
    ensures |Turned(r, s)| == |r| && j < |r| && Turned(r, s)[j] == z
    ensures z == Turned(r, s)[|r| - 1] ==> j == |r| - 1
    ensures forall h :: 0 <= h < |r| ==> Turned(r, s)[h] in r
  {
    hide Uses, Next, Fits;
    var a :| 0 <= a < |r| && r[a] == z;
    j := if s <= a then a - s else a - s + |r|;
  }

  lemma LastTurned(c: Config, w: Work, r: seq<Id>, s: nat) returns (k: nat)
    requires Ring(c, w, r) && s < |r|
    ensures |Turned(r, s)| == |r| && k < |r| && r[k] == Turned(r, s)[|r| - 1] && Next(r, k) == r[s]
    ensures forall m: nat :: m < |r| && Next(r, m) == r[s] ==> m == k
  {
    hide Uses, Fits;
    k := if s == 0 then |r| - 1 else s - 1;
  }

  /** The ring as seen from x: z is its j-th object; its last, the k-th of r, is the one that uses x. */
  lemma SeenFrom(c: Config, w: Work, r: seq<Id>, x: Id, z: Id) returns (t: seq<Id>, j: nat, k: nat)
    requires Ring(c, w, r) && x in r && z in r
    ensures Ring(c, w, t) && t[0] == x && j < |t| && t[j] == z && (forall h :: 0 <= h < |t| ==> t[h] in r)
    ensures k < |r| && r[k] == t[|t| - 1] && Next(r, k) == x && (z == r[k] ==> j == |t| - 1)
    ensures forall m: nat :: m < |r| && Next(r, m) == x ==> m == k
    ensures x in c.use && z in c.use && Resolve(c, w, x).work.fields[z] == Carried(c, w, t, j)
  {
    assert x in c.use && z in c.use;
    var s :| 0 <= s < |r| && r[s] == x;
    TurnedIsRing(c, w, r, s);
    t := Turned(r, s);
    RingOutcome(c, w, t);
    hide Ring, Turned, Fits, Resolve, Next, Carried;
    k := LastTurned(c, w, r, s);
    j := PlaceTurned(c, w, r, s, z);
  }

  // ----- who has an optional field

  predicate Has(w: Work, x: Id, i: nat) {
    x in w.fields && i < |w.fields[x]| && w.fields[x][i].present
  }

  /** Some object of the ring from the j-th on, or the first one, has the optional field i. */
  predicate HasFrom(w: Work, r: seq<Id>, i: nat, j: nat)
    requires r != []
  {
    Has(w, r[0], i) || exists h :: j <= h < |r| && Has(w, r[h], i)
  }

  lemma {:induction false} CarriedHas(c: Config, w: Work, r: seq<Id>, i: nat, j: nat)
    requires Ring(c, w, r) && j <= |r| && i < |c.schema| && IsOptional(c.schema[i])
    ensures Carried(c, w, r, j)[i].present <==> HasFrom(w, r, i, j)
    decreases |r| - j
  {
    if j < |r| {
      CarriedHas(c, w, r, i, j + 1);
      assert Has(w, r[j], i) <==> w.fields[r[j]][i].present;
    }
  }

  lemma HasSeenFrom(c: Config, w: Work, r: seq<Id>, i: nat, x: Id, z: Id) returns (t: seq<Id>, j: nat, k: nat)
    requires Ring(c, w, r) && i < |c.schema| && IsOptional(c.schema[i]) && x in r && z in r
    ensures t != [] && t[0] == x && j < |t| && t[j] == z && (forall h :: 0 <= h < |t| ==> t[h] in r)
    ensures k < |r| && r[k] == t[|t| - 1] && Next(r, k) == x && (z == r[k] ==> j == |t| - 1)
    ensures forall m: nat :: m < |r| && Next(r, m) == x ==> m == k
    ensures x in c.use && (Has(Resolve(c, w, x).work, z, i) <==> HasFrom(w, t, i, j))
  {
    t, j, k := SeenFrom(c, w, r, x, z);
    CarriedHas(c, w, t, i, j);
    hide HasFrom, Carried, Ring, Next;
  }

  /** Started from x, z ends up with field i; started from y, it does not. */
  predicate Decides(c: Config, w: Work, i: nat, x: Id, y: Id, z: Id) {
    Fits(c, w) && x in c.use && y in c.use &&
    Has(Resolve(c, w, x).work, z, i) && !Has(Resolve(c, w, y).work, z, i)
  }

  /** Whether some object of the ring ends up with field i depends on which one is resolved first. */
  ghost predicate OrderDecides(c: Config, w: Work, r: seq<Id>, i: nat) {
    exists x, y, z :: x in r && y in r && z in r && Decides(c, w, i, x, y, z)
  }

  /** The k-th object of the ring and the one it uses both lack field i. */
  predicate BothLack(w: Work, r: seq<Id>, i: nat, k: nat) {
    k < |r| && !Has(w, r[k], i) && !Has(w, Next(r, k), i)
  }

  /** In a ring of any length the order decides who ends up with an optional field exactly when some
      object has it and two neighbours lack it. */
  lemma RingOrderMattersIff(c: Config, w: Work, r: seq<Id>, i: nat)
    requires Ring(c, w, r) && i < |c.schema| && IsOptional(c.schema[i])
    ensures OrderDecides(c, w, r, i) <==>
            (exists x :: x in r && Has(w, x, i)) && exists k :: BothLack(w, r, i, k)
  {
    hide Has, BothLack, Ring;
    if OrderDecides(c, w, r, i) {
      var x, y, z :| x in r && y in r && z in r && Decides(c, w, i, x, y, z);
      DecidesOnlyIf(c, w, r, i, x, y, z);
    }
    if (exists x :: x in r && Has(w, x, i)) && exists k :: BothLack(w, r, i, k) {
      var x :| x in r && Has(w, x, i);
      var k :| BothLack(w, r, i, k);
      LackingDecides(c, w, r, i, x, k);
    }
  }

  lemma DecidesOnlyIf(c: Config, w: Work, r: seq<Id>, i: nat, x: Id, y: Id, z: Id)
    requires Ring(c, w, r) && i < |c.schema| && IsOptional(c.schema[i])
    requires x in r && y in r && z in r && Decides(c, w, i, x, y, z)
    ensures (exists a :: a in r && Has(w, a, i)) && exists k :: BothLack(w, r, i, k)
  {
    hide Has, Ring, Resolve;
    var t, j, k0 := HasSeenFrom(c, w, r, i, x, z);
    assert exists h :: 0 <= h < |t| && t[h] in r && Has(w, t[h], i);
    var u, h, k := HasSeenFrom(c, w, r, i, y, z);
    assert !Has(w, u[|u| - 1], i);
    assert BothLack(w, r, i, k);
  }

  lemma StartHas(c: Config, w: Work, r: seq<Id>, i: nat, x: Id, z: Id)
    requires Ring(c, w, r) && i < |c.schema| && IsOptional(c.schema[i]) && x in r && z in r && Has(w, x, i)
    ensures x in c.use && Has(Resolve(c, w, x).work, z, i)
  {
    hide Has, Resolve, Next, IsOptional;
    var t, j, k := HasSeenFrom(c, w, r, i, x, z);
    assert HasFrom(w, t, i, j);
  }

  lemma StartLacks(c: Config, w: Work, r: seq<Id>, i: nat, y: Id, k: nat)
    requires Ring(c, w, r) && i < |c.schema| && IsOptional(c.schema[i]) && k < |r| && y in r && y == Next(r, k)
    requires !Has(w, r[k], i) && !Has(w, y, i)
    ensures y in c.use && !Has(Resolve(c, w, y).work, r[k], i)
  {
    hide Has, Resolve, Next, IsOptional, Ring;
    var t, j, last := HasSeenFrom(c, w, r, i, y, r[k]);
    assert last == k;
    assert !HasFrom(w, t, i, j);
  }

  lemma LackingDecides(c: Config, w: Work, r: seq<Id>, i: nat, x: Id, k: nat)
    requires Ring(c, w, r) && i < |c.schema| && IsOptional(c.schema[i])
    requires x in r && Has(w, x, i) && BothLack(w, r, i, k)
    ensures OrderDecides(c, w, r, i)
  {
    var y, z := Next(r, k), r[k];
    assert y in r && z in r;
    hide Has, Resolve;
    StartHas(c, w, r, i, x, z);
    StartLacks(c, w, r, i, y, k);
    assert Decides(c, w, i, x, y, z);
  }

  // ----- what any field holds

  /** What a field holds, as far as its kind goes. */
  datatype Contents = Absent | Text(text: string) | Data(items: seq<Item>)

  function ContentsOf(kind: Kind, f: Field): Contents {
    if IsOptional(kind) && !f.present then Absent else if kind.Plain? then Text(f.text) else Data(f.data)
  }

  /** A field that nobody has set and that a merge fills with what the template has. A plain field that is not
      optional always is. */
  predicate Blank(kind: Kind, f: Field) {
    match kind
    case Plain(optional) => optional ==> !f.present
    case _ => f.data == [] && !f.additive
  }

  const BLANK := Field(false, "", [], false, false)

  /** What a field that is not set gets from a template: all of it, less the repetitions for a repeated one. */
  function Given(kind: Kind, parent: Field): Contents {
    match kind
    case Plain(optional) => if optional && !parent.present then Absent else Text(parent.text)
    case Repeated(byName) => Data(Fresh(byName, [], parent.data))
    case _ => Data(parent.data)
  }

  predicate Repeats(byName: bool, d: seq<Item>) {
    exists j, k :: 0 <= j < k < |d| && Same(byName, d[j], d[k])
  }

  lemma {:induction false} UnitedIsApart(byName: bool, data: seq<Item>, source: seq<Item>)
    requires !Repeats(byName, data)
    ensures !Repeats(byName, AddMissing(byName, data, source))
    decreases |source|
  {
    if source != [] {
      UnitedIsApart(byName, if Holds(byName, data, source[0]) then data else data + [source[0]], source[1..]);
    }
  }

  lemma {:induction false} ApartIsAdded(byName: bool, data: seq<Item>, source: seq<Item>)
    requires !Repeats(byName, data + source)
    ensures AddMissing(byName, data, source) == data + source
    decreases |source|
  {
    if source != [] {
      var d := data + source;
      assert forall j :: 0 <= j < |data| ==> d[j] == data[j] && !Same(byName, d[j], d[|data|]);
      assert data + [source[0]] + source[1..] == d;
      ApartIsAdded(byName, data + [source[0]], source[1..]);
    }
  }

  lemma BlankTakesAll(kind: Kind, f: Field, parent: Field)
    requires !Settled(kind, f) && Blank(kind, f)
    ensures ContentsOf(kind, MergeField(kind, f, parent)) == Given(kind, parent)
    ensures Given(kind, MergeField(kind, f, parent)) == Given(kind, parent)
  {
    if kind.Repeated? {
      FreshAgain(kind.byName, parent.data);
      hide AddMissing, Fresh;
    }
  }

  lemma FreshAgain(byName: bool, data: seq<Item>)
    ensures var d := AddMissing(byName, [], data);
            d == Fresh(byName, [], data) == Fresh(byName, [], d)
  {
    hide AddMissing, Fresh;
    var d := AddMissing(byName, [], data);
    assert [] + d == d && [] + Fresh(byName, [], data) == Fresh(byName, [], data);
    assert [] + Fresh(byName, [], d) == Fresh(byName, [], d);
    AddMissingIsFresh(byName, [], data);
    AddMissingIsFresh(byName, [], d);
    UnitedIsApart(byName, [], data);
    ApartIsAdded(byName, [], d);
  }

  // ----- round the ring

  function Place(n: nat, k: nat, m: nat): nat
    requires k < n && m <= n
    ensures Place(n, k, m) < n
  {
    if k + m < n then k + m else k + m - n
  }

  ghost function Own(c: Config, w: Work, r: seq<Id>, i: nat, k: nat): Field
    requires Ring(c, w, r) && i < |c.schema| && k < |r|
  {
    w.fields[r[k]][i]
  }

  ghost predicate IsSet(c: Config, w: Work, r: seq<Id>, i: nat, k: nat)
    requires Ring(c, w, r) && i < |c.schema| && k < |r|
  {
    Settled(c.schema[i], Own(c, w, r, i, k))
  }

  /** Field i of the first object that has set it, of the m from the k-th on, or else of the object after them. */
  ghost function Found(c: Config, w: Work, r: seq<Id>, i: nat, k: nat, m: nat): Field
    requires Ring(c, w, r) && i < |c.schema| && k < |r| && m <= |r|
    decreases m
  {
    if m == 0 || IsSet(c, w, r, i, k) then Own(c, w, r, i, k) else Found(c, w, r, i, Place(|r|, k, 1), m - 1)
  }

  ghost predicate SetWithin(c: Config, w: Work, r: seq<Id>, i: nat, k: nat, m: nat)
    requires Ring(c, w, r) && i < |c.schema| && k < |r| && m <= |r|
    decreases m
  {
    m > 0 && (IsSet(c, w, r, i, k) || SetWithin(c, w, r, i, Place(|r|, k, 1), m - 1))
  }

  lemma {:induction false} Skip(c: Config, w: Work, r: seq<Id>, i: nat, k: nat, m: nat, l: nat)
    requires Ring(c, w, r) && i < |c.schema| && k < |r| && m + l <= |r| && !SetWithin(c, w, r, i, k, m)
    ensures var p := Place(|r|, k, m);
            Found(c, w, r, i, k, m + l) == Found(c, w, r, i, p, l) &&
            (SetWithin(c, w, r, i, k, m + l) <==> SetWithin(c, w, r, i, p, l))
    decreases m
  {
    hide Ring, IsSet;
    if m > 0 {
      Skip(c, w, r, i, Place(|r|, k, 1), m - 1, l);
    }
  }

  lemma {:induction false} Enough(c: Config, w: Work, r: seq<Id>, i: nat, k: nat, m: nat, l: nat)
    requires Ring(c, w, r) && i < |c.schema| && k < |r| && m <= l <= |r| && SetWithin(c, w, r, i, k, m)
    ensures Found(c, w, r, i, k, l) == Found(c, w, r, i, k, m) && SetWithin(c, w, r, i, k, l)
    decreases m
  {
    hide Ring, IsSet;
    if !IsSet(c, w, r, i, k) {
      Enough(c, w, r, i, Place(|r|, k, 1), m - 1, l - 1);
    }
  }

  lemma SetSomewhere(c: Config, w: Work, r: seq<Id>, i: nat, a: nat, k: nat)
    requires Ring(c, w, r) && i < |c.schema| && k < |r| && a < |r| && IsSet(c, w, r, i, a)
    ensures SetWithin(c, w, r, i, k, |r|)
  {
    hide Ring, IsSet;
    var m := if a >= k then a - k else a - k + |r|;
    if SetWithin(c, w, r, i, k, m) {
      Enough(c, w, r, i, k, m, |r|);
    } else {
      Skip(c, w, r, i, k, m, |r| - m);
    }
  }

  /** Every object of the ring that has not set field i has it blank. */
  ghost predicate BlankUnlessSet(c: Config, w: Work, r: seq<Id>, i: nat) {
    Ring(c, w, r) && i < |c.schema| &&
    forall k :: 0 <= k < |r| ==> IsSet(c, w, r, i, k) || Blank(c.schema[i], Own(c, w, r, i, k))
  }

  lemma SettledStays(kind: Kind, f: Field, parent: Field)
    requires Settled(kind, f)
    ensures MergeField(kind, f, parent) == f
  {
  }

  lemma {:induction false} CarriedIsFound(c: Config, w: Work, r: seq<Id>, s: nat, i: nat, j: nat)
    requires BlankUnlessSet(c, w, r, i) && s < |r| && j <= |r| && Ring(c, w, Turned(r, s))
    ensures |Turned(r, s)| == |r|
    ensures var kind, p := c.schema[i], Place(|r|, s, j);
            var f := Carried(c, w, Turned(r, s), j)[i];
            Given(kind, f) == Given(kind, Found(c, w, r, i, p, |r| - j)) &&
            (j < |r| ==> if IsSet(c, w, r, i, p) then f == Own(c, w, r, i, p)
                         else ContentsOf(kind, f) == Given(kind, Found(c, w, r, i, p, |r| - j)))
    decreases |r| - j
  {
    hide Ring, Turned, Next, Given, ContentsOf, Settled, IsSet, Blank, MergeField;
    var t, p := Turned(r, s), Place(|r|, s, j);
    if j < |r| {
      var at := TurnedAt(r, s, j);
      hide Carried, Found, Own;
      CarriedIsFound(c, w, r, s, i, j + 1);
      CarriedStep(c, w, r, i, t, j, p);
    } else {
      var at := TurnedAt(r, s, 0);
      assert Carried(c, w, t, j)[i] == Own(c, w, r, i, s);
    }
  }

  lemma CarriedStep(c: Config, w: Work, r: seq<Id>, i: nat, t: seq<Id>, j: nat, p: nat)
    requires BlankUnlessSet(c, w, r, i) && Ring(c, w, t) && |t| == |r| && j < |r| && p < |r| && t[j] == r[p]
    requires var kind := c.schema[i];
             Given(kind, Carried(c, w, t, j + 1)[i]) == Given(kind, Found(c, w, r, i, Place(|r|, p, 1), |r| - j - 1))
    ensures var kind, f := c.schema[i], Carried(c, w, t, j)[i];
            Given(kind, f) == Given(kind, Found(c, w, r, i, p, |r| - j)) &&
            if IsSet(c, w, r, i, p) then f == Own(c, w, r, i, p)
            else ContentsOf(kind, f) == Given(kind, Found(c, w, r, i, p, |r| - j))
  {
    var kind, f, parent := c.schema[i], Own(c, w, r, i, p), Carried(c, w, t, j + 1)[i];
    assert Carried(c, w, t, j)[i] == MergeField(kind, f, parent);
    if Settled(kind, f) {
      SettledStays(kind, f, parent);
    } else {
      BlankTakesAll(kind, f, parent);
    }
    hide Ring, Given, MergeField, ContentsOf, Blank, Settled, Carried;
  }

  lemma InRing(c: Config, w: Work, r: seq<Id>, k: nat)
    requires Ring(c, w, r) && k < |r|
    ensures r[k] in c.use && r[k] in w.fields && Fits(c, w)
  {
  }

  /** Field i of the k-th object once the ring has been resolved from the object m further on. */
  ghost function EndsUp(c: Config, w: Work, r: seq<Id>, i: nat, k: nat, m: nat): Field
    requires Ring(c, w, r) && i < |c.schema| && k < |r| && m <= |r|
  {
    InRing(c, w, r, k);
    InRing(c, w, r, Place(|r|, k, m));
    Resolve(c, w, r[Place(|r|, k, m)]).work.fields[r[k]][i]
  }

  lemma EndsUpCarried(c: Config, w: Work, r: seq<Id>, i: nat, k: nat, m: nat, s: nat)
    requires Ring(c, w, r) && i < |c.schema| && k < |r| && 1 <= m <= |r| && s == Place(|r|, k, m)
    ensures Ring(c, w, Turned(r, s)) && |Turned(r, s)| == |r| && Place(|r|, s, |r| - m) == k
    ensures EndsUp(c, w, r, i, k, m) == Carried(c, w, Turned(r, s), |r| - m)[i]
  {
    InRing(c, w, r, s);
    InRing(c, w, r, k);
    TurnedIsRing(c, w, r, s);
    hide Ring, Turned, Carried, Resolve, Next;
    var at := TurnedAt(r, s, |r| - m);
    RingOutcome(c, w, Turned(r, s));
  }

  lemma OutcomeAt(c: Config, w: Work, r: seq<Id>, i: nat, k: nat, m: nat)
    requires BlankUnlessSet(c, w, r, i) && k < |r| && 1 <= m <= |r|
    ensures var f := EndsUp(c, w, r, i, k, m);
            if IsSet(c, w, r, i, k) then f == Own(c, w, r, i, k)
            else ContentsOf(c.schema[i], f) == Given(c.schema[i], Found(c, w, r, i, k, m))
  {
    hide Ring, Turned, Carried, Found, Given, ContentsOf, IsSet, Own, EndsUp;
    var s := Place(|r|, k, m);
    EndsUpCarried(c, w, r, i, k, m, s);
    CarriedIsFound(c, w, r, s, i, |r| - m);
  }

  /** What field i of the k-th object holds depends on whether the ring is resolved from the object m or from
      the one l further on. */
  ghost predicate Differ(c: Config, w: Work, r: seq<Id>, i: nat, k: nat, m: nat, l: nat) {
    Ring(c, w, r) && i < |c.schema| && k < |r| && 1 <= m <= |r| && 1 <= l <= |r| &&
    ContentsOf(c.schema[i], EndsUp(c, w, r, i, k, m)) != ContentsOf(c.schema[i], EndsUp(c, w, r, i, k, l))
  }

  ghost predicate ContentsDecided(c: Config, w: Work, r: seq<Id>, i: nat) {
    exists k, m, l :: Differ(c, w, r, i, k, m, l)
  }

  ghost predicate SomeSet(c: Config, w: Work, r: seq<Id>, i: nat)
    requires Ring(c, w, r) && i < |c.schema|
  {
    exists k :: 0 <= k < |r| && IsSet(c, w, r, i, k)
  }

  /** Neither the k-th object nor the one it uses has set field i, and the latter has in it something else than
      the next object round that has set it. */
  ghost predicate CutOff(c: Config, w: Work, r: seq<Id>, i: nat, k: nat) {
    Ring(c, w, r) && i < |c.schema| && k < |r| &&
    var s, kind := Place(|r|, k, 1), c.schema[i];
    !IsSet(c, w, r, i, k) && !IsSet(c, w, r, i, s) &&
    Given(kind, Own(c, w, r, i, s)) != Given(kind, Found(c, w, r, i, s, |r|))
  }

  ghost predicate Unlike(c: Config, w: Work, r: seq<Id>, i: nat, a: nat, b: nat) {
    Ring(c, w, r) && i < |c.schema| && a < |r| && b < |r| &&
    Given(c.schema[i], Own(c, w, r, i, a)) != Given(c.schema[i], Own(c, w, r, i, b))
  }

  /** Resolved from m further on, the k-th object finds what it would find going all the way round, unless
      it is cut off from it. */
  lemma FindsOrCutOff(c: Config, w: Work, r: seq<Id>, i: nat, k: nat, m: nat)
    requires Ring(c, w, r) && i < |c.schema| && k < |r| && 1 <= m <= |r| && SomeSet(c, w, r, i)
    ensures var kind := c.schema[i];
            Given(kind, Found(c, w, r, i, k, m)) == Given(kind, Found(c, w, r, i, k, |r|)) ||
            exists q :: CutOff(c, w, r, i, q)
    ensures IsSet(c, w, r, i, Place(|r|, k, m)) && !IsSet(c, w, r, i, k) ==>
              Found(c, w, r, i, k, m) == Found(c, w, r, i, k, |r|)
  {
    hide Ring, IsSet, Given;
    var n, s := |r|, Place(|r|, k, m);
    var a :| 0 <= a < |r| && IsSet(c, w, r, i, a);
    SetSomewhere(c, w, r, i, a, k);
    SetSomewhere(c, w, r, i, a, s);
    if SetWithin(c, w, r, i, k, m) {
      Enough(c, w, r, i, k, m, n);
    } else {
      Skip(c, w, r, i, k, m, 0);
      Skip(c, w, r, i, k, m, n - m);
      if !IsSet(c, w, r, i, s) {
        Enough(c, w, r, i, s, n - m, n);
        LastUnset(c, w, r, i, k, m);
        assert CutOff(c, w, r, i, Place(n, k, m - 1)) ||
          Given(c.schema[i], Own(c, w, r, i, s)) == Given(c.schema[i], Found(c, w, r, i, s, n));
      }
    }
  }

  lemma LastUnset(c: Config, w: Work, r: seq<Id>, i: nat, k: nat, m: nat)
    requires Ring(c, w, r) && i < |c.schema| && k < |r| && 1 <= m <= |r| && !SetWithin(c, w, r, i, k, m)
    ensures !IsSet(c, w, r, i, Place(|r|, k, m - 1)) && Place(|r|, Place(|r|, k, m - 1), 1) == Place(|r|, k, m)
  {
    hide Ring, IsSet;
    if SetWithin(c, w, r, i, k, m - 1) {
      Enough(c, w, r, i, k, m - 1, m);
    } else {
      Skip(c, w, r, i, k, m - 1, 1);
    }
  }

  lemma DifferOnlyIf(c: Config, w: Work, r: seq<Id>, i: nat, k: nat, m: nat, l: nat)
    requires BlankUnlessSet(c, w, r, i) && Differ(c, w, r, i, k, m, l)
    ensures if SomeSet(c, w, r, i) then exists q :: CutOff(c, w, r, i, q) else exists a, b :: Unlike(c, w, r, i, a, b)
  {
    OutcomeAt(c, w, r, i, k, m);
    OutcomeAt(c, w, r, i, k, l);
    hide Ring, IsSet, Given, EndsUp, ContentsOf, Found, CutOff;
    if SomeSet(c, w, r, i) {
      FindsOrCutOff(c, w, r, i, k, m);
      FindsOrCutOff(c, w, r, i, k, l);
    } else {
      NoneFound(c, w, r, i, k, m);
      NoneFound(c, w, r, i, k, l);
      assert Unlike(c, w, r, i, Place(|r|, k, m), Place(|r|, k, l));
    }
  }

  lemma {:induction false} NoneFound(c: Config, w: Work, r: seq<Id>, i: nat, k: nat, m: nat)
    requires Ring(c, w, r) && i < |c.schema| && k < |r| && m <= |r| && !SomeSet(c, w, r, i)
    ensures Found(c, w, r, i, k, m) == Own(c, w, r, i, Place(|r|, k, m))
    decreases m
  {
    hide Ring, IsSet;
    if m > 0 {
      NoneFound(c, w, r, i, Place(|r|, k, 1), m - 1);
    }
  }

  lemma CutOffDiffers(c: Config, w: Work, r: seq<Id>, i: nat, k: nat)
    requires BlankUnlessSet(c, w, r, i) && SomeSet(c, w, r, i) && CutOff(c, w, r, i, k)
    ensures ContentsDecided(c, w, r, i)
  {
    hide Ring, IsSet, Given, EndsUp, ContentsOf;
    var n, s := |r|, Place(|r|, k, 1);
    var a :| 0 <= a < |r| && IsSet(c, w, r, i, a);
    var m := if a > k then a - k else a - k + n;
    OutcomeAt(c, w, r, i, k, 1);
    OutcomeAt(c, w, r, i, k, m);
    FindsOrCutOff(c, w, r, i, k, m);
    SetSomewhere(c, w, r, i, a, k);
    Enough(c, w, r, i, s, n - 1, n);
    assert Found(c, w, r, i, k, n) == Found(c, w, r, i, s, n - 1);
    assert Found(c, w, r, i, k, 1) == Found(c, w, r, i, s, 0) == Own(c, w, r, i, s);
    assert Differ(c, w, r, i, k, 1, m);
  }

  lemma UnlikeDiffers(c: Config, w: Work, r: seq<Id>, i: nat, a: nat, b: nat)
    requires BlankUnlessSet(c, w, r, i) && !SomeSet(c, w, r, i) && Unlike(c, w, r, i, a, b)
    ensures ContentsDecided(c, w, r, i)
  {
    hide Ring, IsSet, Given, EndsUp, ContentsOf, Found;
    var m, l := if a > 0 then a else |r|, if b > 0 then b else |r|;
    OutcomeAt(c, w, r, i, 0, m);
    OutcomeAt(c, w, r, i, 0, l);
    NoneFound(c, w, r, i, 0, m);
    NoneFound(c, w, r, i, 0, l);
    assert Differ(c, w, r, i, 0, m, l);
  }

  /** In a ring of any length, and for a field of any kind that is blank where it is not set: which object is
      resolved first decides what some object ends up with exactly when two neighbours have not set the field
      and the second has in it something else than the next object that has; or, if none has set it, when
      they do not all have the same in it. */
  lemma RingContentsMatterIff(c: Config, w: Work, r: seq<Id>, i: nat)
    requires BlankUnlessSet(c, w, r, i)
    ensures ContentsDecided(c, w, r, i) <==>
            if SomeSet(c, w, r, i) then exists k :: CutOff(c, w, r, i, k) else exists a, b :: Unlike(c, w, r, i, a, b)
  {
    hide SomeSet, CutOff, Unlike, Differ, IsSet, Blank;
    if ContentsDecided(c, w, r, i) {
      var k, m, l :| Differ(c, w, r, i, k, m, l);
      DifferOnlyIf(c, w, r, i, k, m, l);
    }
    if SomeSet(c, w, r, i) && exists k :: CutOff(c, w, r, i, k) {
      var k :| CutOff(c, w, r, i, k);
      CutOffDiffers(c, w, r, i, k);
    }
    if !SomeSet(c, w, r, i) && exists a, b :: Unlike(c, w, r, i, a, b) {
      var a, b :| Unlike(c, w, r, i, a, b);
      UnlikeDiffers(c, w, r, i, a, b);
    }
  }

  /** Three objects in a ring, the first with a text: whether the second gets it depends on the order. */
  lemma RingExample(c: Config, w: Work)
    requires c == Config([Plain(false)], map["a" := 0, "b" := 1, "c" := 2], map[0 := ["b"], 1 := ["c"], 2 := ["a"]])
    requires w == Work(map[0 := [Field(true, "x", [], false, true)], 1 := [BLANK], 2 := [BLANK]], {})
    ensures BlankUnlessSet(c, w, [0, 1, 2], 0) && ContentsDecided(c, w, [0, 1, 2], 0)
  {
    var r := [0, 1, 2];
    assert Uses(c, 0, 1) && Uses(c, 1, 2) && Uses(c, 2, 0);
    assert Ring(c, w, r);
    assert IsSet(c, w, r, 0, 0) && !IsSet(c, w, r, 0, 1) && !IsSet(c, w, r, 0, 2);
    assert Found(c, w, r, 0, 2, 3) == Found(c, w, r, 0, 0, 2) == Own(c, w, r, 0, 0);
    assert CutOff(c, w, r, 0, 1);
    RingContentsMatterIff(c, w, r, 0);
  }
}
