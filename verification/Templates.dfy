/** Template inheritance of the engine configuration parser: objects and templates of one type
    name their parents in `use`, and resolution merges the parents' fields in place, marking every
    object it has started on. */
module Templates {
  import opened Collections
  import opened Digraph

  type Id = nat

  /** A member of a repeated field: a string, a pair, or a custom variable with its value. */
  datatype Item = Item(key: string, payload: string)

  /** How a field merges. Plain fields are copied, and may be optional; repeated fields collect the
      missing members, comparing custom variables by name only; the two kinds of group are string
      sets (also of pairs) and string lists, each with an additive mark. */
  datatype Kind = Plain(optional: bool) | Repeated(byName: bool) | GroupSet | GroupList

  /** One field of a message and its entry in the vector of modified fields. `present` matters for
      optional fields, `text` for plain ones, `data` and `additive` for the others. */
  datatype Field = Field(present: bool, text: string, data: seq<Item>, additive: bool, changed: bool)

  predicate IsOptional(kind: Kind) {
    kind.Plain? && kind.optional
  }

  // ----- merging

  predicate Same(byName: bool, a: Item, b: Item) {
    a.key == b.key && (byName || a.payload == b.payload)
  }

  predicate Holds(byName: bool, data: seq<Item>, x: Item) {
    exists i :: 0 <= i < |data| && Same(byName, data[i], x)
  }

  /** data followed by the members of source that are not yet there, in order. */
  function AddMissing(byName: bool, data: seq<Item>, source: seq<Item>): (r: seq<Item>)
    ensures data <= r
    decreases |source|
  {
    if source == [] then data
    else AddMissing(byName, if Holds(byName, data, source[0]) then data else data + [source[0]], source[1..])
  }

  /** Nothing is lost, nothing comes from elsewhere, and nothing added repeats what precedes it: on
      a clash the object's own member stays and the parent's is dropped. */
  lemma {:induction false} AddMissingUnites(byName: bool, data: seq<Item>, source: seq<Item>)
    ensures forall x :: x in source ==> Holds(byName, AddMissing(byName, data, source), x)
    ensures forall i :: |data| <= i < |AddMissing(byName, data, source)| ==>
              NewAt(byName, AddMissing(byName, data, source), i, source)
    decreases |source|
  {
    if source != [] {
      var x := source[0];
      var next := if Holds(byName, data, x) then data else data + [x];
      var r := AddMissing(byName, next, source[1..]);
      AddMissingUnites(byName, next, source[1..]);
      assert r == AddMissing(byName, data, source);
      HoldsFirst(byName, data, x, r);
      forall y | y in source ensures Holds(byName, r, y) {
        assert source == [x] + source[1..];
      }
      forall i | |data| <= i < |r| ensures NewAt(byName, r, i, source) {
        if i < |next| {
          assert r[..i] == data && r[i] == x;
        } else {
          assert NewAt(byName, r, i, source[1..]);
        }
      }
    }
  }

  ghost predicate NewAt(byName: bool, r: seq<Item>, i: nat, source: seq<Item>) {
    i < |r| && r[i] in source && !Holds(byName, r[..i], r[i])
  }

  lemma HoldsFirst(byName: bool, data: seq<Item>, x: Item, r: seq<Item>)
    requires (if Holds(byName, data, x) then data else data + [x]) <= r
    ensures Holds(byName, r, x)
  {
    if Holds(byName, data, x) {
      var i :| 0 <= i < |data| && Same(byName, data[i], x);
      assert Same(byName, r[i], x);
    } else {
      assert Same(byName, r[|data|], x);
    }
  }

  /** The items of source that neither data nor an earlier place in source has, in the order of source. */
  function Fresh(byName: bool, data: seq<Item>, source: seq<Item>): seq<Item> {
    if source == [] then []
    else
      var front, last := source[..|source| - 1], source[|source| - 1];
      Fresh(byName, data, front) + if Holds(byName, data, last) || Holds(byName, front, last) then [] else [last]
  }

  lemma HoldsConcat(byName: bool, a: seq<Item>, b: seq<Item>, x: Item)
    ensures Holds(byName, a + b, x) <==> Holds(byName, a, x) || Holds(byName, b, x)
  {
    if Holds(byName, a, x) {
      var i :| 0 <= i < |a| && Same(byName, a[i], x);
      assert Same(byName, (a + b)[i], x);
    }
    if Holds(byName, b, x) {
      var i :| 0 <= i < |b| && Same(byName, b[i], x);
      assert Same(byName, (a + b)[|a| + i], x);
    }
  }

  /** Data and source together hold what data and the fresh items of source do. */
  lemma {:induction false} FreshHolds(byName: bool, data: seq<Item>, source: seq<Item>, x: Item)
    ensures Holds(byName, data + Fresh(byName, data, source), x) <==> Holds(byName, data, x) || Holds(byName, source, x)
  {
    if source == [] {
      assert data + [] == data;
    } else {
      var front, last := source[..|source| - 1], source[|source| - 1];
      var added := Fresh(byName, data, front);
      FreshHolds(byName, data, front, x);
      assert source == front + [last];
      HoldsConcat(byName, front, [last], x);
      HoldsConcat(byName, data + added, [last], x);
      var held := Holds(byName, data, last) || Holds(byName, front, last);
      assert data + Fresh(byName, data, source) == if held then data + added else data + added + [last];
      if Same(byName, last, x) {
        SameHolds(byName, data, last, x);
        SameHolds(byName, front, last, x);
      }
      assert Holds(byName, [last], x) <==> Same(byName, last, x) by {
        assert [last][0] == last;
      }
    }
  }

  lemma SameHolds(byName: bool, data: seq<Item>, x: Item, y: Item)
    requires Same(byName, x, y)
    ensures Holds(byName, data, x) <==> Holds(byName, data, y)
  {
  }

  /** One item more at the end of source. */
  lemma {:induction false} AddMissingSnoc(byName: bool, data: seq<Item>, source: seq<Item>, x: Item)
    ensures var r := AddMissing(byName, data, source);
            AddMissing(byName, data, source + [x]) == if Holds(byName, r, x) then r else r + [x]
    decreases |source|
  {
    if source != [] {
      var next := if Holds(byName, data, source[0]) then data else data + [source[0]];
      AddMissingSnoc(byName, next, source[1..], x);
      assert (source + [x])[1..] == source[1..] + [x];
    } else {
      assert (source + [x])[1..] == [];
    }
  }

  /** The loops that add what is missing append exactly the fresh items, in the order of the template. */
  lemma {:induction false} AddMissingIsFresh(byName: bool, data: seq<Item>, source: seq<Item>)
    ensures AddMissing(byName, data, source) == data + Fresh(byName, data, source)
    decreases |source|
  {
    if source == [] {
      assert data + [] == data;
    } else {
      var front, last := source[..|source| - 1], source[|source| - 1];
      AddMissingIsFresh(byName, data, front);
      assert source == front + [last];
      AddMissingSnoc(byName, data, front, last);
      FreshHolds(byName, data, front, last);
      ConcatAssociative(data, Fresh(byName, data, front), [last]);
      assert data + Fresh(byName, data, front) + [] == data + Fresh(byName, data, front);
    }
  }

  /** What a field becomes when a template's field is merged into it. */
  function MergeField(kind: Kind, field: Field, parent: Field): Field {
    if IsOptional(kind) && !parent.present then field
    else if (IsOptional(kind) && !field.present) || !field.changed then
      Taken(kind, field, parent)
    else field
  }

  function Taken(kind: Kind, field: Field, parent: Field): (r: Field)
    ensures r.present && r.changed
  {
    match kind
    case Plain(_) => field.(text := parent.text, present := true, changed := true)
    case Repeated(byName) =>
      field.(data := AddMissing(byName, field.data, parent.data), present := true, changed := true)
    case GroupSet =>
      field.(data := if field.additive then AddMissing(false, field.data, parent.data)
                     else if field.data == [] then parent.data else field.data,
             present := true, changed := true)
    case GroupList =>
      field.(data := if field.additive then field.data + parent.data
                     else if field.data == [] then parent.data else field.data,
             present := true, changed := true)
  }

  /** r is field with the contents of the template taken over: its text; the items that a repeated field or an
      additive set does not have yet, after its own; all items of an additive list, after its own; all items of
      another group if it has none. */
  predicate TakesOver(kind: Kind, field: Field, template: Field, r: Field) {
    r.present && r.changed && r.additive == field.additive &&
    match kind
    case Plain(_) => r.text == template.text && r.data == field.data
    case Repeated(byName) => r.data == field.data + Fresh(byName, field.data, template.data) && r.text == field.text
    case GroupSet =>
      r.text == field.text &&
      (field.additive ==> r.data == field.data + Fresh(false, field.data, template.data)) &&
      (!field.additive ==> r.data == if |field.data| > 0 then field.data else template.data)
    case GroupList =>
      r.text == field.text &&
      (field.additive ==> r.data == field.data + template.data) &&
      (!field.additive ==> r.data == if |field.data| > 0 then field.data else template.data)
  }

  lemma TakenTakesOver(kind: Kind, field: Field, template: Field)
    ensures TakesOver(kind, field, template, Taken(kind, field, template))
  {
    match kind
    case Plain(_) =>
    case Repeated(byName) => AddMissingIsFresh(byName, field.data, template.data);
    case GroupSet => AddMissingIsFresh(false, field.data, template.data);
    case GroupList =>
  }

  function MergeFields(schema: seq<Kind>, fields: seq<Field>, parent: seq<Field>): (r: seq<Field>)
    requires |fields| == |parent| == |schema|
    ensures |r| == |schema|
    ensures forall i :: 0 <= i < |schema| ==> r[i] == MergeField(schema[i], fields[i], parent[i])
  {
    seq(|schema|, i requires 0 <= i < |schema| => MergeField(schema[i], fields[i], parent[i]))
  }

  // ----- resolution

  /** What parsing leaves fixed: the kinds of the fields, the templates by name, and the names each
      object uses (none for an object that cannot inherit). */
  datatype Config = Config(schema: seq<Kind>, templates: map<string, Id>, use: map<Id, seq<string>>)
  {
    predicate Valid() {
      forall name :: name in templates ==> templates[name] in use
    }

    function Parent(name: string): (x: Id)
      requires Valid() && name in templates
      ensures x in use
    {
      templates[name]
    }
  }

  /** What resolution changes: the fields of every object, and the set of those marked resolved. */
  datatype Work = Work(fields: map<Id, seq<Field>>, resolved: set<Id>)

  predicate Fits(c: Config, w: Work) {
    c.Valid() && w.fields.Keys == c.use.Keys && w.resolved <= c.use.Keys &&
    forall x :: x in w.fields ==> |w.fields[x]| == |c.schema|
  }

  datatype Outcome = Outcome(work: Work, merges: seq<(Id, Id)>, ok: bool)

  function Left(c: Config, w: Work): nat {
    |c.use.Keys - w.resolved|
  }

  lemma ProgressShrinks(c: Config, w: Work, v: Work)
    requires w.resolved <= v.resolved
    ensures Left(c, v) <= Left(c, w)
  {
    SubsetSize(c.use.Keys - v.resolved, c.use.Keys - w.resolved);
  }

  lemma MarkShrinks(c: Config, w: Work, x: Id)
    requires x in c.use && x !in w.resolved
    ensures Left(c, Mark(w, x)) < Left(c, w)
  {
    ProperSubsetSize(c.use.Keys - Mark(w, x).resolved, c.use.Keys - w.resolved, x);
  }

  function Mark(w: Work, x: Id): Work {
    w.(resolved := w.resolved + {x})
  }

  function MergeInto(c: Config, w: Work, x: Id, parent: Id): (v: Work)
    requires Fits(c, w) && x in c.use && parent in c.use
    ensures Fits(c, v) && v.resolved == w.resolved
  {
    w.(fields := w.fields[x := MergeFields(c.schema, w.fields[x], w.fields[parent])])
  }

  /** Resolution of one object: nothing if it is marked, else mark it and merge its parents, each
      resolved first. It ends on every `use` graph, cyclic or not, because each nested resolution
      that does anything marks an object. */
  function Resolve(c: Config, w: Work, x: Id): (o: Outcome)
    requires Fits(c, w) && x in c.use
    ensures Fits(c, o.work) && w.resolved + {x} <= o.work.resolved
    decreases Left(c, w), 0
  {
    if x in w.resolved then Outcome(w, [], true)
    else
      MarkShrinks(c, w, x);
      ResolveUses(c, Mark(w, x), x, 0)
  }

  function ResolveUses(c: Config, w: Work, x: Id, k: nat): (o: Outcome)
    requires Fits(c, w) && x in c.use && x in w.resolved && k <= |c.use[x]|
    ensures Fits(c, o.work) && w.resolved <= o.work.resolved
    decreases Left(c, w), |c.use[x]| - k + 1
  {
    if k == |c.use[x]| then Outcome(w, [], true)
    else if c.use[x][k] !in c.templates then Outcome(w, [], false)
    else
      var parent := c.Parent(c.use[x][k]);
      var first := Resolve(c, w, parent);
      ProgressShrinks(c, w, first.work);
      if !first.ok then first
      else
        var rest := ResolveUses(c, MergeInto(c, first.work, x, parent), x, k + 1);
        Outcome(rest.work, first.merges + [(x, parent)] + rest.merges, rest.ok)
  }

  /** Objects resolved one after the other; the first missing template stops everything. */
  function ResolveAll(c: Config, w: Work, order: seq<Id>): (o: Outcome)
    requires Fits(c, w) && forall x :: x in order ==> x in c.use
    ensures Fits(c, o.work)
    decreases |order|
  {
    if order == [] then Outcome(w, [], true)
    else
      var first := Resolve(c, w, order[0]);
      if !first.ok then first
      else
        var rest := ResolveAll(c, first.work, order[1..]);
        Outcome(rest.work, first.merges + rest.merges, rest.ok)
  }

  lemma UsesUnfold(c: Config, w: Work, x: Id, k: nat)
    requires Fits(c, w) && x in c.use && x in w.resolved && k < |c.use[x]| && c.use[x][k] in c.templates
    ensures var parent := c.Parent(c.use[x][k]);
            var first := Resolve(c, w, parent);
            var o := ResolveUses(c, w, x, k);
            if first.ok then
              var rest := ResolveUses(c, MergeInto(c, first.work, x, parent), x, k + 1);
              o == Outcome(rest.work, first.merges + [(x, parent)] + rest.merges, rest.ok)
            else o == first
  {
  }

  /** Resolution never touches an object that was marked before it started. */
  lemma {:induction false} ResolveKeeps(c: Config, w: Work, x: Id, y: Id)
    requires Fits(c, w) && x in c.use && y in w.resolved
    ensures Resolve(c, w, x).work.fields[y] == w.fields[y]
    decreases Left(c, w), 0
  {
    if x !in w.resolved {
      MarkShrinks(c, w, x);
      UsesKeep(c, Mark(w, x), x, 0, y);
    }
  }

  lemma {:induction false} UsesKeep(c: Config, w: Work, x: Id, k: nat, y: Id)
    requires Fits(c, w) && x in c.use && x in w.resolved && k <= |c.use[x]| && y in w.resolved && y != x
    ensures ResolveUses(c, w, x, k).work.fields[y] == w.fields[y]
    decreases Left(c, w), |c.use[x]| - k + 1
  {
    if k < |c.use[x]| && c.use[x][k] in c.templates {
      var parent := c.Parent(c.use[x][k]);
      var first := Resolve(c, w, parent);
      UsesUnfold(c, w, x, k);
      ResolveKeeps(c, w, parent, y);
      ProgressShrinks(c, w, first.work);
      if first.ok {
        UsesKeep(c, MergeInto(c, first.work, x, parent), x, k + 1, y);
      }
    }
  }

  // ----- the inheritance that resolution computes

  function ParentIds(c: Config, names: seq<string>): seq<Id> {
    if names == [] then []
    else (if names[0] in c.templates then [c.templates[names[0]]] else []) + ParentIds(c, names[1..])
  }

  /** Edges lead from an object to the templates it uses. */
  function UseGraph(c: Config): Graph<Id> {
    map x | x in c.use :: ParentIds(c, c.use[x])
  }

  lemma {:induction false} ParentListed(c: Config, names: seq<string>, k: nat)
    requires k < |names| && names[k] in c.templates
    ensures c.templates[names[k]] in ParentIds(c, names)
  {
    if k > 0 {
      ParentListed(c, names[1..], k - 1);
    }
  }

  lemma ParentIndex(c: Config, names: seq<string>, parent: Id) returns (j: nat)
    requires parent in ParentIds(c, names)
    ensures j < |names| && names[j] in c.templates && c.templates[names[j]] == parent
  {
    if names[0] in c.templates && c.templates[names[0]] == parent {
      j := 0;
    } else {
      var i := ParentIndex(c, names[1..], parent);
      j := i + 1;
    }
  }

  predicate Named(c: Config, x: Id) {
    x in c.use ==> forall k :: 0 <= k < |c.use[x]| ==> c.use[x][k] in c.templates
  }

  /** No object that x inherits from, nor x itself, uses a template that does not exist. */
  ghost predicate Grounded(c: Config, x: Id) {
    forall y :: Reaches(UseGraph(c), x, y) ==> Named(c, y)
  }

  /** No object that x inherits from, nor x itself, inherits from itself. */
  ghost predicate Rooted(c: Config, x: Id) {
    forall y :: Reaches(UseGraph(c), x, y) ==> !Below(UseGraph(c), y, y)
  }

  /** Everything that x inherits from is there and in order. */
  ghost predicate Founded(c: Config, x: Id) {
    Grounded(c, x) && Rooted(c, x)
  }

  lemma ReachedIsFounded(c: Config, x: Id, y: Id)
    requires Reaches(UseGraph(c), x, y)
    ensures (Grounded(c, x) ==> Grounded(c, y)) && (Rooted(c, x) ==> Rooted(c, y))
  {
    forall z | Reaches(UseGraph(c), y, z) ensures Reaches(UseGraph(c), x, z) {
      ReachesTrans(UseGraph(c), x, y, z);
    }
  }

  lemma ParentReached(c: Config, x: Id, k: nat)
    requires c.Valid() && x in c.use && k < |c.use[x]| && c.use[x][k] in c.templates
    ensures var parent := c.Parent(c.use[x][k]);
            Edge(UseGraph(c), x, parent) && Reaches(UseGraph(c), x, parent) &&
            (Grounded(c, x) ==> Grounded(c, parent)) && (Rooted(c, x) ==> Rooted(c, parent))
  {
    ParentListed(c, c.use[x], k);
    EdgeReaches(UseGraph(c), x, c.Parent(c.use[x][k]));
    ReachedIsFounded(c, x, c.Parent(c.use[x][k]));
  }

  lemma ParentFounded(c: Config, x: Id, k: nat)
    requires c.Valid() && x in c.use && k < |c.use[x]| && Founded(c, x)
    ensures c.use[x][k] in c.templates
    ensures Founded(c, c.Parent(c.use[x][k])) && Edge(UseGraph(c), x, c.Parent(c.use[x][k]))
    ensures |Down(UseGraph(c), c.Parent(c.use[x][k]))| < |Down(UseGraph(c), x)|
  {
    ReachesSelf(UseGraph(c), x);
    assert Named(c, x);
    ParentReached(c, x, k);
    EdgeLowersRank(UseGraph(c), x, c.Parent(c.use[x][k]));
  }

  type Fields = map<Id, seq<Field>>

  /** `fields` merged with those that `inherited` gives the parents of x from the k-th on, in the
      order in which x uses them. */
  ghost function MergeParents(c: Config, inherited: Fields, x: Id, fields: seq<Field>, k: nat): (r: seq<Field>)
    requires Covers(c, inherited) && x in c.use && k <= |c.use[x]| && |fields| == |c.schema|
    requires FoundedFrom(c, x, k)
    ensures |r| == |c.schema|
    decreases |c.use[x]| - k
  {
    if k == |c.use[x]| then fields
    else
      var parent := c.Parent(c.use[x][k]);
      MergeParents(c, inherited, x, MergeFields(c.schema, fields, inherited[parent]), k + 1)
  }

  ghost predicate Covers(c: Config, inherited: Fields) {
    c.Valid() && forall x :: x in c.use && Founded(c, x) ==> x in inherited && |inherited[x]| == |c.schema|
  }

  /** The law of inheritance: what an object inherits is its own fields, merged in turn with what
      each of its parents inherits. */
  ghost predicate Inherits(c: Config, own: Work, inherited: Fields) {
    c.Valid() && Fits(c, own) && Covers(c, inherited) &&
    forall x :: x in c.use && Founded(c, x) ==>
      FoundedFrom(c, x, 0) && inherited[x] == MergeParents(c, inherited, x, own.fields[x], 0)
  }

  // ----- the memoised, in-place resolution computes it

  /** All parents of x are known and resolved, and x has reached its inherited fields unless it meets a ring. */
  ghost predicate Done(c: Config, inherited: Fields, w: Work, x: Id) {
    x in w.fields && Named(c, x) && (forall y :: Edge(UseGraph(c), x, y) ==> y in w.resolved) &&
    (Rooted(c, x) ==> Grounded(c, x) && x in inherited && w.fields[x] == inherited[x])
  }

  /** What holds in the middle of resolving the objects in stack: every object is either as parsed,
      being resolved, or done. */
  ghost predicate Memo(c: Config, own: Work, inherited: Fields, w: Work, stack: set<Id>) {
    Fits(c, own) && Fits(c, w) && stack <= w.resolved &&
    (forall x :: x in c.use && x !in w.resolved ==> w.fields[x] == own.fields[x]) &&
    forall x :: x in w.resolved && x !in stack ==> Done(c, inherited, w, x)
  }

  ghost predicate FoundedFrom(c: Config, x: Id, k: nat) {
    c.Valid() && x in c.use &&
    forall j :: k <= j < |c.use[x]| ==> c.use[x][j] in c.templates && Founded(c, c.Parent(c.use[x][j]))
  }

  lemma FoundedByParents(c: Config, x: Id)
    requires c.Valid() && x in c.use && Rooted(c, x)
    ensures Grounded(c, x) <==> FoundedFrom(c, x, 0)
  {
    var g := UseGraph(c);
    if Grounded(c, x) {
      forall j | 0 <= j < |c.use[x]|
        ensures c.use[x][j] in c.templates && Founded(c, c.Parent(c.use[x][j]))
      {
        ParentFounded(c, x, j);
      }
    }
    if FoundedFrom(c, x, 0) {
      forall y | Reaches(g, x, y) ensures Named(c, y) {
        var p :| WalkFromTo(g, p, x, y);
        if |p| > 1 {
          assert Edge(g, p[0], p[1]);
          var j := ParentIndex(c, c.use[x], p[1]);
          SubWalk(g, p, 1, |p| - 1);
        }
      }
    }
  }

  /** One object, whatever has been resolved before it and whatever is being resolved above it: if it
      succeeds everything resolved is done; and on an object that meets no ring it succeeds exactly when
      nothing it inherits from is missing. */
  lemma {:induction false} ResolveRefines(c: Config, own: Work, inherited: Fields, w: Work, x: Id, stack: set<Id>)
    requires Inherits(c, own, inherited) && Memo(c, own, inherited, w, stack) && x in c.use
    requires forall a :: a in stack ==> Below(UseGraph(c), a, x)
    ensures var o := Resolve(c, w, x);
            (o.ok ==> Memo(c, own, inherited, o.work, stack)) && (Rooted(c, x) ==> (o.ok <==> Grounded(c, x)))
    decreases Left(c, w), 0
  {
    ReachesSelf(UseGraph(c), x);
    if x in w.resolved {
      assert x !in stack ==> Done(c, inherited, w, x);
    } else {
      var marked := Mark(w, x);
      MarkShrinks(c, w, x);
      MarkKeepsMemo(c, own, inherited, w, x, stack);
      UsesRefine(c, own, inherited, marked, x, 0, stack);
      if Rooted(c, x) {
        FoundedByParents(c, x);
      }
    }
  }

  lemma MarkKeepsMemo(c: Config, own: Work, inherited: Fields, w: Work, x: Id, stack: set<Id>)
    requires Memo(c, own, inherited, w, stack) && x in c.use && x !in w.resolved
    ensures Memo(c, own, inherited, Mark(w, x), stack + {x})
  {
    forall y | y in w.resolved && y !in stack ensures Done(c, inherited, Mark(w, x), y) {
      assert Done(c, inherited, w, y);
    }
  }

  lemma MergeKeepsMemo(c: Config, own: Work, inherited: Fields, w: Work, x: Id, parent: Id, stack: set<Id>)
    requires Memo(c, own, inherited, w, stack)
    requires x in stack && x in c.use && parent in c.use
    ensures Memo(c, own, inherited, MergeInto(c, w, x, parent), stack)
  {
    forall y | y in w.resolved && y !in stack ensures Done(c, inherited, MergeInto(c, w, x, parent), y) {
      assert Done(c, inherited, w, y);
    }
  }

  /** The loop over the parents of x, before the k-th: the earlier ones are resolved, and merging the
      others will give the inherited fields. */
  ghost predicate Merging(c: Config, inherited: Fields, w: Work, x: Id, k: nat)
  {
    Fits(c, w) && Covers(c, inherited) && x in c.use && k <= |c.use[x]| &&
    (forall j :: 0 <= j < k ==> c.use[x][j] in c.templates && c.Parent(c.use[x][j]) in w.resolved) &&
    (Founded(c, x) ==>
      FoundedFrom(c, x, k) && MergeParents(c, inherited, x, w.fields[x], k) == inherited[x])
  }

  lemma {:induction false} UsesRefine(c: Config, own: Work, inherited: Fields, w: Work, x: Id, k: nat, stack: set<Id>)
    requires Inherits(c, own, inherited) && x in c.use && x !in stack
    requires Memo(c, own, inherited, w, stack + {x}) && Merging(c, inherited, w, x, k)
    requires forall a :: a in stack ==> Below(UseGraph(c), a, x)
    ensures Rooted(c, x) ==> (ResolveUses(c, w, x, k).ok <==> FoundedFrom(c, x, k))
    ensures ResolveUses(c, w, x, k).ok && (Rooted(c, x) ==> Grounded(c, x)) ==>
              Memo(c, own, inherited, ResolveUses(c, w, x, k).work, stack)
    decreases Left(c, w), |c.use[x]| - k + 1, 1
  {
    if k == |c.use[x]| {
      if Rooted(c, x) ==> Grounded(c, x) {
        AllMergedIsDone(c, inherited, w, x);
      }
    } else if c.use[x][k] in c.templates {
      NextUseRefines(c, own, inherited, w, x, k, stack);
    }
  }

  lemma {:induction false} NextUseRefines(c: Config, own: Work, inherited: Fields, w: Work, x: Id, k: nat,
                                          stack: set<Id>)
    requires Inherits(c, own, inherited) && x in c.use && x !in stack
    requires Memo(c, own, inherited, w, stack + {x}) && Merging(c, inherited, w, x, k)
    requires forall a :: a in stack ==> Below(UseGraph(c), a, x)
    requires k < |c.use[x]| && c.use[x][k] in c.templates
    ensures Rooted(c, x) ==> (ResolveUses(c, w, x, k).ok <==> FoundedFrom(c, x, k))
    ensures ResolveUses(c, w, x, k).ok && (Rooted(c, x) ==> Grounded(c, x)) ==>
              Memo(c, own, inherited, ResolveUses(c, w, x, k).work, stack)
    decreases Left(c, w), |c.use[x]| - k + 1, 0
  {
    var parent := c.Parent(c.use[x][k]);
    var first := Resolve(c, w, parent);
    FoundedFromStep(c, x, k);
    ParentReached(c, x, k);
    UsesUnfold(c, w, x, k);
    StackAbove(c, x, k, stack);
    ResolveRefines(c, own, inherited, w, parent, stack + {x});
    ProgressShrinks(c, w, first.work);
    if first.ok {
      var merged := MergeInto(c, first.work, x, parent);
      MergeKeepsMemo(c, own, inherited, first.work, x, parent, stack + {x});
      ResolveKeeps(c, w, parent, x);
      if Rooted(c, x) {
        ReachesSelf(UseGraph(c), parent);
        assert parent !in stack + {x};
      }
      NextMerging(c, inherited, w, first.work, x, k);
      UsesRefine(c, own, inherited, merged, x, k + 1, stack);
    }
  }

  lemma FoundedFromStep(c: Config, x: Id, k: nat)
    requires c.Valid() && x in c.use && k < |c.use[x]| && c.use[x][k] in c.templates
    ensures FoundedFrom(c, x, k) <==> Founded(c, c.Parent(c.use[x][k])) && FoundedFrom(c, x, k + 1)
  {
  }

  lemma AllMergedIsDone(c: Config, inherited: Fields, w: Work, x: Id)
    requires x in c.use && (Rooted(c, x) ==> Grounded(c, x))
    requires Merging(c, inherited, w, x, |c.use[x]|)
    ensures Done(c, inherited, w, x)
  {
    forall y | Edge(UseGraph(c), x, y) ensures y in w.resolved {
      var j := ParentIndex(c, c.use[x], y);
    }
  }

  lemma StackAbove(c: Config, x: Id, k: nat, stack: set<Id>)
    requires c.Valid() && x in c.use && k < |c.use[x]| && c.use[x][k] in c.templates
    requires forall a :: a in stack ==> Below(UseGraph(c), a, x)
    ensures forall a :: a in stack + {x} ==> Below(UseGraph(c), a, c.Parent(c.use[x][k]))
  {
    var g := UseGraph(c);
    var parent := c.Parent(c.use[x][k]);
    ParentListed(c, c.use[x], k);
    EdgeReaches(g, x, parent);
    forall a | a in stack ensures Below(g, a, parent) {
      BelowIsReachable(g, a, x);
      BelowThrough(g, a, x, parent);
    }
  }

  /** Merging the k-th parent, once it is resolved, is one step of the inheritance. */
  lemma NextMerging(c: Config, inherited: Fields, w: Work, v: Work, x: Id, k: nat)
    requires Merging(c, inherited, w, x, k) && x in w.resolved && k < |c.use[x]| && c.use[x][k] in c.templates
    requires Fits(c, v) && w.resolved <= v.resolved && v.fields[x] == w.fields[x]
    requires c.Parent(c.use[x][k]) in v.resolved
    requires Rooted(c, x) ==> Done(c, inherited, v, c.Parent(c.use[x][k]))
    ensures Merging(c, inherited, MergeInto(c, v, x, c.Parent(c.use[x][k])), x, k + 1)
  {
    if Founded(c, x) {
      ParentFounded(c, x, k);
    }
  }

  // ----- on any graph, resolution fails only for a missing template

  lemma {:induction false} FailureMeansMissing(c: Config, w: Work, x: Id)
    requires Fits(c, w) && x in c.use && !Resolve(c, w, x).ok
    ensures !Grounded(c, x)
    decreases Left(c, w), 0
  {
    MarkShrinks(c, w, x);
    UsesFailureMeansMissing(c, Mark(w, x), x, 0);
  }

  lemma {:induction false} UsesFailureMeansMissing(c: Config, w: Work, x: Id, k: nat)
    requires Fits(c, w) && x in c.use && x in w.resolved && k <= |c.use[x]| && !ResolveUses(c, w, x, k).ok
    ensures !Grounded(c, x)
    decreases Left(c, w), |c.use[x]| - k + 1
  {
    ReachesSelf(UseGraph(c), x);
    if c.use[x][k] in c.templates {
      var parent := c.Parent(c.use[x][k]);
      var first := Resolve(c, w, parent);
      ParentReached(c, x, k);
      UsesUnfold(c, w, x, k);
      ProgressShrinks(c, w, first.work);
      if first.ok {
        UsesFailureMeansMissing(c, MergeInto(c, first.work, x, parent), x, k + 1);
      } else {
        FailureMeansMissing(c, w, parent);
      }
    } else {
      assert !Named(c, x);
    }
  }

  /** v has resolved nothing beyond w but x and objects that x inherits from. */
  ghost predicate OnlyReached(c: Config, w: Work, v: Work, x: Id) {
    forall y :: y in v.resolved && y !in w.resolved ==> Reaches(UseGraph(c), x, y)
  }

  lemma {:induction false} ResolveReaches(c: Config, w: Work, x: Id)
    requires Fits(c, w) && x in c.use
    ensures OnlyReached(c, w, Resolve(c, w, x).work, x)
    decreases Left(c, w), 0
  {
    ReachesSelf(UseGraph(c), x);
    if x !in w.resolved {
      MarkShrinks(c, w, x);
      UsesReach(c, Mark(w, x), x, 0);
    }
  }

  lemma {:induction false} UsesReach(c: Config, w: Work, x: Id, k: nat)
    requires Fits(c, w) && x in c.use && x in w.resolved && k <= |c.use[x]|
    ensures OnlyReached(c, w, ResolveUses(c, w, x, k).work, x)
    decreases Left(c, w), |c.use[x]| - k + 1
  {
    if k < |c.use[x]| && c.use[x][k] in c.templates {
      var parent := c.Parent(c.use[x][k]);
      var first := Resolve(c, w, parent);
      UsesUnfold(c, w, x, k);
      ParentListed(c, c.use[x], k);
      EdgeReaches(UseGraph(c), x, parent);
      ResolveReaches(c, w, parent);
      ProgressShrinks(c, w, first.work);
      if first.ok {
        var merged := MergeInto(c, first.work, x, parent);
        UsesReach(c, merged, x, k + 1);
        ReachedThrough(c, w, merged, ResolveUses(c, merged, x, k + 1).work, x, parent);
      } else {
        ReachedThrough(c, w, first.work, first.work, x, parent);
      }
    }
  }

  lemma ReachedThrough(c: Config, w: Work, v: Work, u: Work, x: Id, parent: Id)
    requires Reaches(UseGraph(c), x, parent)
    requires OnlyReached(c, w, v, parent) && OnlyReached(c, v, u, x)
    ensures OnlyReached(c, w, u, x)
  {
    var g := UseGraph(c);
    forall y | Reaches(g, parent, y) ensures Reaches(g, x, y) {
      ReachesTrans(g, x, parent, y);
    }
  }

  // ----- the law of inheritance has exactly one solution

  ghost function Inherited(c: Config, own: Work, x: Id): (r: seq<Field>)
    requires c.Valid() && Fits(c, own) && x in c.use && Founded(c, x)
    ensures |r| == |c.schema|
    decreases |Down(UseGraph(c), x)|, |c.use[x]| + 1
  {
    InheritFrom(c, own, x, own.fields[x], 0)
  }

  ghost function InheritFrom(c: Config, own: Work, x: Id, fields: seq<Field>, k: nat): (r: seq<Field>)
    requires c.Valid() && Fits(c, own) && x in c.use && Founded(c, x)
    requires k <= |c.use[x]| && |fields| == |c.schema|
    ensures |r| == |c.schema|
    decreases |Down(UseGraph(c), x)|, |c.use[x]| - k
  {
    if k == |c.use[x]| then fields
    else
      ParentFounded(c, x, k);
      InheritFrom(c, own, x, MergeFields(c.schema, fields, Inherited(c, own, c.Parent(c.use[x][k]))), k + 1)
  }

  ghost function AllInherited(c: Config, own: Work): Fields
    requires c.Valid() && Fits(c, own)
  {
    map x | x in c.use && Founded(c, x) :: Inherited(c, own, x)
  }

  lemma InheritanceExists(c: Config, own: Work)
    requires c.Valid() && Fits(c, own)
    ensures Inherits(c, own, AllInherited(c, own))
  {
    forall x | x in c.use && Founded(c, x)
      ensures FoundedFrom(c, x, 0)
      ensures AllInherited(c, own)[x] == MergeParents(c, AllInherited(c, own), x, own.fields[x], 0)
    {
      FoundedByParents(c, x);
      InheritFromIsMergeParents(c, own, x, own.fields[x], 0);
    }
  }

  lemma {:induction false} InheritFromIsMergeParents(c: Config, own: Work, x: Id, fields: seq<Field>, k: nat)
    requires c.Valid() && Fits(c, own) && x in c.use && Founded(c, x) && FoundedFrom(c, x, k)
    requires k <= |c.use[x]| && |fields| == |c.schema|
    ensures InheritFrom(c, own, x, fields, k) == MergeParents(c, AllInherited(c, own), x, fields, k)
    decreases |c.use[x]| - k
  {
    if k < |c.use[x]| {
      var parent := c.Parent(c.use[x][k]);
      FoundedFromStep(c, x, k);
      ParentFounded(c, x, k);
      InheritFromIsMergeParents(c, own, x, MergeFields(c.schema, fields, Inherited(c, own, parent)), k + 1);
    }
  }

  lemma {:induction false} InheritanceIsUnique(c: Config, own: Work, a: Fields, b: Fields, x: Id)
    requires Inherits(c, own, a) && Inherits(c, own, b) && x in c.use && Founded(c, x)
    ensures a[x] == b[x]
    decreases |Down(UseGraph(c), x)|
  {
    forall k | 0 <= k < |c.use[x]| ensures SameAt(c, a, b, x, k) {
      ParentFounded(c, x, k);
      InheritanceIsUnique(c, own, a, b, c.Parent(c.use[x][k]));
    }
    MergeParentsAgree(c, a, b, x, own.fields[x], 0);
  }

  ghost predicate SameAt(c: Config, a: Fields, b: Fields, x: Id, k: nat) {
    Covers(c, a) && Covers(c, b) && x in c.use && k < |c.use[x]| && c.use[x][k] in c.templates &&
    c.Parent(c.use[x][k]) in a && c.Parent(c.use[x][k]) in b &&
    a[c.Parent(c.use[x][k])] == b[c.Parent(c.use[x][k])]
  }

  lemma {:induction false} MergeParentsAgree(c: Config, a: Fields, b: Fields, x: Id, fields: seq<Field>, k: nat)
    requires Covers(c, a) && Covers(c, b) && FoundedFrom(c, x, k) && k <= |c.use[x]| && |fields| == |c.schema|
    requires forall j :: k <= j < |c.use[x]| ==> SameAt(c, a, b, x, j)
    ensures MergeParents(c, a, x, fields, k) == MergeParents(c, b, x, fields, k)
    decreases |c.use[x]| - k
  {
    if k < |c.use[x]| {
      assert SameAt(c, a, b, x, k);
      MergeParentsAgree(c, a, b, x, MergeFields(c.schema, fields, a[c.Parent(c.use[x][k])]), k + 1);
    }
  }

  // ----- whole configurations

  ghost predicate Requested(c: Config, order: seq<Id>, x: Id) {
    exists i :: 0 <= i < |order| && Reaches(UseGraph(c), order[i], x)
  }

  lemma ResolvedIsClosed(c: Config, own: Work, inherited: Fields, w: Work, x: Id, y: Id)
    requires Memo(c, own, inherited, w, {}) && x in w.resolved && Reaches(UseGraph(c), x, y)
    ensures y in w.resolved
  {
    var p :| WalkFromTo(UseGraph(c), p, x, y);
    for i := 0 to |p| - 1
      invariant p[i] in w.resolved
    {
      assert Done(c, inherited, w, p[i]) && Edge(UseGraph(c), p[i], p[i + 1]);
    }
  }

  lemma ResolvedIsGrounded(c: Config, own: Work, inherited: Fields, w: Work, x: Id)
    requires Memo(c, own, inherited, w, {}) && x in w.resolved
    ensures Grounded(c, x)
  {
    forall y | Reaches(UseGraph(c), x, y) ensures Named(c, y) {
      ResolvedIsClosed(c, own, inherited, w, x, y);
      assert Done(c, inherited, w, y);
    }
  }

  /** Resolving any objects in any order, in place and with a mark per object, over any `use` graph:
      it succeeds exactly when none of them inherits from a missing template; then the objects
      resolved are those reached, each that meets no ring holds what the law of inheritance gives it,
      and every object not reached is as parsed. */
  lemma {:induction false} ResolveAllRefines(c: Config, own: Work, inherited: Fields, w: Work, order: seq<Id>)
    requires Inherits(c, own, inherited) && Memo(c, own, inherited, w, {})
    requires forall x :: x in order ==> x in c.use
    ensures ResolveAll(c, w, order).ok <==> forall x :: x in order ==> Grounded(c, x)
    ensures ResolveAll(c, w, order).ok ==>
              Memo(c, own, inherited, ResolveAll(c, w, order).work, {}) &&
              forall y :: y in ResolveAll(c, w, order).work.resolved <==>
                          y in w.resolved || Requested(c, order, y)
    decreases |order|
  {
    if order != [] {
      var x := order[0];
      var first := Resolve(c, w, x);
      ResolveRefines(c, own, inherited, w, x, {});
      if !first.ok {
        FailureMeansMissing(c, w, x);
      } else {
        ResolvedIsGrounded(c, own, inherited, first.work, x);
        ResolveAllRefines(c, own, inherited, first.work, order[1..]);
        ResolveReaches(c, w, x);
        forall y ensures y in first.work.resolved <==> y in w.resolved || Reaches(UseGraph(c), x, y) {
          if Reaches(UseGraph(c), x, y) {
            ResolvedIsClosed(c, own, inherited, first.work, x, y);
          }
        }
        RequestedSplit(c, order);
      }
    }
  }

  lemma RequestedSplit(c: Config, order: seq<Id>)
    requires order != []
    ensures forall y :: Requested(c, order, y) <==>
              Reaches(UseGraph(c), order[0], y) || Requested(c, order[1..], y)
  {
    forall y | Requested(c, order[1..], y) ensures Requested(c, order, y) {
      var i :| 0 <= i < |order| - 1 && Reaches(UseGraph(c), order[1..][i], y);
      assert order[i + 1] == order[1..][i];
    }
    forall y | Requested(c, order, y) && !Reaches(UseGraph(c), order[0], y) ensures Requested(c, order[1..], y) {
      var i :| 0 <= i < |order| && Reaches(UseGraph(c), order[i], y);
      assert order[1..][i - 1] == order[i];
    }
  }

  /** The order in which objects are resolved decides neither whether it succeeds, nor which objects
      are resolved, nor the fields of an object that meets no ring. */
  lemma OrderIndependent(c: Config, fields: Fields, a: seq<Id>, b: seq<Id>)
    requires c.Valid() && Fits(c, Work(fields, {}))
    requires forall x :: x in a ==> x in c.use
    requires forall x :: x in a <==> x in b
    ensures var left, right := ResolveAll(c, Work(fields, {}), a), ResolveAll(c, Work(fields, {}), b);
            left.ok == right.ok && (left.ok ==> Alike(c, left.work, right.work)) &&
            (left.ok && (forall x :: x in a ==> Rooted(c, x)) ==> left.work == right.work)
  {
    var own := Work(fields, {});
    InheritanceExists(c, own);
    SameOutcome(c, own, AllInherited(c, own), a, b);
  }

  ghost predicate Alike(c: Config, w: Work, v: Work) {
    Fits(c, w) && Fits(c, v) && w.resolved == v.resolved &&
    forall x :: x in c.use && Rooted(c, x) ==> w.fields[x] == v.fields[x]
  }

  lemma SameOutcome(c: Config, own: Work, inherited: Fields, a: seq<Id>, b: seq<Id>)
    requires Inherits(c, own, inherited) && own.resolved == {}
    requires forall x :: x in a ==> x in c.use
    requires forall x :: x in a <==> x in b
    ensures ResolveAll(c, own, a).ok == ResolveAll(c, own, b).ok
    ensures ResolveAll(c, own, a).ok ==> Alike(c, ResolveAll(c, own, a).work, ResolveAll(c, own, b).work)
    ensures ResolveAll(c, own, a).ok && (forall x :: x in a ==> Rooted(c, x)) ==>
              ResolveAll(c, own, a).work == ResolveAll(c, own, b).work
  {
    var left, right := ResolveAll(c, own, a), ResolveAll(c, own, b);
    FromScratch(c, own, inherited, a, left);
    FromScratch(c, own, inherited, b, right);
    if left.ok {
      RequestedAlike(c, a, b);
      MemoDetermines(c, own, inherited, left.work, right.work);
      if forall x :: x in a ==> Rooted(c, x) {
        RequestedIsRooted(c, a);
      }
    }
  }

  lemma FromScratch(c: Config, own: Work, inherited: Fields, order: seq<Id>, o: Outcome)
    requires Inherits(c, own, inherited) && own.resolved == {}
    requires forall x :: x in order ==> x in c.use
    requires o == ResolveAll(c, own, order)
    ensures o.ok <==> forall x :: x in order ==> Grounded(c, x)
    ensures o.ok ==> Memo(c, own, inherited, o.work, {}) && forall y :: y in o.work.resolved <==> Requested(c, order, y)
  {
    ResolveAllRefines(c, own, inherited, own, order);
  }

  lemma MemoDetermines(c: Config, own: Work, inherited: Fields, w: Work, v: Work)
    requires Memo(c, own, inherited, w, {}) && Memo(c, own, inherited, v, {})
    requires forall x :: x in w.resolved <==> x in v.resolved
    ensures Alike(c, w, v)
    ensures (forall x :: x in w.resolved ==> Rooted(c, x)) ==> w == v
  {
    forall x | x in c.use && (x in w.resolved ==> Rooted(c, x)) ensures w.fields[x] == v.fields[x] {
      if x in w.resolved {
        assert Done(c, inherited, w, x) && Done(c, inherited, v, x);
      }
    }
    assert w.resolved == v.resolved;
    if forall x :: x in w.resolved ==> Rooted(c, x) {
      assert w.fields == v.fields;
    }
  }

  lemma RequestedIsRooted(c: Config, order: seq<Id>)
    requires forall x :: x in order ==> Rooted(c, x)
    ensures forall y :: Requested(c, order, y) ==> Rooted(c, y)
  {
    forall y | Requested(c, order, y) ensures Rooted(c, y) {
      var i :| 0 <= i < |order| && Reaches(UseGraph(c), order[i], y);
      ReachedIsFounded(c, order[i], y);
    }
  }

  lemma RequestedAlike(c: Config, a: seq<Id>, b: seq<Id>)
    requires forall x :: x in a <==> x in b
    ensures forall y :: Requested(c, a, y) <==> Requested(c, b, y)
  {
    forall y | Requested(c, a, y) ensures Requested(c, b, y) {
      var i :| 0 <= i < |a| && Reaches(UseGraph(c), a[i], y);
      assert a[i] in b;
    }
    forall y | Requested(c, b, y) ensures Requested(c, a, y) {
      var i :| 0 <= i < |b| && Reaches(UseGraph(c), b[i], y);
      assert b[i] in a;
    }
  }

  // ----- where an inherited field comes from

  /** A field that a further merge cannot change. */
  predicate Settled(kind: Kind, field: Field) {
    field.changed && (IsOptional(kind) ==> field.present)
  }

  lemma {:induction false} SettledFieldStays(c: Config, inherited: Fields, x: Id, fields: seq<Field>, k: nat, i: nat)
    requires Covers(c, inherited) && FoundedFrom(c, x, k) && k <= |c.use[x]| && |fields| == |c.schema|
    requires i < |c.schema| && Settled(c.schema[i], fields[i])
    ensures MergeParents(c, inherited, x, fields, k)[i] == fields[i]
    decreases |c.use[x]| - k
  {
    if k < |c.use[x]| {
      var parent := inherited[c.Parent(c.use[x][k])];
      SettledFieldStays(c, inherited, x, MergeFields(c.schema, fields, parent), k + 1, i);
    }
  }

  /** A field that is not optional is the object's own, or comes from the first template alone: the
      first merge settles it even when that template never set it. */
  lemma RequiredFieldFromFirstTemplate(c: Config, own: Work, inherited: Fields, x: Id, i: nat)
    requires Inherits(c, own, inherited) && x in c.use && Founded(c, x)
    requires i < |c.schema| && !IsOptional(c.schema[i])
    ensures c.use[x] == [] || own.fields[x][i].changed ==> inherited[x][i] == own.fields[x][i]
    ensures c.use[x] != [] && !own.fields[x][i].changed ==>
              FoundedFrom(c, x, 0) &&
              TakesOver(c.schema[i], own.fields[x][i], inherited[c.Parent(c.use[x][0])][i], inherited[x][i])
  {
    FoundedByParents(c, x);
    if c.use[x] != [] {
      var parent := inherited[c.Parent(c.use[x][0])];
      TakenTakesOver(c.schema[i], own.fields[x][i], parent[i]);
      hide TakesOver;
      SettledFieldStays(c, inherited, x, MergeFields(c.schema, own.fields[x], parent), 1, i);
    }
  }

  /** The j-th template of x has the optional field i in its inherited form. */
  ghost predicate Offers(c: Config, inherited: Fields, x: Id, j: nat, i: nat) {
    Covers(c, inherited) && FoundedFrom(c, x, 0) && j < |c.use[x]| && i < |c.schema| &&
    inherited[c.Parent(c.use[x][j])][i].present
  }

  lemma {:induction false} NoOfferKeeps(c: Config, inherited: Fields, x: Id, fields: seq<Field>, k: nat, i: nat)
    requires Covers(c, inherited) && FoundedFrom(c, x, 0) && k <= |c.use[x]| && |fields| == |c.schema|
    requires i < |c.schema| && IsOptional(c.schema[i])
    requires forall j :: k <= j < |c.use[x]| ==> !Offers(c, inherited, x, j, i)
    ensures MergeParents(c, inherited, x, fields, k)[i] == fields[i]
    decreases |c.use[x]| - k
  {
    if k < |c.use[x]| {
      assert !Offers(c, inherited, x, k, i);
      var parent := inherited[c.Parent(c.use[x][k])];
      NoOfferKeeps(c, inherited, x, MergeFields(c.schema, fields, parent), k + 1, i);
    }
  }

  lemma {:induction false} FirstOfferTaken(c: Config, inherited: Fields, x: Id, fields: seq<Field>, k: nat, j: nat,
                                           i: nat)
    requires Covers(c, inherited) && FoundedFrom(c, x, 0) && k <= j && |fields| == |c.schema|
    requires i < |c.schema| && IsOptional(c.schema[i]) && !Settled(c.schema[i], fields[i])
    requires Offers(c, inherited, x, j, i) && forall h :: k <= h < j ==> !Offers(c, inherited, x, h, i)
    ensures MergeParents(c, inherited, x, fields, k)[i]
            == Taken(c.schema[i], fields[i], inherited[c.Parent(c.use[x][j])][i])
    decreases j - k
  {
    hide Taken, AddMissing, Founded;
    var parent := inherited[c.Parent(c.use[x][k])];
    var merged := MergeFields(c.schema, fields, parent);
    if k == j {
      SettledFieldStays(c, inherited, x, merged, k + 1, i);
    } else {
      assert !Offers(c, inherited, x, k, i);
      FirstOfferTaken(c, inherited, x, merged, k + 1, j, i);
    }
  }

  /** An optional field is the object's own if it set one, else it comes from the first template, in
      the order of use, whose inherited form has it (here the j-th), if there is one. */
  lemma OptionalFieldFromFirstOffer(c: Config, own: Work, inherited: Fields, x: Id, i: nat, j: nat)
    requires Inherits(c, own, inherited) && x in c.use && Founded(c, x)
    requires i < |c.schema| && IsOptional(c.schema[i])
    requires j <= |c.use[x]| && forall h :: 0 <= h < j ==> !Offers(c, inherited, x, h, i)
    requires j < |c.use[x]| ==> Offers(c, inherited, x, j, i)
    ensures j == |c.use[x]| || (own.fields[x][i].present && own.fields[x][i].changed) ==>
              inherited[x][i] == own.fields[x][i]
    ensures j < |c.use[x]| && !(own.fields[x][i].present && own.fields[x][i].changed) ==>
              TakesOver(c.schema[i], own.fields[x][i], inherited[c.Parent(c.use[x][j])][i], inherited[x][i])
  {
    hide TakesOver;
    FoundedByParents(c, x);
    if j == |c.use[x]| {
      NoOfferKeeps(c, inherited, x, own.fields[x], 0, i);
    } else if Settled(c.schema[i], own.fields[x][i]) {
      SettledFieldStays(c, inherited, x, own.fields[x], 0, i);
    } else {
      FirstOfferTaken(c, inherited, x, own.fields[x], 0, j, i);
      TakenTakesOver(c.schema[i], own.fields[x][i], inherited[c.Parent(c.use[x][j])][i]);
    }
  }

  // ----- every merge happens once, on any graph

  function Into(merges: seq<(Id, Id)>, x: Id): seq<Id> {
    if merges == [] then []
    else (if merges[0].0 == x then [merges[0].1] else []) + Into(merges[1..], x)
  }

  lemma {:induction false} IntoConcat(a: seq<(Id, Id)>, b: seq<(Id, Id)>, x: Id)
    ensures Into(a + b, x) == Into(a, x) + Into(b, x)
  {
    if a == [] {
      assert a + b == b;
    } else {
      var head := if a[0].0 == x then [a[0].1] else [];
      assert (a + b)[1..] == a[1..] + b;
      IntoConcat(a[1..], b, x);
      ConcatAssociative(head, Into(a[1..], x), Into(b, x));
    }
  }

  /** The merges into y are one per name it uses, in order: all of them when resolution succeeded
      and y was resolved on the way, a first part of them when it failed, none otherwise. */
  ghost predicate MergedOnce(c: Config, w: Work, o: Outcome, y: Id)
    requires y in c.use
  {
    if y in o.work.resolved && y !in w.resolved then
      Into(o.merges, y) <= ParentIds(c, c.use[y]) && (o.ok ==> Into(o.merges, y) == ParentIds(c, c.use[y]))
    else Into(o.merges, y) == []
  }

  /** Cyclic `use` graphs included, resolution merges each parent of an object once per entry in its
      `use` list, and never into an object that was resolved already. */
  lemma {:induction false} ResolveMergesOnce(c: Config, w: Work, x: Id, y: Id)
    requires Fits(c, w) && x in c.use && y in c.use
    ensures MergedOnce(c, w, Resolve(c, w, x), y)
    decreases Left(c, w), 0
  {
    if x !in w.resolved {
      MarkShrinks(c, w, x);
      if y == x {
        UsesMergeSelf(c, Mark(w, x), x, 0);
        assert c.use[x][0..] == c.use[x];
      } else {
        UsesMergeOthers(c, Mark(w, x), x, 0, y);
      }
    }
  }

  lemma {:induction false} UsesMergeOthers(c: Config, w: Work, x: Id, k: nat, y: Id)
    requires Fits(c, w) && x in c.use && x in w.resolved && k <= |c.use[x]| && y in c.use && y != x
    ensures MergedOnce(c, w, ResolveUses(c, w, x, k), y)
    decreases Left(c, w), |c.use[x]| - k + 1
  {
    if k < |c.use[x]| && c.use[x][k] in c.templates {
      var parent := c.Parent(c.use[x][k]);
      var first := Resolve(c, w, parent);
      UsesUnfold(c, w, x, k);
      ResolveMergesOnce(c, w, parent, y);
      ProgressShrinks(c, w, first.work);
      if first.ok {
        var merged := MergeInto(c, first.work, x, parent);
        UsesMergeOthers(c, merged, x, k + 1, y);
        IntoSplit(first.merges, x, parent, ResolveUses(c, merged, x, k + 1).merges, y);
      }
    }
  }

  lemma {:induction false} UsesMergeSelf(c: Config, w: Work, x: Id, k: nat)
    requires Fits(c, w) && x in c.use && x in w.resolved && k <= |c.use[x]|
    ensures Into(ResolveUses(c, w, x, k).merges, x) <= ParentIds(c, c.use[x][k..])
    ensures ResolveUses(c, w, x, k).ok ==>
              Into(ResolveUses(c, w, x, k).merges, x) == ParentIds(c, c.use[x][k..])
    decreases Left(c, w), |c.use[x]| - k + 1
  {
    if k < |c.use[x]| && c.use[x][k] in c.templates {
      var parent := c.Parent(c.use[x][k]);
      var first := Resolve(c, w, parent);
      UsesUnfold(c, w, x, k);
      ResolveMergesOnce(c, w, parent, x);
      ProgressShrinks(c, w, first.work);
      if first.ok {
        var merged := MergeInto(c, first.work, x, parent);
        UsesMergeSelf(c, merged, x, k + 1);
        var rest := Into(ResolveUses(c, merged, x, k + 1).merges, x);
        IntoSplit(first.merges, x, parent, ResolveUses(c, merged, x, k + 1).merges, x);
        OneMoreParent(c, c.use[x], k, rest);
      }
    }
  }

  lemma OneMoreParent(c: Config, names: seq<string>, k: nat, rest: seq<Id>)
    requires k < |names| && names[k] in c.templates && rest <= ParentIds(c, names[k + 1..])
    ensures [c.templates[names[k]]] + rest <= ParentIds(c, names[k..])
    ensures rest == ParentIds(c, names[k + 1..]) ==> [c.templates[names[k]]] + rest == ParentIds(c, names[k..])
  {
    assert names[k..][1..] == names[k + 1..];
  }

  lemma IntoSplit(a: seq<(Id, Id)>, x: Id, parent: Id, b: seq<(Id, Id)>, y: Id)
    ensures y != x ==> Into(a + [(x, parent)] + b, y) == Into(a, y) + Into(b, y)
    ensures y == x && Into(a, x) == [] ==> Into(a + [(x, parent)] + b, x) == [parent] + Into(b, x)
  {
    IntoConcat(a + [(x, parent)], b, y);
    IntoConcat(a, [(x, parent)], y);
    assert Into([(x, parent)], y) == if y == x then [parent] else [];
  }

  // ----- the parser, updating its objects in place

  lemma UsesDone(c: Config, w: Work, x: Id)
    requires Fits(c, w) && x in c.use && x in w.resolved
    ensures ResolveUses(c, w, x, |c.use[x]|) == Outcome(w, [], true)
  {
  }

  method Search(byName: bool, data: seq<Item>, x: Item) returns (found: bool)
    ensures found <==> Holds(byName, data, x)
  {
    for k := 0 to |data|
      invariant forall i :: 0 <= i < k ==> !Same(byName, data[i], x)
    {
      if Same(byName, data[k], x) {
        return true;
      }
    }
    return false;
  }

  method CollectMissing(byName: bool, data: seq<Item>, source: seq<Item>) returns (r: seq<Item>)
    ensures r == AddMissing(byName, data, source)
  {
    r := data;
    assert source[0..] == source;
    for j := 0 to |source|
      invariant AddMissing(byName, r, source[j..]) == AddMissing(byName, data, source)
    {
      var found := Search(byName, r, source[j]);
      assert source[j..][0] == source[j] && source[j..][1..] == source[j + 1..];
      if !found {
        r := r + [source[j]];
      }
    }
  }

  method TakeField(kind: Kind, field: Field, parent: Field) returns (r: Field)
    ensures r == Taken(kind, field, parent) && TakesOver(kind, field, parent, r)
  {
    TakenTakesOver(kind, field, parent);
    hide TakesOver;
    r := field.(present := true, changed := true);
    match kind
    case Plain(_) =>
      r := r.(text := parent.text);
    case Repeated(byName) =>
      var data := CollectMissing(byName, field.data, parent.data);
      r := r.(data := data);
    case GroupSet =>
      if field.additive {
        var data := CollectMissing(false, field.data, parent.data);
        r := r.(data := data);
      } else if field.data == [] {
        r := r.(data := parent.data);
      }
    case GroupList =>
      if field.additive {
        r := r.(data := field.data + parent.data);
      } else if field.data == [] {
        r := r.(data := parent.data);
      }
  }

  class Parser {
    const config: Config
    var fields: Fields
    var resolved: set<Id>

    constructor (config: Config, fields: Fields)
      ensures this.config == config && State() == Work(fields, {})
    {
      this.config := config;
      this.fields := fields;
      resolved := {};
    }

    ghost function State(): Work
      reads this
    {
      Work(fields, resolved)
    }

    /** Merges the fields of parent into x, one after the other. */
    method Merge(x: Id, parent: Id)
      requires Fits(config, State()) && x in config.use && parent in config.use
      modifies this`fields
      ensures State() == MergeInto(config, old(State()), x, parent)
    {
      ghost var before := fields;
      for i := 0 to |config.schema|
        invariant fields.Keys == before.Keys && |fields[x]| == |config.schema|
        invariant forall y :: y in before && y != x ==> fields[y] == before[y]
        invariant forall j :: 0 <= j < i ==>
                    fields[x][j] == MergeField(config.schema[j], before[x][j], before[parent][j])
        invariant forall j :: i <= j < |config.schema| ==> fields[x][j] == before[x][j]
      {
        var kind, field, from := config.schema[i], fields[x][i], fields[parent][i];
        assert from == before[parent][i];
        if !IsOptional(kind) || from.present {
          if (IsOptional(kind) && !field.present) || !field.changed {
            var taken := TakeField(kind, field, from);
            fields := fields[x := fields[x][i := taken]];
          }
        }
      }
      assert fields[x] == MergeFields(config.schema, before[x], before[parent]);
      assert fields == before[x := MergeFields(config.schema, before[x], before[parent])];
    }

    /** Resolves one object; `ok` is false when a template it needs does not exist. */
    method ResolveTemplate(x: Id) returns (ok: bool)
      requires Fits(config, State()) && x in config.use
      modifies this
      ensures ok == Resolve(config, old(State()), x).ok
      ensures State() == Resolve(config, old(State()), x).work
      decreases Left(config, State()), 0
    {
      if x in resolved {
        return true;
      }
      MarkShrinks(config, State(), x);
      resolved := resolved + {x};
      ok := MergeUses(x);
    }

    /** The loop over the templates that x uses: each is resolved, then merged into x. */
    method MergeUses(x: Id) returns (ok: bool)
      requires Fits(config, State()) && x in config.use && x in resolved
      modifies this
      ensures ok == ResolveUses(config, old(State()), x, 0).ok
      ensures State() == ResolveUses(config, old(State()), x, 0).work
      decreases Left(config, State()), 2
    {
      hide Fits, ResolveUses, Left;
      ghost var target := ResolveUses(config, State(), x, 0);
      var k := 0;
      ok := true;
      while ok && k < |config.use[x]|
        invariant k <= |config.use[x]| && Fits(config, State()) && x in resolved
        invariant Left(config, State()) <= Left(config, old(State()))
        invariant target.ok == (ok && ResolveUses(config, State(), x, k).ok)
        invariant target.work == if ok then ResolveUses(config, State(), x, k).work else State()
        decreases |config.use[x]| - k, ok
      {
        ok := MergeUse(x, k);
        if ok {
          k := k + 1;
        }
      }
      if ok {
        UsesDone(config, State(), x);
      }
    }

    /** Resolves the k-th template that x uses and merges it into x. */
    method MergeUse(x: Id, k: nat) returns (ok: bool)
      requires Fits(config, State()) && x in config.use && x in resolved && k < |config.use[x]|
      modifies this
      ensures Fits(config, State()) && x in resolved && Left(config, State()) <= Left(config, old(State()))
      ensures ResolveUses(config, old(State()), x, k).ok == (ok && ResolveUses(config, State(), x, k + 1).ok)
      ensures ResolveUses(config, old(State()), x, k).work
              == if ok then ResolveUses(config, State(), x, k + 1).work else State()
      decreases Left(config, State()), 1
    {
      if config.use[x][k] !in config.templates {
        return false;
      }
      var parent := config.Parent(config.use[x][k]);
      ghost var w := State();
      UsesUnfold(config, w, x, k);
      ok := ResolveTemplate(parent);
      ProgressShrinks(config, w, State());
      if ok {
        Merge(x, parent);
      }
    }

    /** Resolves the given objects in turn, stopping at the first missing template. */
    method ResolveObjects(order: seq<Id>) returns (ok: bool)
      requires Fits(config, State()) && forall x :: x in order ==> x in config.use
      modifies this
      ensures ok == ResolveAll(config, old(State()), order).ok
      ensures State() == ResolveAll(config, old(State()), order).work
    {
      ghost var target := ResolveAll(config, State(), order);
      assert order[0..] == order;
      for i := 0 to |order|
        invariant Fits(config, State())
        invariant target.ok == ResolveAll(config, State(), order[i..]).ok
        invariant target.work == ResolveAll(config, State(), order[i..]).work
      {
        assert order[i..][0] == order[i] && order[i..][1..] == order[i + 1..];
        var done := ResolveTemplate(order[i]);
        if !done {
          return false;
        }
      }
      return true;
    }
  }
}
