/**
 The runtime walker of the tool seam, `tenant_values` (`services/tool_authz.py`), over a
 finite object graph that may share and cycle, and its agreement with the static detector.
 */
module TenantWalk {
  import opened Common
  import opened Reachability
  import opened TypeShapes

  /** A value: a reference to an object, a string, or anything the walker does not look into. */
  datatype Value = Ref(r: nat) | Str(s: string) | Other

  /** A model instance with its field values, a list or tuple, or a mapping. */
  datatype Obj =
    | Model(cls: ClassName, values: map<string, Value>)
    | Items(items: seq<Value>)
    | Dict(entries: map<string, Value>)

  type Heap = map<nat, Obj>

  /** One call of the walker: the parameter name it labels, the value, and `within_model`. */
  datatype Visit = Visit(name: string, value: Value, within: bool)

  function FieldsOf(models: Models, c: ClassName): seq<Field> {
    if c in models then models[c] else []
  }

  function Attr(values: map<string, Value>, name: string): Value {
    if name in values then values[name] else Other
  }

  /** The objects the visited set tracks. */
  predicate IsNode(h: Heap, v: Value) {
    v.Ref? && v.r in h && !h[v.r].Dict?
  }

  predicate BearsTenant(models: Models, o: Obj) {
    o.Model? && exists i :: 0 <= i < |FieldsOf(models, o.cls)| && FieldsOf(models, o.cls)[i].name == TENANT_FIELD
  }

  /** The tenant id of a tenant-bearing model: its field when that is a string, else empty. */
  function TenantOf(o: Obj): string
    requires o.Model?
  {
    var v := Attr(o.values, TENANT_FIELD);
    if v.Str? then v.s else ""
  }

  /** The visits a model's fields cause: every other field holding a model, list or tuple. */
  function FieldVisits(h: Heap, fields: seq<Field>, values: map<string, Value>): seq<Visit> {
    if fields == [] then []
    else
      var v := Attr(values, fields[0].name);
      (if fields[0].name != TENANT_FIELD && IsNode(h, v) then [Visit(fields[0].name, v, true)] else [])
      + FieldVisits(h, fields[1..], values)
  }

  function ItemVisits(name: string, items: seq<Value>, within: bool): seq<Visit> {
    seq(|items|, i requires 0 <= i < |items| => Visit(name, items[i], within))
  }

  function VisitsInside(models: Models, h: Heap, o: Obj, name: string, within: bool): seq<Visit> {
    match o
    case Model(cls, values) => FieldVisits(h, FieldsOf(models, cls), values)
    case Items(items) => ItemVisits(name, items, within)
    case Dict(_) => []
  }

  function OwnTenant(models: Models, o: Obj): seq<string> {
    if BearsTenant(models, o) then [TenantOf(o)] else []
  }

  /** What a value that is not a model, list or tuple contributes. */
  function LeafTenant(h: Heap, v: Visit): seq<string>
    requires !IsNode(h, v.value)
  {
    match v.value
    case Ref(r) =>
      if r !in h || v.within then []
      else
        var t := Attr(h[r].entries, TENANT_FIELD);
        if t.Str? then [t.s] else []
    case Str(s) => if IsTenantName(v.name) then [s] else []
    case Other => []
  }

  /** `tenant_values`, with the visited set threaded through. */
  function Walk(models: Models, h: Heap, v: Visit, seen: set<nat>): (res: (seq<string>, set<nat>))
    ensures seen <= res.1
    decreases h.Keys - seen, 0, 0
  {
    if !IsNode(h, v.value) then (LeafTenant(h, v), seen)
    else if v.value.r in seen then ([], seen)
    else
      var o := h[v.value.r];
      var (found, seen') := WalkAll(models, h, VisitsInside(models, h, o, v.name, v.within), seen + {v.value.r});
      (OwnTenant(models, o) + found, seen')
  }

  function WalkAll(models: Models, h: Heap, vs: seq<Visit>, seen: set<nat>): (res: (seq<string>, set<nat>))
    ensures seen <= res.1
    decreases h.Keys - seen, 1, |vs|
  {
    if vs == [] then ([], seen)
    else
      var (found, seen') := Walk(models, h, vs[0], seen);
      var (more, seen'') := WalkAll(models, h, vs[1..], seen');
      (found + more, seen'')
  }

  lemma WalkAllCons(models: Models, h: Heap, v: Visit, vs: seq<Visit>, seen: set<nat>, found: seq<string>)
    ensures
      var (here, seen') := Walk(models, h, v, seen);
      var (more, seen'') := WalkAll(models, h, vs, seen');
      && WalkAll(models, h, [v] + vs, seen).1 == seen''
      && found + WalkAll(models, h, [v] + vs, seen).0 == (found + here) + more
  {
  }

  /** The walker as the source runs it: loops that grow `found`, and a visited set that the
      recursive calls share. */
  method TenantValues(models: Models, h: Heap, name: string, value: Value, within: bool, seen: set<nat>)
    returns (found: seq<string>, seen': set<nat>)
    ensures (found, seen') == Walk(models, h, Visit(name, value, within), seen)
    decreases h.Keys - seen
  {
    found, seen' := [], seen;
    ghost var goal := Walk(models, h, Visit(name, value, within), seen);
    if value.Ref? && value.r in h && !h[value.r].Dict? {
      if value.r in seen {
        return;
      }
      seen' := seen' + {value.r};
      match h[value.r]
      case Model(cls, values) =>
        var fields := FieldsOf(models, cls);
        if BearsTenant(models, h[value.r]) {
          found := [TenantOf(h[value.r])];
        }
        assert fields[0..] == fields;
        for i := 0 to |fields|
          invariant seen + {value.r} <= seen'
          invariant goal.0 == found + WalkAll(models, h, FieldVisits(h, fields[i..], values), seen').0
          invariant goal.1 == WalkAll(models, h, FieldVisits(h, fields[i..], values), seen').1
        {
          assert fields[i..][1..] == fields[i + 1..];
          var field := Attr(values, fields[i].name);
          if fields[i].name != TENANT_FIELD && IsNode(h, field) {
            var visit := Visit(fields[i].name, field, true);
            WalkAllCons(models, h, visit, FieldVisits(h, fields[i + 1..], values), seen', found);
            var more;
            more, seen' := TenantValues(models, h, fields[i].name, field, true, seen');
            found := found + more;
          } else {
            assert FieldVisits(h, fields[i..], values) == FieldVisits(h, fields[i + 1..], values);
          }
        }
        assert WalkAll(models, h, FieldVisits(h, fields[|fields|..], values), seen') == ([], seen');
        assert goal == (found + [], seen') && found + [] == found;
        return;
      case Items(items) =>
        ghost var visits := ItemVisits(name, items, within);
        assert visits[0..] == visits;
        assert [] + goal.0 == goal.0;
        for i := 0 to |items|
          invariant seen + {value.r} <= seen'
          invariant goal.0 == found + WalkAll(models, h, visits[i..], seen').0
          invariant goal.1 == WalkAll(models, h, visits[i..], seen').1
        {
          assert visits[i..] == [visits[i]] + visits[i + 1..];
          WalkAllCons(models, h, visits[i], visits[i + 1..], seen', found);
          var more;
          more, seen' := TenantValues(models, h, name, items[i], within, seen');
          found := found + more;
        }
        assert WalkAll(models, h, visits[|items|..], seen') == ([], seen');
        assert goal == (found + [], seen') && found + [] == found;
        return;
    }
    match value
    case Ref(r) =>
      if r in h && !within {
        var tenant := Attr(h[r].entries, TENANT_FIELD);
        if tenant.Str? {
          found := [tenant.s];
        }
      }
    case Str(s) =>
      if IsTenantName(name) {
        found := [s];
      }
    case Other =>
  }

  /** The nodes a list of visits starts from, and the edges of the object graph: a model's
      fields other than `tenant_id`, and the items of a list or tuple. */
  function Starts(h: Heap, vs: seq<Visit>): set<nat> {
    set v | v in vs && IsNode(h, v.value) :: v.value.r
  }

  function ObjGraph(models: Models, h: Heap): Graph<nat> {
    map r | r in h && !h[r].Dict? :: Starts(h, VisitsInside(models, h, h[r], "", false))
  }

  lemma {:induction false} FieldVisitsIgnoresOrder(h: Heap, fields: seq<Field>, values: map<string, Value>)
    ensures forall v | v in FieldVisits(h, fields, values) ::
              v.within && IsNode(h, v.value) && exists f :: f in fields && f.name == v.name && f.name != TENANT_FIELD
                                                     && Attr(values, f.name) == v.value
    ensures forall f | f in fields && f.name != TENANT_FIELD && IsNode(h, Attr(values, f.name)) ::
              Visit(f.name, Attr(values, f.name), true) in FieldVisits(h, fields, values)
  {
    if fields != [] {
      FieldVisitsIgnoresOrder(h, fields[1..], values);
    }
  }

  lemma StartsOfVisits(models: Models, h: Heap, o: Obj, name: string, within: bool)
    ensures Starts(h, VisitsInside(models, h, o, name, within)) == Starts(h, VisitsInside(models, h, o, "", false))
  {
    if o.Items? {
      var a, b := ItemVisits(name, o.items, within), ItemVisits("", o.items, false);
      forall r
        ensures r in Starts(h, a) <==> r in Starts(h, b)
      {
        if r in Starts(h, a) {
          var v :| v in a && IsNode(h, v.value) && v.value.r == r;
          var i :| 0 <= i < |a| && a[i] == v;
          assert b[i] in b && b[i].value == v.value;
        }
        if r in Starts(h, b) {
          var v :| v in b && IsNode(h, v.value) && v.value.r == r;
          var i :| 0 <= i < |b| && b[i] == v;
          assert a[i] in a && a[i].value == v.value;
        }
      }
    }
  }

  lemma ObjGraphContained(models: Models, h: Heap)
    ensures Contained(ObjGraph(models, h))
  {
  }

  /** What a walk has established, whatever the visited set it started from. */
  ghost predicate Walked(models: Models, h: Heap, vs: seq<Visit>, seen: set<nat>, found: seq<string>, seen': set<nat>) {
    var g := ObjGraph(models, h);
    && Starts(h, vs) <= seen'
    && (forall r | r in seen' - seen :: r in g && g[r] <= seen')
    && (forall s: set<nat> | Closed(g, s) && Starts(h, vs) <= s :: seen' - seen <= s)
    && (forall r | r in seen' - seen && BearsTenant(models, h[r]) :: TenantOf(h[r]) in found)
  }

  lemma WalkIsWalked(models: Models, h: Heap, v: Visit, seen: set<nat>)
    ensures var (found, seen') := Walk(models, h, v, seen); Walked(models, h, [v], seen, found, seen')
    decreases h.Keys - seen, 0, 0
  {
    assert Starts(h, [v]) == if IsNode(h, v.value) then {v.value.r} else {};
    if IsNode(h, v.value) && v.value.r !in seen {
      var r, o := v.value.r, h[v.value.r];
      var inside := VisitsInside(models, h, o, v.name, v.within);
      WalkAllIsWalked(models, h, inside, seen + {r});
      StartsOfVisits(models, h, o, v.name, v.within);
      var (found, seen') := Walk(models, h, v, seen);
      var g := ObjGraph(models, h);
      assert g[r] == Starts(h, inside);
      forall s: set<nat> | Closed(g, s) && Starts(h, [v]) <= s
        ensures seen' - seen <= s
      {
        assert r in s && g[r] <= s;
      }
    }
  }

  lemma WalkAllIsWalked(models: Models, h: Heap, vs: seq<Visit>, seen: set<nat>)
    ensures var (found, seen') := WalkAll(models, h, vs, seen); Walked(models, h, vs, seen, found, seen')
    decreases h.Keys - seen, 1, |vs|
  {
    if vs != [] {
      var (_, seen') := Walk(models, h, vs[0], seen);
      WalkIsWalked(models, h, vs[0], seen);
      WalkAllIsWalked(models, h, vs[1..], seen');
      assert Starts(h, vs) == Starts(h, [vs[0]]) + Starts(h, vs[1..]) by {
        assert vs == [vs[0]] + vs[1..];
      }
    }
  }

  predicate IsDict(h: Heap, v: Value) {
    v.Ref? && v.r in h && h[v.r].Dict?
  }

  /** `outer` covers the lists and tuples reachable without entering a model, and none of
      them holds a mapping. */
  predicate OuterOk(h: Heap, outer: set<nat>) {
    forall r, i | r in outer && r in h && h[r].Items? && 0 <= i < |h[r].items| :: OuterValue(h, outer, h[r].items[i])
  }

  predicate OuterValue(h: Heap, outer: set<nat>, v: Value) {
    !IsDict(h, v) && (v.Ref? && v.r in h && h[v.r].Items? ==> v.r in outer)
  }

  /** `free` covers the lists and tuples a tenant-named field can lead to, and none of them
      holds a string. */
  predicate TextFreeOk(h: Heap, free: set<nat>) {
    forall r, i | r in free && r in h && h[r].Items? && 0 <= i < |h[r].items| :: TextFreeValue(h, free, h[r].items[i])
  }

  predicate TextFreeValue(h: Heap, free: set<nat>, v: Value) {
    !v.Str? && (v.Ref? && v.r in h && h[v.r].Items? ==> v.r in free)
  }

  /** Every tenant-named field, other than `tenant_id`, of the models in `s` is free of text. */
  ghost predicate FieldsOk(models: Models, h: Heap, s: set<nat>, free: set<nat>) {
    forall r, f | r in s && r in h && h[r].Model? && f in FieldsOf(models, h[r].cls) && f.name != TENANT_FIELD
                  && IsTenantName(f.name) && IsNode(h, Attr(h[r].values, f.name)) ::
      TextFreeValue(h, free, Attr(h[r].values, f.name))
  }

  /** The nodes `s`, closed under the walk's edges, offer nothing but their models' own ids. */
  ghost predicate SurfaceOk(models: Models, h: Heap, s: set<nat>, outer: set<nat>, free: set<nat>) {
    Closed(ObjGraph(models, h), s) && OuterOk(h, outer) && TextFreeOk(h, free) && FieldsOk(models, h, s, free)
  }

  predicate VisitOk(h: Heap, s: set<nat>, outer: set<nat>, free: set<nat>, v: Visit) {
    && (IsNode(h, v.value) ==> v.value.r in s)
    && (IsTenantName(v.name) ==> TextFreeValue(h, free, v.value))
    && (v.within || OuterValue(h, outer, v.value))
  }

  ghost predicate FromModels(models: Models, h: Heap, seen: set<nat>, found: seq<string>, seen': set<nat>) {
    forall t | t in found :: exists r :: r in seen' - seen && r in h && BearsTenant(models, h[r]) && TenantOf(h[r]) == t
  }

  lemma InsideVisitsOk(models: Models, h: Heap, s: set<nat>, outer: set<nat>, free: set<nat>, v: Visit)
    requires SurfaceOk(models, h, s, outer, free) && VisitOk(h, s, outer, free, v) && IsNode(h, v.value)
    ensures forall u | u in VisitsInside(models, h, h[v.value.r], v.name, v.within) :: VisitOk(h, s, outer, free, u)
  {
    var (r, o) := (v.value.r, h[v.value.r]);
    var inside := VisitsInside(models, h, o, v.name, v.within);
    StartsOfVisits(models, h, o, v.name, v.within);
    assert ObjGraph(models, h)[r] <= s;
    forall u | u in inside
      ensures VisitOk(h, s, outer, free, u)
    {
      if IsNode(h, u.value) {
        assert u.value.r in Starts(h, inside);
      }
      match o
      case Model(cls, values) => FieldVisitsIgnoresOrder(h, FieldsOf(models, cls), values);
      case Items(items) =>
        var i :| 0 <= i < |inside| && inside[i] == u;
        assert u.value == items[i];
    }
  }

  lemma WalkFindsModels(models: Models, h: Heap, s: set<nat>, outer: set<nat>, free: set<nat>, v: Visit, seen: set<nat>)
    requires SurfaceOk(models, h, s, outer, free) && VisitOk(h, s, outer, free, v)
    ensures var (found, seen') := Walk(models, h, v, seen); FromModels(models, h, seen, found, seen')
    decreases h.Keys - seen, 0, 0
  {
    if IsNode(h, v.value) && v.value.r !in seen {
      var r := v.value.r;
      InsideVisitsOk(models, h, s, outer, free, v);
      WalkAllFindsModels(models, h, s, outer, free, VisitsInside(models, h, h[r], v.name, v.within), seen + {r});
    }
  }

  lemma WalkAllFindsModels(models: Models, h: Heap, s: set<nat>, outer: set<nat>, free: set<nat>, vs: seq<Visit>,
                           seen: set<nat>)
    requires SurfaceOk(models, h, s, outer, free) && forall v | v in vs :: VisitOk(h, s, outer, free, v)
    ensures var (found, seen') := WalkAll(models, h, vs, seen); FromModels(models, h, seen, found, seen')
    decreases h.Keys - seen, 1, |vs|
  {
    if vs != [] {
      var (here, seen') := Walk(models, h, vs[0], seen);
      var (more, seen'') := WalkAll(models, h, vs[1..], seen');
      WalkFindsModels(models, h, s, outer, free, vs[0], seen);
      WalkAllFindsModels(models, h, s, outer, free, vs[1..], seen');
      assert WalkAll(models, h, vs, seen) == (here + more, seen'');
      assert forall t | t in here + more :: t in here || t in more;
    }
  }

  ghost function ReachableFrom(models: Models, h: Heap, value: Value): set<nat> {
    ReachSet(ObjGraph(models, h), if IsNode(h, value) then {value.r} else {})
  }

  /** Exactness, on every finite graph with any sharing and any cycles: the walk visits the
      reachable objects; every reachable tenant-bearing model contributes its tenant id, with
      no condition; and when the argument offers no mapping outside a model and no
      tenant-named string, nothing else is ever found. */
  lemma TenantValuesExact(models: Models, h: Heap, name: string, value: Value)
    ensures
      var (found, seen) := Walk(models, h, Visit(name, value, false), {});
      var reach := ReachableFrom(models, h, value);
      && seen == reach
      && (forall r | r in reach && BearsTenant(models, h[r]) :: TenantOf(h[r]) in found)
      && (forall outer: set<nat>, free: set<nat> |
            SurfaceOk(models, h, reach, outer, free) && VisitOk(h, reach, outer, free, Visit(name, value, false)) ::
            forall t :: t in found <==> exists r :: r in reach && BearsTenant(models, h[r]) && TenantOf(h[r]) == t)
  {
    var v := Visit(name, value, false);
    var (found, seen) := Walk(models, h, v, {});
    var g := ObjGraph(models, h);
    var roots := if IsNode(h, value) then {value.r} else {};
    assert Starts(h, [v]) == roots;
    ObjGraphContained(models, h);
    ReachSetIsLeastClosed(g, roots);
    WalkIsWalked(models, h, v, {});
    assert Closed(g, seen);
    assert seen == seen - {};
    forall outer: set<nat>, free: set<nat> | SurfaceOk(models, h, seen, outer, free) && VisitOk(h, seen, outer, free, v)
      ensures FromModels(models, h, {}, found, seen)
    {
      WalkFindsModels(models, h, seen, outer, free, v, {});
    }
  }

  /** The class of strings; an enumeration of strings counts as it. */
  const TEXT: ClassName := "str"

  /** A value of the annotation can be a string, or hold one in a list or tuple. */
  predicate TextIn(models: Models, a: Ann) {
    match a
    case Class(c) => c !in models && c == TEXT
    case BareMapping => false
    case Gen(origin, args) => !origin.MappingOf? && exists i :: 0 <= i < |args| && TextIn(models, args[i])
  }

  /** A value of the annotation can hold a string in a list or tuple. */
  predicate ListsText(models: Models, a: Ann) {
    match a
    case Class(_) => false
    case BareMapping => false
    case Gen(origin, args) =>
      match origin
      case MappingOf => false
      case UnionOf => exists i :: 0 <= i < |args| && ListsText(models, args[i])
      case _ => TextIn(models, a)
  }

  /** What the runtime walk extracts and the static detector does not look for. */
  predicate IsBlindField(models: Models, f: Field) {
    f.name != TENANT_FIELD && IsTenantName(f.name) && ListsText(models, f.ann)
  }

  predicate HasBlindField(models: Models, c: ClassName) {
    c in models && exists i :: 0 <= i < |models[c]| && IsBlindField(models, models[c][i])
  }

  /** Some class reachable from the annotation has such a field. */
  ghost predicate ReachesBlindField(models: Models, a: Ann) {
    exists c :: HasBlindField(models, c) && Reaches(ClassGraph(models, false), ClassesIn(models, a, false), c)
  }

  /** A consistent typing of a possibly cyclic graph: each pair in it is locally right, and
      the parts it rests on are pairs in it too. Instances are of exactly their class; an
      ordinary class holds no model, list, tuple or mapping, and `str` holds exactly strings. */
  ghost predicate WellTyped(models: Models, h: Heap, typing: set<(Value, Ann)>) {
    forall p | p in typing :: Fits(models, h, typing, p.0, p.1)
  }

  ghost predicate SomeArm(typing: set<(Value, Ann)>, v: Value, args: seq<Ann>) {
    exists i :: 0 <= i < |args| && (v, args[i]) in typing
  }

  ghost predicate Fits(models: Models, h: Heap, typing: set<(Value, Ann)>, v: Value, a: Ann) {
    match a
    case Class(c) =>
      if c in models then
        && v.Ref? && v.r in h && h[v.r].Model? && h[v.r].cls == c
        && forall i | 0 <= i < |models[c]| :: (Attr(h[v.r].values, models[c][i].name), models[c][i].ann) in typing
      else !(v.Ref? && v.r in h) && (v.Str? <==> c == TEXT)
    case BareMapping => IsDict(h, v)
    case Gen(origin, args) =>
      match origin
      case UnionOf => SomeArm(typing, v, args)
      case MappingOf => IsDict(h, v)
      case ListOf =>
        && v.Ref? && v.r in h && h[v.r].Items?
        && forall i | 0 <= i < |h[v.r].items| :: SomeArm(typing, h[v.r].items[i], args)
      case TupleOf =>
        && v.Ref? && v.r in h && h[v.r].Items? && |h[v.r].items| == |args|
        && forall i | 0 <= i < |args| :: (h[v.r].items[i], args[i]) in typing
  }

  /** What a list or tuple holds is typed by some argument of its annotation. */
  lemma ItemIsTyped(models: Models, h: Heap, typing: set<(Value, Ann)>, v: Value, a: Ann, i: nat)
    requires Fits(models, h, typing, v, a) && IsNode(h, v) && h[v.r].Items? && i < |h[v.r].items|
    requires a.Gen? && !a.origin.UnionOf?
    ensures SomeArm(typing, h[v.r].items[i], a.args)
  {
  }

  /** Peeling unions off: some arm that is not a union types the value, mentions no further
      class, and is a mapping only if the union was. */
  lemma {:induction false} Resolve(models: Models, h: Heap, typing: set<(Value, Ann)>, v: Value, a: Ann)
    returns (arm: Ann)
    requires WellTyped(models, h, typing) && (v, a) in typing
    ensures (v, arm) in typing && !(arm.Gen? && arm.origin.UnionOf?)
    ensures ClassesIn(models, arm, false) <= ClassesIn(models, a, false)
    ensures IsMapping(arm) ==> IsMapping(a)
    ensures TextIn(models, arm) ==> TextIn(models, a)
    ensures ListsText(models, arm) ==> ListsText(models, a)
  {
    arm := a;
    if a.Gen? && a.origin.UnionOf? {
      assert Fits(models, h, typing, v, a);
      var i :| 0 <= i < |a.args| && (v, a.args[i]) in typing;
      ClassesInMember(models, a.args, false, i);
      arm := Resolve(models, h, typing, v, a.args[i]);
    }
  }

  /** The nodes typed by an annotation whose classes were all ruled out. */
  ghost function Cleared(models: Models, h: Heap, typing: set<(Value, Ann)>, clear: set<ClassName>): set<nat> {
    set p | p in typing && IsNode(h, p.0) && ClassesIn(models, p.1, false) <= clear :: p.0.r
  }

  ghost function ClearedOuter(models: Models, h: Heap, typing: set<(Value, Ann)>, clear: set<ClassName>): set<nat> {
    set p | p in typing && IsNode(h, p.0) && ClassesIn(models, p.1, false) <= clear && !IsMapping(p.1) :: p.0.r
  }

  ghost predicate RuledOut(models: Models, clear: set<ClassName>) {
    forall c | c in clear ::
      c in models && !HasTenantField(models, c) && ClassesInAll(models, FieldAnns(models[c]), false) <= clear
  }

  lemma ClearedIsClosed(models: Models, h: Heap, typing: set<(Value, Ann)>, clear: set<ClassName>)
    requires WellTyped(models, h, typing) && RuledOut(models, clear)
    ensures Closed(ObjGraph(models, h), Cleared(models, h, typing, clear))
    ensures forall r | r in Cleared(models, h, typing, clear) :: r in h && !BearsTenant(models, h[r])
  {
    var cleared := Cleared(models, h, typing, clear);
    forall r | r in cleared
      ensures !BearsTenant(models, h[r]) && ObjGraph(models, h)[r] <= cleared
    {
      var p :| p in typing && IsNode(h, p.0) && ClassesIn(models, p.1, false) <= clear && p.0.r == r;
      var arm := Resolve(models, h, typing, p.0, p.1);
      assert Fits(models, h, typing, p.0, arm);
      forall v | v in VisitsInside(models, h, h[r], "", false) && IsNode(h, v.value)
        ensures v.value.r in cleared
      {
        var a := PartIsTyped(models, h, typing, clear, p.0, arm, v);
        assert (v.value, a) in typing;
      }
    }
  }

  /** Whatever the walk visits inside a typed object is itself typed, by an annotation that
      mentions no class outside `clear`. */
  lemma PartIsTyped(models: Models, h: Heap, typing: set<(Value, Ann)>, clear: set<ClassName>, value: Value, arm: Ann,
                    v: Visit)
    returns (a: Ann)
    requires Fits(models, h, typing, value, arm) && !(arm.Gen? && arm.origin.UnionOf?) && IsNode(h, value)
    requires RuledOut(models, clear) && ClassesIn(models, arm, false) <= clear
    requires v in VisitsInside(models, h, h[value.r], "", false)
    ensures (v.value, a) in typing && ClassesIn(models, a, false) <= clear
  {
    match h[value.r]
    case Model(cls, values) =>
      FieldVisitsIgnoresOrder(h, FieldsOf(models, cls), values);
      var f :| f in models[cls] && f.name == v.name && Attr(values, f.name) == v.value;
      var i :| 0 <= i < |models[cls]| && models[cls][i] == f;
      ClassesInMember(models, FieldAnns(models[cls]), false, i);
      a := f.ann;
    case Items(items) =>
      var i :| 0 <= i < |items| && items[i] == v.value;
      ItemIsTyped(models, h, typing, value, arm, i);
      var j :| 0 <= j < |arm.args| && (v.value, arm.args[j]) in typing;
      ClassesInMember(models, arm.args, false, j);
      a := arm.args[j];
  }

  lemma ClearedOuterOk(models: Models, h: Heap, typing: set<(Value, Ann)>, clear: set<ClassName>)
    requires WellTyped(models, h, typing) && RuledOut(models, clear)
    ensures OuterOk(h, ClearedOuter(models, h, typing, clear))
    ensures forall p | p in typing && ClassesIn(models, p.1, false) <= clear && !IsMapping(p.1) ::
              OuterValue(h, ClearedOuter(models, h, typing, clear), p.0)
  {
    var outer := ClearedOuter(models, h, typing, clear);
    forall p | p in typing && ClassesIn(models, p.1, false) <= clear && !IsMapping(p.1)
      ensures OuterValue(h, outer, p.0)
    {
      var arm := Resolve(models, h, typing, p.0, p.1);
      assert Fits(models, h, typing, p.0, arm);
    }
    forall r, i | r in outer && r in h && h[r].Items? && 0 <= i < |h[r].items|
      ensures OuterValue(h, outer, h[r].items[i])
    {
      var p :| p in typing && IsNode(h, p.0) && ClassesIn(models, p.1, false) <= clear && !IsMapping(p.1) && p.0.r == r;
      var arm := Resolve(models, h, typing, p.0, p.1);
      assert Fits(models, h, typing, p.0, arm);
      ItemIsTyped(models, h, typing, p.0, arm, i);
      var j :| 0 <= j < |arm.args| && (h[r].items[i], arm.args[j]) in typing;
      ClassesInMember(models, arm.args, false, j);
      assert OuterValue(h, outer, (h[r].items[i], arm.args[j]).0);
    }
  }

  /** The lists and tuples typed by an annotation without text. */
  ghost function TextFreeNodes(models: Models, h: Heap, typing: set<(Value, Ann)>): set<nat> {
    set p | p in typing && IsNode(h, p.0) && !TextIn(models, p.1) :: p.0.r
  }

  lemma TextFreeNodesOk(models: Models, h: Heap, typing: set<(Value, Ann)>)
    requires WellTyped(models, h, typing)
    ensures TextFreeOk(h, TextFreeNodes(models, h, typing))
    ensures forall p | p in typing && !TextIn(models, p.1) :: TextFreeValue(h, TextFreeNodes(models, h, typing), p.0)
  {
    var free := TextFreeNodes(models, h, typing);
    forall p | p in typing && !TextIn(models, p.1)
      ensures TextFreeValue(h, free, p.0)
    {
      var arm := Resolve(models, h, typing, p.0, p.1);
      assert Fits(models, h, typing, p.0, arm);
    }
    forall r, i | r in free && r in h && h[r].Items? && 0 <= i < |h[r].items|
      ensures TextFreeValue(h, free, h[r].items[i])
    {
      var p :| p in typing && IsNode(h, p.0) && !TextIn(models, p.1) && p.0.r == r;
      var arm := Resolve(models, h, typing, p.0, p.1);
      assert Fits(models, h, typing, p.0, arm);
      ItemIsTyped(models, h, typing, p.0, arm, i);
      var j :| 0 <= j < |arm.args| && (h[r].items[i], arm.args[j]) in typing;
      assert TextFreeValue(h, free, (h[r].items[i], arm.args[j]).0);
    }
  }

  /** A node of an annotation that lists no text is free of text. */
  lemma ListlessIsTextFree(models: Models, h: Heap, typing: set<(Value, Ann)>, v: Value, a: Ann)
    requires WellTyped(models, h, typing) && (v, a) in typing && !ListsText(models, a) && IsNode(h, v)
    ensures TextFreeValue(h, TextFreeNodes(models, h, typing), v)
  {
  }

  lemma ClearedFieldsOk(models: Models, h: Heap, typing: set<(Value, Ann)>, clear: set<ClassName>)
    requires WellTyped(models, h, typing) && RuledOut(models, clear)
    requires forall c | c in clear :: !HasBlindField(models, c)
    ensures FieldsOk(models, h, Cleared(models, h, typing, clear), TextFreeNodes(models, h, typing))
  {
    var (cleared, free) := (Cleared(models, h, typing, clear), TextFreeNodes(models, h, typing));
    forall r, f | r in cleared && r in h && h[r].Model? && f in FieldsOf(models, h[r].cls) && f.name != TENANT_FIELD
                  && IsTenantName(f.name) && IsNode(h, Attr(h[r].values, f.name))
      ensures TextFreeValue(h, free, Attr(h[r].values, f.name))
    {
      var p :| p in typing && IsNode(h, p.0) && ClassesIn(models, p.1, false) <= clear && p.0.r == r;
      var arm := Resolve(models, h, typing, p.0, p.1);
      assert Fits(models, h, typing, p.0, arm);
      var i :| 0 <= i < |models[h[r].cls]| && models[h[r].cls][i] == f;
      assert h[r].cls in clear && !IsBlindField(models, models[h[r].cls][i]);
      ListlessIsTextFree(models, h, typing, Attr(h[r].values, f.name), f.ann);
    }
  }

  /** The classes reachable from an annotation the static detector clears. */
  lemma ReachIsRuledOut(models: Models, a: Ann)
    requires !NestsTenant(models, a, {}).0
    ensures
      var clear := ReachSet(ClassGraph(models, false), ClassesIn(models, a, false));
      RuledOut(models, clear) && ClassesIn(models, a, false) <= clear
  {
    var (g, roots) := (ClassGraph(models, false), ClassesIn(models, a, false));
    assert ClassesInAll(models, [a], false) == roots;
    ClassesInModels(models, [a], false);
    ClassGraphContained(models, false);
    ReachSetIsLeastClosed(g, roots);
    NestsTenantIffReachable(models, a);
    forall c | c in ReachSet(g, roots)
      ensures c in models && ClassesInAll(models, FieldAnns(models[c]), false) <= ReachSet(g, roots)
    {
      assert g[c] <= ReachSet(g, roots);
    }
  }

  lemma ClearedFindsNothing(models: Models, h: Heap, typing: set<(Value, Ann)>, v: Visit, a: Ann)
    requires WellTyped(models, h, typing) && (v.value, a) in typing && !ReachesBlindField(models, a)
    requires !IsTenantName(v.name) && !IsTenantBearing(models, a)
    ensures Walk(models, h, v, {}).0 == []
  {
    var (found, seen) := Walk(models, h, v, {});
    var clear := ReachSet(ClassGraph(models, false), ClassesIn(models, a, false));
    ReachIsRuledOut(models, a);
    ClearedIsClosed(models, h, typing, clear);
    ClearedOuterOk(models, h, typing, clear);
    TextFreeNodesOk(models, h, typing);
    ClearedFieldsOk(models, h, typing, clear);
    var (outer, free) := (ClearedOuter(models, h, typing, clear), TextFreeNodes(models, h, typing));
    var cleared := Cleared(models, h, typing, clear);
    assert OuterValue(h, outer, (v.value, a).0);
    assert IsNode(h, v.value) ==> (v.value, a).0.r in cleared;
    WalkFindsModels(models, h, cleared, outer, free, v, {});
    WalkIsWalked(models, h, v, {});
    assert Starts(h, [v]) <= cleared;
    FoundMeansModel(models, h, found, seen);
  }

  lemma FoundMeansModel(models: Models, h: Heap, found: seq<string>, seen: set<nat>)
    requires FromModels(models, h, {}, found, seen)
    ensures found != [] ==> exists r :: r in seen - {} && r in h && BearsTenant(models, h[r])
  {
    if found != [] {
      assert found[0] in found;
    }
  }

  /** Runtime implies static: if extraction finds any tenant id in a value that inhabits a
      parameter's annotation, the static detector flags that parameter, however the type table
      and the value recurse, unless a class reachable from the annotation has a blind field. */
  lemma RuntimeImpliesStatic(models: Models, h: Heap, typing: set<(Value, Ann)>, name: string, value: Value, a: Ann)
    requires WellTyped(models, h, typing) && (value, a) in typing && !ReachesBlindField(models, a)
    requires Walk(models, h, Visit(name, value, false), {}).0 != []
    ensures AcceptsTenantBearingParam(models, [(name, a)])
  {
    assert [(name, a)][0] == (name, a);
    if !IsTenantName(name) && !IsTenantBearing(models, a) {
      ClearedFindsNothing(models, h, typing, Visit(name, value, false), a);
    }
  }

  lemma WalkAllOne(models: Models, h: Heap, v: Visit, seen: set<nat>)
    ensures WalkAll(models, h, [v], seen) == Walk(models, h, v, seen)
  {
    WalkAllCons(models, h, v, [], seen, []);
    assert [v] + [] == [v];
    var (here, seen') := Walk(models, h, v, seen);
    assert WalkAll(models, h, [], seen') == ([], seen');
    assert [] + WalkAll(models, h, [v], seen).0 == WalkAll(models, h, [v], seen).0;
    assert ([] + here) + [] == here;
  }

  const LIST_OF_STR := Gen(ListOf, [Class("str")])
  const ODD_FIELDS := [Field("buyer_tenant_id", LIST_OF_STR, None)]
  const ODD_MODELS: Models := map["M" := ODD_FIELDS]
  const ODD_HEAP: Heap := map[0 := Model("M", map["buyer_tenant_id" := Ref(1)]), 1 := Items([Str("t2")])]
  const ODD_TYPING := {(Ref(0), Class("M")), (Ref(1), LIST_OF_STR), (Str("t2"), Class("str"))}

  lemma OddHeapIsTyped()
    ensures WellTyped(ODD_MODELS, ODD_HEAP, ODD_TYPING)
  {
    assert SomeArm(ODD_TYPING, Str("t2"), [Class("str")]) by {
      assert (Str("t2"), [Class("str")][0]) in ODD_TYPING;
    }
  }

  lemma OddFieldIsInvisible()
    ensures !AcceptsTenantBearingParam(ODD_MODELS, [("m", Class("M"))])
  {
    var str := [Class("str")];
    assert str[1..] == [] && [LIST_OF_STR][1..] == [];
    assert FieldAnns(ODD_FIELDS) == [LIST_OF_STR];
    assert {} + {"M"} == {"M"};
    assert AnyNestsTenant(ODD_MODELS, str, {"M"}) == (false, {"M"});
    assert NestsTenant(ODD_MODELS, LIST_OF_STR, {"M"}) == (false, {"M"});
    assert AnyNestsTenant(ODD_MODELS, [LIST_OF_STR], {"M"}) == (false, {"M"});
    assert NestsTenant(ODD_MODELS, Class("M"), {}) == (false, {"M"});
  }

  lemma TenantNamedListIsExtracted(models: Models, h: Heap, name: string, r: nat, t: string, seen: set<nat>)
    requires r in h && h[r] == Items([Str(t)]) && r !in seen && IsTenantName(name)
    ensures Walk(models, h, Visit(name, Ref(r), true), seen) == ([t], seen + {r})
  {
    var leaf := Visit(name, Str(t), true);
    WalkAllOne(models, h, leaf, seen + {r});
    assert VisitsInside(models, h, h[r], name, true) == [leaf];
    assert OwnTenant(models, h[r]) + [t] == [t];
  }

  lemma OnlyFieldIsWalked(models: Models, h: Heap, name: string, r: nat, f: Field, seen: set<nat>)
    requires r in h && h[r].Model? && FieldsOf(models, h[r].cls) == [f] && r !in seen
    requires f.name != TENANT_FIELD && IsNode(h, Attr(h[r].values, f.name))
    ensures Walk(models, h, Visit(name, Ref(r), false), seen)
            == Walk(models, h, Visit(f.name, Attr(h[r].values, f.name), true), seen + {r})
  {
    var inner := Visit(f.name, Attr(h[r].values, f.name), true);
    WalkAllOne(models, h, inner, seen + {r});
    assert [f][1..] == [];
    assert FieldVisits(h, [f], h[r].values) == [inner] + FieldVisits(h, [], h[r].values) == [inner];
    assert VisitsInside(models, h, h[r], name, false) == [inner];
    assert !BearsTenant(models, h[r]);
    assert [] + Walk(models, h, inner, seen + {r}).0 == Walk(models, h, inner, seen + {r}).0;
  }

  lemma OddNameIsTenantName(name: string)
    requires name == "buyer_tenant_id"
    ensures IsTenantName(name) && name != TENANT_FIELD
  {
    assert |name| == 15 && name[5..] == "_tenant_id";
  }

  lemma OddFieldIsExtracted()
    ensures Walk(ODD_MODELS, ODD_HEAP, Visit("m", Ref(0), false), {}).0 == ["t2"]
  {
    var f := ODD_FIELDS[0];
    OddNameIsTenantName(f.name);
    OnlyFieldIsWalked(ODD_MODELS, ODD_HEAP, "m", 0, f, {});
    TenantNamedListIsExtracted(ODD_MODELS, ODD_HEAP, f.name, 1, "t2", {} + {0});
  }

  /** The simplest blind field: a list of strings under a model field named `…_tenant_id` is
      extracted at run time and is invisible to the static detector. */
  lemma UnconventionalFieldDiverges()
    ensures WellTyped(ODD_MODELS, ODD_HEAP, ODD_TYPING) && (Ref(0), Class("M")) in ODD_TYPING
    ensures Walk(ODD_MODELS, ODD_HEAP, Visit("m", Ref(0), false), {}).0 == ["t2"]
    ensures !AcceptsTenantBearingParam(ODD_MODELS, [("m", Class("M"))])
  {
    OddHeapIsTyped();
    OddFieldIsExtracted();
    OddFieldIsInvisible();
  }

  datatype Verdict = Allowed | Denied(attempted: string) | Unbound

  /** `enforce_tenant` over one extracted id. */
  function Enforce(bound: Option<string>, claimed: string): Verdict {
    if bound == None then Unbound
    else if claimed != "" && claimed != bound.value then Denied(claimed)
    else Allowed
  }

  function Extracted(models: Models, h: Heap, arg: (string, Value)): seq<string> {
    Walk(models, h, Visit(arg.0, arg.1, false), {}).0
  }

  predicate AllEnforced(bound: Option<string>, tenants: seq<string>) {
    forall t | t in tenants :: Enforce(bound, t) == Allowed
  }

  /** One security record. */
  datatype Refusal = Refusal(tool: string, attempted: string, bound: string)

  lemma {:induction false} NoNodeNoVisit(h: Heap, fields: seq<Field>, values: map<string, Value>)
    requires forall f | f in fields && f.name != TENANT_FIELD :: !IsNode(h, Attr(values, f.name))
    ensures FieldVisits(h, fields, values) == []
  {
    if fields != [] {
      NoNodeNoVisit(h, fields[1..], values);
    }
  }

  /** A model with no nested model, list or tuple, as a message is, commits a call to exactly
      its own stamp. */
  lemma FlatModelYieldsItsTenant(models: Models, h: Heap, name: string, r: nat)
    requires r in h && BearsTenant(models, h[r])
    requires forall f | f in FieldsOf(models, h[r].cls) && f.name != TENANT_FIELD ::
               !IsNode(h, Attr(h[r].values, f.name))
    ensures Extracted(models, h, (name, Ref(r))) == [TenantOf(h[r])]
  {
    NoNodeNoVisit(h, FieldsOf(models, h[r].cls), h[r].values);
    assert VisitsInside(models, h, h[r], name, false) == [];
    assert WalkAll(models, h, [], {} + {r}).0 == [];
    assert [TenantOf(h[r])] + [] == [TenantOf(h[r])];
  }

  /** `authorize_tenant_params`: every argument's tenants are enforced, in order, before the
      tool is entered; the first refusal wins, and is recorded. */
  method AuthorizeCall(models: Models, h: Heap, tool: string, args: seq<(string, Value)>, bound: Option<string>,
                       ledger: seq<Refusal>)
    returns (v: Verdict, ledger': seq<Refusal>)
    ensures v.Denied? ==> bound.Some? && v.attempted != "" && v.attempted != bound.value
                          && exists i :: 0 <= i < |args| && v.attempted in Extracted(models, h, args[i])
    ensures ledger' == if v.Denied? then ledger + [Refusal(tool, v.attempted, bound.value)] else ledger
    ensures v == Allowed <==> forall i | 0 <= i < |args| :: AllEnforced(bound, Extracted(models, h, args[i]))
    ensures v != Allowed ==>
              exists i, j :: 0 <= i < |args| && 0 <= j < |Extracted(models, h, args[i])|
                && v == Enforce(bound, Extracted(models, h, args[i])[j])
                && (forall k | 0 <= k < i :: AllEnforced(bound, Extracted(models, h, args[k])))
                && forall k | 0 <= k < j :: Enforce(bound, Extracted(models, h, args[i])[k]) == Allowed
    ensures v == Allowed ==>
              forall i, r | 0 <= i < |args| && r in ReachableFrom(models, h, args[i].1) && BearsTenant(models, h[r]) ::
                bound.Some? && TenantOf(h[r]) in {"", bound.value}
  {
    for i := 0 to |args|
      invariant forall k | 0 <= k < i :: AllEnforced(bound, Extracted(models, h, args[k]))
    {
      var tenants, _ := TenantValues(models, h, args[i].0, args[i].1, false, {});
      for j := 0 to |tenants|
        invariant forall k | 0 <= k < j :: Enforce(bound, tenants[k]) == Allowed
      {
        if Enforce(bound, tenants[j]) != Allowed {
          assert tenants[j] in Extracted(models, h, args[i]);
          v := Enforce(bound, tenants[j]);
          ledger' := if v.Denied? then ledger + [Refusal(tool, v.attempted, bound.value)] else ledger;
          return;
        }
      }
    }
    forall i, r | 0 <= i < |args| && r in ReachableFrom(models, h, args[i].1) && BearsTenant(models, h[r])
      ensures bound.Some? && TenantOf(h[r]) in {"", bound.value}
    {
      TenantValuesExact(models, h, args[i].0, args[i].1);
      assert TenantOf(h[r]) in Extracted(models, h, args[i]);
    }
    return Allowed, ledger;
  }

  /** What a mapping argument commits a call to: the string it holds under `tenant_id`, if any. */
  lemma MappingYieldsItsEntry(models: Models, h: Heap, name: string, r: nat)
    requires r in h && h[r].Dict?
    ensures
      var entries := h[r].entries;
      Extracted(models, h, (name, Ref(r)))
      == if "tenant_id" in entries && entries["tenant_id"].Str? then [entries["tenant_id"].s] else []
  {
  }

  /** A mapping inside a model is not looked into: neither one of its fields nor one in its lists. */
  lemma MappingInModelYieldsNothing(models: Models, h: Heap, name: string, r: nat, seen: set<nat>)
    requires r in h && h[r].Dict?
    ensures Walk(models, h, Visit(name, Ref(r), true), seen) == ([], seen)
    ensures forall fields, values, v | v in FieldVisits(h, fields, values) :: v.value != Ref(r)
  {
    forall fields, values, v | v in FieldVisits(h, fields, values)
      ensures v.value != Ref(r)
    {
      FieldVisitsIgnoresOrder(h, fields, values);
    }
  }

  /** A mapping among the items of an argument list is looked into. */
  lemma MappingInListYieldsItsEntry(models: Models, h: Heap, name: string, r: nat, d: nat, t: string)
    requires r in h && h[r] == Items([Ref(d)]) && d in h && h[d].Dict?
    requires "tenant_id" in h[d].entries && h[d].entries["tenant_id"] == Str(t)
    ensures Extracted(models, h, (name, Ref(r))) == [t]
  {
    var inner := Visit(name, Ref(d), false);
    WalkAllOne(models, h, inner, {} + {r});
    assert VisitsInside(models, h, h[r], name, false) == [inner];
    assert OwnTenant(models, h[r]) + [t] == [t];
  }

  /** Which names are tenant names. */
  lemma TenantNameIff(name: string)
    ensures IsTenantName(name) <==> name == "tenant_id" || (|name| >= 10 && name[|name| - 10..] == "_tenant_id")
  {
    assert "_" + TENANT_FIELD == "_tenant_id";
  }

  /** A string commits a call exactly under a tenant name; a value of another kind never. */
  lemma TextYieldsUnderTenantNames(models: Models, h: Heap, name: string, s: string)
    ensures Extracted(models, h, (name, Str(s))) == if IsTenantName(name) then [s] else []
    ensures Extracted(models, h, (name, Other)) == []
  {
  }

  /** An id passes exactly if a tenant is bound and it is that one's or empty. */
  lemma EnforceIff(bound: Option<string>, claimed: string)
    ensures Enforce(bound, claimed) == Allowed <==> bound.Some? && (claimed == "" || claimed == bound.value)
    ensures Enforce(bound, claimed) == Unbound <==> bound.None?
    ensures Enforce(bound, claimed).Denied? ==> Enforce(bound, claimed).attempted == claimed
  {
  }

  /** So a call is refused over a mapping exactly if it names another tenant, or none is bound. */
  lemma MappingIsEnforced(models: Models, h: Heap, name: string, r: nat, bound: Option<string>)
    requires r in h && h[r].Dict? && "tenant_id" in h[r].entries && h[r].entries["tenant_id"].Str?
    ensures AllEnforced(bound, Extracted(models, h, (name, Ref(r)))) <==>
              bound.Some? && h[r].entries["tenant_id"].s in {"", bound.value}
  {
    var claimed := h[r].entries["tenant_id"].s;
    MappingYieldsItsEntry(models, h, name, r);
    EnforceIff(bound, claimed);
    assert claimed in Extracted(models, h, (name, Ref(r)));
  }

  /** A model that declares a `tenant_id` field, wherever among its fields, commits a call to the
      string it holds there, or to the empty id. */
  lemma StampIsExtracted(models: Models, h: Heap, name: string, r: nat, k: nat)
    requires r in h && h[r].Model? && h[r].cls in models && k < |models[h[r].cls]|
    requires models[h[r].cls][k].name == "tenant_id"
    ensures
      var values := h[r].values;
      var stamp := if "tenant_id" in values && values["tenant_id"].Str? then values["tenant_id"].s else "";
      Extracted(models, h, (name, Ref(r))) != [] && Extracted(models, h, (name, Ref(r)))[0] == stamp
  {
    assert FieldsOf(models, h[r].cls)[k].name == TENANT_FIELD;
  }
}
