/**
 Exactly when the static tenant detector covers what the runtime walk extracts
 (`services/tool_authz.py`). One half is `RuntimeImpliesStatic`. For the other, a type table with
 a reachable blind field is given a well-typed value that the walk extracts a string from: a heap
 with one default instance of every class and of every tuple annotation, and one chain of fresh
 objects leading from the annotation to the string.
 */
module TenantSurface {
  import opened Reachability
  import opened TypeShapes
  import opened TenantWalk

  /** Every union has an arm. */
  predicate ProperAnn(a: Ann) {
    match a
    case Gen(origin, args) =>
      (origin.UnionOf? ==> args != []) && forall i | 0 <= i < |args| :: ProperAnn(args[i])
    case _ => true
  }

  /** What Python guarantees of a class table: a class's fields have different names. */
  predicate ProperModels(models: Models) {
    forall c | c in models :: ProperFields(models[c])
  }

  predicate ProperFields(fields: seq<Field>) {
    && (forall i, j | 0 <= i < j < |fields| :: fields[i].name != fields[j].name)
    && (forall i | 0 <= i < |fields| :: ProperAnn(fields[i].ann))
  }

  function IndexOf<T(==)>(order: seq<T>, c: T): (i: nat)
    requires c in order
    ensures i < |order| && order[i] == c
  {
    if order[0] == c then 0 else 1 + IndexOf(order[1..], c)
  }

  lemma {:induction false} Listing<T>(s: set<T>) returns (order: seq<T>)
    ensures forall c :: c in order <==> c in s
    decreases s
  {
    if s == {} {
      order := [];
    } else {
      var c :| c in s;
      var rest := Listing(s - {c});
      order := [c] + rest;
    }
  }

  /** The annotation and its parts. */
  function Parts(a: Ann): set<Ann> {
    {a} + if a.Gen? then PartsAll(a.args) else {}
  }

  function PartsAll(anns: seq<Ann>): set<Ann> {
    if anns == [] then {} else Parts(anns[0]) + PartsAll(anns[1..])
  }

  lemma {:induction false} PartsAllMember(anns: seq<Ann>, i: nat)
    requires i < |anns|
    ensures anns[i] in PartsAll(anns) && Parts(anns[i]) <= PartsAll(anns)
  {
    if i > 0 {
      PartsAllMember(anns[1..], i - 1);
    }
  }

  /** The arguments of a part of an annotation are parts too. */
  lemma {:induction false} ArgIsPart(a: Ann, u: Ann, i: nat)
    requires ProperAnn(a) && u in Parts(a)
    ensures ProperAnn(u) && (u.Gen? && i < |u.args| ==> u.args[i] in Parts(a))
    decreases a, 0
  {
    if u != a {
      ArgIsPartOfAll(a.args, u, i);
    } else if u.Gen? && i < |u.args| {
      PartsAllMember(u.args, i);
    }
  }

  lemma {:induction false} ArgIsPartOfAll(anns: seq<Ann>, u: Ann, i: nat)
    requires (forall j | 0 <= j < |anns| :: ProperAnn(anns[j])) && u in PartsAll(anns)
    ensures ProperAnn(u) && (u.Gen? && i < |u.args| ==> u.args[i] in PartsAll(anns))
    decreases anns, 1
  {
    if u in Parts(anns[0]) {
      ArgIsPart(anns[0], u, i);
    } else {
      ArgIsPartOfAll(anns[1..], u, i);
    }
  }

  /** The annotations the default objects are typed by: those of the class table, and `top`. */
  ghost function BaseAnns(models: Models, top: Ann): set<Ann> {
    (set c | c in models :: Class(c)) + (set c, a | c in models && a in PartsAll(FieldAnns(models[c])) :: a)
    + Parts(top)
  }

  lemma BaseAnnsProper(models: Models, top: Ann, a: Ann, i: nat)
    requires ProperModels(models) && ProperAnn(top) && a in BaseAnns(models, top)
    ensures ProperAnn(a) && (a.Gen? && i < |a.args| ==> a.args[i] in BaseAnns(models, top))
  {
    if a in Parts(top) {
      ArgIsPart(top, a, i);
    } else if !a.Class? || a.name !in models {
      var c :| c in models && a in PartsAll(FieldAnns(models[c]));
      ArgIsPartOfAll(FieldAnns(models[c]), a, i);
    }
  }

  /** What there are default objects of. */
  datatype Order = Order(classes: seq<ClassName>, tuples: seq<Ann>, top: Ann)

  predicate IsTuple(a: Ann) {
    a.Gen? && a.origin.TupleOf?
  }

  ghost predicate Lists(order: Order, models: Models) {
    && (forall c :: c in order.classes <==> c in models)
    && ProperAnn(order.top)
    && (forall a :: a in order.tuples <==> a in BaseAnns(models, order.top) && IsTuple(a))
  }

  const EMPTY_LIST: nat := 0
  const EMPTY_DICT: nat := 1

  /** A default value of an annotation: an empty list, an empty mapping, the one instance of a
      class, the one tuple of a tuple annotation, or the default of a union's first arm. */
  function DefaultValue(order: Order, a: Ann): Value
    requires ProperAnn(a)
  {
    match a
    case Class(c) =>
      if c in order.classes then Ref(2 + IndexOf(order.classes, c)) else if c == TEXT then Str("") else Other
    case BareMapping => Ref(EMPTY_DICT)
    case Gen(origin, args) =>
      match origin
      case UnionOf => DefaultValue(order, args[0])
      case MappingOf => Ref(EMPTY_DICT)
      case ListOf => Ref(EMPTY_LIST)
      case TupleOf =>
        if a in order.tuples then Ref(2 + |order.classes| + IndexOf(order.tuples, a)) else Ref(EMPTY_LIST)
  }

  function DefaultItems(order: Order, args: seq<Ann>): seq<Value>
    requires forall i | 0 <= i < |args| :: ProperAnn(args[i])
  {
    seq(|args|, i requires 0 <= i < |args| => DefaultValue(order, args[i]))
  }

  function Defaults(order: Order, fields: seq<Field>): map<string, Value>
    requires forall i | 0 <= i < |fields| :: ProperAnn(fields[i].ann)
  {
    if fields == [] then map[]
    else Defaults(order, fields[1..])[fields[0].name := DefaultValue(order, fields[0].ann)]
  }

  lemma {:induction false} DefaultOf(order: Order, fields: seq<Field>, i: nat)
    requires ProperFields(fields) && i < |fields|
    ensures Attr(Defaults(order, fields), fields[i].name) == DefaultValue(order, fields[i].ann)
  {
    if i > 0 {
      assert fields[1..][i - 1] == fields[i];
      DefaultOf(order, fields[1..], i - 1);
    }
  }

  /** The default objects. */
  ghost function BaseObj(models: Models, order: Order, r: nat): Obj
    requires ProperModels(models) && Lists(order, models) && r < 2 + |order.classes| + |order.tuples|
  {
    if r == EMPTY_LIST then Items([])
    else if r == EMPTY_DICT then Dict(map[])
    else if r < 2 + |order.classes| then
      var c := order.classes[r - 2];
      assert c in order.classes;
      Model(c, Defaults(order, models[c]))
    else
      var a := order.tuples[r - 2 - |order.classes|];
      assert a in order.tuples;
      BaseAnnsProper(models, order.top, a, 0);
      Items(DefaultItems(order, a.args))
  }

  ghost function BaseHeap(models: Models, order: Order): Heap
    requires ProperModels(models) && Lists(order, models)
  {
    map r: nat | r < 2 + |order.classes| + |order.tuples| :: BaseObj(models, order, r)
  }

  lemma {:induction false} DefaultsAreBase(models: Models, order: Order, a: Ann)
    requires ProperAnn(a) && ProperModels(models) && Lists(order, models)
    ensures DefaultValue(order, a).Ref? ==> DefaultValue(order, a).r in BaseHeap(models, order)
  {
    if a.Gen? && a.origin.UnionOf? {
      DefaultsAreBase(models, order, a.args[0]);
    }
  }

  ghost function BaseTyping(models: Models, order: Order): set<(Value, Ann)> {
    set a | a in BaseAnns(models, order.top) && ProperAnn(a) :: (DefaultValue(order, a), a)
  }

  lemma DefaultIsTyped(models: Models, order: Order, a: Ann)
    requires ProperModels(models) && Lists(order, models) && a in BaseAnns(models, order.top)
    ensures ProperAnn(a) && (DefaultValue(order, a), a) in BaseTyping(models, order)
  {
    BaseAnnsProper(models, order.top, a, 0);
  }

  /** The default items of a tuple annotation are typed, one by one. */
  lemma ItemsAreTyped(models: Models, order: Order, a: Ann)
    requires ProperModels(models) && Lists(order, models) && a in BaseAnns(models, order.top) && a.Gen?
    ensures ProperAnn(a)
    ensures forall i | 0 <= i < |a.args| ::
              && (DefaultItems(order, a.args)[i], a.args[i]) in BaseTyping(models, order)
              && (DefaultItems(order, a.args)[i].Ref? ==> DefaultItems(order, a.args)[i].r in BaseHeap(models, order))
  {
    BaseAnnsProper(models, order.top, a, 0);
    forall i | 0 <= i < |a.args|
      ensures (DefaultValue(order, a.args[i]), a.args[i]) in BaseTyping(models, order)
      ensures DefaultValue(order, a.args[i]).Ref? ==> DefaultValue(order, a.args[i]).r in BaseHeap(models, order)
    {
      BaseAnnsProper(models, order.top, a, i);
      DefaultIsTyped(models, order, a.args[i]);
      DefaultsAreBase(models, order, a.args[i]);
    }
  }

  lemma DefaultFits(models: Models, order: Order, a: Ann)
    requires ProperModels(models) && Lists(order, models) && a in BaseAnns(models, order.top)
    ensures ProperAnn(a)
    ensures Fits(models, BaseHeap(models, order), BaseTyping(models, order), DefaultValue(order, a), a)
  {
    BaseAnnsProper(models, order.top, a, 0);
    if a.Class? && a.name in models {
      ModelDefaultFits(models, order, a.name);
    } else if a.Gen? && a.origin.UnionOf? {
      DefaultIsTyped(models, order, a.args[0]);
    } else if IsTuple(a) {
      ItemsAreTyped(models, order, a);
    }
  }

  lemma ModelDefaultFits(models: Models, order: Order, c: ClassName)
    requires ProperModels(models) && Lists(order, models) && c in models
    ensures Fits(models, BaseHeap(models, order), BaseTyping(models, order), DefaultValue(order, Class(c)), Class(c))
  {
    var fields := models[c];
    forall i | 0 <= i < |fields|
      ensures (Attr(Defaults(order, fields), fields[i].name), fields[i].ann) in BaseTyping(models, order)
    {
      DefaultOf(order, fields, i);
      FieldAnnIsBase(models, order, c, i);
      DefaultIsTyped(models, order, fields[i].ann);
    }
  }

  lemma FieldAnnIsBase(models: Models, order: Order, c: ClassName, i: nat)
    requires c in models && i < |models[c]|
    ensures models[c][i].ann in BaseAnns(models, order.top)
  {
    PartsAllMember(FieldAnns(models[c]), i);
    assert FieldAnns(models[c])[i] in BaseAnns(models, order.top);
  }

  ghost predicate Extends(h: Heap, parts: Heap) {
    forall r | r in parts :: r in h && h[r] == parts[r]
  }

  /** A heap under construction, with the typing of everything in it. */
  ghost predicate Built(models: Models, order: Order, parts: Heap, typing: set<(Value, Ann)>)
    requires ProperModels(models) && Lists(order, models)
  {
    && Extends(parts, BaseHeap(models, order)) && BaseTyping(models, order) <= typing
    && WellTyped(models, parts, typing)
    && (forall p | p in typing && p.0.Ref? :: p.0.r in parts)
  }

  lemma BaseIsBuilt(models: Models, order: Order)
    requires ProperModels(models) && Lists(order, models)
    ensures Built(models, order, BaseHeap(models, order), BaseTyping(models, order))
  {
    forall p | p in BaseTyping(models, order)
      ensures Fits(models, BaseHeap(models, order), BaseTyping(models, order), p.0, p.1)
      ensures p.0.Ref? ==> p.0.r in BaseHeap(models, order)
    {
      DefaultFits(models, order, p.1);
      DefaultsAreBase(models, order, p.1);
    }
  }

  /** The objects of the chain so far. */
  ghost function Chain(models: Models, order: Order, parts: Heap): set<nat>
    requires ProperModels(models) && Lists(order, models)
  {
    parts.Keys - BaseHeap(models, order).Keys
  }

  /** Wherever the chain is met unvisited, walking the value finds something: under any name and
      in any larger heap, or, if `named`, under any tenant name. */
  ghost predicate Leads(models: Models, order: Order, parts: Heap, v: Value, named: bool)
    requires ProperModels(models) && Lists(order, models)
  {
    forall h: Heap, seen: set<nat>, name: string, within: bool |
      Extends(h, parts) && seen !! Chain(models, order, parts) && (named ==> IsTenantName(name)) ::
      Walk(models, h, Visit(name, v, within), seen).0 != []
  }

  predicate NodeOf(parts: Heap, v: Value) {
    v.Ref? && v.r in parts && !parts[v.r].Dict?
  }

  /** The default objects lead nowhere else. */
  lemma BaseIsClosed(models: Models, order: Order, h: Heap)
    requires ProperModels(models) && Lists(order, models) && Extends(h, BaseHeap(models, order))
    ensures Closed(ObjGraph(models, h), BaseHeap(models, order).Keys)
  {
    var base := BaseHeap(models, order);
    forall r | r in base && !h[r].Dict?
      ensures ObjGraph(models, h)[r] <= base.Keys
    {
      assert h[r] == base[r];
      if 2 <= r < 2 + |order.classes| {
        var c := order.classes[r - 2];
        assert c in order.classes;
        DefaultVisitsAreBase(models, order, h, c);
      } else if 2 <= r {
        var a := order.tuples[r - 2 - |order.classes|];
        assert a in order.tuples;
        ItemsAreTyped(models, order, a);
      }
    }
  }

  lemma DefaultVisitsAreBase(models: Models, order: Order, h: Heap, c: ClassName)
    requires ProperModels(models) && Lists(order, models) && c in models
    ensures Starts(h, FieldVisits(h, models[c], Defaults(order, models[c]))) <= BaseHeap(models, order).Keys
  {
    var (fields, vals) := (models[c], Defaults(order, models[c]));
    FieldVisitsIgnoresOrder(h, fields, vals);
    forall v | v in FieldVisits(h, fields, vals)
      ensures v.value.Ref? && v.value.r in BaseHeap(models, order)
    {
      var f :| f in fields && f.name == v.name && Attr(vals, f.name) == v.value;
      var i :| 0 <= i < |fields| && fields[i] == f;
      DefaultOf(order, fields, i);
      DefaultsAreBase(models, order, f.ann);
    }
  }

  lemma WalkStaysInBase(models: Models, order: Order, h: Heap, v: Visit, seen: set<nat>)
    requires ProperModels(models) && Lists(order, models) && Extends(h, BaseHeap(models, order))
    requires IsNode(h, v.value) ==> v.value.r in BaseHeap(models, order)
    ensures Walk(models, h, v, seen).1 - seen <= BaseHeap(models, order).Keys
  {
    BaseIsClosed(models, order, h);
    WalkIsWalked(models, h, v, seen);
    assert Starts(h, [v]) <= BaseHeap(models, order).Keys;
  }

  /** Among a model's fields, the one on the chain is reached with the chain still unvisited. */
  lemma {:induction false} FieldsLead(models: Models, order: Order, h: Heap, parts: Heap, fields: seq<Field>,
                                      vals: map<string, Value>, f: Field, seen: set<nat>)
    requires ProperModels(models) && Lists(order, models)
    requires Extends(h, parts) && Extends(h, BaseHeap(models, order)) && seen !! Chain(models, order, parts)
    requires f in fields && f.name != TENANT_FIELD && IsNode(h, Attr(vals, f.name))
    requires Leads(models, order, parts, Attr(vals, f.name), IsTenantName(f.name))
    requires forall g | g in fields && g.name != f.name && IsNode(h, Attr(vals, g.name)) ::
               Attr(vals, g.name).r in BaseHeap(models, order)
    ensures WalkAll(models, h, FieldVisits(h, fields, vals), seen).0 != []
    decreases |fields|
  {
    var (g, rest) := (fields[0], fields[1..]);
    var visit := Visit(g.name, Attr(vals, g.name), true);
    if g.name != TENANT_FIELD && IsNode(h, visit.value) {
      WalkAllCons(models, h, visit, FieldVisits(h, rest, vals), seen, []);
      var (here, seen') := Walk(models, h, visit, seen);
      if g.name != f.name {
        WalkStaysInBase(models, order, h, visit, seen);
        FieldsLead(models, order, h, parts, rest, vals, f, seen');
      }
      assert [] + WalkAll(models, h, FieldVisits(h, fields, vals), seen).0
             == ([] + here) + WalkAll(models, h, FieldVisits(h, rest, vals), seen').0;
    } else {
      assert FieldVisits(h, fields, vals) == FieldVisits(h, rest, vals);
      FieldsLead(models, order, h, parts, rest, vals, f, seen);
    }
  }

  lemma FreshId(parts: Heap) returns (r: nat)
    ensures r !in parts
  {
    r := 0;
    var below: set<nat> := {};
    while r in parts
      invariant below <= parts.Keys && forall b | b in below :: b < r
      decreases parts.Keys - below
    {
      below, r := below + {r}, r + 1;
    }
  }

  /** A new object with a value already led to in one field, and defaults in the others. */
  lemma ModelStep(models: Models, order: Order, parts: Heap, typing: set<(Value, Ann)>, c: ClassName, i: nat,
                  w: Value)
    returns (parts': Heap, typing': set<(Value, Ann)>, v: Value)
    requires ProperModels(models) && Lists(order, models) && Built(models, order, parts, typing)
    requires c in models && i < |models[c]| && models[c][i].name != TENANT_FIELD
    requires (w, models[c][i].ann) in typing && NodeOf(parts, w)
    requires Leads(models, order, parts, w, IsTenantName(models[c][i].name))
    ensures Built(models, order, parts', typing') && (v, Class(c)) in typing' && NodeOf(parts', v)
    ensures Leads(models, order, parts', v, false)
  {
    var (fields, f) := (models[c], models[c][i]);
    var r := FreshId(parts);
    var vals := Defaults(order, fields)[f.name := w];
    parts', typing', v := parts[r := Model(c, vals)], typing + {(Ref(r), Class(c))}, Ref(r);
    OtherFieldsDefault(models, order, c, i, w);
    forall p | p in typing'
      ensures Fits(models, parts', typing', p.0, p.1)
    {
      if p in typing { FitsInLarger(models, parts, typing, parts', typing', p); }
    }
    forall h: Heap, seen: set<nat>, name: string, within: bool |
      Extends(h, parts') && seen !! Chain(models, order, parts')
      ensures Walk(models, h, Visit(name, v, within), seen).0 != []
    {
      assert h[r] == parts'[r] && Extends(h, parts) && r !in seen && r in Chain(models, order, parts');
      FieldsLead(models, order, h, parts, fields, vals, f, seen + {r});
      assert VisitsInside(models, h, h[r], name, within) == FieldVisits(h, fields, vals);
    }
  }

  lemma OtherFieldsDefault(models: Models, order: Order, c: ClassName, i: nat, w: Value)
    requires ProperModels(models) && Lists(order, models) && c in models && i < |models[c]|
    ensures
      var (fields, vals) := (models[c], Defaults(order, models[c])[models[c][i].name := w]);
      && (forall j | 0 <= j < |fields| && j != i ::
            (Attr(vals, fields[j].name), fields[j].ann) in BaseTyping(models, order))
      && (forall g | g in fields && g.name != fields[i].name && Attr(vals, g.name).Ref? ::
            Attr(vals, g.name).r in BaseHeap(models, order))
  {
    var fields := models[c];
    forall j | 0 <= j < |fields|
      ensures (Attr(Defaults(order, fields), fields[j].name), fields[j].ann) in BaseTyping(models, order)
      ensures Attr(Defaults(order, fields), fields[j].name).Ref? ==>
                Attr(Defaults(order, fields), fields[j].name).r in BaseHeap(models, order)
    {
      DefaultOf(order, fields, j);
      DefaultsAreBase(models, order, fields[j].ann);
      FieldAnnIsBase(models, order, c, j);
      DefaultIsTyped(models, order, fields[j].ann);
    }
  }

  /** What fits keeps fitting when objects and typings are added. */
  lemma FitsInLarger(models: Models, h: Heap, typing: set<(Value, Ann)>, h': Heap, typing': set<(Value, Ann)>,
                     p: (Value, Ann))
    requires Fits(models, h, typing, p.0, p.1) && Extends(h', h) && typing <= typing'
    requires p.0.Ref? ==> p.0.r in h
    ensures Fits(models, h', typing', p.0, p.1)
  {
  }

  /** A new list holding just a value already led to. */
  lemma ListStep(models: Models, order: Order, parts: Heap, typing: set<(Value, Ann)>, a: Ann, j: nat,
                 w: Value, named: bool)
    returns (parts': Heap, typing': set<(Value, Ann)>, v: Value)
    requires ProperModels(models) && Lists(order, models) && Built(models, order, parts, typing)
    requires a.Gen? && a.origin.ListOf? && j < |a.args| && (w, a.args[j]) in typing
    requires Leads(models, order, parts, w, named)
    ensures Built(models, order, parts', typing') && (v, a) in typing' && NodeOf(parts', v)
    ensures Leads(models, order, parts', v, named)
  {
    var r := FreshId(parts);
    parts', typing', v := parts[r := Items([w])], typing + {(Ref(r), a)}, Ref(r);
    forall p | p in typing'
      ensures Fits(models, parts', typing', p.0, p.1)
    {
      if p in typing {
        FitsInLarger(models, parts, typing, parts', typing', p);
      } else {
        assert SomeArm(typing', w, a.args);
      }
    }
    forall h: Heap, seen: set<nat>, name: string, within: bool |
      Extends(h, parts') && seen !! Chain(models, order, parts') && (named ==> IsTenantName(name))
      ensures Walk(models, h, Visit(name, v, within), seen).0 != []
    {
      assert h[r] == parts'[r] && Extends(h, parts) && r !in seen && r in Chain(models, order, parts');
      assert VisitsInside(models, h, h[r], name, within) == [Visit(name, w, within)];
      WalkAllOne(models, h, Visit(name, w, within), seen + {r});
      assert [] + Walk(models, h, Visit(name, w, within), seen + {r}).0
             == Walk(models, h, Visit(name, w, within), seen + {r}).0;
    }
  }

  /** Among a tuple's items, the one on the chain is reached with the chain still unvisited. */
  lemma {:induction false} ItemsLead(models: Models, order: Order, h: Heap, parts: Heap, name: string, within: bool,
                                     items: seq<Value>, j: nat, seen: set<nat>, named: bool)
    requires ProperModels(models) && Lists(order, models) && j < |items|
    requires Extends(h, parts) && Extends(h, BaseHeap(models, order)) && seen !! Chain(models, order, parts)
    requires Leads(models, order, parts, items[j], named) && (named ==> IsTenantName(name))
    requires forall i | 0 <= i < j && items[i].Ref? :: items[i].r in BaseHeap(models, order)
    ensures WalkAll(models, h, ItemVisits(name, items, within), seen).0 != []
    decreases |items|
  {
    var (visit, rest) := (Visit(name, items[0], within), items[1..]);
    var (here, seen') := Walk(models, h, visit, seen);
    assert ItemVisits(name, items, within) == [visit] + ItemVisits(name, rest, within);
    WalkAllCons(models, h, visit, ItemVisits(name, rest, within), seen, []);
    if j > 0 {
      WalkStaysInBase(models, order, h, visit, seen);
      ItemsLead(models, order, h, parts, name, within, rest, j - 1, seen', named);
    }
    assert [] + WalkAll(models, h, ItemVisits(name, items, within), seen).0
           == ([] + here) + WalkAll(models, h, ItemVisits(name, rest, within), seen').0;
  }

  /** A new tuple with a value already led to in one place, and defaults in the others. */
  lemma TupleStep(models: Models, order: Order, parts: Heap, typing: set<(Value, Ann)>, a: Ann, j: nat, w: Value,
                  named: bool)
    returns (parts': Heap, typing': set<(Value, Ann)>, v: Value)
    requires ProperModels(models) && Lists(order, models) && Built(models, order, parts, typing)
    requires IsTuple(a) && a in BaseAnns(models, order.top) && j < |a.args| && (w, a.args[j]) in typing
    requires Leads(models, order, parts, w, named)
    ensures Built(models, order, parts', typing') && (v, a) in typing' && NodeOf(parts', v)
    ensures Leads(models, order, parts', v, named)
  {
    var r := FreshId(parts);
    ItemsAreTyped(models, order, a);
    var items := DefaultItems(order, a.args)[j := w];
    parts', typing', v := parts[r := Items(items)], typing + {(Ref(r), a)}, Ref(r);
    assert forall i | 0 <= i < |items| :: (items[i], a.args[i]) in typing;
    TupleBuilt(models, order, parts, typing, a, r, items);
    TupleLeads(models, order, parts, r, items, j, named);
  }

  lemma TupleBuilt(models: Models, order: Order, parts: Heap, typing: set<(Value, Ann)>, a: Ann, r: nat,
                   items: seq<Value>)
    requires ProperModels(models) && Lists(order, models) && Built(models, order, parts, typing)
    requires IsTuple(a) && r !in parts && |items| == |a.args|
    requires forall i | 0 <= i < |items| :: (items[i], a.args[i]) in typing
    ensures Built(models, order, parts[r := Items(items)], typing + {(Ref(r), a)})
  {
  }

  lemma TupleLeads(models: Models, order: Order, parts: Heap, r: nat, items: seq<Value>, j: nat, named: bool)
    requires ProperModels(models) && Lists(order, models) && Extends(parts, BaseHeap(models, order)) && r !in parts
    requires j < |items| && Leads(models, order, parts, items[j], named)
    requires forall i | 0 <= i < j && items[i].Ref? :: items[i].r in BaseHeap(models, order)
    ensures Leads(models, order, parts[r := Items(items)], Ref(r), named)
  {
    var parts' := parts[r := Items(items)];
    forall h: Heap, seen: set<nat>, name: string, within: bool |
      Extends(h, parts') && seen !! Chain(models, order, parts') && (named ==> IsTenantName(name))
      ensures Walk(models, h, Visit(name, Ref(r), within), seen).0 != []
    {
      assert h[r] == parts'[r] && Extends(h, parts) && r !in seen && r in Chain(models, order, parts');
      ItemsLead(models, order, h, parts, name, within, items, j, seen + {r}, named);
    }
  }

  /** A new list or tuple with a value already led to in it. */
  lemma HoldStep(models: Models, order: Order, parts: Heap, typing: set<(Value, Ann)>, a: Ann, j: nat, w: Value,
                 named: bool)
    returns (parts': Heap, typing': set<(Value, Ann)>, v: Value)
    requires ProperModels(models) && Lists(order, models) && Built(models, order, parts, typing)
    requires a.Gen? && (a.origin.ListOf? || a.origin.TupleOf?) && a in BaseAnns(models, order.top)
    requires j < |a.args| && (w, a.args[j]) in typing && Leads(models, order, parts, w, named)
    ensures Built(models, order, parts', typing') && (v, a) in typing' && NodeOf(parts', v)
    ensures Leads(models, order, parts', v, named)
  {
    if a.origin.ListOf? {
      parts', typing', v := ListStep(models, order, parts, typing, a, j, w, named);
    } else {
      parts', typing', v := TupleStep(models, order, parts, typing, a, j, w, named);
    }
  }

  /** A value led to is also one of any union it is an arm of. */
  lemma UnionStep(models: Models, order: Order, parts: Heap, typing: set<(Value, Ann)>, a: Ann, j: nat,
                  w: Value)
    returns (typing': set<(Value, Ann)>)
    requires ProperModels(models) && Lists(order, models) && Built(models, order, parts, typing)
    requires a.Gen? && a.origin.UnionOf? && j < |a.args| && (w, a.args[j]) in typing
    ensures Built(models, order, parts, typing') && (w, a) in typing'
  {
    typing' := typing + {(w, a)};
    forall p | p in typing'
      ensures Fits(models, parts, typing', p.0, p.1)
    {
      if p in typing {
        FitsInLarger(models, parts, typing, parts, typing', p);
      } else {
        assert SomeArm(typing', w, a.args);
      }
    }
  }

  lemma {:induction false} ArmMentions(models: Models, anns: seq<Ann>, x: ClassName) returns (j: nat)
    requires x in ClassesInAll(models, anns, false)
    ensures j < |anns| && x in ClassesIn(models, anns[j], false)
  {
    if x in ClassesIn(models, anns[0], false) {
      j := 0;
    } else {
      var k := ArmMentions(models, anns[1..], x);
      j := k + 1;
    }
  }

  /** From an instance led to, a value of any annotation that mentions its class. */
  lemma {:induction false} WrapClass(models: Models, order: Order, parts: Heap, typing: set<(Value, Ann)>,
                                     x: ClassName, v: Value, a: Ann)
    returns (parts': Heap, typing': set<(Value, Ann)>, w: Value)
    requires ProperModels(models) && Lists(order, models) && Built(models, order, parts, typing)
    requires (v, Class(x)) in typing && NodeOf(parts, v) && Leads(models, order, parts, v, false)
    requires x in ClassesIn(models, a, false) && a in BaseAnns(models, order.top)
    ensures Built(models, order, parts', typing') && (w, a) in typing' && NodeOf(parts', w)
    ensures Leads(models, order, parts', w, false)
    decreases a
  {
    if a.Class? {
      parts', typing', w := parts, typing, v;
    } else {
      var j := ArmMentions(models, a.args, x);
      BaseAnnsProper(models, order.top, a, j);
      parts', typing', w := WrapClass(models, order, parts, typing, x, v, a.args[j]);
      if a.origin.UnionOf? {
        typing' := UnionStep(models, order, parts', typing', a, j, w);
      } else {
        parts', typing', w := HoldStep(models, order, parts', typing', a, j, w, false);
      }
    }
  }

  /** A string, bare or in lists, led to under any tenant name. */
  lemma {:induction false} WrapText(models: Models, order: Order, parts: Heap, typing: set<(Value, Ann)>,
                                    a: Ann)
    returns (parts': Heap, typing': set<(Value, Ann)>, w: Value)
    requires ProperModels(models) && Lists(order, models) && Built(models, order, parts, typing) && TextIn(models, a)
    requires a in BaseAnns(models, order.top)
    ensures Built(models, order, parts', typing') && (w, a) in typing' && Leads(models, order, parts', w, true)
    ensures a.Gen? && (a.origin.ListOf? || a.origin.TupleOf?) ==> NodeOf(parts', w)
    decreases a
  {
    if a.Class? {
      parts', typing', w := parts, typing + {(Str(""), a)}, Str("");
      forall p | p in typing'
        ensures Fits(models, parts, typing', p.0, p.1)
      {
        if p in typing { FitsInLarger(models, parts, typing, parts, typing', p); }
      }
    } else {
      var j :| 0 <= j < |a.args| && TextIn(models, a.args[j]);
      BaseAnnsProper(models, order.top, a, j);
      parts', typing', w := WrapText(models, order, parts, typing, a.args[j]);
      if a.origin.UnionOf? {
        typing' := UnionStep(models, order, parts', typing', a, j, w);
      } else {
        parts', typing', w := HoldStep(models, order, parts', typing', a, j, w, true);
      }
    }
  }

  /** The same, in at least one list. */
  lemma {:induction false} WrapListed(models: Models, order: Order, parts: Heap, typing: set<(Value, Ann)>,
                                      a: Ann)
    returns (parts': Heap, typing': set<(Value, Ann)>, w: Value)
    requires ProperModels(models) && Lists(order, models) && Built(models, order, parts, typing) && ListsText(models, a)
    requires a in BaseAnns(models, order.top)
    ensures Built(models, order, parts', typing') && (w, a) in typing' && NodeOf(parts', w)
    ensures Leads(models, order, parts', w, true)
    decreases a
  {
    if a.origin.UnionOf? {
      var j :| 0 <= j < |a.args| && ListsText(models, a.args[j]);
      BaseAnnsProper(models, order.top, a, j);
      parts', typing', w := WrapListed(models, order, parts, typing, a.args[j]);
      typing' := UnionStep(models, order, parts', typing', a, j, w);
    } else {
      parts', typing', w := WrapText(models, order, parts, typing, a);
    }
  }

  /** From an instance of a class, one of a class with a field that mentions it. */
  lemma StepBack(models: Models, order: Order, parts: Heap, typing: set<(Value, Ann)>, x: ClassName, v: Value,
                 y: ClassName)
    returns (parts': Heap, typing': set<(Value, Ann)>, v': Value)
    requires ProperModels(models) && Lists(order, models) && Built(models, order, parts, typing)
    requires (v, Class(x)) in typing && NodeOf(parts, v) && Leads(models, order, parts, v, false)
    requires y in models && !HasTenantField(models, y) && x in ClassesInAll(models, FieldAnns(models[y]), false)
    ensures Built(models, order, parts', typing') && (v', Class(y)) in typing' && NodeOf(parts', v')
    ensures Leads(models, order, parts', v', false)
  {
    var i := ArmMentions(models, FieldAnns(models[y]), x);
    FieldAnnIsBase(models, order, y, i);
    var w;
    parts', typing', w := WrapClass(models, order, parts, typing, x, v, models[y][i].ann);
    LeadsUnderAny(models, order, parts', w, IsTenantName(models[y][i].name));
    parts', typing', v' := ModelStep(models, order, parts', typing', y, i, w);
  }

  lemma LeadsUnderAny(models: Models, order: Order, parts: Heap, v: Value, named: bool)
    requires ProperModels(models) && Lists(order, models) && Leads(models, order, parts, v, false)
    ensures Leads(models, order, parts, v, named)
  {
  }

  /** Each class on the path has a field that mentions the next, and no `tenant_id` field. */
  ghost predicate FieldPath(models: Models, path: seq<ClassName>) {
    && (forall i | 0 <= i < |path| :: path[i] in models && !HasTenantField(models, path[i]))
    && (forall i | 0 <= i < |path| - 1 :: path[i + 1] in ClassesInAll(models, FieldAnns(models[path[i]]), false))
  }

  /** From an instance of the last class of a path, back to one of the first. */
  lemma {:induction false} Backtrack(models: Models, order: Order, parts: Heap, typing: set<(Value, Ann)>,
                                     path: seq<ClassName>, v: Value)
    returns (parts': Heap, typing': set<(Value, Ann)>, v': Value)
    requires ProperModels(models) && Lists(order, models) && Built(models, order, parts, typing)
    requires path != [] && FieldPath(models, path) && (v, Class(path[|path| - 1])) in typing
    requires NodeOf(parts, v) && Leads(models, order, parts, v, false)
    ensures Built(models, order, parts', typing') && (v', Class(path[0])) in typing' && NodeOf(parts', v')
    ensures Leads(models, order, parts', v', false)
    decreases |path|
  {
    var last := |path| - 1;
    if last == 0 {
      parts', typing', v' := parts, typing, v;
    } else {
      parts', typing', v' := StepBack(models, order, parts, typing, path[last], v, path[last - 1]);
      parts', typing', v' := Backtrack(models, order, parts', typing', path[..last], v');
    }
  }

  lemma BlindPath(models: Models, a: Ann, c: ClassName) returns (path: seq<ClassName>)
    requires !NestsTenant(models, a, {}).0 && c in models
    requires Reaches(ClassGraph(models, false), ClassesIn(models, a, false), c)
    ensures path != [] && path[0] in ClassesIn(models, a, false) && path[|path| - 1] == c && FieldPath(models, path)
  {
    var (g, roots) := (ClassGraph(models, false), ClassesIn(models, a, false));
    NestsTenantIffReachable(models, a);
    ClassGraphContained(models, false);
    assert ClassesInAll(models, [a], false) == roots;
    ClassesInModels(models, [a], false);
    var n: nat :| c in Within(g, roots, n);
    path := PathTo(g, roots, n, c);
  }

  /** A reachable blind field is seen at run time: some well-typed value of the annotation yields
      a tenant id under every parameter name. */
  lemma BlindFieldIsSeen(models: Models, a: Ann) returns (h: Heap, typing: set<(Value, Ann)>, value: Value)
    requires ProperModels(models) && ProperAnn(a) && !NestsTenant(models, a, {}).0 && ReachesBlindField(models, a)
    ensures WellTyped(models, h, typing) && (value, a) in typing
    ensures forall name :: Walk(models, h, Visit(name, value, false), {}).0 != []
  {
    var (g, roots) := (ClassGraph(models, false), ClassesIn(models, a, false));
    NestsTenantIffReachable(models, a);
    var c :| HasBlindField(models, c) && Reaches(g, roots, c);
    var i :| 0 <= i < |models[c]| && IsBlindField(models, models[c][i]);
    var path := BlindPath(models, a, c);
    var classes := Listing(models.Keys);
    var tuples := Listing(set t | t in BaseAnns(models, a) && IsTuple(t));
    var order := Order(classes, tuples, a);
    FieldAnnIsBase(models, order, c, i);
    BaseIsBuilt(models, order);
    var w, v;
    h, typing, w := WrapListed(models, order, BaseHeap(models, order), BaseTyping(models, order), models[c][i].ann);
    h, typing, v := ModelStep(models, order, h, typing, c, i, w);
    h, typing, v := Backtrack(models, order, h, typing, path, v);
    h, typing, value := WrapClass(models, order, h, typing, path[0], v, a);
    assert Extends(h, h);
  }

  /** The promise: whatever a well-typed argument commits the call to at run time, the static
      detector flags the parameter. */
  ghost predicate Covered(models: Models, name: string, a: Ann) {
    forall h: Heap, typing: set<(Value, Ann)>, value: Value |
      WellTyped(models, h, typing) && (value, a) in typing && Walk(models, h, Visit(name, value, false), {}).0 != [] ::
      AcceptsTenantBearingParam(models, [(name, a)])
  }

  /** Exactly when the promise is kept: the parameter is flagged anyway, or no class reachable
      from its annotation has a blind field. */
  lemma CoveredIff(models: Models, name: string, a: Ann)
    requires ProperModels(models) && ProperAnn(a)
    ensures Covered(models, name, a) <==>
              AcceptsTenantBearingParam(models, [(name, a)]) || !ReachesBlindField(models, a)
  {
    if !ReachesBlindField(models, a) {
      forall h: Heap, typing: set<(Value, Ann)>, value: Value |
        WellTyped(models, h, typing) && (value, a) in typing && Walk(models, h, Visit(name, value, false), {}).0 != []
        ensures AcceptsTenantBearingParam(models, [(name, a)])
      {
        RuntimeImpliesStatic(models, h, typing, name, value, a);
      }
    } else if !AcceptsTenantBearingParam(models, [(name, a)]) {
      assert [(name, a)][0] == (name, a);
      var h, typing, value := BlindFieldIsSeen(models, a);
      assert Walk(models, h, Visit(name, value, false), {}).0 != [];
    }
  }

  predicate IsMappingPart(p: Ann) {
    p.BareMapping? || (p.Gen? && p.origin.MappingOf?)
  }

  ghost predicate HoldsMapping(parts: set<Ann>) {
    exists p :: p in parts && IsMappingPart(p)
  }

  /** An annotation counts as a mapping exactly if it is one or wraps one, at any depth. */
  lemma {:induction false} MappingIff(a: Ann)
    ensures IsMapping(a) <==> HoldsMapping(Parts(a))
    decreases a, 1
  {
    assert a in Parts(a);
    if a.Gen? {
      MappingAmong(a.args);
      assert Parts(a) == {a} + PartsAll(a.args);
      if p :| p in PartsAll(a.args) && IsMappingPart(p) { assert p in Parts(a); }
      if p :| p in Parts(a) && IsMappingPart(p) { assert p == a || p in PartsAll(a.args); }
    }
  }

  lemma {:induction false} MappingAmong(anns: seq<Ann>)
    ensures (exists i :: 0 <= i < |anns| && IsMapping(anns[i])) <==> HoldsMapping(PartsAll(anns))
    decreases anns, 0
  {
    if anns != [] {
      var rest := anns[1..];
      MappingIff(anns[0]);
      MappingAmong(rest);
      assert PartsAll(anns) == Parts(anns[0]) + PartsAll(rest);
      if i :| 0 <= i < |anns| && IsMapping(anns[i]) {
        assert i > 0 ==> rest[i - 1] == anns[i];
        var p :| p in (if i == 0 then Parts(anns[0]) else PartsAll(rest)) && IsMappingPart(p);
        assert p in PartsAll(anns);
      }
      if p :| p in PartsAll(anns) && IsMappingPart(p) {
        if p !in Parts(anns[0]) {
          assert HoldsMapping(PartsAll(rest));
          var i :| 0 <= i < |rest| && IsMapping(rest[i]);
          assert anns[i + 1] == rest[i];
        }
      }
    }
  }

  /** Exactly which parameters the static gate flags: by a tenant name, by a reachable model with a
      `tenant_id` field, or by a mapping anywhere in the annotation. */
  lemma FlaggedIff(models: Models, name: string, a: Ann)
    ensures AcceptsTenantBearingParam(models, [(name, a)]) <==>
              || name == "tenant_id" || (|name| >= 10 && name[|name| - 10..] == "_tenant_id")
              || (exists c :: HasTenantField(models, c)
                              && Reaches(ClassGraph(models, false), ClassesIn(models, a, false), c))
              || HoldsMapping(Parts(a))
  {
    TenantNameIff(name);
    NestsTenantIffReachable(models, a);
    MappingIff(a);
    assert [(name, a)][0] == (name, a);
  }
}
