/**
 Type annotations over a table of Pydantic models that may refer to one another in cycles,
 and the static analyses of the tool seam over them: the tenant-bearing detector of
 `services/tool_authz.py` and the restricted-content detector of `routes/_egress.py`.
 */
module TypeShapes {
  import opened Common
  import opened Reachability
  import opened Roles

  type ClassName = string

  /** `ListOf` has any number of items, as `list[X]` and `tuple[X, ...]` do; `TupleOf` one for
      each argument. */
  datatype Origin = ListOf | TupleOf | UnionOf | MappingOf

  /** A bare class, a bare mapping class, or a generic with its arguments. A class that is
      not in the model table is an ordinary one (`str`, `date`, …). */
  datatype Ann = Class(name: ClassName) | BareMapping | Gen(origin: Origin, args: seq<Ann>)

  /** `pii` is the minimum role of the field's `Pii` marker, when it has one. */
  datatype Field = Field(name: string, ann: Ann, pii: Option<Role>)

  type Models = map<ClassName, seq<Field>>

  const TENANT_FIELD := "tenant_id"

  predicate EndsWith(s: string, suffix: string) {
    |suffix| <= |s| && s[|s| - |suffix|..] == suffix
  }

  predicate IsTenantName(name: string) {
    name == TENANT_FIELD || EndsWith(name, "_" + TENANT_FIELD)
  }

  predicate HasTenantField(models: Models, c: ClassName) {
    c in models && exists i :: 0 <= i < |models[c]| && models[c][i].name == TENANT_FIELD
  }

  predicate HasPiiField(models: Models, c: ClassName) {
    c in models && exists i :: 0 <= i < |models[c]| && models[c][i].pii.Some?
  }

  function FieldAnns(fields: seq<Field>): (anns: seq<Ann>)
    ensures |anns| == |fields| && forall i | 0 <= i < |fields| :: anns[i] == fields[i].ann
  {
    seq(|fields|, i requires 0 <= i < |fields| => fields[i].ann)
  }

  /** The model classes an annotation mentions, below mapping generics only if `maps`. */
  function ClassesIn(models: Models, a: Ann, maps: bool): set<ClassName> {
    match a
    case Class(c) => if c in models then {c} else {}
    case BareMapping => {}
    case Gen(origin, args) => if origin.MappingOf? && !maps then {} else ClassesInAll(models, args, maps)
  }

  function ClassesInAll(models: Models, anns: seq<Ann>, maps: bool): set<ClassName> {
    if anns == [] then {} else ClassesIn(models, anns[0], maps) + ClassesInAll(models, anns[1..], maps)
  }

  lemma {:induction false} ClassesInMember(models: Models, anns: seq<Ann>, maps: bool, i: nat)
    requires i < |anns|
    ensures ClassesIn(models, anns[i], maps) <= ClassesInAll(models, anns, maps)
  {
    if i > 0 {
      ClassesInMember(models, anns[1..], maps, i - 1);
    }
  }

  lemma {:induction false} ClassesInModels(models: Models, anns: seq<Ann>, maps: bool)
    ensures ClassesInAll(models, anns, maps) <= models.Keys
  {
    if anns != [] {
      match anns[0] {
        case Gen(_, args) => ClassesInModels(models, args, maps);
        case _ =>
      }
      ClassesInModels(models, anns[1..], maps);
    }
  }

  /** Which classes a class's fields mention. */
  function ClassGraph(models: Models, maps: bool): Graph<ClassName> {
    map c | c in models :: ClassesInAll(models, FieldAnns(models[c]), maps)
  }

  lemma ClassGraphContained(models: Models, maps: bool)
    ensures Contained(ClassGraph(models, maps))
  {
    forall c | c in models
      ensures ClassGraph(models, maps)[c] <= models.Keys
    {
      ClassesInModels(models, FieldAnns(models[c]), maps);
    }
  }

  /** `_annotation_is_mapping`. */
  predicate IsMapping(a: Ann) {
    match a
    case Class(_) => false
    case BareMapping => true
    case Gen(origin, args) => origin.MappingOf? || exists i :: 0 <= i < |args| && IsMapping(args[i])
  }

  /** `_annotation_nests_tenant_model`, with the visited set threaded through. */
  function NestsTenant(models: Models, a: Ann, seen: set<ClassName>): (r: (bool, set<ClassName>))
    ensures seen <= r.1
    decreases models.Keys - seen, a, 0
  {
    match a
    case Class(c) =>
      if c !in models || c in seen then (false, seen)
      else if HasTenantField(models, c) then (true, seen + {c})
      else AnyNestsTenant(models, FieldAnns(models[c]), seen + {c})
    case BareMapping => (false, seen)
    case Gen(origin, args) => if origin.MappingOf? then (false, seen) else AnyNestsTenant(models, args, seen)
  }

  function AnyNestsTenant(models: Models, anns: seq<Ann>, seen: set<ClassName>): (r: (bool, set<ClassName>))
    ensures seen <= r.1
    decreases models.Keys - seen, anns, 1
  {
    if anns == [] then (false, seen)
    else
      var (found, seen') := NestsTenant(models, anns[0], seen);
      if found then (true, seen') else AnyNestsTenant(models, anns[1..], seen')
  }

  /** The same detector as the source runs it: one visited set that every call updates. */
  method AnnotationNestsTenant(models: Models, a: Ann, seen: set<ClassName>)
    returns (found: bool, seen': set<ClassName>)
    ensures (found, seen') == NestsTenant(models, a, seen)
    decreases models.Keys - seen, a
  {
    seen' := seen;
    match a
    case BareMapping => return false, seen';
    case Class(c) =>
      if c !in models || c in seen {
        return false, seen';
      }
      seen' := seen' + {c};
      if HasTenantField(models, c) {
        return true, seen';
      }
      var anns := FieldAnns(models[c]);
      for i := 0 to |anns|
        invariant seen + {c} <= seen'
        invariant AnyNestsTenant(models, anns[i..], seen') == NestsTenant(models, a, seen)
      {
        assert anns[i..][1..] == anns[i + 1..];
        found, seen' := AnnotationNestsTenant(models, anns[i], seen');
        if found {
          return true, seen';
        }
      }
      return false, seen';
    case Gen(origin, args) =>
      if origin.MappingOf? {
        return false, seen';
      }
      for i := 0 to |args|
        invariant seen <= seen'
        invariant AnyNestsTenant(models, args[i..], seen') == NestsTenant(models, a, seen)
      {
        assert args[i..][1..] == args[i + 1..];
        assert args[i] in args;
        found, seen' := AnnotationNestsTenant(models, args[i], seen');
        if found {
          return true, seen';
        }
      }
      return false, seen';
  }

  /** `annotation_is_tenant_bearing`. */
  predicate IsTenantBearing(models: Models, a: Ann) {
    NestsTenant(models, a, {}).0 || IsMapping(a)
  }

  /** `accepts_tenant_bearing_param`, over a signature's (name, annotation) pairs. */
  predicate AcceptsTenantBearingParam(models: Models, params: seq<(string, Ann)>) {
    exists i :: 0 <= i < |params| && (IsTenantName(params[i].0) || IsTenantBearing(models, params[i].1))
  }

  /** `response_exposes_restricted_content`, with the visited set threaded through: fields
      in order, each one's own marker before its annotation. */
  function Exposes(models: Models, a: Ann, seen: set<ClassName>): (r: (bool, set<ClassName>))
    ensures seen <= r.1
    decreases models.Keys - seen, a, 0
  {
    match a
    case Class(c) =>
      if c !in models || c in seen then (false, seen) else AnyFieldExposes(models, models[c], seen + {c})
    case BareMapping => (false, seen)
    case Gen(_, args) => AnyExposes(models, args, seen)
  }

  function AnyExposes(models: Models, anns: seq<Ann>, seen: set<ClassName>): (r: (bool, set<ClassName>))
    ensures seen <= r.1
    decreases models.Keys - seen, anns, 1
  {
    if anns == [] then (false, seen)
    else
      var (found, seen') := Exposes(models, anns[0], seen);
      if found then (true, seen') else AnyExposes(models, anns[1..], seen')
  }

  function AnyFieldExposes(models: Models, fields: seq<Field>, seen: set<ClassName>): (r: (bool, set<ClassName>))
    ensures seen <= r.1
    decreases models.Keys - seen, fields, 1
  {
    if fields == [] then (false, seen)
    else if fields[0].pii.Some? then (true, seen)
    else
      var (found, seen') := Exposes(models, fields[0].ann, seen);
      if found then (true, seen') else AnyFieldExposes(models, fields[1..], seen')
  }

  /** The same detector as the source runs it: a set updated in place and a loop that returns
      early. */
  method ResponseExposes(models: Models, a: Ann, seen: set<ClassName>)
    returns (found: bool, seen': set<ClassName>)
    ensures (found, seen') == Exposes(models, a, seen)
    decreases models.Keys - seen, a
  {
    seen' := seen;
    match a
    case BareMapping => return false, seen';
    case Class(c) =>
      if c !in models || c in seen {
        return false, seen';
      }
      seen' := seen' + {c};
      var fields := models[c];
      for i := 0 to |fields|
        invariant seen + {c} <= seen'
        invariant AnyFieldExposes(models, fields[i..], seen') == Exposes(models, a, seen)
      {
        assert fields[i..][1..] == fields[i + 1..];
        if fields[i].pii.Some? {
          return true, seen';
        }
        found, seen' := ResponseExposes(models, fields[i].ann, seen');
        if found {
          return true, seen';
        }
      }
      return false, seen';
    case Gen(_, args) =>
      for i := 0 to |args|
        invariant seen <= seen'
        invariant AnyExposes(models, args[i..], seen') == Exposes(models, a, seen)
      {
        assert args[i..][1..] == args[i + 1..];
        assert args[i] in args;
        found, seen' := ResponseExposes(models, args[i], seen');
        if found {
          return true, seen';
        }
      }
      return false, seen';
  }

  /** What a negative walk has established: everything it was asked about is visited, and the
      newly visited classes are models without the tenant field whose own classes are visited. */
  ghost predicate NestsRuledOut(models: Models, anns: seq<Ann>, seen: set<ClassName>, seen': set<ClassName>) {
    && ClassesInAll(models, anns, false) <= seen'
    && forall c | c in seen' - seen ::
         c in models && !HasTenantField(models, c) && ClassesInAll(models, FieldAnns(models[c]), false) <= seen'
  }

  /** What a positive walk has established: every closed set around the start holds a hit. */
  ghost predicate NestsUnavoidable(models: Models, anns: seq<Ann>) {
    forall s: set<ClassName> | Closed(ClassGraph(models, false), s) && ClassesInAll(models, anns, false) <= s ::
      exists c :: c in s && HasTenantField(models, c)
  }

  lemma NestsTenantWalk(models: Models, a: Ann, seen: set<ClassName>)
    ensures
      var (found, seen') := NestsTenant(models, a, seen);
      if found then NestsUnavoidable(models, [a]) else NestsRuledOut(models, [a], seen, seen')
    decreases models.Keys - seen, a, 0
  {
    assert ClassesInAll(models, [a], false) == ClassesIn(models, a, false);
    match a
    case BareMapping =>
    case Class(c) =>
      if c in models && c !in seen && !HasTenantField(models, c) {
        AnyNestsTenantWalk(models, FieldAnns(models[c]), seen + {c});
        var found := NestsTenant(models, a, seen).0;
        if found {
          forall s: set<ClassName> | Closed(ClassGraph(models, false), s) && ClassesInAll(models, [a], false) <= s
            ensures exists d :: d in s && HasTenantField(models, d)
          {
            assert c in s && ClassGraph(models, false)[c] <= s;
          }
        }
      }
    case Gen(origin, args) =>
      if !origin.MappingOf? {
        AnyNestsTenantWalk(models, args, seen);
      }
  }

  lemma AnyNestsTenantWalk(models: Models, anns: seq<Ann>, seen: set<ClassName>)
    ensures
      var (found, seen') := AnyNestsTenant(models, anns, seen);
      if found then NestsUnavoidable(models, anns) else NestsRuledOut(models, anns, seen, seen')
    decreases models.Keys - seen, anns, 1
  {
    if anns != [] {
      NestsTenantWalk(models, anns[0], seen);
      assert ClassesInAll(models, [anns[0]], false) == ClassesIn(models, anns[0], false);
      var (found, seen') := NestsTenant(models, anns[0], seen);
      if !found {
        AnyNestsTenantWalk(models, anns[1..], seen');
      }
    }
  }

  /** The static tenant detector decides reachability: it says yes exactly when some model
      with a `tenant_id` field is reachable from the annotation, in a type table of any shape. */
  lemma NestsTenantIffReachable(models: Models, a: Ann)
    ensures NestsTenant(models, a, {}).0 <==>
              exists c :: HasTenantField(models, c)
                          && Reaches(ClassGraph(models, false), ClassesIn(models, a, false), c)
  {
    var g, roots := ClassGraph(models, false), ClassesIn(models, a, false);
    assert ClassesInAll(models, [a], false) == roots;
    ClassesInModels(models, [a], false);
    ClassGraphContained(models, false);
    ReachSetIsLeastClosed(g, roots);
    NestsTenantWalk(models, a, {});
    var (found, seen) := NestsTenant(models, a, {});
    if found {
      var c :| c in ReachSet(g, roots) && HasTenantField(models, c);
    } else {
      assert Closed(g, seen);
      assert forall c | c in seen :: !HasTenantField(models, c);
      assert forall c | HasTenantField(models, c) && Reaches(g, roots, c) :: c in ReachSet(g, roots);
    }
  }

  ghost predicate ExposesRuledOut(models: Models, anns: seq<Ann>, seen: set<ClassName>, seen': set<ClassName>) {
    && ClassesInAll(models, anns, true) <= seen'
    && forall c | c in seen' - seen ::
         c in models && !HasPiiField(models, c) && ClassesInAll(models, FieldAnns(models[c]), true) <= seen'
  }

  ghost predicate ExposesUnavoidable(models: Models, anns: seq<Ann>) {
    forall s: set<ClassName> | Closed(ClassGraph(models, true), s) && ClassesInAll(models, anns, true) <= s ::
      exists c :: c in s && HasPiiField(models, c)
  }

  lemma ExposesWalk(models: Models, a: Ann, seen: set<ClassName>)
    ensures
      var (found, seen') := Exposes(models, a, seen);
      if found then ExposesUnavoidable(models, [a]) else ExposesRuledOut(models, [a], seen, seen')
    decreases models.Keys - seen, a, 0
  {
    assert ClassesInAll(models, [a], true) == ClassesIn(models, a, true);
    match a
    case BareMapping =>
    case Class(c) =>
      if c in models && c !in seen {
        AnyFieldExposesWalk(models, models[c], seen + {c});
        if Exposes(models, a, seen).0 {
          forall s: set<ClassName> | Closed(ClassGraph(models, true), s) && ClassesInAll(models, [a], true) <= s
            ensures exists d :: d in s && HasPiiField(models, d)
          {
            assert c in s && ClassGraph(models, true)[c] <= s;
          }
        }
      }
    case Gen(_, args) => AnyExposesWalk(models, args, seen);
  }

  lemma AnyExposesWalk(models: Models, anns: seq<Ann>, seen: set<ClassName>)
    ensures
      var (found, seen') := AnyExposes(models, anns, seen);
      if found then ExposesUnavoidable(models, anns) else ExposesRuledOut(models, anns, seen, seen')
    decreases models.Keys - seen, anns, 1
  {
    if anns != [] {
      ExposesWalk(models, anns[0], seen);
      assert ClassesInAll(models, [anns[0]], true) == ClassesIn(models, anns[0], true);
      var (found, seen') := Exposes(models, anns[0], seen);
      if !found {
        AnyExposesWalk(models, anns[1..], seen');
      }
    }
  }

  lemma AnyFieldExposesWalk(models: Models, fields: seq<Field>, seen: set<ClassName>)
    ensures
      var (found, seen') := AnyFieldExposes(models, fields, seen);
      if found then
        || (exists i :: 0 <= i < |fields| && fields[i].pii.Some?)
        || ExposesUnavoidable(models, FieldAnns(fields))
      else
        && ExposesRuledOut(models, FieldAnns(fields), seen, seen')
        && forall i | 0 <= i < |fields| :: fields[i].pii.None?
    decreases models.Keys - seen, fields, 1
  {
    if fields != [] && fields[0].pii.None? {
      ExposesWalk(models, fields[0].ann, seen);
      assert ClassesInAll(models, [fields[0].ann], true) == ClassesIn(models, fields[0].ann, true);
      assert FieldAnns(fields)[1..] == FieldAnns(fields[1..]);
      var (found, seen') := Exposes(models, fields[0].ann, seen);
      if !found {
        AnyFieldExposesWalk(models, fields[1..], seen');
        forall i | 0 <= i < |fields[1..]|
          ensures fields[1..][i] == fields[i + 1]
        {
        }
      }
    }
  }

  /** The response detector decides reachability too: yes exactly when a model with a
      `Pii`-marked field is reachable, through mappings as well. */
  lemma ExposesIffReachable(models: Models, a: Ann)
    ensures Exposes(models, a, {}).0 <==>
              exists c :: HasPiiField(models, c) && Reaches(ClassGraph(models, true), ClassesIn(models, a, true), c)
  {
    var g, roots := ClassGraph(models, true), ClassesIn(models, a, true);
    assert ClassesInAll(models, [a], true) == roots;
    ClassesInModels(models, [a], true);
    ClassGraphContained(models, true);
    ReachSetIsLeastClosed(g, roots);
    ExposesWalk(models, a, {});
    var (found, seen) := Exposes(models, a, {});
    if found {
      var c :| c in ReachSet(g, roots) && HasPiiField(models, c);
    } else {
      assert Closed(g, seen);
      assert forall c | c in seen :: !HasPiiField(models, c);
      assert forall c | HasPiiField(models, c) && Reaches(g, roots, c) :: c in ReachSet(g, roots);
    }
  }
}
