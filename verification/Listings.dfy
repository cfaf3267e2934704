/**
 The order a listing shows its rows in: what the stable sort does to the rows of one tenant
 among those of others, and where it puts each row.
 */
module Listings {
  import opened Common
  import opened ScopedStores

  ghost predicate Sorted(rows: seq<Row>) {
    forall i, j | 0 <= i < j < |rows| :: SortRank(rows[i]) <= SortRank(rows[j])
  }

  lemma {:induction false} InsertSorts(x: Row, sorted: seq<Row>)
    requires Sorted(sorted)
    ensures Sorted(InsertRow(x, sorted))
    ensures forall r :: r in InsertRow(x, sorted) <==> r == x || r in sorted
  {
    if sorted != [] && SortRank(x) > SortRank(sorted[0]) {
      var rest := InsertRow(x, sorted[1..]);
      InsertSorts(x, sorted[1..]);
      forall i | 0 <= i < |rest|
        ensures SortRank(sorted[0]) <= SortRank(rest[i])
      {
        assert rest[i] in rest;
      }
      assert forall r :: r in sorted <==> r == sorted[0] || r in sorted[1..];
    }
  }

  lemma {:induction false} SortSorts(rows: seq<Row>)
    ensures Sorted(SortRows(rows)) && forall r :: r in SortRows(rows) <==> r in rows
  {
    if rows != [] {
      SortSorts(rows[1..]);
      InsertSorts(rows[0], SortRows(rows[1..]));
      assert forall r :: r in rows <==> r == rows[0] || r in rows[1..];
    }
  }

  lemma {:induction false} OwnedOnlyAppend(a: seq<Row>, b: seq<Row>, ambient: string)
    ensures OwnedOnly(a + b, ambient) == OwnedOnly(a, ambient) + OwnedOnly(b, ambient)
  {
    if a == [] {
      assert a + b == b;
    } else {
      OwnedOnlyAppend(a[1..], b, ambient);
      assert (a + b)[1..] == a[1..] + b;
    }
  }

  lemma {:induction false} OwnedOnlyInsert(x: Row, sorted: seq<Row>, ambient: string)
    requires Sorted(sorted)
    ensures OwnedOnly(InsertRow(x, sorted), ambient)
            == if IsForeign(x.tenant, ambient) then OwnedOnly(sorted, ambient)
               else InsertRow(x, OwnedOnly(sorted, ambient))
  {
    if sorted == [] || SortRank(x) <= SortRank(sorted[0]) {
      OwnedOnlyIsOwned(sorted, ambient);
      var owned := OwnedOnly(sorted, ambient);
      assert owned != [] ==> owned[0] in owned && owned[0] in sorted;
      assert ([x] + sorted)[1..] == sorted;
    } else {
      OwnedOnlyInsert(x, sorted[1..], ambient);
      assert ([sorted[0]] + InsertRow(x, sorted[1..]))[1..] == InsertRow(x, sorted[1..]);
    }
  }

  /** Dropping other tenants' rows and sorting commute: their rows never reorder a tenant's own. */
  lemma {:induction false} OwnedOnlySort(rows: seq<Row>, ambient: string)
    ensures OwnedOnly(SortRows(rows), ambient) == SortRows(OwnedOnly(rows, ambient))
  {
    if rows != [] {
      OwnedOnlySort(rows[1..], ambient);
      SortSorts(rows[1..]);
      OwnedOnlyInsert(rows[0], SortRows(rows[1..]), ambient);
    }
  }

  /** Row by row the same stamp, and the same row where it is the tenant's own. */
  ghost predicate AlikeRows(a: seq<Row>, b: seq<Row>, ambient: string) {
    && |a| == |b|
    && forall i | 0 <= i < |a| ::
         a[i].tenant == b[i].tenant && (!IsForeign(a[i].tenant, ambient) ==> a[i] == b[i])
  }

  lemma {:induction false} OwnedMatchesAlike(a: seq<Row>, b: seq<Row>, q: Query, ambient: string)
    requires AlikeRows(a, b, ambient)
    ensures OwnedOnly(MatchRows(a, q), ambient) == OwnedOnly(MatchRows(b, q), ambient)
  {
    if a != [] {
      OwnedMatchesAlike(a[1..], b[1..], q, ambient);
    }
  }

  lemma {:induction false} OwnedSelectedAlike(a: seq<Row>, b: seq<Row>, parent: string, ambient: string)
    requires AlikeRows(a, b, ambient)
    ensures OwnedOnly(SelectRows(a, parent), ambient) == OwnedOnly(SelectRows(b, parent), ambient)
  {
    if a != [] {
      OwnedSelectedAlike(a[1..], b[1..], parent, ambient);
    }
  }

  /** The rows a message listing shows to a tenant. */
  function Shown(rows: seq<Row>, q: Query, limit: int, ambient: string): seq<Row> {
    OwnedOnly(Take(SortRows(MatchRows(rows, q)), limit), ambient)
  }

  /** What is shown is the beginning of the tenant's own matching rows, newest first: other
      tenants' rows decide only how many. */
  lemma ShownIsPrefix(rows: seq<Row>, q: Query, limit: int, ambient: string)
    ensures Shown(rows, q, limit, ambient) <= SortRows(OwnedOnly(MatchRows(rows, q), ambient))
  {
    var all := SortRows(MatchRows(rows, q));
    var n := CutAt(|all|, limit);
    assert all == all[..n] + all[n..];
    OwnedOnlyAppend(all[..n], all[n..], ambient);
    OwnedOnlySort(MatchRows(rows, q), ambient);
  }

  /** Two listings agree exactly when as many own rows are among the rows cut out. */
  lemma ShownAlikeIff(a: seq<Row>, b: seq<Row>, q: Query, limit: int, ambient: string)
    requires AlikeRows(a, b, ambient)
    ensures Shown(a, q, limit, ambient) == Shown(b, q, limit, ambient)
            <==> |Shown(a, q, limit, ambient)| == |Shown(b, q, limit, ambient)|
  {
    ShownIsPrefix(a, q, limit, ambient);
    ShownIsPrefix(b, q, limit, ambient);
    OwnedMatchesAlike(a, b, q, ambient);
  }

  /** Created at a time or later, or at that very time. */
  datatype When = Since(t: int) | At(t: int)

  predicate Counts(row: Row, q: Query, w: When) {
    Matches(q, row) && if w.Since? then w.t <= row.body.created else row.body.created == w.t
  }

  function Count(rows: seq<Row>, q: Query, w: When): nat {
    if rows == [] then 0 else (if Counts(rows[0], q, w) then 1 else 0) + Count(rows[1..], q, w)
  }

  lemma {:induction false} CountAppend(a: seq<Row>, b: seq<Row>, q: Query, w: When)
    ensures Count(a + b, q, w) == Count(a, q, w) + Count(b, q, w)
  {
    if a == [] {
      assert a + b == b;
    } else {
      CountAppend(a[1..], b, q, w);
      assert (a + b)[1..] == a[1..] + b;
    }
  }

  /** How many matching rows are newer than row `k`, or as new and arrived before it. */
  function Ahead(rows: seq<Row>, q: Query, k: nat): nat
    requires k < |rows| && rows[k].body.MessageBody?
  {
    var t := rows[k].body.created;
    Count(rows, q, Since(t + 1)) + Count(rows[..k], q, At(t))
  }

  lemma {:induction false} MatchRowsMatch(rows: seq<Row>, q: Query)
    ensures forall r :: r in MatchRows(rows, q) <==> r in rows && Matches(q, r)
    ensures |MatchRows(rows, q)| == Count(rows, q, Since(0))
  {
    if rows != [] {
      MatchRowsMatch(rows[1..], q);
      assert forall r :: r in rows <==> r == rows[0] || r in rows[1..];
    }
  }

  lemma {:induction false} InsertAt(x: Row, sorted: seq<Row>, n: nat)
    requires n <= |sorted| && forall i | 0 <= i < n :: SortRank(sorted[i]) < SortRank(x)
    requires n < |sorted| ==> SortRank(x) <= SortRank(sorted[n])
    ensures InsertRow(x, sorted) == sorted[..n] + [x] + sorted[n..]
  {
    if n > 0 {
      InsertAt(x, sorted[1..], n - 1);
      assert sorted[..n] == [sorted[0]] + sorted[1..][..n - 1];
    }
  }

  lemma {:induction false} CountNewer(sorted: seq<Row>, q: Query, t: int)
    requires Sorted(sorted) && forall r | r in sorted :: Matches(q, r)
    ensures
      var n := Count(sorted, q, Since(t + 1));
      n <= |sorted| && forall i | 0 <= i < |sorted| :: i < n <==> SortRank(sorted[i]) < 0 - t
  {
    if sorted != [] {
      var rest := sorted[1..];
      assert forall r | r in rest :: r in sorted;
      assert sorted[0] in sorted;
      CountNewer(rest, q, t);
      if rest != [] { assert rest[0] == sorted[1]; }
      assert forall i | 0 < i < |sorted| :: sorted[i] == rest[i - 1];
    }
  }

  /** A row's only place in a list. */
  ghost predicate Spot(rows: seq<Row>, row: Row, p: nat) {
    p < |rows| && forall i | 0 <= i < |rows| :: rows[i] == row <==> i == p
  }

  /** The sort inserts a row after the newer ones and before all others. */
  lemma InsertedSpot(x: Row, sorted: seq<Row>, q: Query)
    requires Sorted(sorted) && Matches(q, x) && (forall r | r in sorted :: Matches(q, r)) && x !in sorted
    ensures Spot(InsertRow(x, sorted), x, Count(sorted, q, Since(x.body.created + 1)))
  {
    var n := Count(sorted, q, Since(x.body.created + 1));
    CountNewer(sorted, q, x.body.created);
    assert SortRank(x) == 0 - x.body.created;
    InsertAt(x, sorted, n);
    forall i | 0 <= i < |sorted|
      ensures sorted[i] != x
    {
      assert sorted[i] in sorted;
    }
  }

  /** The others move back by one if they are not newer. */
  lemma OtherSpot(x: Row, sorted: seq<Row>, q: Query, row: Row, p: nat)
    requires Sorted(sorted) && Matches(q, x) && (forall r | r in sorted :: Matches(q, r)) && x != row
    requires Spot(sorted, row, p)
    ensures Spot(InsertRow(x, sorted), row, if SortRank(row) < SortRank(x) then p else p + 1)
  {
    var n := Count(sorted, q, Since(x.body.created + 1));
    CountNewer(sorted, q, x.body.created);
    assert SortRank(x) == 0 - x.body.created && sorted[p] == row;
    InsertAt(x, sorted, n);
  }

  lemma {:induction false} CountInsert(x: Row, sorted: seq<Row>, q: Query, w: When)
    ensures Count(InsertRow(x, sorted), q, w) == Count([x], q, w) + Count(sorted, q, w)
  {
    if sorted == [] || SortRank(x) <= SortRank(sorted[0]) {
      CountAppend([x], sorted, q, w);
    } else {
      CountInsert(x, sorted[1..], q, w);
      assert ([sorted[0]] + InsertRow(x, sorted[1..]))[1..] == InsertRow(x, sorted[1..]);
    }
  }

  lemma {:induction false} CountSorted(rows: seq<Row>, q: Query, w: When)
    ensures Count(SortRows(MatchRows(rows, q)), q, w) == Count(rows, q, w)
  {
    if rows != [] {
      CountSorted(rows[1..], q, w);
      var rest := MatchRows(rows[1..], q);
      if Matches(q, rows[0]) {
        CountInsert(rows[0], SortRows(rest), q, w);
        assert MatchRows(rows, q) == [rows[0]] + rest && ([rows[0]] + rest)[1..] == rest;
      } else {
        assert MatchRows(rows, q) == rest;
      }
    }
  }

  ghost predicate NoRepeat(rows: seq<Row>) {
    forall i, j | 0 <= i < j < |rows| :: rows[i].id != rows[j].id
  }

  /** The sort puts each row at exactly one place: behind those ahead of it. */
  lemma {:induction false} SortPlace(rows: seq<Row>, q: Query, k: nat)
    requires NoRepeat(rows) && k < |rows| && Matches(q, rows[k])
    ensures Spot(SortRows(MatchRows(rows, q)), rows[k], Ahead(rows, q, k))
  {
    var (x, rest) := (rows[0], rows[1..]);
    var sorted := SortRows(MatchRows(rest, q));
    MatchRowsMatch(rest, q);
    SortSorts(MatchRows(rest, q));
    if k == 0 {
      assert x !in rest && rows[..0] == [];
      InsertedSpot(x, sorted, q);
      CountSorted(rest, q, Since(x.body.created + 1));
    } else {
      assert rows[k] == rest[k - 1] && x != rows[k];
      AheadCons(rows, q, k);
      SortPlace(rest, q, k - 1);
      if Matches(q, x) {
        OtherSpot(x, sorted, q, rows[k], Ahead(rest, q, k - 1));
      }
    }
  }

  lemma AheadCons(rows: seq<Row>, q: Query, k: nat)
    requires 0 < k < |rows| && Matches(q, rows[k])
    ensures rows[1..][k - 1] == rows[k]
    ensures Ahead(rows, q, k) == Ahead(rows[1..], q, k - 1)
                                 + if Matches(q, rows[0]) && SortRank(rows[0]) <= SortRank(rows[k]) then 1 else 0
  {
    assert rows[..k][1..] == rows[1..][..k - 1];
  }

  /** Exactly when a listing shows one of the tenant's rows: fewer than `limit` matching rows are
      newer, or as new and arrived before it, whoever they belong to. */
  lemma ShownIff(rows: seq<Row>, q: Query, k: nat, limit: nat, ambient: string)
    requires NoRepeat(rows) && k < |rows| && Matches(q, rows[k]) && !IsForeign(rows[k].tenant, ambient)
    ensures rows[k] in Shown(rows, q, limit, ambient) <==> Ahead(rows, q, k) < limit
  {
    var all := SortRows(MatchRows(rows, q));
    SortPlace(rows, q, k);
    OwnedOnlyIsOwned(Take(all, limit), ambient);
    assert all[Ahead(rows, q, k)] == rows[k];
    assert Ahead(rows, q, k) < limit ==> Take(all, limit)[Ahead(rows, q, k)] == rows[k];
  }

  /** The other tenants' rows among those counted. */
  function ForeignCount(rows: seq<Row>, q: Query, w: When, ambient: string): nat {
    if rows == [] then 0
    else
      (if IsForeign(rows[0].tenant, ambient) && Counts(rows[0], q, w) then 1 else 0)
      + ForeignCount(rows[1..], q, w, ambient)
  }

  /** The tenant's own rows count alike. */
  lemma {:induction false} CountAlike(a: seq<Row>, b: seq<Row>, q: Query, w: When, ambient: string)
    requires AlikeRows(a, b, ambient)
    ensures Count(a, q, w) - ForeignCount(a, q, w, ambient) == Count(b, q, w) - ForeignCount(b, q, w, ambient)
  {
    if a != [] {
      CountAlike(a[1..], b[1..], q, w, ambient);
    }
  }

  lemma {:induction false} ForeignAtSince(rows: seq<Row>, q: Query, t: int, ambient: string)
    ensures ForeignCount(rows, q, Since(t), ambient)
            == ForeignCount(rows, q, At(t), ambient) + ForeignCount(rows, q, Since(t + 1), ambient)
  {
    if rows != [] {
      ForeignAtSince(rows[1..], q, t, ambient);
    }
  }

  /** The other tenants' rows ahead of row `k`. */
  function ForeignAhead(rows: seq<Row>, q: Query, k: nat, ambient: string): nat
    requires k < |rows| && rows[k].body.MessageBody?
  {
    var t := rows[k].body.created;
    ForeignCount(rows, q, Since(t + 1), ambient) + ForeignCount(rows[..k], q, At(t), ambient)
  }

  lemma AheadAlike(a: seq<Row>, b: seq<Row>, q: Query, k: nat, ambient: string)
    requires AlikeRows(a, b, ambient) && k < |a| && !IsForeign(a[k].tenant, ambient) && a[k].body.MessageBody?
    ensures Ahead(a, q, k) - ForeignAhead(a, q, k, ambient) == Ahead(b, q, k) - ForeignAhead(b, q, k, ambient)
  {
    CountAlike(a, b, q, Since(a[k].body.created + 1), ambient);
    CountAlike(a[..k], b[..k], q, At(a[k].body.created), ambient);
  }

  /** For every filter and every time, the two have as many rows of other tenants that are that new
      or newer, and as many of that very time that arrived before any of the tenant's own rows. */
  ghost predicate Balanced(a: seq<Row>, b: seq<Row>, ambient: string)
    requires |a| == |b|
  {
    && (forall q, t: nat :: SameSince(a, b, q, t, ambient))
    && (forall q, t: nat, k: nat | k < |a| && !IsForeign(a[k].tenant, ambient) :: SameBefore(a, b, q, t, k, ambient))
  }

  predicate SameSince(a: seq<Row>, b: seq<Row>, q: Query, t: nat, ambient: string) {
    ForeignCount(a, q, Since(t), ambient) == ForeignCount(b, q, Since(t), ambient)
  }

  predicate SameBefore(a: seq<Row>, b: seq<Row>, q: Query, t: nat, k: nat, ambient: string)
    requires k <= |a| && k <= |b|
  {
    ForeignCount(a[..k], q, At(t), ambient) == ForeignCount(b[..k], q, At(t), ambient)
  }

  /** Own rows of a balanced pair stand at the same places of the sorted listing. */
  lemma SamePlaces(a: seq<Row>, b: seq<Row>, q: Query, p: nat, ambient: string)
    requires AlikeRows(a, b, ambient) && NoRepeat(a) && NoRepeat(b) && Balanced(a, b, ambient)
    requires p < |SortRows(MatchRows(a, q))| && !IsForeign(SortRows(MatchRows(a, q))[p].tenant, ambient)
    ensures
      var other := SortRows(MatchRows(b, q));
      p < |other| && other[p] == SortRows(MatchRows(a, q))[p]
  {
    var row := SortRows(MatchRows(a, q))[p];
    SortSorts(MatchRows(a, q));
    MatchRowsMatch(a, q);
    assert row in SortRows(MatchRows(a, q));
    var k: nat :| k < |a| && a[k] == row;
    assert SameSince(a, b, q, row.body.created + 1, ambient) && SameBefore(a, b, q, row.body.created, k, ambient);
    AheadAlike(a, b, q, k, ambient);
    SortPlace(a, q, k);
    SortPlace(b, q, k);
  }

  lemma {:induction false} OwnedOnlySame(x: seq<Row>, y: seq<Row>, ambient: string)
    requires |x| == |y|
    requires forall p | 0 <= p < |x| && !(IsForeign(x[p].tenant, ambient) && IsForeign(y[p].tenant, ambient)) ::
               x[p] == y[p]
    ensures OwnedOnly(x, ambient) == OwnedOnly(y, ambient)
  {
    if x != [] {
      OwnedOnlySame(x[1..], y[1..], ambient);
    }
  }

  lemma SortLength(rows: seq<Row>, q: Query)
    ensures |SortRows(MatchRows(rows, q))| == Count(rows, q, Since(0))
  {
    MatchRowsMatch(rows, q);
    SortKeepsLength(MatchRows(rows, q));
  }

  lemma {:induction false} SortKeepsLength(rows: seq<Row>)
    ensures |SortRows(rows)| == |rows|
  {
    if rows != [] {
      SortKeepsLength(rows[1..]);
      InsertLength(rows[0], SortRows(rows[1..]));
    }
  }

  lemma {:induction false} InsertLength(x: Row, sorted: seq<Row>)
    ensures |InsertRow(x, sorted)| == |sorted| + 1
  {
    if sorted != [] && SortRank(x) > SortRank(sorted[0]) {
      InsertLength(x, sorted[1..]);
    }
  }

  lemma BalancedSymmetric(a: seq<Row>, b: seq<Row>, ambient: string)
    requires AlikeRows(a, b, ambient) && Balanced(a, b, ambient)
    ensures AlikeRows(b, a, ambient) && Balanced(b, a, ambient)
  {
    forall q, t: nat
      ensures SameSince(b, a, q, t, ambient)
    {
      assert SameSince(a, b, q, t, ambient);
    }
    forall q, t: nat, k: nat | k < |b| && !IsForeign(b[k].tenant, ambient)
      ensures SameBefore(b, a, q, t, k, ambient)
    {
      assert SameBefore(a, b, q, t, k, ambient);
    }
  }

  /** Balanced rows show the same to every listing, whatever its filters and limit. */
  lemma BalancedShows(a: seq<Row>, b: seq<Row>, q: Query, limit: int, ambient: string)
    requires AlikeRows(a, b, ambient) && NoRepeat(a) && NoRepeat(b) && Balanced(a, b, ambient)
    ensures Shown(a, q, limit, ambient) == Shown(b, q, limit, ambient)
  {
    var (x, y) := (SortRows(MatchRows(a, q)), SortRows(MatchRows(b, q)));
    SortLength(a, q);
    SortLength(b, q);
    assert SameSince(a, b, q, 0, ambient);
    CountAlike(a, b, q, Since(0), ambient);
    BalancedSymmetric(a, b, ambient);
    forall p: nat | p < |x| && !(IsForeign(x[p].tenant, ambient) && IsForeign(y[p].tenant, ambient))
      ensures x[p] == y[p]
    {
      if IsForeign(x[p].tenant, ambient) {
        SamePlaces(b, a, q, p, ambient);
      } else {
        SamePlaces(a, b, q, p, ambient);
      }
    }
    OwnedOnlySame(Take(x, limit), Take(y, limit), ambient);
  }

  /** Where different numbers of other tenants' rows are ahead of an own row, some limit shows it. */
  lemma UnbalancedShows(a: seq<Row>, b: seq<Row>, q: Query, k: nat, ambient: string) returns (limit: nat)
    requires AlikeRows(a, b, ambient) && NoRepeat(a) && NoRepeat(b)
    requires k < |a| && Matches(q, a[k]) && !IsForeign(a[k].tenant, ambient)
    requires ForeignAhead(a, q, k, ambient) != ForeignAhead(b, q, k, ambient)
    ensures Shown(a, q, limit, ambient) != Shown(b, q, limit, ambient)
  {
    AheadAlike(a, b, q, k, ambient);
    limit := 1 + if Ahead(a, q, k) < Ahead(b, q, k) then Ahead(a, q, k) else Ahead(b, q, k);
    ShownIff(a, q, k, limit, ambient);
    ShownIff(b, q, k, limit, ambient);
  }

  /** The same rows of other tenants at the same places; of the tenant's own, any, and possibly
      more of them at the end. */
  ghost predicate KeepsForeign(a: seq<Row>, a': seq<Row>, ambient: string) {
    && |a| <= |a'| && (forall i | |a| <= i < |a'| :: !IsForeign(a'[i].tenant, ambient))
    && forall i | 0 <= i < |a| ::
         a[i] == a'[i] || !(IsForeign(a[i].tenant, ambient) || IsForeign(a'[i].tenant, ambient))
  }

  lemma {:induction false} ForeignCountKept(a: seq<Row>, a': seq<Row>, q: Query, w: When, ambient: string)
    requires KeepsForeign(a, a', ambient)
    ensures ForeignCount(a', q, w, ambient) == ForeignCount(a, q, w, ambient)
    decreases |a'|
  {
    if a' != [] {
      ForeignCountKept(if a == [] then [] else a[1..], a'[1..], q, w, ambient);
    }
  }

  lemma KeepsForeignPrefix(a: seq<Row>, a': seq<Row>, k: nat, ambient: string)
    requires KeepsForeign(a, a', ambient) && k <= |a'|
    ensures KeepsForeign(if k <= |a| then a[..k] else a, a'[..k], ambient)
  {
  }

  lemma BalancedKept(a: seq<Row>, b: seq<Row>, a': seq<Row>, b': seq<Row>, ambient: string)
    requires |a| == |b| && |a'| == |b'| && Balanced(a, b, ambient)
    requires KeepsForeign(a, a', ambient) && KeepsForeign(b, b', ambient)
    ensures Balanced(a', b', ambient)
  {
    forall q, t: nat
      ensures SameSince(a', b', q, t, ambient)
    {
      assert SameSince(a, b, q, t, ambient);
      ForeignCountKept(a, a', q, Since(t), ambient);
      ForeignCountKept(b, b', q, Since(t), ambient);
    }
    forall q, t: nat, k: nat | k < |a'| && !IsForeign(a'[k].tenant, ambient)
      ensures SameBefore(a', b', q, t, k, ambient)
    {
      KeepsForeignPrefix(a, a', k, ambient);
      KeepsForeignPrefix(b, b', k, ambient);
      ForeignCountKept(if k <= |a| then a[..k] else a, a'[..k], q, At(t), ambient);
      ForeignCountKept(if k <= |b| then b[..k] else b, b'[..k], q, At(t), ambient);
      if k < |a| {
        assert SameBefore(a, b, q, t, k, ambient);
      } else {
        assert SameSince(a, b, q, t, ambient) && SameSince(a, b, q, t + 1, ambient) && a[..|a|] == a && b[..|b|] == b;
        ForeignAtSince(a, q, t, ambient);
        ForeignAtSince(b, q, t, ambient);
      }
    }
  }

  /** The order of each kind of listing: messages newest first, documents oldest first, milestones by
      due date, and the rest in order of arrival. */
  lemma ListingOrder(a: Row, b: Row)
    ensures a.body.MessageBody? && b.body.MessageBody? ==>
              (SortRank(a) <= SortRank(b) <==> a.body.created >= b.body.created)
    ensures a.body.DocumentBody? && b.body.DocumentBody? ==>
              (SortRank(a) <= SortRank(b) <==> a.body.attached <= b.body.attached)
    ensures a.body.MilestoneBody? && b.body.MilestoneBody? ==>
              (SortRank(a) <= SortRank(b) <==> a.body.milestone.dueDate <= b.body.milestone.dueDate)
    ensures a.body.CallBody? || a.body.FeedbackBody? || a.body.TransactionBody? ==> SortRank(a) == 0
  {
  }

  /** Which messages a listing is about: those of the contact and of the transaction asked for. */
  predicate AskedFor(q: Query, row: Row) {
    && row.body.MessageBody? && (q.contact.None? || q.contact.value == row.body.contact)
    && (q.transaction.None? || q.transaction.value == row.body.transaction)
  }

  /** A listing shows only rows it was asked for, of the tenant's own or unstamped; and all of those if
      its limit is at least the number of messages stored. */
  lemma ListingIsAsked(rows: seq<Row>, q: Query, limit: int, ambient: string, r: Row)
    ensures r in Shown(rows, q, limit, ambient) ==>
              r in rows && AskedFor(q, r) && (r.tenant == "" || r.tenant == ambient)
    ensures limit >= |rows| && r in rows && AskedFor(q, r) && (r.tenant == "" || r.tenant == ambient) ==>
              r in Shown(rows, q, limit, ambient)
  {
    var all := SortRows(MatchRows(rows, q));
    MatchRowsMatch(rows, q);
    SortSorts(MatchRows(rows, q));
    SortLength(rows, q);
    CountAtMost(rows, q, Since(0));
    OwnedOnlyIsOwned(Take(all, limit), ambient);
    assert r in Take(all, limit) ==> r in all;
    assert limit >= |rows| ==> Take(all, limit) == all;
    assert Matches(q, r) <==> AskedFor(q, r);
    assert IsForeign(r.tenant, ambient) <==> !(r.tenant == "" || r.tenant == ambient);
  }

  lemma {:induction false} CountAtMost(rows: seq<Row>, q: Query, w: When)
    ensures Count(rows, q, w) <= |rows|
  {
    if rows != [] {
      CountAtMost(rows[1..], q, w);
    }
  }
}
