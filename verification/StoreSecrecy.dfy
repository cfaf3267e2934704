/**
 What a tenant's calls on the confined stores of `ScopedStores` tell it about other tenants'
 rows: nothing but what a lookup by provider id runs into and what the limit of a message
 listing leaves room for, and exactly when those are something.
 */
module StoreSecrecy {
  import opened Common
  import opened Listings
  import opened ScopedStores
  import Msg = Messages

  /** Two tables one tenant cannot tell apart: same ids and stamps, same owned rows; the
      contents of foreign rows may differ. */
  predicate LooksAlike(t1: Table, t2: Table, ambient: string) {
    && t1.Keys == t2.Keys
    && forall id | id in t1 ::
         t1[id].tenant == t2[id].tenant && (!IsForeign(t1[id].tenant, ambient) ==> t1[id] == t2[id])
  }

  ghost predicate Alike(s1: Store, s2: Store, ambient: string) {
    s1.arrival == s2.arrival && forall k: Kind :: LooksAlike(Of(s1.tables, k), Of(s2.tables, k), ambient)
  }

  lemma PutAlike(s1: Store, s2: Store, k: Kind, t1: Table, t2: Table, ambient: string)
    requires Alike(s1, s2, ambient) && LooksAlike(t1, t2, ambient)
    ensures Alike(Put(s1, k, t1), Put(s2, k, t2), ambient)
  {
    forall j: Kind
      ensures LooksAlike(Of(Put(s1, k, t1).tables, j), Of(Put(s2, k, t2).tables, j), ambient)
    {
      assert j != k ==> LooksAlike(Of(s1.tables, j), Of(s2.tables, j), ambient);
    }
  }

  lemma {:induction false} PutAllAlike(t1: Table, t2: Table, rows: seq<Row>, ambient: string)
    requires LooksAlike(t1, t2, ambient)
    ensures LooksAlike(PutAll(t1, rows), PutAll(t2, rows), ambient)
    decreases |rows|
  {
    if rows != [] {
      PutAllAlike(t1[rows[0].id := rows[0]], t2[rows[0].id := rows[0]], rows[1..], ambient);
    }
  }

  lemma {:induction false} ArriveAllAlike(t1: Table, t2: Table, order: seq<string>, rows: seq<Row>)
    requires t1.Keys == t2.Keys
    ensures ArriveAll(t1, order, rows) == ArriveAll(t2, order, rows)
    decreases |rows|
  {
    if rows != [] {
      var more := if rows[0].id in t1 then [] else [rows[0].id];
      ArriveAllAlike(t1[rows[0].id := rows[0]], t2[rows[0].id := rows[0]], order + more, rows[1..]);
    }
  }

  lemma UnownedAlike(t1: Table, t2: Table, order: seq<string>, ambient: string)
    requires LooksAlike(t1, t2, ambient)
    ensures LooksAlike(Unowned(t1, ambient), Unowned(t2, ambient), ambient)
    ensures StillIn(Unowned(t1, ambient), order) == StillIn(Unowned(t2, ambient), order)
  {
  }

  lemma {:induction false} RowsInAlike(t1: Table, t2: Table, order: seq<string>, ambient: string)
    requires LooksAlike(t1, t2, ambient)
    ensures AlikeRows(RowsIn(t1, order), RowsIn(t2, order), ambient)
  {
    if order != [] {
      RowsInAlike(t1, t2, order[1..], ambient);
    }
  }

  /** What one call shows its tenant: the result, and the lines it adds to the ledger. */
  function View(s: Store, ambient: string, op: Op): (Result, seq<Denial>) {
    var (s', r) := Apply(s.(ledger := []), ambient, op);
    (r, s'.ledger)
  }

  lemma ViewIsWhatTheCallAdds(s: Store, ambient: string, op: Op)
    ensures
      var ((s', r), view) := (Apply(s, ambient, op), View(s, ambient, op));
      r == view.0 && s'.ledger == s.ledger + view.1
  {
    match op
    case Save(k, row) => SaveView(s, ambient, k, row);
    case CreateTransaction(row, milestones) => CreateView(s, ambient, row, milestones);
    case ClearTransactions =>
    case _ =>
  }

  lemma SaveView(s: Store, ambient: string, k: Kind, row: Row)
    ensures
      var ((s', r), view) := (Apply(s, ambient, Save(k, row)), View(s, ambient, Save(k, row)));
      r == view.0 && s'.ledger == s.ledger + view.1
  {
  }

  lemma CreateView(s: Store, ambient: string, row: Row, milestones: seq<Row>)
    ensures
      var op := CreateTransaction(row, milestones);
      var ((s', r), view) := (Apply(s, ambient, op), View(s, ambient, op));
      r == view.0 && s'.ledger == s.ledger + view.1
  {
  }

  /** The same row found, or two of the same other tenant. */
  predicate SameHolder(t1: Table, t2: Table, f1: Option<string>, f2: Option<string>, ambient: string) {
    || f1 == f2
    || (f1.Some? && f2.Some? && ForeignAt(t1, f1.value, ambient) && ForeignAt(t2, f2.value, ambient)
        && t1[f1.value].tenant == t2[f2.value].tenant)
  }

  predicate SameLookup(s1: Store, s2: Store, ambient: string, providerId: string) {
    SameHolder(Of(s1.tables, Messages), Of(s2.tables, Messages), Found(s1, providerId), Found(s2, providerId), ambient)
  }

  /** One call, made against either store, shows the same and leaves the stores alike. */
  ghost predicate SameView(s1: Store, s2: Store, ambient: string, op: Op) {
    && View(s1, ambient, op) == View(s2, ambient, op)
    && Alike(Apply(s1, ambient, op).0, Apply(s2, ambient, op).0, ambient)
  }

  lemma ArrivalAlike(s1: Store, s2: Store, arrival: map<Kind, seq<string>>, ambient: string)
    requires Alike(s1, s2, ambient)
    ensures Alike(s1.(arrival := arrival), s2.(arrival := arrival), ambient)
  {
  }

  lemma SaveDoesNotLeak(s1: Store, s2: Store, ambient: string, k: Kind, row: Row)
    requires Alike(s1, s2, ambient)
    ensures SameView(s1, s2, ambient, Save(k, row))
  {
    WriteAlike(s1, s2, ambient, k, row, ToolName(Save(k, row)), !k.Documents?);
    WriteAlike(s1.(ledger := []), s2.(ledger := []), ambient, k, row, ToolName(Save(k, row)), !k.Documents?);
  }

  lemma WriteAlike(s1: Store, s2: Store, ambient: string, k: Kind, row: Row, tool: string, overwrite: bool)
    requires Alike(s1, s2, ambient)
    ensures
      var ((a, r1), (b, r2)) :=
        (WriteRow(s1, k, row, tool, ambient, overwrite), WriteRow(s2, k, row, tool, ambient, overwrite));
      Alike(a, b, ambient) && r1 == r2 && (s1.ledger == s2.ledger ==> a.ledger == b.ledger)
  {
    assert LooksAlike(Of(s1.tables, k), Of(s2.tables, k), ambient);
    if !IsForeign(row.tenant, ambient) && !ForeignAt(Of(s1.tables, k), row.id, ambient) {
      StoreAlike(s1, s2, ambient, k, row.(tenant := ambient));
    }
  }

  lemma StoreAlike(s1: Store, s2: Store, ambient: string, k: Kind, row: Row)
    requires Alike(s1, s2, ambient)
    ensures
      var (t1, t2) := (Of(s1.tables, k), Of(s2.tables, k));
      var arrival := s1.arrival[k := Arrivals(s1, k) + if row.id in t1 then [] else [row.id]];
      Alike(Put(s1, k, t1[row.id := row]).(arrival := arrival),
            Put(s2, k, t2[row.id := row]).(arrival := arrival), ambient)
  {
    var (t1, t2) := (Of(s1.tables, k)[row.id := row], Of(s2.tables, k)[row.id := row]);
    assert LooksAlike(Of(s1.tables, k), Of(s2.tables, k), ambient);
    PutAlike(s1, s2, k, t1, t2, ambient);
    ArrivalAlike(Put(s1, k, t1), Put(s2, k, t2),
                 s1.arrival[k := Arrivals(s1, k) + if row.id in Of(s1.tables, k) then [] else [row.id]], ambient);
  }

  lemma AdvanceDoesNotLeak(s1: Store, s2: Store, ambient: string, id: string, status: Msg.Status)
    requires Alike(s1, s2, ambient)
    ensures SameView(s1, s2, ambient, AdvanceStatus(id, status))
  {
    var (t1, t2) := (Of(s1.tables, Messages), Of(s2.tables, Messages));
    assert LooksAlike(t1, t2, ambient);
    if id in t1 && !ForeignAt(t1, id, ambient) {
      PutAlike(s1, s2, Messages, Advanced(t1, id, status), Advanced(t2, id, status), ambient);
    }
  }

  lemma CreateDoesNotLeak(s1: Store, s2: Store, ambient: string, row: Row, milestones: seq<Row>)
    requires Alike(s1, s2, ambient)
    ensures SameView(s1, s2, ambient, CreateTransaction(row, milestones))
  {
    var stamped := Stamped(milestones, ambient);
    assert LooksAlike(Of(s1.tables, Transactions), Of(s2.tables, Transactions), ambient);
    CreatedAlike(s1, s2, ambient, row.(tenant := ambient), stamped);
  }

  lemma CreatedAlike(s1: Store, s2: Store, ambient: string, row: Row, milestones: seq<Row>)
    requires Alike(s1, s2, ambient)
    ensures Alike(Created(s1, row, milestones), Created(s2, row, milestones), ambient)
  {
    var (t1, t2) := (Of(s1.tables, Transactions)[row.id := row], Of(s2.tables, Transactions)[row.id := row]);
    var (m1, m2) := (Of(s1.tables, Milestones), Of(s2.tables, Milestones));
    assert LooksAlike(Of(s1.tables, Transactions), Of(s2.tables, Transactions), ambient);
    assert LooksAlike(m1, m2, ambient);
    PutAlike(s1, s2, Transactions, t1, t2, ambient);
    PutAllAlike(m1, m2, milestones, ambient);
    ArriveAllAlike(m1, m2, Arrivals(s1, Milestones), milestones);
    PutAlike(Put(s1, Transactions, t1), Put(s2, Transactions, t2), Milestones,
             PutAll(m1, milestones), PutAll(m2, milestones), ambient);
    ArrivalAlike(Put(Put(s1, Transactions, t1), Milestones, PutAll(m1, milestones)),
                 Put(Put(s2, Transactions, t2), Milestones, PutAll(m2, milestones)),
                 Created(s1, row, milestones).arrival, ambient);
  }

  lemma EscalationDoesNotLeak(s1: Store, s2: Store, ambient: string, id: string, level: int)
    requires Alike(s1, s2, ambient)
    ensures SameView(s1, s2, ambient, SetEscalation(id, level))
  {
    var op := SetEscalation(id, level);
    var (t1, t2) := (Of(s1.tables, Milestones), Of(s2.tables, Milestones));
    assert LooksAlike(t1, t2, ambient);
    if id in t1 && !ForeignAt(t1, id, ambient) {
      PutAlike(s1, s2, Milestones, Of(Apply(s1, ambient, op).0.tables, Milestones),
               Of(Apply(s2, ambient, op).0.tables, Milestones), ambient);
    }
  }

  lemma ClearDoesNotLeak(s1: Store, s2: Store, ambient: string)
    requires Alike(s1, s2, ambient)
    ensures SameView(s1, s2, ambient, ClearTransactions)
  {
    var (t1, t2) := (Of(s1.tables, Transactions), Of(s2.tables, Transactions));
    var (m1, m2) := (Of(s1.tables, Milestones), Of(s2.tables, Milestones));
    assert LooksAlike(t1, t2, ambient) && LooksAlike(m1, m2, ambient);
    UnownedAlike(t1, t2, Arrivals(s1, Transactions), ambient);
    UnownedAlike(m1, m2, Arrivals(s1, Milestones), ambient);
    var (u1, u2) := (Put(s1, Transactions, Unowned(t1, ambient)), Put(s2, Transactions, Unowned(t2, ambient)));
    PutAlike(s1, s2, Transactions, Unowned(t1, ambient), Unowned(t2, ambient), ambient);
    PutAlike(u1, u2, Milestones, Unowned(m1, ambient), Unowned(m2, ambient), ambient);
    ArrivalAlike(Put(u1, Milestones, Unowned(m1, ambient)), Put(u2, Milestones, Unowned(m2, ambient)),
                 Cleared(s1, ambient).arrival, ambient);
  }

  /** A listing without a limit shows every own row it selects, in an order of their own. */
  lemma ListDoesNotLeak(s1: Store, s2: Store, ambient: string, k: Kind, parent: string)
    requires Alike(s1, s2, ambient)
    ensures SameView(s1, s2, ambient, List(k, parent))
  {
    var (r1, r2) := (RowsIn(Of(s1.tables, k), Arrivals(s1, k)), RowsIn(Of(s2.tables, k), Arrivals(s2, k)));
    assert LooksAlike(Of(s1.tables, k), Of(s2.tables, k), ambient);
    RowsInAlike(Of(s1.tables, k), Of(s2.tables, k), Arrivals(s1, k), ambient);
    OwnedSelectedAlike(r1, r2, parent, ambient);
    OwnedOnlySort(SelectRows(r1, parent), ambient);
    OwnedOnlySort(SelectRows(r2, parent), ambient);
  }

  /** The message rows in their order of arrival. */
  function MessageRows(s: Store): seq<Row> {
    RowsIn(Of(s.tables, Messages), Arrivals(s, Messages))
  }

  /** As many of the tenant's own rows are among the first `limit` matching ones. */
  predicate SameCut(s1: Store, s2: Store, ambient: string, q: Query, limit: int) {
    |Shown(MessageRows(s1), q, limit, ambient)| == |Shown(MessageRows(s2), q, limit, ambient)|
  }

  lemma MessageRowsAlike(s1: Store, s2: Store, ambient: string)
    requires Alike(s1, s2, ambient)
    ensures AlikeRows(MessageRows(s1), MessageRows(s2), ambient)
  {
    assert LooksAlike(Of(s1.tables, Messages), Of(s2.tables, Messages), ambient);
    RowsInAlike(Of(s1.tables, Messages), Of(s2.tables, Messages), Arrivals(s1, Messages), ambient);
  }

  /** Exactly when a message listing tells two such stores apart: what it shows agrees if and only
      if as many own rows are among the first `limit` matching ones. */
  lemma ListLeaksIff(s1: Store, s2: Store, ambient: string, q: Query, limit: int)
    requires Alike(s1, s2, ambient)
    ensures SameView(s1, s2, ambient, ListMessages(q, limit)) <==> SameCut(s1, s2, ambient, q, limit)
    ensures Alike(Apply(s1, ambient, ListMessages(q, limit)).0, Apply(s2, ambient, ListMessages(q, limit)).0, ambient)
  {
    MessageRowsAlike(s1, s2, ambient);
    ShownAlikeIff(MessageRows(s1), MessageRows(s2), q, limit, ambient);
    ListView(s1, ambient, q, limit);
    ListView(s2, ambient, q, limit);
  }

  lemma ListView(s: Store, ambient: string, q: Query, limit: int)
    ensures View(s, ambient, ListMessages(q, limit)) == (Many(Shown(MessageRows(s), q, limit, ambient)), [])
  {
  }

  lemma {:induction false} FirstHolderFinds(t: Table, arrival: seq<string>, providerId: string)
    ensures
      match FirstHolder(t, arrival, providerId)
      case Some(id) => id in arrival && HoldsProviderId(t, id, providerId)
      case None => forall id | id in arrival :: !HoldsProviderId(t, id, providerId)
  {
    if arrival != [] {
      FirstHolderFinds(t, arrival[1..], providerId);
      assert forall id :: id in arrival <==> id == arrival[0] || id in arrival[1..];
    }
  }

  /** The message rows sit under their own ids, and `arrival` lists exactly them, each once. */
  ghost predicate MessagesOk(s: Store) {
    var t := Of(s.tables, Messages);
    var order := Arrivals(s, Messages);
    && (forall id | id in t :: t[id].id == id) && (forall id :: id in t <==> id in order)
    && (forall i, j | 0 <= i < j < |order| :: order[i] != order[j])
  }

  lemma MessagesOkStep(s: Store, ambient: string, op: Op)
    requires MessagesOk(s)
    ensures MessagesOk(Apply(s, ambient, op).0)
  {
    if op.Save? && op.kind.Messages? {
      MessagesOkSave(s, ambient, op.row);
    } else if !op.AdvanceStatus? {
      OtherKindsOnly(s, ambient, op);
    }
  }

  /** A call on another kind leaves the message rows and their order alone. */
  lemma OtherKindsOnly(s: Store, ambient: string, op: Op)
    requires !op.AdvanceStatus? && !(op.Save? && op.kind.Messages?)
    ensures
      var s' := Apply(s, ambient, op).0;
      Of(s'.tables, Messages) == Of(s.tables, Messages) && Arrivals(s', Messages) == Arrivals(s, Messages)
  {
  }

  lemma MessagesOkSave(s: Store, ambient: string, row: Row)
    requires MessagesOk(s)
    ensures MessagesOk(Apply(s, ambient, Save(Messages, row)).0)
  {
  }

  /** The lookup is exact: it returns a row holding the id, and none only if there is none. */
  lemma FoundIsExact(s: Store, providerId: string)
    requires MessagesOk(s) && providerId != ""
    ensures
      var t := Of(s.tables, Messages);
      match Found(s, providerId)
      case Some(id) => HoldsProviderId(t, id, providerId)
      case None => forall id :: !HoldsProviderId(t, id, providerId)
  {
    FirstHolderFinds(Of(s.tables, Messages), Arrivals(s, Messages), providerId);
  }

  /** Exactly when a provider-id lookup tells two such stores apart: its result and its ledger
      line agree if and only if the two lookups pick the same row, or rows of the same other
      tenant. */
  lemma LookupLeaksIff(s1: Store, s2: Store, ambient: string, providerId: string)
    requires Alike(s1, s2, ambient) && MessagesOk(s1) && MessagesOk(s2)
    ensures SameView(s1, s2, ambient, GetByProviderId(providerId)) <==> SameLookup(s1, s2, ambient, providerId)
    ensures Alike(Apply(s1, ambient, GetByProviderId(providerId)).0, Apply(s2, ambient, GetByProviderId(providerId)).0,
                  ambient)
  {
    assert LooksAlike(Of(s1.tables, Messages), Of(s2.tables, Messages), ambient);
    if providerId != "" {
      FoundIsExact(s1, providerId);
      FoundIsExact(s2, providerId);
      LookupView(s1, ambient, providerId);
      LookupView(s2, ambient, providerId);
      var (v1, v2) := (View(s1, ambient, GetByProviderId(providerId)), View(s2, ambient, GetByProviderId(providerId)));
      if v1 == v2 && v1.1 != [] {
        assert v1.1[0] == v2.1[0];
      }
    }
  }

  /** The lookup's view: nothing, the row found, or one line naming the other tenant. */
  lemma LookupView(s: Store, ambient: string, providerId: string)
    requires MessagesOk(s) && providerId != ""
    ensures
      var (t, view) := (Of(s.tables, Messages), View(s, ambient, GetByProviderId(providerId)));
      match Found(s, providerId)
      case None => view == (One(None), [])
      case Some(id) =>
        id in t &&
        if IsForeign(t[id].tenant, ambient)
        then view == (One(None), [Denial("get_message_by_provider_id", t[id].tenant, ambient)])
        else view == (One(Some(t[id])), [])
  {
    FoundIsExact(s, providerId);
    assert Found(s.(ledger := []), providerId) == Found(s, providerId);
    if Found(s, providerId).Some? {
      var row := Of(s.tables, Messages)[Found(s, providerId).value];
      var line := Denial("get_message_by_provider_id", row.tenant, ambient);
      assert [] + [line] == [line];
    }
  }

  /** Every other call tells a tenant nothing about the contents of foreign rows: from stores that
      look alike to it, it gets the same result and the same ledger lines, and they still look
      alike afterwards. */
  lemma CallDoesNotLeak(s1: Store, s2: Store, ambient: string, op: Op)
    requires Alike(s1, s2, ambient) && !op.GetByProviderId? && !op.ListMessages?
    ensures SameView(s1, s2, ambient, op)
  {
    match op
    case Save(k, row) => SaveDoesNotLeak(s1, s2, ambient, k, row);
    case Get(k, id) => assert LooksAlike(Of(s1.tables, k), Of(s2.tables, k), ambient);
    case List(k, parent) => ListDoesNotLeak(s1, s2, ambient, k, parent);
    case AdvanceStatus(id, status) => AdvanceDoesNotLeak(s1, s2, ambient, id, status);
    case CreateTransaction(row, milestones) => CreateDoesNotLeak(s1, s2, ambient, row, milestones);
    case SetEscalation(id, level) => EscalationDoesNotLeak(s1, s2, ambient, id, level);
    case CountTransactions =>
      var (t1, t2) := (Of(s1.tables, Transactions), Of(s2.tables, Transactions));
      assert LooksAlike(t1, t2, ambient);
      assert (set id | id in t1 && t1[id].tenant in {ambient, ""})
             == (set id | id in t2 && t2[id].tenant in {ambient, ""});
    case ClearTransactions => ClearDoesNotLeak(s1, s2, ambient);
  }

  /** What a tenant sees of a whole run, call by call. */
  function Views(s: Store, ambient: string, ops: seq<Op>): seq<(Result, seq<Denial>)>
    decreases |ops|
  {
    if ops == [] then [] else [View(s, ambient, ops[0])] + Views(Apply(s, ambient, ops[0]).0, ambient, ops[1..])
  }

  /** What the two calls that may leak have to agree on. */
  predicate SameAnswer(s1: Store, s2: Store, ambient: string, op: Op) {
    match op
    case GetByProviderId(providerId) => SameLookup(s1, s2, ambient, providerId)
    case ListMessages(query, limit) => SameCut(s1, s2, ambient, query, limit)
    case _ => true
  }

  /** Every lookup of the run picks the same row, or rows of the same other tenant, and every
      listing cuts off as many own rows. */
  predicate SameAnswers(s1: Store, s2: Store, ambient: string, ops: seq<Op>)
    decreases |ops|
  {
    ops == [] ||
    (&& SameAnswer(s1, s2, ambient, ops[0])
     && SameAnswers(Apply(s1, ambient, ops[0]).0, Apply(s2, ambient, ops[0]).0, ambient, ops[1..]))
  }

  lemma CallLeaksIff(s1: Store, s2: Store, ambient: string, op: Op)
    requires Alike(s1, s2, ambient) && MessagesOk(s1) && MessagesOk(s2)
    ensures View(s1, ambient, op) == View(s2, ambient, op) <==> SameAnswer(s1, s2, ambient, op)
    ensures Alike(Apply(s1, ambient, op).0, Apply(s2, ambient, op).0, ambient)
    ensures MessagesOk(Apply(s1, ambient, op).0) && MessagesOk(Apply(s2, ambient, op).0)
  {
    match op {
      case GetByProviderId(providerId) => LookupLeaksIff(s1, s2, ambient, providerId);
      case ListMessages(query, limit) => ListLeaksIff(s1, s2, ambient, query, limit);
      case _ => CallDoesNotLeak(s1, s2, ambient, op);
    }
    MessagesOkStep(s1, ambient, op);
    MessagesOkStep(s2, ambient, op);
  }

  /** Non-leak over whole runs, exactly: all a tenant ever gets back, and every ledger line its
      calls cause, is the same for stores that differ only in the contents of other tenants'
      rows if and only if its provider-id lookups and its message listings agree. */
  lemma {:induction false} RunDoesNotLeak(s1: Store, s2: Store, ambient: string, ops: seq<Op>)
    requires Alike(s1, s2, ambient) && MessagesOk(s1) && MessagesOk(s2)
    ensures Views(s1, ambient, ops) == Views(s2, ambient, ops) <==> SameAnswers(s1, s2, ambient, ops)
    decreases |ops|
  {
    if ops != [] {
      var (op, rest) := (ops[0], ops[1..]);
      var (a, b) := (Apply(s1, ambient, op).0, Apply(s2, ambient, op).0);
      CallLeaksIff(s1, s2, ambient, op);
      RunDoesNotLeak(a, b, ambient, rest);
      var (v1, v2) := (Views(s1, ambient, ops), Views(s2, ambient, ops));
      assert v1[0] == View(s1, ambient, op) && v1[1..] == Views(a, ambient, rest);
      assert v2[0] == View(s2, ambient, op) && v2[1..] == Views(b, ambient, rest);
      assert v1 == [v1[0]] + v1[1..] && v2 == [v2[0]] + v2[1..];
    }
  }

  /** In this order of arrival, the next foreign row holding the id is one of that tenant, and
      none of `ambient`'s own rows comes before it. */
  predicate Follows(t: Table, arrival: seq<string>, providerId: string, ambient: string, tenant: string) {
    && arrival != [] && ForeignAt(t, arrival[0], ambient)
    && if HoldsProviderId(t, arrival[0], providerId) then t[arrival[0]].tenant == tenant
       else Follows(t, arrival[1..], providerId, ambient, tenant)
  }

  /** The first foreign rows holding the id are the same one, or of one tenant with none of
      `ambient`'s own rows between them. */
  predicate Aligned(t1: Table, t2: Table, arrival: seq<string>, providerId: string, ambient: string)
    requires LooksAlike(t1, t2, ambient)
  {
    arrival == [] ||
    var (id, rest) := (arrival[0], arrival[1..]);
    var (h1, h2) := (HoldsProviderId(t1, id, providerId), HoldsProviderId(t2, id, providerId));
    if !ForeignAt(t1, id, ambient) || (!h1 && !h2) then Aligned(t1, t2, rest, providerId, ambient)
    else if h1 && h2 then true
    else Follows(if h1 then t2 else t1, rest, providerId, ambient, t1[id].tenant)
  }

  predicate StoresAligned(s1: Store, s2: Store, ambient: string, providerId: string)
    requires LooksAlike(Of(s1.tables, Messages), Of(s2.tables, Messages), ambient)
  {
    Aligned(Of(s1.tables, Messages), Of(s2.tables, Messages), Arrivals(s1, Messages), providerId, ambient)
  }

  lemma {:induction false} FollowsIsFound(t: Table, arrival: seq<string>, providerId: string, ambient: string,
                                          tenant: string)
    requires Follows(t, arrival, providerId, ambient, tenant)
    ensures
      var found := FirstHolder(t, arrival, providerId);
      found.Some? && ForeignAt(t, found.value, ambient) && t[found.value].tenant == tenant
  {
    if !HoldsProviderId(t, arrival[0], providerId) {
      FollowsIsFound(t, arrival[1..], providerId, ambient, tenant);
    }
  }

  lemma {:induction false} AlignedLookups(t1: Table, t2: Table, arrival: seq<string>, providerId: string,
                                          ambient: string)
    requires LooksAlike(t1, t2, ambient) && Aligned(t1, t2, arrival, providerId, ambient)
    ensures
      SameHolder(t1, t2, FirstHolder(t1, arrival, providerId), FirstHolder(t2, arrival, providerId), ambient)
  {
    if arrival != [] {
      var (id, rest) := (arrival[0], arrival[1..]);
      var (h1, h2) := (HoldsProviderId(t1, id, providerId), HoldsProviderId(t2, id, providerId));
      assert id in t1 && !ForeignAt(t1, id, ambient) ==> t1[id] == t2[id];
      if !ForeignAt(t1, id, ambient) || (!h1 && !h2) {
        AlignedLookups(t1, t2, rest, providerId, ambient);
      } else if h1 != h2 {
        FollowsIsFound(if h1 then t2 else t1, rest, providerId, ambient, t1[id].tenant);
      }
    }
  }

  /** A call leaves the message rows of other tenants as they are, with no condition, and adds to
      the order of arrival at most one row, of the caller's own. */
  lemma MessagesKeepForeign(s: Store, ambient: string, op: Op)
    ensures
      var s' := Apply(s, ambient, op).0;
      && ForeignPart(Of(s'.tables, Messages), ambient) == ForeignPart(Of(s.tables, Messages), ambient)
      && (Arrivals(s', Messages) == Arrivals(s, Messages)
          || (op.Save? && Arrivals(s', Messages) == Arrivals(s, Messages) + [op.row.id]
              && !ForeignAt(Of(s'.tables, Messages), op.row.id, ambient)))
  {
    if op.Save? && op.kind.Messages? {
      SaveKeepsForeign(s, ambient, Messages, op.row);
    } else if op.AdvanceStatus? {
      AdvanceKeepsForeign(s, ambient, op.id, op.status);
    } else {
      OtherKindsOnly(s, ambient, op);
    }
  }

  lemma AdvanceKeepsForeign(s: Store, ambient: string, id: string, status: Msg.Status)
    ensures
      var s' := Apply(s, ambient, AdvanceStatus(id, status)).0;
      && ForeignPart(Of(s'.tables, Messages), ambient) == ForeignPart(Of(s.tables, Messages), ambient)
      && Arrivals(s', Messages) == Arrivals(s, Messages)
  {
  }

  lemma {:induction false} FollowsFrame(t: Table, t': Table, arrival: seq<string>, more: seq<string>,
                                        providerId: string, ambient: string, tenant: string)
    requires ForeignPart(t, ambient) == ForeignPart(t', ambient) && Follows(t, arrival, providerId, ambient, tenant)
    ensures Follows(t', arrival + more, providerId, ambient, tenant)
    decreases |arrival|
  {
    var id := arrival[0];
    assert (arrival + more)[1..] == arrival[1..] + more;
    assert id in ForeignPart(t, ambient) && id in ForeignPart(t', ambient) && t[id] == t'[id];
    if !HoldsProviderId(t, id, providerId) {
      FollowsFrame(t, t', arrival[1..], more, providerId, ambient, tenant);
    }
  }

  lemma {:induction false} AlignedFrame(t1: Table, t2: Table, u1: Table, u2: Table, arrival: seq<string>,
                                        more: seq<string>, providerId: string, ambient: string)
    requires LooksAlike(t1, t2, ambient) && LooksAlike(u1, u2, ambient)
    requires ForeignPart(t1, ambient) == ForeignPart(u1, ambient)
    requires ForeignPart(t2, ambient) == ForeignPart(u2, ambient)
    requires Aligned(t1, t2, arrival, providerId, ambient) && forall id | id in more :: !ForeignAt(u1, id, ambient)
    ensures Aligned(u1, u2, arrival + more, providerId, ambient)
    decreases |arrival| + |more|
  {
    if arrival == [] {
      assert arrival + more == more;
      if more != [] {
        AlignedFrame(t1, t2, u1, u2, [], more[1..], providerId, ambient);
        assert [] + more[1..] == more[1..];
      }
    } else {
      var (id, rest) := (arrival[0], arrival[1..]);
      var (h1, h2) := (HoldsProviderId(t1, id, providerId), HoldsProviderId(t2, id, providerId));
      assert (arrival + more)[1..] == rest + more;
      assert id in ForeignPart(t1, ambient) <==> id in ForeignPart(u1, ambient);
      if !ForeignAt(t1, id, ambient) {
        AlignedFrame(t1, t2, u1, u2, rest, more, providerId, ambient);
      } else {
        assert ForeignPart(t1, ambient)[id] == ForeignPart(u1, ambient)[id];
        assert id in ForeignPart(t2, ambient) && ForeignPart(t2, ambient)[id] == ForeignPart(u2, ambient)[id];
        if !h1 && !h2 {
          AlignedFrame(t1, t2, u1, u2, rest, more, providerId, ambient);
        } else if h1 && !h2 {
          FollowsFrame(t2, u2, rest, more, providerId, ambient, t1[id].tenant);
        } else if h2 && !h1 {
          FollowsFrame(t1, u1, rest, more, providerId, ambient, t1[id].tenant);
        }
      }
    }
  }

  lemma AlignedStep(s1: Store, s2: Store, ambient: string, op: Op, providerId: string)
    requires Alike(s1, s2, ambient) && Alike(Apply(s1, ambient, op).0, Apply(s2, ambient, op).0, ambient)
    requires LooksAlike(Of(s1.tables, Messages), Of(s2.tables, Messages), ambient)
    requires StoresAligned(s1, s2, ambient, providerId)
    ensures
      var (a, b) := (Apply(s1, ambient, op).0, Apply(s2, ambient, op).0);
      && LooksAlike(Of(a.tables, Messages), Of(b.tables, Messages), ambient)
      && StoresAligned(a, b, ambient, providerId)
  {
    var (a, b) := (Apply(s1, ambient, op).0, Apply(s2, ambient, op).0);
    MessagesKeepForeign(s1, ambient, op);
    MessagesKeepForeign(s2, ambient, op);
    assert LooksAlike(Of(a.tables, Messages), Of(b.tables, Messages), ambient);
    var (order, order') := (Arrivals(s1, Messages), Arrivals(a, Messages));
    var more := if order' == order then [] else [op.row.id];
    AlignedFrame(Of(s1.tables, Messages), Of(s2.tables, Messages), Of(a.tables, Messages), Of(b.tables, Messages),
                 order, more, providerId, ambient);
    assert order' == order + more;
  }

  /** The two stores are aligned on every provider id. */
  ghost predicate AllAligned(s1: Store, s2: Store, ambient: string)
    requires LooksAlike(Of(s1.tables, Messages), Of(s2.tables, Messages), ambient)
  {
    forall providerId | providerId != "" :: StoresAligned(s1, s2, ambient, providerId)
  }

  lemma AlignedLookup(s1: Store, s2: Store, ambient: string, providerId: string)
    requires Alike(s1, s2, ambient) && LooksAlike(Of(s1.tables, Messages), Of(s2.tables, Messages), ambient)
    requires AllAligned(s1, s2, ambient)
    ensures SameLookup(s1, s2, ambient, providerId)
  {
    if providerId != "" {
      assert StoresAligned(s1, s2, ambient, providerId);
      AlignedLookups(Of(s1.tables, Messages), Of(s2.tables, Messages), Arrivals(s1, Messages), providerId, ambient);
    }
  }

  /** The message rows of a consistent store: one per arrival, none twice. */
  lemma MessageRowsAre(s: Store)
    requires MessagesOk(s)
    ensures
      var (rows, order) := (MessageRows(s), Arrivals(s, Messages));
      && |rows| == |order| && NoRepeat(rows)
      && forall i | 0 <= i < |order| :: rows[i] == Of(s.tables, Messages)[order[i]] && rows[i].id == order[i]
  {
    RowsInAll(Of(s.tables, Messages), Arrivals(s, Messages));
  }

  lemma {:induction false} RowsInAll(t: Table, order: seq<string>)
    requires forall i | 0 <= i < |order| :: order[i] in t
    ensures |RowsIn(t, order)| == |order| && forall i | 0 <= i < |order| :: RowsIn(t, order)[i] == t[order[i]]
  {
    if order != [] {
      RowsInAll(t, order[1..]);
    }
  }

  /** What a listing of either store may show depends on the numbers of other tenants' rows only. */
  ghost predicate StoresBalanced(s1: Store, s2: Store, ambient: string) {
    |MessageRows(s1)| == |MessageRows(s2)| && Balanced(MessageRows(s1), MessageRows(s2), ambient)
  }

  lemma MessageRowsKeepForeign(s: Store, ambient: string, op: Op)
    requires MessagesOk(s)
    ensures KeepsForeign(MessageRows(s), MessageRows(Apply(s, ambient, op).0), ambient)
  {
    var s' := Apply(s, ambient, op).0;
    var (t, t', order, order') :=
      (Of(s.tables, Messages), Of(s'.tables, Messages), Arrivals(s, Messages), Arrivals(s', Messages));
    MessagesOkStep(s, ambient, op);
    MessagesKeepForeign(s, ambient, op);
    MessageRowsAre(s);
    MessageRowsAre(s');
    forall i | 0 <= i < |order|
      ensures order'[i] == order[i]
      ensures t[order[i]] == t'[order[i]]
              || !(IsForeign(t[order[i]].tenant, ambient) || IsForeign(t'[order[i]].tenant, ambient))
    {
      assert order[i] in ForeignPart(t, ambient) <==> order[i] in ForeignPart(t', ambient);
      assert order[i] in ForeignPart(t, ambient) ==>
               ForeignPart(t, ambient)[order[i]] == ForeignPart(t', ambient)[order[i]];
    }
  }

  /** Neither call that may leak does, in this store or after any further calls. */
  ghost predicate Secret(s1: Store, s2: Store, ambient: string) {
    && LooksAlike(Of(s1.tables, Messages), Of(s2.tables, Messages), ambient)
    && AllAligned(s1, s2, ambient) && StoresBalanced(s1, s2, ambient)
  }

  lemma SecretAnswer(s1: Store, s2: Store, ambient: string, op: Op)
    requires Alike(s1, s2, ambient) && MessagesOk(s1) && MessagesOk(s2) && Secret(s1, s2, ambient)
    ensures SameAnswer(s1, s2, ambient, op)
  {
    if op.GetByProviderId? {
      AlignedLookup(s1, s2, ambient, op.providerId);
    } else if op.ListMessages? {
      MessageRowsAlike(s1, s2, ambient);
      MessageRowsAre(s1);
      MessageRowsAre(s2);
      BalancedShows(MessageRows(s1), MessageRows(s2), op.query, op.limit, ambient);
    }
  }

  lemma SecretStep(s1: Store, s2: Store, ambient: string, op: Op)
    requires Alike(s1, s2, ambient) && MessagesOk(s1) && MessagesOk(s2) && Secret(s1, s2, ambient)
    requires Alike(Apply(s1, ambient, op).0, Apply(s2, ambient, op).0, ambient)
    ensures Secret(Apply(s1, ambient, op).0, Apply(s2, ambient, op).0, ambient)
  {
    var (a, b) := (Apply(s1, ambient, op).0, Apply(s2, ambient, op).0);
    assert LooksAlike(Of(a.tables, Messages), Of(b.tables, Messages), ambient);
    forall providerId | providerId != ""
      ensures StoresAligned(a, b, ambient, providerId)
    {
      AlignedStep(s1, s2, ambient, op, providerId);
    }
    MessageRowsAlike(a, b, ambient);
    MessageRowsKeepForeign(s1, ambient, op);
    MessageRowsKeepForeign(s2, ambient, op);
    BalancedKept(MessageRows(s1), MessageRows(s2), MessageRows(a), MessageRows(b), ambient);
  }

  lemma {:induction false} SecretRun(s1: Store, s2: Store, ambient: string, ops: seq<Op>)
    requires Alike(s1, s2, ambient) && MessagesOk(s1) && MessagesOk(s2) && Secret(s1, s2, ambient)
    ensures SameAnswers(s1, s2, ambient, ops)
    decreases |ops|
  {
    if ops != [] {
      SecretAnswer(s1, s2, ambient, ops[0]);
      CallLeaksIff(s1, s2, ambient, ops[0]);
      SecretStep(s1, s2, ambient, ops[0]);
      SecretRun(Apply(s1, ambient, ops[0]).0, Apply(s2, ambient, ops[0]).0, ambient, ops[1..]);
    }
  }

  /** Where two misaligned orders part: a foreign row only one side holds the id in, with nothing
      held before it by another tenant, and not followed by one of the same tenant. */
  predicate PartsAt(t1: Table, t2: Table, arrival: seq<string>, k: nat, providerId: string, ambient: string) {
    && k < |arrival| && ForeignAt(t1, arrival[k], ambient)
    && (forall i | 0 <= i < k && ForeignAt(t1, arrival[i], ambient) ::
          !HoldsProviderId(t1, arrival[i], providerId) && !HoldsProviderId(t2, arrival[i], providerId))
    && HoldsProviderId(t1, arrival[k], providerId) && !HoldsProviderId(t2, arrival[k], providerId)
    && !Follows(t2, arrival[k + 1..], providerId, ambient, t1[arrival[k]].tenant)
  }

  lemma {:induction false} Divergence(t1: Table, t2: Table, arrival: seq<string>, providerId: string, ambient: string)
    returns (k: nat)
    requires LooksAlike(t1, t2, ambient) && !Aligned(t1, t2, arrival, providerId, ambient)
    ensures PartsAt(t1, t2, arrival, k, providerId, ambient) || PartsAt(t2, t1, arrival, k, providerId, ambient)
  {
    var (id, rest) := (arrival[0], arrival[1..]);
    var (h1, h2) := (HoldsProviderId(t1, id, providerId), HoldsProviderId(t2, id, providerId));
    if !ForeignAt(t1, id, ambient) || (!h1 && !h2) {
      var j := Divergence(t1, t2, rest, providerId, ambient);
      k := j + 1;
      assert arrival[k + 1..] == rest[j + 1..];
      assert forall i | 0 < i < k :: arrival[i] == rest[i - 1];
    } else {
      k := 0;
    }
  }

  function RunStore(s: Store, ambient: string, ops: seq<Op>): Store {
    RunCalls(s, ambient, ops).0
  }

  lemma RunStoreOne(s: Store, ambient: string, op: Op)
    ensures RunStore(s, ambient, [op]) == Apply(s, ambient, op).0
  {
    var s' := Apply(s, ambient, op).0;
    assert RunCalls(s', ambient, []) == (s', []);
    assert [op][0] == op && [op][1..] == [];
  }

  lemma {:induction false} RunStoreAppend(s: Store, ambient: string, a: seq<Op>, b: seq<Op>)
    ensures RunStore(s, ambient, a + b) == RunStore(RunStore(s, ambient, a), ambient, b)
    decreases |a|
  {
    if a == [] {
      assert a + b == b;
    } else {
      assert (a + b)[1..] == a[1..] + b;
      RunStoreAppend(Apply(s, ambient, a[0]).0, ambient, a[1..], b);
    }
  }

  lemma {:induction false} LastAnswer(s1: Store, s2: Store, ambient: string, ops: seq<Op>, op: Op)
    requires SameAnswers(s1, s2, ambient, ops + [op])
    ensures SameAnswer(RunStore(s1, ambient, ops), RunStore(s2, ambient, ops), ambient, op)
    decreases |ops|
  {
    var all := ops + [op];
    if ops == [] {
      assert all[0] == op;
    } else {
      assert all[0] == ops[0] && all[1..] == ops[1..] + [op];
      LastAnswer(Apply(s1, ambient, ops[0]).0, Apply(s2, ambient, ops[0]).0, ambient, ops[1..], op);
    }
  }

  /** A sent message holding a provider id. */
  function Holding(providerId: string): Body {
    MessageBody(providerId, Msg.Sent, "", "", 0, "")
  }

  /** A tenant may save over its own rows: here, each of `ids` that is not foreign. */
  function Rewrites(foreign: set<string>, ids: seq<string>, providerId: string): seq<Op> {
    if ids == [] then []
    else
      (if ids[0] in foreign then [] else [Save(Messages, Row(ids[0], "", Holding(providerId)))])
      + Rewrites(foreign, ids[1..], providerId)
  }

  function Rewritten(t: Table, ids: seq<string>, providerId: string, ambient: string): Table {
    map id | id in t :: if id in ids && !IsForeign(t[id].tenant, ambient)
                        then Row(id, ambient, Holding(providerId)) else t[id]
  }

  ghost function ForeignIds(s: Store, ambient: string): set<string> {
    set id | id in Of(s.tables, Messages) && ForeignAt(Of(s.tables, Messages), id, ambient)
  }

  lemma {:induction false} RewritesRun(s: Store, ambient: string, ids: seq<string>, providerId: string)
    requires forall id | id in ids :: id in Of(s.tables, Messages)
    ensures
      var s' := RunStore(s, ambient, Rewrites(ForeignIds(s, ambient), ids, providerId));
      && Arrivals(s', Messages) == Arrivals(s, Messages)
      && Of(s'.tables, Messages) == Rewritten(Of(s.tables, Messages), ids, providerId, ambient)
    decreases |ids|
  {
    var (t, foreign) := (Of(s.tables, Messages), ForeignIds(s, ambient));
    if ids == [] {
      assert Rewritten(t, ids, providerId, ambient) == t;
    } else {
      var (id, rest) := (ids[0], ids[1..]);
      RewrittenCons(t, id, rest, providerId, ambient);
      assert ids == [id] + rest;
      if id in foreign {
        assert Rewrites(foreign, ids, providerId) == Rewrites(foreign, rest, providerId);
        RewritesRun(s, ambient, rest, providerId);
      } else {
        var save := Save(Messages, Row(id, "", Holding(providerId)));
        var s1 := Apply(s, ambient, save).0;
        OwnSave(s, ambient, id, providerId);
        RewritesRun(s1, ambient, rest, providerId);
        RunStoreAppend(s, ambient, [save], Rewrites(foreign, rest, providerId));
        RunStoreOne(s, ambient, save);
      }
    }
  }

  /** Saving over an own row. */
  lemma OwnSave(s: Store, ambient: string, id: string, providerId: string)
    requires id in Of(s.tables, Messages) && id !in ForeignIds(s, ambient)
    ensures
      var s1 := Apply(s, ambient, Save(Messages, Row(id, "", Holding(providerId)))).0;
      && Arrivals(s1, Messages) == Arrivals(s, Messages) && ForeignIds(s1, ambient) == ForeignIds(s, ambient)
      && Of(s1.tables, Messages)
         == Of(s.tables, Messages)[id := Row(id, ambient, Holding(providerId))]
  {
  }

  lemma RewrittenCons(t: Table, id: string, rest: seq<string>, providerId: string, ambient: string)
    requires id in t
    ensures
      var row := Row(id, ambient, Holding(providerId));
      Rewritten(t, [id] + rest, providerId, ambient)
      == Rewritten(if ForeignAt(t, id, ambient) then t else t[id := row], rest, providerId, ambient)
  {
  }

  lemma {:induction false} FirstHolderFrom(t: Table, arrival: seq<string>, k: nat, providerId: string)
    requires k <= |arrival| && forall i | 0 <= i < k :: !HoldsProviderId(t, arrival[i], providerId)
    ensures FirstHolder(t, arrival, providerId) == FirstHolder(t, arrival[k..], providerId)
    decreases k
  {
    if k == 0 {
      assert arrival[0..] == arrival;
    } else {
      FirstHolderFrom(t, arrival[1..], k - 1, providerId);
      assert arrival[1..][k - 1..] == arrival[k..];
    }
  }

  /** Once the tenant's own rows hold the id too, what is found is not a row of that tenant. */
  lemma {:induction false} NotFollowedIsNotFound(t: Table, u: Table, post: seq<string>, providerId: string,
                                                 ambient: string, tenant: string)
    requires !Follows(t, post, providerId, ambient, tenant)
    requires forall id | id in post ::
               if ForeignAt(t, id, ambient) then id in u && u[id] == t[id]
               else HoldsProviderId(u, id, providerId) && !ForeignAt(u, id, ambient)
    ensures
      var found := FirstHolder(u, post, providerId);
      found.Some? && ForeignAt(u, found.value, ambient) ==> u[found.value].tenant != tenant
  {
    if post != [] && ForeignAt(t, post[0], ambient) && !HoldsProviderId(t, post[0], providerId) {
      NotFollowedIsNotFound(t, u, post[1..], providerId, ambient, tenant);
    }
  }

  /** The run that tells them apart: blank the tenant's own rows before the parting, give the id
      to those after it, and look it up. */
  ghost function TellingRun(s: Store, ambient: string, k: nat, providerId: string): seq<Op>
    requires k < |Arrivals(s, Messages)|
  {
    var foreign := ForeignIds(s, ambient);
    Rewrites(foreign, Arrivals(s, Messages)[..k], "") + Rewrites(foreign, Arrivals(s, Messages)[k + 1..], providerId)
  }

  /** The message table after it. */
  function Told(t: Table, arrival: seq<string>, k: nat, providerId: string, ambient: string): Table
    requires k < |arrival|
  {
    Rewritten(Rewritten(t, arrival[..k], "", ambient), arrival[k + 1..], providerId, ambient)
  }

  lemma TellingRunRuns(s: Store, ambient: string, k: nat, providerId: string)
    requires MessagesOk(s) && k < |Arrivals(s, Messages)|
    ensures
      var s' := RunStore(s, ambient, TellingRun(s, ambient, k, providerId));
      && Arrivals(s', Messages) == Arrivals(s, Messages)
      && Of(s'.tables, Messages) == Told(Of(s.tables, Messages), Arrivals(s, Messages), k, providerId, ambient)
  {
    var (foreign, pre, post) := (ForeignIds(s, ambient), Arrivals(s, Messages)[..k], Arrivals(s, Messages)[k + 1..]);
    var s1 := RunStore(s, ambient, Rewrites(foreign, pre, ""));
    RewritesRun(s, ambient, pre, "");
    assert ForeignIds(s1, ambient) == foreign;
    RewritesRun(s1, ambient, post, providerId);
    RunStoreAppend(s, ambient, Rewrites(foreign, pre, ""), Rewrites(foreign, post, providerId));
  }

  /** Row by row: foreign rows as they were, own rows without the id before the parting and with
      it after. */
  lemma ToldRows(t: Table, arrival: seq<string>, k: nat, providerId: string, ambient: string)
    requires k < |arrival| && providerId != "" && (forall id :: id in t <==> id in arrival)
    requires forall i, j | 0 <= i < j < |arrival| :: arrival[i] != arrival[j]
    ensures
      var u := Told(t, arrival, k, providerId, ambient);
      && (forall id | ForeignAt(t, id, ambient) :: id in u && u[id] == t[id])
      && (forall i | 0 <= i < k && !ForeignAt(t, arrival[i], ambient) :: !HoldsProviderId(u, arrival[i], providerId))
      && (forall id | id in arrival[k + 1..] && !ForeignAt(t, id, ambient) ::
            HoldsProviderId(u, id, providerId) && !ForeignAt(u, id, ambient))
  {
  }

  /** Where the lookup ends on one side, from the parting on. */
  lemma FoundFromParting(t: Table, arrival: seq<string>, k: nat, providerId: string, ambient: string)
    requires k < |arrival| && providerId != "" && (forall id :: id in t <==> id in arrival)
    requires forall i, j | 0 <= i < j < |arrival| :: arrival[i] != arrival[j]
    requires ForeignAt(t, arrival[k], ambient)
    requires forall i | 0 <= i < k && ForeignAt(t, arrival[i], ambient) :: !HoldsProviderId(t, arrival[i], providerId)
    ensures
      var u := Told(t, arrival, k, providerId, ambient);
      FirstHolder(u, arrival, providerId) ==
      if HoldsProviderId(t, arrival[k], providerId) then Some(arrival[k])
      else FirstHolder(u, arrival[k + 1..], providerId)
  {
    var u := Told(t, arrival, k, providerId, ambient);
    ToldRows(t, arrival, k, providerId, ambient);
    FirstHolderFrom(u, arrival, k, providerId);
    FirstOf(u, arrival[k..], providerId);
    assert arrival[k..][1..] == arrival[k + 1..];
  }

  lemma FirstOf(t: Table, arrival: seq<string>, providerId: string)
    requires arrival != []
    ensures FirstHolder(t, arrival, providerId) ==
            if HoldsProviderId(t, arrival[0], providerId) then Some(arrival[0])
            else FirstHolder(t, arrival[1..], providerId)
  {
  }

  /** What that run's lookup finds on either side. */
  lemma TellingLookup(t1: Table, t2: Table, arrival: seq<string>, k: nat, providerId: string, ambient: string)
    requires LooksAlike(t1, t2, ambient) && PartsAt(t1, t2, arrival, k, providerId, ambient) && providerId != ""
    requires forall id :: id in t1 <==> id in arrival
    requires forall i, j | 0 <= i < j < |arrival| :: arrival[i] != arrival[j]
    ensures
      var (u1, u2) := (Told(t1, arrival, k, providerId, ambient), Told(t2, arrival, k, providerId, ambient));
      !SameHolder(u1, u2, FirstHolder(u1, arrival, providerId), FirstHolder(u2, arrival, providerId), ambient)
  {
    var u2 := Told(t2, arrival, k, providerId, ambient);
    var (id, post) := (arrival[k], arrival[k + 1..]);
    FoundFromParting(t1, arrival, k, providerId, ambient);
    FoundFromParting(t2, arrival, k, providerId, ambient);
    ToldRows(t1, arrival, k, providerId, ambient);
    ToldRows(t2, arrival, k, providerId, ambient);
    NotFollowedIsNotFound(t2, u2, post, providerId, ambient, t1[id].tenant);
    FirstHolderFinds(u2, post, providerId);
  }

  lemma AlikeSymmetric(s1: Store, s2: Store, ambient: string)
    requires Alike(s1, s2, ambient)
    ensures Alike(s2, s1, ambient)
  {
  }

  lemma PartingLeaks(s1: Store, s2: Store, ambient: string, k: nat, providerId: string) returns (ops: seq<Op>)
    requires Alike(s1, s2, ambient) && MessagesOk(s1) && MessagesOk(s2) && providerId != ""
    requires PartsAt(Of(s1.tables, Messages), Of(s2.tables, Messages), Arrivals(s1, Messages), k, providerId, ambient)
    ensures Views(s1, ambient, ops) != Views(s2, ambient, ops)
  {
    var (t1, t2) := (Of(s1.tables, Messages), Of(s2.tables, Messages));
    assert LooksAlike(t1, t2, ambient);
    assert ForeignIds(s1, ambient) == ForeignIds(s2, ambient);
    var telling := TellingRun(s1, ambient, k, providerId);
    ops := telling + [GetByProviderId(providerId)];
    TellingRunRuns(s1, ambient, k, providerId);
    TellingRunRuns(s2, ambient, k, providerId);
    TellingLookup(t1, t2, Arrivals(s1, Messages), k, providerId, ambient);
    if SameAnswers(s1, s2, ambient, ops) {
      LastAnswer(s1, s2, ambient, telling, GetByProviderId(providerId));
    }
    RunDoesNotLeak(s1, s2, ambient, ops);
  }

  function Wanted(o: Option<string>): string {
    if o.Some? then o.value else ""
  }

  /** A row of the tenant's own that a query asks for, created at `t`. */
  function Marker(id: string, q: Query, t: nat): Row {
    Row(id, "", MessageBody("", Msg.Sent, Wanted(q.contact), Wanted(q.transaction), t, ""))
  }

  /** Where a tenant may place a message: over one of its own, or at the end. */
  predicate Placeable(s: Store, ambient: string, k: nat, id: string) {
    var (t, order) := (Of(s.tables, Messages), Arrivals(s, Messages));
    k <= |order| && if k < |order| then id == order[k] && !ForeignAt(t, id, ambient) else id !in t
  }

  lemma MarkerPlaced(s: Store, ambient: string, k: nat, id: string, q: Query, t: nat)
    requires MessagesOk(s) && Placeable(s, ambient, k, id)
    ensures
      var (rows, s') := (MessageRows(s), Apply(s, ambient, Save(Messages, Marker(id, q, t))).0);
      && k <= |rows| && k < |MessageRows(s')| && MessageRows(s')[k] == Marker(id, q, t).(tenant := ambient)
  {
    var op := Save(Messages, Marker(id, q, t));
    MessageRowsAre(s);
    MessagesOkStep(s, ambient, op);
    MessageRowsAre(Apply(s, ambient, op).0);
  }

  lemma MarkerSaved(s: Store, ambient: string, k: nat, id: string, q: Query, t: nat)
    requires MessagesOk(s) && Placeable(s, ambient, k, id)
    ensures
      var (rows, rows') := (MessageRows(s), MessageRows(Apply(s, ambient, Save(Messages, Marker(id, q, t))).0));
      && KeepsForeign(rows, rows', ambient) && k <= |rows| && KeepsForeign(rows[..k], rows'[..k], ambient)
      && k < |rows'| && rows'[k] == Marker(id, q, t).(tenant := ambient)
  {
    var op := Save(Messages, Marker(id, q, t));
    MarkerPlaced(s, ambient, k, id, q, t);
    MessageRowsKeepForeign(s, ambient, op);
    KeepsForeignPrefix(MessageRows(s), MessageRows(Apply(s, ambient, op).0), k, ambient);
    assert k == |MessageRows(s)| ==> MessageRows(s)[..k] == MessageRows(s);
  }

  /** How many other tenants' rows a marker created at `t` finds ahead of it at place `k`. */
  function AheadOf(rows: seq<Row>, k: nat, q: Query, t: nat, ambient: string): nat
    requires k <= |rows|
  {
    ForeignCount(rows, q, Since(t + 1), ambient) + ForeignCount(rows[..k], q, At(t), ambient)
  }

  lemma MarkerAhead(rows: seq<Row>, rows': seq<Row>, k: nat, q: Query, t: nat, ambient: string)
    requires k <= |rows| && k < |rows'| && rows'[k].body.MessageBody? && rows'[k].body.created == t
    requires KeepsForeign(rows, rows', ambient) && KeepsForeign(rows[..k], rows'[..k], ambient)
    ensures ForeignAhead(rows', q, k, ambient) == AheadOf(rows, k, q, t, ambient)
  {
    ForeignCountKept(rows, rows', q, Since(t + 1), ambient);
    ForeignCountKept(rows[..k], rows'[..k], q, At(t), ambient);
  }

  /** With a marker placed where different numbers of other tenants' rows are ahead of it, a listing
      with the right limit tells the stores apart. */
  lemma MarkerLeaks(s1: Store, s2: Store, ambient: string, k: nat, id: string, q: Query, t: nat) returns (ops: seq<Op>)
    requires Alike(s1, s2, ambient) && MessagesOk(s1) && MessagesOk(s2) && Placeable(s1, ambient, k, id)
    requires k <= |MessageRows(s1)| == |MessageRows(s2)|
    requires AheadOf(MessageRows(s1), k, q, t, ambient) != AheadOf(MessageRows(s2), k, q, t, ambient)
    ensures Views(s1, ambient, ops) != Views(s2, ambient, ops)
  {
    var save := Save(Messages, Marker(id, q, t));
    var (s1', s2') := (Apply(s1, ambient, save).0, Apply(s2, ambient, save).0);
    assert LooksAlike(Of(s1.tables, Messages), Of(s2.tables, Messages), ambient);
    MarkerSaved(s1, ambient, k, id, q, t);
    MarkerSaved(s2, ambient, k, id, q, t);
    MarkerAhead(MessageRows(s1), MessageRows(s1'), k, q, t, ambient);
    MarkerAhead(MessageRows(s2), MessageRows(s2'), k, q, t, ambient);
    CallLeaksIff(s1, s2, ambient, save);
    var limit := ListingLeaks(s1', s2', ambient, k, q);
    ops := [save] + [ListMessages(q, limit)];
    if SameAnswers(s1, s2, ambient, ops) {
      LastAnswer(s1, s2, ambient, [save], ListMessages(q, limit));
      RunStoreOne(s1, ambient, save);
      RunStoreOne(s2, ambient, save);
    }
    RunDoesNotLeak(s1, s2, ambient, ops);
  }

  lemma ListingLeaks(s1: Store, s2: Store, ambient: string, k: nat, q: Query) returns (limit: nat)
    requires Alike(s1, s2, ambient) && MessagesOk(s1) && MessagesOk(s2)
    requires k < |MessageRows(s1)| && Matches(q, MessageRows(s1)[k]) && !IsForeign(MessageRows(s1)[k].tenant, ambient)
    requires k < |MessageRows(s2)| && MessageRows(s1)[k] == MessageRows(s2)[k]
    requires ForeignAhead(MessageRows(s1), q, k, ambient) != ForeignAhead(MessageRows(s2), q, k, ambient)
    ensures !SameCut(s1, s2, ambient, q, limit)
  {
    MessageRowsAre(s1);
    MessageRowsAre(s2);
    MessageRowsAlike(s1, s2, ambient);
    limit := UnbalancedShows(MessageRows(s1), MessageRows(s2), q, k, ambient);
    ShownAlikeIff(MessageRows(s1), MessageRows(s2), q, limit, ambient);
  }

  function Longest(ids: seq<string>): nat {
    if ids == [] then 0 else if |ids[0]| > Longest(ids[1..]) then |ids[0]| else Longest(ids[1..])
  }

  lemma {:induction false} LongestBounds(ids: seq<string>)
    ensures forall id | id in ids :: |id| <= Longest(ids)
  {
    if ids != [] {
      LongestBounds(ids[1..]);
      assert forall id :: id in ids <==> id == ids[0] || id in ids[1..];
    }
  }

  /** An id no message has. */
  lemma FreshId(s: Store) returns (id: string)
    requires MessagesOk(s)
    ensures id !in Of(s.tables, Messages)
  {
    LongestBounds(Arrivals(s, Messages));
    id := seq(Longest(Arrivals(s, Messages)) + 1, _ => 'a');
  }

  lemma UnbalancedLeaks(s1: Store, s2: Store, ambient: string) returns (ops: seq<Op>)
    requires Alike(s1, s2, ambient) && MessagesOk(s1) && MessagesOk(s2) && !StoresBalanced(s1, s2, ambient)
    ensures Views(s1, ambient, ops) != Views(s2, ambient, ops)
  {
    var (a, b) := (MessageRows(s1), MessageRows(s2));
    MessageRowsAlike(s1, s2, ambient);
    if q, t: nat :| !SameSince(a, b, q, t, ambient) {
      ops := UnequalSinceLeaks(s1, s2, ambient, q, t);
    } else {
      var q, t: nat, k: nat :| k < |a| && !IsForeign(a[k].tenant, ambient) && !SameBefore(a, b, q, t, k, ambient);
      assert SameSince(a, b, q, t + 1, ambient);
      ops := UnequalBeforeLeaks(s1, s2, ambient, q, t, k);
    }
  }

  /** The marker goes over the own row. */
  lemma UnequalBeforeLeaks(s1: Store, s2: Store, ambient: string, q: Query, t: nat, k: nat) returns (ops: seq<Op>)
    requires Alike(s1, s2, ambient) && MessagesOk(s1) && MessagesOk(s2)
    requires k < |MessageRows(s1)| == |MessageRows(s2)| && !IsForeign(MessageRows(s1)[k].tenant, ambient)
    requires SameSince(MessageRows(s1), MessageRows(s2), q, t + 1, ambient)
    requires !SameBefore(MessageRows(s1), MessageRows(s2), q, t, k, ambient)
    ensures Views(s1, ambient, ops) != Views(s2, ambient, ops)
  {
    MessageRowsAre(s1);
    ops := MarkerLeaks(s1, s2, ambient, k, Arrivals(s1, Messages)[k], q, t);
  }

  /** The marker goes to the end. */
  lemma UnequalSinceLeaks(s1: Store, s2: Store, ambient: string, q: Query, t: nat) returns (ops: seq<Op>)
    requires Alike(s1, s2, ambient) && MessagesOk(s1) && MessagesOk(s2)
    requires !SameSince(MessageRows(s1), MessageRows(s2), q, t, ambient)
    ensures Views(s1, ambient, ops) != Views(s2, ambient, ops)
  {
    var (a, b) := (MessageRows(s1), MessageRows(s2));
    MessageRowsAre(s1);
    MessageRowsAre(s2);
    var id := FreshId(s1);
    ForeignAtSince(a, q, t, ambient);
    ForeignAtSince(b, q, t, ambient);
    assert a[..|a|] == a && b[..|a|] == b;
    ops := MarkerLeaks(s1, s2, ambient, |a|, id, q, t);
  }

  lemma MisalignedLeaks(s1: Store, s2: Store, ambient: string) returns (ops: seq<Op>)
    requires Alike(s1, s2, ambient) && MessagesOk(s1) && MessagesOk(s2)
    requires LooksAlike(Of(s1.tables, Messages), Of(s2.tables, Messages), ambient) && !AllAligned(s1, s2, ambient)
    ensures Views(s1, ambient, ops) != Views(s2, ambient, ops)
  {
    var providerId :| providerId != "" && !StoresAligned(s1, s2, ambient, providerId);
    var (t1, t2) := (Of(s1.tables, Messages), Of(s2.tables, Messages));
    var k := Divergence(t1, t2, Arrivals(s1, Messages), providerId, ambient);
    if PartsAt(t1, t2, Arrivals(s1, Messages), k, providerId, ambient) {
      ops := PartingLeaks(s1, s2, ambient, k, providerId);
    } else {
      AlikeSymmetric(s1, s2, ambient);
      ops := PartingLeaks(s2, s1, ambient, k, providerId);
    }
  }

  /** The whole of what a tenant can learn: no run of calls tells two stores apart that differ only
      in other tenants' contents, if and only if (`AllAligned`) for every provider id the first
      foreign rows holding it are the same, or of one tenant with none of the caller's own rows
      between them, and (`Balanced`) for every filter and time the stores have as many foreign
      messages that are that new or newer, and as many of that very time that arrived before any
      of the caller's own. */
  lemma SecretIff(s1: Store, s2: Store, ambient: string)
    requires Alike(s1, s2, ambient) && MessagesOk(s1) && MessagesOk(s2)
    ensures (forall ops: seq<Op> :: Views(s1, ambient, ops) == Views(s2, ambient, ops)) <==> Secret(s1, s2, ambient)
  {
    assert LooksAlike(Of(s1.tables, Messages), Of(s2.tables, Messages), ambient);
    if Secret(s1, s2, ambient) {
      forall ops: seq<Op>
        ensures Views(s1, ambient, ops) == Views(s2, ambient, ops)
      {
        SecretRun(s1, s2, ambient, ops);
        RunDoesNotLeak(s1, s2, ambient, ops);
      }
    } else {
      var ops;
      if AllAligned(s1, s2, ambient) {
        ops := UnbalancedLeaks(s1, s2, ambient);
      } else {
        ops := MisalignedLeaks(s1, s2, ambient);
      }
      assert Views(s1, ambient, ops) != Views(s2, ambient, ops);
    }
  }

  function OneMessage(tenant: string, providerId: string): Store {
    Store(map[Messages := map["m" := Row("m", tenant, Holding(providerId))]], map[Messages := ["m"]], [])
  }

  /** The lookup does leak: tenant A's ledger tells whether a row of tenant B holds the id "p". */
  lemma ProviderIdLeaks()
    ensures
      var (s1, s2) := (OneMessage("B", "p"), OneMessage("B", "q"));
      && Alike(s1, s2, "A") && MessagesOk(s1) && MessagesOk(s2)
      && View(s1, "A", GetByProviderId("p")) == (One(None), [Denial("get_message_by_provider_id", "B", "A")])
      && View(s2, "A", GetByProviderId("p")) == (One(None), [])
  {
    var (s1, s2) := (OneMessage("B", "p"), OneMessage("B", "q"));
    assert ["m"][1..] == [];
    assert Found(s1, "p") == Some("m") && Found(s2, "p") == None;
    LookupView(s1, "A", "p");
    LookupView(s2, "A", "p");
  }

  /** It can even hide a tenant's own row: with B's row first, A's lookup of the id its own row
      holds comes back empty. */
  lemma ProviderIdHidesOwnRow()
    ensures
      var own := Row("n", "A", Holding("p"));
      var (s1, s2) := (OneMessage("B", "p"), OneMessage("B", "q"));
      var (with1, with2) := (Apply(s1, "A", Save(Messages, own)).0, Apply(s2, "A", Save(Messages, own)).0);
      && View(with1, "A", GetByProviderId("p")).0 == One(None)
      && View(with2, "A", GetByProviderId("p")).0 == One(Some(own))
  {
    HiddenBehind("p");
    HiddenBehind("q");
  }

  lemma HiddenBehind(p: string)
    requires p != ""
    ensures
      var own := Row("n", "A", Holding("p"));
      var s := Apply(OneMessage("B", p), "A", Save(Messages, own)).0;
      View(s, "A", GetByProviderId("p")).0 == One(if p == "p" then None else Some(own))
  {
    var own := Row("n", "A", Holding("p"));
    var s := Apply(OneMessage("B", p), "A", Save(Messages, own)).0;
    var t := Of(s.tables, Messages);
    assert t == Of(OneMessage("B", p).tables, Messages)["n" := own];
    assert Arrivals(s, Messages) == ["m"] + ["n"] == ["m", "n"];
    assert ["m", "n"][1..] == ["n"] && ["n"][1..] == [];
    assert FirstHolder(t, ["n"], "p") == Some("n");
    assert FirstHolder(t, ["m", "n"], "p") == Some(if p == "p" then "m" else "n");
  }

  /** Tenant A's message, and one of tenant B created at `t`. */
  function TwoMessages(t: nat): Store {
    var own := Row("n", "A", MessageBody("", Msg.Sent, "c", "", 5, ""));
    var other := Row("m", "B", MessageBody("", Msg.Sent, "c", "", t, ""));
    Store(map[Messages := map["n" := own, "m" := other]], map[Messages := ["n", "m"]], [])
  }

  lemma NewestOfTwo(t: nat)
    requires t != 5
    ensures
      var rows := Of(TwoMessages(t).tables, Messages);
      Shown(MessageRows(TwoMessages(t)), Query(None, None), 1, "A") == if t > 5 then [] else [rows["n"]]
  {
    var (rows, q) := (Of(TwoMessages(t).tables, Messages), Query(None, None));
    var (n, m) := (rows["n"], rows["m"]);
    RowsInAll(rows, ["n", "m"]);
    assert MessageRows(TwoMessages(t)) == [n, m] && [n, m][1..] == [m] && [m][1..] == [];
    assert Matches(q, n) && Matches(q, m);
    assert MatchRows([m], q) == [m];
    assert MatchRows([n, m], q) == [n] + MatchRows([m], q) == [n, m];
    assert [n] + [] == [n] && InsertRow(n, []) == [n] && SortRows([m]) == [m];
    assert SortRows([n, m]) == InsertRow(n, [m]);
    assert InsertRow(n, [m]) == if t > 5 then [m] + InsertRow(n, []) else [n] + [m];
    assert Take([m, n], 1) == [m] && Take([n, m], 1) == [n] && [n][1..] == [];
    assert OwnedOnly([m], "A") == [] && OwnedOnly([n], "A") == [n] + OwnedOnly([], "A") == [n];
  }

  lemma TwoMessagesAlike(t1: nat, t2: nat)
    ensures Alike(TwoMessages(t1), TwoMessages(t2), "A") && MessagesOk(TwoMessages(t1))
  {
  }

  /** The limit of a listing leaks: tenant A's newest message is shown or not, depending on when
      tenant B's was created. */
  lemma ListLimitLeaks()
    ensures
      var (s1, s2) := (TwoMessages(9), TwoMessages(1));
      var newest := ListMessages(Query(None, None), 1);
      && Alike(s1, s2, "A") && MessagesOk(s1) && MessagesOk(s2)
      && View(s1, "A", newest).0 == Many([])
      && View(s2, "A", newest).0 == Many([Of(s2.tables, Messages)["n"]])
  {
    TwoMessagesAlike(9, 1);
    TwoMessagesAlike(1, 9);
    NewestOfTwo(9);
    NewestOfTwo(1);
    ListView(TwoMessages(9), "A", Query(None, None), 1);
    ListView(TwoMessages(1), "A", Query(None, None), 1);
  }
}
