/**
 The tenant-confined stores: the scoped wrappers of `services/scoped_stores.py` over the
 in-memory stores of `api/.../db.py`, with the tenant primitives of `services/tenancy.py`.

 `ScopedStores` is the wrappers as the source writes them, over one set of tables and one
 ledger. `Apply` is what each call means, and the theorems speak about every sequence of
 calls.
 */
module ScopedStores {
  import opened Common
  import Msg = Messages
  import Open = OpenTransaction

  /** `created` of a message counts from the earliest time there is, which also stands for a
      missing one. */
  datatype Body =
    | MessageBody(providerId: string, status: Msg.Status, contact: string, transaction: string, created: nat,
                  text: string)
    | CallBody(text: string)
    | FeedbackBody(listingKey: string, text: string)
    | DocumentBody(transactionId: string, attached: int, text: string)
    | TransactionBody(active: bool, terms: Open.Transaction)
    | MilestoneBody(milestone: Open.Milestone, level: int)

  datatype Row = Row(id: string, tenant: string, body: Body)

  type Table = map<string, Row>

  datatype Kind = Messages | Calls | Feedback | Documents | Transactions | Milestones

  /** One table per kind; a kind without an entry is empty. */
  type Tables = map<Kind, Table>

  function Of(ts: Tables, k: Kind): Table {
    if k in ts then ts[k] else map[]
  }

  /** A security line of the ledger. */
  datatype Denial = Denial(tool: string, attempted: string, bound: string)

  /** `arrival` is the insertion order of each table's rows, which the lookups and listings walk;
      an overwritten row keeps its place. */
  datatype Store = Store(tables: Tables, arrival: map<Kind, seq<string>>, ledger: seq<Denial>)

  function Arrivals(s: Store, k: Kind): seq<string> {
    if k in s.arrival then s.arrival[k] else []
  }

  datatype Result =
    | NoTenant                      // TenantContextMissing
    | CrossTenant(attempted: string) // CrossTenantError
    | AlreadyExists
    | Missing                       // KeyError
    | Done
    | One(row: Option<Row>)
    | Many(rows: seq<Row>)
    | Count(n: nat)

  /** `_is_foreign`: an unstamped row counts as owned. */
  predicate IsForeign(rowTenant: string, ambient: string) {
    rowTenant != "" && rowTenant != ambient
  }

  predicate ForeignAt(t: Table, id: string, ambient: string) {
    id in t && IsForeign(t[id].tenant, ambient)
  }

  function Put(s: Store, k: Kind, t: Table): Store {
    s.(tables := s.tables[k := t])
  }

  function Deny(s: Store, tool: string, attempted: string, ambient: string): Store {
    s.(ledger := s.ledger + [Denial(tool, attempted, ambient)])
  }

  /** A by-id read: another tenant's row resolves to nothing, and the attempt is recorded. */
  function ReadRow(s: Store, k: Kind, id: string, tool: string, ambient: string): (Store, Result) {
    var t := Of(s.tables, k);
    if ForeignAt(t, id, ambient) then (Deny(s, tool, t[id].tenant, ambient), One(None))
    else (s, One(if id in t then Some(t[id]) else None))
  }

  /** A write of a stamped model: its claimed tenant is enforced, then the row it targets. */
  function WriteRow(s: Store, k: Kind, row: Row, tool: string, ambient: string, overwrite: bool): (Store, Result) {
    var t := Of(s.tables, k);
    if IsForeign(row.tenant, ambient) then (Deny(s, tool, row.tenant, ambient), CrossTenant(row.tenant))
    else if ForeignAt(t, row.id, ambient) then (Deny(s, tool, t[row.id].tenant, ambient), CrossTenant(t[row.id].tenant))
    else if !overwrite && row.id in t then (s, AlreadyExists)
    else
      var order := Arrivals(s, k) + if row.id in t then [] else [row.id];
      (Put(s, k, t[row.id := row.(tenant := ambient)]).(arrival := s.arrival[k := order]), Done)
  }

  predicate HoldsProviderId(t: Table, id: string, providerId: string) {
    id in t && t[id].body.MessageBody? && t[id].body.providerId == providerId
  }

  function FirstHolder(t: Table, arrival: seq<string>, providerId: string): Option<string> {
    if arrival == [] then None
    else if HoldsProviderId(t, arrival[0], providerId) then Some(arrival[0])
    else FirstHolder(t, arrival[1..], providerId)
  }

  /** The inner store's provider-id lookup: the first row in insertion order; the empty id of a
      not-yet-sent row never matches. */
  function Found(s: Store, providerId: string): Option<string> {
    if providerId == "" then None else FirstHolder(Of(s.tables, Messages), Arrivals(s, Messages), providerId)
  }

  /** The rows of a table in their order of arrival. */
  function RowsIn(t: Table, order: seq<string>): seq<Row> {
    if order == [] then []
    else if order[0] in t then [t[order[0]]] + RowsIn(t, order[1..])
    else RowsIn(t, order[1..])
  }

  /** What a listing sorts by, smallest first: messages newest first, documents oldest first,
      milestones by due date, and the others in order of arrival. */
  function SortRank(row: Row): int {
    match row.body
    case MessageBody(_, _, _, _, created, _) => 0 - created
    case DocumentBody(_, attached, _) => attached
    case MilestoneBody(milestone, _) => milestone.dueDate
    case _ => 0
  }

  function InsertRow(x: Row, sorted: seq<Row>): seq<Row> {
    if sorted == [] || SortRank(x) <= SortRank(sorted[0]) then [x] + sorted
    else [sorted[0]] + InsertRow(x, sorted[1..])
  }

  /** The library's stable sort. */
  function SortRows(rows: seq<Row>): seq<Row> {
    if rows == [] then [] else InsertRow(rows[0], SortRows(rows[1..]))
  }

  /** The wrapper's last step: other tenants' rows are dropped. */
  function OwnedOnly(rows: seq<Row>, ambient: string): seq<Row> {
    if rows == [] then []
    else if IsForeign(rows[0].tenant, ambient) then OwnedOnly(rows[1..], ambient)
    else [rows[0]] + OwnedOnly(rows[1..], ambient)
  }

  function SelectRows(rows: seq<Row>, parent: string): seq<Row> {
    if rows == [] then []
    else if Selected(rows[0], parent) then [rows[0]] + SelectRows(rows[1..], parent)
    else SelectRows(rows[1..], parent)
  }

  /** The filters of the message listing, either of which may be absent. */
  datatype Query = Query(contact: Option<string>, transaction: Option<string>)

  predicate Matches(q: Query, row: Row) {
    && row.body.MessageBody?
    && (q.contact.Some? ==> row.body.contact == q.contact.value)
    && (q.transaction.Some? ==> row.body.transaction == q.transaction.value)
  }

  function MatchRows(rows: seq<Row>, q: Query): seq<Row> {
    if rows == [] then []
    else if Matches(q, rows[0]) then [rows[0]] + MatchRows(rows[1..], q)
    else MatchRows(rows[1..], q)
  }

  /** Where a slice up to `limit` ends: a negative one counts from the back. */
  function CutAt(length: nat, limit: int): (n: nat)
    ensures n <= length
  {
    if length <= limit then length else if 0 <= limit then limit else if 0 <= length + limit then length + limit else 0
  }

  function Take(rows: seq<Row>, limit: int): seq<Row> {
    rows[..CutAt(|rows|, limit)]
  }

  /** The inner store's message listing: filtered, newest first, and only then cut to `limit`,
      whoever the rows belong to. */
  function InnerListing(s: Store, q: Query, limit: int): seq<Row> {
    Take(SortRows(MatchRows(RowsIn(Of(s.tables, Messages), Arrivals(s, Messages)), q)), limit)
  }

  function Stamped(rows: seq<Row>, ambient: string): seq<Row> {
    seq(|rows|, i requires 0 <= i < |rows| => rows[i].(tenant := ambient))
  }

  function PutAll(t: Table, rows: seq<Row>): Table
    decreases |rows|
  {
    if rows == [] then t else PutAll(t[rows[0].id := rows[0]], rows[1..])
  }

  /** The order after a batch is put: rows not there yet, at the end. */
  function ArriveAll(t: Table, order: seq<string>, rows: seq<Row>): seq<string>
    decreases |rows|
  {
    if rows == [] then order
    else
      var (id, rest) := (rows[0].id, rows[1..]);
      ArriveAll(t[id := rows[0]], order + if id in t then [] else [id], rest)
  }

  /** The order after rows are removed. */
  function StillIn(t: Table, order: seq<string>): seq<string> {
    if order == [] then []
    else if order[0] in t then [order[0]] + StillIn(t, order[1..])
    else StillIn(t, order[1..])
  }

  /** The first row of a batch claiming a foreign tenant. */
  function FirstForeign(rows: seq<Row>, ambient: string): Option<string> {
    if rows == [] then None
    else if IsForeign(rows[0].tenant, ambient) then Some(rows[0].tenant)
    else FirstForeign(rows[1..], ambient)
  }

  function Unowned(t: Table, ambient: string): Table {
    map id | id in t && t[id].tenant != ambient && t[id].tenant != "" :: t[id]
  }

  function Advanced(t: Table, id: string, s: Msg.Status): Table
    requires id in t
  {
    var b := t[id].body;
    if b.MessageBody? && Msg.Rank(s) > Msg.Rank(b.status) then t[id := t[id].(body := b.(status := s))] else t
  }

  /** A new transaction and its timeline, put into their two tables. */
  function Created(s: Store, row: Row, milestones: seq<Row>): Store {
    var t := Of(s.tables, Milestones);
    var s1 := Put(s, Transactions, Of(s.tables, Transactions)[row.id := row]);
    var arrival := s.arrival[Transactions := Arrivals(s, Transactions) + [row.id]];
    Put(s1, Milestones, PutAll(t, milestones))
    .(arrival := arrival[Milestones := ArriveAll(t, Arrivals(s, Milestones), milestones)])
  }

  /** Only other tenants' transactions and milestones left, in their order. */
  function Cleared(s: Store, ambient: string): Store {
    var (t, m) := (Unowned(Of(s.tables, Transactions), ambient), Unowned(Of(s.tables, Milestones), ambient));
    var arrival := s.arrival[Transactions := StillIn(t, Arrivals(s, Transactions))];
    Put(Put(s, Transactions, t), Milestones, m)
    .(arrival := arrival[Milestones := StillIn(m, Arrivals(s, Milestones))])
  }

  datatype Op =
    | Save(kind: Kind, row: Row)
    | Get(kind: Kind, id: string)
    | List(kind: Kind, parent: string)
    | ListMessages(query: Query, limit: int)
    | GetByProviderId(providerId: string)
    | AdvanceStatus(id: string, status: Msg.Status)
    | CreateTransaction(row: Row, milestones: seq<Row>)
    | SetEscalation(id: string, level: int)
    | CountTransactions
    | ClearTransactions

  function ToolName(op: Op): string {
    match op
    case Save(k, _) =>
      (match k
       case Messages => "save_message"
       case Calls => "save_call_record"
       case Feedback => "upsert_feedback"
       case _ => "add_document")
    case Get(k, _) =>
      (match k
       case Messages => "get_message"
       case Calls => "get_call_record"
       case Feedback => "get_feedback"
       case Documents => "get_document"
       case Transactions => "get_transaction"
       case Milestones => "get_milestone")
    case GetByProviderId(_) => "get_message_by_provider_id"
    case AdvanceStatus(_, _) => "advance_message_status"
    case CreateTransaction(_, _) => "create_transaction"
    case SetEscalation(_, _) => "set_escalation_level"
    case _ => ""
  }

  /** Which rows a listing of a kind selects. */
  predicate Selected(row: Row, parent: string) {
    match row.body
    case FeedbackBody(listingKey, _) => listingKey == parent
    case DocumentBody(transactionId, _, _) => transactionId == parent
    case MilestoneBody(milestone, _) => milestone.transactionId == parent
    case TransactionBody(active, _) => active
    case _ => true
  }

  /** What one call does under the bound tenant `ambient`; saves and reads exist for the four
      stores the source gives them, transactions being created with their timeline. */
  function Apply(s: Store, ambient: string, op: Op): (Store, Result) {
    var tool := ToolName(op);
    match op
    case Save(k, row) => WriteRow(s, k, row, tool, ambient, !k.Documents?)
    case Get(k, id) => ReadRow(s, k, id, tool, ambient)
    case List(k, parent) =>
      (s, Many(OwnedOnly(SortRows(SelectRows(RowsIn(Of(s.tables, k), Arrivals(s, k)), parent)), ambient)))
    case ListMessages(query, limit) => (s, Many(OwnedOnly(InnerListing(s, query, limit), ambient)))
    case GetByProviderId(providerId) =>
      var found := Found(s, providerId);
      if found.None? then (s, One(None)) else ReadRow(s, Messages, found.value, tool, ambient)
    case AdvanceStatus(id, status) =>
      var t := Of(s.tables, Messages);
      if id !in t then (s, One(None))
      else if ForeignAt(t, id, ambient) then (Deny(s, tool, t[id].tenant, ambient), One(None))
      else (Put(s, Messages, Advanced(t, id, status)), One(Some(Advanced(t, id, status)[id])))
    case CreateTransaction(row, milestones) =>
      var bad := FirstForeign([row] + milestones, ambient);
      if bad.Some? then (Deny(s, tool, bad.value, ambient), CrossTenant(bad.value))
      else if row.id in Of(s.tables, Transactions) then (s, AlreadyExists)
      else (Created(s, row.(tenant := ambient), Stamped(milestones, ambient)), Done)
    case SetEscalation(id, level) =>
      var t := Of(s.tables, Milestones);
      if ForeignAt(t, id, ambient) then (Deny(s, tool, t[id].tenant, ambient), CrossTenant(t[id].tenant))
      else if id !in t then (s, Missing)
      else
        var b := t[id].body;
        (Put(s, Milestones, t[id := t[id].(body := if b.MilestoneBody? then b.(level := level) else b)]), Done)
    case CountTransactions =>
      var t := Of(s.tables, Transactions);
      (s, Count(|set id | id in t && t[id].tenant in {ambient, ""}|))
    case ClearTransactions => (Cleared(s, ambient), Done)
  }

  /** With no tenant bound every call fails closed, before anything is read or written. */
  function Call(s: Store, ambient: Option<string>, op: Op): (Store, Result) {
    if ambient.None? then (s, NoTenant) else Apply(s, ambient.value, op)
  }

  /** Only the calls the wrappers offer: a save names one of the four saving stores, and a new
      transaction comes with a timeline whose ids derive from its own id. */
  ghost predicate Offered(op: Op) {
    match op
    case Save(k, _) => k in {Messages, Calls, Feedback, Documents}
    case CreateTransaction(row, milestones) => forall m | m in milestones :: DerivedFrom(m, row.id)
    case _ => true
  }

  ghost predicate DerivedFrom(m: Row, transactionId: string) {
    && m.body.MilestoneBody? && m.body.milestone.transactionId == transactionId
    && exists i: nat, k :: m.id == Open.MilestoneId(transactionId, i, k)
  }

  /** Every milestone stored belongs to a stored transaction of the same tenant, from which its
      id derives. */
  ghost predicate TimelinesOk(ts: Tables) {
    forall id | id in Of(ts, Milestones) ::
      var m := Of(ts, Milestones)[id];
      && m.id == id && m.body.MilestoneBody? && DerivedFrom(m, m.body.milestone.transactionId)
      && m.body.milestone.transactionId in Of(ts, Transactions)
      && Of(ts, Transactions)[m.body.milestone.transactionId].tenant == m.tenant
  }

  /** The rows stamped with a tenant other than `ambient`. */
  function ForeignPart(t: Table, ambient: string): Table {
    map id | id in t && IsForeign(t[id].tenant, ambient) :: t[id]
  }

  ghost predicate SameForeign(ts: Tables, ts': Tables, ambient: string) {
    forall k: Kind :: ForeignPart(Of(ts', k), ambient) == ForeignPart(Of(ts, k), ambient)
  }

  predicate NoForeignRow(r: Result, ambient: string) {
    match r
    case One(row) => row.Some? ==> !IsForeign(row.value.tenant, ambient)
    case Many(rows) => forall row | row in rows :: !IsForeign(row.tenant, ambient)
    case _ => true
  }

  /** A call that names another tenant: in the model it writes, or by the id it targets. */
  predicate NamesForeign(s: Store, ambient: string, op: Op) {
    match op
    case Save(k, row) => IsForeign(row.tenant, ambient) || ForeignAt(Of(s.tables, k), row.id, ambient)
    case Get(k, id) => ForeignAt(Of(s.tables, k), id, ambient)
    case GetByProviderId(providerId) =>
      Found(s, providerId).Some? && ForeignAt(Of(s.tables, Messages), Found(s, providerId).value, ambient)
    case AdvanceStatus(id, _) => ForeignAt(Of(s.tables, Messages), id, ambient)
    case CreateTransaction(row, milestones) => exists m :: m in [row] + milestones && IsForeign(m.tenant, ambient)
    case SetEscalation(id, _) => ForeignAt(Of(s.tables, Milestones), id, ambient)
    case _ => false
  }

  lemma {:induction false} PutAllRows(t: Table, rows: seq<Row>)
    ensures forall id | id in PutAll(t, rows) ::
              (id in t && PutAll(t, rows)[id] == t[id]) || (PutAll(t, rows)[id] in rows && PutAll(t, rows)[id].id == id)
    ensures forall id | id in t && (forall r | r in rows :: r.id != id) ::
              id in PutAll(t, rows) && PutAll(t, rows)[id] == t[id]
    decreases |rows|
  {
    if rows != [] {
      PutAllRows(t[rows[0].id := rows[0]], rows[1..]);
      assert forall r :: r in rows <==> r == rows[0] || r in rows[1..];
    }
  }

  lemma {:induction false} FirstForeignFinds(rows: seq<Row>, ambient: string)
    ensures FirstForeign(rows, ambient).Some? <==> exists m :: m in rows && IsForeign(m.tenant, ambient)
    decreases |rows|
  {
    if rows != [] {
      FirstForeignFinds(rows[1..], ambient);
      assert forall m :: m in rows <==> m == rows[0] || m in rows[1..];
    }
  }

  /** Creating a transaction never lands on a stored milestone: an id that did would name a
      transaction already there. */
  lemma TimelineIsNew(s: Store, row: Row, m: Row)
    requires TimelinesOk(s.tables) && row.id !in Of(s.tables, Transactions) && DerivedFrom(m, row.id)
    ensures m.id !in Of(s.tables, Milestones)
  {
    if m.id in Of(s.tables, Milestones) {
      var old_ := Of(s.tables, Milestones)[m.id];
      var i: nat, k :| m.id == Open.MilestoneId(row.id, i, k);
      var owner := old_.body.milestone.transactionId;
      var j: nat, l :| old_.id == Open.MilestoneId(owner, j, l);
      Open.MilestoneIdInjective(row.id, i, k, owner, j, l);
    }
  }

  /** The stamped timeline: owned, still derived from the transaction, and new to the table. */
  lemma StampedTimeline(s: Store, ambient: string, row: Row, milestones: seq<Row>)
    requires TimelinesOk(s.tables) && Offered(CreateTransaction(row, milestones))
    requires row.id !in Of(s.tables, Transactions)
    ensures forall r | r in Stamped(milestones, ambient) ::
              r.tenant == ambient && DerivedFrom(r, row.id) && r.id !in Of(s.tables, Milestones)
  {
    forall r | r in Stamped(milestones, ambient)
      ensures r.tenant == ambient && DerivedFrom(r, row.id) && r.id !in Of(s.tables, Milestones)
    {
      var i :| 0 <= i < |milestones| && Stamped(milestones, ambient)[i] == r;
      assert milestones[i] in milestones;
      var j: nat, k :| milestones[i].id == Open.MilestoneId(row.id, j, k);
      assert r.id == Open.MilestoneId(row.id, j, k);
      TimelineIsNew(s, row, r);
    }
  }

  lemma CreateKeepsTimelines(s: Store, ambient: string, row: Row, milestones: seq<Row>)
    requires TimelinesOk(s.tables) && Offered(CreateTransaction(row, milestones))
    ensures TimelinesOk(Apply(s, ambient, CreateTransaction(row, milestones)).0.tables)
  {
    var ts' := Apply(s, ambient, CreateTransaction(row, milestones)).0.tables;
    if ts' != s.tables && row.id !in Of(s.tables, Transactions) {
      StampedTimeline(s, ambient, row, milestones);
      PutAllRows(Of(s.tables, Milestones), Stamped(milestones, ambient));
      var t := Of(s.tables, Milestones);
      assert FirstForeign([row] + milestones, ambient).None?;
      assert Of(ts', Milestones) == PutAll(t, Stamped(milestones, ambient));
      assert Of(ts', Transactions) == Of(s.tables, Transactions)[row.id := row.(tenant := ambient)];
    }
  }

  lemma PutAllKeepsForeign(t: Table, rows: seq<Row>, ambient: string)
    requires forall r | r in rows :: !IsForeign(r.tenant, ambient) && r.id !in t
    ensures ForeignPart(PutAll(t, rows), ambient) == ForeignPart(t, ambient)
  {
    PutAllRows(t, rows);
  }

  lemma CreatedKeepsForeign(s: Store, ambient: string, row: Row, milestones: seq<Row>)
    requires row.id !in Of(s.tables, Transactions) && !IsForeign(row.tenant, ambient)
    requires forall r | r in milestones :: !IsForeign(r.tenant, ambient) && r.id !in Of(s.tables, Milestones)
    ensures SameForeign(s.tables, Created(s, row, milestones).tables, ambient)
  {
    var txns := Of(s.tables, Transactions);
    PutAllKeepsForeign(Of(s.tables, Milestones), milestones, ambient);
    assert ForeignPart(txns[row.id := row], ambient) == ForeignPart(txns, ambient);
  }

  lemma CreateKeepsForeign(s: Store, ambient: string, row: Row, milestones: seq<Row>)
    requires TimelinesOk(s.tables) && Offered(CreateTransaction(row, milestones))
    ensures SameForeign(s.tables, Apply(s, ambient, CreateTransaction(row, milestones)).0.tables, ambient)
  {
    if row.id !in Of(s.tables, Transactions) {
      StampedTimeline(s, ambient, row, milestones);
      CreatedKeepsForeign(s, ambient, row.(tenant := ambient), Stamped(milestones, ambient));
    }
  }

  lemma {:induction false} OwnedOnlyIsOwned(rows: seq<Row>, ambient: string)
    ensures forall row :: row in OwnedOnly(rows, ambient) <==> row in rows && !IsForeign(row.tenant, ambient)
  {
    if rows != [] {
      OwnedOnlyIsOwned(rows[1..], ambient);
    }
  }

  lemma ClearKeepsForeign(s: Store, ambient: string)
    ensures SameForeign(s.tables, Apply(s, ambient, ClearTransactions).0.tables, ambient)
  {
    var (m, t) := (Of(s.tables, Milestones), Of(s.tables, Transactions));
    var s1 := Put(s, Transactions, Unowned(t, ambient));
    UnownedKeepsForeign(t, ambient);
    UnownedKeepsForeign(m, ambient);
    PutKeepsForeign(s, Transactions, Unowned(t, ambient), ambient);
    PutKeepsForeign(s1, Milestones, Unowned(m, ambient), ambient);
    SameForeignTransitive(s.tables, s1.tables, Apply(s, ambient, ClearTransactions).0.tables, ambient);
  }

  lemma UnownedKeepsForeign(t: Table, ambient: string)
    ensures ForeignPart(Unowned(t, ambient), ambient) == ForeignPart(t, ambient)
  {
  }

  lemma PutKeepsForeign(s: Store, k: Kind, t: Table, ambient: string)
    requires ForeignPart(t, ambient) == ForeignPart(Of(s.tables, k), ambient)
    ensures SameForeign(s.tables, Put(s, k, t).tables, ambient)
  {
  }

  lemma SameForeignTransitive(ts: Tables, ts': Tables, ts'': Tables, ambient: string)
    requires SameForeign(ts, ts', ambient) && SameForeign(ts', ts'', ambient)
    ensures SameForeign(ts, ts'', ambient)
  {
  }

  lemma ClearKeepsTimelines(s: Store, ambient: string)
    requires TimelinesOk(s.tables)
    ensures TimelinesOk(Apply(s, ambient, ClearTransactions).0.tables)
  {
  }

  lemma SameTimelines(ts: Tables, ts': Tables)
    requires TimelinesOk(ts)
    requires Of(ts', Milestones) == Of(ts, Milestones) && Of(ts', Transactions) == Of(ts, Transactions)
    ensures TimelinesOk(ts')
  {
  }

  /** Replacing one owned or absent row by an owned one leaves the foreign part alone. */
  lemma OwnedPutKeepsForeign(s: Store, k: Kind, id: string, row: Row, ambient: string)
    requires !ForeignAt(Of(s.tables, k), id, ambient) && !IsForeign(row.tenant, ambient)
    ensures SameForeign(s.tables, Put(s, k, Of(s.tables, k)[id := row]).tables, ambient)
  {
  }

  lemma SaveKeepsForeign(s: Store, ambient: string, k: Kind, row: Row)
    ensures SameForeign(s.tables, Apply(s, ambient, Save(k, row)).0.tables, ambient)
  {
    if !IsForeign(row.tenant, ambient) && !ForeignAt(Of(s.tables, k), row.id, ambient) {
      OwnedPutKeepsForeign(s, k, row.id, row.(tenant := ambient), ambient);
    }
  }

  lemma EscalationKeepsForeign(s: Store, ambient: string, id: string, level: int)
    ensures SameForeign(s.tables, Apply(s, ambient, SetEscalation(id, level)).0.tables, ambient)
  {
    var t := Of(s.tables, Milestones);
    if id in t && !ForeignAt(t, id, ambient) {
      var b := t[id].body;
      var row := t[id].(body := if b.MilestoneBody? then b.(level := level) else b);
      OwnedPutKeepsForeign(s, Milestones, id, row, ambient);
    }
  }

  lemma CallKeepsForeign(s: Store, ambient: string, op: Op)
    requires TimelinesOk(s.tables) && Offered(op)
    ensures SameForeign(s.tables, Apply(s, ambient, op).0.tables, ambient)
  {
    match op
    case Save(k, row) => SaveKeepsForeign(s, ambient, k, row);
    case AdvanceStatus(id, status) =>
      var t := Of(s.tables, Messages);
      if id in t && !ForeignAt(t, id, ambient) {
        OwnedPutKeepsForeign(s, Messages, id, Advanced(t, id, status)[id], ambient);
        assert Advanced(t, id, status) == t[id := Advanced(t, id, status)[id]];
      }
    case CreateTransaction(row, milestones) => CreateKeepsForeign(s, ambient, row, milestones);
    case SetEscalation(id, level) => EscalationKeepsForeign(s, ambient, id, level);
    case ClearTransactions => ClearKeepsForeign(s, ambient);
    case _ =>
  }

  lemma CallKeepsTimelines(s: Store, ambient: string, op: Op)
    requires TimelinesOk(s.tables) && Offered(op)
    ensures TimelinesOk(Apply(s, ambient, op).0.tables)
  {
    match op
    case CreateTransaction(row, milestones) => CreateKeepsTimelines(s, ambient, row, milestones);
    case ClearTransactions => ClearKeepsTimelines(s, ambient);
    case SetEscalation(id, level) => EscalationKeepsTimelines(s, ambient, id, level);
    case _ =>
      OtherTablesOnly(s, ambient, op);
      SameTimelines(s.tables, Apply(s, ambient, op).0.tables);
  }

  /** Every other call leaves the two tables of the timelines alone. */
  lemma OtherTablesOnly(s: Store, ambient: string, op: Op)
    requires Offered(op) && !op.CreateTransaction? && !op.ClearTransactions? && !op.SetEscalation?
    ensures
      var ts' := Apply(s, ambient, op).0.tables;
      && Of(ts', Milestones) == Of(s.tables, Milestones) && Of(ts', Transactions) == Of(s.tables, Transactions)
  {
  }

  lemma EscalationKeepsTimelines(s: Store, ambient: string, id: string, level: int)
    requires TimelinesOk(s.tables)
    ensures TimelinesOk(Apply(s, ambient, SetEscalation(id, level)).0.tables)
  {
  }

  /** Every denial leaves exactly one security line and no other effect; no other call writes
      to the ledger. */
  lemma CallIsRecorded(s: Store, ambient: string, op: Op)
    ensures
      var s' := Apply(s, ambient, op).0;
      if NamesForeign(s, ambient, op) then
        && s'.tables == s.tables
        && exists d: Denial :: d.bound == ambient && IsForeign(d.attempted, ambient) && s'.ledger == s.ledger + [d]
      else s'.ledger == s.ledger
  {
    var s' := Apply(s, ambient, op).0;
    if op.CreateTransaction? {
      FirstForeignFinds([op.row] + op.milestones, ambient);
      FirstForeignIsForeign([op.row] + op.milestones, ambient);
    }
    if NamesForeign(s, ambient, op) {
      assert s'.ledger == s.ledger + [s'.ledger[|s.ledger|]];
    }
  }

  lemma {:induction false} FirstForeignIsForeign(rows: seq<Row>, ambient: string)
    ensures FirstForeign(rows, ambient).Some? ==> IsForeign(FirstForeign(rows, ambient).value, ambient)
    decreases |rows|
  {
    if rows != [] {
      FirstForeignIsForeign(rows[1..], ambient);
    }
  }

  /** One call: the timelines stay consistent, and no row stamped with another tenant is
      changed, created, removed or returned. */
  lemma CallConfines(s: Store, ambient: string, op: Op)
    requires TimelinesOk(s.tables) && Offered(op)
    ensures
      var (s', r) := Apply(s, ambient, op);
      TimelinesOk(s'.tables) && SameForeign(s.tables, s'.tables, ambient) && NoForeignRow(r, ambient)
  {
    CallKeepsForeign(s, ambient, op);
    CallKeepsTimelines(s, ambient, op);
    match op
    case List(k, parent) =>
      OwnedOnlyIsOwned(SortRows(SelectRows(RowsIn(Of(s.tables, k), Arrivals(s, k)), parent)), ambient);
    case ListMessages(query, limit) => OwnedOnlyIsOwned(InnerListing(s, query, limit), ambient);
    case _ =>
  }

  /** Every sequence of calls under one tenant. */
  function RunCalls(s: Store, ambient: string, ops: seq<Op>): (Store, seq<Result>)
    decreases |ops|
  {
    if ops == [] then (s, [])
    else
      var (s', r) := Apply(s, ambient, ops[0]);
      var (s'', rs) := RunCalls(s', ambient, ops[1..]);
      (s'', [r] + rs)
  }

  /** Confinement over whole runs: whatever one tenant calls, in whatever order, every other
      tenant's rows are exactly as they were, and no result ever shows one of them. */
  lemma {:induction false} RunConfines(s: Store, ambient: string, ops: seq<Op>)
    requires TimelinesOk(s.tables) && forall op | op in ops :: Offered(op)
    ensures
      var (s', rs) := RunCalls(s, ambient, ops);
      && TimelinesOk(s'.tables) && SameForeign(s.tables, s'.tables, ambient)
      && forall r | r in rs :: NoForeignRow(r, ambient)
    decreases |ops|
  {
    if ops != [] {
      CallConfines(s, ambient, ops[0]);
      RunConfines(Apply(s, ambient, ops[0]).0, ambient, ops[1..]);
    }
  }

  /** The wrappers over their inner stores. The bound tenant comes from the request context;
      `kind` selects which of the wrappers the call goes through. */
  class ScopedStores {
    var tables: Tables
    var arrival: map<Kind, seq<string>>
    var ledger: seq<Denial>

    ghost function State(): Store
      reads this
    {
      Store(tables, arrival, ledger)
    }

    constructor ()
      ensures State() == Store(map[], map[], [])
    {
      tables, arrival, ledger := map[], map[], [];
    }

    method RecordCrossTenantAttempt(tool: string, attempted: string, bound: string)
      modifies `ledger
      ensures ledger == old(ledger) + [Denial(tool, attempted, bound)]
    {
      ledger := ledger + [Denial(tool, attempted, bound)];
    }

    method SaveRow(bound: Option<string>, kind: Kind, row: Row) returns (r: Result)
      modifies this
      ensures (State(), r) == Call(old(State()), bound, Save(kind, row))
    {
      if bound.None? {
        return NoTenant;
      }
      var tool := ToolName(Save(kind, row));
      if row.tenant != "" && row.tenant != bound.value {
        RecordCrossTenantAttempt(tool, row.tenant, bound.value);
        return CrossTenant(row.tenant);
      }
      var table := Of(tables, kind);
      if row.id in table && IsForeign(table[row.id].tenant, bound.value) {
        RecordCrossTenantAttempt(tool, table[row.id].tenant, bound.value);
        return CrossTenant(table[row.id].tenant);
      }
      if kind.Documents? && row.id in table {
        return AlreadyExists;
      }
      var order := if kind in arrival then arrival[kind] else [];
      arrival := arrival[kind := order + if row.id in table then [] else [row.id]];
      tables := tables[kind := table[row.id := row.(tenant := bound.value)]];
      return Done;
    }

    method GetRow(bound: Option<string>, kind: Kind, id: string) returns (r: Result)
      modifies `ledger
      ensures (State(), r) == Call(old(State()), bound, Get(kind, id))
    {
      if bound.None? {
        return NoTenant;
      }
      var table := Of(tables, kind);
      if id !in table {
        return One(None);
      }
      if IsForeign(table[id].tenant, bound.value) {
        RecordCrossTenantAttempt(ToolName(Get(kind, id)), table[id].tenant, bound.value);
        return One(None);
      }
      return One(Some(table[id]));
    }

    method ListRows(bound: Option<string>, kind: Kind, parent: string) returns (r: Result)
      ensures (State(), r) == Call(State(), bound, List(kind, parent))
    {
      if bound.None? {
        return NoTenant;
      }
      var (table, order) := (Of(tables, kind), if kind in arrival then arrival[kind] else []);
      ghost var all := SelectRows(RowsIn(table, order), parent);
      var found := [];
      assert order[0..] == order;
      for i := 0 to |order|
        invariant all == found + SelectRows(RowsIn(table, order[i..]), parent)
      {
        assert order[i..][1..] == order[i + 1..];
        if order[i] in table && Selected(table[order[i]], parent) {
          found := found + [table[order[i]]];
        }
      }
      assert order[|order|..] == [] && all == found;
      var sorted := SortRows(found);
      return Many(OwnedOnly(sorted, bound.value));
    }

    /** `list_messages`: the inner store filters, sorts and cuts; the wrapper then drops. */
    method ListMessageRows(bound: Option<string>, query: Query, limit: int) returns (r: Result)
      ensures (State(), r) == Call(State(), bound, ListMessages(query, limit))
    {
      if bound.None? {
        return NoTenant;
      }
      var (table, order) := (Of(tables, Messages), if Messages in arrival then arrival[Messages] else []);
      ghost var all := MatchRows(RowsIn(table, order), query);
      var found := [];
      assert order[0..] == order;
      for i := 0 to |order|
        invariant all == found + MatchRows(RowsIn(table, order[i..]), query)
      {
        assert order[i..][1..] == order[i + 1..];
        if order[i] in table && Matches(query, table[order[i]]) {
          found := found + [table[order[i]]];
        }
      }
      assert order[|order|..] == [] && all == found;
      var cut := Take(SortRows(found), limit);
      return Many(OwnedOnly(cut, bound.value));
    }

    /** The inner lookup walks the rows in insertion order. */
    method GetMessageByProviderId(bound: Option<string>, providerId: string) returns (r: Result)
      modifies `ledger
      ensures (State(), r) == Call(old(State()), bound, GetByProviderId(providerId))
    {
      if bound.None? {
        return NoTenant;
      }
      if providerId == "" {
        return One(None);
      }
      var table := Of(tables, Messages);
      var order := if Messages in arrival then arrival[Messages] else [];
      assert order[0..] == order;
      for i := 0 to |order|
        invariant ledger == old(ledger)
        invariant FirstHolder(table, order, providerId) == FirstHolder(table, order[i..], providerId)
      {
        assert order[i..][1..] == order[i + 1..];
        if HoldsProviderId(table, order[i], providerId) {
          var row := table[order[i]];
          if IsForeign(row.tenant, bound.value) {
            RecordCrossTenantAttempt("get_message_by_provider_id", row.tenant, bound.value);
            return One(None);
          }
          return One(Some(row));
        }
      }
      return One(None);
    }

    method AdvanceMessageStatus(bound: Option<string>, id: string, status: Msg.Status) returns (r: Result)
      modifies this
      ensures (State(), r) == Call(old(State()), bound, AdvanceStatus(id, status))
    {
      if bound.None? {
        return NoTenant;
      }
      var table := Of(tables, Messages);
      if id !in table {
        return One(None);
      }
      if IsForeign(table[id].tenant, bound.value) {
        RecordCrossTenantAttempt("advance_message_status", table[id].tenant, bound.value);
        return One(None);
      }
      var row := table[id];
      if row.body.MessageBody? && Msg.Rank(status) > Msg.Rank(row.body.status) {
        row := row.(body := row.body.(status := status));
        table := table[id := row];
      }
      tables := tables[Messages := table];
      return One(Some(row));
    }

    method CreateTransactionRows(bound: Option<string>, row: Row, milestones: seq<Row>) returns (r: Result)
      modifies this
      ensures (State(), r) == Call(old(State()), bound, CreateTransaction(row, milestones))
    {
      if bound.None? {
        return NoTenant;
      }
      var all := [row] + milestones;
      assert all[0..] == all;
      for i := 0 to |all|
        invariant FirstForeign(all, bound.value) == FirstForeign(all[i..], bound.value)
        invariant State() == old(State())
      {
        assert all[i..][1..] == all[i + 1..];
        if IsForeign(all[i].tenant, bound.value) {
          RecordCrossTenantAttempt("create_transaction", all[i].tenant, bound.value);
          return CrossTenant(all[i].tenant);
        }
      }
      var txns := Of(tables, Transactions);
      if row.id in txns {
        return AlreadyExists;
      }
      var (table, order) := (Of(tables, Milestones), if Milestones in arrival then arrival[Milestones] else []);
      var txnOrder := if Transactions in arrival then arrival[Transactions] else [];
      tables := tables[Transactions := txns[row.id := row.(tenant := bound.value)]];
      arrival := arrival[Transactions := txnOrder + [row.id]];
      ghost var stamped := Stamped(milestones, bound.value);
      ghost var goal := (PutAll(table, stamped), ArriveAll(table, order, stamped));
      assert stamped[0..] == stamped;
      for i := 0 to |milestones|
        invariant goal == (PutAll(table, stamped[i..]), ArriveAll(table, order, stamped[i..]))
      {
        assert stamped[i..][1..] == stamped[i + 1..];
        order := order + if milestones[i].id in table then [] else [milestones[i].id];
        table := table[milestones[i].id := milestones[i].(tenant := bound.value)];
      }
      tables, arrival := tables[Milestones := table], arrival[Milestones := order];
      return Done;
    }

    method SetEscalationLevel(bound: Option<string>, id: string, level: int) returns (r: Result)
      modifies this
      ensures (State(), r) == Call(old(State()), bound, SetEscalation(id, level))
    {
      if bound.None? {
        return NoTenant;
      }
      var table := Of(tables, Milestones);
      if id in table && IsForeign(table[id].tenant, bound.value) {
        RecordCrossTenantAttempt("set_escalation_level", table[id].tenant, bound.value);
        return CrossTenant(table[id].tenant);
      }
      if id !in table {
        return Missing;
      }
      var row := table[id];
      if row.body.MilestoneBody? {
        row := row.(body := row.body.(level := level));
      }
      tables := tables[Milestones := table[id := row]];
      return Done;
    }

    method ClearRows(bound: Option<string>) returns (r: Result)
      modifies this
      ensures (State(), r) == Call(old(State()), bound, ClearTransactions)
    {
      if bound.None? {
        return NoTenant;
      }
      var txns := Unowned(Of(tables, Transactions), bound.value);
      var milestones := Unowned(Of(tables, Milestones), bound.value);
      var txnOrder := if Transactions in arrival then arrival[Transactions] else [];
      var order := if Milestones in arrival then arrival[Milestones] else [];
      tables := tables[Transactions := txns][Milestones := milestones];
      arrival := arrival[Transactions := StillIn(txns, txnOrder)][Milestones := StillIn(milestones, order)];
      return Done;
    }
  }

  /** What setting an escalation level does: exactly that, to an owned milestone. */
  lemma EscalationSetsTheLevel(s: Store, ambient: string, id: string, level: int)
    requires TimelinesOk(s.tables)
    ensures
      var ((s', r), t) := (Apply(s, ambient, SetEscalation(id, level)), Of(s.tables, Milestones));
      if id in t && t[id].tenant != "" && t[id].tenant != ambient then
        r == CrossTenant(t[id].tenant) && s' == s.(ledger := s'.ledger)
      else if id !in t then r == Missing && s' == s
      else
        && r == Done && s' == s.(tables := s'.tables)
        && Of(s'.tables, Milestones) == t[id := t[id].(body := MilestoneBody(t[id].body.milestone, level))]
        && forall k: Kind | k != Milestones :: Of(s'.tables, k) == Of(s.tables, k)
  {
  }
}
