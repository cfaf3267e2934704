/**
 The route that opens a transaction (`routes/transactions.py`), over the tenant-confined
 store it is wired to and the guard around it (`main.py`): what a read answers has passed the
 egress scrub for an operator, so its text is that of `text`.

 `OpenForListing` is the route as the source writes it. `Desk` cuts it at its store calls, with
 any number of requests of any tenants interleaved.
 */
module OpenRoute {
  import opened Common
  import Egress = EgressScrub
  import opened OpenTransaction
  import opened ScopedStores
  import opened StoredTerms

  predicate SameTerms(a: Transaction, b: Transaction) {
    a.contractDate == b.contractDate && a.closeDate == b.closeDate && a.parties == b.parties
  }

  /** 201, 200 and 409. */
  datatype Response = Created(shown: Transaction) | Replayed(shown: Transaction) | Conflict

  function ReplayOrConflict(existing: Transaction, requested: Transaction): Response {
    if SameTerms(existing, requested) then Replayed(existing) else Conflict
  }

  /** The rows handed to the store; it stamps them with the bound tenant. */
  function TransactionRow(t: Transaction): Row {
    Row(t.id, "", TransactionBody(true, t))
  }

  function MilestoneRows(ms: seq<Milestone>): seq<Row> {
    seq(|ms|, i requires 0 <= i < |ms| => Row(ms[i].id, "", MilestoneBody(ms[i], 0)))
  }

  /** The existing transaction a guarded read shows, if any. */
  function Existing(text: Egress.TextScrub, r: Result): Option<Transaction> {
    if r.One? && r.row.Some? && r.row.value.body.TransactionBody? then Some(ScrubTerms(text, r.row.value.body.terms))
    else None
  }

  function CreateOp(t: Transaction, ms: seq<Milestone>): Op {
    CreateTransaction(TransactionRow(t), MilestoneRows(ms))
  }

  /** The route's answer: a 422 before anything is read or stored, a response, or the exception
      it lets through. */
  datatype Reply = Unprocessable(why: Invalid) | Answer(response: Response) | Raises

  /** One undisturbed open: the store it leaves, and its answer. */
  function OpenOnce(text: Egress.TextScrub, s: Store, tenant: string, t: Transaction,
                    ms: seq<Milestone>): (Store, Reply) {
    var (s1, first) := Apply(s, tenant, Get(Transactions, t.id));
    if Existing(text, first).Some? then (s1, Answer(ReplayOrConflict(Existing(text, first).value, t)))
    else
      var (s2, made) := Apply(s1, tenant, CreateOp(t, ms));
      if made.Done? then (s2, Answer(Created(t)))
      else if !made.AlreadyExists? then (s2, Raises)
      else
        var (s3, again) := Apply(s2, tenant, Get(Transactions, t.id));
        (s3, if Existing(text, again).Some? then Answer(ReplayOrConflict(Existing(text, again).value, t)) else Raises)
  }

  method OpenForListing(text: Egress.TextScrub, store: ScopedStores, tenant: string, digest: string -> string,
                        listingKey: string, contractDate: int, closeDate: Option<int>, parties: seq<Party>)
    returns (reply: Reply)
    modifies store
    ensures
      match BuildOpen(digest, listingKey, contractDate, closeDate, parties, DEFAULT_TIMELINE)
      case Rejected(why) => reply == Unprocessable(why) && store.State() == old(store.State())
      case Built(t, ms) => (store.State(), reply) == OpenOnce(text, old(store.State()), tenant, t, ms)
  {
    match BuildOpen(digest, listingKey, contractDate, closeDate, parties, DEFAULT_TIMELINE)
    case Rejected(why) => return Unprocessable(why);
    case Built(t, ms) =>
      var existing := store.GetRow(Some(tenant), Transactions, t.id);
      if Existing(text, existing).Some? {
        return Answer(ReplayOrConflict(Existing(text, existing).value, t));
      }
      var made := store.CreateTransactionRows(Some(tenant), TransactionRow(t), MilestoneRows(ms));
      if made.Done? {
        return Answer(Created(t));
      }
      if !made.AlreadyExists? {
        return Raises;
      }
      existing := store.GetRow(Some(tenant), Transactions, t.id);
      if Existing(text, existing).None? {
        return Raises;
      }
      return Answer(ReplayOrConflict(Existing(text, existing).value, t));
  }

  /** One open request, suspended between two store calls. */
  datatype Opening = Opening(tenant: string, requested: Transaction, milestones: seq<Milestone>, phase: OpenPhase)
  datatype OpenPhase = Reading | Creating | Lost | Answered(response: Response) | Raised

  datatype Desk = Desk(store: Store, openings: map<nat, Opening>)

  datatype OpenEvent =
    | Arrive(n: nat, tenant: string, requested: Transaction, milestones: seq<Milestone>)
    | Advance(n: nat)
    | Abort(n: nat)

  function Move(d: Desk, n: nat, s: Store, phase: OpenPhase): Desk
    requires n in d.openings
  {
    Desk(s, d.openings[n := d.openings[n].(phase := phase)])
  }

  /** The next store call of request `n`. */
  function Proceed(text: Egress.TextScrub, d: Desk, n: nat): Desk
    requires n in d.openings
  {
    var o := d.openings[n];
    var (read, r) := Apply(d.store, o.tenant, Get(Transactions, o.requested.id));
    var existing := Existing(text, r);
    match o.phase
    case Reading =>
      Move(d, n, read,
           if existing.Some? then Answered(ReplayOrConflict(existing.value, o.requested)) else Creating)
    case Creating =>
      var (s, made) := Apply(d.store, o.tenant, CreateOp(o.requested, o.milestones));
      Move(d, n, s, if made.Done? then Answered(Created(o.requested)) else if made.AlreadyExists? then Lost else Raised)
    case Lost =>
      Move(d, n, read, if existing.Some? then Answered(ReplayOrConflict(existing.value, o.requested)) else Raised)
    case _ => d
  }

  function NextDesk(text: Egress.TextScrub, d: Desk, e: OpenEvent): Desk {
    match e
    case Arrive(n, tenant, t, ms) =>
      if n in d.openings then d else d.(openings := d.openings[n := Opening(tenant, t, ms, Reading)])
    case Advance(n) => if n in d.openings then Proceed(text, d, n) else d
    case Abort(n) =>
      if n in d.openings && !d.openings[n].phase.Answered? then Move(d, n, d.store, Raised) else d
  }

  function RunDesk(text: Egress.TextScrub, d: Desk, es: seq<OpenEvent>): Desk
    decreases |es|
  {
    if es == [] then d else RunDesk(text, NextDesk(text, d, es[0]), es[1..])
  }

  /** A desk with no request yet, over whatever transactions any tenants already hold. */
  ghost predicate InitDesk(d: Desk) {
    d.openings == map[] && RowsOk(d.store)
  }

  ghost predicate RowsOk(s: Store) {
    var t := Of(s.tables, Transactions);
    forall id | id in t :: t[id].id == id && t[id].body.TransactionBody?
  }

  /** The stored row of a transaction id shows to a tenant. */
  predicate Shows(s: Store, id: string, tenant: string) {
    id in Of(s.tables, Transactions) && !ForeignAt(Of(s.tables, Transactions), id, tenant)
  }

  function TermsOf(s: Store, id: string): Transaction
    requires id in Of(s.tables, Transactions) && Of(s.tables, Transactions)[id].body.TransactionBody?
  {
    Of(s.tables, Transactions)[id].body.terms
  }

  predicate OpeningOk(text: Egress.TextScrub, d: Desk, n: nat)
    requires n in d.openings
  {
    var (o, t) := (d.openings[n], Of(d.store.tables, Transactions));
    var id := o.requested.id;
    match o.phase
    case Lost => id in t
    case Answered(response) =>
      Shows(d.store, id, o.tenant) && t[id].body.TransactionBody? &&
      var terms := t[id].body.terms;
      (match response
       case Created(shown) => shown == o.requested == terms
       case Replayed(shown) => shown == ScrubTerms(text, terms) && SameTerms(shown, o.requested)
       case Conflict => !SameTerms(ScrubTerms(text, terms), o.requested))
    case _ => true
  }

  predicate Won(d: Desk, n: nat, id: string) {
    && n in d.openings && d.openings[n].requested.id == id
    && d.openings[n].phase.Answered? && d.openings[n].phase.response.Created?
  }

  ghost predicate DeskInv(text: Egress.TextScrub, d: Desk) {
    && RowsOk(d.store)
    && (forall n | n in d.openings :: OpeningOk(text, d, n))
    && (forall a, b, id | Won(d, a, id) && Won(d, b, id) :: a == b)
  }

  /** Transactions are only ever added. */
  ghost predicate Grows(s: Store, s': Store) {
    forall id :: Kept(Of(s.tables, Transactions), Of(s'.tables, Transactions), id)
  }

  predicate Kept(t: Table, t': Table, id: string) {
    id in t ==> id in t' && t'[id] == t[id]
  }

  /** What a read of one transaction shows. */
  lemma ReadShows(text: Egress.TextScrub, s: Store, tenant: string, id: string)
    requires RowsOk(s)
    ensures
      var (s', r) := Apply(s, tenant, Get(Transactions, id));
      && s'.tables == s.tables
      && Existing(text, r) == if Shows(s, id, tenant) then Some(ScrubTerms(text, TermsOf(s, id))) else None
  {
  }

  lemma OwnClaims(t: Transaction, ms: seq<Milestone>, tenant: string)
    ensures FirstForeign([TransactionRow(t)] + MilestoneRows(ms), tenant).None?
  {
    FirstForeignFinds([TransactionRow(t)] + MilestoneRows(ms), tenant);
  }

  /** What a create does: it is refused exactly when the id is taken, by whatever tenant. */
  lemma CreateStores(s: Store, tenant: string, t: Transaction, ms: seq<Milestone>)
    ensures
      var ((s', r), rows) := (Apply(s, tenant, CreateOp(t, ms)), Of(s.tables, Transactions));
      if t.id in rows then r == AlreadyExists && s' == s
      else r == Done && Of(s'.tables, Transactions) == rows[t.id := TransactionRow(t).(tenant := tenant)]
  {
    OwnClaims(t, ms, tenant);
  }

  /** A request moves on; the transactions grow at most by its own, which was absent. */
  lemma MoveKeepsInv(text: Egress.TextScrub, d: Desk, n: nat, s: Store, phase: OpenPhase)
    requires DeskInv(text, d) && n in d.openings && Grows(d.store, s) && RowsOk(s)
    requires OpeningOk(text, Move(d, n, s, phase), n)
    requires phase.Answered? && phase.response.Created? ==>
               d.openings[n].requested.id !in Of(d.store.tables, Transactions) || d.openings[n].phase == phase
    ensures DeskInv(text, Move(d, n, s, phase))
  {
    var d' := Move(d, n, s, phase);
    forall m | m in d'.openings
      ensures OpeningOk(text, d', m)
    {
      assert OpeningOk(text, d, m);
      assert Kept(Of(d.store.tables, Transactions), Of(s.tables, Transactions), d.openings[m].requested.id);
    }
    forall m, id | Won(d', m, id) && m != n
      ensures Won(d, m, id) && id in Of(d.store.tables, Transactions)
    {
      assert OpeningOk(text, d, m);
    }
    forall a, b, id | Won(d', a, id) && Won(d', b, id)
      ensures a == b
    {
      if a != n && b != n {
        assert Won(d, a, id) && Won(d, b, id);
      } else if a != b {
        var m := if a == n then b else a;
        assert Won(d, m, id) && id in Of(d.store.tables, Transactions);
        assert Won(d, n, id);
      }
    }
  }

  lemma ProceedKeepsInv(text: Egress.TextScrub, d: Desk, n: nat)
    requires DeskInv(text, d) && n in d.openings
    ensures DeskInv(text, Proceed(text, d, n)) && Grows(d.store, Proceed(text, d, n).store)
  {
    var (o, d') := (d.openings[n], Proceed(text, d, n));
    assert OpeningOk(text, d, n);
    ReadShows(text, d.store, o.tenant, o.requested.id);
    CreateStores(d.store, o.tenant, o.requested, o.milestones);
    if d' != d {
      MoveKeepsInv(text, d, n, d'.store, d'.openings[n].phase);
    }
  }

  lemma DeskStep(text: Egress.TextScrub, d: Desk, e: OpenEvent)
    requires DeskInv(text, d)
    ensures DeskInv(text, NextDesk(text, d, e)) && Grows(d.store, NextDesk(text, d, e).store)
  {
    match e
    case Arrive(_, _, _, _) =>
      var d' := NextDesk(text, d, e);
      forall n | n in d'.openings
        ensures OpeningOk(text, d', n)
      {
        assert n in d.openings ==> OpeningOk(text, d, n);
      }
      assert forall n, id :: Won(d', n, id) <==> Won(d, n, id);
    case Advance(n) =>
      if n in d.openings { ProceedKeepsInv(text, d, n); }
    case Abort(n) =>
      if n in d.openings { MoveKeepsInv(text, d, n, d.store, Raised); }
  }

  lemma {:induction false} DeskRun(text: Egress.TextScrub, d: Desk, es: seq<OpenEvent>)
    requires DeskInv(text, d)
    ensures DeskInv(text, RunDesk(text, d, es)) && Grows(d.store, RunDesk(text, d, es).store)
    decreases |es|
  {
    if es != [] {
      var d1 := NextDesk(text, d, es[0]);
      DeskStep(text, d, es[0]);
      DeskRun(text, d1, es[1..]);
      forall id
        ensures Kept(Of(d.store.tables, Transactions), Of(RunDesk(text, d, es).store.tables, Transactions), id)
      {
        assert Kept(Of(d.store.tables, Transactions), Of(d1.store.tables, Transactions), id);
        assert Kept(Of(d1.store.tables, Transactions), Of(RunDesk(text, d1, es[1..]).store.tables, Transactions), id);
      }
    }
  }

  /** The per-listing race, under any interleaving of any number of opens by any tenants, over
      any stored transactions: at most one create succeeds per transaction id; a 201 shows the
      stored terms, which are the requester's own; any other answer is a 200 or a 409 according to
      whether the stored terms, scrubbed, are those requested, and a 200 shows them; and none of
      them is ever answered over another tenant's row. */
  lemma OpenRace(text: Egress.TextScrub, d: Desk, es: seq<OpenEvent>, a: nat, b: nat)
    requires InitDesk(d)
    requires
      var d' := RunDesk(text, d, es);
      && a in d'.openings && b in d'.openings
      && d'.openings[a].requested.id == d'.openings[b].requested.id
      && d'.openings[a].phase.Answered? && d'.openings[b].phase.Answered?
    ensures
      var d' := RunDesk(text, d, es);
      var (oa, ob) := (d'.openings[a], d'.openings[b]);
      var (id, ra, rb) := (oa.requested.id, oa.phase.response, ob.phase.response);
      && Shows(d'.store, id, oa.tenant) && Shows(d'.store, id, ob.tenant) && RowsOk(d'.store)
      && (ra.Created? && rb.Created? ==> a == b)
      && var stored := TermsOf(d'.store, id);
      && (ra.Created? ==> ra.shown == oa.requested == stored)
      && (!ra.Created? ==> (ra.Conflict? <==> !SameTerms(ScrubTerms(text, stored), oa.requested)))
      && (ra.Replayed? ==> ra.shown == ScrubTerms(text, stored))
  {
    DeskRun(text, d, es);
    var d' := RunDesk(text, d, es);
    assert OpeningOk(text, d', a) && OpeningOk(text, d', b);
    var id := d'.openings[a].requested.id;
    if d'.openings[a].phase.response.Created? && d'.openings[b].phase.response.Created? {
      assert Won(d', a, id) && Won(d', b, id);
    }
  }

  /** Exactly when scrubbed reads decide every request right: the scrub leaves the stored parties
      as they are. */
  lemma ScrubbedReadDecidesIff(text: Egress.TextScrub, stored: Transaction)
    ensures (forall requested :: SameTerms(ScrubTerms(text, stored), requested) <==> SameTerms(stored, requested))
            <==> ScrubParties(text, stored.parties) == stored.parties
  {
    assert SameTerms(stored, stored);
  }

  /** Exactly when an identical repeat is the replay it is promised to be, and not a conflict: the
      scrub leaves the requested parties as they are. */
  lemma RepeatIsReplayedIff(text: Egress.TextScrub, s: Store, tenant: string, t: Transaction, ms: seq<Milestone>)
    requires RowsOk(s) && t.id !in Of(s.tables, Transactions)
    ensures
      var (s1, first) := OpenOnce(text, s, tenant, t, ms);
      var (s2, again) := OpenOnce(text, s1, tenant, t, ms);
      && first == Answer(Created(t)) && s2 == s1
      && again == Answer(if ScrubParties(text, t.parties) == t.parties then Replayed(ScrubTerms(text, t)) else Conflict)
  {
    var (s0, _) := Apply(s, tenant, Get(Transactions, t.id));
    ReadShows(text, s, tenant, t.id);
    CreateStores(s0, tenant, t, ms);
    var s1 := OpenOnce(text, s, tenant, t, ms).0;
    assert Of(s1.tables, Transactions) == Of(s.tables, Transactions)[t.id := TransactionRow(t).(tenant := tenant)];
    ReadShows(text, s1, tenant, t.id);
  }

  /** The input: a party named by text shaped like a secret opens the listing once, and the same
      request again is answered as a conflict. Asking for the redacted name instead, which is not
      what is stored, is answered as a replay. */
  lemma SecretShapedParty(text: Egress.TextScrub, tenant: string, t: Transaction, ms: seq<Milestone>)
    requires text("sk-0123456789abcdef0") == Egress.SECRET_REDACTED
    requires text("") == "" && text("buyer") == "buyer"
    requires t.parties == [Party("buyer", "sk-0123456789abcdef0", None, "")]
    ensures
      var empty := Store(map[], map[], []);
      var redacted := t.(parties := [Party("buyer", Egress.SECRET_REDACTED, None, "")]);
      var (s1, first) := OpenOnce(text, empty, tenant, t, ms);
      && first == Answer(Created(t)) && OpenOnce(text, s1, tenant, t, ms).1 == Answer(Conflict)
      && OpenOnce(text, s1, tenant, redacted, ms).1 == Answer(Replayed(ScrubTerms(text, t)))
  {
    var empty := Store(map[], map[], []);
    var redacted := t.(parties := [Party("buyer", Egress.SECRET_REDACTED, None, "")]);
    RepeatIsReplayedIff(text, empty, tenant, t, ms);
    assert ScrubParties(text, t.parties)[0] == redacted.parties[0] != t.parties[0];
    assert ScrubParties(text, t.parties) == redacted.parties;
    var s1 := OpenOnce(text, empty, tenant, t, ms).0;
    assert Existing(text, Apply(s1, tenant, Get(Transactions, t.id)).1) == Some(ScrubTerms(text, t));
  }

  /** Exactly when the re-read after a lost create finds the winner: the stored row is not
      another tenant's. Otherwise the request raises, leaving one security line. */
  lemma LostFindsWinnerIff(text: Egress.TextScrub, d: Desk, es: seq<OpenEvent>, n: nat)
    requires InitDesk(d)
    requires var d' := RunDesk(text, d, es); n in d'.openings && d'.openings[n].phase.Lost?
    ensures
      var d' := RunDesk(text, d, es);
      var (o, rows, next) := (d'.openings[n], Of(d'.store.tables, Transactions), Proceed(text, d', n));
      && o.requested.id in rows
      && (next.openings[n].phase.Answered? <==> !IsForeign(rows[o.requested.id].tenant, o.tenant))
      && (!next.openings[n].phase.Answered? ==>
            && next.openings[n].phase == Raised
            && next.store.ledger ==
               d'.store.ledger + [Denial("get_transaction", rows[o.requested.id].tenant, o.tenant)])
  {
    DeskRun(text, d, es);
    var d' := RunDesk(text, d, es);
    assert OpeningOk(text, d', n);
    ReadShows(text, d'.store, d'.openings[n].tenant, d'.openings[n].requested.id);
  }

  /** The input: tenant A has opened the listing, so tenant B's open of it ends in the exception. */
  lemma ForeignWinnerIsHidden(text: Egress.TextScrub, t: Transaction, ms: seq<Milestone>)
    ensures
      var held := Store(map[Transactions := map[t.id := TransactionRow(t).(tenant := "A")]], map[], []);
      var (s', reply) := OpenOnce(text, held, "B", t, ms);
      && reply == Raises && s'.tables == held.tables
      && s'.ledger == [Denial("get_transaction", "A", "B"), Denial("get_transaction", "A", "B")]
  {
    var held := Store(map[Transactions := map[t.id := TransactionRow(t).(tenant := "A")]], map[], []);
    var (s1, _) := Apply(held, "B", Get(Transactions, t.id));
    CreateStores(s1, "B", t, ms);
    assert [] + [Denial("get_transaction", "A", "B")] == [Denial("get_transaction", "A", "B")];
  }

  function PhaseOf(reply: Reply): OpenPhase {
    if reply.Answer? then Answered(reply.response) else Raised
  }

  /** The route's undisturbed open is one of the interleaved runs. */
  lemma OpenIsARun(text: Egress.TextScrub, d: Desk, n: nat, tenant: string, t: Transaction, ms: seq<Milestone>)
    requires n !in d.openings
    ensures
      var (s', reply) := OpenOnce(text, d.store, tenant, t, ms);
      RunDesk(text, d, [Arrive(n, tenant, t, ms), Advance(n), Advance(n), Advance(n)])
      == Desk(s', d.openings[n := Opening(tenant, t, ms, PhaseOf(reply))])
  {
    var d1 := NextDesk(text, d, Arrive(n, tenant, t, ms));
    var d2 := Proceed(text, d1, n);
    var d3 := Proceed(text, d2, n);
    AdvanceThrice(text, d, Arrive(n, tenant, t, ms), n);
    assert d.openings[n := Opening(tenant, t, ms, Reading)].Keys == d.openings.Keys + {n};
    if !d2.openings[n].phase.Answered? && d3.openings[n].phase.Lost? {
      assert Proceed(text, d3, n).openings == d.openings[n := Proceed(text, d3, n).openings[n]];
    }
  }

  lemma AdvanceThrice(text: Egress.TextScrub, d: Desk, e: OpenEvent, n: nat)
    requires n in NextDesk(text, d, e).openings
    ensures RunDesk(text, d, [e, Advance(n), Advance(n), Advance(n)])
            == Proceed(text, Proceed(text, Proceed(text, NextDesk(text, d, e), n), n), n)
  {
    var d1 := NextDesk(text, d, e);
    var d3 := Proceed(text, Proceed(text, d1, n), n);
    assert RunDesk(text, d3, [Advance(n)]) == RunDesk(text, Proceed(text, d3, n), []);
    assert RunDesk(text, Proceed(text, d1, n), [Advance(n), Advance(n)]) == RunDesk(text, d3, [Advance(n)]);
    assert RunDesk(text, d1, [Advance(n), Advance(n), Advance(n)])
           == RunDesk(text, Proceed(text, d1, n), [Advance(n), Advance(n)]);
  }

  lemma {:induction false} PutAllStores(t: Table, rows: seq<Row>)
    requires forall i, j | 0 <= i < j < |rows| :: rows[i].id != rows[j].id
    ensures forall r | r in rows :: r.id in PutAll(t, rows) && PutAll(t, rows)[r.id] == r
    decreases |rows|
  {
    if rows != [] {
      var (first, rest) := (rows[0], rows[1..]);
      assert forall i | 0 <= i < |rest| :: rest[i] == rows[i + 1];
      PutAllStores(t[first.id := first], rest);
      PutAllRows(t[first.id := first], rest);
      assert forall r | r in rest :: r.id != first.id;
      assert forall r | r in rows :: r == first || r in rest;
    }
  }

  /** A 201 leaves the transaction and its whole timeline stored under the requester's tenant. */
  lemma CreatedIsStored(text: Egress.TextScrub, s: Store, tenant: string, digest: string -> string,
                        listingKey: string, contractDate: int, closeDate: Option<int>, parties: seq<Party>)
    requires
      var built := BuildOpen(digest, listingKey, contractDate, closeDate, parties, DEFAULT_TIMELINE);
      && RowsOk(s) && built.Built?
      && OpenOnce(text, s, tenant, built.transaction, built.milestones).1 == Answer(Created(built.transaction))
    ensures
      var built := BuildOpen(digest, listingKey, contractDate, closeDate, parties, DEFAULT_TIMELINE);
      var (t, s') := (built.transaction, OpenOnce(text, s, tenant, built.transaction, built.milestones).0);
      && t.id in Of(s'.tables, Transactions)
      && Of(s'.tables, Transactions)[t.id] == TransactionRow(t).(tenant := tenant)
      && forall r | r in Stamped(MilestoneRows(built.milestones), tenant) ::
           r.id in Of(s'.tables, Milestones) && Of(s'.tables, Milestones)[r.id] == r
  {
    var built := BuildOpen(digest, listingKey, contractDate, closeDate, parties, DEFAULT_TIMELINE);
    BuildOpenSpec(digest, listingKey, contractDate, closeDate, parties, DEFAULT_TIMELINE);
    var (t, stamped) := (built.transaction, Stamped(MilestoneRows(built.milestones), tenant));
    assert forall i | 0 <= i < |stamped| :: stamped[i].id == built.milestones[i].id;
    PutAllStores(Of(s.tables, Milestones), stamped);
    CreatedTables(text, s, tenant, t, built.milestones);
  }

  /** The tables after a 201. */
  lemma CreatedTables(text: Egress.TextScrub, s: Store, tenant: string, t: Transaction, ms: seq<Milestone>)
    requires RowsOk(s) && OpenOnce(text, s, tenant, t, ms).1 == Answer(Created(t))
    ensures
      var ts := OpenOnce(text, s, tenant, t, ms).0.tables;
      && Of(ts, Transactions) == Of(s.tables, Transactions)[t.id := TransactionRow(t).(tenant := tenant)]
      && Of(ts, Milestones) == PutAll(Of(s.tables, Milestones), Stamped(MilestoneRows(ms), tenant))
  {
  }

  /** The rows a create hands over: an active transaction with its terms, and the milestones at
      escalation level 0, all unstamped. */
  lemma RowsHandedOver(t: Transaction, ms: seq<Milestone>)
    ensures TransactionRow(t) == Row(t.id, "", TransactionBody(true, t)) && |MilestoneRows(ms)| == |ms|
    ensures forall i | 0 <= i < |ms| :: MilestoneRows(ms)[i] == Row(ms[i].id, "", MilestoneBody(ms[i], 0))
  {
  }

  /** An open of a listing the tenant already holds: a replay that shows the stored terms, scrubbed, if
      both dates and the scrubbed parties are those requested, and otherwise a conflict; and nothing
      is stored. */
  lemma HeldListingAnswers(text: Egress.TextScrub, s: Store, tenant: string, t: Transaction, ms: seq<Milestone>)
    requires RowsOk(s) && Shows(s, t.id, tenant)
    ensures
      var held := TermsOf(s, t.id);
      OpenOnce(text, s, tenant, t, ms)
      == (s, Answer(if held.contractDate == t.contractDate && held.closeDate == t.closeDate
                       && ScrubParties(text, held.parties) == t.parties
                    then Replayed(ScrubTerms(text, held)) else Conflict))
  {
    ReadShows(text, s, tenant, t.id);
  }

  /** A request arrives once under its number, and may raise at any moment before its answer. */
  lemma RequestsComeAndGo(text: Egress.TextScrub, d: Desk, n: nat, tenant: string, t: Transaction, ms: seq<Milestone>)
    ensures
      var (arrived, aborted) := (NextDesk(text, d, Arrive(n, tenant, t, ms)), NextDesk(text, d, Abort(n)));
      && arrived == (if n in d.openings then d
                     else d.(openings := d.openings[n := Opening(tenant, t, ms, Reading)]))
      && aborted == (if n !in d.openings || d.openings[n].phase.Answered? then d
                     else d.(openings := d.openings[n := d.openings[n].(phase := Raised)]))
  {
  }
}
