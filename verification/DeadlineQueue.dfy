/**
 Milestone assessment and the coordinator's deadline queue (`services/milestone_engine.py`).
 Dates are day ordinals; strings compare lexicographically by code point.
 */
module DeadlineQueue {
  import opened Common
  import opened OpenTransaction

  const DUE_SOON_DAYS := 3

  datatype Class = OnTrack | DueSoon | Overdue | BlockedExternal

  datatype Status = Pending | Complete | Waived

  datatype Tracked = Tracked(id: string, transactionId: string, kind: MilestoneType, title: string, dueDate: int,
                             status: Status, blockedReason: Option<string>)

  datatype Assessment = Assessment(milestoneId: string, classification: Class, daysUntilDue: int)

  datatype Item = Item(milestone: Tracked, classification: Class, daysUntilDue: int)

  /** Position in `SEVERITY_ORDER`. */
  function SeverityRank(c: Class): nat {
    match c
    case Overdue => 0
    case DueSoon => 1
    case BlockedExternal => 2
    case OnTrack => 3
  }

  function Assess(m: Tracked, today: int): Assessment {
    var days := m.dueDate - today;
    var c :=
      if m.blockedReason.Some? && m.blockedReason.value != "" then BlockedExternal
      else if days < 0 then Overdue
      else if days <= DUE_SOON_DAYS then DueSoon
      else OnTrack;
    Assessment(m.id, c, days)
  }

  /** `assess_milestones`: pending ones only, in input order. */
  function AssessAll(ms: seq<Tracked>, today: int): seq<Assessment> {
    if ms == [] then []
    else (if ms[0].status.Pending? then [Assess(ms[0], today)] else []) + AssessAll(ms[1..], today)
  }

  /** `worst_classification`: the first class of the severity order that is present. */
  function Worst(assessments: seq<Assessment>): Class {
    var present := set a | a in assessments :: a.classification;
    if Overdue in present then Overdue
    else if DueSoon in present then DueSoon
    else if BlockedExternal in present then BlockedExternal
    else OnTrack
  }

  function ById(ms: seq<Tracked>): map<string, Tracked> {
    if ms == [] then map[] else ById(ms[..|ms| - 1])[ms[|ms| - 1].id := ms[|ms| - 1]]
  }

  function Listed(byId: map<string, Tracked>, assessments: seq<Assessment>): seq<Item>
    requires forall a | a in assessments :: a.milestoneId in byId
  {
    if assessments == [] then []
    else
      var a := assessments[0];
      (if a.classification.OnTrack? then [] else [Item(byId[a.milestoneId], a.classification, a.daysUntilDue)])
      + Listed(byId, assessments[1..])
  }

  predicate LexBelow(a: string, b: string) {
    a == [] || (b != [] && (a[0] < b[0] || (a[0] == b[0] && LexBelow(a[1..], b[1..]))))
  }

  /** `_urgency_key` order: severity, then days, then the two ids. */
  predicate NoLaterThan(a: Item, b: Item) {
    var (ra, rb) := (SeverityRank(a.classification), SeverityRank(b.classification));
    var (ma, mb) := (a.milestone, b.milestone);
    || ra < rb
    || (ra == rb && a.daysUntilDue < b.daysUntilDue)
    || (ra == rb && a.daysUntilDue == b.daysUntilDue && ma.transactionId != mb.transactionId
        && LexBelow(ma.transactionId, mb.transactionId))
    || (ra == rb && a.daysUntilDue == b.daysUntilDue && ma.transactionId == mb.transactionId
        && LexBelow(ma.id, mb.id))
  }

  function Insert(x: Item, sorted: seq<Item>): seq<Item> {
    if sorted == [] || NoLaterThan(x, sorted[0]) then [x] + sorted else [sorted[0]] + Insert(x, sorted[1..])
  }

  /** A stable sort by urgency, as the library's `sort` gives. */
  function SortByUrgency(items: seq<Item>): seq<Item> {
    if items == [] then [] else Insert(items[0], SortByUrgency(items[1..]))
  }

  lemma {:induction false} ByIdKeys(ms: seq<Tracked>)
    ensures forall m | m in ms :: m.id in ById(ms)
  {
    if ms != [] {
      ByIdKeys(ms[..|ms| - 1]);
      assert ms == ms[..|ms| - 1] + [ms[|ms| - 1]];
    }
  }

  lemma {:induction false} AssessedAreListed(ms: seq<Tracked>, today: int)
    ensures forall a | a in AssessAll(ms, today) :: exists m :: m in ms && m.status.Pending? && a == Assess(m, today)
    ensures forall m | m in ms && m.status.Pending? :: Assess(m, today) in AssessAll(ms, today)
  {
    if ms != [] {
      AssessedAreListed(ms[1..], today);
      assert forall m :: m in ms <==> m == ms[0] || m in ms[1..];
    }
  }

  /** `build_deadline_queue`. */
  function BuildQueue(ms: seq<Tracked>, today: int): seq<Item> {
    ByIdKeys(ms);
    AssessedAreListed(ms, today);
    SortByUrgency(Listed(ById(ms), AssessAll(ms, today)))
  }

  predicate UniqueIds(ms: seq<Tracked>) {
    forall i, j | 0 <= i < j < |ms| :: ms[i].id != ms[j].id
  }

  predicate Sorted(items: seq<Item>) {
    forall i, j | 0 <= i < j < |items| :: NoLaterThan(items[i], items[j])
  }

  /** The entry a milestone deserves, when it deserves one. */
  function ItemOf(m: Tracked, today: int): Item {
    Item(m, Assess(m, today).classification, Assess(m, today).daysUntilDue)
  }

  predicate NeedsAttention(m: Tracked, today: int) {
    m.status.Pending? && !Assess(m, today).classification.OnTrack?
  }

  /** The queue's intended contents, with no reference to the lookup table or the order. */
  function Deserved(ms: seq<Tracked>, today: int): multiset<Item> {
    if ms == [] then multiset{}
    else
      (if NeedsAttention(ms[0], today) then multiset{ItemOf(ms[0], today)} else multiset{})
      + Deserved(ms[1..], today)
  }

  lemma {:induction false} LexTotal(a: string, b: string)
    ensures LexBelow(a, b) || LexBelow(b, a)
    ensures LexBelow(a, b) && LexBelow(b, a) ==> a == b
  {
    if a != [] && b != [] && a[0] == b[0] {
      LexTotal(a[1..], b[1..]);
      assert a == [a[0]] + a[1..] && b == [b[0]] + b[1..];
    }
  }

  lemma {:induction false} LexTransitive(a: string, b: string, c: string)
    requires LexBelow(a, b) && LexBelow(b, c)
    ensures LexBelow(a, c)
  {
    if a != [] && a[0] == b[0] == c[0] {
      LexTransitive(a[1..], b[1..], c[1..]);
    }
  }

  lemma OrderTotal(a: Item, b: Item)
    ensures NoLaterThan(a, b) || NoLaterThan(b, a)
    ensures NoLaterThan(a, b) && NoLaterThan(b, a) ==>
              a.milestone.id == b.milestone.id && a.milestone.transactionId == b.milestone.transactionId
  {
    LexTotal(a.milestone.transactionId, b.milestone.transactionId);
    LexTotal(a.milestone.id, b.milestone.id);
  }

  lemma OrderTransitive(a: Item, b: Item, c: Item)
    requires NoLaterThan(a, b) && NoLaterThan(b, c)
    ensures NoLaterThan(a, c)
  {
    var (ta, tb, tc) := (a.milestone.transactionId, b.milestone.transactionId, c.milestone.transactionId);
    if LexBelow(ta, tb) && LexBelow(tb, tc) {
      LexTransitive(ta, tb, tc);
      LexTotal(ta, tb);
      LexTotal(tb, tc);
      LexTotal(ta, tc);
    }
    if LexBelow(a.milestone.id, b.milestone.id) && LexBelow(b.milestone.id, c.milestone.id) {
      LexTransitive(a.milestone.id, b.milestone.id, c.milestone.id);
    }
  }

  lemma {:induction false} InsertSorts(x: Item, sorted: seq<Item>)
    requires Sorted(sorted)
    ensures Sorted(Insert(x, sorted)) && multiset(Insert(x, sorted)) == multiset{x} + multiset(sorted)
  {
    if sorted == [] {
    } else if NoLaterThan(x, sorted[0]) {
      forall j | 0 < j < |sorted|
        ensures NoLaterThan(x, sorted[j])
      {
        OrderTransitive(x, sorted[0], sorted[j]);
      }
    } else {
      OrderTotal(x, sorted[0]);
      InsertSorts(x, sorted[1..]);
      assert sorted == [sorted[0]] + sorted[1..];
      var rest := Insert(x, sorted[1..]);
      forall y | y in rest
        ensures NoLaterThan(sorted[0], y)
      {
        assert y in multiset(rest);
        if y != x {
          assert y in multiset(sorted[1..]);
          assert y in sorted[1..];
        }
      }
      assert forall j | 0 <= j < |rest| :: rest[j] in rest;
    }
  }

  lemma {:induction false} SortSorts(items: seq<Item>)
    ensures Sorted(SortByUrgency(items)) && multiset(SortByUrgency(items)) == multiset(items)
  {
    if items != [] {
      SortSorts(items[1..]);
      InsertSorts(items[0], SortByUrgency(items[1..]));
      assert items == [items[0]] + items[1..];
    }
  }

  /** Items that differ carry different milestone ids. */
  ghost predicate IdsSeparate(items: multiset<Item>) {
    (forall a, b | a in items && b in items && a.milestone.id == b.milestone.id :: a == b)
    && forall a | a in items :: items[a] == 1
  }

  /** There is only one urgency-sorted arrangement of items with separate ids. */
  lemma {:induction false} SortedIsUnique(a: seq<Item>, b: seq<Item>)
    requires Sorted(a) && Sorted(b) && multiset(a) == multiset(b) && IdsSeparate(multiset(a))
    ensures a == b
    decreases |a|
  {
    if a == [] {
      assert |multiset(b)| == 0;
    } else {
      HeadsAgree(a, b);
      TailOf(a);
      TailOf(b);
      SortedIsUnique(a[1..], b[1..]);
    }
  }

  lemma TailOf(a: seq<Item>)
    requires a != []
    ensures a == [a[0]] + a[1..] && multiset(a[1..]) == multiset(a) - multiset{a[0]}
    ensures Sorted(a) ==> Sorted(a[1..])
    ensures IdsSeparate(multiset(a)) ==> IdsSeparate(multiset(a[1..]))
  {
    assert a == [a[0]] + a[1..];
    var (whole, tail) := (multiset(a), multiset(a[1..]));
    assert tail == whole - multiset{a[0]};
    assert forall x | x in tail :: x in whole && tail[x] <= whole[x];
  }

  /** Each head is somewhere in the other sequence, so neither is later than the other. */
  lemma HeadsAgree(a: seq<Item>, b: seq<Item>)
    requires Sorted(a) && Sorted(b) && multiset(a) == multiset(b) && IdsSeparate(multiset(a)) && a != []
    ensures b != [] && a[0] == b[0]
  {
    assert a[0] in multiset(b) && a[0] in b;
    assert b[0] in multiset(a) && b[0] in a;
    var i :| 0 <= i < |b| && b[i] == a[0];
    var j :| 0 <= j < |a| && a[j] == b[0];
    if i > 0 && j > 0 {
      assert NoLaterThan(b[0], b[i]) && NoLaterThan(a[0], a[j]);
      OrderTotal(a[0], b[0]);
    }
  }

  lemma {:induction false} ByIdFindsUnique(ms: seq<Tracked>)
    requires UniqueIds(ms)
    ensures forall m | m in ms :: m.id in ById(ms) && ById(ms)[m.id] == m
  {
    if ms != [] {
      var (init, last) := (ms[..|ms| - 1], ms[|ms| - 1]);
      ByIdFindsUnique(init);
      assert ms == init + [last];
      forall m | m in init
        ensures m.id != last.id
      {
        var i :| 0 <= i < |init| && init[i] == m;
        assert ms[i] == m;
      }
    }
  }

  lemma {:induction false} ListedContents(byId: map<string, Tracked>, ms: seq<Tracked>, today: int)
    requires forall m | m in ms :: m.id in byId && byId[m.id] == m
    requires forall a | a in AssessAll(ms, today) :: a.milestoneId in byId
    ensures multiset(Listed(byId, AssessAll(ms, today))) == Deserved(ms, today)
  {
    if ms != [] {
      var rest := AssessAll(ms[1..], today);
      assert ms[0] in ms;
      if ms[0].status.Pending? {
        assert AssessAll(ms, today) == [Assess(ms[0], today)] + rest;
        assert AssessAll(ms, today)[1..] == rest;
      } else {
        assert AssessAll(ms, today) == rest;
      }
      assert forall a | a in rest :: a in AssessAll(ms, today);
      ListedContents(byId, ms[1..], today);
    }
  }

  lemma {:induction false} DeservedMembers(ms: seq<Tracked>, today: int)
    ensures forall x :: x in Deserved(ms, today) <==>
              exists m :: m in ms && NeedsAttention(m, today) && x == ItemOf(m, today)
  {
    if ms != [] {
      var rest := ms[1..];
      DeservedMembers(rest, today);
      assert ms == [ms[0]] + rest;
      forall x
        ensures x in Deserved(ms, today) <==> exists m :: m in ms && NeedsAttention(m, today) && x == ItemOf(m, today)
      {
        if x in Deserved(rest, today) {
          var m :| m in rest && NeedsAttention(m, today) && x == ItemOf(m, today);
          assert m in ms;
        }
        if NeedsAttention(ms[0], today) && x == ItemOf(ms[0], today) {
          assert ms[0] in ms;
        }
      }
    }
  }

  lemma {:induction false} DeservedIdsSeparate(ms: seq<Tracked>, today: int)
    requires UniqueIds(ms)
    ensures IdsSeparate(Deserved(ms, today))
  {
    if ms != [] {
      var (rest, others) := (ms[1..], Deserved(ms[1..], today));
      assert forall i | 0 <= i < |rest| :: rest[i] == ms[i + 1];
      DeservedIdsSeparate(rest, today);
      DeservedMembers(rest, today);
      forall x | x in others
        ensures x.milestone.id != ms[0].id
      {
        var m :| m in rest && x == ItemOf(m, today);
      }
      AddedIdSeparate(ItemOf(ms[0], today), others);
    }
  }

  lemma AddedIdSeparate(x: Item, items: multiset<Item>)
    requires IdsSeparate(items) && forall y | y in items :: y.milestone.id != x.milestone.id
    ensures IdsSeparate(multiset{x} + items)
  {
  }

  /** The deadline queue is the one urgency-sorted arrangement of exactly the pending
      milestones that are not on track. */
  lemma QueueSpec(ms: seq<Tracked>, today: int)
    requires UniqueIds(ms)
    ensures
      var q := BuildQueue(ms, today);
      && Sorted(q) && multiset(q) == Deserved(ms, today)
      && forall other | Sorted(other) && multiset(other) == Deserved(ms, today) :: other == q
  {
    ByIdKeys(ms);
    AssessedAreListed(ms, today);
    ByIdFindsUnique(ms);
    ListedContents(ById(ms), ms, today);
    SortSorts(Listed(ById(ms), AssessAll(ms, today)));
    DeservedIdsSeparate(ms, today);
    var q := BuildQueue(ms, today);
    forall other | Sorted(other) && multiset(other) == Deserved(ms, today)
      ensures other == q
    {
      SortedIsUnique(other, q);
    }
  }

  lemma {:induction false} DeservedSkips(a: seq<Tracked>, x: Tracked, b: seq<Tracked>, today: int)
    ensures Deserved(a + [x] + b, today) ==
            (if NeedsAttention(x, today) then multiset{ItemOf(x, today)} else multiset{}) + Deserved(a + b, today)
  {
    if a == [] {
      assert a + [x] + b == [x] + b && a + b == b;
    } else {
      assert (a + [x] + b)[1..] == a[1..] + [x] + b;
      assert (a + b)[1..] == a[1..] + b;
      DeservedSkips(a[1..], x, b, today);
    }
  }

  lemma RemovedAt(b: seq<Tracked>, i: nat)
    requires i < |b|
    ensures b == b[..i] + [b[i]] + b[i + 1..]
    ensures multiset(b[..i] + b[i + 1..]) == multiset(b) - multiset{b[i]}
  {
    assert b == b[..i] + [b[i]] + b[i + 1..];
  }

  lemma {:induction false} DeservedPermutes(a: seq<Tracked>, b: seq<Tracked>, today: int)
    requires multiset(a) == multiset(b)
    ensures Deserved(a, today) == Deserved(b, today)
    decreases |a|
  {
    if a == [] {
      assert |multiset(b)| == 0;
    } else {
      assert a[0] in multiset(a) && a[0] in b;
      var i :| 0 <= i < |b| && b[i] == a[0];
      RemovedAt(b, i);
      RemovedAt(a, 0);
      assert a[..0] + a[1..] == a[1..];
      DeservedSkips(b[..i], a[0], b[i + 1..], today);
      DeservedPermutes(a[1..], b[..i] + b[i + 1..], today);
    }
  }

  /** The queue does not depend on the order the milestones arrive in. */
  lemma QueueIgnoresInputOrder(a: seq<Tracked>, b: seq<Tracked>, today: int)
    requires UniqueIds(a) && UniqueIds(b) && multiset(a) == multiset(b)
    ensures BuildQueue(a, today) == BuildQueue(b, today)
  {
    QueueSpec(a, today);
    QueueSpec(b, today);
    DeservedPermutes(a, b, today);
  }

  ghost predicate HasItem(items: seq<Item>, c: Class) {
    exists x :: x in items && x.classification == c
  }

  ghost predicate HasAssessment(assessments: seq<Assessment>, c: Class) {
    exists a :: a in assessments && a.classification == c
  }

  lemma HasItemCons(x: Item, items: seq<Item>, c: Class)
    ensures HasItem([x] + items, c) <==> x.classification == c || HasItem(items, c)
  {
  }

  lemma HasAssessmentCons(assessments: seq<Assessment>, c: Class)
    requires assessments != []
    ensures HasAssessment(assessments, c) <==> assessments[0].classification == c || HasAssessment(assessments[1..], c)
  {
  }

  lemma {:induction false} ListedClasses(byId: map<string, Tracked>, assessments: seq<Assessment>, c: Class)
    requires forall a | a in assessments :: a.milestoneId in byId
    ensures HasItem(Listed(byId, assessments), c) <==> !c.OnTrack? && HasAssessment(assessments, c)
  {
    if assessments != [] {
      var a := assessments[0];
      ListedClasses(byId, assessments[1..], c);
      HasAssessmentCons(assessments, c);
      var rest := Listed(byId, assessments[1..]);
      HasItemCons(Item(byId[a.milestoneId], a.classification, a.daysUntilDue), rest, c);
      assert [] + rest == rest;
    }
  }

  lemma WorstIsWorst(assessments: seq<Assessment>)
    ensures forall c | HasAssessment(assessments, c) :: SeverityRank(Worst(assessments)) <= SeverityRank(c)
    ensures Worst(assessments).OnTrack? || HasAssessment(assessments, Worst(assessments))
  {
  }

  lemma HeadIsMostSevere(q: seq<Item>, c: Class)
    requires Sorted(q) && HasItem(q, c)
    ensures SeverityRank(q[0].classification) <= SeverityRank(c)
  {
  }

  lemma SortKeepsClasses(items: seq<Item>, c: Class)
    ensures HasItem(SortByUrgency(items), c) <==> HasItem(items, c)
  {
    SortSorts(items);
    assert forall x :: x in SortByUrgency(items) <==> x in multiset(SortByUrgency(items));
    assert forall x :: x in items <==> x in multiset(items);
  }

  /** Queue and routing agree: the queue is empty exactly when the worst classification is on
      track, and otherwise its head carries that worst classification. */
  lemma QueueMatchesWorst(ms: seq<Tracked>, today: int)
    ensures
      var (q, worst) := (BuildQueue(ms, today), Worst(AssessAll(ms, today)));
      (q == [] <==> worst.OnTrack?) && (q != [] ==> q[0].classification == worst)
  {
    ByIdKeys(ms);
    AssessedAreListed(ms, today);
    var assessments := AssessAll(ms, today);
    var items := Listed(ById(ms), assessments);
    var q := BuildQueue(ms, today);
    SortSorts(items);
    forall c: Class
      ensures HasItem(q, c) <==> !c.OnTrack? && HasAssessment(assessments, c)
    {
      SortKeepsClasses(items, c);
      ListedClasses(ById(ms), assessments, c);
    }
    QueueHead(q, assessments);
  }

  lemma QueueHead(q: seq<Item>, assessments: seq<Assessment>)
    requires Sorted(q) && forall c :: HasItem(q, c) <==> !c.OnTrack? && HasAssessment(assessments, c)
    ensures q == [] <==> Worst(assessments).OnTrack?
    ensures q != [] ==> q[0].classification == Worst(assessments)
  {
    var worst := Worst(assessments);
    WorstIsWorst(assessments);
    assert HasItem(q, worst) <==> !worst.OnTrack?;
    if q != [] {
      var head := q[0].classification;
      assert q[0] in q && HasItem(q, head);
      HeadIsMostSevere(q, worst);
    }
  }

  /** The class of a milestone: blocked if it has a reason, else by the days left, of which three
      count as soon. */
  lemma AssessIff(m: Tracked, today: int)
    ensures
      var a := Assess(m, today);
      && a.milestoneId == m.id && a.daysUntilDue == m.dueDate - today
      && (a.classification == BlockedExternal <==> m.blockedReason.Some? && m.blockedReason.value != "")
      && (a.classification == Overdue <==> a.classification != BlockedExternal && m.dueDate < today)
      && (a.classification == DueSoon <==> a.classification != BlockedExternal && today <= m.dueDate <= today + 3)
      && (a.classification == OnTrack <==> a.classification != BlockedExternal && m.dueDate > today + 3)
  {
  }

  /** The worst class: present, and no other that is present comes before it; on track if none is. */
  lemma WorstIff(assessments: seq<Assessment>)
    ensures
      var worst := Worst(assessments);
      && (worst == Overdue <==> exists a :: a in assessments && a.classification == Overdue)
      && (worst == DueSoon <==> worst != Overdue && exists a :: a in assessments && a.classification == DueSoon)
      && (worst == BlockedExternal <==>
            worst !in {Overdue, DueSoon} && exists a :: a in assessments && a.classification == BlockedExternal)
  {
    var present := set a | a in assessments :: a.classification;
    assert forall c :: c in present <==> exists a :: a in assessments && a.classification == c;
  }

  /** The two agree up to some point, where `a` ends or has the smaller character. */
  predicate PartsBelow(a: string, b: string, k: nat) {
    k <= |a| && k <= |b| && a[..k] == b[..k] && (k == |a| || (k < |b| && a[k] < b[k]))
  }

  lemma {:induction false} LexBelowIff(a: string, b: string)
    ensures LexBelow(a, b) <==> exists k: nat :: PartsBelow(a, b, k)
  {
    if a == [] {
      assert PartsBelow(a, b, 0);
    } else if b != [] && a[0] == b[0] {
      var (x, y) := (a[1..], b[1..]);
      assert a == [a[0]] + x && b == [b[0]] + y;
      LexBelowIff(x, y);
      if k: nat :| PartsBelow(x, y, k) {
        assert a[..k + 1] == [a[0]] + x[..k] && b[..k + 1] == [b[0]] + y[..k];
        assert PartsBelow(a, b, k + 1);
      }
      if k: nat :| PartsBelow(a, b, k) {
        assert k > 0 && k <= |b|;
        assert x[..k - 1] == a[..k][1..] && y[..k - 1] == b[..k][1..];
        assert PartsBelow(x, y, k - 1);
      }
    } else {
      forall k: nat | 0 < k <= |a| && k <= |b|
        ensures a[..k] != b[..k]
      {
        assert a[..k][0] == a[0];
      }
      if b != [] && a[0] < b[0] { assert PartsBelow(a, b, 0); }
    }
  }

  /** The urgency order, key by key: overdue, soon, blocked, on track; then fewer days; then the
      transaction's id; then the milestone's. */
  lemma UrgencyIff(a: Item, b: Item)
    ensures
      var order := [Overdue, DueSoon, BlockedExternal, OnTrack];
      var (ma, mb) := (a.milestone, b.milestone);
      && (forall i, j | 0 <= i < j < 4 && a.classification == order[i] && b.classification == order[j] ::
            NoLaterThan(a, b) && !NoLaterThan(b, a))
      && (a.classification == b.classification ==>
            (NoLaterThan(a, b) <==>
               || a.daysUntilDue < b.daysUntilDue
               || (a.daysUntilDue == b.daysUntilDue &&
                   if ma.transactionId == mb.transactionId then exists k: nat :: PartsBelow(ma.id, mb.id, k)
                   else exists k: nat :: PartsBelow(ma.transactionId, mb.transactionId, k))))
  {
    LexBelowIff(a.milestone.transactionId, b.milestone.transactionId);
    LexBelowIff(a.milestone.id, b.milestone.id);
  }
}
