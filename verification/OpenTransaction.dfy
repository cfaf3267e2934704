/**
 What a freshly opened transaction looks like: the milestone timeline
 (`services/milestone_schedule.py`) and its validation (`services/transaction_open.py`).
 Dates are day ordinals.
 */
module OpenTransaction {
  import opened Common

  datatype MilestoneType = Inspection | Appraisal | Financing | Closing | Custom

  /** The first three letters of the type's value, upper-cased. */
  function Tag(k: MilestoneType): (s: string)
    ensures |s| == 3
  {
    match k
    case Inspection => "INS"
    case Appraisal => "APP"
    case Financing => "FIN"
    case Closing => "CLO"
    case Custom => "CUS"
  }

  predicate IsDigits(s: string) {
    forall c | c in s :: '0' <= c <= '9'
  }

  function Digits(n: nat): (s: string)
    ensures s != [] && IsDigits(s)
  {
    var last := [('0' as int + n % 10) as char];
    if n < 10 then last else Digits(n / 10) + last
  }

  /** `{n:02d}`. */
  function Padded(n: nat): (s: string)
    ensures |s| >= 2 && IsDigits(s)
  {
    if n < 10 then "0" + Digits(n) else Digits(n)
  }

  /** `milestone_id`. */
  function MilestoneId(transactionId: string, index: nat, k: MilestoneType): string {
    transactionId + "-MS" + Padded(index) + "-" + Tag(k)
  }

  function ValueOf(s: string): int {
    if s == [] then 0 else 10 * ValueOf(s[..|s| - 1]) + (s[|s| - 1] as int - '0' as int)
  }

  lemma {:induction false} DigitsValue(n: nat)
    ensures ValueOf(Digits(n)) == n && ValueOf("0" + Digits(n)) == n
    ensures n < 10 ==> |Digits(n)| == 1
    ensures n >= 10 ==> |Digits(n)| >= 2
  {
    var last := [('0' as int + n % 10) as char];
    if n < 10 {
      assert Digits(n) == last && last[..0] == [];
      assert ("0" + last)[..1] == "0" && "0"[..0] == [];
    } else {
      DigitsValue(n / 10);
      assert Digits(n)[..|Digits(n)| - 1] == Digits(n / 10);
      assert ("0" + Digits(n))[..|Digits(n)|] == "0" + Digits(n / 10);
    }
  }

  /** The shape of a milestone id, over its parts. */
  function Joined(t: string, d: string, k: string): string {
    t + "-MS" + d + "-" + k
  }

  lemma JoinedAt(t: string, d: string, k: string)
    requires |k| == 3 && IsDigits(d)
    ensures |Joined(t, d, k)| == |t| + |d| + 7
    ensures Joined(t, d, k)[..|t|] == t
    ensures Joined(t, d, k)[|t| + 2] == 'S'
    ensures Joined(t, d, k)[|t| + 3..|t| + 3 + |d|] == d
    ensures forall p | |t| + 3 <= p < |t| + 3 + |d| :: Joined(t, d, k)[p] != 'S'
  {
    forall p | |t| + 3 <= p < |t| + 3 + |d|
      ensures Joined(t, d, k)[p] != 'S'
    {
      assert Joined(t, d, k)[p] == d[p - |t| - 3];
      assert d[p - |t| - 3] in d;
    }
  }

  /** The two digit runs are as long: otherwise the 'S' of one id would be a digit of the other. */
  lemma DigitRunsAlign(t1: string, d1: string, k1: string, t2: string, d2: string, k2: string)
    requires |k1| == 3 && |k2| == 3 && IsDigits(d1) && IsDigits(d2)
    requires Joined(t1, d1, k1) == Joined(t2, d2, k2) && d1 != [] && d2 != []
    ensures |d1| >= |d2|
  {
    JoinedAt(t1, d1, k1);
    JoinedAt(t2, d2, k2);
  }

  /** Milestone ids identify their transaction and their position: no two timelines ever
      share one, whatever the transaction ids look like. */
  lemma MilestoneIdInjective(t1: string, i1: nat, k1: MilestoneType, t2: string, i2: nat, k2: MilestoneType)
    requires MilestoneId(t1, i1, k1) == MilestoneId(t2, i2, k2)
    ensures t1 == t2 && i1 == i2
  {
    var d1, d2 := Padded(i1), Padded(i2);
    assert MilestoneId(t1, i1, k1) == Joined(t1, d1, Tag(k1));
    assert MilestoneId(t2, i2, k2) == Joined(t2, d2, Tag(k2));
    DigitRunsAlign(t1, d1, Tag(k1), t2, d2, Tag(k2));
    DigitRunsAlign(t2, d2, Tag(k2), t1, d1, Tag(k1));
    JoinedAt(t1, d1, Tag(k1));
    JoinedAt(t2, d2, Tag(k2));
    assert d1 == d2;
    DigitsValue(i1);
    DigitsValue(i2);
  }

  function Pow10(k: nat): nat {
    if k == 0 then 1 else 10 * Pow10(k - 1)
  }

  lemma {:induction false} DigitsLength(n: nat, k: nat)
    requires k >= 1
    ensures |Digits(n)| <= k <==> n < Pow10(k)
  {
    assert Pow10(1) == 10 && Pow10(k) == 10 * Pow10(k - 1);
    if n < 10 {
      PowGrows(k);
    } else if k > 1 {
      DigitsLength(n / 10, k - 1);
    } else {
      DigitsValue(n);
    }
  }

  lemma {:induction false} PowGrows(k: nat)
    requires k >= 1
    ensures Pow10(k) >= 10
  {
    if k > 1 {
      PowGrows(k - 1);
    }
  }

  /** `transaction_id_for_listing`, over the 16 leading hex digits of the listing key's hash. */
  function TransactionId(digest: string -> string, listingKey: string): string {
    "TXN-" + digest(listingKey)
  }

  /** A milestone id fits the 36-character column exactly while its index has at most nine
      digits. */
  lemma MilestoneIdFits(digest: string -> string, listingKey: string, index: nat, k: MilestoneType)
    requires |digest(listingKey)| == 16
    ensures |MilestoneId(TransactionId(digest, listingKey), index, k)| <= 36 <==> index < 1_000_000_000
  {
    DigitsLength(index, 9);
    assert Pow10(9) == 1_000_000_000 by {
      assert Pow10(3) == 1000;
      assert Pow10(6) == 1_000_000;
    }
  }

  datatype DueRule = AfterContract | BeforeClose

  datatype Template = Template(kind: MilestoneType, title: string, owner: string, rule: DueRule, days: int)

  datatype Party = Party(role: string, name: string, contactId: Option<string>, email: string)

  datatype Transaction = Transaction(id: string, listingKey: string, parties: seq<Party>, contractDate: int,
                                     closeDate: Option<int>)

  datatype Milestone = Milestone(id: string, transactionId: string, kind: MilestoneType, title: string,
                                 owner: string, dueDate: int)

  datatype Invalid =
    | KeyTooLong
    | CloseBeforeContract
    | NoCloseDate
    | BeforeWindow(title: string)
    | AfterWindow(title: string)

  datatype Built = Built(transaction: Transaction, milestones: seq<Milestone>) | Rejected(why: Invalid)

  const LISTING_KEY_MAX_LENGTH := 36

  /** The shipped timeline. */
  const DEFAULT_TIMELINE := [
    Template(Inspection, "Home inspection", "Buyer's agent", AfterContract, 10),
    Template(Appraisal, "Appraisal", "Lender", AfterContract, 17),
    Template(Financing, "Loan approval", "Lender", AfterContract, 21),
    Template(Custom, "Final walkthrough", "Buyer's agent", BeforeClose, 1),
    Template(Closing, "Closing", "Escrow", BeforeClose, 0)]

  /** `_due_date`; None is the missing close date. */
  function DueDate(t: Transaction, e: Template): Option<int> {
    match e.rule
    case AfterContract => Some(t.contractDate + e.days)
    case BeforeClose => if t.closeDate.None? then None else Some(t.closeDate.value - e.days)
  }

  /** The milestone of one template step. */
  function Scheduled(t: Transaction, e: Template, index: nat): Option<Milestone> {
    match DueDate(t, e)
    case None => None
    case Some(due) => Some(Milestone(MilestoneId(t.id, index, e.kind), t.id, e.kind, e.title, e.owner, due))
  }

  /** `generate_milestones`, numbering from `index`. */
  function Generate(t: Transaction, template: seq<Template>, index: nat): Option<seq<Milestone>> {
    if template == [] then Some([])
    else
      var (first, rest) := (Scheduled(t, template[0], index), Generate(t, template[1..], index + 1));
      if first.None? || rest.None? then None else Some([first.value] + rest.value)
  }

  /** The validating loop: the first milestone outside the window, if any. */
  function FirstOutside(t: Transaction, milestones: seq<Milestone>): Option<Invalid> {
    if milestones == [] then None
    else if milestones[0].dueDate < t.contractDate then Some(BeforeWindow(milestones[0].title))
    else if t.closeDate.Some? && milestones[0].dueDate > t.closeDate.value then Some(AfterWindow(milestones[0].title))
    else FirstOutside(t, milestones[1..])
  }

  /** `build_open_transaction`. */
  function BuildOpen(digest: string -> string, listingKey: string, contractDate: int, closeDate: Option<int>,
                     parties: seq<Party>, template: seq<Template>): Built {
    if |listingKey| > LISTING_KEY_MAX_LENGTH then Rejected(KeyTooLong)
    else if closeDate.Some? && closeDate.value < contractDate then Rejected(CloseBeforeContract)
    else
      var t := Transaction(TransactionId(digest, listingKey), listingKey, parties, contractDate, closeDate);
      var milestones := Generate(t, template, 1);
      if milestones.None? then Rejected(NoCloseDate)
      else
        var bad := FirstOutside(t, milestones.value);
        if bad.Some? then Rejected(bad.value) else Built(t, milestones.value)
  }

  predicate InWindow(t: Transaction, due: int) {
    t.contractDate <= due && (t.closeDate.Some? ==> due <= t.closeDate.value)
  }

  lemma {:induction false} GenerateShape(t: Transaction, template: seq<Template>, index: nat)
    ensures Generate(t, template, index).Some? <==> forall e | e in template :: DueDate(t, e).Some?
    ensures Generate(t, template, index).Some? ==>
              var ms := Generate(t, template, index).value;
              && |ms| == |template|
              && forall i | 0 <= i < |ms| :: Some(ms[i]) == Scheduled(t, template[i], index + i)
  {
    if template != [] {
      var rest := Generate(t, template[1..], index + 1);
      GenerateShape(t, template[1..], index + 1);
      assert forall e :: e in template <==> e == template[0] || e in template[1..];
      if Generate(t, template, index).Some? {
        var ms := Generate(t, template, index).value;
        forall i | 0 <= i < |ms|
          ensures Some(ms[i]) == Scheduled(t, template[i], index + i)
        {
          if i > 0 {
            assert ms[i] == rest.value[i - 1] && template[i] == template[1..][i - 1];
          }
        }
      }
    }
  }

  lemma {:induction false} NothingOutside(t: Transaction, ms: seq<Milestone>)
    ensures FirstOutside(t, ms).None? <==> forall m | m in ms :: InWindow(t, m.dueDate)
  {
    if ms != [] {
      NothingOutside(t, ms[1..]);
      assert ms == [ms[0]] + ms[1..];
    }
  }

  /** What opening accepts, exactly, and what it then builds: one milestone per template step,
      all inside the contract-to-close window, with pairwise distinct ids. */
  lemma BuildOpenSpec(digest: string -> string, listingKey: string, contractDate: int, closeDate: Option<int>,
                      parties: seq<Party>, template: seq<Template>)
    ensures
      var t := Transaction(TransactionId(digest, listingKey), listingKey, parties, contractDate, closeDate);
      var built := BuildOpen(digest, listingKey, contractDate, closeDate, parties, template);
      && (built.Built? <==>
            && |listingKey| <= 36 && (closeDate.Some? ==> contractDate <= closeDate.value)
            && forall e | e in template :: DueDate(t, e).Some? && InWindow(t, DueDate(t, e).value))
      && (built.Built? ==>
            && built.transaction == t && |built.milestones| == |template|
            && (forall m | m in built.milestones :: m.transactionId == t.id && InWindow(t, m.dueDate))
            && (forall i, j | 0 <= i < j < |built.milestones| :: built.milestones[i].id != built.milestones[j].id))
  {
    var t := Transaction(TransactionId(digest, listingKey), listingKey, parties, contractDate, closeDate);
    GenerateShape(t, template, 1);
    var generated := Generate(t, template, 1);
    if generated.Some? {
      NothingOutside(t, generated.value);
      GeneratedIdsDiffer(t, template, generated.value);
      GeneratedWindow(t, template, generated.value);
    }
  }

  lemma ScheduledIdsDiffer(t: Transaction, d: Template, i: nat, m: Milestone, e: Template, j: nat, n: Milestone)
    requires i != j && Scheduled(t, d, i) == Some(m) && Scheduled(t, e, j) == Some(n)
    ensures m.id != n.id
  {
    if m.id == n.id {
      MilestoneIdInjective(t.id, i, d.kind, t.id, j, e.kind);
    }
  }

  lemma GeneratedIdsDiffer(t: Transaction, template: seq<Template>, ms: seq<Milestone>)
    requires Generate(t, template, 1) == Some(ms)
    ensures forall i, j | 0 <= i < j < |ms| :: ms[i].id != ms[j].id
  {
    GenerateShape(t, template, 1);
    forall i, j | 0 <= i < j < |ms|
      ensures ms[i].id != ms[j].id
    {
      ScheduledIdsDiffer(t, template[i], 1 + i, ms[i], template[j], 1 + j, ms[j]);
    }
  }

  lemma GeneratedWindow(t: Transaction, template: seq<Template>, ms: seq<Milestone>)
    requires Generate(t, template, 1) == Some(ms)
    ensures |ms| == |template| && forall m | m in ms :: m.transactionId == t.id
    ensures (forall m | m in ms :: InWindow(t, m.dueDate)) <==>
            forall e | e in template :: DueDate(t, e).Some? && InWindow(t, DueDate(t, e).value)
  {
    GenerateShape(t, template, 1);
    forall i | 0 <= i < |ms|
      ensures ms[i] in ms && template[i] in template && ms[i].transactionId == t.id
      ensures DueDate(t, template[i]) == Some(ms[i].dueDate)
    {
      assert Some(ms[i]) == Scheduled(t, template[i], 1 + i);
    }
  }

  /** When a step is due: its days after the contract, or before the closing, which it then needs. */
  lemma DueDateIff(t: Transaction, e: Template)
    ensures e.rule == AfterContract ==> DueDate(t, e) == Some(t.contractDate + e.days)
    ensures e.rule == BeforeClose && t.closeDate.Some? ==> DueDate(t, e) == Some(t.closeDate.value - e.days)
    ensures e.rule == BeforeClose && t.closeDate.None? ==> DueDate(t, e) == None
  {
  }

  /** What the milestone of a step carries. */
  lemma ScheduledIs(t: Transaction, e: Template, index: nat)
    requires DueDate(t, e).Some?
    ensures Scheduled(t, e, index) == Some(Milestone(MilestoneId(t.id, index, e.kind), t.id, e.kind, e.title, e.owner,
                                                     DueDate(t, e).value))
  {
  }

  /** The due dates of the shipped timeline. */
  function ShippedDates(contractDate: int, closeDate: int): seq<int> {
    [contractDate + 10, contractDate + 17, contractDate + 21, closeDate - 1, closeDate]
  }

  /** The steps of the shipped timeline: kind, title and owner. */
  const SHIPPED_STEPS := [
    (Inspection, "Home inspection", "Buyer's agent"), (Appraisal, "Appraisal", "Lender"),
    (Financing, "Loan approval", "Lender"), (Custom, "Final walkthrough", "Buyer's agent"),
    (Closing, "Closing", "Escrow")]

  lemma ShippedSteps(t: Transaction, i: nat)
    requires i < 5
    ensures |DEFAULT_TIMELINE| == 5
    ensures (DEFAULT_TIMELINE[i].kind, DEFAULT_TIMELINE[i].title, DEFAULT_TIMELINE[i].owner) == SHIPPED_STEPS[i]
    ensures DueDate(t, DEFAULT_TIMELINE[i]).Some? <==> i < 3 || t.closeDate.Some?
    ensures t.closeDate.Some? ==>
              DueDate(t, DEFAULT_TIMELINE[i]) == Some(ShippedDates(t.contractDate, t.closeDate.value)[i])
  {
  }

  lemma ShippedWindow(t: Transaction, template: seq<Template>)
    requires template == DEFAULT_TIMELINE && (t.closeDate.Some? ==> t.contractDate <= t.closeDate.value)
    ensures (forall e | e in template :: DueDate(t, e).Some? && InWindow(t, DueDate(t, e).value)) <==>
              t.closeDate.Some? && t.contractDate + 21 <= t.closeDate.value
  {
    forall i: nat | i < 5
      ensures DueDate(t, template[i]).Some? <==> i < 3 || t.closeDate.Some?
      ensures t.closeDate.Some? ==>
                DueDate(t, template[i]) == Some(ShippedDates(t.contractDate, t.closeDate.value)[i])
    {
      ShippedSteps(t, i);
    }
    ShippedSteps(t, 0);
    assert template[2] in template && template[3] in template;
  }

  /** What the shipped timeline accepts, exactly: a key of at most 36 characters, and a closing at
      least 21 days after the contract; and when its five milestones are then due. */
  lemma ShippedTimelineIff(digest: string -> string, listingKey: string, contractDate: int, closeDate: Option<int>,
                           parties: seq<Party>, template: seq<Template>)
    requires template == DEFAULT_TIMELINE
    ensures
      var built := BuildOpen(digest, listingKey, contractDate, closeDate, parties, template);
      && (built.Built? <==> |listingKey| <= 36 && closeDate.Some? && contractDate + 21 <= closeDate.value)
      && (built.Built? ==>
            && |built.milestones| == 5
            && forall i | 0 <= i < 5 ::
                 && built.milestones[i].dueDate == ShippedDates(contractDate, closeDate.value)[i]
                 && var m := built.milestones[i]; (m.kind, m.title, m.owner) == SHIPPED_STEPS[i])
  {
    var t := Transaction(TransactionId(digest, listingKey), listingKey, parties, contractDate, closeDate);
    BuildOpenSpec(digest, listingKey, contractDate, closeDate, parties, template);
    ShippedSteps(t, 0);
    if closeDate.Some? && contractDate > closeDate.value {
    } else {
      ShippedWindow(t, template);
    }
    var built := BuildOpen(digest, listingKey, contractDate, closeDate, parties, template);
    if built.Built? {
      GenerateShape(t, template, 1);
      forall i | 0 <= i < 5
        ensures built.milestones[i].dueDate == ShippedDates(contractDate, closeDate.value)[i]
        ensures (built.milestones[i].kind, built.milestones[i].title, built.milestones[i].owner) == SHIPPED_STEPS[i]
      {
        ShippedSteps(t, i);
        ScheduledIs(t, template[i], 1 + i);
      }
    }
  }
}
