/**
 The write seam of one outbound port: `Idempotent…(Recording…(provider))` over a shared
 key store and action ledger (`services/idempotency.py`, `services/audit.py`), inside the
 tenant guard (`services/tool_authz.py`).

 `WriteSeam` is the seam as the source writes it. `Sys` is the same code cut at its awaits,
 with any number of callers interleaved and a crash possible at every cut.
 */
module OutboundPort {
  import opened Common
  import opened Messages

  datatype Claim = Pending | Completed(result: string)
  datatype ClaimStatus = New | StillPending | AlreadyDone(result: string)

  /** One invocation of the external provider, and the id it accepted the message under.
      `key` is a history annotation. */
  datatype Call = Call(key: Option<Key>, content: Content, accepted: Option<string>)

  /** One ledger line: an external write, or a denied cross-tenant attempt. */
  datatype Record =
    | Write(key: Option<Key>, success: bool, externalId: Option<string>)
    | Security(tool: string, attempted: string, bound: string)

  datatype Port = Port(keys: map<Key, Claim>, provider: seq<Call>, ledger: seq<Record>)

  /** What the provider does with one call; it may accept and still fail the caller. */
  datatype Reply = Accepts(id: string) | AcceptsThenRaises(id: string) | Refuses

  function AcceptedId(r: Reply): Option<string> {
    if r.Refuses? then None else Some(r.id)
  }

  predicate FreshReply(p: Port, r: Reply) {
    r.Refuses? || (r.id != "" && forall c | c in p.provider :: c.accepted != Some(r.id))
  }

  /** `begin`: the atomic claim. */
  function BeginKey(p: Port, k: Key): (Port, ClaimStatus) {
    if k !in p.keys then (p.(keys := p.keys[k := Pending]), New)
    else (p, match p.keys[k] case Pending => StillPending case Completed(r) => AlreadyDone(r))
  }

  function CompleteKey(p: Port, k: Key, result: string): Port {
    p.(keys := p.keys[k := Completed(result)])
  }

  function CallProvider(p: Port, k: Option<Key>, content: Content, r: Reply): Port {
    p.(provider := p.provider + [Call(k, content, AcceptedId(r))])
  }

  function Emit(p: Port, k: Option<Key>, externalId: Option<string>): Port {
    p.(ledger := p.ledger + [Write(k, externalId.Some?, externalId)])
  }

  /** How the call that completes a key ends; it may commit and still fail its caller. */
  datatype Completion = Completes | RaisesBefore | RaisesAfter

  /** How the surroundings treat one send: the provider's reply, and which store call raises. */
  datatype Weather = Weather(reply: Reply, ledgerRaises: bool, completion: Completion)

  datatype Outcome = Returns(id: string) | RaisesInProgress | RaisesError

  /** The recording layer around the provider. */
  function RecordedSend(p: Port, k: Option<Key>, content: Content, w: Weather): (Port, Outcome) {
    var called := CallProvider(p, k, content, w.reply);
    if w.ledgerRaises then (called, RaisesError)
    else if w.reply.Accepts? then (Emit(called, k, Some(w.reply.id)), Returns(w.reply.id))
    else (Emit(called, k, None), RaisesError)
  }

  /** The idempotent layer around the recording one; an empty run sends undeduped. */
  function DedupedSend(p: Port, run: string, content: Content, w: Weather): (Port, Outcome) {
    if run == "" then RecordedSend(p, None, content, w)
    else
      var k := SendKey(run, content);
      var (claimed, status) := BeginKey(p, k);
      match status
      case StillPending => (p, RaisesInProgress)
      case AlreadyDone(id) => (p, Returns(id))
      case New =>
        var (sent, outcome) := RecordedSend(claimed, Some(k), content, w);
        if !outcome.Returns? then (sent, outcome)
        else
          match w.completion
          case Completes => (CompleteKey(sent, k, outcome.id), outcome)
          case RaisesBefore => (sent, RaisesError)
          case RaisesAfter => (CompleteKey(sent, k, outcome.id), RaisesError)
  }

  datatype GuardOutcome = Denied | Unbound | Passed(outcome: Outcome)

  /** An answer on its way out through the guard, whose egress scrub of text is `text`. */
  function Scrubbed(text: string -> string, o: Outcome): Outcome {
    if o.Returns? then Returns(text(o.id)) else o
  }

  /** The seam with its three stores, in the source's own order of effects. */
  class WriteSeam {
    var keys: map<Key, Claim>
    var provider: seq<Call>
    var ledger: seq<Record>

    ghost function State(): Port
      reads this
    {
      Port(keys, provider, ledger)
    }

    constructor ()
      ensures State() == Port(map[], [], [])
    {
      keys, provider, ledger := map[], [], [];
    }

    method Begin(k: Key) returns (status: ClaimStatus)
      modifies this
      ensures (State(), status) == BeginKey(old(State()), k)
    {
      if k !in keys {
        keys := keys[k := Pending];
        return New;
      }
      match keys[k]
      case Pending => return StillPending;
      case Completed(r) => return AlreadyDone(r);
    }

    method SendRecorded(k: Option<Key>, content: Content, w: Weather) returns (outcome: Outcome)
      modifies this
      ensures (State(), outcome) == RecordedSend(old(State()), k, content, w)
    {
      provider := provider + [Call(k, content, AcceptedId(w.reply))];
      if w.ledgerRaises {
        return RaisesError;
      }
      if w.reply.Accepts? {
        ledger := ledger + [Write(k, true, Some(w.reply.id))];
        return Returns(w.reply.id);
      }
      ledger := ledger + [Write(k, false, None)];
      return RaisesError;
    }

    method Send(run: string, content: Content, w: Weather) returns (outcome: Outcome)
      modifies this
      ensures (State(), outcome) == DedupedSend(old(State()), run, content, w)
    {
      if run == "" {
        outcome := SendRecorded(None, content, w);
        return;
      }
      var k := SendKey(run, content);
      var status := Begin(k);
      match status
      case StillPending => return RaisesInProgress;
      case AlreadyDone(id) => return Returns(id);
      case New =>
        outcome := SendRecorded(Some(k), content, w);
        if outcome.Returns? {
          if w.completion.RaisesBefore? {
            return RaisesError;
          }
          keys := keys[k := Completed(outcome.id)];
          if w.completion.RaisesAfter? {
            return RaisesError;
          }
        }
    }

    /** The outer tenant guard: a message stamped with another tenant is denied before the
        seam is entered, leaving one security record; with no tenant bound, nothing at all. What
        it lets through answers with the scrubbed id, while the key and the ledger keep the id. */
    method GuardedSend(text: string -> string, bound: Option<string>, tenantId: string, run: string, content: Content,
                       w: Weather)
      returns (outcome: GuardOutcome)
      modifies this
      ensures bound == None ==> outcome == Unbound && State() == old(State())
      ensures bound.Some? && tenantId != "" && tenantId != bound.value ==>
                && outcome == Denied && keys == old(keys) && provider == old(provider)
                && ledger == old(ledger) + [Security("send", tenantId, bound.value)]
      ensures bound.Some? && (tenantId == "" || tenantId == bound.value) ==>
                (State(), outcome)
                == (var (p, o) := DedupedSend(old(State()), run, content, w); (p, Passed(Scrubbed(text, o))))
    {
      if bound == None {
        return Unbound;
      }
      if tenantId != "" && tenantId != bound.value {
        ledger := ledger + [Security("send", tenantId, bound.value)];
        return Denied;
      }
      var o := Send(run, content, w);
      return Passed(Scrubbed(text, o));
    }
  }

  /** One caller, suspended at an await. */
  datatype Task = Task(key: Option<Key>, content: Content, phase: Phase)
  datatype Phase =
    | Starting                  // about to claim its key
    | Conflict                  // the SQL insert hit the existing key; about to read it
    | Calling                   // owns the key; about to call the provider
    | Accepted(id: string)      // about to write the success record
    | Refused                   // about to write the failure record
    | Recorded(id: string)      // about to complete the key
    | Returned(id: string)
    | Raised

  datatype Sys = Sys(port: Port, tasks: map<nat, Task>)

  datatype Event =
    | Start(t: nat, run: string, content: Content)
    | ClaimAtomic(t: nat)
    | SqlInsert(t: nat)
    | SqlRead(t: nat)
    | CallOut(t: nat, reply: Reply)
    | WriteLedger(t: nat)
    | Complete(t: nat)
    | CompleteRaises(t: nat)    // the completion commits, and its caller sees an exception
    | Crash(t: nat)

  predicate At(s: Sys, t: nat, p: Phase) {
    t in s.tasks && s.tasks[t].phase == p
  }

  function Goto(s: Sys, t: nat, p: Phase): Sys
    requires t in s.tasks
  {
    s.(tasks := s.tasks[t := s.tasks[t].(phase := p)])
  }

  function AfterClaim(status: ClaimStatus): Phase {
    match status
    case New => Calling
    case StillPending => Raised
    case AlreadyDone(r) => Returned(r)
  }

  function ClaimStep(s: Sys, t: nat): Sys
    requires t in s.tasks
  {
    match s.tasks[t].key
    case None => Goto(s, t, Calling)
    case Some(k) =>
      var (p, status) := BeginKey(s.port, k);
      Goto(s.(port := p), t, AfterClaim(status))
  }

  function CallStep(s: Sys, t: nat, r: Reply): Sys
    requires t in s.tasks
  {
    var task := s.tasks[t];
    Goto(s.(port := CallProvider(s.port, task.key, task.content, r)), t,
         if r.Accepts? then Accepted(r.id) else Refused)
  }

  function RecordStep(s: Sys, t: nat): Sys
    requires t in s.tasks
  {
    var task := s.tasks[t];
    match task.phase
    case Accepted(id) => Goto(s.(port := Emit(s.port, task.key, Some(id))), t, Recorded(id))
    case Refused => Goto(s.(port := Emit(s.port, task.key, None)), t, Raised)
    case _ => s
  }

  function CompleteStep(s: Sys, t: nat): Sys
    requires t in s.tasks && s.tasks[t].phase.Recorded?
  {
    var task := s.tasks[t];
    var id := task.phase.id;
    match task.key
    case None => Goto(s, t, Returned(id))
    case Some(k) => Goto(s.(port := CompleteKey(s.port, k, id)), t, Returned(id))
  }

  /** One step; an event that is not enabled changes nothing. */
  function Next(s: Sys, e: Event): Sys {
    match e
    case Start(t, run, content) =>
      if t in s.tasks then s
      else s.(tasks := s.tasks[t := Task(if run == "" then None else Some(SendKey(run, content)), content, Starting)])
    case ClaimAtomic(t) =>
      if At(s, t, Starting) then ClaimStep(s, t) else s
    case SqlInsert(t) =>
      if !At(s, t, Starting) then s
      else if s.tasks[t].key.Some? && s.tasks[t].key.value in s.port.keys then Goto(s, t, Conflict)
      else ClaimStep(s, t)
    case SqlRead(t) =>
      if At(s, t, Conflict) && s.tasks[t].key.Some? && s.tasks[t].key.value in s.port.keys then
        Goto(s, t, match s.port.keys[s.tasks[t].key.value] case Pending => Raised case Completed(r) => Returned(r))
      else s
    case CallOut(t, reply) =>
      if At(s, t, Calling) && FreshReply(s.port, reply) then CallStep(s, t, reply) else s
    case WriteLedger(t) =>
      if t in s.tasks then RecordStep(s, t) else s
    case Complete(t) =>
      if t in s.tasks && s.tasks[t].phase.Recorded? then CompleteStep(s, t) else s
    case CompleteRaises(t) =>
      if t in s.tasks && s.tasks[t].phase.Recorded? then Goto(CompleteStep(s, t), t, Raised) else s
    case Crash(t) =>
      if t in s.tasks && !s.tasks[t].phase.Returned? then Goto(s, t, Raised) else s
  }

  function Run(s: Sys, es: seq<Event>): Sys
    decreases |es|
  {
    if es == [] then s else Run(Next(s, es[0]), es[1..])
  }

  predicate Init(s: Sys) {
    s == Sys(Port(map[], [], []), map[])
  }

  function CallsFor(log: seq<Call>, k: Key): seq<Call>
    decreases |log|
  {
    if log == [] then []
    else
      var (before, last) := (CallsFor(log[..|log| - 1], k), log[|log| - 1]);
      if last.key == Some(k) then before + [last] else before
  }

  function RecordsFor(log: seq<Record>, k: Key): seq<Record>
    decreases |log|
  {
    if log == [] then []
    else
      var (before, last) := (RecordsFor(log[..|log| - 1], k), log[|log| - 1]);
      if last.Write? && last.key == Some(k) then before + [last] else before
  }

  lemma CallsForAppend(log: seq<Call>, c: Call, k: Key)
    ensures CallsFor(log + [c], k) == CallsFor(log, k) + if c.key == Some(k) then [c] else []
  {
  }

  lemma {:induction false} RecordsForAppend(log: seq<Record>, r: Record, k: Key)
    ensures RecordsFor(log + [r], k) == RecordsFor(log, k) + if r.Write? && r.key == Some(k) then [r] else []
  {
    assert (log + [r])[..|log|] == log;
  }

  /** A key owner: the caller that claimed the key and has not yet let go of it. */
  predicate Holds(s: Sys, t: nat, k: Key) {
    t in s.tasks && s.tasks[t].key == Some(k) &&
    match s.tasks[t].phase
    case Calling => true
    case Accepted(_) => true
    case Refused => true
    case Recorded(_) => true
    case _ => false
  }

  /** A completed key: one provider call carrying the key's content, one SUCCESS record. */
  predicate Settled(p: Port, k: Key, id: string)
    requires k.args.SendArgs?
  {
    && CallsFor(p.provider, k) == [Call(Some(k), k.args.content, Some(id))]
    && RecordsFor(p.ledger, k) == [Write(Some(k), true, Some(id))]
  }

  predicate KeyOk(p: Port, k: Key) {
    var calls, records := CallsFor(p.provider, k), RecordsFor(p.ledger, k);
    && |records| <= |calls| <= 1
    && (k in p.keys ==> k.args.SendArgs?)
    && (k !in p.keys ==> calls == [])
    && (k in p.keys && p.keys[k].Completed? ==> Settled(p, k, p.keys[k].result))
  }

  /** Outside a run: whatever id the provider accepted the message under, it was called with
      exactly this message. */
  predicate UnkeyedOk(p: Port, task: Task) {
    match task.phase
    case Accepted(id) => Call(None, task.content, Some(id)) in p.provider
    case Recorded(id) => Call(None, task.content, Some(id)) in p.provider
    case Returned(id) => Call(None, task.content, Some(id)) in p.provider
    case _ => true
  }

  predicate TaskOk(s: Sys, t: nat)
    requires t in s.tasks
  {
    var task := s.tasks[t];
    if task.key.None? then UnkeyedOk(s.port, task)
    else
      var k := task.key.value;
      var calls, records := CallsFor(s.port.provider, k), RecordsFor(s.port.ledger, k);
      && k.args == SendArgs(task.content)
      && (Holds(s, t, k) ==> k in s.port.keys && s.port.keys[k] == Pending)
      && match task.phase
         case Conflict => k in s.port.keys
         case Calling => calls == []
         case Accepted(id) => calls == [Call(Some(k), task.content, Some(id))] && records == []
         case Refused => |calls| == 1 && records == []
         case Recorded(id) => Settled(s.port, k, id)
         case Returned(id) => k in s.port.keys && s.port.keys[k] == Completed(id)
         case _ => true
  }

  ghost predicate OneHolder(s: Sys) {
    forall t1, t2, k | Holds(s, t1, k) && Holds(s, t2, k) :: t1 == t2
  }

  ghost predicate Inv(s: Sys) {
    && (forall k: Key :: KeyOk(s.port, k))
    && (forall t | t in s.tasks :: TaskOk(s, t))
    && OneHolder(s)
  }

  /** A step that moves one task and touches at most that task's key keeps the invariant of
      every other key and task. */
  lemma OthersKeepInv(s: Sys, s': Sys, t: nat)
    requires Inv(s) && t in s.tasks
    requires s'.tasks.Keys == s.tasks.Keys
    requires s'.tasks == s.tasks[t := s.tasks[t].(phase := s'.tasks[t].phase)]
    requires s.port.provider <= s'.port.provider
    requires forall k: Key | s.tasks[t].key != Some(k) ::
               && CallsFor(s'.port.provider, k) == CallsFor(s.port.provider, k)
               && RecordsFor(s'.port.ledger, k) == RecordsFor(s.port.ledger, k)
               && (k in s'.port.keys <==> k in s.port.keys)
               && (k in s.port.keys ==> s'.port.keys[k] == s.port.keys[k])
    requires s.tasks[t].key.Some? ==>
               var k := s.tasks[t].key.value;
               && KeyOk(s'.port, k)
               && (Holds(s, t, k) || !Holds(s', t, k) || k !in s.port.keys)
               && (s'.port == s.port || Holds(s, t, k) || k !in s.port.keys)
               && (k in s.port.keys ==> k in s'.port.keys)
    requires TaskOk(s', t)
    ensures Inv(s')
  {
    forall k: Key
      ensures KeyOk(s'.port, k)
    {
      assert KeyOk(s.port, k);
    }
    forall u | u in s'.tasks
      ensures TaskOk(s', u)
    {
      if u != t {
        assert TaskOk(s, u) && TaskOk(s, t);
        if s.tasks[u].key.Some? && s.tasks[u].key == s.tasks[t].key {
          var k := s.tasks[u].key.value;
          assert Holds(s', u, k) == Holds(s, u, k);
          if Holds(s, u, k) {
            assert !Holds(s, t, k);
          }
        }
      }
    }
    forall u, k | u != t && Holds(s', u, k)
      ensures Holds(s, u, k) && !Holds(s', t, k)
    {
      assert Holds(s, u, k);
      assert TaskOk(s, u);
    }
  }

  lemma StartKeepsInv(s: Sys, t: nat, run: string, content: Content)
    requires Inv(s)
    ensures Inv(Next(s, Start(t, run, content)))
  {
    var s' := Next(s, Start(t, run, content));
    forall u | u in s'.tasks
      ensures TaskOk(s', u)
    {
      if u in s.tasks {
        assert TaskOk(s, u);
        assert forall k :: Holds(s', u, k) == Holds(s, u, k);
      }
    }
    forall u, k | Holds(s', u, k)
      ensures Holds(s, u, k)
    {
    }
  }

  lemma GotoKeepsInv(s: Sys, t: nat, p: Phase)
    requires Inv(s) && t in s.tasks && TaskOk(Goto(s, t, p), t)
    requires forall k | Holds(Goto(s, t, p), t, k) :: Holds(s, t, k)
    ensures Inv(Goto(s, t, p))
  {
    if s.tasks[t].key.Some? {
      assert KeyOk(s.port, s.tasks[t].key.value);
    }
    OthersKeepInv(s, Goto(s, t, p), t);
  }

  lemma ClaimKeepsInv(s: Sys, t: nat)
    requires Inv(s) && At(s, t, Starting)
    ensures Inv(ClaimStep(s, t))
  {
    assert TaskOk(s, t);
    if s.tasks[t].key.Some? {
      var k := s.tasks[t].key.value;
      assert KeyOk(s.port, k);
      OthersKeepInv(s, ClaimStep(s, t), t);
    } else {
      OthersKeepInv(s, ClaimStep(s, t), t);
    }
  }

  lemma CallKeepsInv(s: Sys, t: nat, r: Reply)
    requires Inv(s) && At(s, t, Calling)
    ensures Inv(CallStep(s, t, r))
  {
    var task := s.tasks[t];
    var s' := CallStep(s, t, r);
    assert TaskOk(s, t);
    forall k: Key
      ensures CallsFor(s'.port.provider, k) == CallsFor(s.port.provider, k)
                + if task.key == Some(k) then [Call(task.key, task.content, AcceptedId(r))] else []
    {
      CallsForAppend(s.port.provider, Call(task.key, task.content, AcceptedId(r)), k);
    }
    if task.key.Some? {
      assert KeyOk(s.port, task.key.value);
      assert Holds(s, t, task.key.value);
    }
    OthersKeepInv(s, s', t);
  }

  /** One more record, under that key. */
  predicate OneMore(records: seq<Record>, records': seq<Record>, key: Option<Key>, record: Record, k: Key) {
    records' == if key == Some(k) then records + [record] else records
  }

  /** What writing its record makes of a task. */
  function RecordOf(task: Task): Record {
    if task.phase.Accepted? then Write(task.key, true, Some(task.phase.id)) else Write(task.key, false, None)
  }

  lemma RecordAppends(s: Sys, t: nat)
    requires t in s.tasks && (s.tasks[t].phase.Accepted? || s.tasks[t].phase.Refused?)
    ensures forall k: Key ::
              OneMore(RecordsFor(s.port.ledger, k), RecordsFor(RecordStep(s, t).port.ledger, k), s.tasks[t].key,
                      RecordOf(s.tasks[t]), k)
  {
    forall k: Key
      ensures OneMore(RecordsFor(s.port.ledger, k), RecordsFor(RecordStep(s, t).port.ledger, k), s.tasks[t].key,
                      RecordOf(s.tasks[t]), k)
    {
      RecordsForAppend(s.port.ledger, RecordOf(s.tasks[t]), k);
    }
  }

  lemma RecordKeepsInv(s: Sys, s': Sys, t: nat)
    requires Inv(s) && t in s.tasks && (s.tasks[t].phase.Accepted? || s.tasks[t].phase.Refused?)
    requires s'.tasks == s.tasks[t := s.tasks[t].(phase := RecordStep(s, t).tasks[t].phase)]
    requires s'.port.keys == s.port.keys && s'.port.provider == s.port.provider
    requires forall k: Key ::
               OneMore(RecordsFor(s.port.ledger, k), RecordsFor(s'.port.ledger, k), s.tasks[t].key,
                       RecordOf(s.tasks[t]), k)
    ensures Inv(s')
  {
    var task := s.tasks[t];
    assert TaskOk(s, t);
    forall k: Key
      ensures task.key != Some(k) ==> RecordsFor(s'.port.ledger, k) == RecordsFor(s.port.ledger, k)
    {
      assert OneMore(RecordsFor(s.port.ledger, k), RecordsFor(s'.port.ledger, k), task.key, RecordOf(task), k);
    }
    if task.key.Some? {
      assert KeyOk(s.port, task.key.value);
      assert Holds(s, t, task.key.value);
    }
    OthersKeepInv(s, s', t);
  }

  lemma CompleteKeepsInv(s: Sys, t: nat)
    requires Inv(s) && t in s.tasks && s.tasks[t].phase.Recorded?
    ensures Inv(CompleteStep(s, t))
  {
    assert TaskOk(s, t);
    if s.tasks[t].key.Some? {
      assert KeyOk(s.port, s.tasks[t].key.value);
      assert Holds(s, t, s.tasks[t].key.value);
    }
    OthersKeepInv(s, CompleteStep(s, t), t);
  }

  lemma InvStep(s: Sys, e: Event)
    requires Inv(s)
    ensures Inv(Next(s, e))
  {
    match e
    case Start(t, run, content) => StartKeepsInv(s, t, run, content);
    case ClaimAtomic(t) =>
      if At(s, t, Starting) { ClaimKeepsInv(s, t); }
    case SqlInsert(t) =>
      if At(s, t, Starting) {
        assert TaskOk(s, t);
        if s.tasks[t].key.Some? && s.tasks[t].key.value in s.port.keys {
          GotoKeepsInv(s, t, Conflict);
        } else {
          ClaimKeepsInv(s, t);
        }
      }
    case SqlRead(t) =>
      if At(s, t, Conflict) {
        assert TaskOk(s, t);
        if s.tasks[t].key.Some? && s.tasks[t].key.value in s.port.keys {
          GotoKeepsInv(s, t, Next(s, e).tasks[t].phase);
        }
      }
    case CallOut(t, reply) =>
      if At(s, t, Calling) { CallKeepsInv(s, t, reply); }
    case WriteLedger(t) =>
      if t in s.tasks && (s.tasks[t].phase.Accepted? || s.tasks[t].phase.Refused?) {
        RecordAppends(s, t);
        RecordKeepsInv(s, RecordStep(s, t), t);
      }
    case Complete(t) =>
      if t in s.tasks && s.tasks[t].phase.Recorded? { CompleteKeepsInv(s, t); }
    case CompleteRaises(t) =>
      if t in s.tasks && s.tasks[t].phase.Recorded? {
        CompleteKeepsInv(s, t);
        assert TaskOk(CompleteStep(s, t), t);
        GotoKeepsInv(CompleteStep(s, t), t, Raised);
      }
    case Crash(t) =>
      if t in s.tasks && !s.tasks[t].phase.Returned? {
        assert TaskOk(s, t);
        GotoKeepsInv(s, t, Raised);
      }
  }

  lemma {:induction false} InvRun(s: Sys, es: seq<Event>)
    requires Inv(s)
    ensures Inv(Run(s, es))
    decreases |es|
  {
    if es != [] {
      InvStep(s, es[0]);
      InvRun(Next(s, es[0]), es[1..]);
    }
  }

  lemma InitInv(s: Sys)
    requires Init(s)
    ensures Inv(s)
  {
  }

  /** At most once: over any run of any number of callers, with crashes anywhere and either
      store's claim, the provider is called at most once per key, and no key ever has two
      ledger records. */
  lemma AtMostOnce(s: Sys, es: seq<Event>, k: Key)
    requires Init(s)
    ensures |CallsFor(Run(s, es).port.provider, k)| <= 1
    ensures |RecordsFor(Run(s, es).port.ledger, k)| <= 1
  {
    InitInv(s);
    InvRun(s, es);
    assert KeyOk(Run(s, es).port, k);
  }

  /** All callers of one key that return normally return the same id, which is the one the
      single provider call was accepted under and the single SUCCESS record names. */
  lemma SameResult(s: Sys, es: seq<Event>, t1: nat, t2: nat)
    requires Init(s)
    requires
      var s' := Run(s, es);
      && t1 in s'.tasks && t2 in s'.tasks
      && s'.tasks[t1].phase.Returned? && s'.tasks[t2].phase.Returned?
      && s'.tasks[t1].key == s'.tasks[t2].key && s'.tasks[t1].key.Some?
    ensures
      var s' := Run(s, es);
      && s'.tasks[t1].phase == s'.tasks[t2].phase
      && s'.tasks[t1].key.value.args.SendArgs?
      && Settled(s'.port, s'.tasks[t1].key.value, s'.tasks[t1].phase.id)
  {
    var s' := Run(s, es);
    InitInv(s);
    InvRun(s, es);
    assert TaskOk(s', t1) && TaskOk(s', t2) && KeyOk(s'.port, s'.tasks[t1].key.value);
  }

  lemma CompletedStep(s: Sys, e: Event, k: Key)
    requires Inv(s) && k in s.port.keys && s.port.keys[k].Completed?
    ensures k in Next(s, e).port.keys && Next(s, e).port.keys[k] == s.port.keys[k]
  {
    if (e.Complete? || e.CompleteRaises?) && e.t in s.tasks {
      assert TaskOk(s, e.t);
    }
  }

  /** A completed result never changes. */
  lemma {:induction false} CompletedIsFinal(s: Sys, es: seq<Event>, k: Key)
    requires Inv(s) && k in s.port.keys && s.port.keys[k].Completed?
    ensures k in Run(s, es).port.keys && Run(s, es).port.keys[k] == s.port.keys[k]
    decreases |es|
  {
    if es != [] {
      CompletedStep(s, es[0], k);
      InvStep(s, es[0]);
      CompletedIsFinal(Next(s, es[0]), es[1..], k);
    }
  }

  /** Write-ahead order: once a key reads as completed, the call and its SUCCESS record are
      already there, exactly one of each, naming the stored result. */
  lemma WriteAhead(s: Sys, es: seq<Event>, k: Key)
    requires Init(s)
    requires k in Run(s, es).port.keys && Run(s, es).port.keys[k].Completed?
    ensures k.args.SendArgs? && Settled(Run(s, es).port, k, Run(s, es).port.keys[k].result)
  {
    InitInv(s);
    InvRun(s, es);
    assert KeyOk(Run(s, es).port, k);
  }

  /** Outside a run nothing is deduplicated, but every normal return still answers a provider
      call that carried exactly the message it returns for. */
  lemma UnkeyedReturn(s: Sys, es: seq<Event>, t: nat)
    requires Init(s)
    requires
      var s' := Run(s, es);
      t in s'.tasks && s'.tasks[t].key.None? && s'.tasks[t].phase.Returned?
    ensures
      var s' := Run(s, es);
      Call(None, s'.tasks[t].content, Some(s'.tasks[t].phase.id)) in s'.port.provider
  {
    InitInv(s);
    InvRun(s, es);
    assert TaskOk(Run(s, es), t);
  }

  predicate Abandoned(s: Sys, k: Key) {
    k in s.port.keys && forall t | t in s.tasks :: !Holds(s, t, k)
  }

  lemma AbandonedStep(s: Sys, e: Event, k: Key)
    requires Abandoned(s, k) && (!e.Start? && e.t in s.tasks ==> TaskOk(s, e.t))
    ensures
      var s' := Next(s, e);
      && Abandoned(s', k) && s'.port.keys[k] == s.port.keys[k]
      && CallsFor(s'.port.provider, k) == CallsFor(s.port.provider, k)
      && RecordsFor(s'.port.ledger, k) == RecordsFor(s.port.ledger, k)
  {
    if e.Start? || e.t !in s.tasks {
      assert forall t :: Holds(Next(s, e), t, k) == Holds(s, t, k) || !Holds(Next(s, e), t, k);
    } else {
      assert !Holds(s, e.t, k);
      OthersHoldAsBefore(s, e, k);
      match e
      case CallOut(t, reply) =>
        CallsForAppend(s.port.provider, Call(s.tasks[t].key, s.tasks[t].content, AcceptedId(reply)), k);
      case WriteLedger(t) => AbandonedRecord(s, t, k);
      case Complete(t) =>
      case CompleteRaises(t) =>
      case ClaimAtomic(t) =>
      case SqlInsert(t) =>
      case SqlRead(t) =>
      case Crash(t) =>
    }
  }

  lemma OthersHoldAsBefore(s: Sys, e: Event, k: Key)
    requires !e.Start?
    ensures forall t | t != e.t :: Holds(Next(s, e), t, k) == Holds(s, t, k)
  {
  }

  lemma AbandonedRecord(s: Sys, t: nat, k: Key)
    requires t in s.tasks && !Holds(s, t, k)
    ensures RecordsFor(RecordStep(s, t).port.ledger, k) == RecordsFor(s.port.ledger, k)
  {
  }

  /** After the caller holding a key has died (or finished), that key is frozen: whatever
      replays, on whatever schedule, no call and no record is ever added for it. */
  lemma {:induction false} AbandonedIsFrozen(s: Sys, es: seq<Event>, k: Key)
    requires Inv(s) && Abandoned(s, k)
    ensures
      var p, p' := s.port, Run(s, es).port;
      && k in p'.keys && p'.keys[k] == p.keys[k]
      && CallsFor(p'.provider, k) == CallsFor(p.provider, k)
      && RecordsFor(p'.ledger, k) == RecordsFor(p.ledger, k)
    decreases |es|
  {
    if es != [] {
      AbandonedStep(s, es[0], k);
      InvStep(s, es[0]);
      AbandonedIsFrozen(Next(s, es[0]), es[1..], k);
    }
  }

  /** The SQL claim refines the atomic one: the insert either is the atomic claim, or only
      moves the caller, and its later read (at any later reachable state) is the atomic claim
      made at that moment. */
  lemma SqlClaimRefinesAtomic(s: Sys, t: nat)
    requires Inv(s)
    ensures Next(s, SqlInsert(t)) == Next(s, ClaimAtomic(t)) || Next(s, SqlInsert(t)) == Goto(s, t, Conflict)
    ensures At(s, t, Conflict) && s.tasks[t].key.Some? ==>
              Next(s, SqlRead(t)) == Next(Goto(s, t, Starting), ClaimAtomic(t))
  {
  }

  function PhaseOf(o: Outcome): Phase {
    match o
    case Returns(id) => Returned(id)
    case RaisesInProgress => Raised
    case RaisesError => Raised
  }

  /** The steps one undisturbed caller takes once it may call the provider, and from the start. */
  function Tail(t: nat, deduped: bool, w: Weather): seq<Event> {
    if w.ledgerRaises then [CallOut(t, w.reply), Crash(t)]
    else if !w.reply.Accepts? then [CallOut(t, w.reply), WriteLedger(t)]
    else [CallOut(t, w.reply), WriteLedger(t), if deduped then LastStep(t, w.completion) else Complete(t)]
  }

  function LastStep(t: nat, c: Completion): Event {
    match c
    case Completes => Complete(t)
    case RaisesBefore => Crash(t)
    case RaisesAfter => CompleteRaises(t)
  }

  function Script(p: Port, t: nat, run: string, content: Content, w: Weather): seq<Event> {
    [Start(t, run, content), ClaimAtomic(t)]
    + if run != "" && SendKey(run, content) in p.keys then [] else Tail(t, run != "", w)
  }

  lemma RunTwo(s: Sys, a: Event, b: Event, es: seq<Event>)
    ensures Run(s, [a, b] + es) == Run(Next(Next(s, a), b), es)
  {
  }

  lemma RunOne(s: Sys, e: Event)
    ensures Run(s, [e]) == Next(s, e)
  {
  }

  /** The first two steps of the tail: the recording layer, up to its return or raise. */
  lemma RecordedRuns(s: Sys, t: nat, w: Weather)
    requires At(s, t, Calling) && FreshReply(s.port, w.reply)
    ensures
      var (p, outcome) := RecordedSend(s.port, s.tasks[t].key, s.tasks[t].content, w);
      Next(Next(s, CallOut(t, w.reply)), if w.ledgerRaises then Crash(t) else WriteLedger(t))
      == Goto(s.(port := p), t, if outcome.Returns? then Recorded(outcome.id) else Raised)
  {
  }

  lemma CloseRuns(s: Sys, t: nat, id: string, last: Event)
    requires t in s.tasks && last in {Crash(t), Complete(t), CompleteRaises(t)}
    ensures Next(Goto(s, t, Recorded(id)), last) ==
            if last.Crash? then Goto(s, t, Raised)
            else
              var key := s.tasks[t].key;
              Goto(s.(port := if key.Some? then CompleteKey(s.port, key.value, id) else s.port), t,
                   if last.Complete? then Returned(id) else Raised)
  {
  }

  lemma TailRuns(s: Sys, t: nat, w: Weather)
    requires At(s, t, Calling) && FreshReply(s.port, w.reply)
    ensures
      var key := s.tasks[t].key;
      var (p, outcome) := RecordedSend(s.port, key, s.tasks[t].content, w);
      Run(s, Tail(t, key.Some?, w)) ==
      if !outcome.Returns? || (key.Some? && w.completion.RaisesBefore?) then Goto(s.(port := p), t, Raised)
      else
        Goto(s.(port := if key.Some? then CompleteKey(p, key.value, outcome.id) else p), t,
             if key.Some? && w.completion.RaisesAfter? then Raised else Returned(outcome.id))
  {
    var (p, outcome) := RecordedSend(s.port, s.tasks[t].key, s.tasks[t].content, w);
    var step := if w.ledgerRaises then Crash(t) else WriteLedger(t);
    RecordedRuns(s, t, w);
    if outcome.Returns? {
      var last := if s.tasks[t].key.Some? then LastStep(t, w.completion) else Complete(t);
      CloseRuns(s.(port := p), t, outcome.id, last);
      RunTwo(s, CallOut(t, w.reply), step, [last]);
      RunOne(Goto(s.(port := p), t, Recorded(outcome.id)), last);
      assert [CallOut(t, w.reply), step] + [last] == Tail(t, s.tasks[t].key.Some?, w);
    } else {
      RunTwo(s, CallOut(t, w.reply), step, []);
      assert [CallOut(t, w.reply), step] + [] == Tail(t, s.tasks[t].key.Some?, w);
    }
  }

  /** The sequential `send` the class runs is one of the interleaved runs, so every theorem
      above speaks about it too. */
  lemma SendIsARun(s: Sys, t: nat, run: string, content: Content, w: Weather)
    requires t !in s.tasks && FreshReply(s.port, w.reply)
    ensures
      var (p, outcome) := DedupedSend(s.port, run, content, w);
      var key := if run == "" then None else Some(SendKey(run, content));
      Run(s, Script(s.port, t, run, content, w)) == Sys(p, s.tasks[t := Task(key, content, PhaseOf(outcome))])
  {
    var s2 := Next(Next(s, Start(t, run, content)), ClaimAtomic(t));
    if run != "" && SendKey(run, content) in s.port.keys {
      RunTwo(s, Start(t, run, content), ClaimAtomic(t), []);
    } else {
      RunTwo(s, Start(t, run, content), ClaimAtomic(t), Tail(t, run != "", w));
      TailRuns(s2, t, w);
    }
  }
}
