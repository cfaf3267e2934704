/**
 The lifecycle of an `outbound_messages` row. `World` cuts the operations of `MessageSend` at their
 awaits: one send operation at a time (the source's own assumption for replays), which may crash
 at any cut, with delivery callbacks looked up and applied anywhere in between.
 */
module MessageLifecycle {
  import opened Common
  import opened Messages
  import opened MessageSend
  import opened OutboundPort

  /** The suspended send operation: what it has computed, and where it stopped. `edited` says
      the message came through `send_approved`. */
  datatype Op =
    | Idle
    | DirectRead(run: string, m: Message)
    | DirectSave(run: string, m: Message)
    | ApproveRead(run: string, id: Id, subject: Option<string>, body: Option<string>)
    | ApproveSave(run: string, m: Message)
    | InPort(t: nat, m: Message, approved: bool)
    | SaveSent(m: Message, providerId: string, key: Option<Key>, approved: bool)
    | SaveFailed(m: Message, approved: bool)
    | RetryRead(run: string, id: Id)
    | RejectRead(id: Id)
    | RejectSave(m: Message)
    | DraftRead(m: Message)
    | DraftSave(m: Message)

  /** A delivery callback that has looked its row up, by the provider id it reports on, and not yet
      applied its status. */
  datatype Callback = Callback(id: Id, status: Status, providerId: string)

  /** The last five fields are history: the key each row was last sent under, the rows
      `send_approved` has driven, the rows a human approval has named, the rows drafted
      for approval, and the provider id of the callback that last moved each row. */
  datatype World = World(
    sys: Sys,
    rows: Rows,
    op: Op,
    callbacks: multiset<Callback>,
    via: map<Id, Option<Key>>,
    driven: set<Id>,
    decided: set<Id>,
    drafts: set<Id>,
    moved: map<Id, string>)

  datatype WorldEvent =
    | BeginDirect(run: string, raw: Content, uuid: nat)
    | BeginApprove(run: string, id: Id, subject: Option<string>, body: Option<string>)
    | BeginRetry(run: string, id: Id)
    | BeginReject(id: Id)
    | BeginDraft(run: string, context: DraftContext, drafted: Content, uuid: nat)
    | Step(t: nat)
    | PortStep(e: OutboundPort.Event)
    | CrashOp
    | Lookup(id: Id, status: Status)
    | Apply(c: Callback)

  function EnterPort(w: World, t: nat, run: string, m: Message, approved: bool): World {
    w.(sys := OutboundPort.Next(w.sys, Start(t, run, m.content)), op := InPort(t, m, approved))
  }

  /** The next segment of the suspended operation; `t` names a port task if one is started. */
  function StepOp(text: string -> string, w: World, t: nat): World {
    match w.op
    case Idle => w
    case DirectRead(run, m) =>
      w.(op := if AlreadySent(w.rows, m.id) then Idle else DirectSave(run, m))
    case DirectSave(run, m) =>
      if t in w.sys.tasks then w
      else EnterPort(w.(rows := w.rows[m.id := m], via := w.via - {m.id}), t, run, m, false)
    case ApproveRead(run, id, subject, body) =>
      if id in w.rows && Drivable(w.rows[id].status)
      then w.(op := ApproveSave(run, Edited(text, w.rows[id], subject, body)), driven := w.driven + {id})
      else w.(op := Idle)
    case ApproveSave(run, m) =>
      if t in w.sys.tasks then w else EnterPort(w.(rows := w.rows[m.id := m]), t, run, m, true)
    case InPort(task, m, approved) =>
      if task !in w.sys.tasks then w
      else (match w.sys.tasks[task].phase
            case Returned(id) => w.(op := SaveSent(m, id, w.sys.tasks[task].key, approved))
            case Raised => w.(op := SaveFailed(m, approved))
            case _ => w)
    case SaveSent(m, id, key, _) =>
      w.(rows := w.rows[m.id := m.(status := Sent, providerId := id)], via := w.via[m.id := key], op := Idle)
    case SaveFailed(m, _) =>
      w.(rows := w.rows[m.id := m.(status := Failed)], op := Idle)
    case RetryRead(run, id) =>
      w.(op := if id in w.rows && w.rows[id].status.Failed? then ApproveRead(run, id, None, None) else Idle)
    case RejectRead(id) =>
      w.(op := if id in w.rows && w.rows[id].status.PendingApproval?
               then RejectSave(w.rows[id].(status := Rejected)) else Idle)
    case RejectSave(m) =>
      w.(rows := w.rows[m.id := m], op := Idle)
    case DraftRead(m) =>
      w.(op := if m.id in w.rows then Idle else DraftSave(m))
    case DraftSave(m) =>
      w.(rows := w.rows[m.id := m], drafts := w.drafts + {m.id}, op := Idle)
  }

  /** The row a step saves, if it saves one. */
  function Written(w: World, t: nat): Option<Message> {
    match w.op
    case DirectSave(_, m) => if t in w.sys.tasks then None else Some(m)
    case ApproveSave(_, m) => if t in w.sys.tasks then None else Some(m)
    case SaveSent(m, id, _, _) => Some(m.(status := Sent, providerId := id))
    case SaveFailed(m, _) => Some(m.(status := Failed))
    case RejectSave(m) => Some(m)
    case DraftSave(m) => Some(m)
    case _ => None
  }

  lemma StepWrites(text: string -> string, w: World, t: nat)
    ensures Written(w, t).None? ==> StepOp(text, w, t).rows == w.rows
    ensures Written(w, t).Some? ==>
              StepOp(text, w, t).rows == w.rows[Written(w, t).value.id := Written(w, t).value]
  {
  }

  /** A callback that takes effect. */
  predicate Moves(rows: Rows, c: Callback) {
    c.id in rows && Rank(c.status) > Rank(rows[c.id].status)
  }

  /** One that reports success, on a row holding no provider id. */
  predicate IsStale(rows: Rows, c: Callback) {
    Moves(rows, c) && rows[c.id].providerId == "" && c.status != Failed
  }

  /** One that reports delivery, on a row that no longer holds the id it reports on. */
  predicate Misreports(rows: Rows, c: Callback) {
    Moves(rows, c) && c.status.Delivered? && rows[c.id].providerId != c.providerId
  }

  predicate IsDeliveryStatus(s: Status) {
    s in {Sent, Delivered, Failed}
  }

  function NextWorld(text: string -> string, w: World, e: WorldEvent): World {
    match e
    case BeginDirect(run, raw, uuid) =>
      var m := DirectDraft(text, run, raw, uuid);
      if w.op.Idle? && (run == "" ==> Uuid(uuid) !in w.rows) then w.(op := DirectRead(run, m)) else w
    case BeginApprove(run, id, subject, body) =>
      if w.op.Idle? && (body.Some? ==> !Blank(body.value))
      then w.(op := ApproveRead(run, id, subject, body), decided := w.decided + {id}) else w
    case BeginRetry(run, id) =>
      if w.op.Idle? then w.(op := RetryRead(run, id)) else w
    case BeginReject(id) =>
      if w.op.Idle? then w.(op := RejectRead(id)) else w
    case BeginDraft(run, context, drafted, uuid) =>
      var m := Message(DraftId(run, context, uuid), ScrubContent(text, Shaped(drafted)), PendingApproval, "");
      if w.op.Idle? && (run == "" ==> Uuid(uuid) !in w.rows) then w.(op := DraftRead(m)) else w
    case Step(t) => StepOp(text, w, t)
    case PortStep(e) =>
      if w.op.InPort? && !e.Start? && e.t == w.op.t then w.(sys := OutboundPort.Next(w.sys, e)) else w
    case CrashOp =>
      if w.op.InPort? then w.(op := Idle, sys := OutboundPort.Next(w.sys, Crash(w.op.t))) else w.(op := Idle)
    case Lookup(id, status) =>
      if id in w.rows && w.rows[id].providerId != "" && IsDeliveryStatus(status)
      then w.(callbacks := w.callbacks + multiset{Callback(id, status, w.rows[id].providerId)}) else w
    case Apply(c) =>
      if c in w.callbacks
      then w.(callbacks := w.callbacks - multiset{c}, rows := Advance(w.rows, c.id, c.status),
              moved := if Moves(w.rows, c) then w.moved[c.id := c.providerId] else w.moved)
      else w
  }

  function RunWorld(text: string -> string, w: World, es: seq<WorldEvent>): World
    decreases |es|
  {
    if es == [] then w else RunWorld(text, NextWorld(text, w, es[0]), es[1..])
  }

  lemma StepKeepsMoved(text: string -> string, w: World, t: nat)
    ensures StepOp(text, w, t).moved == w.moved
  {
  }

  lemma OthersKeepRows(text: string -> string, w: World, e: WorldEvent)
    requires !e.Step? && !e.Apply?
    ensures NextWorld(text, w, e).rows == w.rows && NextWorld(text, w, e).moved == w.moved
  {
    if !e.Lookup? && !e.CrashOp? && !e.PortStep? {
      BeginKeepsRows(text, w, e);
    }
  }

  lemma BeginKeepsRows(text: string -> string, w: World, e: WorldEvent)
    requires e.BeginDirect? || e.BeginApprove? || e.BeginRetry? || e.BeginReject? || e.BeginDraft?
    ensures NextWorld(text, w, e).rows == w.rows && NextWorld(text, w, e).moved == w.moved
  {
  }

  predicate InitWorld(w: World) {
    w == World(Sys(Port(map[], [], []), map[]), map[], Idle, multiset{}, map[], {}, {}, {}, map[])
  }

  /** The row of a direct send inside a run: its id is the send's own dedupe key. */
  predicate IsRunDirect(id: Id) {
    id.Hash? && id.key.args.SendArgs?
  }

  predicate Gated(s: Status) {
    s.PendingApproval? || s.Rejected?
  }

  ghost predicate RowOk(w: World, id: Id)
    requires id in w.rows
  {
    var row := w.rows[id];
    && row.id == id
    && (row.status in {Drafted, PendingApproval, Rejected} ==> row.providerId == "")
    && (Gated(row.status) ==> !IsRunDirect(id) && forall c | c in w.callbacks :: c.id != id)
    && (IsRunDirect(id) ==> id.key.run != "" && id.key == SendKey(id.key.run, id.key.args.content))
    && (IsRunDirect(id) && id !in w.driven ==> row.content == id.key.args.content)
    && (id in w.drafts ==> !IsRunDirect(id) && (Gated(row.status) || id in w.decided))
  }

  /** What stands behind the provider id of a sent row: under a run, the completed result of the
      key the row was sent under, whose content is exactly the row's; outside one, a provider
      call that carried it. */
  predicate SentUnder(w: World, id: Id)
    requires id in w.rows
  {
    var row := w.rows[id];
    && id in w.via
    && (match w.via[id]
        case Some(k) =>
          && k == SendKey(k.run, row.content) && k.run != ""
          && k in w.sys.port.keys && w.sys.port.keys[k] == Completed(row.providerId)
        case None => Call(None, row.content, Some(row.providerId)) in w.sys.port.provider)
    && (IsRunDirect(id) && id !in w.driven ==> w.via[id] == Some(id.key))
  }

  /** A SENT or DELIVERED row that holds a provider id was sent under it. */
  predicate SentOk(w: World, id: Id)
    requires id in w.rows
  {
    AlreadySent(w.rows, id) && w.rows[id].providerId != "" ==> SentUnder(w, id)
  }

  predicate NoCallbackFor(w: World, id: Id) {
    forall c | c in w.callbacks :: c.id != id
  }

  predicate DirectMessage(w: World, run: string, m: Message) {
    && m.status == Drafted && m.providerId == "" && m.id !in w.drafts
    && (if run == "" then m.id.Uuid? && m.id !in w.rows else m.id == Hash(SendKey(run, m.content)))
  }

  /** The row a send in progress will overwrite. */
  predicate TargetOk(w: World, m: Message, approved: bool) {
    && m.id in w.rows
    && if approved then
         && w.rows[m.id] == m && Drivable(m.status) && m.id in w.driven
         && (m.id in w.drafts ==> m.id in w.decided)
       else
         && m.status == Drafted && m.providerId == ""
         && (IsRunDirect(m.id) ==> m.content == m.id.key.args.content)
         && w.rows[m.id].content == m.content
         && !Gated(w.rows[m.id].status) && m.id !in w.drafts
         && (!IsRunDirect(m.id) ==> w.rows[m.id].status == Drafted && NoCallbackFor(w, m.id))
  }

  ghost predicate OpOk(w: World) {
    match w.op
    case Idle => true
    case DirectRead(run, m) =>
      DirectMessage(w, run, m)
    case DirectSave(run, m) =>
      DirectMessage(w, run, m)
    case ApproveRead(_, id, _, _) => id in w.drafts ==> id in w.decided
    case ApproveSave(_, m) =>
      && m.id in w.rows && Drivable(m.status) && m.id in w.driven && (m.id in w.drafts ==> m.id in w.decided)
      && w.rows[m.id].status == m.status && w.rows[m.id].providerId == m.providerId
    case InPort(t, m, approved) =>
      && TargetOk(w, m, approved) && t in w.sys.tasks
      && w.sys.tasks[t].content == m.content
      && TaskKeyOk(w.sys.tasks[t].key, m, approved)
    case SaveSent(m, id, key, approved) =>
      && TargetOk(w, m, approved) && id != "" && TaskKeyOk(key, m, approved)
      && (match key
          case Some(k) => k in w.sys.port.keys && w.sys.port.keys[k] == Completed(id)
          case None => Call(None, m.content, Some(id)) in w.sys.port.provider)
    case SaveFailed(m, approved) => TargetOk(w, m, approved)
    case RetryRead(_, _) => true
    case RejectRead(_) => true
    case RejectSave(m) =>
      m.id in w.rows && w.rows[m.id].status.PendingApproval? && m == w.rows[m.id].(status := Rejected)
    case DraftRead(m) => DraftOk(m)
    case DraftSave(m) => DraftOk(m) && m.id !in w.rows
  }

  predicate TaskKeyOk(key: Option<Key>, m: Message, approved: bool) {
    && (key.Some? ==> key.value == SendKey(key.value.run, m.content) && key.value.run != "")
    && (!approved && IsRunDirect(m.id) ==> key == Some(m.id.key))
  }

  predicate DraftOk(m: Message) {
    m.status.PendingApproval? && m.providerId == "" && !IsRunDirect(m.id)
  }

  /** No port result is ever the empty id: the provider only returns non-empty ids. */
  ghost predicate NonEmptyResults(s: Sys) {
    && (forall c | c in s.port.provider && c.accepted.Some? :: c.accepted.value != "")
    && (forall t | t in s.tasks ::
          var p := s.tasks[t].phase;
          p.Returned? || p.Accepted? || p.Recorded? ==> p.id != "")
    && (forall k | k in s.port.keys && s.port.keys[k].Completed? :: s.port.keys[k].result != "")
  }

  ghost predicate RowsOk(w: World) {
    && (forall id | id in w.rows :: RowOk(w, id))
    && (forall c | c in w.callbacks :: c.id in w.rows && IsDeliveryStatus(c.status))
    && w.drafts <= w.rows.Keys
  }

  ghost predicate SendsOk(w: World) {
    forall id | id in w.rows :: SentOk(w, id)
  }

  /** `OpOk` stands as one fact here: taken apart into its cases it slows every proof down. */
  ghost predicate WorldInv(w: World) {
    OutboundPort.Inv(w.sys) && NonEmptyResults(w.sys) && RowsOk(w) && OpOk(w) == true && SendsOk(w)
  }

  lemma NonEmptyStep(s: Sys, e: OutboundPort.Event)
    requires NonEmptyResults(s)
    ensures NonEmptyResults(OutboundPort.Next(s, e))
  {
  }

  lemma TasksFrame(s: Sys, e: OutboundPort.Event)
    requires e.Start? || e.t in s.tasks
    ensures
      var s' := OutboundPort.Next(s, e);
      && s.tasks.Keys <= s'.tasks.Keys && s.port.provider <= s'.port.provider
      && (forall t | t in s.tasks :: s'.tasks[t].key == s.tasks[t].key && s'.tasks[t].content == s.tasks[t].content)
  {
  }

  lemma PortFrame(s: Sys, e: OutboundPort.Event)
    requires OutboundPort.Inv(s) && (e.Start? || e.t in s.tasks)
    ensures
      var s' := OutboundPort.Next(s, e);
      && OutboundPort.Inv(s')
      && s.tasks.Keys <= s'.tasks.Keys
      && (forall t | t in s.tasks :: s'.tasks[t].key == s.tasks[t].key && s'.tasks[t].content == s.tasks[t].content)
      && (forall k | k in s.port.keys && s.port.keys[k].Completed? ::
            k in s'.port.keys && s'.port.keys[k] == s.port.keys[k])
      && s.port.provider <= s'.port.provider
  {
    OutboundPort.InvStep(s, e);
    TasksFrame(s, e);
    var s' := OutboundPort.Next(s, e);
    forall k | k in s.port.keys && s.port.keys[k].Completed?
      ensures k in s'.port.keys && s'.port.keys[k] == s.port.keys[k]
    {
      OutboundPort.CompletedStep(s, e, k);
    }
  }

  /** Moving the port alone keeps everything said about the rows. */
  lemma RowsFrame(w: World, sys: Sys, op: Op)
    requires RowsOk(w) && SendsOk(w)
    requires forall k | k in w.sys.port.keys && w.sys.port.keys[k].Completed? ::
               k in sys.port.keys && sys.port.keys[k] == w.sys.port.keys[k]
    requires w.sys.port.provider <= sys.port.provider
    ensures RowsOk(w.(sys := sys, op := op)) && SendsOk(w.(sys := sys, op := op))
  {
  }

  lemma PortKeepsInv(w: World, e: OutboundPort.Event)
    requires WorldInv(w) && w.op.InPort? && !e.Start? && e.t == w.op.t
    ensures WorldInv(w.(sys := OutboundPort.Next(w.sys, e)))
  {
    PortFrame(w.sys, e);
    NonEmptyStep(w.sys, e);
    RowsFrame(w, OutboundPort.Next(w.sys, e), w.op);
  }

  /** Entering the port starts a task of the message's own key. */
  lemma EnterKeepsInv(w: World, t: nat, run: string, m: Message, approved: bool)
    requires OutboundPort.Inv(w.sys) && NonEmptyResults(w.sys) && RowsOk(w) && SendsOk(w) && OpOk(w)
    requires TargetOk(w, m, approved) && t !in w.sys.tasks
    requires !approved && IsRunDirect(m.id) ==> m.id == Hash(SendKey(run, m.content)) && run != ""
    ensures WorldInv(EnterPort(w, t, run, m, approved))
  {
    PortFrame(w.sys, Start(t, run, m.content));
    NonEmptyStep(w.sys, Start(t, run, m.content));
    RowsFrame(w, OutboundPort.Next(w.sys, Start(t, run, m.content)), InPort(t, m, approved));
    EnterOpOk(w, t, run, m, approved);
  }

  lemma EnterOpOk(w: World, t: nat, run: string, m: Message, approved: bool)
    requires TargetOk(w, m, approved) && t !in w.sys.tasks
    requires !approved && IsRunDirect(m.id) ==> m.id == Hash(SendKey(run, m.content)) && run != ""
    ensures OpOk(EnterPort(w, t, run, m, approved))
  {
  }

  /** Saving one row, with the other rows and the callbacks as they were. */
  lemma SaveKeepsRows(w: World, w': World, m: Message)
    requires RowsOk(w) && SendsOk(w)
    requires w'.rows == w.rows[m.id := m] && w'.sys == w.sys && w'.callbacks == w.callbacks
    requires w'.driven == w.driven && w'.decided == w.decided && w.drafts <= w'.drafts <= w.drafts + {m.id}
    requires forall id | id != m.id && id in w.via :: id in w'.via && w'.via[id] == w.via[id]
    requires RowOk(w', m.id) && SentOk(w', m.id)
    ensures RowsOk(w') && SendsOk(w')
  {
  }

  lemma DirectSaveKeepsInv(text: string -> string, w: World, t: nat)
    requires WorldInv(w) && w.op.DirectSave?
    ensures WorldInv(StepOp(text, w, t))
  {
    var m := w.op.m;
    assert m.id in w.rows ==> RowOk(w, m.id);
    var saved := w.(rows := w.rows[m.id := m], via := w.via - {m.id}, op := Idle);
    SaveKeepsRows(w, saved, m);
    if t !in w.sys.tasks {
      EnterKeepsInv(saved, t, w.op.run, m, false);
    }
  }

  lemma ApproveSaveKeepsInv(text: string -> string, w: World, t: nat)
    requires WorldInv(w) && w.op.ApproveSave?
    ensures WorldInv(StepOp(text, w, t))
  {
    var m := w.op.m;
    assert RowOk(w, m.id);
    var saved := w.(rows := w.rows[m.id := m], op := Idle);
    SaveKeepsRows(w, saved, m);
    if t !in w.sys.tasks {
      EnterKeepsInv(saved, t, w.op.run, m, true);
    }
  }

  lemma SaveKeepsInv(text: string -> string, w: World, t: nat)
    requires WorldInv(w) && (w.op.SaveSent? || w.op.SaveFailed? || w.op.RejectSave? || w.op.DraftSave?)
    ensures WorldInv(StepOp(text, w, t))
  {
    var w' := StepOp(text, w, t);
    assert w.op.m.id in w.rows ==> RowOk(w, w.op.m.id);
    SavedRowOk(text, w, t);
    SaveKeepsRows(w, w', w'.rows[w.op.m.id]);
  }

  lemma SavedRowOk(text: string -> string, w: World, t: nat)
    requires OpOk(w) && (w.op.SaveSent? || w.op.SaveFailed? || w.op.RejectSave? || w.op.DraftSave?)
    requires w.op.m.id in w.rows ==> RowOk(w, w.op.m.id)
    requires forall c | c in w.callbacks :: c.id in w.rows
    ensures
      var w' := StepOp(text, w, t);
      w.op.m.id in w'.rows && RowOk(w', w.op.m.id) && SentOk(w', w.op.m.id)
  {
  }

  /** The segments that read and decide, writing nothing. */
  lemma ReadKeepsInv(text: string -> string, w: World, t: nat)
    requires WorldInv(w)
    requires w.op.DirectRead? || w.op.InPort? || w.op.RetryRead? || w.op.RejectRead? || w.op.DraftRead?
    ensures WorldInv(StepOp(text, w, t))
  {
    if w.op.InPort? {
      assert OutboundPort.TaskOk(w.sys, w.op.t);
      PortDoneOpOk(text, w, t);
    } else {
      ReadOpOk(text, w, t);
    }
    ReopKeepsInv(w, StepOp(text, w, t).op);
  }

  lemma ReadOpOk(text: string -> string, w: World, t: nat)
    requires OpOk(w) && forall id | id in w.rows :: RowOk(w, id)
    requires w.op.DirectRead? || w.op.RetryRead? || w.op.RejectRead? || w.op.DraftRead?
    ensures StepOp(text, w, t) == w.(op := StepOp(text, w, t).op) && OpOk(StepOp(text, w, t))
  {
  }

  lemma PortDoneOpOk(text: string -> string, w: World, t: nat)
    requires OpOk(w) && w.op.InPort? && NonEmptyResults(w.sys) && OutboundPort.TaskOk(w.sys, w.op.t)
    ensures StepOp(text, w, t) == w.(op := StepOp(text, w, t).op) && OpOk(StepOp(text, w, t))
  {
  }

  lemma StepKeepsInv(text: string -> string, w: World, t: nat)
    requires WorldInv(w)
    ensures WorldInv(StepOp(text, w, t))
  {
    match w.op
    case Idle =>
    case DirectSave(_, _) => DirectSaveKeepsInv(text, w, t);
    case ApproveRead(_, _, _, _) => ApproveReadKeepsInv(text, w, t);
    case ApproveSave(_, _) => ApproveSaveKeepsInv(text, w, t);
    case SaveSent(_, _, _, _) => SaveKeepsInv(text, w, t);
    case SaveFailed(_, _) => SaveKeepsInv(text, w, t);
    case RejectSave(_) => SaveKeepsInv(text, w, t);
    case DraftSave(_) => SaveKeepsInv(text, w, t);
    case _ => ReadKeepsInv(text, w, t);
  }

  lemma ApproveReadKeepsInv(text: string -> string, w: World, t: nat)
    requires WorldInv(w) && w.op.ApproveRead?
    ensures WorldInv(StepOp(text, w, t))
  {
    var w' := StepOp(text, w, t);
    if w.op.id in w.rows && Drivable(w.rows[w.op.id].status) {
      assert RowOk(w, w.op.id);
      DriveKeepsRows(w, w.op.id, w'.op);
    } else {
      ReopKeepsInv(w, Idle);
    }
  }

  lemma DriveKeepsRows(w: World, driven: Id, op: Op)
    requires RowsOk(w) && SendsOk(w)
    ensures RowsOk(w.(driven := w.driven + {driven}, op := op)) && SendsOk(w.(driven := w.driven + {driven}, op := op))
  {
  }

  lemma LookupKeepsInv(w: World, c: Callback)
    requires WorldInv(w) && c.id in w.rows && w.rows[c.id].providerId != "" && IsDeliveryStatus(c.status)
    ensures WorldInv(w.(callbacks := w.callbacks + multiset{c}))
  {
    LookupKeepsOp(w, c);
    LookupKeepsRows(w, c);
  }

  lemma LookupKeepsOp(w: World, c: Callback)
    requires OpOk(w) && c.id in w.rows && RowOk(w, c.id) && w.rows[c.id].providerId != ""
    ensures OpOk(w.(callbacks := w.callbacks + multiset{c}))
  {
  }

  lemma LookupKeepsRows(w: World, c: Callback)
    requires RowsOk(w) && SendsOk(w)
    requires c.id in w.rows && w.rows[c.id].providerId != "" && IsDeliveryStatus(c.status)
    ensures
      var w' := w.(callbacks := w.callbacks + multiset{c});
      RowsOk(w') && SendsOk(w')
  {
  }

  lemma ApplyKeepsInv(text: string -> string, w: World, c: Callback)
    requires WorldInv(w) && c in w.callbacks
    ensures WorldInv(NextWorld(text, w, Apply(c)))
  {
    ApplyKeepsRows(text, w, c);
    ApplyKeepsOp(text, w, c);
  }

  lemma ApplyKeepsRows(text: string -> string, w: World, c: Callback)
    requires RowsOk(w) && SendsOk(w) && c in w.callbacks
    ensures RowsOk(NextWorld(text, w, Apply(c))) && SendsOk(NextWorld(text, w, Apply(c)))
  {
    var w' := NextWorld(text, w, Apply(c));
    assert forall d | d in w'.callbacks :: d in w.callbacks;
    forall id | id in w'.rows
      ensures RowOk(w', id) && SentOk(w', id)
    {
      assert RowOk(w, id) && SentOk(w, id);
      AppliedRowOk(text, w, c, id);
    }
  }

  lemma AppliedRowOk(text: string -> string, w: World, c: Callback, id: Id)
    requires c in w.callbacks && c.id in w.rows && IsDeliveryStatus(c.status)
    requires id in w.rows && RowOk(w, id) && SentOk(w, id)
    ensures var w' := NextWorld(text, w, Apply(c)); id in w'.rows && RowOk(w', id) && SentOk(w', id)
  {
  }

  lemma ApplyKeepsOp(text: string -> string, w: World, c: Callback)
    requires OpOk(w) && c in w.callbacks && c.id in w.rows && RowOk(w, c.id) && IsDeliveryStatus(c.status)
    ensures OpOk(NextWorld(text, w, Apply(c)))
  {
  }

  lemma WorldInvStep(text: string -> string, w: World, e: WorldEvent)
    requires WorldInv(w)
    ensures WorldInv(NextWorld(text, w, e))
  {
    match e
    case Step(t) => StepKeepsInv(text, w, t);
    case PortStep(pe) =>
      if w.op.InPort? && !pe.Start? && pe.t == w.op.t { PortKeepsInv(w, pe); }
    case CrashOp =>
      if w.op.InPort? { PortKeepsInv(w, Crash(w.op.t)); }
      CrashKeepsInv(w);
    case Lookup(id, status) =>
      if id in w.rows && w.rows[id].providerId != "" && IsDeliveryStatus(status) {
        LookupKeepsInv(w, Callback(id, status, w.rows[id].providerId));
      }
    case Apply(c) =>
      if c in w.callbacks { ApplyKeepsInv(text, w, c); }
    case _ => BeginKeepsInv(text, w, e);
  }

  lemma BeginKeepsInv(text: string -> string, w: World, e: WorldEvent)
    requires WorldInv(w)
    requires e.BeginDirect? || e.BeginApprove? || e.BeginRetry? || e.BeginReject? || e.BeginDraft?
    ensures WorldInv(NextWorld(text, w, e))
  {
    var w' := NextWorld(text, w, e);
    if e.BeginApprove? {
      if w' != w {
        DecideKeepsInv(w, e.id);
        ReopKeepsInv(w.(decided := w.decided + {e.id}), w'.op);
      }
    } else {
      BegunOpOk(text, w, e);
      ReopKeepsInv(w, w'.op);
    }
  }

  lemma BegunOpOk(text: string -> string, w: World, e: WorldEvent)
    requires OpOk(w) && RowsOk(w) && (e.BeginDirect? || e.BeginRetry? || e.BeginReject? || e.BeginDraft?)
    ensures NextWorld(text, w, e) == w.(op := NextWorld(text, w, e).op) && OpOk(NextWorld(text, w, e))
  {
  }

  lemma DecideKeepsInv(w: World, id: Id)
    requires WorldInv(w)
    ensures w.op.Idle? ==> WorldInv(w.(decided := w.decided + {id}))
  {
  }

  lemma ReopKeepsInv(w: World, op: Op)
    requires WorldInv(w) && OpOk(w.(op := op))
    ensures WorldInv(w.(op := op))
  {
  }

  lemma CrashKeepsInv(w: World)
    requires WorldInv(w)
    ensures WorldInv(w.(op := Idle))
    ensures w.op.InPort? && WorldInv(w.(sys := OutboundPort.Next(w.sys, Crash(w.op.t)))) ==>
              WorldInv(w.(op := Idle, sys := OutboundPort.Next(w.sys, Crash(w.op.t))))
  {
    ReopKeepsInv(w, Idle);
    if w.op.InPort? {
      var crashed := w.(sys := OutboundPort.Next(w.sys, Crash(w.op.t)));
      if WorldInv(crashed) {
        ReopKeepsInv(crashed, Idle);
      }
    }
  }

  lemma {:induction false} WorldInvRun(text: string -> string, w: World, es: seq<WorldEvent>)
    requires WorldInv(w)
    ensures WorldInv(RunWorld(text, w, es))
    decreases |es|
  {
    if es != [] {
      WorldInvStep(text, w, es[0]);
      WorldInvRun(text, NextWorld(text, w, es[0]), es[1..]);
    }
  }

  lemma InitWorldInv(w: World)
    requires InitWorld(w)
    ensures WorldInv(w)
  {
  }

  /** What backs a row that reads SENT or DELIVERED: its provider id is not empty; sent under a
      run, its key is completed with that id, and the single provider call and single ledger
      record for that key carried exactly the row's content and that id; sent outside one, the
      provider was called with exactly the row's content. */
  predicate Backed(w: World, id: Id)
    requires id in w.rows
  {
    && w.rows[id].providerId != "" && SentUnder(w, id)
    && (w.via[id].Some? ==> Settled(w.sys.port, w.via[id].value, w.rows[id].providerId))
  }

  /** Over every run, a SENT or DELIVERED row is backed if and only if it holds a provider id;
      for a direct send never re-driven through the gate or the retry route, the key behind it
      is the row id itself. */
  lemma SentRowsAreBacked(text: string -> string, w: World, es: seq<WorldEvent>, id: Id)
    requires InitWorld(w)
    requires AlreadySent(RunWorld(text, w, es).rows, id)
    ensures
      var w' := RunWorld(text, w, es);
      && (Backed(w', id) <==> w'.rows[id].providerId != "")
      && (Backed(w', id) && IsRunDirect(id) && id !in w'.driven ==>
            w'.via[id] == Some(id.key) && w'.rows[id].content == id.key.args.content)
  {
    var w' := RunWorld(text, w, es);
    InitWorldInv(w);
    WorldInvRun(text, w, es);
    assert RowOk(w', id) && SentOk(w', id);
    if w'.rows[id].providerId != "" && w'.via[id].Some? {
      assert OutboundPort.KeyOk(w'.sys.port, w'.via[id].value);
    }
  }

  /** No row reads SENT or DELIVERED without a provider id. */
  predicate AllSentHoldIds(w: World) {
    forall id | id in w.rows && AlreadySent(w.rows, id) :: w.rows[id].providerId != ""
  }

  /** The exact condition under which the one step that could break it does: applying a pending
      callback keeps every sent row backed if and only if it does not report success to a row
      without a provider id. */
  lemma ApplyKeepsBackingIff(text: string -> string, w: World, c: Callback)
    requires WorldInv(w) && AllSentHoldIds(w) && c in w.callbacks
    ensures AllSentHoldIds(NextWorld(text, w, Apply(c))) <==> !IsStale(w.rows, c)
  {
    var w' := NextWorld(text, w, Apply(c));
    if IsStale(w.rows, c) {
      assert c.id in w'.rows && AlreadySent(w'.rows, c.id);
    }
  }

  /** Every other step keeps it, so a stale success callback is the only way to lose it. */
  lemma OthersKeepBacking(text: string -> string, w: World, e: WorldEvent)
    requires OpOk(w) && AllSentHoldIds(w) && !e.Apply?
    ensures AllSentHoldIds(NextWorld(text, w, e))
  {
    var w' := NextWorld(text, w, e);
    forall id | id in w'.rows && AlreadySent(w'.rows, id)
      ensures w'.rows[id].providerId != ""
    {
      if e.Step? {
        StepWrites(text, w, e.t);
        if Written(w, e.t).Some? { WrittenIsSound(w, e.t); }
      }
    }
  }

  /** Every DELIVERED row was reported delivered under the provider id it holds. */
  predicate AllReported(w: World) {
    forall id | id in w.rows && w.rows[id].status.Delivered? :: id in w.moved && w.moved[id] == w.rows[id].providerId
  }

  /** Exactly when applying a pending callback keeps that: it does not report a delivery to a row
      that has meanwhile been sent again and holds another id. */
  lemma ApplyKeepsReportIff(text: string -> string, w: World, c: Callback)
    requires WorldInv(w) && AllReported(w) && c in w.callbacks
    ensures AllReported(NextWorld(text, w, Apply(c))) <==> !Misreports(w.rows, c)
  {
    var w' := NextWorld(text, w, Apply(c));
    if Misreports(w.rows, c) {
      assert c.id in w'.rows && w'.rows[c.id].status.Delivered? && w'.moved[c.id] == c.providerId;
    }
  }

  /** No other step makes a row DELIVERED or changes the id of one that is. */
  lemma OthersKeepReport(text: string -> string, w: World, e: WorldEvent)
    requires OpOk(w) && AllReported(w) && !e.Apply?
    ensures AllReported(NextWorld(text, w, e))
  {
    if e.Step? {
      StepKeepsReport(text, w, e.t);
    } else {
      OthersKeepRows(text, w, e);
    }
  }

  lemma StepKeepsReport(text: string -> string, w: World, t: nat)
    requires OpOk(w) && AllReported(w)
    ensures AllReported(StepOp(text, w, t))
  {
    StepWrites(text, w, t);
    StepKeepsMoved(text, w, t);
    if Written(w, t).Some? {
      WrittenIsNotDelivered(w, t);
    }
  }

  lemma WrittenIsNotDelivered(w: World, t: nat)
    requires OpOk(w) && Written(w, t).Some?
    ensures !Written(w, t).value.status.Delivered?
  {
  }

  /** Over a run: as long as no callback applied misreports, every DELIVERED row was reported
      delivered under the id it holds. */
  predicate NeverMisreports(text: string -> string, w: World, es: seq<WorldEvent>)
    decreases |es|
  {
    es == [] ||
    (&& (es[0].Apply? && es[0].c in w.callbacks ==> !Misreports(w.rows, es[0].c))
     && NeverMisreports(text, NextWorld(text, w, es[0]), es[1..]))
  }

  lemma {:induction false} ReportedRun(text: string -> string, w: World, es: seq<WorldEvent>)
    requires WorldInv(w) && AllReported(w) && NeverMisreports(text, w, es)
    ensures AllReported(RunWorld(text, w, es))
    decreases |es|
  {
    if es != [] {
      var w' := NextWorld(text, w, es[0]);
      if !es[0].Apply? {
        OthersKeepReport(text, w, es[0]);
      } else if es[0].c in w.callbacks {
        ApplyKeepsReportIff(text, w, es[0].c);
      }
      WorldInvStep(text, w, es[0]);
      ReportedRun(text, w', es[1..]);
    }
  }

  lemma WrittenIsSound(w: World, t: nat)
    requires OpOk(w) && Written(w, t).Some?
    ensures Written(w, t).value.status in {Sent, Delivered} ==> Written(w, t).value.providerId != ""
  {
  }

  predicate TerminalFor(w: World, id: Id) {
    id in w.rows && (w.rows[id].status.Rejected? || w.rows[id].status.Delivered?)
  }

  /** The step saves that very row. */
  predicate Overwrites(w: World, e: WorldEvent, id: Id) {
    e.Step? && Written(w, e.t).Some? && Written(w, e.t).value.id == id
  }

  /** A send of that row is past its check of the row's status and has yet to save its end. */
  predicate Engaged(op: Op, id: Id) {
    match op
    case DirectSave(_, m) => m.id == id
    case InPort(_, m, _) => m.id == id
    case SaveSent(m, _, _, _) => m.id == id
    case SaveFailed(m, _) => m.id == id
    case _ => false
  }

  /** What a save can land on: never a rejected row, and one already sent only in a send that
      is past its check. */
  lemma SaveLandsOn(w: World, t: nat, id: Id)
    requires OpOk(w) && id in w.rows && RowOk(w, id) && Overwrites(w, Step(t), id)
    ensures !w.rows[id].status.Rejected?
    ensures w.rows[id].status in {Sent, Delivered} ==> Engaged(w.op, id)
  {
  }

  /** Outside a save, a row changes only by a callback of higher rank. */
  lemma OtherEventsKeepRow(text: string -> string, w: World, e: WorldEvent, id: Id)
    requires id in w.rows && !Overwrites(w, e, id)
    ensures
      var (row, rows') := (w.rows[id], NextWorld(text, w, e).rows);
      && id in rows'
      && if e.Apply? && e.c in w.callbacks && e.c.id == id && Rank(e.c.status) > Rank(row.status)
         then rows'[id] == row.(status := e.c.status) else rows'[id] == row
  {
    if e.Step? {
      StepWrites(text, w, e.t);
    } else if !e.Apply? {
      OthersKeepRows(text, w, e);
    }
  }

  /** A row that is sent or rejected does not become engaged: every send checks its status. */
  lemma StaysUnengaged(text: string -> string, w: World, e: WorldEvent, id: Id)
    requires OpOk(w) && id in w.rows && RowOk(w, id) && !Engaged(w.op, id)
    requires w.rows[id].status in {Sent, Delivered, Rejected}
    ensures !Engaged(NextWorld(text, w, e).op, id)
  {
    if e.Step? {
      StepStaysUnengaged(text, w, e.t, id);
    }
  }

  lemma StepStaysUnengaged(text: string -> string, w: World, t: nat, id: Id)
    requires OpOk(w) && id in w.rows && RowOk(w, id) && !Engaged(w.op, id)
    requires w.rows[id].status in {Sent, Delivered, Rejected}
    ensures !Engaged(StepOp(text, w, t).op, id)
  {
  }

  lemma TerminalStep(text: string -> string, w: World, e: WorldEvent, id: Id)
    requires WorldInv(w) && TerminalFor(w, id) && !Engaged(w.op, id)
    ensures id in NextWorld(text, w, e).rows && NextWorld(text, w, e).rows[id] == w.rows[id]
    ensures !Engaged(NextWorld(text, w, e).op, id)
  {
    assert RowOk(w, id);
    StaysUnengaged(text, w, e, id);
    if Overwrites(w, e, id) {
      SaveLandsOn(w, e.t, id);
    } else {
      OtherEventsKeepRow(text, w, e, id);
    }
  }

  lemma {:induction false} UnengagedForever(text: string -> string, w: World, es: seq<WorldEvent>, id: Id)
    requires WorldInv(w) && TerminalFor(w, id) && !Engaged(w.op, id)
    ensures id in RunWorld(text, w, es).rows && RunWorld(text, w, es).rows[id] == w.rows[id]
    decreases |es|
  {
    if es != [] {
      TerminalStep(text, w, es[0], id);
      WorldInvStep(text, w, es[0]);
      UnengagedForever(text, NextWorld(text, w, es[0]), es[1..], id);
    }
  }

  /** A terminal row a send is engaged on is a DELIVERED one, and the send is a direct one. */
  lemma EngagedTerminal(w: World, id: Id)
    requires OpOk(w) && TerminalFor(w, id) && RowOk(w, id) && Engaged(w.op, id)
    ensures w.rows[id].status.Delivered? && w.op.m.status != Delivered
  {
  }

  lemma FreshTask(s: Sys) returns (t: nat)
    ensures t !in s.tasks
  {
    t := 0;
    var below: set<nat> := {};
    while t in s.tasks
      invariant below <= s.tasks.Keys && forall b | b in below :: b < t
      decreases s.tasks.Keys - below
    {
      below, t := below + {t}, t + 1;
    }
  }

  /** The port call has returned or raised: the two steps left save the row. */
  lemma FinishRuns(text: string -> string, w: World)
    requires w.op.InPort? && w.op.t in w.sys.tasks
    requires w.sys.tasks[w.op.t].phase.Returned? || w.sys.tasks[w.op.t].phase.Raised?
    ensures
      var w' := RunWorld(text, w, [Step(0), Step(0)]);
      var (m, phase) := (w.op.m, w.sys.tasks[w.op.t].phase);
      var saved := if phase.Returned? then m.(status := Sent, providerId := phase.id) else m.(status := Failed);
      w'.op == Idle && w'.rows == w.rows[m.id := saved] && w'.sys == w.sys && w'.callbacks == w.callbacks
  {
    var w1 := StepOp(text, w, 0);
    assert RunWorld(text, w1, [Step(0)]) == RunWorld(text, StepOp(text, w1, 0), []);
    assert RunWorld(text, w, [Step(0), Step(0)]) == RunWorld(text, w1, [Step(0)]);
  }

  /** Such a send can still reach a save of its row, whatever the port does. */
  lemma EngagedOverwrites(text: string -> string, w: World, id: Id) returns (es: seq<WorldEvent>)
    requires WorldInv(w) && TerminalFor(w, id) && Engaged(w.op, id)
    ensures id in RunWorld(text, w, es).rows && !RunWorld(text, w, es).rows[id].status.Delivered?
    ensures w.rows[id].status.Delivered?
  {
    assert RowOk(w, id);
    EngagedTerminal(w, id);
    if w.op.DirectSave? {
      var t := FreshTask(w.sys);
      es := [Step(t)];
      assert RunWorld(text, w, es) == RunWorld(text, StepOp(text, w, t), []);
    } else if w.op.InPort? {
      es := PortCanEnd(text, w);
    } else {
      es := [Step(0)];
      assert RunWorld(text, w, es) == RunWorld(text, StepOp(text, w, 0), []);
    }
  }

  /** From inside the port, the send's own save is always reachable. */
  lemma PortCanEnd(text: string -> string, w: World) returns (es: seq<WorldEvent>)
    requires w.op.InPort? && w.op.t in w.sys.tasks
    ensures w.op.m.id in RunWorld(text, w, es).rows && RunWorld(text, w, es).rows[w.op.m.id].status in {Sent, Failed}
  {
    var finish := [Step(0), Step(0)];
    if w.sys.tasks[w.op.t].phase.Returned? {
      es := finish;
      FinishRuns(text, w);
    } else {
      var crash := PortStep(Crash(w.op.t));
      es := [crash] + finish;
      assert es[1..] == finish;
      FinishRuns(text, NextWorld(text, w, crash));
    }
  }

  ghost predicate KeptOverEveryRun(text: string -> string, w: World, id: Id)
    requires id in w.rows
  {
    forall es: seq<WorldEvent> :: id in RunWorld(text, w, es).rows && RunWorld(text, w, es).rows[id] == w.rows[id]
  }

  /** Exactly when REJECTED and DELIVERED are absorbing: from a reachable world every run leaves
      the row exactly as it is if and only if no send of that row is past its status check. */
  lemma TerminalForever(text: string -> string, w: World, id: Id)
    requires WorldInv(w) && TerminalFor(w, id)
    ensures KeptOverEveryRun(text, w, id) <==> !Engaged(w.op, id)
  {
    if Engaged(w.op, id) {
      var es := EngagedOverwrites(text, w, id);
      assert RunWorld(text, w, es).rows[id] != w.rows[id];
    } else {
      forall es: seq<WorldEvent>
        ensures id in RunWorld(text, w, es).rows && RunWorld(text, w, es).rows[id] == w.rows[id]
      {
        UnengagedForever(text, w, es, id);
      }
    }
  }

  /** A rejected row is rejected for good, with no condition at all. */
  lemma RejectedForever(text: string -> string, w: World, es: seq<WorldEvent>, id: Id)
    requires WorldInv(w) && id in w.rows && w.rows[id].status.Rejected?
    ensures id in RunWorld(text, w, es).rows && RunWorld(text, w, es).rows[id] == w.rows[id]
  {
    assert RowOk(w, id);
    if Engaged(w.op, id) {
      EngagedTerminal(w, id);
    }
    UnengagedForever(text, w, es, id);
  }

  /** SENT leaves only to DELIVERED or FAILED, changing nothing but the status, and stays clear
      of any send: the hypothesis holds again as long as the row is sent. */
  lemma SentStep(text: string -> string, w: World, e: WorldEvent, id: Id)
    requires WorldInv(w) && id in w.rows && w.rows[id].status.Sent? && !Engaged(w.op, id)
    ensures
      var w' := NextWorld(text, w, e);
      && id in w'.rows && w'.rows[id].status in {Sent, Delivered, Failed}
      && w'.rows[id] == w.rows[id].(status := w'.rows[id].status)
      && !Engaged(w'.op, id)
  {
    assert RowOk(w, id);
    StaysUnengaged(text, w, e, id);
    if Overwrites(w, e, id) {
      SaveLandsOn(w, e.t, id);
    } else {
      OtherEventsKeepRow(text, w, e, id);
    }
  }

  /** In every reachable world: drafted, pending and rejected rows have no provider id; and a
      port call in progress is never for a rejected row, nor for a row drafted for approval,
      inside a run or outside one, that no human approval has named. */
  lemma PortRespectsTheGate(text: string -> string, w: World, es: seq<WorldEvent>, id: Id)
    requires InitWorld(w) && id in RunWorld(text, w, es).rows
    ensures
      var w' := RunWorld(text, w, es);
      && (w'.rows[id].status in {Drafted, PendingApproval, Rejected} ==> w'.rows[id].providerId == "")
      && (w'.op.InPort? && w'.op.m.id == id ==> !w'.rows[id].status.Rejected? && (id in w'.drafts ==> id in w'.decided))
      && (id in w'.drafts && !Gated(w'.rows[id].status) ==> id in w'.decided)
  {
    InitWorldInv(w);
    WorldInvRun(text, w, es);
    assert RowOk(RunWorld(text, w, es), id);
  }

  /** Being named by an approval means an approval event for that very row is in the run. */
  lemma {:induction false} DecidedByApproval(text: string -> string, w: World, es: seq<WorldEvent>, id: Id)
    requires id !in w.decided && id in RunWorld(text, w, es).decided
    ensures exists i :: 0 <= i < |es| && es[i].BeginApprove? && es[i].id == id
    decreases |es|
  {
    var w' := NextWorld(text, w, es[0]);
    if id !in w'.decided {
      DecidedByApproval(text, w', es[1..], id);
      var i :| 0 <= i < |es[1..]| && es[1..][i].BeginApprove? && es[1..][i].id == id;
      assert es[i + 1] == es[1..][i];
    } else {
      assert es[0].BeginApprove? && es[0].id == id;
    }
  }

  /** What begins an operation: none may be suspended; an edit to approve is not blank; and a random
      id is not one already stored. Otherwise the world stays as it is. */
  lemma OperationsBegin(text: string -> string, w: World, run: string, raw: Content, uuid: nat, id: Id,
                        subject: Option<string>, body: Option<string>, context: DraftContext)
    ensures
      var (direct, retry) := (NextWorld(text, w, BeginDirect(run, raw, uuid)), NextWorld(text, w, BeginRetry(run, id)));
      var (approve, reject) :=
        (NextWorld(text, w, BeginApprove(run, id, subject, body)), NextWorld(text, w, BeginReject(id)));
      var draft := NextWorld(text, w, BeginDraft(run, context, raw, uuid));
      var taken := run == "" && Uuid(uuid) in w.rows;
      && (!w.op.Idle? ==> direct == retry == approve == reject == draft == w)
      && (body.Some? && Blank(body.value) ==> approve == w) && (taken ==> direct == draft == w)
      && (w.op.Idle? ==> retry == w.(op := RetryRead(run, id)) && reject == w.(op := RejectRead(id)))
      && (w.op.Idle? && !taken ==>
            direct == w.(op := DirectRead(run, DirectDraft(text, run, raw, uuid))) && draft == w.(op := draft.op))
      && (w.op.Idle? && (body.Some? ==> !Blank(body.value)) ==>
            approve == w.(op := ApproveRead(run, id, subject, body), decided := w.decided + {id}))
  {
  }

  /** A crash ends the suspended operation, and its port task where there is one, and nothing else; the
      port moves only by steps of that task. */
  lemma CrashEndsTheOperation(text: string -> string, w: World, e: OutboundPort.Event)
    ensures
      var (crashed, moved) := (NextWorld(text, w, CrashOp), NextWorld(text, w, PortStep(e)));
      && crashed == w.(op := Idle, sys := if w.op.InPort? then OutboundPort.Next(w.sys, Crash(w.op.t)) else w.sys)
      && moved == (if w.op.InPort? && !e.Start? && e.t == w.op.t then w.(sys := OutboundPort.Next(w.sys, e)) else w)
  {
  }
}
