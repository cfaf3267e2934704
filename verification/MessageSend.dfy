/**
 Sending an outbound message (`services/message_send.py`, the message store of `api/.../db.py`,
 the delivery webhook and the retry route): the service as the source writes it, over a message
 store and the write seam, and what a replay and a batch of callbacks do to one row.
 */
module MessageSend {
  import opened Common
  import opened Messages
  import opened OutboundPort

  type Rows = map<Id, Message>

  predicate Keyed(rows: Rows) {
    forall id | id in rows :: rows[id].id == id
  }

  /** The secret-shape scrub applied to every text field at the operator tier. */
  function ScrubContent(text: string -> string, c: Content): Content {
    Content(c.channel, text(c.recipient), text(c.subject), text(c.body), text(c.templateRef),
            text(c.contactId), text(c.listingKey), text(c.transactionId))
  }

  /** Channels without a subject line persist it empty. */
  function Shaped(c: Content): Content {
    if c.channel.Email? then c else c.(subject := "")
  }

  function DirectId(run: string, c: Content, uuid: nat): Id {
    if run == "" then Uuid(uuid) else Hash(SendKey(run, c))
  }

  function DirectDraft(text: string -> string, run: string, raw: Content, uuid: nat): Message {
    var c := ScrubContent(text, Shaped(raw));
    Message(DirectId(run, c, uuid), c, Drafted, "")
  }

  function DraftId(run: string, context: DraftContext, uuid: nat): Id {
    if run == "" then Uuid(uuid) else Hash(Key(run, "draft_message", DraftArgs(context)))
  }

  predicate Blank(s: string) {
    forall c | c in s :: c in " \t\n\r\U{0B}\U{0C}\U{1C}\U{1D}\U{1E}\U{1F}"
  }

  /** The approver's edits applied to a row, then scrubbed. */
  function Edited(text: string -> string, row: Message, subject: Option<string>, body: Option<string>): Message {
    var c := row.content;
    var c1 := if subject.Some? then c.(subject := subject.value) else c;
    var c2 := if body.Some? then c1.(body := body.value) else c1;
    row.(content := ScrubContent(text, c2))
  }

  predicate AlreadySent(rows: Rows, id: Id) {
    id in rows && rows[id].status in {Sent, Delivered}
  }

  predicate Drivable(s: Status) {
    s.PendingApproval? || s.Failed?
  }

  /** The forward-only transition, as the in-memory store decides it. */
  function Advance(rows: Rows, id: Id, s: Status): Rows {
    if id in rows && Rank(s) > Rank(rows[id].status) then rows[id := rows[id].(status := s)] else rows
  }

  /** The same, as the SQL store decides it: UPDATE … WHERE status IN (the lower ranked ones). */
  function AdvanceSql(rows: Rows, id: Id, s: Status): Rows {
    var lower := set q: Status | Rank(q) < Rank(s);
    if id in rows && rows[id].status in lower then rows[id := rows[id].(status := s)] else rows
  }

  datatype Result = Stored(row: Message) | Reraised | Unknown | BlankEdit

  /** From `port.send` to the final save. */
  function Ship(rows: Rows, port: Port, run: string, m: Message, w: Weather): (Rows, Port, Result) {
    var (p, o) := DedupedSend(port, run, m.content, w);
    if o.Returns? then
      var sent := m.(status := Sent, providerId := o.id);
      (rows[m.id := sent], p, Stored(sent))
    else (rows[m.id := m.(status := Failed)], p, Reraised)
  }

  function DirectSend(rows: Rows, port: Port, run: string, m: Message, w: Weather): (Rows, Port, Result) {
    if AlreadySent(rows, m.id) then (rows, port, Stored(rows[m.id]))
    else Ship(rows[m.id := m], port, run, m, w)
  }

  function ApprovedSend(text: string -> string, rows: Rows, port: Port, id: Id, subject: Option<string>,
                        body: Option<string>, run: string, w: Weather): (Rows, Port, Result) {
    if body.Some? && Blank(body.value) then (rows, port, BlankEdit)
    else if id !in rows then (rows, port, Unknown)
    else if !Drivable(rows[id].status) then (rows, port, Stored(rows[id]))
    else
      var m := Edited(text, rows[id], subject, body);
      Ship(rows[m.id := m], port, run, m, w)
  }

  function MarkedRejected(rows: Rows, id: Id): (Rows, Result) {
    if id !in rows then (rows, Unknown)
    else if !rows[id].status.PendingApproval? then (rows, Stored(rows[id]))
    else
      var m := rows[id].(status := Rejected);
      (rows[id := m], Stored(m))
  }

  class MessageStore {
    var rows: Rows

    constructor ()
      ensures rows == map[]
    {
      rows := map[];
    }

    method SaveMessage(m: Message)
      modifies this
      ensures rows == old(rows)[m.id := m]
    {
      rows := rows[m.id := m];
    }

    /** The webhook lookup: a row holding this provider id, if any; the empty id of a
        not-yet-sent row never matches. */
    method GetByProviderId(providerId: string) returns (row: Option<Message>)
      ensures row.Some? ==> providerId != "" && row.value in rows.Values && row.value.providerId == providerId
      ensures row.None? ==> providerId == "" || forall id | id in rows :: rows[id].providerId != providerId
    {
      if providerId == "" {
        return None;
      }
      var rest := rows.Keys;
      while rest != {}
        invariant rest <= rows.Keys
        invariant forall id | id in rows && id !in rest :: rows[id].providerId != providerId
        decreases rest
      {
        var id :| id in rest;
        if rows[id].providerId == providerId {
          return Some(rows[id]);
        }
        rest := rest - {id};
      }
      return None;
    }

    method AdvanceMessageStatus(id: Id, s: Status) returns (row: Option<Message>)
      modifies this
      ensures rows == Advance(old(rows), id, s)
      ensures row == if id in rows then Some(rows[id]) else None
    {
      if id !in rows {
        return None;
      }
      var current := rows[id];
      if Rank(s) > Rank(current.status) {
        current := current.(status := s);
        rows := rows[id := current];
      }
      return Some(current);
    }
  }

  datatype CallbackReply = Ignored | Processed(id: Id, status: Status)

  /** The delivery webhook past its signature check; `status` is None for the provider states
      that map to nothing. */
  method DeliveryWebhook(store: MessageStore, providerId: string, status: Option<Status>) returns (reply: CallbackReply)
    requires Keyed(store.rows)
    modifies store
    ensures reply.Ignored? ==> store.rows == old(store.rows)
    ensures reply.Ignored? ==>
              || status == None || providerId == ""
              || forall id | id in store.rows :: store.rows[id].providerId != providerId
    ensures reply.Processed? ==>
              && status.Some? && providerId != "" && reply.id in old(store.rows)
              && old(store.rows)[reply.id].providerId == providerId
              && store.rows == Advance(old(store.rows), reply.id, status.value)
              && reply.status == store.rows[reply.id].status
  {
    if status == None {
      return Ignored;
    }
    var found := store.GetByProviderId(providerId);
    if found == None {
      return Ignored;
    }
    var row := store.AdvanceMessageStatus(found.value.id, status.value);
    assert row.Some?;  // rows are never deleted between the lookup and the transition
    return Processed(found.value.id, row.value.status);
  }

  class MessageSendService {
    const store: MessageStore
    const seam: WriteSeam
    const text: string -> string

    constructor (store: MessageStore, seam: WriteSeam, text: string -> string)
      ensures this.store == store && this.seam == seam && this.text == text
    {
      this.store, this.seam, this.text := store, seam, text;
    }

    /** From `port.send` to the final save, as both send paths end. */
    method ShipRow(run: string, m: Message, w: Weather) returns (result: Result)
      modifies store, seam
      ensures (store.rows, seam.State(), result) == Ship(old(store.rows), old(seam.State()), run, m, w)
    {
      var o := seam.Send(run, m.content, w);
      match o
      case Returns(id) =>
        store.SaveMessage(m.(status := Sent, providerId := id));
        return Stored(store.rows[m.id]);
      case _ =>
        store.SaveMessage(m.(status := Failed));
        return Reraised;
    }

    method SendDirect(run: string, raw: Content, uuid: nat, w: Weather) returns (result: Result)
      modifies store, seam
      ensures (store.rows, seam.State(), result) ==
              DirectSend(old(store.rows), old(seam.State()), run, DirectDraft(text, run, raw, uuid), w)
    {
      var m := DirectDraft(text, run, raw, uuid);
      if m.id in store.rows && store.rows[m.id].status in {Sent, Delivered} {
        return Stored(store.rows[m.id]);
      }
      store.SaveMessage(m);
      result := ShipRow(run, m, w);
    }

    method SendApproved(id: Id, subject: Option<string>, body: Option<string>, run: string, w: Weather)
      returns (result: Result)
      requires Keyed(store.rows)
      modifies store, seam
      ensures (store.rows, seam.State(), result) ==
              ApprovedSend(text, old(store.rows), old(seam.State()), id, subject, body, run, w)
    {
      if body.Some? && Blank(body.value) {
        return BlankEdit;
      }
      if id !in store.rows {
        return Unknown;
      }
      var row := store.rows[id];
      if row.status != PendingApproval && row.status != Failed {
        return Stored(row);
      }
      var m := Edited(text, row, subject, body);
      if m != row {
        store.SaveMessage(m);
      }
      assert store.rows == old(store.rows)[m.id := m];
      result := ShipRow(run, m, w);
    }

    method MarkRejected(id: Id) returns (result: Result)
      requires Keyed(store.rows)
      modifies store
      ensures (store.rows, result) == MarkedRejected(old(store.rows), id)
    {
      if id !in store.rows {
        return Unknown;
      }
      var row := store.rows[id];
      if row.status != PendingApproval {
        return Stored(row);
      }
      store.SaveMessage(row.(status := Rejected));
      return Stored(store.rows[row.id]);
    }

    /** `drafted` is what the (possibly non-deterministic) backend would produce now. */
    method DraftForApproval(run: string, context: DraftContext, drafted: Content, uuid: nat) returns (result: Result)
      modifies store
      ensures
        var id := DraftId(run, context, uuid);
        var m := Message(id, ScrubContent(text, Shaped(drafted)), PendingApproval, "");
        if id in old(store.rows) then store.rows == old(store.rows) && result == Stored(old(store.rows)[id])
        else store.rows == old(store.rows)[id := m] && result == Stored(m)
    {
      var id := DraftId(run, context, uuid);
      if id in store.rows {
        return Stored(store.rows[id]);
      }
      store.SaveMessage(Message(id, ScrubContent(text, Shaped(drafted)), PendingApproval, ""));
      return Stored(store.rows[id]);
    }

    /** The retry route: FAILED rows only, under a fresh run. None is its 409. */
    method RetryFailed(id: Id, freshRun: string, w: Weather) returns (result: Option<Result>)
      requires Keyed(store.rows)
      modifies store, seam
      ensures id in old(store.rows) && !old(store.rows)[id].status.Failed? ==>
                result == None && store.rows == old(store.rows) && seam.State() == old(seam.State())
      ensures id !in old(store.rows) || old(store.rows)[id].status.Failed? ==>
                var (rows, port, r) :=
                  ApprovedSend(text, old(store.rows), old(seam.State()), id, None, None, freshRun, w);
                store.rows == rows && seam.State() == port && result == Some(r)
    {
      if id !in store.rows {
        return Some(Unknown);
      }
      if store.rows[id].status != Failed {
        return None;
      }
      var r := SendApproved(id, None, None, freshRun, w);
      return Some(r);
    }
  }

  /** A same-run replay after the key was claimed, wherever the first attempt died: the seam
      is not touched; the row keeps its SENT or DELIVERED form, or recovers the original id
      as SENT when the key was completed, and ends FAILED when it was not. */
  lemma DirectReplay(rows: Rows, port: Port, run: string, m: Message, w: Weather)
    requires run != "" && m.id == Hash(SendKey(run, m.content)) && m.id.key in port.keys
    ensures
      var (rows', port', result) := DirectSend(rows, port, run, m, w);
      var claim := port.keys[m.id.key];
      && port' == port
      && rows' == (if AlreadySent(rows, m.id) then rows
                   else if claim.Completed? then rows[m.id := m.(status := Sent, providerId := claim.result)]
                   else rows[m.id := m.(status := Failed)])
      && (result == Reraised <==> !AlreadySent(rows, m.id) && claim == Pending)
      && (result != Reraised ==> result == Stored(rows'[m.id]))
  {
  }

  lemma SqlAdvanceAgrees(rows: Rows, id: Id, s: Status)
    ensures AdvanceSql(rows, id, s) == Advance(rows, id, s)
  {
  }

  function AdvanceAll(rows: Rows, id: Id, batch: seq<Status>): (rows': Rows)
    ensures rows'.Keys == rows.Keys
    decreases |batch|
  {
    if batch == [] then rows else AdvanceAll(Advance(rows, id, batch[0]), id, batch[1..])
  }

  /** Any batch of callbacks, in any order and with any repetition, ends at the highest rank
      among the row and the batch, and touches nothing but that row's status. */
  lemma {:induction false} CallbacksReachMaximum(rows: Rows, id: Id, batch: seq<Status>)
    requires id in rows
    ensures
      var rows' := AdvanceAll(rows, id, batch);
      && id in rows' && rows' == rows[id := rows[id].(status := rows'[id].status)]
      && (rows'[id].status == rows[id].status || rows'[id].status in batch)
      && Rank(rows'[id].status) >= Rank(rows[id].status)
      && (forall s | s in batch :: Rank(rows'[id].status) >= Rank(s))
    decreases |batch|
  {
    if batch == [] {
      assert rows == rows[id := rows[id].(status := rows[id].status)];
    } else {
      CallbacksReachMaximum(Advance(rows, id, batch[0]), id, batch[1..]);
    }
  }

  lemma CallbackOrderIsIrrelevant(rows: Rows, id: Id, b1: seq<Status>, b2: seq<Status>)
    requires id in rows && forall s :: s in b1 <==> s in b2
    ensures Rank(AdvanceAll(rows, id, b1)[id].status) == Rank(AdvanceAll(rows, id, b2)[id].status)
  {
    CallbacksReachMaximum(rows, id, b1);
    CallbacksReachMaximum(rows, id, b2);
  }

  // What is stored and sent, field by field.

  /** `c` with this subject and body, every text field scrubbed. */
  predicate IsScrubOf(text: string -> string, shipped: Content, c: Content, subject: string, body: string) {
    && shipped.channel == c.channel && shipped.subject == text(subject) && shipped.body == text(body)
    && shipped.recipient == text(c.recipient) && shipped.templateRef == text(c.templateRef)
    && shipped.contactId == text(c.contactId) && shipped.listingKey == text(c.listingKey)
    && shipped.transactionId == text(c.transactionId)
  }

  /** At most one new provider call, which carries exactly this content; and none at all, as no other
      effect on the seam, without it. */
  predicate CallsWith(port: Port, port': Port, content: Content) {
    || port'.provider == port.provider
    || (port'.provider != [] && port'.provider[..|port'.provider| - 1] == port.provider
        && port'.provider[|port'.provider| - 1].content == content)
  }

  /** How a send leaves the row and its answer: SENT under a provider id, or FAILED and raised. */
  predicate EndsAs(row: Message, result: Result, id: Id) {
    && row.id == id
    && if result.Reraised? then row.status.Failed? else row.status.Sent? && result == Stored(row)
  }

  lemma ShipEnds(rows: Rows, port: Port, run: string, m: Message, w: Weather)
    ensures
      var (rows', port', result) := Ship(rows, port, run, m, w);
      && m.id in rows' && rows' == rows[m.id := rows'[m.id]] && rows'[m.id].content == m.content
      && EndsAs(rows'[m.id], result, m.id) && CallsWith(port, port', m.content)
      && (result.Reraised? ==> rows'[m.id].providerId == m.providerId)
  {
    assert (port.provider + [Call(None, m.content, AcceptedId(w.reply))])[..|port.provider|] == port.provider;
  }

  /** An approver's edit reaches the row and the provider: the edited subject and body, or the row's
      own where there is no edit, and every text field scrubbed. */
  lemma EditIsSent(text: string -> string, rows: Rows, port: Port, id: Id, subject: Option<string>,
                   body: Option<string>, run: string, w: Weather)
    requires Keyed(rows) && id in rows && rows[id].status in {PendingApproval, Failed}
    requires body.Some? ==> exists c :: c in body.value && c !in " \t\n\r\U{0B}\U{0C}\U{1C}\U{1D}\U{1E}\U{1F}"
    ensures
      var (rows', port', result) := ApprovedSend(text, rows, port, id, subject, body, run, w);
      var old_ := rows[id].content;
      && id in rows' && rows' == rows[id := rows'[id]]
      && IsScrubOf(text, rows'[id].content, old_, if subject.Some? then subject.value else old_.subject,
                   if body.Some? then body.value else old_.body)
      && EndsAs(rows'[id], result, id) && CallsWith(port, port', rows'[id].content)
  {
    ShipEnds(rows[id := Edited(text, rows[id], subject, body)], port, run, Edited(text, rows[id], subject, body), w);
  }

  /** What is refused: a blank edit, an unknown row, and a row that is neither pending nor failed; each
      without effect. */
  lemma ApprovalIsRefused(text: string -> string, rows: Rows, port: Port, id: Id, subject: Option<string>,
                          body: Option<string>, run: string, w: Weather)
    ensures
      var refused := ApprovedSend(text, rows, port, id, subject, body, run, w);
      && (body == Some("") || body == Some(" \n\t") ==> refused == (rows, port, BlankEdit))
      && (body == None && id !in rows ==> refused == (rows, port, Unknown))
      && (body == None && id in rows && rows[id].status !in {PendingApproval, Failed} ==>
            refused == (rows, port, Stored(rows[id])))
  {
  }

  /** What a direct send stores and sends: the rendered message, scrubbed, without a subject on a
      channel that has none; inside a run under the key of exactly that text. */
  lemma DirectIsSent(text: string -> string, rows: Rows, port: Port, run: string, raw: Content, uuid: nat, w: Weather)
    ensures
      var m := DirectDraft(text, run, raw, uuid);
      var (rows', port', result) := DirectSend(rows, port, run, m, w);
      && IsScrubOf(text, m.content, raw, if raw.channel == Email then raw.subject else "", raw.body)
      && m.status == Drafted && m.providerId == ""
      && m.id == (if run == "" then Uuid(uuid)
                  else Hash(Key(run, if raw.channel == Email then "send_email" else "send_sms", SendArgs(m.content))))
      && if m.id in rows && rows[m.id].status in {Sent, Delivered} then
           rows' == rows && port' == port && result == Stored(rows[m.id])
         else
           && m.id in rows' && rows' == rows[m.id := rows'[m.id]] && rows'[m.id].content == m.content
           && EndsAs(rows'[m.id], result, m.id) && CallsWith(port, port', m.content)
  {
    var m := DirectDraft(text, run, raw, uuid);
    ShipEnds(rows[m.id := m], port, run, m, w);
  }

  /** The identity of a draft: its run and context, never what the backend wrote. */
  lemma DraftIdentity(run: string, context: DraftContext, uuid: nat)
    ensures DraftId(run, context, uuid)
            == if run == "" then Uuid(uuid) else Hash(Key(run, "draft_message", DraftArgs(context)))
  {
  }

  /** A rejection touches a pending row only. */
  lemma RejectionIsFinal(rows: Rows, id: Id)
    ensures
      var (rows', result) := MarkedRejected(rows, id);
      if id in rows && rows[id].status == PendingApproval then
        && rows' == rows[id := rows[id].(status := Rejected)] && result == Stored(rows'[id])
      else rows' == rows && result == if id in rows then Stored(rows[id]) else Unknown
  {
  }
}
