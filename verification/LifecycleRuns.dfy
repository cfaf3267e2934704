/**
 Runs of the machine of `MessageLifecycle`: each sequential operation of `MessageSend` is one, and
 so are the interleavings in which a promise fails.
 */
module LifecycleRuns {
  import opened Common
  import opened Messages
  import opened MessageLifecycle
  import opened MessageSend
  import opened OutboundPort

  function Lift(es: seq<OutboundPort.Event>): seq<WorldEvent> {
    seq(|es|, i requires 0 <= i < |es| => PortStep(es[i]))
  }

  lemma RunWorldAppend(text: string -> string, w: World, a: seq<WorldEvent>, b: seq<WorldEvent>)
    ensures RunWorld(text, w, a + b) == RunWorld(text, RunWorld(text, w, a), b)
    decreases |a|
  {
    if a == [] {
      assert a + b == b;
    } else {
      assert (a + b)[1..] == a[1..] + b;
      RunWorldAppend(text, NextWorld(text, w, a[0]), a[1..], b);
    }
  }

  lemma {:induction false} LiftRuns(text: string -> string, w: World, es: seq<OutboundPort.Event>)
    requires w.op.InPort? && forall e | e in es :: !e.Start? && e.t == w.op.t
    ensures RunWorld(text, w, Lift(es)) == w.(sys := OutboundPort.Run(w.sys, es))
    decreases |es|
  {
    if es != [] {
      assert Lift(es)[1..] == Lift(es[1..]);
      LiftRuns(text, w.(sys := OutboundPort.Next(w.sys, es[0])), es[1..]);
    }
  }

  /** An undisturbed operation that has just entered the port ends as the sequential `Ship`. */
  lemma ShipRuns(text: string -> string, w: World, t: nat, run: string, m: Message, approved: bool, weather: Weather)
    returns (es: seq<WorldEvent>)
    requires t !in w.sys.tasks && FreshReply(w.sys.port, weather.reply)
    ensures
      var w' := RunWorld(text, EnterPort(w, t, run, m, approved), es);
      var (rows, port, _) := Ship(w.rows, w.sys.port, run, m, weather);
      && w'.op == Idle && w'.rows == rows && w'.sys.port == port && w'.callbacks == w.callbacks
      && w'.sys.tasks.Keys <= w.sys.tasks.Keys + {t}
  {
    var entered := EnterPort(w, t, run, m, approved);
    var inPort, done := PortRuns(text, w, t, run, m, approved, weather);
    es := inPort + [Step(0), Step(0)];
    RunWorldAppend(text, entered, inPort, [Step(0), Step(0)]);
    FinishRuns(text, done);
  }

  /** The part of it between entering the port and the port's answer. */
  lemma PortRuns(text: string -> string, w: World, t: nat, run: string, m: Message, approved: bool, weather: Weather)
    returns (es: seq<WorldEvent>, done: World)
    requires t !in w.sys.tasks && FreshReply(w.sys.port, weather.reply)
    ensures
      var (entered, (port, o)) :=
        (EnterPort(w, t, run, m, approved), DedupedSend(w.sys.port, run, m.content, weather));
      && done == RunWorld(text, entered, es) == entered.(sys := done.sys)
      && done.sys.port == port && t in done.sys.tasks && done.sys.tasks[t].phase == PhaseOf(o)
      && done.sys.tasks.Keys == w.sys.tasks.Keys + {t}
  {
    var entered := EnterPort(w, t, run, m, approved);
    var script := OutboundPort.Script(w.sys.port, t, run, m.content, weather);
    OutboundPort.SendIsARun(w.sys, t, run, m.content, weather);
    ScriptIsOneTask(w.sys.port, t, run, m.content, weather);
    LiftRuns(text, entered, script[1..]);
    es, done := Lift(script[1..]), entered.(sys := OutboundPort.Run(entered.sys, script[1..]));
  }

  lemma ScriptIsOneTask(port: Port, t: nat, run: string, content: Content, weather: Weather)
    ensures
      var script := OutboundPort.Script(port, t, run, content, weather);
      script[0] == Start(t, run, content) && forall e | e in script[1..] :: !e.Start? && e.t == t
  {
  }

  /** The sequential direct send of the class is one of the interleaved runs. */
  lemma DirectIsARun(text: string -> string, w: World, t: nat, run: string, raw: Content, uuid: nat, weather: Weather)
    returns (es: seq<WorldEvent>)
    requires w.op.Idle? && t !in w.sys.tasks && FreshReply(w.sys.port, weather.reply)
    requires run == "" ==> Uuid(uuid) !in w.rows
    ensures
      var w' := RunWorld(text, w, es);
      var (rows, port, _) := DirectSend(w.rows, w.sys.port, run, DirectDraft(text, run, raw, uuid), weather);
      && w'.op == Idle && w'.rows == rows && w'.sys.port == port && w'.callbacks == w.callbacks
      && w'.sys.tasks.Keys <= w.sys.tasks.Keys + {t}
  {
    var m := DirectDraft(text, run, raw, uuid);
    var start := [BeginDirect(run, raw, uuid), Step(t)];
    var w1 := NextWorld(text, w, start[0]);
    var w2 := StepOp(text, w1, t);
    assert RunWorld(text, w1, start[1..]) == RunWorld(text, w2, start[1..][1..]);
    if AlreadySent(w.rows, m.id) {
      es := start;
    } else {
      var saved := w2.(rows := w.rows[m.id := m], via := w.via - {m.id});
      var rest := ShipRuns(text, saved, t, run, m, false, weather);
      es := start + ([Step(t)] + rest);
      RunWorldAppend(text, w, start, [Step(t)] + rest);
      RunWorldAppend(text, w2, [Step(t)], rest);
      assert RunWorld(text, w2, [Step(t)]) == RunWorld(text, StepOp(text, w2, t), []);
      assert StepOp(text, w2, t) == EnterPort(saved, t, run, m, false);
    }
  }

  /** From the read of the row to the end of an undisturbed approved send. */
  lemma ApproveReadRuns(text: string -> string, w: World, t: nat, weather: Weather) returns (es: seq<WorldEvent>)
    requires w.op.ApproveRead? && (w.op.body.Some? ==> !Blank(w.op.body.value))
    requires t !in w.sys.tasks && FreshReply(w.sys.port, weather.reply)
    requires w.op.id in w.rows ==> w.rows[w.op.id].id == w.op.id
    ensures
      var w' := RunWorld(text, w, es);
      var (rows, port, _) :=
        ApprovedSend(text, w.rows, w.sys.port, w.op.id, w.op.subject, w.op.body, w.op.run, weather);
      w'.op == Idle && w'.rows == rows && w'.sys.port == port && w'.callbacks == w.callbacks
  {
    var (id, run) := (w.op.id, w.op.run);
    var w1 := StepOp(text, w, t);
    assert RunWorld(text, w, [Step(t)]) == RunWorld(text, w1, []);
    if id !in w.rows || !Drivable(w.rows[id].status) {
      es := [Step(t)];
    } else {
      var m := Edited(text, w.rows[id], w.op.subject, w.op.body);
      var saved := w1.(rows := w.rows[m.id := m]);
      var rest := ShipRuns(text, saved, t, run, m, true, weather);
      es := [Step(t)] + ([Step(t)] + rest);
      RunWorldAppend(text, w, [Step(t)], [Step(t)] + rest);
      RunWorldAppend(text, w1, [Step(t)], rest);
      assert RunWorld(text, w1, [Step(t)]) == RunWorld(text, StepOp(text, w1, t), []);
      assert StepOp(text, w1, t) == EnterPort(saved, t, run, m, true);
    }
  }

  /** So is the sequential approved send. */
  lemma ApprovedIsARun(text: string -> string, w: World, t: nat, run: string, id: Id, subject: Option<string>,
                       body: Option<string>, weather: Weather)
    returns (es: seq<WorldEvent>)
    requires w.op.Idle? && t !in w.sys.tasks && FreshReply(w.sys.port, weather.reply)
    requires id in w.rows ==> w.rows[id].id == id
    ensures
      var w' := RunWorld(text, w, es);
      var (rows, port, _) := ApprovedSend(text, w.rows, w.sys.port, id, subject, body, run, weather);
      w'.op == Idle && w'.rows == rows && w'.sys.port == port && w'.callbacks == w.callbacks
  {
    if body.Some? && Blank(body.value) {
      es := [];
    } else {
      var begin := BeginApprove(run, id, subject, body);
      var w1 := NextWorld(text, w, begin);
      var rest := ApproveReadRuns(text, w1, t, weather);
      es := [begin] + rest;
      assert es[1..] == rest;
    }
  }

  /** And the retry route: a FAILED row is re-driven as an approved send without edits, and any
      other row is left alone. */
  lemma RetryIsARun(text: string -> string, w: World, t: nat, run: string, id: Id, weather: Weather)
    returns (es: seq<WorldEvent>)
    requires w.op.Idle? && t !in w.sys.tasks && FreshReply(w.sys.port, weather.reply)
    requires id in w.rows ==> w.rows[id].id == id
    ensures
      var w' := RunWorld(text, w, es);
      var (rows, port, _) := ApprovedSend(text, w.rows, w.sys.port, id, None, None, run, weather);
      && w'.op == Idle && w'.callbacks == w.callbacks
      && (if id in w.rows && w.rows[id].status.Failed? then w'.rows == rows && w'.sys.port == port
          else w'.rows == w.rows && w'.sys == w.sys)
  {
    var start := [BeginRetry(run, id), Step(t)];
    var w1 := NextWorld(text, w, start[0]);
    var w2 := StepOp(text, w1, t);
    assert RunWorld(text, w1, start[1..]) == RunWorld(text, w2, start[1..][1..]);
    assert RunWorld(text, w, start) == w2;
    if id in w.rows && w.rows[id].status.Failed? {
      var rest := ApproveReadRuns(text, w2, t, weather);
      es := start + rest;
      RunWorldAppend(text, w, start, rest);
    } else {
      es := start;
    }
  }

  /** And the rejection. */
  lemma RejectIsARun(text: string -> string, w: World, id: Id) returns (es: seq<WorldEvent>)
    requires w.op.Idle? && (id in w.rows ==> w.rows[id].id == id)
    ensures RunWorld(text, w, es) == w.(rows := MarkedRejected(w.rows, id).0)
  {
    var w1 := NextWorld(text, w, BeginReject(id));
    var w2 := StepOp(text, w1, 0);
    assert RunWorld(text, w1, [Step(0)]) == RunWorld(text, w2, []);
    assert RunWorld(text, w, [BeginReject(id), Step(0)]) == RunWorld(text, w1, [Step(0)]);
    if w2.op.Idle? {
      es := [BeginReject(id), Step(0)];
    } else {
      es := [BeginReject(id), Step(0)] + [Step(0)];
      RunWorldAppend(text, w, [BeginReject(id), Step(0)], [Step(0)]);
      assert RunWorld(text, w2, [Step(0)]) == RunWorld(text, StepOp(text, w2, 0), []);
    }
  }

  /** And the drafting of a row for approval: the first draft of a context is kept, whatever a
      replayed backend would write now. */
  lemma DraftIsARun(text: string -> string, w: World, run: string, context: DraftContext, drafted: Content, uuid: nat)
    requires w.op.Idle? && (run == "" ==> Uuid(uuid) !in w.rows)
    ensures
      var m := Message(DraftId(run, context, uuid), ScrubContent(text, Shaped(drafted)), PendingApproval, "");
      RunWorld(text, w, [BeginDraft(run, context, drafted, uuid), Step(0), Step(0)])
      == if m.id in w.rows then w else w.(rows := w.rows[m.id := m], drafts := w.drafts + {m.id})
  {
    var m := Message(DraftId(run, context, uuid), ScrubContent(text, Shaped(drafted)), PendingApproval, "");
    var w1 := w.(op := DraftRead(m));
    var w2 := w.(op := if m.id in w.rows then Idle else DraftSave(m));
    assert NextWorld(text, w, BeginDraft(run, context, drafted, uuid)) == w1 && StepOp(text, w1, 0) == w2;
    assert RunWorld(text, w2, [Step(0)]) == RunWorld(text, StepOp(text, w2, 0), []);
    assert RunWorld(text, w1, [Step(0), Step(0)]) == RunWorld(text, w2, [Step(0)]);
  }

  /** The stale window is real: two callbacks look up a sent row, the first fails it, a
      same-run replay resets it to DRAFTED, and the second then marks it DELIVERED with no
      provider id. */
  lemma StaleCallbackLosesTheId(w: World, raw: Content) returns (es: seq<WorldEvent>, id: Id)
    requires InitWorld(w)
    ensures
      var w' := RunWorld(s => s, w, es);
      && id in w'.rows && w'.rows[id].status == Delivered && w'.rows[id].providerId == ""
      && w'.op.InPort? && w'.op.m.id == id && w'.op.m.status == Drafted && At(w'.sys, w'.op.t, Starting)
  {
    var text: string -> string := s => s;
    var m := DirectDraft(text, "run", raw, 0);
    id := m.id;
    var first := FirstSend(text, w, raw);
    var w1 := RunWorld(text, w, first);
    var lookups := [Lookup(id, Delivered), Lookup(id, Failed), Apply(Callback(id, Failed, "p"))];
    var w2 := LostStart(text, w1, id);
    var replay := [BeginDirect("run", raw, 0), Step(1), Step(1)];
    ReplayResets(text, w2, raw, m);
    var late := Apply(Callback(id, Delivered, "p"));
    LateSuccess(text, RunWorld(text, w2, replay), m);
    es := first + (lookups + (replay + [late]));
    RunWorldAppend(text, w, first, lookups + (replay + [late]));
    RunWorldAppend(text, w1, lookups, replay + [late]);
    RunWorldAppend(text, w2, replay, [late]);
  }

  lemma FirstSend(text: string -> string, w: World, raw: Content) returns (es: seq<WorldEvent>)
    requires InitWorld(w)
    ensures
      var (w', m) := (RunWorld(text, w, es), DirectDraft(text, "run", raw, 0));
      && w'.rows == map[m.id := m.(status := Sent, providerId := "p")]
      && w'.op == Idle && w'.callbacks == multiset{} && 1 !in w'.sys.tasks
      && FreshReply(w'.sys.port, Accepts("p2")) && forall k | k in w'.sys.port.keys :: k == m.id.key
  {
    var weather := Weather(Accepts("p"), false, Completes);
    var m := DirectDraft(text, "run", raw, 0);
    es := DirectIsARun(text, w, 0, "run", raw, 0, weather);
    assert DedupedSend(w.sys.port, "run", m.content, weather).1 == Returns("p");
  }

  /** Within that window DELIVERED is not absorbing: when the replay's send then dies, its save
      turns the same row FAILED. */
  lemma DeliveredCanRegress(w: World, raw: Content) returns (es: seq<WorldEvent>, more: seq<WorldEvent>, id: Id)
    requires InitWorld(w)
    ensures id in RunWorld(s => s, w, es).rows && RunWorld(s => s, w, es).rows[id].status == Delivered
    ensures
      var w'' := RunWorld(s => s, w, es + more);
      id in w''.rows && w''.rows[id].status == Failed
  {
    var text: string -> string := s => s;
    es, id := StaleCallbackLosesTheId(w, raw);
    var w1 := RunWorld(text, w, es);
    var w2 := NextWorld(text, w1, PortStep(Crash(w1.op.t)));
    more := [PortStep(Crash(w1.op.t))] + [Step(0), Step(0)];
    RunWorldAppend(text, w, es, more);
    assert more[1..] == [Step(0), Step(0)];
    FinishRuns(text, w2);
  }

  lemma LostStart(text: string -> string, w: World, id: Id) returns (w': World)
    requires id in w.rows && w.rows[id].status == Sent && w.rows[id].providerId == "p" && w.callbacks == multiset{}
    ensures RunWorld(text, w, [Lookup(id, Delivered), Lookup(id, Failed), Apply(Callback(id, Failed, "p"))]) == w'
    ensures w'.rows == w.rows[id := w.rows[id].(status := Failed)]
    ensures w'.callbacks == multiset{Callback(id, Delivered, "p")} && w'.op == w.op && w'.sys == w.sys
  {
    var failed := Apply(Callback(id, Failed, "p"));
    var w1 := NextWorld(text, w, Lookup(id, Delivered));
    var w2 := NextWorld(text, w1, Lookup(id, Failed));
    LookedUpTwice(text, w, id);
    w' := NextWorld(text, w2, failed);
    assert w'.callbacks == multiset{Callback(id, Delivered, "p")};
    RunThree(text, w, Lookup(id, Delivered), Lookup(id, Failed), failed);
  }

  lemma LookedUpTwice(text: string -> string, w: World, id: Id)
    requires id in w.rows && w.rows[id].status == Sent && w.rows[id].providerId == "p" && w.callbacks == multiset{}
    ensures
      var w2 := NextWorld(text, NextWorld(text, w, Lookup(id, Delivered)), Lookup(id, Failed));
      w2 == w.(callbacks := multiset{Callback(id, Delivered, "p"), Callback(id, Failed, "p")})
  {
  }

  lemma RunThree(text: string -> string, w: World, a: WorldEvent, b: WorldEvent, c: WorldEvent)
    ensures RunWorld(text, w, [a, b, c]) == NextWorld(text, NextWorld(text, NextWorld(text, w, a), b), c)
  {
    var w1 := NextWorld(text, w, a);
    var w2 := NextWorld(text, w1, b);
    assert RunWorld(text, w2, [c]) == RunWorld(text, NextWorld(text, w2, c), []);
    assert RunWorld(text, w1, [b, c]) == RunWorld(text, w2, [c]);
  }

  lemma LateSuccess(text: string -> string, w: World, m: Message)
    requires m.id in w.rows && w.rows[m.id] == m && m.status in {Drafted, Sent}
    requires Callback(m.id, Delivered, "p") in w.callbacks
    ensures
      var w' := RunWorld(text, w, [Apply(Callback(m.id, Delivered, "p"))]);
      && m.id in w'.rows && w'.rows[m.id] == m.(status := Delivered) && w'.op == w.op && w'.sys == w.sys
      && m.id in w'.moved && w'.moved[m.id] == "p"
  {
    var w' := NextWorld(text, w, Apply(Callback(m.id, Delivered, "p")));
    assert RunWorld(text, w', []) == w';
  }

  /** The input: two callbacks look up a sent row, the first fails it, the retry route sends it again
      under the id "p2", and the second, which reports on "p", then marks it DELIVERED. */
  lemma DeliveryOfAnotherSend(w: World, raw: Content) returns (es: seq<WorldEvent>, id: Id)
    requires InitWorld(w)
    ensures
      var w' := RunWorld(s => s, w, es);
      && id in w'.rows && w'.rows[id].status == Delivered && w'.rows[id].providerId == "p2"
      && id in w'.moved && w'.moved[id] == "p"
  {
    var text: string -> string := s => s;
    var m := DirectDraft(text, "run", raw, 0);
    id := m.id;
    var first := FirstSend(text, w, raw);
    var w1 := RunWorld(text, w, first);
    var lookups := [Lookup(id, Delivered), Lookup(id, Failed), Apply(Callback(id, Failed, "p"))];
    var w2 := LostStart(text, w1, id);
    var retry := RetryIsARun(text, w2, 1, "again", id, Weather(Accepts("p2"), false, Completes));
    var w3 := RunWorld(text, w2, retry);
    Resent(text, w2, m);
    var late := Apply(Callback(id, Delivered, "p"));
    LateSuccess(text, w3, m.(status := Sent, providerId := "p2"));
    es := first + (lookups + (retry + [late]));
    RunWorldAppend(text, w, first, lookups + (retry + [late]));
    RunWorldAppend(text, w1, lookups, retry + [late]);
    RunWorldAppend(text, w2, retry, [late]);
  }

  lemma Resent(text: string -> string, w: World, m: Message)
    requires w.rows == map[m.id := m.(status := Failed, providerId := "p")]
    requires ScrubContent(text, m.content) == m.content
    requires SendKey("again", m.content) !in w.sys.port.keys
    ensures
      var (rows, _, _) :=
        ApprovedSend(text, w.rows, w.sys.port, m.id, None, None, "again", Weather(Accepts("p2"), false, Completes));
      rows == map[m.id := m.(status := Sent, providerId := "p2")]
  {
    var weather := Weather(Accepts("p2"), false, Completes);
    assert DedupedSend(w.sys.port, "again", m.content, weather).1 == Returns("p2");
  }

  lemma ReplayResets(text: string -> string, w: World, raw: Content, m: Message)
    requires m == DirectDraft(text, "run", raw, 0)
    requires w.op.Idle? && 1 !in w.sys.tasks && m.id in w.rows && w.rows[m.id].status == Failed
    ensures
      var w' := RunWorld(text, w, [BeginDirect("run", raw, 0), Step(1), Step(1)]);
      && m.id in w'.rows && w'.rows[m.id] == m && w'.callbacks == w.callbacks
      && w'.op == InPort(1, m, false) && At(w'.sys, 1, Starting)
  {
    var w1 := NextWorld(text, w, BeginDirect("run", raw, 0));
    var w2 := StepOp(text, w1, 1);
    assert w2.op == DirectSave("run", m);
    assert RunWorld(text, w2, [Step(1)]) == RunWorld(text, StepOp(text, w2, 1), []);
    assert RunWorld(text, w1, [Step(1), Step(1)]) == RunWorld(text, w2, [Step(1)]);
  }

  /** After a crash at any cut of any run, a same-run replay of a direct send whose key was
      claimed calls nobody: it ends SENT under the id of the one call that was made, or FAILED,
      and which of the two is decided by whether the key was completed. */
  lemma CrashThenReplay(text: string -> string, w: World, es: seq<WorldEvent>, run: string, raw: Content,
                        weather: Weather)
    requires InitWorld(w) && run != ""
    requires
      var w' := RunWorld(text, w, es);
      var m := DirectDraft(text, run, raw, 0);
      m.id.key in w'.sys.port.keys && !AlreadySent(w'.rows, m.id)
    ensures
      var w' := RunWorld(text, w, es);
      var m := DirectDraft(text, run, raw, 0);
      var (rows, port, _) := DirectSend(w'.rows, w'.sys.port, run, m, weather);
      && port == w'.sys.port && m.id in rows
      && if port.keys[m.id.key].Completed? then
           && rows[m.id].status == Sent
           && CallsFor(port.provider, m.id.key)
              == [Call(Some(m.id.key), rows[m.id].content, Some(rows[m.id].providerId))]
         else rows[m.id].status == Failed
  {
    var w' := RunWorld(text, w, es);
    var m := DirectDraft(text, run, raw, 0);
    InitWorldInv(w);
    WorldInvRun(text, w, es);
    DirectReplay(w'.rows, w'.sys.port, run, m, weather);
    assert OutboundPort.KeyOk(w'.sys.port, m.id.key);
  }
}
