/**
 The browser session protocol of `frontend/src/auth.ts`.

 `AuthModule` holds the module variables and runs each stretch of code between two awaits
 as one method. `World` adds every call suspended at those awaits and lets them resume in
 any order, between any logins and sign-outs. The theorems at the end speak about every
 such run.
 */
module AuthSession {
  import opened Common

  /** A bearer string, with the session generation it was issued for. `owner` is a history
      annotation: no branch of the protocol reads it. */
  datatype Cred = Cred(text: string, owner: nat)

  datatype InFlight = InFlight(generation: nat, task: nat)

  /** The module variables, with `sessionStorage`'s copy of the two tokens. */
  datatype Auth = Auth(
    token: Option<Cred>,
    refresh: Option<Cred>,
    storedToken: Option<Cred>,
    storedRefresh: Option<Cred>,
    generation: nat,
    inFlight: Option<InFlight>)

  /** What `refreshSession()` hands its caller: the shared promise of a refresh task, or a
      promise already resolved to false. */
  datatype Promise = Shared(task: nat) | ResolvedFalse

  /** JavaScript truthiness of a `string | null`. */
  predicate Truthy(c: Option<Cred>) {
    c.Some? && c.value.text != ""
  }

  function Mirror(c: Option<Cred>): Option<Cred> {
    if Truthy(c) then c else None
  }

  function WithToken(a: Auth, c: Option<Cred>): Auth {
    a.(token := c, storedToken := Mirror(c))
  }

  function WithRefresh(a: Auth, c: Option<Cred>): Auth {
    a.(refresh := c, storedRefresh := Mirror(c))
  }

  /** Every login and sign-out: both credentials replaced, the generation bumped. */
  function NewSession(a: Auth, access: Option<Cred>, refresh: Option<Cred>): Auth {
    WithRefresh(WithToken(a, access), refresh).(generation := a.generation + 1)
  }

  function SharesInFlight(a: Auth): bool {
    a.inFlight.Some? && a.inFlight.value.generation == a.generation
  }

  /** `refreshSession` up to its first await; `task` names the refresh it starts, if any. */
  function BeginRefresh(a: Auth, task: nat): (Auth, Promise) {
    if SharesInFlight(a) then (a, Shared(a.inFlight.value.task))
    else if !Truthy(a.refresh) then (a, ResolvedFalse)
    else (a.(inFlight := Some(InFlight(a.generation, task))), Shared(task))
  }

  /** The `finally` block: a refresh clears the in-flight entry only if it is its own. */
  function Finally(a: Auth, generation: nat): Auth {
    if a.inFlight.Some? && a.inFlight.value.generation == generation then a.(inFlight := None) else a
  }

  /** Resuming after `/auth/refresh` answered: the settled value, or None to await the body. */
  function RefreshAnswered(a: Auth, generation: nat, ok: bool): (Auth, Option<bool>) {
    if a.generation != generation || !ok then (Finally(a, generation), Some(false)) else (a, None)
  }

  /** Resuming after the body was parsed: the settled value. */
  function RefreshParsed(a: Auth, generation: nat, minted: Cred): (Auth, bool) {
    if a.generation != generation then (Finally(a, generation), false)
    else (Finally(WithToken(a, Some(minted)), generation), true)
  }

  /** The tail of `apiFetch`: whether it tears the session down (and calls the handler). */
  function Teardown(a: Auth, generation: nat, status: int): (Auth, bool) {
    if status == 401 && a.generation == generation then (NewSession(a, None, None), true) else (a, false)
  }

  /** The module itself, written as the source writes it: variables reassigned in place. */
  class AuthModule {
    var token: Option<Cred>
    var refreshToken: Option<Cred>
    var storedToken: Option<Cred>
    var storedRefresh: Option<Cred>
    var sessionGeneration: nat
    var refreshInFlight: Option<InFlight>
    var handlerCalls: nat

    ghost function State(): Auth
      reads this
    {
      Auth(token, refreshToken, storedToken, storedRefresh, sessionGeneration, refreshInFlight)
    }

    constructor (access: Option<Cred>, refresh: Option<Cred>)
      ensures State() == Auth(access, refresh, access, refresh, 0, None)
      ensures handlerCalls == 0
    {
      token, storedToken := access, access;
      refreshToken, storedRefresh := refresh, refresh;
      sessionGeneration, refreshInFlight, handlerCalls := 0, None, 0;
    }

    method SetToken(value: Option<Cred>)
      modifies this
      ensures State() == WithToken(old(State()), value) && handlerCalls == old(handlerCalls)
    {
      token := value;
      if value.Some? && value.value.text != "" {
        storedToken := value;
      } else {
        storedToken := None;
      }
    }

    method SetRefreshToken(value: Option<Cred>)
      modifies this
      ensures State() == WithRefresh(old(State()), value) && handlerCalls == old(handlerCalls)
    {
      refreshToken := value;
      if value.Some? && value.value.text != "" {
        storedRefresh := value;
      } else {
        storedRefresh := None;
      }
    }

    method SetSession(access: Cred, refresh: Cred)
      modifies this
      ensures State() == NewSession(old(State()), Some(access), Some(refresh))
      ensures handlerCalls == old(handlerCalls)
    {
      SetToken(Some(access));
      SetRefreshToken(Some(refresh));
      sessionGeneration := sessionGeneration + 1;
    }

    method ClearSession()
      modifies this
      ensures State() == NewSession(old(State()), None, None)
      ensures handlerCalls == old(handlerCalls)
    {
      SetToken(None);
      SetRefreshToken(None);
      sessionGeneration := sessionGeneration + 1;
    }

    method SetAccessOnlySession(access: Cred)
      modifies this
      ensures State() == NewSession(old(State()), Some(access), None)
      ensures handlerCalls == old(handlerCalls)
    {
      SetToken(Some(access));
      SetRefreshToken(None);
      sessionGeneration := sessionGeneration + 1;
    }

    method RefreshSession(task: nat) returns (promise: Promise)
      modifies this
      ensures (State(), promise) == BeginRefresh(old(State()), task)
      ensures handlerCalls == old(handlerCalls)
    {
      var generation := sessionGeneration;
      if refreshInFlight.Some? && refreshInFlight.value.generation == generation {
        return Shared(refreshInFlight.value.task);
      }
      var current := refreshToken;
      if !Truthy(current) {
        return ResolvedFalse;
      }
      refreshInFlight := Some(InFlight(generation, task));
      return Shared(task);
    }

    method ClearOwnEntry(generation: nat)
      modifies this
      ensures State() == Finally(old(State()), generation) && handlerCalls == old(handlerCalls)
    {
      if refreshInFlight.Some? && refreshInFlight.value.generation == generation {
        refreshInFlight := None;
      }
    }

    method OnRefreshAnswer(generation: nat, ok: bool) returns (settled: Option<bool>)
      modifies this
      ensures (State(), settled) == RefreshAnswered(old(State()), generation, ok)
      ensures handlerCalls == old(handlerCalls)
    {
      if sessionGeneration != generation {
        ClearOwnEntry(generation);
        return Some(false);
      }
      if !ok {
        ClearOwnEntry(generation);
        return Some(false);
      }
      return None;
    }

    method OnRefreshBody(generation: nat, minted: Cred) returns (settled: bool)
      modifies this
      ensures (State(), settled) == RefreshParsed(old(State()), generation, minted)
      ensures handlerCalls == old(handlerCalls)
    {
      if sessionGeneration != generation {
        ClearOwnEntry(generation);
        return false;
      }
      SetToken(Some(minted));
      ClearOwnEntry(generation);
      return true;
    }

    method Finish(generation: nat, status: int)
      modifies this
      ensures State() == Teardown(old(State()), generation, status).0
      ensures handlerCalls == old(handlerCalls) + if Teardown(old(State()), generation, status).1 then 1 else 0
    {
      if status == 401 && sessionGeneration == generation {
        ClearSession();
        handlerCalls := handlerCalls + 1;
      }
    }
  }

  /** A refresh task: the generation and refresh token captured at its start. */
  datatype Refresh = Refresh(generation: nat, current: Cred, phase: RefreshPhase)
  datatype RefreshPhase = Posting | Parsing | Settled(ok: bool)

  /** An `apiFetch` task. `Second` also records the generation at the moment of the replay. */
  datatype Fetch = Fetch(generation: nat, phase: FetchPhase)
  datatype FetchPhase =
    | First(bearer: Option<Cred>)
    | Waiting(promise: Promise)
    | Second(bearer: Option<Cred>, at: nat)
    | Done

  /** The module, every call suspended at an await, and the generations the unauthorized
      handler was fired for, in order. */
  datatype World = World(auth: Auth, refreshes: map<nat, Refresh>, fetches: map<nat, Fetch>, fired: seq<nat>)

  datatype Event =
    | Login(access: string, refresh: string)
    | GoogleLogin(access: string)
    | SignOut
    | StartRefresh(r: nat)
    | RefreshReply(r: nat, ok: bool)
    | RefreshBody(r: nat, text: string)
    | RefreshThrows(r: nat)
    | StartFetch(f: nat)
    | FirstReply(f: nat, status: int, r: nat)
    | Resume(f: nat)
    | SecondReply(f: nat, status: int)
    | FetchThrows(f: nat)

  predicate Live(t: Refresh) {
    !t.phase.Settled?
  }

  function Bearer(a: Auth): Option<Cred> {
    Mirror(a.token)
  }

  /** A caller runs `refreshSession`; a new task appears when one is started. */
  function CallRefresh(w: World, r: nat): (World, Promise) {
    var (a, promise) := BeginRefresh(w.auth, r);
    if SharesInFlight(w.auth) || promise.ResolvedFalse? then (w.(auth := a), promise)
    else
      var task := Refresh(w.auth.generation, w.auth.refresh.value, Posting);
      (w.(auth := a, refreshes := w.refreshes[r := task]), promise)
  }

  function SetPhase(w: World, f: nat, phase: FetchPhase): World
    requires f in w.fetches
  {
    w.(fetches := w.fetches[f := w.fetches[f].(phase := phase)])
  }

  function Settle(w: World, r: nat, a: Auth, ok: bool): World
    requires r in w.refreshes
  {
    w.(auth := a, refreshes := w.refreshes[r := w.refreshes[r].(phase := Settled(ok))])
  }

  function EndFetch(w: World, f: nat, status: int): World
    requires f in w.fetches
  {
    var (a, torn) := Teardown(w.auth, w.fetches[f].generation, status);
    SetPhase(w, f, Done).(auth := a, fired := if torn then w.fired + [w.auth.generation] else w.fired)
  }

  predicate Enabled(w: World, e: Event) {
    match e
    case Login(_, _) => true
    case GoogleLogin(_) => true
    case SignOut => true
    case StartRefresh(r) => r !in w.refreshes
    case RefreshReply(r, _) => r in w.refreshes && w.refreshes[r].phase.Posting?
    case RefreshBody(r, _) => r in w.refreshes && w.refreshes[r].phase.Parsing?
    case RefreshThrows(r) => r in w.refreshes && Live(w.refreshes[r])
    case StartFetch(f) => f !in w.fetches
    case FirstReply(f, _, r) => f in w.fetches && w.fetches[f].phase.First? && r !in w.refreshes
    case Resume(f) =>
      f in w.fetches && w.fetches[f].phase.Waiting? &&
      var p := w.fetches[f].phase.promise;
      p.Shared? ==> p.task in w.refreshes && !Live(w.refreshes[p.task])
    case SecondReply(f, _) => f in w.fetches && w.fetches[f].phase.Second?
    case FetchThrows(f) => f in w.fetches && (w.fetches[f].phase.First? || w.fetches[f].phase.Second?)
  }

  /** One step; an event that is not enabled leaves the world as it is. */
  function Next(w: World, e: Event): World {
    if !Enabled(w, e) then w else
    var g := w.auth.generation + 1;
    match e
    case Login(access, refresh) =>
      w.(auth := NewSession(w.auth, Some(Cred(access, g)), Some(Cred(refresh, g))))
    case GoogleLogin(access) =>
      w.(auth := NewSession(w.auth, Some(Cred(access, g)), None))
    case SignOut =>
      w.(auth := NewSession(w.auth, None, None))
    case StartRefresh(r) =>
      CallRefresh(w, r).0
    case RefreshReply(r, ok) =>
      var (a, settled) := RefreshAnswered(w.auth, w.refreshes[r].generation, ok);
      if settled.Some? then Settle(w, r, a, settled.value)
      else w.(auth := a, refreshes := w.refreshes[r := w.refreshes[r].(phase := Parsing)])
    case RefreshBody(r, text) =>
      // The server mints the access token for whoever owns the refresh token it was sent.
      var (a, ok) := RefreshParsed(w.auth, w.refreshes[r].generation, Cred(text, w.refreshes[r].current.owner));
      Settle(w, r, a, ok)
    case RefreshThrows(r) =>
      Settle(w, r, Finally(w.auth, w.refreshes[r].generation), false)
    case StartFetch(f) =>
      w.(fetches := w.fetches[f := Fetch(w.auth.generation, First(Bearer(w.auth)))])
    case FirstReply(f, status, r) =>
      if status == 401 && w.auth.generation != w.fetches[f].generation then SetPhase(w, f, Done)
      else if status == 401 then
        var (w', promise) := CallRefresh(w, r);
        SetPhase(w', f, Waiting(promise))
      else EndFetch(w, f, status)
    case Resume(f) =>
      var p := w.fetches[f].phase.promise;
      if p.Shared? && w.refreshes[p.task].phase.ok
      then SetPhase(w, f, Second(Bearer(w.auth), w.auth.generation))
      else EndFetch(w, f, 401)
    case SecondReply(f, status) =>
      EndFetch(w, f, status)
    case FetchThrows(f) =>
      SetPhase(w, f, Done)
  }

  function Run(w: World, es: seq<Event>): World
    decreases |es|
  {
    if es == [] then w else Run(Next(w, es[0]), es[1..])
  }

  /** A page load: whatever the last page left in `sessionStorage`, generation 0. */
  predicate Init(w: World) {
    && w.auth.generation == 0 && w.auth.inFlight == None
    && Owned(w.auth.token, 0) && Owned(w.auth.refresh, 0)
    && w.auth.storedToken == Mirror(w.auth.token) && w.auth.storedRefresh == Mirror(w.auth.refresh)
    && w.refreshes == map[] && w.fetches == map[] && w.fired == []
  }

  predicate Owned(c: Option<Cred>, g: nat) {
    c.Some? ==> c.value.owner == g
  }

  /** The stored credentials belong to the current session. */
  predicate CredsCurrent(a: Auth) {
    && Owned(a.token, a.generation) && Owned(a.refresh, a.generation)
    && a.storedToken == Mirror(a.token) && a.storedRefresh == Mirror(a.refresh)
  }

  /** A live refresh of the current session is the one in flight, and runs on the stored
      refresh token; any refresh runs on a token of the generation it was started for. */
  ghost predicate RefreshOk(w: World, r: nat)
    requires r in w.refreshes
  {
    var t := w.refreshes[r];
    && t.generation <= w.auth.generation
    && t.current.owner == t.generation
    && (Live(t) && t.generation == w.auth.generation ==>
          && w.auth.inFlight == Some(InFlight(t.generation, r))
          && w.auth.refresh == Some(t.current) && t.current.text != "")
  }

  ghost predicate OneLivePerGeneration(w: World) {
    forall r1, r2 | r1 in w.refreshes && r2 in w.refreshes && Live(w.refreshes[r1]) && Live(w.refreshes[r2])
                    && w.refreshes[r1].generation == w.refreshes[r2].generation :: r1 == r2
  }

  ghost predicate InFlightIsLive(w: World) {
    w.auth.inFlight.Some? ==>
      var entry := w.auth.inFlight.value;
      && entry.task in w.refreshes && Live(w.refreshes[entry.task])
      && w.refreshes[entry.task].generation == entry.generation
  }

  /** A first send carries a token of the fetch's own session; a second send one of the
      session current when it left; a waiting fetch waits on a refresh of its own session. */
  ghost predicate FetchOk(w: World, f: nat)
    requires f in w.fetches
  {
    var t := w.fetches[f];
    && t.generation <= w.auth.generation
    && match t.phase
       case First(bearer) => Owned(bearer, t.generation)
       case Waiting(p) => p.Shared? ==> p.task in w.refreshes && w.refreshes[p.task].generation == t.generation
       case Second(bearer, at) => Owned(bearer, at) && t.generation <= at <= w.auth.generation
       case Done => true
  }

  /** The handler's generations strictly increase and lie before the current one. */
  ghost predicate FiredOk(w: World) {
    && (forall i, j | 0 <= i < j < |w.fired| :: w.fired[i] < w.fired[j])
    && (forall i | 0 <= i < |w.fired| :: w.fired[i] < w.auth.generation)
  }

  ghost predicate Inv(w: World) {
    && CredsCurrent(w.auth)
    && (forall r | r in w.refreshes :: RefreshOk(w, r))
    && OneLivePerGeneration(w)
    && InFlightIsLive(w)
    && (forall f | f in w.fetches :: FetchOk(w, f))
    && FiredOk(w)
  }

  lemma NewSessionKeepsInv(w: World, access: Option<Cred>, refresh: Option<Cred>)
    requires Inv(w)
    requires Owned(access, w.auth.generation + 1) && Owned(refresh, w.auth.generation + 1)
    ensures Inv(w.(auth := NewSession(w.auth, access, refresh)))
  {
  }

  lemma CallRefreshKeepsInv(w: World, r: nat)
    requires Inv(w) && r !in w.refreshes
    ensures
      var (w', p) := CallRefresh(w, r);
      && Inv(w') && w'.fetches == w.fetches && w'.auth.generation == w.auth.generation
      && (p.Shared? ==> p.task in w'.refreshes && w'.refreshes[p.task].generation == w.auth.generation)
  {
  }

  lemma SetPhaseKeepsInv(w: World, f: nat, phase: FetchPhase)
    requires Inv(w) && f in w.fetches && FetchOk(SetPhase(w, f, phase), f)
    ensures Inv(SetPhase(w, f, phase))
  {
  }

  lemma EndFetchKeepsInv(w: World, f: nat, status: int)
    requires Inv(w) && f in w.fetches
    ensures Inv(EndFetch(w, f, status))
  {
  }

  /** A refresh settles having at most installed a token of its own, still current session. */
  lemma SettleKeepsInv(w: World, r: nat, a: Auth, ok: bool)
    requires Inv(w) && r in w.refreshes && Live(w.refreshes[r])
    requires
      var t := w.refreshes[r];
      || a == Finally(w.auth, t.generation)
      || (t.generation == w.auth.generation &&
          exists c: Cred :: c.owner == t.generation && a == Finally(WithToken(w.auth, Some(c)), t.generation))
    ensures Inv(Settle(w, r, a, ok))
  {
    var w' := Settle(w, r, a, ok);
    assert RefreshOk(w, r);
    forall q | q in w'.refreshes
      ensures RefreshOk(w', q)
    {
      assert RefreshOk(w, q);
    }
    forall f | f in w'.fetches
      ensures FetchOk(w', f)
    {
      assert FetchOk(w, f);
    }
  }

  lemma RefreshReplyKeepsInv(w: World, r: nat, ok: bool)
    requires Inv(w) && Enabled(w, RefreshReply(r, ok))
    ensures Inv(Next(w, RefreshReply(r, ok)))
    ensures w.auth.generation == Next(w, RefreshReply(r, ok)).auth.generation
  {
    var (a, settled) := RefreshAnswered(w.auth, w.refreshes[r].generation, ok);
    if settled.Some? {
      SettleKeepsInv(w, r, a, settled.value);
    } else {
      ParsingKeepsInv(w, r);
    }
  }

  lemma RefreshBodyKeepsInv(w: World, r: nat, text: string)
    requires Inv(w) && Enabled(w, RefreshBody(r, text))
    ensures Inv(Next(w, RefreshBody(r, text)))
    ensures w.auth.generation == Next(w, RefreshBody(r, text)).auth.generation
  {
    assert RefreshOk(w, r);
    var (a, ok) := RefreshParsed(w.auth, w.refreshes[r].generation, Cred(text, w.refreshes[r].current.owner));
    SettleKeepsInv(w, r, a, ok);
  }

  lemma StartFetchKeepsInv(w: World, f: nat)
    requires Inv(w) && Enabled(w, StartFetch(f))
    ensures Inv(Next(w, StartFetch(f)))
  {
  }

  lemma FirstReplyKeepsInv(w: World, f: nat, status: int, r: nat)
    requires Inv(w) && Enabled(w, FirstReply(f, status, r))
    ensures Inv(Next(w, FirstReply(f, status, r)))
    ensures w.auth.generation <= Next(w, FirstReply(f, status, r)).auth.generation
  {
    assert FetchOk(w, f);
    if status == 401 && w.auth.generation != w.fetches[f].generation {
      SetPhaseKeepsInv(w, f, Done);
    } else if status == 401 {
      CallRefreshKeepsInv(w, r);
      var (w', promise) := CallRefresh(w, r);
      SetPhaseKeepsInv(w', f, Waiting(promise));
    } else {
      EndFetchKeepsInv(w, f, status);
    }
  }

  lemma ResumeKeepsInv(w: World, f: nat)
    requires Inv(w) && Enabled(w, Resume(f))
    ensures Inv(Next(w, Resume(f)))
    ensures w.auth.generation <= Next(w, Resume(f)).auth.generation
  {
    assert FetchOk(w, f);
    var p := w.fetches[f].phase.promise;
    if p.Shared? && w.refreshes[p.task].phase.ok {
      SetPhaseKeepsInv(w, f, Second(Bearer(w.auth), w.auth.generation));
    } else {
      EndFetchKeepsInv(w, f, 401);
    }
  }

  lemma InvStep(w: World, e: Event)
    requires Inv(w)
    ensures Inv(Next(w, e))
    ensures w.auth.generation <= Next(w, e).auth.generation
  {
    if Enabled(w, e) {
      var g := w.auth.generation + 1;
      match e
      case Login(access, refresh) => NewSessionKeepsInv(w, Some(Cred(access, g)), Some(Cred(refresh, g)));
      case GoogleLogin(access) => NewSessionKeepsInv(w, Some(Cred(access, g)), None);
      case SignOut => NewSessionKeepsInv(w, None, None);
      case StartRefresh(r) => CallRefreshKeepsInv(w, r);
      case RefreshReply(r, ok) => RefreshReplyKeepsInv(w, r, ok);
      case RefreshBody(r, text) => RefreshBodyKeepsInv(w, r, text);
      case RefreshThrows(r) => SettleKeepsInv(w, r, Finally(w.auth, w.refreshes[r].generation), false);
      case StartFetch(f) => StartFetchKeepsInv(w, f);
      case FirstReply(f, status, r) => FirstReplyKeepsInv(w, f, status, r);
      case Resume(f) => ResumeKeepsInv(w, f);
      case SecondReply(f, status) => EndFetchKeepsInv(w, f, status);
      case FetchThrows(f) =>
        assert FetchOk(w, f);
        SetPhaseKeepsInv(w, f, Done);
    }
  }

  lemma ParsingKeepsInv(w: World, r: nat)
    requires Inv(w) && r in w.refreshes && Live(w.refreshes[r])
    ensures Inv(w.(refreshes := w.refreshes[r := w.refreshes[r].(phase := Parsing)]))
  {
  }

  lemma {:induction false} InvRun(w: World, es: seq<Event>)
    requires Inv(w)
    ensures Inv(Run(w, es))
    decreases |es|
  {
    if es != [] {
      InvStep(w, es[0]);
      InvRun(Next(w, es[0]), es[1..]);
    }
  }

  lemma InitInv(w: World)
    requires Init(w)
    ensures Inv(w)
  {
  }

  /** Main safety theorem: after any run from a page load, whatever interleaving of requests,
      refreshes, logins and sign-outs, the stored credentials belong to the current session
      and at most one refresh is live per generation. */
  lemma SessionIsolation(w: World, es: seq<Event>)
    requires Init(w)
    ensures CredsCurrent(Run(w, es).auth)
    ensures OneLivePerGeneration(Run(w, es))
    ensures InFlightIsLive(Run(w, es))
  {
    InitInv(w);
    InvRun(w, es);
  }

  /** A refresh begun under an ended session installs nothing, and never removes the
      in-flight entry of another generation. */
  lemma StaleRefreshDiscarded(w: World, e: Event, r: nat)
    requires Inv(w) && r in w.refreshes && w.refreshes[r].generation != w.auth.generation
    requires e.RefreshReply? || e.RefreshBody? || e.RefreshThrows?
    requires e.r == r
    ensures
      var a, a' := w.auth, Next(w, e).auth;
      && a'.(inFlight := a.inFlight) == a
      && (a.inFlight.Some? && a.inFlight.value.generation != w.refreshes[r].generation ==> a'.inFlight == a.inFlight)
  {
  }

  predicate IsLogin(e: Event) {
    e.Login? || e.GoogleLogin?
  }

  predicate SignedOut(a: Auth) {
    a.token == None && a.refresh == None
  }

  lemma SignedOutStep(w: World, e: Event)
    requires Inv(w) && SignedOut(w.auth) && !IsLogin(e)
    ensures SignedOut(Next(w, e).auth)
  {
    if Enabled(w, e) {
      match e
      case RefreshBody(r, text) => assert RefreshOk(w, r);
      case RefreshReply(r, ok) =>
      case RefreshThrows(r) =>
      case StartRefresh(r) => assert CallRefresh(w, r).0.auth.token == None;
      case FirstReply(f, status, r) => assert SignedOut(CallRefresh(w, r).0.auth);
      case Resume(f) =>
      case SecondReply(f, status) =>
      case FetchThrows(f) =>
      case StartFetch(f) =>
      case SignOut =>
    }
  }

  /** Nothing short of a login brings a signed-out browser back: over every run without one,
      both credentials stay empty, in memory and in `sessionStorage`. */
  lemma {:induction false} NeverResurrected(w: World, es: seq<Event>)
    requires Inv(w) && SignedOut(w.auth)
    requires forall e | e in es :: !IsLogin(e)
    ensures
      var a := Run(w, es).auth;
      SignedOut(a) && a.storedToken == None && a.storedRefresh == None
    decreases |es|
  {
    if es != [] {
      InvStep(w, es[0]);
      SignedOutStep(w, es[0]);
      NeverResurrected(Next(w, es[0]), es[1..]);
    }
  }

  /** How often the handler was fired for a generation. */
  function FiredFor(fired: seq<nat>, g: nat): nat {
    if fired == [] then 0 else FiredFor(fired[1..], g) + if fired[0] == g then 1 else 0
  }

  lemma {:induction false} IncreasingFiresOnce(fired: seq<nat>, g: nat)
    requires forall i, j | 0 <= i < j < |fired| :: fired[i] < fired[j]
    ensures FiredFor(fired, g) <= 1
    ensures (forall i | 0 <= i < |fired| :: fired[i] > g) ==> FiredFor(fired, g) == 0
  {
    if fired != [] {
      IncreasingFiresOnce(fired[1..], g);
      if fired[0] == g {
        assert forall i | 0 <= i < |fired[1..]| :: fired[1..][i] == fired[i + 1] > g;
      }
    }
  }

  /** However many 401s arrive together, a whole run calls the unauthorized handler at most
      once per session. */
  lemma HandlerOncePerSession(w: World, es: seq<Event>, g: nat)
    requires Init(w)
    ensures FiredFor(Run(w, es).fired, g) <= 1
  {
    InitInv(w);
    InvRun(w, es);
    IncreasingFiresOnce(Run(w, es).fired, g);
  }

  /** Whose token a request carries, in every reachable state: its own session's on the first
      send; on the replay, the session current at that moment, which is its own exactly when
      the generation has not moved since the fetch began. */
  lemma BearerOwner(w: World, es: seq<Event>, f: nat)
    requires Init(w) && f in Run(w, es).fetches
    ensures
      var t := Run(w, es).fetches[f];
      && (t.phase.First? && t.phase.bearer.Some? ==> t.phase.bearer.value.owner == t.generation)
      && (t.phase.Second? && t.phase.bearer.Some? ==>
            (t.phase.bearer.value.owner == t.generation <==> t.phase.at == t.generation))
  {
    InitInv(w);
    InvRun(w, es);
    assert FetchOk(Run(w, es), f);
  }

  /** At the resumption itself, the check a caller could make: with a token present, the
      replay stays in the fetch's own session if and only if the generation is unchanged. */
  lemma ReplayStaysInSession(w: World, f: nat)
    requires Inv(w) && Enabled(w, Resume(f)) && Truthy(w.auth.token)
    requires Next(w, Resume(f)).fetches[f].phase.Second?
    ensures
      var own := w.fetches[f].generation;
      Next(w, Resume(f)).fetches[f].phase.bearer.value.owner == own <==> w.auth.generation == own
  {
  }

  /** The window: session 1's refresh settles, session 2 logs in before the waiting request
      resumes, and the request is replayed under session 2's token. In a browser the two ends of
      the window lie in one drain of the microtask queue, so only a login made by a promise
      reaction already queued in that drain can fall into it, not one made by another task. */
  lemma ReplayCanCrossSessions(w: World)
    requires Init(w)
    ensures
      var w' := Run(w, [Login("a1", "r1"), StartFetch(0), FirstReply(0, 401, 0), RefreshReply(0, true)]
                       + [RefreshBody(0, "a2"), Login("b1", "s1"), Resume(0)]);
      0 in w'.fetches && w'.fetches[0] == Fetch(1, Second(Some(Cred("b1", 2)), 2))
  {
    var first := [Login("a1", "r1"), StartFetch(0), FirstReply(0, 401, 0), RefreshReply(0, true)];
    var second := [RefreshBody(0, "a2"), Login("b1", "s1"), Resume(0)];
    RunAppend(w, first, second);
    RefreshUnderWay(w);
    ReplayedElsewhere(Run(w, first));
  }

  lemma {:induction false} RunAppend(w: World, a: seq<Event>, b: seq<Event>)
    ensures Run(w, a + b) == Run(Run(w, a), b)
    decreases |a|
  {
    if a == [] {
      assert a + b == b;
    } else {
      assert (a + b)[1..] == a[1..] + b;
      RunAppend(Next(w, a[0]), a[1..], b);
    }
  }

  /** Session 1's request got its 401 and waits on a refresh whose answer is being parsed. */
  predicate WaitsOnRefresh(w: World) {
    && w.auth.generation == 1 && 0 in w.refreshes && w.refreshes[0] == Refresh(1, Cred("r1", 1), Parsing)
    && 0 in w.fetches && w.fetches[0] == Fetch(1, Waiting(Shared(0)))
  }

  lemma RefreshUnderWay(w: World)
    requires Init(w)
    ensures
      WaitsOnRefresh(Run(w, [Login("a1", "r1"), StartFetch(0), FirstReply(0, 401, 0), RefreshReply(0, true)]))
  {
  }

  lemma ReplayedElsewhere(w: World)
    requires WaitsOnRefresh(w)
    ensures
      var w' := Run(w, [RefreshBody(0, "a2"), Login("b1", "s1"), Resume(0)]);
      0 in w'.fetches && w'.fetches[0] == Fetch(1, Second(Some(Cred("b1", 2)), 2))
  {
  }

  /** Progress, the other half of the gate: when a refresh of the current session completes,
      its token is installed without ending the session, and every request that was waiting
      on it is replayed under that token. */
  lemma RefreshServesItsWaiters(w: World, r: nat, text: string, f: nat)
    requires Inv(w) && Enabled(w, RefreshBody(r, text)) && text != ""
    requires w.refreshes[r].generation == w.auth.generation
    requires f in w.fetches && w.fetches[f].phase == Waiting(Shared(r))
    ensures
      var g := w.auth.generation;
      var w' := Next(w, RefreshBody(r, text));
      && w'.auth.generation == g && w'.auth.inFlight == None
      && w'.auth.storedToken == w'.auth.token == Some(Cred(text, g))
      && Next(w', Resume(f)).fetches[f] == Fetch(g, Second(Some(Cred(text, g)), g))
  {
  }

  /** A 401 that no refresh can cure ends the session it was issued for, exactly once: without
      a refresh token, the first request to resume signs out and fires the handler, and any
      other request of that session then ends quietly. */
  lemma IncurableBurst(w: World, f: nat, other: nat)
    requires Inv(w) && f != other && f in w.fetches && other in w.fetches
    requires w.fetches[f] == w.fetches[other] == Fetch(w.auth.generation, Waiting(ResolvedFalse))
    ensures
      var w' := Next(w, Resume(f));
      var w'' := Next(w', Resume(other));
      && SignedOut(w'.auth) && w'.fired == w.fired + [w.auth.generation]
      && w''.auth == w'.auth && w''.fired == w'.fired
      && w''.fetches[f].phase.Done? && w''.fetches[other].phase.Done?
  {
  }

  // What each event does, in terms of the module variables.

  /** The stored copy of a credential: it, unless its text is empty. */
  predicate IsMirror(stored: Option<Cred>, c: Option<Cred>) {
    if c.Some? && c.value.text != "" then stored == c else stored == None
  }

  /** The variables of a session that begins with these credentials. */
  predicate BeginsWith(a: Auth, a': Auth, access: Option<Cred>, refresh: Option<Cred>) {
    && a'.generation == a.generation + 1 && a'.inFlight == a.inFlight
    && a'.token == access && IsMirror(a'.storedToken, access)
    && a'.refresh == refresh && IsMirror(a'.storedRefresh, refresh)
  }

  /** A login installs what it is given, a Google login no refresh token, and a sign-out leaves
      nothing; each begins a new session and touches no call under way. */
  lemma SessionsBegin(w: World, access: string, refresh: string)
    ensures
      var g := w.auth.generation + 1;
      var (login, google, out) := (Next(w, Login(access, refresh)), Next(w, GoogleLogin(access)), Next(w, SignOut));
      && BeginsWith(w.auth, login.auth, Some(Cred(access, g)), Some(Cred(refresh, g)))
      && BeginsWith(w.auth, google.auth, Some(Cred(access, g)), None)
      && BeginsWith(w.auth, out.auth, None, None)
      && login == w.(auth := login.auth) && google == w.(auth := google.auth) && out == w.(auth := out.auth)
  {
  }

  /** No answer but a 401 ends a session or fires the handler. */
  lemma OtherAnswersKeepTheSession(w: World, f: nat, status: int, r: nat)
    requires status != 401
    ensures
      var (first, second) := (Next(w, FirstReply(f, status, r)), Next(w, SecondReply(f, status)));
      && first.auth == w.auth && first.fired == w.fired && first.refreshes == w.refreshes
      && second.auth == w.auth && second.fired == w.fired && second.refreshes == w.refreshes
      && (Enabled(w, FirstReply(f, status, r)) ==> first.fetches == w.fetches[f := w.fetches[f].(phase := Done)])
      && (Enabled(w, SecondReply(f, status)) ==> second.fetches == w.fetches[f := w.fetches[f].(phase := Done)])
  {
  }

  /** A request is over with a 401: that signs out and fires the handler exactly when the session
      is still the one the request began under. */
  predicate EndsUnauthorized(w: World, w': World, f: nat)
    requires f in w.fetches
  {
    && w'.fetches == w.fetches[f := w.fetches[f].(phase := Done)] && w'.refreshes == w.refreshes
    && if w.fetches[f].generation == w.auth.generation
       then BeginsWith(w.auth, w'.auth, None, None) && w'.fired == w.fired + [w.auth.generation]
       else w'.auth == w.auth && w'.fired == w.fired
  }

  lemma SecondUnauthorized(w: World, f: nat)
    requires Enabled(w, SecondReply(f, 401))
    ensures EndsUnauthorized(w, Next(w, SecondReply(f, 401)), f)
  {
  }

  /** The first 401: surfaced if the session has ended; else the request waits on the refresh of its
      session, which it starts if there is none under way and there is a refresh token. */
  lemma FirstUnauthorized(w: World, f: nat, r: nat)
    requires Enabled(w, FirstReply(f, 401, r))
    ensures
      var (a, w') := (w.auth, Next(w, FirstReply(f, 401, r)));
      var phase := w'.fetches[f].phase;
      && w'.fetches == w.fetches[f := Fetch(w.fetches[f].generation, phase)] && w'.fired == w.fired
      && if w.fetches[f].generation != a.generation then
           phase == Done && w'.auth == a && w'.refreshes == w.refreshes
         else if a.inFlight.Some? && a.inFlight.value.generation == a.generation then
           phase == Waiting(Shared(a.inFlight.value.task)) && w'.auth == a && w'.refreshes == w.refreshes
         else if a.refresh.None? || a.refresh.value.text == "" then
           phase == Waiting(ResolvedFalse) && w'.auth == a && w'.refreshes == w.refreshes
         else
           && phase == Waiting(Shared(r)) && w'.auth == a.(inFlight := Some(InFlight(a.generation, r)))
           && w'.refreshes == w.refreshes[r := Refresh(a.generation, a.refresh.value, Posting)]
  {
  }

  /** A refresh settles: the in-flight entry goes if it is of its generation. */
  predicate Settles(w: World, w': World, r: nat, ok: bool)
    requires r in w.refreshes
  {
    var (a, g) := (w.auth, w.refreshes[r].generation);
    && w'.refreshes == w.refreshes[r := w.refreshes[r].(phase := Settled(ok))]
    && w'.fetches == w.fetches && w'.fired == w.fired
    && w'.auth.inFlight == if a.inFlight.Some? && a.inFlight.value.generation == g then None else a.inFlight
  }

  /** The three ways a refresh goes on: refused, stale or thrown, it settles false and installs
      nothing; answered, it awaits the body; and the body's token is installed, as the access token
      only, if the session is still its own. */
  lemma RefreshGoesOn(w: World, r: nat, ok: bool, text: string)
    requires r in w.refreshes
    ensures
      var (a, t) := (w.auth, w.refreshes[r]);
      var (replied, parsed, thrown) :=
        (Next(w, RefreshReply(r, ok)), Next(w, RefreshBody(r, text)), Next(w, RefreshThrows(r)));
      && (t.phase.Posting? ==>
            if t.generation == a.generation && ok
            then replied == w.(refreshes := w.refreshes[r := t.(phase := Parsing)])
            else Settles(w, replied, r, false) && replied.auth == a.(inFlight := replied.auth.inFlight))
      && (t.phase.Parsing? ==>
            if t.generation == a.generation then
              && Settles(w, parsed, r, true) && IsMirror(parsed.auth.storedToken, parsed.auth.token)
              && parsed.auth == a.(token := Some(Cred(text, t.current.owner)), storedToken := parsed.auth.storedToken,
                                   inFlight := parsed.auth.inFlight)
            else Settles(w, parsed, r, false) && parsed.auth == a.(inFlight := parsed.auth.inFlight))
      && (!t.phase.Settled? ==> Settles(w, thrown, r, false) && thrown.auth == a.(inFlight := thrown.auth.inFlight))
      && (!t.phase.Posting? ==> replied == w) && (!t.phase.Parsing? ==> parsed == w)
      && (t.phase.Settled? ==> thrown == w)
  {
  }

  /** A waiting request is sent again, under the token of the moment, if its refresh settled true,
      and is otherwise over with its 401. */
  lemma WaiterResumes(w: World, f: nat)
    requires Enabled(w, Resume(f))
    ensures
      var (p, w') := (w.fetches[f].phase.promise, Next(w, Resume(f)));
      if p.Shared? && w.refreshes[p.task].phase == Settled(true) then
        && w'.fetches[f].phase.Second? && w'.fetches[f].phase.at == w.auth.generation
        && IsMirror(w'.fetches[f].phase.bearer, w.auth.token)
        && w' == w.(fetches := w.fetches[f := w.fetches[f].(phase := w'.fetches[f].phase)])
      else EndsUnauthorized(w, w', f)
  {
  }

  /** A request is sent under the token of the moment, for the session of the moment; when its fetch
      throws it is over, with nothing else changed. */
  lemma RequestIsSent(w: World, f: nat)
    ensures
      var (sent, thrown) := (Next(w, StartFetch(f)), Next(w, FetchThrows(f)));
      && (f !in w.fetches ==>
            && f in sent.fetches && sent.fetches[f].phase.First? && sent.fetches[f].generation == w.auth.generation
            && IsMirror(sent.fetches[f].phase.bearer, w.auth.token)
            && sent == w.(fetches := w.fetches[f := sent.fetches[f]]))
      && (f in w.fetches && (w.fetches[f].phase.First? || w.fetches[f].phase.Second?) ==>
            thrown == w.(fetches := w.fetches[f := w.fetches[f].(phase := Done)]))
  {
  }

  /** An answer reaches only the request that awaits it, and a settled refresh only its waiters. */
  lemma StrayAnswersAreIgnored(w: World, f: nat, status: int, r: nat)
    ensures !(f in w.fetches && w.fetches[f].phase.First? && r !in w.refreshes) ==>
              Next(w, FirstReply(f, status, r)) == w
    ensures !(f in w.fetches && w.fetches[f].phase.Second?) ==> Next(w, SecondReply(f, status)) == w
    ensures !(f in w.fetches && (w.fetches[f].phase.First? || w.fetches[f].phase.Second?)) ==>
              Next(w, FetchThrows(f)) == w
    ensures !(f in w.fetches && w.fetches[f].phase.Waiting?) ==> Next(w, Resume(f)) == w
    ensures f in w.fetches && w.fetches[f].phase == Waiting(Shared(r)) && r in w.refreshes ==>
              w.refreshes[r].phase.Settled? || Next(w, Resume(f)) == w
    ensures r !in w.refreshes ==> Next(w, RefreshReply(r, status == 0)) == Next(w, RefreshThrows(r)) == w
    ensures f in w.fetches ==> Next(w, StartFetch(f)) == w
    ensures r in w.refreshes ==> Next(w, StartRefresh(r)) == w
  {
  }

  /** A call of the refresher from outside starts one under the same conditions as a 401. */
  lemma RefreshIsCalled(w: World, r: nat)
    requires r !in w.refreshes
    ensures
      var (a, w') := (w.auth, Next(w, StartRefresh(r)));
      if (a.inFlight.Some? && a.inFlight.value.generation == a.generation)
         || a.refresh.None? || a.refresh.value.text == ""
      then w' == w
      else
        w' == w.(auth := a.(inFlight := Some(InFlight(a.generation, r))),
                 refreshes := w.refreshes[r := Refresh(a.generation, a.refresh.value, Posting)])
  {
  }
}
