/**
 Session credentials (`auth/session.py`) and magic-link login (`services/magic_link.py`):
 single-use links, access and refresh tokens, and refresh chains, under a changing
 allowlist and a clock that never goes back. Times are microseconds; a token's `exp` claim
 is in whole seconds, rounded down, as JSON Web Tokens carry it.
 */
module SessionTokens {
  import opened Common
  import opened Roles

  const SECOND := 1_000_000
  const LINK_TTL := 15 * 60 * SECOND

  /** The configured lifetimes of a `SessionTokenService`. */
  datatype Ttls = Ttls(access: nat, refresh: nat)

  datatype Typ = AccessTyp | RefreshTyp

  datatype Claims = Claims(typ: Typ, email: string, role: Role, exp: nat)

  /** `_encode`: expiry is `now + ttl`, clamped at an upstream deadline. */
  function Encode(now: nat, typ: Typ, email: string, role: Role, ttl: nat, notAfter: Option<nat>): Claims {
    var exp := if notAfter.Some? && notAfter.value < now + ttl then notAfter.value else now + ttl;
    Claims(typ, email, role, exp / SECOND)
  }

  /** A token is expired on or after its expiry (section 4.1.4 of RFC 7519). */
  predicate Unexpired(c: Claims, now: nat) {
    c.exp * SECOND > now
  }

  /** `SessionTokenVerifier.verify`, for a correctly signed token. */
  predicate AcceptsBearer(c: Claims, now: nat) {
    Unexpired(c, now) && c.typ.AccessTyp?
  }

  datatype Refreshed = Fresh(access: Claims) | Refused | Forbidden

  /** `SessionRefresher.refresh`, for a correctly signed token: verified at `now`, and the new one
      issued by a later reading of the clock. */
  function RefreshAccess(ttls: Ttls, now: nat, issuedAt: nat, c: Claims, allow: string -> bool,
                         roles: string -> Role): Refreshed {
    if !Unexpired(c, now) || !c.typ.RefreshTyp? || c.email == "" then Refused
    else if !allow(c.email) then Forbidden
    else Fresh(Encode(issuedAt, AccessTyp, c.email, roles(c.email), ttls.access, Some(c.exp * SECOND)))
  }

  datatype Link = Link(email: string, expiresAt: nat)

  /** The token store, keyed by the token's hash. */
  class MagicTokenStore {
    var links: map<string, Link>
    var consumed: set<string>

    constructor ()
      ensures links == map[] && consumed == {}
    {
      links, consumed := map[], {};
    }

    method Create(hash: string, link: Link)
      modifies this
      ensures links == old(links)[hash := link] && consumed == old(consumed)
    {
      links := links[hash := link];
    }

    /** Atomic claim: a link is handed out at most once, expired or not. */
    method Consume(hash: string) returns (link: Option<Link>)
      modifies this
      ensures links == old(links)
      ensures (consumed, link) == ConsumeLink(links, old(consumed), hash)
    {
      if hash !in links || hash in consumed {
        return None;
      }
      consumed := consumed + {hash};
      return Some(links[hash]);
    }
  }

  function ConsumeLink(links: map<string, Link>, consumed: set<string>, hash: string): (set<string>, Option<Link>) {
    if hash !in links || hash in consumed then (consumed, None) else (consumed + {hash}, Some(links[hash]))
  }

  datatype Redeemed = Pair(access: Claims, refresh: Claims) | BadLink | NotPermitted

  /** The three readings of the clock in one `redeem`: for the link's expiry, and for each token. */
  datatype Clock = Clock(now: nat, access: nat, refresh: nat)

  /** The rest of `redeem`, once the store has answered. */
  function RedeemLink(ttls: Ttls, clock: Clock, link: Option<Link>, allow: string -> bool,
                      roles: string -> Role): Redeemed {
    if link.None? || link.value.expiresAt < clock.now then BadLink
    else if !allow(link.value.email) then NotPermitted
    else
      var e := link.value.email;
      Pair(Encode(clock.access, AccessTyp, e, roles(e), ttls.access, None),
           Encode(clock.refresh, RefreshTyp, e, roles(e), ttls.refresh, None))
  }

  method Redeem(store: MagicTokenStore, ttls: Ttls, clock: Clock, hash: string, allow: string -> bool,
                roles: string -> Role)
    returns (r: Redeemed)
    modifies store
    ensures store.links == old(store.links)
    ensures
      var (consumed, link) := ConsumeLink(old(store.links), old(store.consumed), hash);
      store.consumed == consumed && r == RedeemLink(ttls, clock, link, allow, roles)
  {
    var record := store.Consume(hash);
    if record.None? {
      return BadLink;
    }
    var link := record.value;
    if link.expiresAt < clock.now {
      return BadLink;
    }
    if !allow(link.email) {
      return NotPermitted;
    }
    var role := roles(link.email);
    return Pair(Encode(clock.access, AccessTyp, link.email, role, ttls.access, None),
                Encode(clock.refresh, RefreshTyp, link.email, role, ttls.refresh, None));
  }

  /** An issued token with its history: when the login behind it was complete, when the allowlist
      was consulted for it, when it was issued, and whether a refresh issued it. */
  datatype Issued = Issued(claims: Claims, login: nat, checked: nat, at: nat, refreshed: bool)

  /** One passed allowlist check. */
  datatype Check = Check(at: nat, email: string, role: Role)

  /** A link that yielded a credential pair, and the clock its expiry was read against. */
  datatype Redemption = Redemption(hash: string, at: nat)

  /** `redeeming` holds the redemptions suspended after the store's claim; `pairs` the links
      that have yielded a credential pair, in order; `passed` the checks passed so far;
      `requested` when each link was asked for. */
  datatype World = World(
    now: nat,
    allow: string -> bool,
    roles: string -> Role,
    links: map<string, Link>,
    consumed: set<string>,
    redeeming: map<nat, (string, Link)>,
    issued: seq<Issued>,
    pairs: seq<Redemption>,
    passed: set<Check>,
    requested: map<string, nat>)

  datatype Event =
    | Tick(d: nat)
    | Configure(allow: string -> bool, roles: string -> Role)
    | RequestLink(email: string, hash: string)
    | Consume(n: nat, hash: string)
    | FinishRedeem(n: nat, d: nat, e: nat)
    | UseRefresh(i: nat, d: nat)

  function Next(ttls: Ttls, w: World, e: Event): World {
    match e
    case Tick(d) => w.(now := w.now + d)
    case Configure(allow, roles) => w.(allow := allow, roles := roles)
    case RequestLink(email, hash) =>
      if email != "" && w.allow(email) && hash !in w.links
      then w.(links := w.links[hash := Link(email, w.now + LINK_TTL)], requested := w.requested[hash := w.now]) else w
    case Consume(n, hash) =>
      var (consumed, link) := ConsumeLink(w.links, w.consumed, hash);
      if n in w.redeeming || link.None? then w
      else w.(consumed := consumed, redeeming := w.redeeming[n := (hash, link.value)])
    case FinishRedeem(n, d, e) =>
      if n !in w.redeeming then w
      else
        var (hash, link) := w.redeeming[n];
        var (w', clock) := (w.(redeeming := w.redeeming - {n}), Clock(w.now, w.now + d, w.now + d + e));
        (match RedeemLink(ttls, clock, Some(link), w.allow, w.roles)
        case Pair(access, refresh) =>
          w'.(now := clock.refresh,
              issued := w.issued + [Issued(access, clock.refresh, w.now, clock.access, false),
                                    Issued(refresh, clock.refresh, w.now, clock.refresh, false)],
              pairs := w.pairs + [Redemption(hash, w.now)],
              passed := w.passed + {Check(w.now, link.email, w.roles(link.email))})
        case _ => w')
    case UseRefresh(i, d) =>
      if i >= |w.issued| then w
      else
        var t := w.issued[i];
        (match RefreshAccess(ttls, w.now, w.now + d, t.claims, w.allow, w.roles)
        case Fresh(access) =>
          w.(now := w.now + d,
             issued := w.issued + [Issued(access, t.login, w.now, w.now + d, true)],
             passed := w.passed + {Check(w.now, t.claims.email, w.roles(t.claims.email))})
        case _ => w)
  }

  function Run(ttls: Ttls, w: World, es: seq<Event>): World
    decreases |es|
  {
    if es == [] then w else Run(ttls, Next(ttls, w, es[0]), es[1..])
  }

  predicate Init(w: World) {
    w.links == map[] && w.consumed == {} && w.redeeming == map[] && w.issued == [] && w.pairs == [] && w.passed == {}
    && w.requested == map[]
  }

  /** A token's life is bounded by its issue, which its check precedes, and by its login. */
  predicate TokenOk(ttls: Ttls, w: World, t: Issued) {
    var exp := t.claims.exp * SECOND;
    && t.checked <= t.at <= w.now && t.login <= w.now
    && Check(t.checked, t.claims.email, t.claims.role) in w.passed
    && (t.claims.typ.AccessTyp? ==> exp <= t.at + ttls.access)
    && (t.claims.typ.RefreshTyp? || t.refreshed ==> exp <= t.login + ttls.refresh)
  }

  predicate Unpaired(w: World, hash: string) {
    forall i | 0 <= i < |w.pairs| :: w.pairs[i].hash != hash
  }

  /** Each link expires one link lifetime after it was asked for, and was redeemed by then. */
  ghost predicate LinksFresh(w: World) {
    && (forall hash | hash in w.links ::
          hash in w.requested && w.links[hash].expiresAt == w.requested[hash] + LINK_TTL)
    && (forall n | n in w.redeeming ::
          w.redeeming[n].0 in w.links && w.redeeming[n].1 == w.links[w.redeeming[n].0])
    && (forall i | 0 <= i < |w.pairs| ::
          w.pairs[i].hash in w.links && w.pairs[i].at <= w.links[w.pairs[i].hash].expiresAt)
  }

  ghost predicate LinksOk(w: World) {
    && (forall n | n in w.redeeming :: w.redeeming[n].0 in w.consumed && Unpaired(w, w.redeeming[n].0))
    && (forall m, n | m in w.redeeming && n in w.redeeming && w.redeeming[m].0 == w.redeeming[n].0 :: m == n)
    && (forall i | 0 <= i < |w.pairs| :: w.pairs[i].hash in w.consumed)
    && (forall i, j | 0 <= i < j < |w.pairs| :: w.pairs[i].hash != w.pairs[j].hash)
  }

  ghost predicate Inv(ttls: Ttls, w: World) {
    && (forall i | 0 <= i < |w.issued| :: TokenOk(ttls, w, w.issued[i]))
    && LinksOk(w)
    && (forall c | c in w.passed :: c.at <= w.now)
  }

  lemma EncodeBound(now: nat, typ: Typ, email: string, role: Role, ttl: nat, notAfter: Option<nat>)
    ensures
      var exp := Encode(now, typ, email, role, ttl, notAfter).exp * SECOND;
      exp <= now + ttl && (notAfter.Some? ==> exp <= notAfter.value)
  {
  }

  lemma InvStep(ttls: Ttls, w: World, e: Event)
    requires Inv(ttls, w)
    ensures Inv(ttls, Next(ttls, w, e)) && w.now <= Next(ttls, w, e).now && w.passed <= Next(ttls, w, e).passed
  {
    var w' := Next(ttls, w, e);
    LinksStep(ttls, w, e);
    match e {
      case UseRefresh(i, d) => RefreshKeepsTokens(ttls, w, i, d);
      case FinishRedeem(n, d, e) => RedeemKeepsTokens(ttls, w, n, d, e);
      case _ =>
    }
    forall i | 0 <= i < |w'.issued|
      ensures TokenOk(ttls, w', w'.issued[i])
    {
      if i < |w.issued| {
        assert TokenOk(ttls, w, w.issued[i]) && w'.issued[i] == w.issued[i];
      }
    }
  }

  lemma LinksStep(ttls: Ttls, w: World, e: Event)
    requires LinksOk(w)
    ensures LinksOk(Next(ttls, w, e))
  {
  }

  /** The token a refresh issues: clamped at the expiry of the refresh token it came from. */
  lemma RefreshKeepsTokens(ttls: Ttls, w: World, i: nat, d: nat)
    requires i < |w.issued| ==> TokenOk(ttls, w, w.issued[i])
    ensures
      var w' := Next(ttls, w, UseRefresh(i, d));
      && w.issued <= w'.issued
      && forall j | |w.issued| <= j < |w'.issued| :: TokenOk(ttls, w', w'.issued[j])
  {
  }

  /** The pair a login issues. */
  lemma RedeemKeepsTokens(ttls: Ttls, w: World, n: nat, d: nat, e: nat)
    ensures
      var w' := Next(ttls, w, FinishRedeem(n, d, e));
      && w.issued <= w'.issued
      && forall j | |w.issued| <= j < |w'.issued| :: TokenOk(ttls, w', w'.issued[j])
  {
  }

  lemma {:induction false} InvRun(ttls: Ttls, w: World, es: seq<Event>)
    requires Inv(ttls, w)
    ensures Inv(ttls, Run(ttls, w, es)) && w.now <= Run(ttls, w, es).now
    decreases |es|
  {
    if es != [] {
      InvStep(ttls, w, es[0]);
      InvRun(ttls, Next(ttls, w, es[0]), es[1..]);
    }
  }

  /** Over every run of redemptions and refreshes, whatever the configured lifetimes: a bearer
      accepted now was issued less than one access lifetime ago, by a call that had passed an
      allowlist check with the very role it grants; and if a refresh issued it, on a login
      completed less than one refresh lifetime ago. */
  lemma BearerIsRecent(ttls: Ttls, w: World, es: seq<Event>, i: nat)
    requires Init(w)
    requires var w' := Run(ttls, w, es); i < |w'.issued| && AcceptsBearer(w'.issued[i].claims, w'.now)
    ensures
      var w' := Run(ttls, w, es);
      var t := w'.issued[i];
      && Check(t.checked, t.claims.email, t.claims.role) in w'.passed && t.checked <= t.at
      && w'.now - t.at < ttls.access
      && (t.refreshed ==> w'.now - t.login < ttls.refresh)
  {
    InvRun(ttls, w, es);
    assert TokenOk(ttls, Run(ttls, w, es), Run(ttls, w, es).issued[i]);
  }

  /** Exactly when an access token is never accepted a whole access lifetime after the allowlist
      check it rests on: it expires by then. One issued at the reading of the clock its check was
      made at always does. */
  lemma CheckIsRecentIff(ttls: Ttls, w: World, es: seq<Event>, i: nat)
    requires Init(w) && i < |Run(ttls, w, es).issued| && Run(ttls, w, es).issued[i].claims.typ.AccessTyp?
    ensures
      var t := Run(ttls, w, es).issued[i];
      && ((forall now: nat :: AcceptsBearer(t.claims, now) ==> now < t.checked + ttls.access)
          <==> t.claims.exp * SECOND <= t.checked + ttls.access)
      && (t.at == t.checked ==> t.claims.exp * SECOND <= t.checked + ttls.access)
  {
    var t := Run(ttls, w, es).issued[i];
    InvRun(ttls, w, es);
    assert TokenOk(ttls, Run(ttls, w, es), t);
    var late: nat := t.checked + ttls.access;
    assert AcceptsBearer(t.claims, late) <==> late < t.claims.exp * SECOND;
  }

  /** The input: one link asked for, and redeemed a second after its check, under lifetimes of
      a second. Its bearer is accepted when that second since the check is over. */
  lemma CheckCanBeOld(email: string)
    requires email != ""
    ensures
      var (ttls, anyone, admin) := (Ttls(SECOND, SECOND), (e: string) => true, (e: string) => Admin);
      var w := World(0, anyone, admin, map[], {}, map[], [], [], {}, map[]);
      var w' := Run(ttls, w, [RequestLink(email, "h"), Event.Consume(0, "h"), FinishRedeem(0, SECOND, 0)]);
      && Init(w) && |w'.issued| == 2 && AcceptsBearer(w'.issued[0].claims, w'.now)
      && w'.now - w'.issued[0].checked >= ttls.access
  {
    var (ttls, anyone, admin) := (Ttls(SECOND, SECOND), (e: string) => true, (e: string) => Admin);
    var w := World(0, anyone, admin, map[], {}, map[], [], [], {}, map[]);
    var (ask, claim, finish) := (RequestLink(email, "h"), Event.Consume(0, "h"), FinishRedeem(0, SECOND, 0));
    var w1 := Next(ttls, w, ask);
    var w2 := Next(ttls, w1, claim);
    assert w2.redeeming == map[0 := ("h", Link(email, LINK_TTL))];
    assert Run(ttls, w2, [finish]) == Run(ttls, Next(ttls, w2, finish), []);
    assert Run(ttls, w1, [claim, finish]) == Run(ttls, w2, [finish]);
    assert Run(ttls, w, [ask, claim, finish]) == Run(ttls, w1, [claim, finish]);
  }

  /** Each magic link yields at most one credential pair. */
  lemma LinkIsSingleUse(ttls: Ttls, w: World, es: seq<Event>, i: nat, j: nat)
    requires Init(w)
    requires var w' := Run(ttls, w, es); i < |w'.pairs| && j < |w'.pairs| && w'.pairs[i].hash == w'.pairs[j].hash
    ensures i == j
  {
    InvRun(ttls, w, es);
  }

  lemma FreshStep(ttls: Ttls, w: World, e: Event)
    requires LinksFresh(w)
    ensures LinksFresh(Next(ttls, w, e))
  {
  }

  lemma {:induction false} FreshRun(ttls: Ttls, w: World, es: seq<Event>)
    requires LinksFresh(w)
    ensures LinksFresh(Run(ttls, w, es))
    decreases |es|
  {
    if es != [] {
      FreshStep(ttls, w, es[0]);
      FreshRun(ttls, Next(ttls, w, es[0]), es[1..]);
    }
  }

  /** Over every run, a link yields its pair within its lifetime, counted from when it was asked
      for. */
  lemma LinkIsFresh(ttls: Ttls, w: World, es: seq<Event>, i: nat)
    requires Init(w) && i < |Run(ttls, w, es).pairs|
    ensures
      var w' := Run(ttls, w, es);
      && w'.pairs[i].hash in w'.requested
      && w'.pairs[i].at <= w'.requested[w'.pairs[i].hash] + 15 * 60 * 1_000_000
  {
    FreshRun(ttls, w, es);
  }

  /** Exactly when a redemption yields a pair: the link was stored, not yet used, not past its expiry
      when the clock was read, and its address is allowed; and what the pair then says. */
  lemma RedeemIff(ttls: Ttls, clock: Clock, links: map<string, Link>, consumed: set<string>, hash: string,
                  allow: string -> bool, roles: string -> Role)
    ensures
      var (consumed', link) := ConsumeLink(links, consumed, hash);
      var r := RedeemLink(ttls, clock, link, allow, roles);
      && (r.Pair? <==>
            hash in links && hash !in consumed && clock.now <= links[hash].expiresAt && allow(links[hash].email))
      && (r == NotPermitted <==>
            hash in links && hash !in consumed && clock.now <= links[hash].expiresAt && !allow(links[hash].email))
      && (r.Pair? ==>
            var email := links[hash].email;
            && r.access == Claims(AccessTyp, email, roles(email), (clock.access + ttls.access) / 1_000_000)
            && r.refresh == Claims(RefreshTyp, email, roles(email), (clock.refresh + ttls.refresh) / 1_000_000))
      && consumed' == if hash in links then consumed + {hash} else consumed
  {
  }

  /** Exactly when a refresh yields a token: for an unexpired refresh token with an address that is
      still allowed; the token is an access token of that address, with its role of the moment, and
      expires with the refresh token at the latest. */
  lemma RefreshIff(ttls: Ttls, now: nat, issuedAt: nat, c: Claims, allow: string -> bool, roles: string -> Role)
    ensures
      var r := RefreshAccess(ttls, now, issuedAt, c, allow, roles);
      var valid := c.exp * 1_000_000 > now && c.typ == RefreshTyp && c.email != "";
      && (r == Refused <==> !valid) && (r == Forbidden <==> valid && !allow(c.email))
      && (r.Fresh? ==>
            var due := issuedAt + ttls.access;
            && r.access.typ == AccessTyp && r.access.email == c.email && r.access.role == roles(c.email)
            && r.access.exp == if c.exp * 1_000_000 < due then c.exp else due / 1_000_000)
  {
  }

  /** The clock and the configuration move by themselves, and a link is stored for an allowed address
      under a hash not seen before. */
  lemma LinkIsRequested(ttls: Ttls, w: World, d: nat, allow: string -> bool, roles: string -> Role, email: string,
                        hash: string)
    ensures Next(ttls, w, Tick(d)) == w.(now := w.now + d)
    ensures Next(ttls, w, Configure(allow, roles)) == w.(allow := allow, roles := roles)
    ensures
      Next(ttls, w, RequestLink(email, hash))
      == if email == "" || !w.allow(email) || hash in w.links then w
         else w.(links := w.links[hash := Link(email, w.now + 15 * 60 * 1_000_000)],
                 requested := w.requested[hash := w.now])
  {
  }

  /** What a redemption and a refresh leave in the world: the clock where their last reading was, and
      exactly the tokens they yield. */
  lemma TokensAreIssued(ttls: Ttls, w: World, n: nat, d: nat, e: nat, i: nat)
    ensures
      var w' := Next(ttls, w, FinishRedeem(n, d, e));
      if n !in w.redeeming then w' == w
      else
        var ((hash, link), w0) := (w.redeeming[n], w.(redeeming := w.redeeming - {n}));
        if w.now <= link.expiresAt && w.allow(link.email) then
          && w'.now == w.now + d + e && w'.pairs == w.pairs + [Redemption(hash, w.now)] && |w'.issued| == |w.issued| + 2
          && w'.issued[..|w.issued|] == w.issued
          && w'.passed == w.passed + {Check(w.now, link.email, w.roles(link.email))}
          && w'.(now := w.now, pairs := w.pairs, issued := w.issued, passed := w.passed) == w0
          && var (a, r) := (w'.issued[|w.issued|], w'.issued[|w.issued| + 1]);
          && a.claims.typ == AccessTyp && r.claims.typ == RefreshTyp && a.claims.email == r.claims.email == link.email
          && a.login == r.login == w'.now && a.checked == r.checked == w.now && a.at == w.now + d && r.at == w'.now
          && !a.refreshed && !r.refreshed
        else w' == w0
    ensures
      var w' := Next(ttls, w, UseRefresh(i, d));
      if i < |w.issued| && w.issued[i].claims.exp * 1_000_000 > w.now && w.issued[i].claims.typ == RefreshTyp
         && w.issued[i].claims.email != "" && w.allow(w.issued[i].claims.email) then
        var t := w.issued[i];
        && w'.now == w.now + d && |w'.issued| == |w.issued| + 1 && w'.issued[..|w.issued|] == w.issued
        && w'.passed == w.passed + {Check(w.now, t.claims.email, w.roles(t.claims.email))}
        && w'.(now := w.now, issued := w.issued, passed := w.passed) == w
        && var a := w'.issued[|w.issued|];
        && a == Issued(a.claims, t.login, w.now, w.now + d, true)
        && a.claims.typ == AccessTyp && a.claims.email == t.claims.email && a.claims.role == w.roles(t.claims.email)
      else w' == w
  {
  }

  /** A redemption begins with the store's claim, which a second caller of the link does not get. */
  lemma LinkIsClaimed(ttls: Ttls, w: World, n: nat, hash: string)
    ensures
      Next(ttls, w, Event.Consume(n, hash))
      == if n in w.redeeming || hash !in w.links || hash in w.consumed then w
         else w.(consumed := w.consumed + {hash}, redeeming := w.redeeming[n := (hash, w.links[hash])])
  {
  }

  /** A bearer is accepted exactly if it is an access token before its expiry. */
  lemma BearerIff(c: Claims, now: nat)
    ensures AcceptsBearer(c, now) <==> c.typ == AccessTyp && now < c.exp * 1_000_000
  {
  }

  /** The address stays off the allowlist throughout a run. */
  ghost predicate StaysDenied(w: World, es: seq<Event>, email: string) {
    !w.allow(email) && forall i | 0 <= i < |es| && es[i].Configure? :: !es[i].allow(email)
  }

  /** No token for the address has been issued since. */
  ghost predicate NoneSince(w: World, w': World, email: string) {
    && w.issued <= w'.issued
    && forall i | |w.issued| <= i < |w'.issued| :: w'.issued[i].claims.email != email
  }

  lemma DeniedStep(ttls: Ttls, w: World, e: Event, email: string)
    requires !w.allow(email) && (e.Configure? ==> !e.allow(email))
    ensures !Next(ttls, w, e).allow(email) && NoneSince(w, Next(ttls, w, e), email)
  {
  }

  lemma {:induction false} NoTokenWhileDenied(ttls: Ttls, w: World, es: seq<Event>, email: string)
    requires StaysDenied(w, es, email)
    ensures NoneSince(w, Run(ttls, w, es), email)
    decreases |es|
  {
    if es != [] {
      DeniedStep(ttls, w, es[0], email);
      NoTokenWhileDenied(ttls, Next(ttls, w, es[0]), es[1..], email);
    }
  }

  /** Revocation: once an address has been off the allowlist for one access lifetime, no
      bearer for it is accepted, whatever was issued before and whatever is tried since. */
  lemma RevocationTakesEffect(ttls: Ttls, w: World, before: seq<Event>, after: seq<Event>, email: string, i: nat)
    requires Init(w)
    requires StaysDenied(Run(ttls, w, before), after, email)
    requires
      var w1 := Run(ttls, w, before);
      var w2 := Run(ttls, w1, after);
      w2.now >= w1.now + ttls.access && i < |w2.issued| && w2.issued[i].claims.email == email
    ensures
      var w2 := Run(ttls, Run(ttls, w, before), after);
      !AcceptsBearer(w2.issued[i].claims, w2.now)
  {
    var w1 := Run(ttls, w, before);
    var w2 := Run(ttls, w1, after);
    InvRun(ttls, w, before);
    InvRun(ttls, w1, after);
    NoTokenWhileDenied(ttls, w1, after, email);
    assert i < |w1.issued| && TokenOk(ttls, w1, w1.issued[i]);
  }
}
