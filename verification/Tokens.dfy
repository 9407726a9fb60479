/**
Access tokens: issue, the guards of get_current_user, and the blacklist that logout writes to Redis
with a time to live. Clocks are in milliseconds; exp is in whole seconds (NumericDate in RFC 7519,
sections 2 and 4.1.4). Redis drops a blacklist entry strictly after its time to live has passed. The
jti of a token is unique (section 4.1.7).
*/
module Tokens {
  import opened Common

  type Jti = nat

  datatype Token = Token(jti: Option<Jti>, subject: Option<string>, kind: string, expires: nat)

  const ADMIN_TYPE := "admin"

  datatype Account = Account(active: bool)

  /**
  The configured lifetime, and how the JWT library reads exp: RFC 7519 refuses a token on its exp; a
  library that compares whole seconds with exp < now accepts it for that second still.
  */
  datatype Config = Config(expireMinutes: nat, acceptsOnExp: bool) {
    function TtlMs(): nat { expireMinutes * 60 * 1000 }
  }

  /**
  An Authorization header, split at its first space: a scheme and the token after it, if any. (Field
  values carry no outer whitespace: section 5.5 of RFC 9110.)
  */
  datatype Header = Header(scheme: string, credentials: Option<Token>)

  /** What a request carries: a header, a cookie, both or neither. */
  datatype Request = Request(header: Option<Header>, cookie: Option<Token>)

  datatype AuthError =
    | MissingToken | InvalidToken | WrongType | Revoked | NoSubject | UserNotFound | UserDisabled

  function LowerChar(c: char): char {
    if 'A' <= c <= 'Z' then (c as int + 32) as char else c
  }

  function Lower(s: string): string {
    seq(|s|, i requires 0 <= i < |s| => LowerChar(s[i]))
  }

  /** HTTPBearer: any spelling of the scheme will do. */
  predicate HasBearer(r: Request) {
    r.header.Some? && Lower(r.header.value.scheme) == "bearer" && r.header.value.credentials.Some?
  }

  /** Authentication's token: the bearer header's, or else the cookie's. */
  function Presented(r: Request): Option<Token> {
    if HasBearer(r) then r.header.value.credentials else r.cookie
  }

  /** logout's own reading of the header: it starts with "Bearer ", in just this spelling. */
  predicate StartsWithBearer(r: Request) {
    r.header.Some? && r.header.value.scheme == "Bearer" && r.header.value.credentials.Some?
  }

  /** The token logout looks at: that header's, or else the cookie's. */
  function Reread(r: Request): Option<Token> {
    if StartsWithBearer(r) then r.header.value.credentials else r.cookie
  }

  /** No header, no bearer header, or a bearer header in the usual spelling. */
  predicate PlainlySpelled(r: Request) {
    HasBearer(r) ==> r.header.value.scheme == "Bearer"
  }

  /** A plainly spelled request shows both routines the same token. */
  lemma PlainRereads(r: Request)
    requires PlainlySpelled(r)
    ensures Reread(r) == Presented(r)
  {
    assert Lower("Bearer") == "bearer";
  }

  /** jti -> the last millisecond of its blacklist entry */
  type Blacklist = map<Jti, nat>

  predicate Listed(blacklist: Blacklist, jti: Jti, now: nat) {
    jti in blacklist && now <= blacklist[jti]
  }

  /** The first millisecond at which the library refuses a token as expired. */
  function AcceptedUntil(cfg: Config, t: Token): nat {
    1000 * (if cfg.acceptsOnExp then t.expires + 1 else t.expires)
  }

  predicate Decodes(cfg: Config, t: Token, now: nat) { now < AcceptedUntil(cfg, t) }

  /** verify_token: no blacklist, no user. */
  predicate Verifies(cfg: Config, t: Token, now: nat) { Decodes(cfg, t, now) && t.kind == ADMIN_TYPE }

  /** create_access_token's payload: exp is one lifetime from now, cut to the second. */
  function NewToken(cfg: Config, jti: Jti, email: string, now: nat): Token {
    Token(Some(jti), Some(email), ADMIN_TYPE, (now + cfg.TtlMs()) / 1000)
  }

  function Authenticate(cfg: Config, blacklist: Blacklist, accounts: map<string, Account>, r: Request, now: nat): Result<string, AuthError> {
    var token := Presented(r);
    if token.None? then Err(MissingToken)
    else
      var t := token.value;
      if !Decodes(cfg, t, now) then Err(InvalidToken)
      else if t.kind != ADMIN_TYPE then Err(WrongType)
      else if t.jti.Some? && Listed(blacklist, t.jti.value, now) then Err(Revoked)
      else if t.subject.None? || t.subject.value == "" then Err(NoSubject)
      else if t.subject.value !in accounts then Err(UserNotFound)
      else if !accounts[t.subject.value].active then Err(UserDisabled)
      else Ok(t.subject.value)
  }

  /** A logout at this moment lists this jti: the request authenticates, and the token it is re-read to is a live one of that jti. */
  predicate Lists(cfg: Config, blacklist: Blacklist, accounts: map<string, Account>, r: Request, now: nat, jti: Jti) {
    && Authenticate(cfg, blacklist, accounts, r, now).Ok?
    && Reread(r).Some? && Verifies(cfg, Reread(r).value, now) && Reread(r).value.jti == Some(jti)
  }

  function LoggedOut(cfg: Config, blacklist: Blacklist, accounts: map<string, Account>, r: Request, now: nat, ttl: nat): Blacklist {
    if Reread(r).Some? && Reread(r).value.jti.Some? && Lists(cfg, blacklist, accounts, r, now, Reread(r).value.jti.value)
    then blacklist[Reread(r).value.jti.value := now + ttl]
    else blacklist
  }

  // ---------------------------------------------------------------------------
  // Runs
  // ---------------------------------------------------------------------------

  /** A token issued at its time, a logout request at its time, or any change to the user accounts. */
  datatype Event =
    | IssueAt(email: string, now: nat)
    | LogoutAt(request: Request, now: nat)
    | AccountsBecome(accounts: map<string, Account>)

  /** The blacklist and the users, and the history of tokens issued, which no operation reads. */
  datatype World = World(blacklist: Blacklist, accounts: map<string, Account>, issued: seq<Token>)

  function Start(accounts: map<string, Account>): World { World(map[], accounts, []) }

  function Step(cfg: Config, w: World, e: Event): World {
    match e
    case IssueAt(email, now) => w.(issued := w.issued + [NewToken(cfg, |w.issued|, email, now)])
    case LogoutAt(r, now) => w.(blacklist := LoggedOut(cfg, w.blacklist, w.accounts, r, now, cfg.TtlMs()))
    case AccountsBecome(accounts) => w.(accounts := accounts)
  }

  function Run(cfg: Config, w: World, events: seq<Event>): World
    decreases |events|
  {
    if events == [] then w else Run(cfg, Step(cfg, w, events[0]), events[1..])
  }

  /** When an event happened, if it carries a time. */
  function TimeOf(e: Event, time: nat): nat { if e.AccountsBecome? then time else e.now }

  /** Every event of the run happens at or after this time, and in order. */
  predicate From(events: seq<Event>, time: nat)
    decreases |events|
  {
    events == [] || (time <= TimeOf(events[0], time) && From(events[1..], TimeOf(events[0], time)))
  }

  /** The time of the last event. */
  function EndOf(events: seq<Event>, time: nat): nat
    decreases |events|
  {
    if events == [] then time else EndOf(events[1..], TimeOf(events[0], time))
  }

  // ---------------------------------------------------------------------------
  // The server
  // ---------------------------------------------------------------------------

  class AuthServer {
    const cfg: Config
    var blacklist: Blacklist
    var accounts: map<string, Account>
    var nextJti: Jti
    ghost var issued: seq<Token>

    ghost predicate Valid()
      reads this
    {
      nextJti == |issued|
    }

    ghost function Contents(): World
      reads this
    {
      World(blacklist, accounts, issued)
    }

    constructor (cfg: Config, accounts: map<string, Account>)
      ensures Valid() && this.cfg == cfg && Contents() == Start(accounts)
    {
      this.cfg := cfg;
      this.accounts := accounts;
      blacklist, nextJti, issued := map[], 0, [];
    }

    /** create_access_token; the fresh jti is the next number. */
    method CreateAccessToken(email: string, now: nat) returns (t: Token)
      requires Valid()
      modifies this
      ensures Valid() && Contents() == Step(cfg, old(Contents()), IssueAt(email, now))
      ensures Contents().issued == old(Contents().issued) + [t]
    {
      t := Token(Some(nextJti), Some(email), ADMIN_TYPE, (now + cfg.expireMinutes * 60 * 1000) / 1000);
      nextJti := nextJti + 1;
      issued := issued + [t];
    }

    /** get_current_user: a sequence of guards. */
    method GetCurrentUser(r: Request, now: nat) returns (user: Result<string, AuthError>)
      ensures user == Authenticate(cfg, blacklist, accounts, r, now)
    {
      var token;
      if HasBearer(r) {
        token := r.header.value.credentials.value;
      } else {
        if r.cookie.None? { return Err(MissingToken); }
        token := r.cookie.value;
      }
      if !Decodes(cfg, token, now) { return Err(InvalidToken); }
      if token.kind != ADMIN_TYPE { return Err(WrongType); }
      if token.jti.Some? {
        if Listed(blacklist, token.jti.value, now) { return Err(Revoked); }
      }
      if token.subject.None? || token.subject.value == "" { return Err(NoSubject); }
      if token.subject.value !in accounts { return Err(UserNotFound); }
      if !accounts[token.subject.value].active { return Err(UserDisabled); }
      return Ok(token.subject.value);
    }

    /** logout: only an authenticated request gets here; the token it reads again has its jti listed for one lifetime. */
    method Logout(r: Request, now: nat) returns (reply: Result<(), AuthError>)
      requires Valid()
      modifies this`blacklist
      ensures reply.Ok? <==> Authenticate(cfg, old(blacklist), accounts, r, now).Ok?
      ensures Valid() && Contents() == Step(cfg, old(Contents()), LogoutAt(r, now))
    {
      var user := GetCurrentUser(r, now);
      if user.Err? { return Err(user.error); }
      var token;
      if StartsWithBearer(r) {
        token := r.header.value.credentials;
      } else {
        token := r.cookie;
      }
      if token.Some? {
        if Verifies(cfg, token.value, now) && token.value.jti.Some? {
          blacklist := blacklist[token.value.jti.value := now + cfg.expireMinutes * 60 * 1000];
        }
      }
      return Ok(());
    }
  }

  // ---------------------------------------------------------------------------
  // Which token a logout lists
  // ---------------------------------------------------------------------------

  /** The cookie holds a live token of the same jti as the header's. */
  predicate CookieAgrees(cfg: Config, r: Request, jti: Jti, now: nat) {
    r.cookie.Some? && Verifies(cfg, r.cookie.value, now) && r.cookie.value.jti == Some(jti)
  }

  /**
  A successful logout lists the authenticated token's jti exactly when the request is plainly spelled
  or its cookie carries a live token of the same jti.
  */
  lemma LogoutListsPresentedIff(cfg: Config, blacklist: Blacklist, accounts: map<string, Account>, r: Request, at: nat, ttl: nat, jti: Jti)
    requires Authenticate(cfg, blacklist, accounts, r, at).Ok? && Presented(r).value.jti == Some(jti)
    ensures var after := LoggedOut(cfg, blacklist, accounts, r, at, ttl);
            (jti in after && after[jti] == at + ttl) <==> PlainlySpelled(r) || CookieAgrees(cfg, r, jti, at)
    ensures var after := LoggedOut(cfg, blacklist, accounts, r, at, ttl);
            !(PlainlySpelled(r) || CookieAgrees(cfg, r, jti, at))
            ==> (jti in after <==> jti in blacklist) && (jti in blacklist ==> after[jti] == blacklist[jti])
  {
    if PlainlySpelled(r) {
      PlainRereads(r);
    }
  }

  /** "Authorization: bearer ..." authenticates; its logout succeeds, lists nothing, and the token goes on working. */
  lemma LowerCaseLogoutListsNothing(cfg: Config, accounts: map<string, Account>, t: Token, at: nat, ttl: nat)
    requires Authenticate(cfg, map[], accounts, Request(None, Some(t)), at).Ok?
    ensures var r := Request(Some(Header("bearer", Some(t))), None);
            && Authenticate(cfg, map[], accounts, r, at).Ok?
            && LoggedOut(cfg, map[], accounts, r, at, ttl) == map[]
            && Authenticate(cfg, LoggedOut(cfg, map[], accounts, r, at, ttl), accounts, r, at).Ok?
  {
    assert Lower("bearer") == "bearer";
  }

  /** With someone else's cookie beside it, it is that other token that gets revoked. */
  lemma LowerCaseLogoutListsCookie(cfg: Config, accounts: map<string, Account>, t: Token, other: Token, at: nat, ttl: nat)
    requires Authenticate(cfg, map[], accounts, Request(None, Some(t)), at).Ok?
    requires Authenticate(cfg, map[], accounts, Request(None, Some(other)), at).Ok? && other.jti.Some? && other.jti != t.jti
    ensures var after := LoggedOut(cfg, map[], accounts, Request(Some(Header("bearer", Some(t))), Some(other)), at, ttl);
            && Authenticate(cfg, after, accounts, Request(None, Some(t)), at).Ok?
            && Authenticate(cfg, after, accounts, Request(None, Some(other)), at) == Err(Revoked)
  {
    assert Lower("bearer") == "bearer";
  }

  // ---------------------------------------------------------------------------
  // Which time to live revokes for good
  // ---------------------------------------------------------------------------

  /** The request is refused at this moment and at every later one. */
  ghost predicate RefusedFrom(cfg: Config, blacklist: Blacklist, accounts: map<string, Account>, r: Request, at: nat) {
    forall now: nat :: at <= now ==> Authenticate(cfg, blacklist, accounts, r, now).Err?
  }

  lemma NotRefused(cfg: Config, blacklist: Blacklist, accounts: map<string, Account>, r: Request, at: nat, now: nat)
    requires at <= now && Authenticate(cfg, blacklist, accounts, r, now).Ok?
    ensures !RefusedFrom(cfg, blacklist, accounts, r, at)
  {
  }

  /** Was this jti's blacklisting set to last at least until the token is refused as expired? */
  predicate CoversLifetime(cfg: Config, blacklist: Blacklist, t: Token) {
    t.jti.Some? && t.jti.value in blacklist && AcceptedUntil(cfg, t) <= blacklist[t.jti.value] + 1
  }

  /** A covered token is refused at every moment: while listed as revoked, and from its expiry on as invalid. */
  lemma CoveredAlwaysRefused(cfg: Config, blacklist: Blacklist, accounts: map<string, Account>, t: Token, r: Request, now: nat)
    requires CoversLifetime(cfg, blacklist, t) && Presented(r) == Some(t)
    ensures Authenticate(cfg, blacklist, accounts, r, now).Err?
  {
  }

  /**
  Which blacklist time to live revokes for good: a plainly spelled logout at some time with time to
  live ttl leaves the token refused at every later moment, for a user that stays active, exactly when
  the entry lasts to the last millisecond at which the library accepts the token.
  */
  lemma RevokedForGoodIff(cfg: Config, accounts: map<string, Account>, t: Token, r: Request, at: nat, ttl: nat)
    requires PlainlySpelled(r) && Presented(r) == Some(t) && t.jti.Some? && Authenticate(cfg, map[], accounts, r, at).Ok?
    ensures var blacklist := LoggedOut(cfg, map[], accounts, r, at, ttl);
            RefusedFrom(cfg, blacklist, accounts, r, at) <==> AcceptedUntil(cfg, t) <= at + ttl + 1
  {
    PlainRereads(r);
    var blacklist := LoggedOut(cfg, map[], accounts, r, at, ttl);
    assert blacklist == map[t.jti.value := at + ttl];
    if AcceptedUntil(cfg, t) > at + ttl + 1 {
      NotRefused(cfg, blacklist, accounts, r, at, at + ttl + 1);
    }
  }

  /** The second a token was issued in. */
  function IssueSecond(cfg: Config, t: Token): int { t.expires - cfg.expireMinutes * 60 }

  lemma NewTokenSecond(cfg: Config, jti: Jti, email: string, now: nat)
    ensures IssueSecond(cfg, NewToken(cfg, jti, email, now)) == now / 1000
  {
  }

  /** Under a library that accepts on exp: not within the second of issue, except for its last millisecond. */
  predicate LateEnough(cfg: Config, t: Token, at: nat) {
    cfg.acceptsOnExp ==> 1000 * IssueSecond(cfg, t) + 999 <= at
  }

  /** One lifetime of listing outlasts the token exactly when the logout is late enough. */
  lemma LifetimeCoversIff(cfg: Config, t: Token, at: nat)
    requires 1000 * IssueSecond(cfg, t) <= at
    ensures AcceptedUntil(cfg, t) <= at + cfg.TtlMs() + 1 <==> LateEnough(cfg, t, at)
  {
  }

  // ---------------------------------------------------------------------------
  // What was issued
  // ---------------------------------------------------------------------------

  /** Issued tokens are numbered by their jti, of the right kind, and none is from the future. */
  ghost predicate IssuedInv(cfg: Config, w: World, time: nat) {
    forall k :: 0 <= k < |w.issued| ==>
      && w.issued[k].jti == Some(k) && w.issued[k].kind == ADMIN_TYPE && w.issued[k].subject.Some?
      && 1000 * IssueSecond(cfg, w.issued[k]) <= time
  }

  lemma StepIssued(cfg: Config, w: World, e: Event, time: nat)
    requires IssuedInv(cfg, w, time) && time <= TimeOf(e, time)
    ensures IssuedInv(cfg, Step(cfg, w, e), TimeOf(e, time))
  {
    if e.IssueAt? {
      NewTokenSecond(cfg, |w.issued|, e.email, e.now);
    }
  }

  lemma {:induction false} RunIssued(cfg: Config, w: World, events: seq<Event>, time: nat)
    requires IssuedInv(cfg, w, time) && From(events, time)
    ensures IssuedInv(cfg, Run(cfg, w, events), EndOf(events, time))
    decreases |events|
  {
    hide Step, IssuedInv;
    if events != [] {
      StepIssued(cfg, w, events[0], time);
      RunIssued(cfg, Step(cfg, w, events[0]), events[1..], TimeOf(events[0], time));
    }
  }

  /** No two tokens of a run share a jti. */
  lemma JtiUnique(cfg: Config, accounts: map<string, Account>, events: seq<Event>, t: Token, u: Token)
    requires From(events, 0) && t in Run(cfg, Start(accounts), events).issued && u in Run(cfg, Start(accounts), events).issued
    ensures t.jti.Some? && (t.jti == u.jti ==> t == u)
  {
    RunIssued(cfg, Start(accounts), events, 0);
  }

  // ---------------------------------------------------------------------------
  // Who a token stands for
  // ---------------------------------------------------------------------------

  type Issue = e: Event | e.IssueAt? witness IssueAt("", 0)

  /** The issue events of a run, in order: the k-th made the token of jti k. */
  function Issues(events: seq<Event>): seq<Issue> {
    if events == [] then []
    else (if events[0].IssueAt? then [events[0]] else []) + Issues(events[1..])
  }

  /** Each token carries the email it was issued for and expires one lifetime later, cut to the second. */
  lemma {:induction false} IssuedFor(cfg: Config, w: World, events: seq<Event>)
    ensures var v, n := Run(cfg, w, events), |w.issued|;
            && |v.issued| == n + |Issues(events)| && w.issued <= v.issued
            && forall k :: 0 <= k < |Issues(events)| ==>
                 && v.issued[n + k].subject == Some(Issues(events)[k].email)
                 && v.issued[n + k].expires == (Issues(events)[k].now + cfg.expireMinutes * 60000) / 1000
    decreases |events|
  {
    if events != [] {
      var e, next := events[0], Step(cfg, w, events[0]);
      IssuedFor(cfg, next, events[1..]);
      if e.IssueAt? {
        assert next.issued[|w.issued|] == NewToken(cfg, |w.issued|, e.email, e.now);
        assert forall k :: 1 <= k < |Issues(events)| ==> Issues(events)[k] == Issues(events[1..])[k - 1];
      }
    }
  }

  /** The token of the k-th issue of a run. */
  function TokenOf(cfg: Config, accounts: map<string, Account>, events: seq<Event>, k: Jti): Token
    requires k < |Issues(events)|
  {
    IssuedFor(cfg, Start(accounts), events);
    Run(cfg, Start(accounts), events).issued[k]
  }

  /**
  Whoever authenticates with an issued token is the user it was issued for, and active; so tokens issued
  for different emails never authenticate as one user.
  */
  lemma AuthenticatesOwner(cfg: Config, accounts: map<string, Account>, events: seq<Event>, k: Jti, r: Request, now: nat, user: string)
    requires k < |Issues(events)| && Presented(r) == Some(TokenOf(cfg, accounts, events, k))
    requires var v := Run(cfg, Start(accounts), events);
             Authenticate(cfg, v.blacklist, v.accounts, r, now) == Ok(user)
    ensures var v := Run(cfg, Start(accounts), events);
            user == Issues(events)[k].email && user in v.accounts && v.accounts[user].active
  {
    IssuedFor(cfg, Start(accounts), events);
  }

  /** Why a request is turned away: each answer has its own reason, and an admitted request has none of them. */
  lemma Rejections(cfg: Config, blacklist: Blacklist, accounts: map<string, Account>, r: Request, now: nat)
    ensures var reply := Authenticate(cfg, blacklist, accounts, r, now);
            && (reply == Err(MissingToken) <==> Presented(r).None?)
            && (reply == Err(InvalidToken) <==> Presented(r).Some? && !Decodes(cfg, Presented(r).value, now))
            && (reply == Err(Revoked) ==> exists jti :: Presented(r).value.jti == Some(jti) && jti in blacklist && now <= blacklist[jti])
            && (reply == Err(WrongType) ==> Presented(r).value.kind != "admin")
            && (reply == Err(NoSubject) ==> Presented(r).value.subject.None? || Presented(r).value.subject == Some(""))
            && (reply == Err(UserNotFound) ==> Presented(r).value.subject.Some? && Presented(r).value.subject.value !in accounts)
            && (reply == Err(UserDisabled) ==> exists email :: Presented(r).value.subject == Some(email) && email in accounts && !accounts[email].active)
  {
  }

  // ---------------------------------------------------------------------------
  // Revocation
  // ---------------------------------------------------------------------------

  /** A logout of t that revokes it for good: plainly spelled or with a cookie that agrees, and late enough. */
  predicate Revokes(cfg: Config, t: Token, r: Request, at: nat) {
    t.jti.Some? && (PlainlySpelled(r) || CookieAgrees(cfg, r, t.jti.value, at)) && LateEnough(cfg, t, at)
  }

  /** A run up to the moment at, in which t was issued and now authenticates request r. */
  ghost predicate LogsOut(cfg: Config, accounts: map<string, Account>, before: seq<Event>, t: Token, r: Request, at: nat) {
    var w := Run(cfg, Start(accounts), before);
    && From(before, 0) && EndOf(before, 0) <= at && t in w.issued
    && Presented(r) == Some(t) && Authenticate(cfg, w.blacklist, w.accounts, r, at).Ok?
  }

  lemma IssuedBefore(cfg: Config, accounts: map<string, Account>, before: seq<Event>, t: Token, r: Request, at: nat)
    requires LogsOut(cfg, accounts, before, t, r, at)
    ensures t.jti.Some? && 1000 * IssueSecond(cfg, t) <= at
  {
    RunIssued(cfg, Start(accounts), before, 0);
  }

  /**
  Which logouts revoke: after any run, the token an authenticated logout presented is refused from then
  on exactly when the logout was plainly spelled, or its cookie carried the same jti, and, where the
  library accepts a token on its exp, it did not come within the second of issue.
  */
  lemma LogoutRevokesIff(cfg: Config, accounts: map<string, Account>, before: seq<Event>, t: Token, r: Request, at: nat)
    requires LogsOut(cfg, accounts, before, t, r, at)
    ensures var v := Step(cfg, Run(cfg, Start(accounts), before), LogoutAt(r, at));
            RefusedFrom(cfg, v.blacklist, v.accounts, r, at) <==> Revokes(cfg, t, r, at)
  {
    IssuedBefore(cfg, accounts, before, t, r, at);
    var w := Run(cfg, Start(accounts), before);
    hide Run, From, EndOf;
    var v := Step(cfg, w, LogoutAt(r, at));
    LogoutListsPresentedIff(cfg, w.blacklist, w.accounts, r, at, cfg.TtlMs(), t.jti.value);
    LifetimeCoversIff(cfg, t, at);
    if Revokes(cfg, t, r, at) {
      forall now: nat | at <= now
        ensures Authenticate(cfg, v.blacklist, v.accounts, r, now).Err?
      {
        CoveredAlwaysRefused(cfg, v.blacklist, v.accounts, t, r, now);
      }
    } else if PlainlySpelled(r) || CookieAgrees(cfg, r, t.jti.value, at) {
      NotRefused(cfg, v.blacklist, v.accounts, r, at, at + cfg.TtlMs() + 1);
    } else {
      NotRefused(cfg, v.blacklist, v.accounts, r, at, at);
    }
  }

  /** Coverage survives any later events: a later logout of the same jti can only extend it. */
  lemma {:induction false} CoverageLasts(cfg: Config, w: World, events: seq<Event>, t: Token, at: nat)
    requires CoversLifetime(cfg, w.blacklist, t) && w.blacklist[t.jti.value] <= at + cfg.TtlMs() && From(events, at)
    ensures CoversLifetime(cfg, Run(cfg, w, events).blacklist, t)
    decreases |events|
  {
    if events != [] {
      CoverageLasts(cfg, Step(cfg, w, events[0]), events[1..], t, TimeOf(events[0], at));
    }
  }

  /**
  Revocation is permanent: once a revoking logout presented a token, every later request with that token
  fails, whatever is issued, logged out and changed in between and however much time passes.
  */
  lemma RevocationIsPermanent(cfg: Config, accounts: map<string, Account>, before: seq<Event>, t: Token, r: Request, at: nat,
                              after: seq<Event>, later: Request, now: nat)
    requires LogsOut(cfg, accounts, before, t, r, at) && Revokes(cfg, t, r, at)
    requires From(after, at) && Presented(later) == Some(t)
    ensures var v := Run(cfg, Step(cfg, Run(cfg, Start(accounts), before), LogoutAt(r, at)), after);
            Authenticate(cfg, v.blacklist, v.accounts, later, now).Err?
  {
    IssuedBefore(cfg, accounts, before, t, r, at);
    var w := Run(cfg, Start(accounts), before);
    hide Run, EndOf;
    var v := Step(cfg, w, LogoutAt(r, at));
    LogoutListsPresentedIff(cfg, w.blacklist, w.accounts, r, at, cfg.TtlMs(), t.jti.value);
    LifetimeCoversIff(cfg, t, at);
    CoverageLasts(cfg, v, after, t, at);
    var u := Run(cfg, v, after);
    CoveredAlwaysRefused(cfg, u.blacklist, u.accounts, t, later, now);
  }

  /** A library that accepts on exp, a lifetime of a minute: issued at 0 ms, logged out at 100 ms, the token is back at 60500 ms. */
  lemma RevivesAfterQuickLogout()
    ensures var cfg := Config(1, true);
            var accounts := map["ana" := Account(true)];
            var r := Request(None, Some(NewToken(cfg, 0, "ana", 0)));
            var before := Step(cfg, Start(accounts), IssueAt("ana", 0));
            var v := Step(cfg, before, LogoutAt(r, 100));
            && Authenticate(cfg, before.blacklist, accounts, r, 100).Ok?
            && Authenticate(cfg, v.blacklist, accounts, r, 101) == Err(Revoked)
            && Authenticate(cfg, v.blacklist, accounts, r, 60500).Ok?
  {
  }

  // ---------------------------------------------------------------------------
  // Nothing else is revoked
  // ---------------------------------------------------------------------------

  /** No logout of the run reads this token. */
  predicate NeverReread(events: seq<Event>, t: Token) {
    forall k :: 0 <= k < |events| && events[k].LogoutAt? ==> Reread(events[k].request) != Some(t)
  }

  /** Tokens cannot be forged: what a logout reads and verifies was issued before. */
  predicate Unforged(cfg: Config, w: World, events: seq<Event>)
    decreases |events|
  {
    events == []
    || ((events[0].LogoutAt? && Reread(events[0].request).Some? && Verifies(cfg, Reread(events[0].request).value, events[0].now)
         ==> Reread(events[0].request).value in w.issued)
        && Unforged(cfg, Step(cfg, w, events[0]), events[1..]))
  }

  lemma {:induction false} IssuedGrows(cfg: Config, w: World, events: seq<Event>)
    ensures w.issued <= Run(cfg, w, events).issued
    decreases |events|
  {
    if events != [] {
      IssuedGrows(cfg, Step(cfg, w, events[0]), events[1..]);
    }
  }

  lemma {:induction false} StaysUnlisted(cfg: Config, w: World, events: seq<Event>, time: nat, k: Jti)
    requires IssuedInv(cfg, w, time) && From(events, time) && Unforged(cfg, w, events) && k !in w.blacklist
    requires k < |Run(cfg, w, events).issued| && NeverReread(events, Run(cfg, w, events).issued[k])
    ensures k !in Run(cfg, w, events).blacklist
    decreases |events|
  {
    if events != [] {
      var e, v := events[0], Step(cfg, w, events[0]);
      IssuedGrows(cfg, w, events);
      StepIssued(cfg, w, e, time);
      assert k !in v.blacklist by {
        if e.LogoutAt? { ReadsAnother(cfg, w, e, time, k, Run(cfg, w, events).issued[k]); }
      }
      StaysUnlisted(cfg, v, events[1..], TimeOf(e, time), k);
    }
  }

  lemma ReadsAnother(cfg: Config, w: World, e: Event, time: nat, k: Jti, t: Token)
    requires IssuedInv(cfg, w, time) && k !in w.blacklist && e.LogoutAt? && Reread(e.request) != Some(t)
    requires Unforged(cfg, w, [e]) && (k < |w.issued| ==> w.issued[k] == t)
    ensures k !in Step(cfg, w, e).blacklist
  {
  }

  /** An unexpired token authenticates as the user it was issued for, while that user is active and no logout reads it. */
  lemma OnlyRereadRevoked(cfg: Config, accounts: map<string, Account>, events: seq<Event>, k: Jti, r: Request, now: nat)
    requires From(events, 0) && Unforged(cfg, Start(accounts), events) && k < |Issues(events)|
    requires var t := TokenOf(cfg, accounts, events, k);
             NeverReread(events, t) && Presented(r) == Some(t) && Decodes(cfg, t, now)
    ensures var v, email := Run(cfg, Start(accounts), events), Issues(events)[k].email;
            && (email != "" && email in v.accounts && v.accounts[email].active ==> Authenticate(cfg, v.blacklist, v.accounts, r, now) == Ok(email))
            && (Authenticate(cfg, v.blacklist, v.accounts, r, now).Ok? ==> email in v.accounts && v.accounts[email].active)
  {
    IssuedFor(cfg, Start(accounts), events);
    RunIssued(cfg, Start(accounts), events, 0);
    StaysUnlisted(cfg, Start(accounts), events, 0, k);
  }

  /** Every logout of the run is plainly spelled, and none presents this token. */
  predicate NeverPresented(events: seq<Event>, t: Token) {
    forall k :: 0 <= k < |events| && events[k].LogoutAt? ==>
      PlainlySpelled(events[k].request) && Presented(events[k].request) != Some(t)
  }

  /** So where logouts are plainly spelled, only a presented token is revoked. */
  lemma OnlyPresentedRevoked(cfg: Config, accounts: map<string, Account>, events: seq<Event>, k: Jti, r: Request, now: nat)
    requires From(events, 0) && Unforged(cfg, Start(accounts), events) && k < |Issues(events)|
    requires var t := TokenOf(cfg, accounts, events, k);
             NeverPresented(events, t) && Presented(r) == Some(t) && Decodes(cfg, t, now)
    ensures var v, email := Run(cfg, Start(accounts), events), Issues(events)[k].email;
            && (email != "" && email in v.accounts && v.accounts[email].active ==> Authenticate(cfg, v.blacklist, v.accounts, r, now) == Ok(email))
            && (Authenticate(cfg, v.blacklist, v.accounts, r, now).Ok? ==> email in v.accounts && v.accounts[email].active)
  {
    IssuedFor(cfg, Start(accounts), events);
    forall k | 0 <= k < |events| && events[k].LogoutAt?
      ensures Reread(events[k].request) == Presented(events[k].request)
    {
      PlainRereads(events[k].request);
    }
    OnlyRereadRevoked(cfg, accounts, events, k, r, now);
  }
}
