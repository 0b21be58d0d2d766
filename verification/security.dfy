/**
 The request-guarding bookkeeping of server/services/security.ts, with the
 clock as an integer parameter (milliseconds):

 - a fixed-window rate limiter keyed by client;
 - a cache of per-stream, per-session encryption keys with a five-minute
   lifetime, and its periodic sweep;
 - the session store and its one-hour expiry sweep;
 - the IP allow-list, the client-IP and bearer-token extraction, the referrer
   check;
 - the path gating of the middleware.

 Cryptography (JWT signing and verification, the SHA-256 fingerprint, random
 key bytes) and the user-agent regular expressions are parameters: the token
 verifier is a function, the fingerprint and the regex outcomes are fields of
 the request, and a new key's bytes are passed in.
 */
module Security {
  import opened Common

  // ---------------------------------------------------------------------------
  // Rate limiting
  // ---------------------------------------------------------------------------

  const WindowMs := 60000

  /** A client's window: requests counted so far and when the window ends. */
  datatype Window = Window(count: nat, resetTime: int)

  datatype RateResult = Allowed | Denied(retryAfter: int)

  /** `Math.ceil(x / 1000)`. */
  function CeilDiv1000(x: int): (r: int)
    ensures 1000 * (r - 1) < x <= 1000 * r
  {
    -((-x) / 1000)
  }

  /** The window after one request at `now`: a new one if the old one has ended, else the
      old one with the request counted. An unknown client starts with an empty window. */
  function NextWindow(store: map<string, Window>, client: string, now: int): (w: Window)
    ensures (client !in store || now > store[client].resetTime) ==> w == Window(1, now + WindowMs)
    ensures client in store && now <= store[client].resetTime ==>
              w == Window(store[client].count + 1, store[client].resetTime)
  {
    var record := if client in store then store[client] else Window(0, now + WindowMs);
    if now > record.resetTime then Window(1, now + WindowMs)
    else Window(record.count + 1, record.resetTime)
  }

  /** `checkRateLimit`: counts the request in the client's window; allowed exactly while
      the window's count is within `maxPerMinute`; a refusal says how many seconds are
      left in the window. */
  function CheckRateLimit(store: map<string, Window>, client: string, now: int, maxPerMinute: int): (r: (map<string, Window>, RateResult))
    ensures r.0 == store[client := NextWindow(store, client, now)]
    ensures r.1 == Allowed <==> NextWindow(store, client, now).count <= maxPerMinute
    ensures r.1.Denied? ==> r.1.retryAfter == CeilDiv1000(NextWindow(store, client, now).resetTime - now)
  {
    var w := NextWindow(store, client, now);
    (store[client := w], if w.count > maxPerMinute then Denied(CeilDiv1000(w.resetTime - now)) else Allowed)
  }

  /** Every window ends within a minute of `now`. */
  ghost predicate WindowsBounded(store: map<string, Window>, now: int) {
    forall c :: c in store ==> store[c].resetTime <= now + WindowMs
  }

  /** While the clock does not go back, windows stay within a minute, and a refused client
      is told to wait between 0 and 60 seconds. */
  lemma RetryAfterBounded(store: map<string, Window>, client: string, now: int, later: int, maxPerMinute: int)
    requires WindowsBounded(store, now) && now <= later
    ensures WindowsBounded(CheckRateLimit(store, client, later, maxPerMinute).0, later)
    ensures var r := CheckRateLimit(store, client, later, maxPerMinute).1;
            r.Denied? ==> 0 <= r.retryAfter <= 60
  {
  }

  /** How many of a client's requests at the given times are allowed. */
  function AllowedCount(store: map<string, Window>, client: string, times: seq<int>, maxPerMinute: int): nat
    decreases |times|
  {
    if |times| == 0 then 0
    else
      var r := CheckRateLimit(store, client, times[0], maxPerMinute);
      (if r.1 == Allowed then 1 else 0) + AllowedCount(r.0, client, times[1..], maxPerMinute)
  }

  /** `x` clamped to `[0, hi]`. */
  function Clamp(x: int, hi: nat): nat {
    if x < 0 then 0 else if x > hi then hi else x
  }

  /** Requests that all fall inside the client's current window are allowed until the
      window's count reaches the limit, and refused after that. */
  lemma {:induction false} AllowedWithinWindow(store: map<string, Window>, client: string, times: seq<int>, maxPerMinute: int)
    requires client in store
    requires forall i :: 0 <= i < |times| ==> times[i] <= store[client].resetTime
    ensures AllowedCount(store, client, times, maxPerMinute) == Clamp(maxPerMinute - store[client].count, |times|)
    decreases |times|
  {
    if |times| > 0 {
      var r := CheckRateLimit(store, client, times[0], maxPerMinute);
      assert r.0[client] == Window(store[client].count + 1, store[client].resetTime);
      AllowedWithinWindow(r.0, client, times[1..], maxPerMinute);
    }
  }

  /** A client starting a window gets at most `maxPerMinute` requests through before it ends. */
  lemma AtMostMaxPerWindow(store: map<string, Window>, client: string, first: int, times: seq<int>, maxPerMinute: nat)
    requires client !in store || first > store[client].resetTime
    requires forall i :: 0 <= i < |times| ==> times[i] <= first + WindowMs
    ensures AllowedCount(store, client, [first] + times, maxPerMinute) <= maxPerMinute
  {
    var r := CheckRateLimit(store, client, first, maxPerMinute);
    assert ([first] + times)[1..] == times;
    AllowedWithinWindow(r.0, client, times, maxPerMinute);
  }

  // ---------------------------------------------------------------------------
  // Rotating keys
  // ---------------------------------------------------------------------------

  const KeyTtlMs := 300000

  type Key = seq<bv8>

  datatype KeyEntry = KeyEntry(key: Key, expires: int, sessionId: string)

  /** The cache key of a stream and session. */
  function KeyId(streamId: string, sessionId: string): string {
    streamId + "-" + sessionId
  }

  /** `getRotatingKey`: the cached key while it has not expired; otherwise `newKey`, cached
      for five minutes. */
  function GetRotatingKey(keys: map<string, KeyEntry>, streamId: string, sessionId: string, now: int, newKey: Key): (r: (map<string, KeyEntry>, Key))
    ensures var id := KeyId(streamId, sessionId);
            && (id in keys && keys[id].expires > now ==> r == (keys, keys[id].key))
            && (!(id in keys && keys[id].expires > now) ==>
                  r == (keys[id := KeyEntry(newKey, now + KeyTtlMs, sessionId)], newKey))
  {
    var id := KeyId(streamId, sessionId);
    if id in keys && keys[id].expires > now then (keys, keys[id].key)
    else (keys[id := KeyEntry(newKey, now + KeyTtlMs, sessionId)], newKey)
  }

  /** A key handed out is handed out again, whatever newKey bytes are offered, until five
      minutes after it was made; from then on a new one is made. */
  lemma KeyStableForTtl(keys: map<string, KeyEntry>, streamId: string, sessionId: string, now: int, newKey: Key, later: int, newKey2: Key)
    requires now <= later
    requires KeyId(streamId, sessionId) !in keys || keys[KeyId(streamId, sessionId)].expires <= now
    ensures var first := GetRotatingKey(keys, streamId, sessionId, now, newKey);
            var second := GetRotatingKey(first.0, streamId, sessionId, later, newKey2);
            && first.1 == newKey
            && (later < now + KeyTtlMs ==> second.1 == newKey)
            && (later >= now + KeyTtlMs ==> second.1 == newKey2)
  {
  }

  /** The rotation sweep: removes exactly the keys that have expired by `now`. */
  function SweepKeys(keys: map<string, KeyEntry>, now: int): (r: map<string, KeyEntry>)
    ensures forall id :: id in r <==> id in keys && keys[id].expires > now
    ensures forall id :: id in r ==> r[id] == keys[id]
  {
    map id | id in keys && keys[id].expires > now :: keys[id]
  }

  /** Sweeping twice is one sweep at the later time. */
  lemma SweepKeysCompose(keys: map<string, KeyEntry>, a: int, b: int)
    ensures SweepKeys(SweepKeys(keys, a), b) == SweepKeys(keys, if a < b then b else a)
  {
  }

  /** The sweep is invisible to `getRotatingKey` from then on: the same key comes back,
      and the caches left behind agree once swept again. */
  lemma SweepUnobservable(keys: map<string, KeyEntry>, now: int, streamId: string, sessionId: string, later: int, newKey: Key)
    requires now <= later
    ensures var swept := GetRotatingKey(SweepKeys(keys, now), streamId, sessionId, later, newKey);
            var kept := GetRotatingKey(keys, streamId, sessionId, later, newKey);
            && swept.1 == kept.1
            && SweepKeys(swept.0, later) == SweepKeys(kept.0, later)
  {
  }

  // ---------------------------------------------------------------------------
  // Sessions
  // ---------------------------------------------------------------------------

  const SessionMaxAgeMs := 3600000

  datatype Session = Session(fingerprint: string, lastAccess: int, keyAccess: nat)

  /** `cleanupSessions`: removes exactly the sessions idle for more than an hour. */
  function CleanupSessions(sessions: map<string, Session>, now: int): (r: map<string, Session>)
    ensures forall id :: id in r <==> id in sessions && now - sessions[id].lastAccess <= SessionMaxAgeMs
    ensures forall id :: id in r ==> r[id] == sessions[id]
  {
    map id | id in sessions && !(now - sessions[id].lastAccess > SessionMaxAgeMs) :: sessions[id]
  }

  /** A cleanup right after another at the same time or earlier removes nothing more than
      the later one alone. */
  lemma CleanupSessionsCompose(sessions: map<string, Session>, a: int, b: int)
    requires a <= b
    ensures CleanupSessions(CleanupSessions(sessions, a), b) == CleanupSessions(sessions, b)
  {
  }

  // ---------------------------------------------------------------------------
  // Request facts
  // ---------------------------------------------------------------------------

  /** What the middleware reads from a request. The regular-expression outcomes and the
      fingerprint hash are given. */
  datatype Request = Request(
    path: string,
    authorization: Option<string>,
    queryToken: Option<string>,
    userAgent: Option<string>,
    referer: Option<string>,
    origin: Option<string>,
    forwardedFor: Option<string>,
    realIp: Option<string>,
    remoteAddress: Option<string>,
    fingerprint: string,
    /** The user agent matches `Mozilla/5.0 … (Chrome|Firefox|Safari|Edge)`. */
    browserAgent: bool,
    /** The user agent matches one of the blocked patterns (bot, curl, ffmpeg, …). */
    blockedAgent: bool,
    /** The user agent matches one of the configured allowed patterns. */
    allowedAgent: bool)

  datatype Config = Config(
    maxPerMinute: int,
    allowedReferrers: seq<string>,
    /** Whether allowed user-agent patterns are configured. */
    agentPatterns: bool,
    allowedIps: Option<seq<string>>)

  /** The first entry of `X-Forwarded-For`, when the header is present. */
  function ForwardedFirst(req: Request): Option<string> {
    if req.forwardedFor.Some? then Some(BeforeFirst(req.forwardedFor.value, ',')) else None
  }

  /** `getClientIP`: the first `X-Forwarded-For` entry, else `X-Real-IP`, else the socket's
      address, else `unknown`; empty values are skipped. */
  function ClientIp(req: Request): (ip: string)
    ensures ip != ""
    ensures Truthy(ForwardedFirst(req)) ==> ip == ForwardedFirst(req).value
    ensures !Truthy(ForwardedFirst(req)) && Truthy(req.realIp) ==> ip == req.realIp.value
    ensures !Truthy(ForwardedFirst(req)) && !Truthy(req.realIp) && Truthy(req.remoteAddress) ==> ip == req.remoteAddress.value
    ensures !Truthy(ForwardedFirst(req)) && !Truthy(req.realIp) && !Truthy(req.remoteAddress) ==> ip == "unknown"
  {
    OrElse(ForwardedFirst(req), OrElse(req.realIp, OrElse(req.remoteAddress, Some("unknown")))).value
  }

  /** `getClientIdentifier`: the client's IP and its user agent (`unknown` when missing or
      empty), joined by a dash. */
  function ClientId(req: Request): (id: string)
    ensures id == ClientIp(req) + "-" + (if Truthy(req.userAgent) then req.userAgent.value else "unknown")
    ensures StartsWith(id, ClientIp(req) + "-")
  {
    ClientIp(req) + "-" + OrElse(req.userAgent, Some("unknown")).value
  }

  /** `validateIP`: everyone passes without an allow-list; otherwise only listed IPs. */
  function ValidateIp(cfg: Config, req: Request): (ok: bool)
    ensures ok <==> cfg.allowedIps.None? || |cfg.allowedIps.value| == 0 || ClientIp(req) in cfg.allowedIps.value
  {
    if cfg.allowedIps.None? || |cfg.allowedIps.value| == 0 then true
    else ClientIp(req) in cfg.allowedIps.value
  }

  function BearerPrefix(): string { "Bearer " }

  /** `extractToken`: the text after `Bearer ` in the Authorization header, else a
      non-empty `token` query parameter, else none. */
  function ExtractToken(req: Request): (r: Option<string>)
    ensures Truthy(req.authorization) && StartsWith(req.authorization.value, BearerPrefix()) ==>
              r == Some(req.authorization.value[|BearerPrefix()|..])
    ensures !(Truthy(req.authorization) && StartsWith(req.authorization.value, BearerPrefix())) ==>
              (r.Some? <==> Truthy(req.queryToken)) && (r.Some? ==> r == req.queryToken)
  {
    if Truthy(req.authorization) && StartsWith(req.authorization.value, BearerPrefix()) then
      Some(req.authorization.value[|BearerPrefix()|..])
    else if Truthy(req.queryToken) then req.queryToken
    else None
  }

  /** A bearer header carries its token through: the header wins over any query token. */
  lemma ExtractTokenBearerRoundTrip(req: Request, token: string)
    requires req.authorization == Some(BearerPrefix() + token)
    ensures ExtractToken(req) == Some(token)
  {
    assert (BearerPrefix() + token)[..|BearerPrefix()|] == BearerPrefix();
    assert (BearerPrefix() + token)[|BearerPrefix()|..] == token;
  }

  /** Some allowed referrer is a prefix or a substring of `referrer`. */
  predicate AnyReferrerMatches(referrer: string, allowed: seq<string>)
    decreases |allowed|
  {
    |allowed| > 0 && (StartsWith(referrer, allowed[0]) || Contains(referrer, allowed[0]) || AnyReferrerMatches(referrer, allowed[1..]))
  }

  /** The prefix test adds nothing to the substring test: a referrer matches exactly when
      it contains some allowed entry. */
  lemma {:induction false} AnyReferrerMatchesIff(referrer: string, allowed: seq<string>)
    ensures AnyReferrerMatches(referrer, allowed) <==> exists i :: 0 <= i < |allowed| && Contains(referrer, allowed[i])
    decreases |allowed|
  {
    if |allowed| > 0 {
      AnyReferrerMatchesIff(referrer, allowed[1..]);
      if StartsWith(referrer, allowed[0]) {
        StartsWithContains(referrer, allowed[0]);
      }
      if exists i :: 0 <= i < |allowed| && Contains(referrer, allowed[i]) {
        var i :| 0 <= i < |allowed| && Contains(referrer, allowed[i]);
        if i > 0 {
          assert allowed[1..][i - 1] == allowed[i];
        }
      }
    }
  }

  /** `validateReferrer`. Without `Referer`/`Origin`: a browser passes and anything else is
      refused when referrers are configured, and everything passes when none are. With
      one: it must match an allowed referrer. */
  function ValidateReferrer(cfg: Config, req: Request): (ok: bool)
    ensures !Truthy(OrElse(req.referer, req.origin)) ==>
              (ok <==> req.browserAgent || |cfg.allowedReferrers| == 0)
    ensures Truthy(OrElse(req.referer, req.origin)) ==>
              (ok <==> AnyReferrerMatches(OrElse(req.referer, req.origin).value, cfg.allowedReferrers))
  {
    var referrer := OrElse(req.referer, req.origin);
    if !Truthy(referrer) then
      if req.browserAgent && |cfg.allowedReferrers| > 0 then true
      else if |cfg.allowedReferrers| > 0 then false
      else true
    else AnyReferrerMatches(referrer.value, cfg.allowedReferrers)
  }

  /** `validateUserAgent`: not blocked, and matching an allowed pattern when some are
      configured. */
  function ValidateUserAgent(cfg: Config, req: Request): (ok: bool)
    ensures ok ==> !req.blockedAgent
    ensures ok <==> !req.blockedAgent && (!cfg.agentPatterns || req.allowedAgent)
  {
    if req.blockedAgent then false
    else if cfg.agentPatterns && !req.allowedAgent then false
    else true
  }

  // ---------------------------------------------------------------------------
  // Session tokens and the middleware
  // ---------------------------------------------------------------------------

  /** What a verified token carries. */
  datatype Claims = Claims(sessionId: string, fingerprint: string)

  datatype Validation = Valid(sessionId: string) | Invalid(reason: string)

  /** `validateSessionToken`: the token must be present, verify, carry the request's
      fingerprint and name a live session, whose last access is then set to `now`.
      `verify` is the JWT check. */
  function ValidateSessionToken(sessions: map<string, Session>, req: Request, now: int, verify: string -> Option<Claims>): (r: (map<string, Session>, Validation))
    ensures r.1.Valid? ==>
              && ExtractToken(req).Some? && ExtractToken(req).value != ""
              && verify(ExtractToken(req).value) == Some(Claims(r.1.sessionId, req.fingerprint))
              && r.1.sessionId in sessions
              && r.0 == sessions[r.1.sessionId := sessions[r.1.sessionId].(lastAccess := now)]
    ensures r.1.Invalid? ==> r.0 == sessions
  {
    match ExtractToken(req)
    case None => (sessions, Invalid("No token provided"))
    case Some(token) =>
      if token == "" then (sessions, Invalid("No token provided"))
      else match verify(token)
      case None => (sessions, Invalid("Invalid token"))
      case Some(claims) =>
        if claims.fingerprint != req.fingerprint then (sessions, Invalid("Fingerprint mismatch"))
        else if claims.sessionId !in sessions then (sessions, Invalid("Session not found"))
        else (sessions[claims.sessionId := sessions[claims.sessionId].(lastAccess := now)], Valid(claims.sessionId))
  }

  /** The converse: a non-empty token that verifies with the request's fingerprint and
      names a known session is accepted, and only that session's last access changes. */
  lemma ValidateSessionTokenAccepts(sessions: map<string, Session>, req: Request, now: int, verify: string -> Option<Claims>, sid: string)
    requires ExtractToken(req).Some? && ExtractToken(req).value != ""
    requires verify(ExtractToken(req).value) == Some(Claims(sid, req.fingerprint))
    requires sid in sessions
    ensures ValidateSessionToken(sessions, req, now, verify) == (sessions[sid := sessions[sid].(lastAccess := now)], Valid(sid))
  {
  }

  /** An empty bearer token is refused before it is verified, whatever `verify` says. */
  lemma EmptyBearerRefused(sessions: map<string, Session>, req: Request, now: int, verify: string -> Option<Claims>)
    requires req.authorization == Some(BearerPrefix())
    ensures ValidateSessionToken(sessions, req, now, verify) == (sessions, Invalid("No token provided"))
  {
    assert StartsWith(req.authorization.value, BearerPrefix());
    assert req.authorization.value[|BearerPrefix()|..] == "";
  }

  datatype Outcome =
    /** `next()`, with the session id attached on key requests. */
    | Next(sessionId: Option<string>)
    | TooManyRequests(retryAfter: int)
    | Forbidden(reason: string)
    | Unauthorized(reason: string)

  /** The middleware's stores. */
  datatype Guard = Guard(rate: map<string, Window>, sessions: map<string, Session>)

  /** Whether the middleware looks at a path at all: key, HLS and auth paths, except a
      playlist that is not a key request. */
  predicate Gated(path: string) {
    (Contains(path, "/key") || Contains(path, "/hls/") || Contains(path, "/auth/"))
    && !(Contains(path, "playlist.m3u8") && !Contains(path, "/key"))
  }

  /** `createSecurityMiddleware`'s handler. */
  function Middleware(cfg: Config, g: Guard, req: Request, now: int, verify: string -> Option<Claims>): (r: (Guard, Outcome))
    ensures !Gated(req.path) ==> r == (g, Next(None))
  {
    var p := req.path;
    if !Contains(p, "/key") && !Contains(p, "/hls/") && !Contains(p, "/auth/") then (g, Next(None))
    else if Contains(p, "playlist.m3u8") && !Contains(p, "/key") then (g, Next(None))
    else
      var (rate, limit) := CheckRateLimit(g.rate, ClientId(req), now, cfg.maxPerMinute);
      var g1 := g.(rate := rate);
      if Contains(p, "/auth/session") then
        if limit.Denied? then (g1, TooManyRequests(limit.retryAfter)) else (g1, Next(None))
      else if limit.Denied? then (g1, TooManyRequests(limit.retryAfter))
      else if !ValidateIp(cfg, req) then (g1, Forbidden("Access denied: IP not authorized"))
      else
        var hasAuthToken := req.authorization.Some? && StartsWith(req.authorization.value, BearerPrefix());
        var isHls := Contains(p, "/hls/") || Contains(p, "/key");
        if isHls && !hasAuthToken && !req.browserAgent then
          (g1, Forbidden("Access denied: HLS requests require browser or auth token"))
        else if !isHls && !ValidateReferrer(cfg, req) then (g1, Forbidden("Access denied: Invalid referrer"))
        else if !ValidateUserAgent(cfg, req) then (g1, Forbidden("Access denied: Invalid client"))
        else if Contains(p, "/key") then
          var (sessions, v) := ValidateSessionToken(g1.sessions, req, now, verify);
          match v
          case Invalid(reason) => (g1, Unauthorized(reason))
          case Valid(sid) => (g1.(sessions := sessions), Next(Some(sid)))
        else (g1, Next(None))
  }

  /** A key request gets through only with a verified token of the request's own
      fingerprint naming a live session, which it refreshes; and it passed the rate limit,
      the IP list and the user-agent check on the way. */
  lemma KeyRequiresSession(cfg: Config, g: Guard, req: Request, now: int, verify: string -> Option<Claims>)
    requires Contains(req.path, "/key")
    ensures var r := Middleware(cfg, g, req, now, verify);
            r.1.Next? && !Contains(req.path, "/auth/session") ==>
              && r.1.sessionId.Some?
              && ExtractToken(req).Some? && ExtractToken(req).value != ""
              && verify(ExtractToken(req).value) == Some(Claims(r.1.sessionId.value, req.fingerprint))
              && r.1.sessionId.value in g.sessions
              && r.0.sessions[r.1.sessionId.value].lastAccess == now
              && ValidateIp(cfg, req) && ValidateUserAgent(cfg, req)
              && CheckRateLimit(g.rate, ClientId(req), now, cfg.maxPerMinute).1 == Allowed
  {
  }

  /** A gated session request skips every check but the rate limit: it gets through
      exactly when the rate limit allows it, with no session id, and never touches the
      sessions, even when its path also names `/key`. */
  lemma AuthSessionRateLimitedOnly(cfg: Config, g: Guard, req: Request, now: int, verify: string -> Option<Claims>)
    requires Gated(req.path) && Contains(req.path, "/auth/session")
    ensures var r := Middleware(cfg, g, req, now, verify);
            && r.0.sessions == g.sessions
            && (r.1.Next? <==> CheckRateLimit(g.rate, ClientId(req), now, cfg.maxPerMinute).1 == Allowed)
            && (r.1.Next? ==> r.1.sessionId.None?)
  {
  }

  /** Every gated request is counted against its client and nobody else; only a key
      request that gets through touches the sessions. */
  lemma GatedRequestCounted(cfg: Config, g: Guard, req: Request, now: int, verify: string -> Option<Claims>)
    requires Gated(req.path)
    ensures var r := Middleware(cfg, g, req, now, verify);
            && r.0.rate == g.rate[ClientId(req) := NextWindow(g.rate, ClientId(req), now)]
            && (r.0.sessions != g.sessions ==> Contains(req.path, "/key") && r.1.Next?)
  {
  }

  /** A playlist request that is not a key request always gets through untouched. */
  lemma PlaylistPassesThrough(cfg: Config, g: Guard, req: Request, now: int, verify: string -> Option<Claims>)
    requires Contains(req.path, "playlist.m3u8") && !Contains(req.path, "/key")
    ensures Middleware(cfg, g, req, now, verify) == (g, Next(None))
  {
  }
}
