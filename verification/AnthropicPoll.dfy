/**
  The Anthropic polling step as a function of the agent's fields and of everything the outside
  world answers during one poll. Times and durations are integer nanoseconds; the zero time.Time is None.

  The agent's state carries a log of its interactions. The log only grows, so statements about
  whole runs are statements about the log of the state a run ends in.
 */
module AnthropicPoll {
  import opened Common

  const MINUTE: int := 60_000_000_000
  const MAX_AUTH_FAILURES: nat := 3
  const MAX_RATE_LIMIT_FAILURES: nat := 5
  const BASE_BACKOFF: int := 5 * MINUTE
  const MAX_BACKOFF: int := 360 * MINUTE
  const REFRESH_THRESHOLD: int := 10 * MINUTE

  // A token response with an empty access token is rejected by the OAuth client.
  type AccessToken = s: string | s != "" witness "a"

  /** Credentials as read from disk; expiresIn is None when the expiry is unknown. */
  datatype Creds = Creds(access: string, refresh: string, expiresIn: Option<int>) {
    predicate ExpiringSoon() {
      expiresIn.Some? && expiresIn.value < REFRESH_THRESHOLD
    }
  }

  /**
    How the OAuth endpoint answers. retryAfter is 0 when the server sends no usable Retry-After.
    A failed request may have been granted with an answer that got lost: lost is then the new refresh token.
   */
  datatype RefreshReply =
    | Granted(access: AccessToken, refresh: string)
    | RateLimited(retryAfter: nat)
    | InvalidGrant
    | RefreshFailed(lost: Option<string>)

  /** How the usage endpoint answers. UsageCancelled: an error while the context is done. */
  datatype UsageReply = UsageOk | UsageRateLimited | UsageUnauthorized | UsageFailed | UsageCancelled

  datatype Statusline = Unusable | Usable(inserted: bool)

  /** What the world answers to one attempt at exchanging a refresh token. */
  datatype Exchange = Exchange(creds: Option<Creds>, claudeRunning: bool, now: int,
                               reply: RefreshReply, repliedAt: int, saved: bool)

  /** Everything one poll may ask of the world. */
  datatype PollEnv = PollEnv(enabled: bool, statusline: Statusline, proactive: Exchange, diskToken: string,
                             usage: UsageReply, bypass: Exchange, bypassUsage: UsageReply,
                             retryToken: string, retryUsage: UsageReply, inserted: bool)

  datatype Config = Config(tokenRefresh: bool, credsRefresh: bool, statusline: bool, apiPollCycleInterval: int)

  /** Why the client was given a token: the disk held another one, an exchange granted it, or a forced re-read. */
  datatype Origin = DiskChange | Grant | Reread
  datatype FetchKind = Direct | Bypass | Retry
  datatype Source = FromStatusline | FromApi

  datatype Event =
    | ReadCreds(creds: Option<Creds>)
    | ClaudeCheck(running: bool)
    | Refresh(token: string, sentAt: int, reply: RefreshReply, repliedAt: int)
    | Backoff(setAt: int, until: int, serverGiven: bool)
    | Save(access: string, refresh: string, ok: bool)
    | Install(token: string, origin: Origin)
    | Fetch(bearer: string, kind: FetchKind, usage: UsageReply)
    | Store(source: Source, ok: bool)
    | Hybrid
    | ForeignWrite(access: string, refresh: string)

  datatype Agent = Agent(clientToken: string, lastToken: string,
                         authFailCount: nat, authPaused: bool, lastFailedToken: string,
                         rateLimitFailCount: nat, rateLimitPaused: bool, resumeAt: Option<int>,
                         pollCycleCount: nat, log: seq<Event>)
  {
    function Emit(e: Event): Agent {
      this.(log := log + [e])
    }

    predicate InBackoff(now: int) {
      rateLimitPaused && resumeAt.Some? && now < resumeAt.value
    }

    function SetToken(token: string, origin: Origin): Agent {
      this.(clientToken := token, lastToken := token).Emit(Install(token, origin))
    }

    function LiftAuthPause(): Agent {
      this.(authPaused := false, authFailCount := 0, lastFailedToken := "")
    }

    function LiftBackoff(): Agent {
      this.(rateLimitPaused := false, rateLimitFailCount := 0, resumeAt := None)
    }

    function BackOff(now: int, d: int, serverGiven: bool): Agent {
      this.(rateLimitPaused := true, resumeAt := Some(now + d)).Emit(Backoff(now, now + d, serverGiven))
    }
  }

  function Initial(clientToken: string): Agent {
    Agent(clientToken, "", 0, false, "", 0, false, None, 0, [])
  }

  function Pow2(n: nat): nat {
    if n == 0 then 1 else 2 * Pow2(n - 1)
  }

  /** min(5 min * 2^(failCount-1), 6 h), computed with the shift capped at 10. */
  function RateLimitBackoff(failCount: int): int {
    if failCount <= 0 then BASE_BACKOFF
    else
      var shift: nat := if failCount - 1 > 10 then 10 else failCount - 1;
      var backoff := BASE_BACKOFF * Pow2(shift);
      if backoff > MAX_BACKOFF then MAX_BACKOFF else backoff
  }

  /** A 429 from the OAuth endpoint: the server's Retry-After if given, else exponential backoff. */
  function OnRateLimited(s: Agent, retryAfter: nat, now: int): Agent {
    var s := s.(rateLimitFailCount := s.rateLimitFailCount + 1);
    if retryAfter > 0 then s.BackOff(now, retryAfter, true)
    else s.BackOff(now, RateLimitBackoff(s.rateLimitFailCount), false)
  }

  function OnInvalidGrant(s: Agent): Agent {
    s.(authPaused := true, authFailCount := MAX_AUTH_FAILURES, lastFailedToken := s.lastToken)
  }

  /** The answer to a proactive exchange. A transient failure changes nothing. */
  function ProactiveSettle(s: Agent, x: Exchange): Agent {
    match x.reply
    case RateLimited(d) => OnRateLimited(s, d, x.repliedAt)
    case InvalidGrant => OnInvalidGrant(s)
    case RefreshFailed(_) => s
    case Granted(access, refresh) =>
      var s := s.LiftBackoff().Emit(Save(access, refresh, x.saved));
      if !x.saved then s
      else if s.authPaused then s.SetToken(access, Grant).LiftAuthPause()
      else s.SetToken(access, Grant)
  }

  /** proactiveRefresh, called with the credentials just read. */
  function Proactive(s: Agent, x: Exchange, creds: Creds): Agent {
    var s := s.Emit(ClaudeCheck(x.claudeRunning));
    if x.claudeRunning || s.InBackoff(x.now) then s
    else ProactiveSettle(s.Emit(Refresh(creds.refresh, x.now, x.reply, x.repliedAt)), x)
  }

  /** Proactive refresh phase of a poll. */
  function ProactivePhase(cfg: Config, s: Agent, x: Exchange): Agent {
    if !cfg.credsRefresh then s
    else
      var s := s.Emit(ReadCreds(x.creds));
      if x.creds.Some? && x.creds.value.ExpiringSoon() && x.creds.value.refresh != "" then Proactive(s, x, x.creds.value)
      else s
  }

  /** Adopting a rotated token from disk lifts the auth pause and the backoff. */
  function RereadPhase(cfg: Config, s: Agent, diskToken: string): Agent {
    if !cfg.tokenRefresh || diskToken == "" || diskToken == s.lastToken then s
    else
      var s := s.SetToken(diskToken, DiskChange);
      var s := if s.authPaused && diskToken != s.lastFailedToken then s.LiftAuthPause() else s;
      if s.rateLimitPaused then s.LiftBackoff() else s
  }

  /** The outcome of a phase that may end the poll. */
  datatype Outcome = Done(s: Agent) | Respond(s: Agent)

  /** Past the backoff gate of the 429 branch: an expired backoff decays the failure count. */
  function ExpireBackoff(s: Agent): Agent {
    if s.rateLimitPaused
    then s.(rateLimitPaused := false, rateLimitFailCount := if s.rateLimitFailCount > 0 then s.rateLimitFailCount - 1 else 0)
    else s
  }

  function OnRefreshFailed(s: Agent, now: int): Agent {
    var s := s.(rateLimitFailCount := s.rateLimitFailCount + 1);
    if s.rateLimitFailCount >= MAX_RATE_LIMIT_FAILURES
    then s.BackOff(now, RateLimitBackoff(s.rateLimitFailCount), false)
    else s
  }

  /** The exchange of the 429 branch, after the request was sent. */
  function BypassSettle(s: Agent, x: Exchange, usage: UsageReply): Outcome {
    match x.reply
    case RateLimited(d) => Done(OnRateLimited(s, d, x.repliedAt))
    case InvalidGrant => Done(OnInvalidGrant(s))
    case RefreshFailed(_) => Done(OnRefreshFailed(s, x.repliedAt))
    case Granted(access, refresh) =>
      var s := s.LiftBackoff().Emit(Save(access, refresh, x.saved)).SetToken(access, Grant)
                .Emit(Fetch(access, Bypass, usage));
      if usage == UsageOk then Respond(s) else Done(s)
  }

  /** After a usage 429: exchange the refresh token to get a fresh rate limit window, and fetch again. */
  function BypassPhase(cfg: Config, s: Agent, x: Exchange, usage: UsageReply): Outcome {
    if s.InBackoff(x.now) then Done(s)
    else
      var s := ExpireBackoff(s).Emit(ClaudeCheck(x.claudeRunning));
      if x.claudeRunning || !cfg.credsRefresh then Done(s)
      else
        var s := s.Emit(ReadCreds(x.creds));
        if x.creds.None? || x.creds.value.refresh == "" then Done(s)
        else BypassSettle(s.Emit(Refresh(x.creds.value.refresh, x.now, x.reply, x.repliedAt)), x, usage)
  }

  /** After a usage 401/403: force a re-read of the token and fetch once more. */
  function AuthRetryPhase(cfg: Config, s: Agent, retryToken: string, usage: UsageReply): Outcome {
    if !cfg.tokenRefresh then Done(s)
    else
      var s := s.(lastToken := "");
      if retryToken == "" then Done(s)
      else
        var s := s.SetToken(retryToken, Reread);
        var s := s.Emit(Fetch(s.clientToken, Retry, usage));
        match usage
        case UsageOk => Respond(s.(authFailCount := 0))
        case UsageUnauthorized =>
          var s := s.(authFailCount := s.authFailCount + 1);
          Done(if s.authFailCount >= MAX_AUTH_FAILURES
               then s.(authPaused := true, lastFailedToken := retryToken) else s)
        case _ => Done(s)
  }

  /** The API half of a poll. */
  function FetchPhase(cfg: Config, s: Agent, env: PollEnv): Outcome {
    if s.authPaused then Done(s)
    else
      var s := s.Emit(Fetch(s.clientToken, Direct, env.usage));
      match env.usage
      case UsageOk =>
        Respond(s.(authFailCount := 0,
                   rateLimitFailCount := if s.rateLimitFailCount > 0 then s.rateLimitFailCount - 1 else 0))
      case UsageRateLimited => BypassPhase(cfg, s, env.bypass, env.bypassUsage)
      case UsageUnauthorized => AuthRetryPhase(cfg, s, env.retryToken, env.retryUsage)
      case _ => Done(s)
  }

  function ApiPoll(cfg: Config, s: Agent, env: PollEnv): Agent {
    var s := ProactivePhase(cfg, s, env.proactive);
    var s := RereadPhase(cfg, s, env.diskToken);
    match FetchPhase(cfg, s, env)
    case Done(s) => s
    case Respond(s) => s.Emit(Store(FromApi, env.inserted))
  }

  /** The statusline shortcut. Respond means that the poll goes on to the API. */
  function StatuslinePhase(cfg: Config, s: Agent, line: Statusline): Outcome {
    if !cfg.statusline || line.Unusable? then Respond(s)
    else
      var s := s.Emit(Store(FromStatusline, line.inserted));
      if !line.inserted then Done(s)
      else
        var s := s.(pollCycleCount := s.pollCycleCount + 1,
                    rateLimitFailCount := if s.rateLimitFailCount > 0 then s.rateLimitFailCount - 1 else 0);
        if cfg.apiPollCycleInterval > 0 && s.pollCycleCount % cfg.apiPollCycleInterval == 0
        then Respond(s.Emit(Hybrid)) else Done(s)
  }

  function Poll(cfg: Config, s: Agent, env: PollEnv): Agent {
    if !env.enabled then s
    else
      match StatuslinePhase(cfg, s, env.statusline)
      case Done(s) => s
      case Respond(s) => ApiPoll(cfg, s, env)
  }

  /** One step of a run: a poll, or another process replacing the credentials on disk between polls. */
  datatype Input = Tick(env: PollEnv) | Foreign(access: string, refresh: string)

  function Step(cfg: Config, s: Agent, i: Input): Agent {
    match i
    case Tick(env) => Poll(cfg, s, env)
    case Foreign(access, refresh) => s.Emit(ForeignWrite(access, refresh))
  }

  function Run(cfg: Config, s: Agent, inputs: seq<Input>): Agent
    decreases |inputs|
  {
    if inputs == [] then s else Run(cfg, Step(cfg, s, inputs[0]), inputs[1..])
  }
}
