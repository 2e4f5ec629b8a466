/** The Anthropic agent as the source writes it: fields updated step by step. */
module AnthropicAgentClass {
  import opened Common
  import opened P = AnthropicPoll

  class AnthropicAgent {
    const cfg: Config
    var clientToken: string
    var lastToken: string

    // Auth failure rate limiting
    var authFailCount: nat
    var authPaused: bool
    var lastFailedToken: string

    // OAuth rate limit backoff
    var rateLimitFailCount: nat
    var rateLimitPaused: bool
    var rateLimitResumeAt: Option<int>

    // Hybrid polling
    var pollCycleCount: nat

    ghost var log: seq<Event>

    ghost function State(): Agent
      reads this
    {
      Agent(clientToken, lastToken, authFailCount, authPaused, lastFailedToken,
            rateLimitFailCount, rateLimitPaused, rateLimitResumeAt, pollCycleCount, log)
    }

    constructor (cfg: Config, clientToken: string)
      ensures this.cfg == cfg && State() == Initial(clientToken)
    {
      this.cfg := cfg;
      this.clientToken, lastToken := clientToken, "";
      authFailCount, authPaused, lastFailedToken := 0, false, "";
      rateLimitFailCount, rateLimitPaused, rateLimitResumeAt := 0, false, None;
      pollCycleCount, log := 0, [];
    }

    /** client.SetToken and the bookkeeping that goes with it. */
    method UseToken(token: string, origin: Origin)
      modifies this
      ensures State() == old(State()).SetToken(token, origin)
    {
      clientToken := token;
      lastToken := token;
      log := log + [Install(token, origin)];
    }

    method BackOff(now: int, retryAfter: nat)
      modifies this
      ensures State() == OnRateLimited(old(State()), retryAfter, now)
    {
      rateLimitFailCount := rateLimitFailCount + 1;
      var backoff: int := retryAfter;
      if backoff > 0 {
        rateLimitPaused := true;
        rateLimitResumeAt := Some(now + backoff);
      } else {
        backoff := RateLimitBackoff(rateLimitFailCount);
        rateLimitPaused := true;
        rateLimitResumeAt := Some(now + backoff);
      }
      log := log + [Backoff(now, now + backoff, retryAfter > 0)];
    }

    method ProactiveRefresh(creds: Creds, x: Exchange)
      modifies this
      ensures State() == Proactive(old(State()), x, creds)
    {
      hide ProactiveSettle;
      log := log + [ClaudeCheck(x.claudeRunning)];
      if x.claudeRunning {
        return;
      }
      if rateLimitPaused && rateLimitResumeAt.Some? && x.now < rateLimitResumeAt.value {
        return;
      }
      log := log + [Refresh(creds.refresh, x.now, x.reply, x.repliedAt)];
      SettleProactive(x);
    }

    /** Acts on the answer to a proactive exchange. */
    method SettleProactive(x: Exchange)
      modifies this
      ensures State() == ProactiveSettle(old(State()), x)
    {
      match x.reply {
        case RateLimited(retryAfter) =>
          BackOff(x.repliedAt, retryAfter);
        case InvalidGrant =>
          authPaused := true;
          authFailCount := MAX_AUTH_FAILURES;
          lastFailedToken := lastToken;
        case RefreshFailed(_) =>
        case Granted(access, refresh) =>
          rateLimitFailCount := 0;
          rateLimitPaused := false;
          rateLimitResumeAt := None;
          log := log + [Save(access, refresh, x.saved)];
          if x.saved {
            UseToken(access, Grant);
            if authPaused {
              authPaused := false;
              authFailCount := 0;
              lastFailedToken := "";
            }
          }
      }
    }

    /** Reads a rotated token from disk before the fetch. */
    method AdoptDiskToken(newToken: string)
      modifies this
      ensures State() == RereadPhase(cfg, old(State()), newToken)
    {
      if cfg.tokenRefresh && newToken != "" && newToken != lastToken {
        UseToken(newToken, DiskChange);
        if authPaused && newToken != lastFailedToken {
          authPaused := false;
          authFailCount := 0;
          lastFailedToken := "";
        }
        if rateLimitPaused {
          rateLimitPaused := false;
          rateLimitFailCount := 0;
          rateLimitResumeAt := None;
        }
      }
    }

    /** The backoff is over: one more try, with one failure forgiven. */
    method ResumeOnce()
      requires rateLimitPaused
      modifies this
      ensures State() == ExpireBackoff(old(State()))
    {
      if rateLimitFailCount > 0 {
        rateLimitFailCount := rateLimitFailCount - 1;
      }
      rateLimitPaused := false;
    }

    /** The 429 branch. The result says whether there is a response to process. */
    method BypassRateLimit(x: Exchange, usage: UsageReply) returns (responded: bool)
      modifies this
      ensures BypassPhase(cfg, old(State()), x, usage) == if responded then Respond(State()) else Done(State())
    {
      hide BypassSettle;
      if rateLimitPaused {
        if rateLimitResumeAt.Some? && x.now < rateLimitResumeAt.value {
          return false;
        }
        ResumeOnce();
      }
      hide ExpireBackoff;
      log := log + [ClaudeCheck(x.claudeRunning)];
      if x.claudeRunning || !cfg.credsRefresh {
        return false;
      }
      log := log + [ReadCreds(x.creds)];
      if x.creds.None? || x.creds.value.refresh == "" {
        return false;
      }
      log := log + [Refresh(x.creds.value.refresh, x.now, x.reply, x.repliedAt)];
      responded := SettleBypass(x, usage);
    }

    /** Acts on the answer to the exchange of the 429 branch. */
    method SettleBypass(x: Exchange, usage: UsageReply) returns (responded: bool)
      modifies this
      ensures BypassSettle(old(State()), x, usage) == if responded then Respond(State()) else Done(State())
    {
      match x.reply {
        case RateLimited(retryAfter) =>
          BackOff(x.repliedAt, retryAfter);
          return false;
        case InvalidGrant =>
          authPaused := true;
          authFailCount := MAX_AUTH_FAILURES;
          lastFailedToken := lastToken;
          return false;
        case RefreshFailed(_) =>
          rateLimitFailCount := rateLimitFailCount + 1;
          if rateLimitFailCount >= MAX_RATE_LIMIT_FAILURES {
            var backoff := RateLimitBackoff(rateLimitFailCount);
            rateLimitPaused := true;
            rateLimitResumeAt := Some(x.repliedAt + backoff);
            log := log + [Backoff(x.repliedAt, x.repliedAt + backoff, false)];
          }
          return false;
        case Granted(access, refresh) =>
          rateLimitFailCount := 0;
          rateLimitPaused := false;
          rateLimitResumeAt := None;
          log := log + [Save(access, refresh, x.saved)];
          UseToken(access, Grant);
          log := log + [Fetch(access, Bypass, usage)];
          return usage == UsageOk;
      }
    }

    /** The 401/403 branch. The result says whether there is a response to process. */
    method RetryAuth(retryToken: string, usage: UsageReply) returns (responded: bool)
      modifies this
      ensures AuthRetryPhase(cfg, old(State()), retryToken, usage) == if responded then Respond(State()) else Done(State())
    {
      if !cfg.tokenRefresh {
        return false;
      }
      lastToken := "";
      if retryToken == "" {
        return false;
      }
      UseToken(retryToken, Reread);
      log := log + [Fetch(clientToken, Retry, usage)];
      if usage == UsageOk {
        authFailCount := 0;
        return true;
      }
      if usage == UsageUnauthorized {
        authFailCount := authFailCount + 1;
        if authFailCount >= MAX_AUTH_FAILURES {
          authPaused := true;
          lastFailedToken := retryToken;
        }
      }
      return false;
    }

    /** Fetches the quotas unless auth is paused. The result says whether there is a response to process. */
    method FetchQuotas(env: PollEnv) returns (responded: bool)
      modifies this
      ensures FetchPhase(cfg, old(State()), env) == if responded then Respond(State()) else Done(State())
    {
      hide BypassPhase, AuthRetryPhase;
      if authPaused {
        return false;
      }
      log := log + [Fetch(clientToken, Direct, env.usage)];
      match env.usage {
        case UsageOk =>
          authFailCount := 0;
          if rateLimitFailCount > 0 {
            rateLimitFailCount := rateLimitFailCount - 1;
          }
          responded := true;
        case UsageRateLimited =>
          responded := BypassRateLimit(env.bypass, env.bypassUsage);
        case UsageUnauthorized =>
          responded := RetryAuth(env.retryToken, env.retryUsage);
        case _ =>
          responded := false;
      }
    }

    method PollApi(env: PollEnv)
      modifies this
      ensures State() == ApiPoll(cfg, old(State()), env)
    {
      hide Proactive, RereadPhase, FetchPhase;
      if cfg.credsRefresh {
        log := log + [ReadCreds(env.proactive.creds)];
        if env.proactive.creds.Some? {
          var creds := env.proactive.creds.value;
          if creds.ExpiringSoon() && creds.refresh != "" {
            ProactiveRefresh(creds, env.proactive);
          }
        }
      }
      AdoptDiskToken(env.diskToken);
      var responded := FetchQuotas(env);
      if responded {
        log := log + [Store(FromApi, env.inserted)];
      }
    }

    method Poll(env: PollEnv)
      modifies this
      ensures State() == P.Poll(cfg, old(State()), env)
    {
      hide ApiPoll;
      if !env.enabled {
        return;
      }
      if cfg.statusline && env.statusline.Usable? {
        log := log + [Store(FromStatusline, env.statusline.inserted)];
        if !env.statusline.inserted {
          return;
        }
        pollCycleCount := pollCycleCount + 1;
        if rateLimitFailCount > 0 {
          rateLimitFailCount := rateLimitFailCount - 1;
        }
        if cfg.apiPollCycleInterval > 0 && pollCycleCount % cfg.apiPollCycleInterval == 0 {
          log := log + [Hybrid];
        } else {
          return;
        }
      }
      PollApi(env);
    }
  }
}
