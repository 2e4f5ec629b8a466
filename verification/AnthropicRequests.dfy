/**
  When a poll sends which request: exactly, from the fields it starts with and what the world answers.
  The requests are counted in the log, which does not say by which path the poll came to them.
 */
module AnthropicRequests {
  import opened Common
  import opened AnthropicPoll
  import opened AnthropicState
  import opened AnthropicReplay

  /** An exchange before the first fetch of a poll is proactive; after it, it bypasses a rate limit. */
  datatype Tally = Tally(statusline: nat, proactive: nat, adopted: nat, direct: nat, bypassing: nat, viaBypass: nat,
                         retried: nat, stored: nat)

  function Add(t: Tally, e: Event): Tally {
    match e
    case Store(FromStatusline, _) => t.(statusline := t.statusline + 1)
    case Store(FromApi, _) => t.(stored := t.stored + 1)
    case Refresh(_, _, _, _) => if t.direct == 0 then t.(proactive := t.proactive + 1) else t.(bypassing := t.bypassing + 1)
    case Install(_, DiskChange) => t.(adopted := t.adopted + 1)
    case Fetch(_, Direct, _) => t.(direct := t.direct + 1)
    case Fetch(_, Bypass, _) => t.(viaBypass := t.viaBypass + 1)
    case Fetch(_, Retry, _) => t.(retried := t.retried + 1)
    case _ => t
  }

  const NOTHING := Tally(0, 0, 0, 0, 0, 0, 0, 0)

  /** The tally of the events from number n on. */
  function TallyFrom(log: seq<Event>, n: nat): Tally {
    if |log| <= n then NOTHING else Add(TallyFrom(log[..|log| - 1], n), log[|log| - 1])
  }

  // ----- the conditions -----

  /** The poll goes on to the API: there is no usable statusline, or this is a hybrid cycle. */
  predicate Reaches(cfg: Config, s: Agent, env: PollEnv) {
    env.enabled
    && (!cfg.statusline || env.statusline.Unusable?
        || (env.statusline.inserted && cfg.apiPollCycleInterval > 0 && (s.pollCycleCount + 1) % cfg.apiPollCycleInterval == 0))
  }

  /** The credentials expire within 10 minutes, Claude Code does not run, and no backoff lasts. */
  predicate Exchanges(cfg: Config, s: Agent, env: PollEnv) {
    var x := env.proactive;
    && Reaches(cfg, s, env) && cfg.credsRefresh
    && x.creds.Some? && x.creds.value.refresh != ""
    && x.creds.value.expiresIn.Some? && x.creds.value.expiresIn.value < 600_000_000_000
    && !x.claudeRunning && !(s.rateLimitPaused && s.resumeAt.Some? && x.now < s.resumeAt.value)
  }

  function HeldToken(cfg: Config, s: Agent, env: PollEnv): string {
    if Exchanges(cfg, s, env) && env.proactive.reply.Granted? && env.proactive.saved then env.proactive.reply.access
    else s.lastToken
  }

  predicate Adopts(cfg: Config, s: Agent, env: PollEnv) {
    Reaches(cfg, s, env) && cfg.tokenRefresh && env.diskToken != "" && env.diskToken != HeldToken(cfg, s, env)
  }

  /** Whether polling is paused after the proactive exchange, if there was one. */
  predicate Paused(cfg: Config, s: Agent, env: PollEnv) {
    if !Exchanges(cfg, s, env) then s.authPaused
    else match env.proactive.reply
         case InvalidGrant => true
         case Granted(_, _) => s.authPaused && !env.proactive.saved
         case _ => s.authPaused
  }

  predicate Fetches(cfg: Config, s: Agent, env: PollEnv) {
    Reaches(cfg, s, env) && (!Paused(cfg, s, env) || Adopts(cfg, s, env))
  }

  /** The end of the backoff that lasts when the fetch is answered. */
  function Resume(cfg: Config, s: Agent, env: PollEnv): Option<int> {
    var n := if cfg.statusline && env.statusline.Usable? && s.rateLimitFailCount > 0 then s.rateLimitFailCount - 1
             else s.rateLimitFailCount;
    var kept := if s.rateLimitPaused then s.resumeAt else None;
    if Adopts(cfg, s, env) then None
    else if !Exchanges(cfg, s, env) then kept
    else match env.proactive.reply
         case RateLimited(d) => Some(env.proactive.repliedAt + if d > 0 then d else Exponential(n + 1))
         case Granted(_, _) => None
         case _ => kept
  }

  predicate Bypasses(cfg: Config, s: Agent, env: PollEnv) {
    var (x, resume) := (env.bypass, Resume(cfg, s, env));
    && Fetches(cfg, s, env) && env.usage == UsageRateLimited && (resume.Some? ==> resume.value <= x.now)
    && !x.claudeRunning && cfg.credsRefresh && x.creds.Some? && x.creds.value.refresh != ""
  }

  predicate Retries(cfg: Config, s: Agent, env: PollEnv) {
    Fetches(cfg, s, env) && env.usage == UsageUnauthorized && cfg.tokenRefresh && env.retryToken != ""
  }

  predicate Succeeds(cfg: Config, s: Agent, env: PollEnv) {
    || (Fetches(cfg, s, env) && env.usage == UsageOk)
    || (Bypasses(cfg, s, env) && env.bypass.reply.Granted? && env.bypassUsage == UsageOk)
    || (Retries(cfg, s, env) && env.retryUsage == UsageOk)
  }

  function One(b: bool): nat { if b then 1 else 0 }

  // ----- the phases -----

  lemma Snoc(log: seq<Event>, e: Event, n: nat)
    requires n <= |log|
    ensures TallyFrom(log + [e], n) == Add(TallyFrom(log, n), e)
  {
    assert (log + [e])[..|log|] == log;
  }

  /** From one state to the next by one event. */
  lemma Next(s: Agent, s': Agent, e: Event, n: nat)
    requires n <= |s.log| && s'.log == s.log + [e]
    ensures n <= |s'.log| && TallyFrom(s'.log, n) == Add(TallyFrom(s.log, n), e)
  {
    Snoc(s.log, e, n);
  }

  lemma StatuslineTally(cfg: Config, s: Agent, env: PollEnv)
    requires env.enabled
    ensures var o := StatuslinePhase(cfg, s, env.statusline);
            && |s.log| <= |o.s.log|
            && TallyFrom(o.s.log, |s.log|) == NOTHING.(statusline := One(cfg.statusline && env.statusline.Usable?))
            && (o.Respond? <==> Reaches(cfg, s, env))
            && o.s == s.(log := o.s.log, pollCycleCount := o.s.pollCycleCount, rateLimitFailCount := o.s.rateLimitFailCount)
            && (o.Respond? && cfg.statusline && env.statusline.Usable? ==>
                  o.s.rateLimitFailCount == if s.rateLimitFailCount > 0 then s.rateLimitFailCount - 1 else 0)
            && (!(cfg.statusline && env.statusline.Usable?) ==> o.s == s)
  {
    var n := |s.log|;
    if cfg.statusline && env.statusline.Usable? {
      var e := Store(FromStatusline, env.statusline.inserted);
      Snoc(s.log, e, n);
      Snoc(s.log + [e], Hybrid, n);
    }
    hide TallyFrom;
    assert TallyFrom(s.log, n) == NOTHING by { NothingYet(s.log); }
  }

  lemma NothingYet(log: seq<Event>)
    ensures TallyFrom(log, |log|) == NOTHING
  {
  }

  /** The proactive phase in closed form: whether it sends, and the fields that later decisions depend on. */
  lemma ProactiveTally(cfg: Config, s: Agent, x: Exchange, n: nat)
    requires n <= |s.log| && TallyFrom(s.log, n).direct == 0 && Invariant(s)
    ensures var sends := cfg.credsRefresh && x.creds.Some? && x.creds.value.ExpiringSoon() && x.creds.value.refresh != ""
                         && !x.claudeRunning && !s.InBackoff(x.now);
            var (s', t) := (ProactivePhase(cfg, s, x), TallyFrom(s.log, n));
            && n <= |s'.log| && TallyFrom(s'.log, n) == t.(proactive := t.proactive + One(sends))
            && s'.lastToken == (if sends && x.reply.Granted? && x.saved then x.reply.access else s.lastToken)
            && s'.authPaused == (if !sends then s.authPaused
                                 else match x.reply case InvalidGrant => true case Granted(_, _) => s.authPaused && !x.saved
                                                    case _ => s.authPaused)
            && (s'.authPaused ==> s'.lastFailedToken == s'.lastToken)
            && (s'.rateLimitPaused ==> s'.resumeAt.Some?)
            && (if s'.rateLimitPaused then s'.resumeAt else None)
               == (if !sends then if s.rateLimitPaused then s.resumeAt else None
                   else match x.reply
                        case RateLimited(d) =>
                          Some(x.repliedAt + if d > 0 then d else RateLimitBackoff(s.rateLimitFailCount + 1))
                        case Granted(_, _) => None
                        case _ => if s.rateLimitPaused then s.resumeAt else None)
  {
    hide TallyFrom, RateLimitBackoff;
    if cfg.credsRefresh {
      var read := s.Emit(ReadCreds(x.creds));
      Next(s, read, ReadCreds(x.creds), n);
      if x.creds.Some? && x.creds.value.ExpiringSoon() && x.creds.value.refresh != "" {
        var checked := read.Emit(ClaudeCheck(x.claudeRunning));
        Next(read, checked, ClaudeCheck(x.claudeRunning), n);
        if !x.claudeRunning && !s.InBackoff(x.now) {
          var sent := checked.Emit(Refresh(x.creds.value.refresh, x.now, x.reply, x.repliedAt));
          Next(checked, sent, Refresh(x.creds.value.refresh, x.now, x.reply, x.repliedAt), n);
          SettleTally(sent, x, n);
          hide ProactiveSettle;
        }
      }
    }
  }

  lemma SettleTally(s: Agent, x: Exchange, n: nat)
    requires n <= |s.log| && Invariant(s)
    ensures var s' := ProactiveSettle(s, x);
            && n <= |s'.log| && TallyFrom(s'.log, n) == TallyFrom(s.log, n)
            && s'.lastToken == (if x.reply.Granted? && x.saved then x.reply.access else s.lastToken)
            && s'.authPaused == (match x.reply case InvalidGrant => true case Granted(_, _) => s.authPaused && !x.saved
                                               case _ => s.authPaused)
            && (s'.authPaused ==> s'.lastFailedToken == s'.lastToken)
            && (s'.rateLimitPaused ==> s'.resumeAt.Some?)
            && (if s'.rateLimitPaused then s'.resumeAt else None)
               == (match x.reply
                   case RateLimited(d) =>
                     Some(x.repliedAt + if d > 0 then d else RateLimitBackoff(s.rateLimitFailCount + 1))
                   case Granted(_, _) => None
                   case _ => if s.rateLimitPaused then s.resumeAt else None)
  {
    hide TallyFrom, RateLimitBackoff;
    match x.reply
    case RateLimited(d) =>
      var wait: int := if d > 0 then d else RateLimitBackoff(s.rateLimitFailCount + 1);
      Snoc(s.log, Backoff(x.repliedAt, x.repliedAt + wait, d > 0), n);
    case InvalidGrant =>
    case RefreshFailed(_) =>
    case Granted(access, refresh) =>
      Snoc(s.log, Save(access, refresh, x.saved), n);
      Snoc(s.log + [Save(access, refresh, x.saved)], Install(access, Grant), n);
  }

  lemma RereadTally(cfg: Config, s: Agent, disk: string, n: nat)
    requires n <= |s.log| && (s.authPaused ==> s.lastFailedToken == s.lastToken) && (s.rateLimitPaused ==> s.resumeAt.Some?)
    ensures var adopts := cfg.tokenRefresh && disk != "" && disk != s.lastToken;
            var (s', t) := (RereadPhase(cfg, s, disk), TallyFrom(s.log, n));
            && n <= |s'.log| && TallyFrom(s'.log, n) == t.(adopted := t.adopted + One(adopts))
            && s'.authPaused == (s.authPaused && !adopts)
            && (if s'.rateLimitPaused then s'.resumeAt else None)
               == (if adopts || !s.rateLimitPaused then None else s.resumeAt)
            && (s'.rateLimitPaused ==> s'.resumeAt.Some?)
  {
    Snoc(s.log, Install(disk, DiskChange), n);
    hide TallyFrom;
  }

  /** The 429 branch: whether it exchanges, and whether it ends in a successful fetch. */
  lemma BypassTally(cfg: Config, s: Agent, x: Exchange, usage: UsageReply, n: nat)
    requires n <= |s.log| && TallyFrom(s.log, n).direct > 0 && (s.rateLimitPaused ==> s.resumeAt.Some?)
    ensures var sends := !s.InBackoff(x.now) && !x.claudeRunning && cfg.credsRefresh && x.creds.Some?
                         && x.creds.value.refresh != "";
            var (o, t) := (BypassPhase(cfg, s, x, usage), TallyFrom(s.log, n));
            && n <= |o.s.log|
            && TallyFrom(o.s.log, n)
               == t.(bypassing := t.bypassing + One(sends), viaBypass := t.viaBypass + One(sends && x.reply.Granted?))
            && (o.Respond? <==> sends && x.reply.Granted? && usage == UsageOk)
  {
    hide TallyFrom, RateLimitBackoff;
    if !s.InBackoff(x.now) {
      var checked := ExpireBackoff(s).Emit(ClaudeCheck(x.claudeRunning));
      Next(s, checked, ClaudeCheck(x.claudeRunning), n);
      var read := checked.Emit(ReadCreds(x.creds));
      Next(checked, read, ReadCreds(x.creds), n);
      if x.creds.Some? {
        var e := Refresh(x.creds.value.refresh, x.now, x.reply, x.repliedAt);
        Next(read, read.Emit(e), e, n);
        BypassSettleTally(read.Emit(e), x, usage, n);
        hide BypassSettle, ExpireBackoff;
      }
    }
  }

  lemma BypassSettleTally(s: Agent, x: Exchange, usage: UsageReply, n: nat)
    requires n <= |s.log|
    ensures var (o, t) := (BypassSettle(s, x, usage), TallyFrom(s.log, n));
            && n <= |o.s.log| && TallyFrom(o.s.log, n) == t.(viaBypass := t.viaBypass + One(x.reply.Granted?))
            && (o.Respond? <==> x.reply.Granted? && usage == UsageOk)
  {
    hide TallyFrom, RateLimitBackoff;
    match x.reply
    case RateLimited(d) =>
      var wait: int := if d > 0 then d else RateLimitBackoff(s.rateLimitFailCount + 1);
      Snoc(s.log, Backoff(x.repliedAt, x.repliedAt + wait, d > 0), n);
    case InvalidGrant =>
    case RefreshFailed(_) =>
      Snoc(s.log, Backoff(x.repliedAt, x.repliedAt + RateLimitBackoff(s.rateLimitFailCount + 1), false), n);
    case Granted(access, refresh) =>
      var l := s.log + [Save(access, refresh, x.saved)];
      Snoc(s.log, Save(access, refresh, x.saved), n);
      Snoc(l, Install(access, Grant), n);
      Snoc(l + [Install(access, Grant)], Fetch(access, Bypass, usage), n);
  }

  lemma RetryTally(cfg: Config, s: Agent, retryToken: string, usage: UsageReply, n: nat)
    requires n <= |s.log|
    ensures var sends := cfg.tokenRefresh && retryToken != "";
            var (o, t) := (AuthRetryPhase(cfg, s, retryToken, usage), TallyFrom(s.log, n));
            && n <= |o.s.log| && TallyFrom(o.s.log, n) == t.(retried := t.retried + One(sends))
            && (o.Respond? <==> sends && usage == UsageOk)
  {
    hide TallyFrom;
    if cfg.tokenRefresh && retryToken != "" {
      var s1 := s.(lastToken := "").SetToken(retryToken, Reread);
      Next(s, s1, Install(retryToken, Reread), n);
      Next(s1, s1.Emit(Fetch(retryToken, Retry, usage)), Fetch(retryToken, Retry, usage), n);
    }
  }

  lemma FetchTally(cfg: Config, s: Agent, env: PollEnv, n: nat)
    requires n <= |s.log| && TallyFrom(s.log, n).direct == 0 && (s.rateLimitPaused ==> s.resumeAt.Some?)
    ensures var bypasses := !s.authPaused && env.usage == UsageRateLimited && !s.InBackoff(env.bypass.now)
                            && !env.bypass.claudeRunning && cfg.credsRefresh && env.bypass.creds.Some?
                            && env.bypass.creds.value.refresh != "";
            var retries := !s.authPaused && env.usage == UsageUnauthorized && cfg.tokenRefresh && env.retryToken != "";
            var (o, t) := (FetchPhase(cfg, s, env), TallyFrom(s.log, n));
            && n <= |o.s.log|
            && TallyFrom(o.s.log, n)
               == t.(direct := t.direct + One(!s.authPaused), bypassing := t.bypassing + One(bypasses),
                     viaBypass := t.viaBypass + One(bypasses && env.bypass.reply.Granted?),
                     retried := t.retried + One(retries))
            && (o.Respond? <==>
                  || (!s.authPaused && env.usage == UsageOk)
                  || (bypasses && env.bypass.reply.Granted? && env.bypassUsage == UsageOk)
                  || (retries && env.retryUsage == UsageOk))
  {
    hide TallyFrom, BypassPhase, AuthRetryPhase;
    if !s.authPaused {
      var e := Fetch(s.clientToken, Direct, env.usage);
      Next(s, s.Emit(e), e, n);
      BypassTally(cfg, s.Emit(e), env.bypass, env.bypassUsage, n);
      RetryTally(cfg, s.Emit(e), env.retryToken, env.retryUsage, n);
    }
  }

  /**
    The requests a poll sends and the response it stores, each exactly under its condition. In particular a
    response is stored once if and only if the last fetch succeeded, by whichever way.
   */
  lemma PollSendsExactly(cfg: Config, s: Agent, env: PollEnv)
    requires Invariant(s)
    ensures var t := TallyFrom(Poll(cfg, s, env).log, |s.log|);
            && t.statusline == One(env.enabled && cfg.statusline && env.statusline.Usable?)
            && t.proactive == One(Exchanges(cfg, s, env))
            && t.adopted == One(Adopts(cfg, s, env))
            && t.direct == One(Fetches(cfg, s, env))
            && t.bypassing == One(Bypasses(cfg, s, env))
            && t.viaBypass == One(Bypasses(cfg, s, env) && env.bypass.reply.Granted?)
            && t.retried == One(Retries(cfg, s, env))
            && t.stored == One(Succeeds(cfg, s, env))
    ensures Succeeds(cfg, s, env) ==> Last(Poll(cfg, s, env).log) == Some(Store(FromApi, env.inserted))
  {
    NothingYet(s.log);
    if env.enabled {
      hide TallyFrom, StatuslinePhase, ApiPoll;
      StatuslineTally(cfg, s, env);
      var start := StatuslinePhase(cfg, s, env.statusline);
      if start.Respond? {
        ApiSendsExactly(cfg, s, start.s, env);
      }
    }
  }

  lemma ApiSendsExactly(cfg: Config, s: Agent, start: Agent, env: PollEnv)
    requires Invariant(s) && Reaches(cfg, s, env) && |s.log| <= |start.log|
    requires start == s.(log := start.log, pollCycleCount := start.pollCycleCount, rateLimitFailCount := start.rateLimitFailCount)
    requires start.rateLimitFailCount
          == if cfg.statusline && env.statusline.Usable? && s.rateLimitFailCount > 0 then s.rateLimitFailCount - 1
             else s.rateLimitFailCount
    requires TallyFrom(start.log, |s.log|).(statusline := 0) == NOTHING
    ensures TallyFrom(ApiPoll(cfg, start, env).log, |s.log|)
         == Tally(TallyFrom(start.log, |s.log|).statusline, One(Exchanges(cfg, s, env)), One(Adopts(cfg, s, env)),
                  One(Fetches(cfg, s, env)), One(Bypasses(cfg, s, env)),
                  One(Bypasses(cfg, s, env) && env.bypass.reply.Granted?), One(Retries(cfg, s, env)), One(Succeeds(cfg, s, env)))
    ensures Succeeds(cfg, s, env) ==> Last(ApiPoll(cfg, start, env).log) == Some(Store(FromApi, env.inserted))
  {
    hide TallyFrom, ProactivePhase, RereadPhase, FetchPhase, RateLimitBackoff, Exponential;
    var n := |s.log|;
    BackoffIsExponential(start.rateLimitFailCount + 1);
    ProactiveTally(cfg, start, env.proactive, n);
    var s1 := ProactivePhase(cfg, start, env.proactive);
    RereadTally(cfg, s1, env.diskToken, n);
    var s2 := RereadPhase(cfg, s1, env.diskToken);
    FetchTally(cfg, s2, env, n);
    var o := FetchPhase(cfg, s2, env);
    if o.Respond? {
      Snoc(o.s.log, Store(FromApi, env.inserted), n);
    }
  }
}
