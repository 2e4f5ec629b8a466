/** How many requests a poll makes, and the exact rhythm of hybrid API polls. */
module AnthropicRhythm {
  import opened Common
  import opened AnthropicPoll

  /** How many of each the log holds. A statusline poll is a stored statusline snapshot. */
  datatype Tally = Tally(refreshes: nat, fetches: nat, hybrids: nat, statuslinePolls: nat) {
    function Add(e: Event): Tally {
      match e
      case Refresh(_, _, _, _) => this.(refreshes := refreshes + 1)
      case Fetch(_, _, _) => this.(fetches := fetches + 1)
      case Hybrid => this.(hybrids := hybrids + 1)
      case Store(FromStatusline, true) => this.(statuslinePolls := statuslinePolls + 1)
      case _ => this
    }

    /** t comes from this by at most r refresh requests and f usage requests, and nothing else that counts. */
    predicate Reaches(t: Tally, r: nat, f: nat) {
      && refreshes <= t.refreshes <= refreshes + r && fetches <= t.fetches <= fetches + f
      && t.hybrids == hybrids && t.statuslinePolls == statuslinePolls
    }
  }

  function Count(log: seq<Event>): Tally {
    if log == [] then Tally(0, 0, 0, 0) else Count(log[..|log| - 1]).Add(log[|log| - 1])
  }

  lemma Snoc(log: seq<Event>, e: Event)
    ensures Count(log + [e]) == Count(log).Add(e)
  {
    assert (log + [e])[..|log|] == log;
  }

  lemma OnRateLimitedCount(s: Agent, retryAfter: nat, now: int)
    ensures var s' := OnRateLimited(s, retryAfter, now);
            Count(s'.log) == Count(s.log) && s'.pollCycleCount == s.pollCycleCount
  {
    hide Count, RateLimitBackoff;
    var d: int := if retryAfter > 0 then retryAfter else RateLimitBackoff(s.rateLimitFailCount + 1);
    Snoc(s.log, Backoff(now, now + d, retryAfter > 0));
  }

  lemma SettleCount(s: Agent, x: Exchange, usage: UsageReply)
    ensures Count(ProactiveSettle(s, x).log) == Count(s.log) && ProactiveSettle(s, x).pollCycleCount == s.pollCycleCount
    ensures Count(s.log).Reaches(Count(BypassSettle(s, x, usage).s.log), 0, 1)
    ensures BypassSettle(s, x, usage).s.pollCycleCount == s.pollCycleCount
  {
    hide Count, RateLimitBackoff, OnRateLimited;
    match x.reply
    case RateLimited(d) => OnRateLimitedCount(s, d, x.repliedAt);
    case InvalidGrant =>
    case RefreshFailed(_) =>
      Snoc(s.log, Backoff(x.repliedAt, x.repliedAt + RateLimitBackoff(s.rateLimitFailCount + 1), false));
    case Granted(a, r) =>
      var l1 := s.log + [Save(a, r, x.saved)];
      Snoc(s.log, Save(a, r, x.saved));
      Snoc(l1, Install(a, Grant));
      Snoc(l1 + [Install(a, Grant)], Fetch(a, Bypass, usage));
  }

  lemma ProactivePhaseCount(cfg: Config, s: Agent, x: Exchange)
    ensures Count(s.log).Reaches(Count(ProactivePhase(cfg, s, x).log), 1, 0)
    ensures ProactivePhase(cfg, s, x).pollCycleCount == s.pollCycleCount
  {
    hide Count, ProactiveSettle, BypassSettle;
    var read := s.Emit(ReadCreds(x.creds));
    Snoc(s.log, ReadCreds(x.creds));
    Snoc(read.log, ClaudeCheck(x.claudeRunning));
    if x.creds.Some? {
      var checked := read.Emit(ClaudeCheck(x.claudeRunning));
      var sent := Refresh(x.creds.value.refresh, x.now, x.reply, x.repliedAt);
      Snoc(checked.log, sent);
      SettleCount(checked.Emit(sent), x, UsageOk);
    }
  }

  lemma BypassPhaseCount(cfg: Config, s: Agent, x: Exchange, usage: UsageReply)
    ensures Count(s.log).Reaches(Count(BypassPhase(cfg, s, x, usage).s.log), 1, 1)
    ensures BypassPhase(cfg, s, x, usage).s.pollCycleCount == s.pollCycleCount
  {
    hide Count, ProactiveSettle, BypassSettle;
    var checked := ExpireBackoff(s).Emit(ClaudeCheck(x.claudeRunning));
    Snoc(s.log, ClaudeCheck(x.claudeRunning));
    Snoc(checked.log, ReadCreds(x.creds));
    if x.creds.Some? {
      var read := checked.Emit(ReadCreds(x.creds));
      var sent := Refresh(x.creds.value.refresh, x.now, x.reply, x.repliedAt);
      Snoc(read.log, sent);
      SettleCount(read.Emit(sent), x, usage);
    }
  }

  lemma FetchPhaseCount(cfg: Config, s: Agent, env: PollEnv)
    ensures Count(s.log).Reaches(Count(FetchPhase(cfg, s, env).s.log), 1, 2)
    ensures FetchPhase(cfg, s, env).s.pollCycleCount == s.pollCycleCount
  {
    hide Count, BypassPhase;
    var s1 := s.Emit(Fetch(s.clientToken, Direct, env.usage));
    Snoc(s.log, Fetch(s.clientToken, Direct, env.usage));
    BypassPhaseCount(cfg, s1, env.bypass, env.bypassUsage);
    Snoc(s1.log, Install(env.retryToken, Reread));
    Snoc(s1.log + [Install(env.retryToken, Reread)], Fetch(env.retryToken, Retry, env.retryUsage));
  }

  lemma ApiPollCount(cfg: Config, s: Agent, env: PollEnv)
    ensures Count(s.log).Reaches(Count(ApiPoll(cfg, s, env).log), 2, 2)
    ensures ApiPoll(cfg, s, env).pollCycleCount == s.pollCycleCount
  {
    hide Count, ProactivePhase, FetchPhase;
    ProactivePhaseCount(cfg, s, env.proactive);
    var s1 := ProactivePhase(cfg, s, env.proactive);
    Snoc(s1.log, Install(env.diskToken, DiskChange));
    var s2 := RereadPhase(cfg, s1, env.diskToken);
    FetchPhaseCount(cfg, s2, env);
    Snoc(FetchPhase(cfg, s2, env).s.log, Store(FromApi, env.inserted));
  }

  /**
    At most two refresh and two usage requests per poll, none of either in a statusline-only cycle, and
    pollCycleCount counts the statusline polls.
   */
  lemma PollRhythm(cfg: Config, s: Agent, env: PollEnv)
    ensures var s' := Poll(cfg, s, env);
            var (before, after) := (Count(s.log), Count(s'.log));
            && s'.pollCycleCount == s.pollCycleCount + after.statuslinePolls - before.statuslinePolls
            && before.refreshes <= after.refreshes <= before.refreshes + 2
            && before.fetches <= after.fetches <= before.fetches + 2
            && (after.statuslinePolls == before.statuslinePolls ==> after.hybrids == before.hybrids)
            && (after.statuslinePolls == before.statuslinePolls || after.statuslinePolls == before.statuslinePolls + 1)
            && (after.statuslinePolls > before.statuslinePolls ==>
                  after.hybrids == before.hybrids
                  + (if cfg.apiPollCycleInterval > 0 && s'.pollCycleCount % cfg.apiPollCycleInterval == 0 then 1 else 0)
                  && (after.hybrids == before.hybrids
                      ==> after.refreshes == before.refreshes && after.fetches == before.fetches))
  {
    hide Count, ApiPoll;
    Snoc(s.log, Store(FromStatusline, env.statusline.Usable? && env.statusline.inserted));
    Snoc(s.log + [Store(FromStatusline, true)], Hybrid);
    var start := StatuslinePhase(cfg, s, env.statusline).s;
    ApiPollCount(cfg, start, env);
  }

  lemma DivStep(c: nat, n: int)
    requires n > 0
    ensures (c + 1) / n == c / n + if (c + 1) % n == 0 then 1 else 0
  {
    var q, r := c / n, c % n;
    assert c == n * q + r && 0 <= r < n;
    if r + 1 == n {
      assert c + 1 == n * (q + 1);
      DivUnique(c + 1, n, q + 1, 0);
    } else {
      DivUnique(c + 1, n, q, r + 1);
    }
  }

  lemma DivUnique(a: int, n: int, q: int, r: int)
    requires n > 0 && 0 <= r < n && a == n * q + r
    ensures a / n == q && a % n == r
  {
    var q', r' := a / n, a % n;
    assert a == n * q' + r';
    MulBound(n, q - q');
  }

  lemma MulBound(n: int, d: int)
    requires n > 0
    ensures d > 0 ==> n * d >= n
    ensures d < 0 ==> n * d <= -n
  {
  }

  /** Over any run, k statusline polls from cycle counter c trigger exactly (c+k)/N - c/N hybrid polls. */
  lemma {:induction false} HybridRhythm(cfg: Config, s: Agent, inputs: seq<Input>)
    requires cfg.apiPollCycleInterval > 0
    ensures var s' := Run(cfg, s, inputs);
            var n := cfg.apiPollCycleInterval;
            var k := Count(s'.log).statuslinePolls - Count(s.log).statuslinePolls;
            && k >= 0 && s'.pollCycleCount == s.pollCycleCount + k
            && Count(s'.log).hybrids - Count(s.log).hybrids == (s.pollCycleCount + k) / n - s.pollCycleCount / n
    decreases |inputs|
  {
    hide Poll, Count;
    if inputs != [] {
      var next := Step(cfg, s, inputs[0]);
      match inputs[0] {
        case Tick(env) => PollRhythm(cfg, s, env);
        case Foreign(access, refresh) => Snoc(s.log, ForeignWrite(access, refresh));
      }
      DivStep(s.pollCycleCount, cfg.apiPollCycleInterval);
      HybridRhythm(cfg, next, inputs[1..]);
    }
  }
}
