/**
  When refresh requests may be sent: never while Claude Code runs, never before the end of the backoff
  that was set last, be it the server's Retry-After or the exponential one.
 */
module AnthropicBackoff {
  import opened Common
  import opened AnthropicPoll

  // ----- the backoff formula -----

  lemma {:induction false} Pow2Grows(m: nat, n: nat)
    requires m <= n
    ensures 1 <= Pow2(m) <= Pow2(n)
    decreases n
  {
    if m < n { Pow2Grows(m, n - 1); }
    else if m > 0 { Pow2Grows(m - 1, m - 1); }
  }

  /** The shift cap is invisible: the backoff is min(5 min * 2^(n-1), 6 h) for every n >= 1. */
  lemma BackoffIsExact(n: nat)
    requires n >= 1
    ensures RateLimitBackoff(n) == if BASE_BACKOFF * Pow2(n - 1) > MAX_BACKOFF then MAX_BACKOFF else BASE_BACKOFF * Pow2(n - 1)
  {
    if n - 1 > 10 {
      assert Pow2(10) == 1024 by { assert Pow2(5) == 32; }
      Pow2Grows(10, n - 1);
    }
  }

  lemma BackoffIsMonotone(m: int, n: int)
    requires m <= n
    ensures BASE_BACKOFF <= RateLimitBackoff(m) <= RateLimitBackoff(n) <= MAX_BACKOFF < 0x7fff_ffff_ffff_ffff
  {
    Pow2Grows(0, Shift(n));
    Pow2Grows(0, Shift(m));
    if m >= 1 { Pow2Grows(Shift(m), Shift(n)); }
    Capped(Pow2(Shift(m)), Pow2(Shift(n)));
    hide Pow2;
  }

  function Shift(n: int): nat {
    if n <= 1 then 0 else if n - 1 > 10 then 10 else n - 1
  }

  lemma Capped(p: nat, q: nat)
    requires 1 <= p && 1 <= q
    ensures var cap := (x: int) => if x > MAX_BACKOFF then MAX_BACKOFF else x;
            && BASE_BACKOFF <= cap(BASE_BACKOFF * p) <= MAX_BACKOFF && BASE_BACKOFF <= cap(BASE_BACKOFF * q)
            && (p <= q ==> cap(BASE_BACKOFF * p) <= cap(BASE_BACKOFF * q))
  {
  }

  // ----- what an observer may conclude from the log -----

  /** The end of the backoff set last, unless a grant or a changed token on disk came since. */
  function NotBefore(log: seq<Event>): Option<int> {
    if log == [] then None
    else
      var before := NotBefore(log[..|log| - 1]);
      match log[|log| - 1]
      case Backoff(_, until, _) => Some(until)
      case Refresh(_, _, Granted(_, _), _) => None
      case Install(_, DiskChange) => None
      case _ => before
  }

  /** When the latest refresh request was answered. */
  function Latest(log: seq<Event>): Option<int> {
    if log == [] then None
    else if log[|log| - 1].Refresh? then Some(log[|log| - 1].repliedAt)
    else Latest(log[..|log| - 1])
  }

  predicate IsDiskChange(e: Event) {
    e.Install? && e.origin == DiskChange
  }

  predicate UpTo(bound: Option<int>, t: int) {
    bound.Some? ==> bound.value <= t
  }

  function LastTwo(log: seq<Event>): (Option<Event>, Option<Event>) {
    (if |log| >= 1 then Some(log[|log| - 1]) else None, if |log| >= 2 then Some(log[|log| - 2]) else None)
  }

  /** The latest check found Claude Code not running, and nothing but a read of the credentials came since. */
  predicate JustChecked(log: seq<Event>) {
    var (last, previous) := LastTwo(log);
    last == Some(ClaudeCheck(false))
    || (last.Some? && last.value.ReadCreds? && previous == Some(ClaudeCheck(false)))
  }

  /** A backoff without Retry-After ends between 5 minutes and 6 hours from when it was set. */
  predicate Bounded(e: Event) {
    e.Backoff? && !e.serverGiven ==> e.setAt + BASE_BACKOFF <= e.until <= e.setAt + MAX_BACKOFF
  }

  /** The OAuth server has just answered 429. */
  predicate Refused(log: seq<Event>) {
    log != [] && log[|log| - 1].Refresh? && log[|log| - 1].reply.RateLimited?
  }

  /** A backoff starts when the refused or failed request is answered; a Retry-After is taken as it is. */
  predicate AnswersRequest(before: seq<Event>, e: Event)
    requires e.Backoff?
  {
    && before != [] && before[|before| - 1].Refresh? && e.setAt == before[|before| - 1].repliedAt
    && match before[|before| - 1].reply
       case RateLimited(d) => e.serverGiven == (d > 0) && (d > 0 ==> e.until == e.setAt + d)
       case RefreshFailed(_) => !e.serverGiven
       case _ => false
  }

  predicate Permitted(before: seq<Event>, e: Event) {
    && (e.Refresh? ==> JustChecked(before) && UpTo(NotBefore(before), e.sentAt)
                       && UpTo(Latest(before), e.sentAt) && e.sentAt <= e.repliedAt)
    && (if e.Backoff? then Bounded(e) && AnswersRequest(before, e) else !Refused(before))
  }

  predicate AllPermitted(log: seq<Event>) {
    forall i | 0 <= i < |log| :: Permitted(log[..i], log[i])
  }

  /** At time t: every event so far was permitted, and the agent is paused up to exactly the time the observer knows. */
  predicate Holding(s: Agent, t: int) {
    && AllPermitted(s.log) && UpTo(Latest(s.log), t) && !Refused(s.log)
    && (if s.rateLimitPaused then s.resumeAt.Some? && NotBefore(s.log) == s.resumeAt else UpTo(NotBefore(s.log), t))
  }

  lemma Snoc(log: seq<Event>, e: Event)
    ensures NotBefore(log + [e]) == match e
              case Backoff(_, until, _) => Some(until)
              case Refresh(_, _, Granted(_, _), _) => None
              case Install(_, DiskChange) => None
              case _ => NotBefore(log)
    ensures Latest(log + [e]) == if e.Refresh? then Some(e.repliedAt) else Latest(log)
    ensures Refused(log + [e]) <==> e.Refresh? && e.reply.RateLimited?
    ensures AllPermitted(log) && Permitted(log, e) ==> AllPermitted(log + [e])
  {
    assert (log + [e])[..|log|] == log;
    if AllPermitted(log) && Permitted(log, e) {
      forall i | 0 <= i < |log + [e]| ensures Permitted((log + [e])[..i], (log + [e])[i]) {
        assert (log + [e])[..i] == if i < |log| then log[..i] else log;
      }
    }
  }

  /** Later is only easier. */
  lemma Wait(s: Agent, t: int, u: int)
    requires Holding(s, t) && t <= u
    ensures Holding(s, u)
  {
  }

  lemma RateLimitedHolding(s: Agent, retryAfter: nat, sent: Event)
    requires sent.Refresh? && Holding(s, sent.sentAt) && sent.reply == RateLimited(retryAfter) && sent.sentAt <= sent.repliedAt
    requires Permitted(s.log, sent)
    ensures Holding(OnRateLimited(s.Emit(sent), retryAfter, sent.repliedAt), sent.repliedAt)
  {
    hide AllPermitted, NotBefore, Latest, JustChecked, RateLimitBackoff;
    var n := s.rateLimitFailCount + 1;
    BackoffIsMonotone(n, n);
    var d: int := if retryAfter > 0 then retryAfter else RateLimitBackoff(n);
    Snoc(s.log, sent);
    Snoc(s.log + [sent], Backoff(sent.repliedAt, sent.repliedAt + d, retryAfter > 0));
  }

  /** Sending a request is permitted outside the backoff. */
  lemma SentHolding(s: Agent, x: Exchange, token: string)
    requires Holding(s, x.now) && !s.InBackoff(x.now) && JustChecked(s.log) && x.now <= x.repliedAt
    ensures var e := Refresh(token, x.now, x.reply, x.repliedAt);
            Permitted(s.log, e)
            && (x.reply.Granted? ==> Holding(s.Emit(e).LiftBackoff(), x.repliedAt))
            && (x.reply.InvalidGrant? || x.reply.RefreshFailed? ==> Holding(s.Emit(e), x.repliedAt))
  {
    hide AllPermitted, NotBefore, Latest, JustChecked;
    Snoc(s.log, Refresh(token, x.now, x.reply, x.repliedAt));
  }

  /** An event that has nothing to do with backoffs, and fields that have not. */
  lemma QuietHolding(s: Agent, s': Agent, e: Event, t: int)
    requires Holding(s, t) && !e.Refresh? && !e.Backoff? && !IsDiskChange(e)
    requires s'.log == s.log + [e] && s'.rateLimitPaused == s.rateLimitPaused && s'.resumeAt == s.resumeAt
    ensures Holding(s', t)
  {
    hide AllPermitted, NotBefore, Latest, JustChecked;
    Snoc(s.log, e);
  }

  /** Fields that have nothing to do with backoffs. */
  lemma SameHolding(s: Agent, s': Agent, t: int)
    requires Holding(s, t)
    requires s'.log == s.log && s'.rateLimitPaused == s.rateLimitPaused && s'.resumeAt == s.resumeAt
    ensures Holding(s', t)
  {
    hide AllPermitted, NotBefore, Latest, Refused;
  }

  lemma Checked(log: seq<Event>, creds: Option<Creds>)
    ensures JustChecked(log + [ClaudeCheck(false)])
    ensures JustChecked(log + [ClaudeCheck(false)] + [ReadCreds(creds)])
  {
  }

  lemma ProactiveSettleHolding(s: Agent, x: Exchange, token: string)
    requires Holding(s, x.now) && !s.InBackoff(x.now) && JustChecked(s.log) && x.now <= x.repliedAt
    ensures Holding(ProactiveSettle(s.Emit(Refresh(token, x.now, x.reply, x.repliedAt)), x), x.repliedAt)
  {
    hide Holding, Permitted, JustChecked, RateLimitBackoff, OnRateLimited;
    var e := Refresh(token, x.now, x.reply, x.repliedAt);
    SentHolding(s, x, token);
    match x.reply
    case RateLimited(d) => RateLimitedHolding(s, d, e);
    case InvalidGrant => SameHolding(s.Emit(e), OnInvalidGrant(s.Emit(e)), x.repliedAt);
    case RefreshFailed(_) =>
    case Granted(access, refresh) =>
      var s1 := s.Emit(e).LiftBackoff();
      var s2 := s1.Emit(Save(access, refresh, x.saved));
      QuietHolding(s1, s2, Save(access, refresh, x.saved), x.repliedAt);
      if x.saved {
        QuietHolding(s2, ProactiveSettle(s.Emit(e), x), Install(access, Grant), x.repliedAt);
      }
  }

  lemma BypassSettleHolding(s: Agent, x: Exchange, token: string, usage: UsageReply)
    requires Holding(s, x.now) && !s.InBackoff(x.now) && JustChecked(s.log) && x.now <= x.repliedAt
    ensures Holding(BypassSettle(s.Emit(Refresh(token, x.now, x.reply, x.repliedAt)), x, usage).s, x.repliedAt)
  {
    hide Holding, Permitted, JustChecked, RateLimitBackoff, OnRateLimited, OnRefreshFailed;
    var e := Refresh(token, x.now, x.reply, x.repliedAt);
    SentHolding(s, x, token);
    match x.reply
    case RateLimited(d) => RateLimitedHolding(s, d, e);
    case InvalidGrant => SameHolding(s.Emit(e), OnInvalidGrant(s.Emit(e)), x.repliedAt);
    case RefreshFailed(_) => FailedHolding(s.Emit(e), x.repliedAt);
    case Granted(_, _) => GrantedHolding(s.Emit(e).LiftBackoff(), x, usage);
  }

  lemma GrantedHolding(s: Agent, x: Exchange, usage: UsageReply)
    requires Holding(s, x.repliedAt) && x.reply.Granted?
    ensures var access := x.reply.access;
            Holding(s.Emit(Save(access, x.reply.refresh, x.saved)).SetToken(access, Grant)
                     .Emit(Fetch(access, Bypass, usage)), x.repliedAt)
  {
    hide Holding;
    var access := x.reply.access;
    var s2 := s.Emit(Save(access, x.reply.refresh, x.saved));
    QuietHolding(s, s2, Save(access, x.reply.refresh, x.saved), x.repliedAt);
    var s3 := s2.SetToken(access, Grant);
    QuietHolding(s2, s3, Install(access, Grant), x.repliedAt);
    QuietHolding(s3, s3.Emit(Fetch(access, Bypass, usage)), Fetch(access, Bypass, usage), x.repliedAt);
  }

  lemma FailedHolding(s: Agent, t: int)
    requires Holding(s, t) && s.log != []
    requires var last := s.log[|s.log| - 1]; last.Refresh? && last.reply.RefreshFailed? && last.repliedAt == t
    ensures Holding(OnRefreshFailed(s, t), t)
  {
    hide AllPermitted, NotBefore, Latest, JustChecked, RateLimitBackoff;
    var n := s.rateLimitFailCount + 1;
    BackoffIsMonotone(n, n);
    Snoc(s.log, Backoff(t, t + RateLimitBackoff(n), false));
  }

  lemma ProactivePhaseHolding(cfg: Config, s: Agent, x: Exchange)
    requires Holding(s, x.now) && x.now <= x.repliedAt
    ensures Holding(ProactivePhase(cfg, s, x), x.repliedAt)
  {
    hide Holding, Proactive;
    Wait(s, x.now, x.repliedAt);
    var read := s.Emit(ReadCreds(x.creds));
    QuietHolding(s, read, ReadCreds(x.creds), x.now);
    Wait(read, x.now, x.repliedAt);
    if x.creds.Some? {
      ProactiveHolding(read, x, x.creds.value);
    }
  }

  lemma ProactiveHolding(s: Agent, x: Exchange, creds: Creds)
    requires Holding(s, x.now) && x.now <= x.repliedAt
    ensures Holding(Proactive(s, x, creds), x.repliedAt)
  {
    hide Holding, ProactiveSettle, JustChecked;
    var checked := s.Emit(ClaudeCheck(x.claudeRunning));
    QuietHolding(s, checked, ClaudeCheck(x.claudeRunning), x.now);
    Wait(checked, x.now, x.repliedAt);
    if !x.claudeRunning && !checked.InBackoff(x.now) {
      Checked(s.log, None);
      ProactiveSettleHolding(checked, x, creds.refresh);
    }
  }

  lemma RereadPhaseHolding(cfg: Config, s: Agent, token: string, t: int)
    requires Holding(s, t)
    ensures Holding(RereadPhase(cfg, s, token), t)
  {
    hide AllPermitted, NotBefore, Latest, JustChecked;
    Snoc(s.log, Install(token, DiskChange));
  }

  lemma ExpireHolding(s: Agent, t: int)
    requires Holding(s, t) && !s.InBackoff(t)
    ensures Holding(ExpireBackoff(s), t) && !ExpireBackoff(s).InBackoff(t)
  {
    hide AllPermitted, NotBefore, Latest, Refused;
  }

  lemma BypassPhaseHolding(cfg: Config, s: Agent, x: Exchange, usage: UsageReply)
    requires Holding(s, x.now) && x.now <= x.repliedAt
    ensures Holding(BypassPhase(cfg, s, x, usage).s, x.repliedAt)
  {
    hide Holding, BypassSettle, ExpireBackoff;
    Wait(s, x.now, x.repliedAt);
    if !s.InBackoff(x.now) {
      ExpireHolding(s, x.now);
      var s1 := ExpireBackoff(s);
      var checked := s1.Emit(ClaudeCheck(x.claudeRunning));
      QuietHolding(s1, checked, ClaudeCheck(x.claudeRunning), x.now);
      Wait(checked, x.now, x.repliedAt);
      if !x.claudeRunning {
        AskedHolding(s1, x, usage);
      }
    }
  }

  /** The 429 branch once Claude Code was found not running. */
  lemma AskedHolding(s: Agent, x: Exchange, usage: UsageReply)
    requires Holding(s, x.now) && !s.InBackoff(x.now) && x.now <= x.repliedAt
    ensures var read := s.Emit(ClaudeCheck(false)).Emit(ReadCreds(x.creds));
            && Holding(read, x.repliedAt)
            && (x.creds.Some? ==>
                  Holding(BypassSettle(read.Emit(Refresh(x.creds.value.refresh, x.now, x.reply, x.repliedAt)), x, usage).s,
                          x.repliedAt))
  {
    hide Holding, BypassSettle, JustChecked;
    var checked := s.Emit(ClaudeCheck(false));
    QuietHolding(s, checked, ClaudeCheck(false), x.now);
    var read := checked.Emit(ReadCreds(x.creds));
    QuietHolding(checked, read, ReadCreds(x.creds), x.now);
    Wait(read, x.now, x.repliedAt);
    if x.creds.Some? {
      Checked(s.log, x.creds);
      BypassSettleHolding(read, x, x.creds.value.refresh, usage);
    }
  }

  lemma FetchPhaseHolding(cfg: Config, s: Agent, env: PollEnv)
    requires Holding(s, env.bypass.now) && env.bypass.now <= env.bypass.repliedAt
    ensures Holding(FetchPhase(cfg, s, env).s, env.bypass.repliedAt)
  {
    hide Holding, BypassPhase, AuthRetryPhase;
    Wait(s, env.bypass.now, env.bypass.repliedAt);
    if !s.authPaused {
      var e := Fetch(s.clientToken, Direct, env.usage);
      var s1 := s.Emit(e);
      QuietHolding(s, s1, e, env.bypass.now);
      Wait(s1, env.bypass.now, env.bypass.repliedAt);
      match env.usage
      case UsageOk => SameHolding(s1, FetchPhase(cfg, s, env).s, env.bypass.repliedAt);
      case UsageRateLimited => BypassPhaseHolding(cfg, s1, env.bypass, env.bypassUsage);
      case UsageUnauthorized => AuthRetryHolding(cfg, s1, env.retryToken, env.retryUsage, env.bypass.repliedAt);
      case UsageFailed =>
      case UsageCancelled =>
    }
  }

  lemma AuthRetryHolding(cfg: Config, s: Agent, token: string, usage: UsageReply, t: int)
    requires Holding(s, t)
    ensures Holding(AuthRetryPhase(cfg, s, token, usage).s, t)
  {
    hide Holding;
    var s1 := s.(lastToken := "");
    SameHolding(s, s1, t);
    if cfg.tokenRefresh && token != "" {
      var s2 := s1.SetToken(token, Reread);
      QuietHolding(s1, s2, Install(token, Reread), t);
      var s3 := s2.Emit(Fetch(token, Retry, usage));
      QuietHolding(s2, s3, Fetch(token, Retry, usage), t);
      SameHolding(s3, AuthRetryPhase(cfg, s, token, usage).s, t);
    }
  }

  /** The clock readings of a poll that starts at time t are ordered. */
  predicate ClockRuns(t: int, env: PollEnv) {
    t <= env.proactive.now <= env.proactive.repliedAt <= env.bypass.now <= env.bypass.repliedAt
  }

  lemma StatuslineHolding(cfg: Config, s: Agent, line: Statusline, t: int)
    requires Holding(s, t)
    ensures Holding(StatuslinePhase(cfg, s, line).s, t)
  {
    hide Holding;
    if line.Usable? {
      var s1 := s.Emit(Store(FromStatusline, line.inserted));
      QuietHolding(s, s1, Store(FromStatusline, line.inserted), t);
      var s2 := s1.(pollCycleCount := s1.pollCycleCount + 1,
                    rateLimitFailCount := if s1.rateLimitFailCount > 0 then s1.rateLimitFailCount - 1 else 0);
      SameHolding(s1, s2, t);
      QuietHolding(s2, s2.Emit(Hybrid), Hybrid, t);
    }
  }

  lemma PollHolding(cfg: Config, s: Agent, t: int, env: PollEnv)
    requires Holding(s, t) && ClockRuns(t, env)
    ensures Holding(Poll(cfg, s, env), env.bypass.repliedAt)
  {
    hide Holding, StatuslinePhase, ProactivePhase, RereadPhase, FetchPhase;
    StatuslineHolding(cfg, s, env.statusline, t);
    var start := StatuslinePhase(cfg, s, env.statusline).s;
    Wait(s, t, env.bypass.repliedAt);
    Wait(start, t, env.bypass.repliedAt);
    Wait(start, t, env.proactive.now);
    ProactivePhaseHolding(cfg, start, env.proactive);
    var s1 := ProactivePhase(cfg, start, env.proactive);
    RereadPhaseHolding(cfg, s1, env.diskToken, env.proactive.repliedAt);
    var s2 := RereadPhase(cfg, s1, env.diskToken);
    Wait(s2, env.proactive.repliedAt, env.bypass.now);
    FetchPhaseHolding(cfg, s2, env);
    var s3 := FetchPhase(cfg, s2, env).s;
    QuietHolding(s3, s3.Emit(Store(FromApi, env.inserted)), Store(FromApi, env.inserted), env.bypass.repliedAt);
  }

  /** The clock never runs backwards over the polls of a run that starts at time t. */
  predicate ClockRunsThrough(t: int, inputs: seq<Input>)
    decreases |inputs|
  {
    inputs == [] ||
    match inputs[0]
    case Tick(env) => ClockRuns(t, env) && ClockRunsThrough(env.bypass.repliedAt, inputs[1..])
    case Foreign(_, _) => ClockRunsThrough(t, inputs[1..])
  }

  /** Over every run all requests are permitted, and the observer's bound is the agent's own resume time. */
  lemma {:induction false} RunPermitted(cfg: Config, s: Agent, t: int, inputs: seq<Input>)
    requires Holding(s, t) && ClockRunsThrough(t, inputs)
    ensures AllPermitted(Run(cfg, s, inputs).log)
    ensures var s' := Run(cfg, s, inputs); s'.rateLimitPaused ==> s'.resumeAt.Some? && NotBefore(s'.log) == s'.resumeAt
    decreases |inputs|
  {
    hide Poll;
    if inputs != [] {
      match inputs[0] {
        case Tick(env) =>
          PollHolding(cfg, s, t, env);
          RunPermitted(cfg, Poll(cfg, s, env), env.bypass.repliedAt, inputs[1..]);
        case Foreign(access, refresh) =>
          Snoc(s.log, ForeignWrite(access, refresh));
          RunPermitted(cfg, Step(cfg, s, inputs[0]), t, inputs[1..]);
      }
    }
  }

  /** The observer's bound or the latest request is past the given time. */
  predicate Past(log: seq<Event>, until: int) {
    !UpTo(NotBefore(log), until - 1) || !UpTo(Latest(log), until - 1)
  }

  lemma PastStays(log: seq<Event>, e: Event, until: int)
    requires AllPermitted(log) && Permitted(log, e) && Past(log, until) && !IsDiskChange(e)
    requires e.Backoff? ==> Past(log[..|log| - 1], until) && Permitted(log[..|log| - 1], log[|log| - 1])
    ensures Past(log + [e], until)
  {
    hide AllPermitted, NotBefore, Latest, JustChecked;
    Snoc(log, e);
    if e.Backoff? {
      assert log == log[..|log| - 1] + [log[|log| - 1]];
      Snoc(log[..|log| - 1], log[|log| - 1]);
    }
  }

  lemma SetsBound(log: seq<Event>, e: Event)
    requires e.Backoff?
    ensures Past(log + [e], e.until)
  {
    hide AllPermitted, Latest, JustChecked;
    Snoc(log, e);
  }

  lemma BackoffAnswers(before: seq<Event>, e: Event)
    requires Permitted(before, e) && e.Backoff?
    ensures before != [] && before[|before| - 1].Refresh?
  {
  }

  /** Once a backoff is set, the observer's bound or the latest request is past its end, until the disk changes. */
  lemma {:induction false} RestrictionStays(log: seq<Event>, b: Event, rest: seq<Event>)
    requires AllPermitted(log + [b] + rest) && b.Backoff?
    requires forall k | 0 <= k < |rest| :: !IsDiskChange(rest[k])
    ensures Past(log + [b] + rest, b.until)
    ensures rest != [] ==> Past(log + [b] + rest[..|rest| - 1], b.until)
    decreases |rest|
  {
    hide AllPermitted, NotBefore, Latest, Permitted, Past, IsDiskChange;
    if rest == [] {
      SetsBound(log, b);
      assert log + [b] + [] == log + [b];
    } else {
      var init, e := rest[..|rest| - 1], rest[|rest| - 1];
      var before := log + [b] + init;
      assert log + [b] + rest == before + [e];
      SplitPermitted(before, e);
      RestrictionStays(log, b, init);
      if e.Backoff? {
        BackoffAnswers(before, e);
        assert init != [] by { assert before[|before| - 1].Refresh?; }
        var before2, e2 := log + [b] + init[..|init| - 1], init[|init| - 1];
        assert before == before2 + [e2] && before[..|before| - 1] == before2;
        SplitPermitted(before2, e2);
      }
      assert !IsDiskChange(e);
      PastStays(before, e, b.until);
    }
  }

  lemma SplitPermitted(log: seq<Event>, e: Event)
    requires AllPermitted(log + [e])
    ensures AllPermitted(log) && Permitted(log, e)
  {
    PrefixPermitted(log + [e], |log|);
    assert (log + [e])[..|log|] == log;
    hide AllPermitted, Permitted;
  }

  lemma PrefixPermitted(log: seq<Event>, j: nat)
    requires AllPermitted(log) && j < |log|
    ensures AllPermitted(log[..j]) && Permitted(log[..j], log[j])
  {
    hide Permitted;
    assert forall k | 0 <= k < j :: log[..j][..k] == log[..k];
  }

  /**
    A backoff is honoured to its end: no refresh request is sent before, unless a changed token was read
    from disk in between. This covers Retry-After, the exponential backoff and repeated failures alike.
   */
  lemma BackoffIsHonoured(cfg: Config, token: string, t: int, inputs: seq<Input>, i: nat, j: nat)
    requires ClockRunsThrough(t, inputs)
    requires var log := Run(cfg, Initial(token), inputs).log;
             && i < j < |log| && log[i].Backoff? && log[j].Refresh?
             && forall k | i < k < j :: !IsDiskChange(log[k])
    ensures var log := Run(cfg, Initial(token), inputs).log;
            log[j].sentAt >= log[i].until
  {
    var log := Run(cfg, Initial(token), inputs).log;
    RunPermitted(cfg, Initial(token), t, inputs);
    LogHonours(log, i, j);
    hide Run, AllPermitted, IsDiskChange;
  }

  lemma LogHonours(log: seq<Event>, i: nat, j: nat)
    requires AllPermitted(log) && i < j < |log| && log[i].Backoff? && log[j].Refresh?
    requires forall k | i < k < j :: !IsDiskChange(log[k])
    ensures log[j].sentAt >= log[i].until
  {
    PrefixPermitted(log, j);
    hide AllPermitted, NotBefore, Latest, JustChecked, IsDiskChange;
    var rest := log[i + 1..j];
    assert log[..j] == log[..i] + [log[i]] + rest;
    assert forall k | 0 <= k < |rest| :: rest[k] == log[i + 1 + k];
    RestrictionStays(log[..i], log[i], rest);
  }

  /**
    After the OAuth server answered 429 a backoff follows at once, of the length of its Retry-After or
    else between 5 minutes and 6 hours, and no refresh request is sent before its end, unless the disk changed.
   */
  lemma RetryAfterIsHonoured(cfg: Config, token: string, t: int, inputs: seq<Input>, i: nat, j: nat)
    requires ClockRunsThrough(t, inputs)
    requires var log := Run(cfg, Initial(token), inputs).log;
             && i < j < |log| && log[i].Refresh? && log[i].reply.RateLimited? && log[j].Refresh?
             && forall k | i < k < j :: !IsDiskChange(log[k])
    ensures var log := Run(cfg, Initial(token), inputs).log;
            var (d, b) := (log[i].reply.retryAfter, log[i + 1]);
            && b.Backoff? && b.setAt == log[i].repliedAt
            && (if d > 0 then b.until == b.setAt + d else b.setAt + BASE_BACKOFF <= b.until <= b.setAt + MAX_BACKOFF)
            && log[j].sentAt >= b.until
  {
    var log := Run(cfg, Initial(token), inputs).log;
    RunPermitted(cfg, Initial(token), t, inputs);
    assert Permitted(log[..i + 1], log[i + 1]);
    BackoffIsHonoured(cfg, token, t, inputs, i + 1, j);
  }

  /** A refresh request directly follows a check that found Claude Code not running, but for reading the credentials. */
  lemma ClaudeIsCheckedFirst(cfg: Config, token: string, t: int, inputs: seq<Input>, i: nat)
    requires ClockRunsThrough(t, inputs)
    requires i < |Run(cfg, Initial(token), inputs).log| && Run(cfg, Initial(token), inputs).log[i].Refresh?
    ensures var log := Run(cfg, Initial(token), inputs).log;
            i >= 1 && (log[i - 1] == ClaudeCheck(false)
                       || (i >= 2 && log[i - 1].ReadCreds? && log[i - 2] == ClaudeCheck(false)))
  {
    RunPermitted(cfg, Initial(token), t, inputs);
    var log := Run(cfg, Initial(token), inputs).log;
    assert Permitted(log[..i], log[i]);
  }

  /** Every backoff the agent chose itself lasts between 5 minutes and 6 hours. */
  lemma OwnBackoffsAreBounded(cfg: Config, token: string, t: int, inputs: seq<Input>, i: nat)
    requires ClockRunsThrough(t, inputs)
    requires i < |Run(cfg, Initial(token), inputs).log|
    ensures var e := Run(cfg, Initial(token), inputs).log[i];
            e.Backoff? && !e.serverGiven ==> e.setAt + BASE_BACKOFF <= e.until <= e.setAt + MAX_BACKOFF
  {
    RunPermitted(cfg, Initial(token), t, inputs);
    var log := Run(cfg, Initial(token), inputs).log;
    assert Permitted(log[..i], log[i]);
  }
}
