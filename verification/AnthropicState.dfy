/**
  What holds of the agent's fields in every reachable state. The auth fields turn out to be a
  function of the observable history alone: AuthMonitor recomputes them from the log.
 */
module AnthropicState {
  import opened Common
  import opened AnthropicPoll

  predicate Invariant(s: Agent) {
    && s.authFailCount <= MAX_AUTH_FAILURES
    && (s.authPaused <==> s.authFailCount == MAX_AUTH_FAILURES)
    && (!s.authPaused ==> s.lastFailedToken == "")
    && (s.authPaused ==> s.lastFailedToken == s.lastToken)
    && (s.lastToken != "" ==> s.clientToken == s.lastToken)
    && (s.rateLimitPaused ==> s.resumeAt.Some?)
  }

  /** The auth bookkeeping an observer of the log would do. streak counts refused retries. */
  datatype AuthMonitor = AuthMonitor(blocked: bool, streak: nat)

  function Observe(m: AuthMonitor, e: Event): AuthMonitor {
    match e
    case Refresh(_, _, InvalidGrant, _) => AuthMonitor(true, MAX_AUTH_FAILURES)
    case Fetch(_, Retry, UsageUnauthorized) => AuthMonitor(m.streak + 1 >= MAX_AUTH_FAILURES, m.streak + 1)
    case Fetch(_, Retry, UsageOk) => m.(streak := 0)
    case Fetch(_, Direct, UsageOk) => m.(streak := 0)
    case Install(_, DiskChange) => if m.blocked then AuthMonitor(false, 0) else m
    case Install(_, Grant) => if m.blocked then AuthMonitor(false, 0) else m
    case _ => m
  }

  function Monitor(log: seq<Event>): AuthMonitor {
    if log == [] then AuthMonitor(false, 0) else Observe(Monitor(log[..|log| - 1]), log[|log| - 1])
  }

  /** No usage request was sent while the observer had the agent blocked. */
  predicate NoFetchWhileBlocked(log: seq<Event>) {
    forall i | 0 <= i < |log| && log[i].Fetch? :: !Monitor(log[..i]).blocked
  }

  /** A fetch of this poll was refused, and the token was read again at most. */
  predicate AwaitsRetry(log: seq<Event>) {
    log != [] &&
    var e := log[|log| - 1];
    || (e.Fetch? && e.kind == Direct && e.usage == UsageUnauthorized)
    || (e.Install? && e.origin == Reread && AwaitsRetry(log[..|log| - 1]))
  }

  /** A retry follows a refused fetch. */
  predicate RetriesFollow(log: seq<Event>) {
    forall i | 0 <= i < |log| && log[i].Fetch? && log[i].kind == Retry :: AwaitsRetry(log[..i])
  }

  predicate Tracked(s: Agent) {
    && Invariant(s)
    && Monitor(s.log) == AuthMonitor(s.authPaused, s.authFailCount)
    && NoFetchWhileBlocked(s.log) && RetriesFollow(s.log)
  }

  lemma Snoc(log: seq<Event>, e: Event)
    ensures Monitor(log + [e]) == Observe(Monitor(log), e)
    ensures NoFetchWhileBlocked(log) && (e.Fetch? ==> !Monitor(log).blocked) ==> NoFetchWhileBlocked(log + [e])
    ensures RetriesFollow(log) && (e.Fetch? && e.kind == Retry ==> AwaitsRetry(log)) ==> RetriesFollow(log + [e])
  {
    assert (log + [e])[..|log|] == log;
    if RetriesFollow(log) && (e.Fetch? && e.kind == Retry ==> AwaitsRetry(log)) {
      forall i | 0 <= i < |log + [e]| && (log + [e])[i].Fetch? && (log + [e])[i].kind == Retry
        ensures AwaitsRetry((log + [e])[..i])
      {
        assert (log + [e])[..i] == if i < |log| then log[..i] else log;
      }
    }
    if NoFetchWhileBlocked(log) && (e.Fetch? ==> !Monitor(log).blocked) {
      forall i | 0 <= i < |log + [e]| && (log + [e])[i].Fetch?
        ensures !Monitor((log + [e])[..i]).blocked
      {
        assert (log + [e])[..i] == if i < |log| then log[..i] else log;
      }
    }
  }

  lemma SetTokenTracked(s: Agent, token: string, origin: Origin)
    ensures var s' := s.SetToken(token, origin);
            Monitor(s'.log) == Observe(Monitor(s.log), Install(token, origin))
            && (NoFetchWhileBlocked(s.log) ==> NoFetchWhileBlocked(s'.log))
            && (RetriesFollow(s.log) ==> RetriesFollow(s'.log))
  {
    hide NoFetchWhileBlocked, RetriesFollow, Monitor, RateLimitBackoff;
    Snoc(s.log, Install(token, origin));
  }

  lemma OnRateLimitedTracked(s: Agent, retryAfter: nat, now: int)
    requires Tracked(s)
    ensures Tracked(OnRateLimited(s, retryAfter, now))
  {
    hide NoFetchWhileBlocked, RetriesFollow, Monitor, RateLimitBackoff;
    var d: int := if retryAfter > 0 then retryAfter else RateLimitBackoff(s.rateLimitFailCount + 1);
    Snoc(s.log, Backoff(now, now + d, retryAfter > 0));
  }

  lemma ProactiveSettleTracked(s: Agent, x: Exchange, token: string)
    requires Tracked(s)
    ensures Tracked(ProactiveSettle(s.Emit(Refresh(token, x.now, x.reply, x.repliedAt)), x))
  {
    hide NoFetchWhileBlocked, RetriesFollow, Monitor, RateLimitBackoff;
    var e := Refresh(token, x.now, x.reply, x.repliedAt);
    Snoc(s.log, e);
    match x.reply
    case RateLimited(d) => OnRateLimitedTracked(s.Emit(e), d, x.repliedAt);
    case InvalidGrant =>
    case RefreshFailed(_) =>
    case Granted(access, refresh) =>
      var s1 := s.Emit(e).LiftBackoff();
      Snoc(s1.log, Save(access, refresh, x.saved));
      SetTokenTracked(s1.Emit(Save(access, refresh, x.saved)), access, Grant);
  }

  lemma ProactivePhaseTracked(cfg: Config, s: Agent, x: Exchange)
    requires Tracked(s)
    ensures Tracked(ProactivePhase(cfg, s, x))
  {
    hide ProactiveSettle, NoFetchWhileBlocked, RetriesFollow, Monitor;
    var s1 := s.Emit(ReadCreds(x.creds));
    Snoc(s.log, ReadCreds(x.creds));
    Snoc(s1.log, ClaudeCheck(x.claudeRunning));
    if x.creds.Some? {
      ProactiveSettleTracked(s1.Emit(ClaudeCheck(x.claudeRunning)), x, x.creds.value.refresh);
    }
  }

  lemma RereadPhaseTracked(cfg: Config, s: Agent, token: string)
    requires Tracked(s)
    ensures Tracked(RereadPhase(cfg, s, token))
  {
    hide NoFetchWhileBlocked, RetriesFollow, Monitor, RateLimitBackoff;
    SetTokenTracked(s, token, DiskChange);
  }

  lemma BypassSettleTracked(s: Agent, x: Exchange, token: string, usage: UsageReply)
    requires Tracked(s) && !s.authPaused
    ensures Tracked(BypassSettle(s.Emit(Refresh(token, x.now, x.reply, x.repliedAt)), x, usage).s)
  {
    hide NoFetchWhileBlocked, RetriesFollow, Monitor, RateLimitBackoff;
    var e := Refresh(token, x.now, x.reply, x.repliedAt);
    Snoc(s.log, e);
    match x.reply
    case RateLimited(d) => OnRateLimitedTracked(s.Emit(e), d, x.repliedAt);
    case InvalidGrant =>
    case RefreshFailed(_) =>
      Snoc(s.Emit(e).log, Backoff(x.repliedAt, x.repliedAt + RateLimitBackoff(s.rateLimitFailCount + 1), false));
    case Granted(access, refresh) =>
      var s1 := s.Emit(e).LiftBackoff();
      Snoc(s1.log, Save(access, refresh, x.saved));
      var s2 := s1.Emit(Save(access, refresh, x.saved));
      SetTokenTracked(s2, access, Grant);
      Snoc(s2.SetToken(access, Grant).log, Fetch(access, Bypass, usage));
  }

  lemma BypassPhaseTracked(cfg: Config, s: Agent, x: Exchange, usage: UsageReply)
    requires Tracked(s) && !s.authPaused
    ensures Tracked(BypassPhase(cfg, s, x, usage).s)
  {
    hide BypassSettle, NoFetchWhileBlocked, RetriesFollow, Monitor;
    var s1 := ExpireBackoff(s);
    Snoc(s1.log, ClaudeCheck(x.claudeRunning));
    var s2 := s1.Emit(ClaudeCheck(x.claudeRunning));
    Snoc(s2.log, ReadCreds(x.creds));
    if x.creds.Some? {
      BypassSettleTracked(s2.Emit(ReadCreds(x.creds)), x, x.creds.value.refresh, usage);
    }
  }

  lemma AwaitsReread(log: seq<Event>, token: string)
    requires AwaitsRetry(log)
    ensures AwaitsRetry(log + [Install(token, Reread)])
  {
    assert (log + [Install(token, Reread)])[..|log|] == log;
  }

  lemma AuthRetryPhaseTracked(cfg: Config, s: Agent, token: string, usage: UsageReply)
    requires Tracked(s) && !s.authPaused && AwaitsRetry(s.log)
    ensures Tracked(AuthRetryPhase(cfg, s, token, usage).s)
  {
    hide NoFetchWhileBlocked, RetriesFollow, Monitor, RateLimitBackoff;
    var s1 := s.(lastToken := "");
    SetTokenTracked(s1, token, Reread);
    AwaitsReread(s.log, token);
    Snoc(s1.SetToken(token, Reread).log, Fetch(token, Retry, usage));
  }

  lemma FetchPhaseTracked(cfg: Config, s: Agent, env: PollEnv)
    requires Tracked(s)
    ensures Tracked(FetchPhase(cfg, s, env).s)
  {
    hide BypassPhase, AuthRetryPhase, NoFetchWhileBlocked, RetriesFollow, Monitor;
    if !s.authPaused {
      var e := Fetch(s.clientToken, Direct, env.usage);
      Snoc(s.log, e);
      if env.usage != UsageOk {
        BypassPhaseTracked(cfg, s.Emit(e), env.bypass, env.bypassUsage);
        if env.usage == UsageUnauthorized {
          AuthRetryPhaseTracked(cfg, s.Emit(e), env.retryToken, env.retryUsage);
        }
      }
    }
  }

  lemma PollTracked(cfg: Config, s: Agent, env: PollEnv)
    requires Tracked(s)
    ensures Tracked(Poll(cfg, s, env))
  {
    hide ProactivePhase, RereadPhase, FetchPhase, NoFetchWhileBlocked, RetriesFollow, Monitor;
    Snoc(s.log, Store(FromStatusline, true));
    Snoc(s.log, Store(FromStatusline, false));
    Snoc(s.log + [Store(FromStatusline, true)], Hybrid);
    var start := StatuslinePhase(cfg, s, env.statusline).s;
    assert Tracked(start);
    ProactivePhaseTracked(cfg, start, env.proactive);
    var s1 := ProactivePhase(cfg, start, env.proactive);
    RereadPhaseTracked(cfg, s1, env.diskToken);
    var s2 := RereadPhase(cfg, s1, env.diskToken);
    FetchPhaseTracked(cfg, s2, env);
    Snoc(FetchPhase(cfg, s2, env).s.log, Store(FromApi, env.inserted));
  }

  /** Every state of every run satisfies the invariant, and its auth fields are those the observer computed. */
  lemma {:induction false} RunTracked(cfg: Config, s: Agent, inputs: seq<Input>)
    requires Tracked(s)
    ensures Tracked(Run(cfg, s, inputs))
    decreases |inputs|
  {
    hide Poll;
    if inputs != [] {
      match inputs[0] {
        case Tick(env) => PollTracked(cfg, s, env);
        case Foreign(access, refresh) => Snoc(s.log, ForeignWrite(access, refresh));
      }
      RunTracked(cfg, Step(cfg, s, inputs[0]), inputs[1..]);
    }
  }

  lemma Reachable(cfg: Config, token: string, inputs: seq<Input>)
    ensures Tracked(Run(cfg, Initial(token), inputs))
  {
    RunTracked(cfg, Initial(token), inputs);
  }

  /** In a reachable state, any disk token the agent does not hold yet lifts the pause, and only such a token does. */
  lemma DiskTokenLiftsPause(cfg: Config, token: string, inputs: seq<Input>, diskToken: string)
    requires cfg.tokenRefresh
    ensures var s := Run(cfg, Initial(token), inputs);
            s.authPaused ==> (!RereadPhase(cfg, s, diskToken).authPaused <==> diskToken != "" && diskToken != s.lastToken)
  {
    Reachable(cfg, token, inputs);
  }

  // authFailCount is documented as a count of consecutive auth failures (401 or 403). Three things make it
  // something else: a refused fetch counts only once its retry was refused too; a fetch that succeeds through
  // the 429 bypass does not reset the count; and an invalid_grant answer sets it to the maximum by itself.

  /** The event ends a pause: new credentials start a new count. */
  predicate Lifts(before: seq<Event>, e: Event) {
    Monitor(before).blocked && e.Install? && e.origin != Reread
  }

  /** A fetch succeeded, or new credentials ended a pause: what is counted starts again. */
  predicate Resets(before: seq<Event>, e: Event) {
    Lifts(before, e) || (e.Fetch? && e.usage == UsageOk)
  }

  /** A usage request of a poll was refused. Its retry within the same poll is no further failure. */
  predicate RefusedFetch(e: Event) {
    e.Fetch? && e.kind != Retry && e.usage == UsageUnauthorized
  }

  predicate RefusedRetry(e: Event) {
    e.Fetch? && e.kind == Retry && e.usage == UsageUnauthorized
  }

  /** Consecutive auth failures: fetches refused with 401 or 403 since the last reset. */
  function Consecutive(log: seq<Event>): nat {
    if log == [] then 0
    else
      var before, e := log[..|log| - 1], log[|log| - 1];
      if Resets(before, e) then 0 else Consecutive(before) + if RefusedFetch(e) then 1 else 0
  }

  /** Those of them that no refused retry followed: there was no token to retry with, or the retry failed otherwise. */
  function Unretried(log: seq<Event>): int {
    if log == [] then 0
    else
      var before, e := log[..|log| - 1], log[|log| - 1];
      if Resets(before, e) then 0
      else Unretried(before) + (if RefusedFetch(e) then 1 else 0) - (if RefusedRetry(e) then 1 else 0)
  }

  /** What the count holds beyond refusals: the failures a bypassed success left in it, and what invalid_grant added. */
  function Surplus(log: seq<Event>): int {
    if log == [] then 0
    else
      var before, e := log[..|log| - 1], log[|log| - 1];
      if e.Fetch? && e.usage == UsageOk then if e.kind == Bypass then Monitor(before).streak else 0
      else if Lifts(before, e) then 0
      else if e.Refresh? && e.reply.InvalidGrant? then Surplus(before) + MAX_AUTH_FAILURES - Monitor(before).streak
      else Surplus(before)
  }

  /** A fetch through the 429 bypass succeeded while failures were pending, and nothing reset the count since. */
  predicate BypassedWhileFailing(log: seq<Event>) {
    log != [] &&
    var before, e := log[..|log| - 1], log[|log| - 1];
    if e.Fetch? && e.usage == UsageOk then e.kind == Bypass && Monitor(before).streak > 0
    else !Lifts(before, e) && BypassedWhileFailing(before)
  }

  /** An invalid_grant answer paused the agent, and nothing ended the pause since. */
  predicate PausedByInvalidGrant(log: seq<Event>) {
    log != [] &&
    var before, e := log[..|log| - 1], log[|log| - 1];
    if e.Refresh? && e.reply.InvalidGrant? then !Monitor(before).blocked || PausedByInvalidGrant(before)
    else !Lifts(before, e) && PausedByInvalidGrant(before)
  }

  lemma CountSnoc(log: seq<Event>, e: Event)
    ensures Consecutive(log + [e])
         == if Resets(log, e) then 0 else Consecutive(log) + if RefusedFetch(e) then 1 else 0
    ensures Unretried(log + [e])
         == if Resets(log, e) then 0
            else Unretried(log) + (if RefusedFetch(e) then 1 else 0) - (if RefusedRetry(e) then 1 else 0)
    ensures Surplus(log + [e])
         == if e.Fetch? && e.usage == UsageOk then if e.kind == Bypass then Monitor(log).streak else 0
            else if Lifts(log, e) then 0
            else if e.Refresh? && e.reply.InvalidGrant? then Surplus(log) + MAX_AUTH_FAILURES - Monitor(log).streak
            else Surplus(log)
  {
    assert (log + [e])[..|log|] == log;
  }

  lemma CauseSnoc(log: seq<Event>, e: Event)
    ensures BypassedWhileFailing(log + [e])
       <==> if e.Fetch? && e.usage == UsageOk then e.kind == Bypass && Monitor(log).streak > 0
            else !Lifts(log, e) && BypassedWhileFailing(log)
    ensures PausedByInvalidGrant(log + [e])
       <==> if e.Refresh? && e.reply.InvalidGrant? then !Monitor(log).blocked || PausedByInvalidGrant(log)
            else !Lifts(log, e) && PausedByInvalidGrant(log)
  {
    assert (log + [e])[..|log|] == log;
  }

  /** The count is the consecutive failures, less those not retried, plus the surplus of the two other causes. */
  predicate Accounted(log: seq<Event>) {
    var m := Monitor(log);
    && m.streak == Consecutive(log) - Unretried(log) + Surplus(log)
    && 0 <= Surplus(log) <= m.streak <= MAX_AUTH_FAILURES && (m.blocked <==> m.streak == MAX_AUTH_FAILURES)
    && (PausedByInvalidGrant(log) ==> m.blocked)
    && (Surplus(log) > 0 <==> BypassedWhileFailing(log) || PausedByInvalidGrant(log))
  }

  lemma AccountedSnoc(log: seq<Event>, e: Event)
    requires Accounted(log) && (e.Fetch? ==> !Monitor(log).blocked)
    ensures Accounted(log + [e])
  {
    Snoc(log, e);
    CountSnoc(log, e);
    CauseSnoc(log, e);
    hide Monitor, Consecutive, Unretried, Surplus, BypassedWhileFailing, PausedByInvalidGrant, NoFetchWhileBlocked;
  }

  lemma {:induction false} IsAccounted(log: seq<Event>)
    requires NoFetchWhileBlocked(log)
    ensures Accounted(log)
  {
    if log != [] {
      var n := |log| - 1;
      var before, e := log[..n], log[n];
      assert log == before + [e];
      assert forall i | 0 <= i < n :: before[..i] == log[..i];
      assert e.Fetch? ==> !Monitor(before).blocked;
      IsAccounted(before);
      hide Accounted, NoFetchWhileBlocked;
      AccountedSnoc(before, e);
    }
  }

  /** Each refused retry follows the refused fetch of its poll, so the unretried ones are indeed a number of fetches. */
  lemma {:induction false} UnretriedAreFetches(log: seq<Event>)
    requires RetriesFollow(log)
    ensures 0 <= Unretried(log) <= Consecutive(log)
    ensures AwaitsRetry(log) ==> Unretried(log) > 0
  {
    if log != [] {
      var n := |log| - 1;
      var before, e := log[..n], log[n];
      assert log == before + [e];
      assert forall i | 0 <= i < n :: before[..i] == log[..i];
      assert e.Fetch? && e.kind == Retry ==> AwaitsRetry(before);
      UnretriedAreFetches(before);
      CountSnoc(before, e);
      AwaitsSnoc(before, e);
      hide Consecutive, Unretried, Surplus, RetriesFollow;
    }
  }

  lemma AwaitsSnoc(log: seq<Event>, e: Event)
    ensures AwaitsRetry(log + [e]) ==> RefusedFetch(e) || (e.Install? && e.origin == Reread && AwaitsRetry(log))
  {
    assert (log + [e])[..|log|] == log;
  }

  /**
    In every reachable state the field is the number of consecutive auth failures exactly if the failures without a
    refused retry balance the surplus; there is a surplus exactly if a fetch succeeded through the bypass with
    failures pending, or invalid_grant paused polling, and nothing reset the count since.
   */
  lemma CountsConsecutiveFailures(cfg: Config, token: string, inputs: seq<Input>)
    ensures var s := Run(cfg, Initial(token), inputs);
            && s.authFailCount == Consecutive(s.log) - Unretried(s.log) + Surplus(s.log)
            && 0 <= Unretried(s.log) <= Consecutive(s.log) && 0 <= Surplus(s.log)
            && (s.authFailCount == Consecutive(s.log) <==> Unretried(s.log) == Surplus(s.log))
            && (Surplus(s.log) > 0 <==> BypassedWhileFailing(s.log) || PausedByInvalidGrant(s.log))
  {
    Reachable(cfg, token, inputs);
    IsAccounted(Run(cfg, Initial(token), inputs).log);
    UnretriedAreFetches(Run(cfg, Initial(token), inputs).log);
  }

  const CFG := Config(true, true, false, 0)
  const NO_EXCHANGE := Exchange(None, false, 0, RefreshFailed(None), 0, true)
  const REFUSED := PollEnv(true, Unusable, NO_EXCHANGE, "", UsageUnauthorized, NO_EXCHANGE, UsageOk,
                           "t", UsageUnauthorized, true)
  const BYPASSED := REFUSED.(usage := UsageRateLimited,
                             bypass := Exchange(Some(Creds("t", "r", None)), false, 0, Granted("u", "q"), 0, true))

  lemma RefusedPoll(s: Agent)
    requires !s.authPaused && s.lastFailedToken == ""
    ensures var s' := Poll(CFG, s, REFUSED);
            s'.authFailCount == s.authFailCount + 1 && s'.authPaused == (s.authFailCount + 1 >= MAX_AUTH_FAILURES)
            && (!s'.authPaused ==> s'.lastFailedToken == "") && s'.rateLimitPaused == s.rateLimitPaused
            && Consecutive(s'.log) == Consecutive(s.log) + 1
  {
    var l1 := s.log + [ReadCreds(None)];
    var l2 := l1 + [Fetch(s.clientToken, Direct, UsageUnauthorized)];
    var l3 := l2 + [Install("t", Reread)];
    var l4 := l3 + [Fetch("t", Retry, UsageUnauthorized)];
    CountSnoc(s.log, ReadCreds(None));
    CountSnoc(l1, Fetch(s.clientToken, Direct, UsageUnauthorized));
    CountSnoc(l2, Install("t", Reread));
    CountSnoc(l3, Fetch("t", Retry, UsageUnauthorized));
    hide Consecutive, Unretried, Surplus, Monitor;
    assert Poll(CFG, s, REFUSED).log == l4;
  }

  lemma BypassedPoll(s: Agent)
    requires !s.authPaused && !s.rateLimitPaused && s.lastFailedToken == ""
    ensures var s' := Poll(CFG, s, BYPASSED);
            s'.authFailCount == s.authFailCount && !s'.authPaused && s'.lastFailedToken == ""
            && Consecutive(s'.log) == 0
  {
    var log := Poll(CFG, s, BYPASSED).log;
    var before := log[..|log| - 1];
    assert log[|log| - 1] == Store(FromApi, true) && before[|before| - 1] == Fetch("u", Bypass, UsageOk);
    assert Consecutive(before) == 0;
  }

  /** A run in which the third refusal pauses polling although a fetch succeeded after the second. */
  lemma PausedWithoutThreeInARow()
    ensures exists cfg, inputs ::
              var s := Run(cfg, Initial("t"), inputs);
              s.authPaused && Consecutive(s.log) == 1
  {
    hide Poll;
    var s0 := Initial("t");
    var s1 := Poll(CFG, s0, REFUSED);
    var s2 := Poll(CFG, s1, REFUSED);
    var s3 := Poll(CFG, s2, BYPASSED);
    var s4 := Poll(CFG, s3, REFUSED);
    RefusedPoll(s0); RefusedPoll(s1); BypassedPoll(s2); RefusedPoll(s3);
    var inputs := [Tick(REFUSED), Tick(REFUSED), Tick(BYPASSED), Tick(REFUSED)];
    assert Run(CFG, s4, inputs[4..]) == s4;
    assert Run(CFG, s3, inputs[3..]) == s4 by { assert inputs[3..][1..] == inputs[4..]; }
    assert Run(CFG, s2, inputs[2..]) == s4 by { assert inputs[2..][1..] == inputs[3..]; }
    assert Run(CFG, s1, inputs[1..]) == s4 by { assert inputs[1..][1..] == inputs[2..]; }
    assert Run(CFG, s0, inputs) == s4;
  }

  const INVALID := REFUSED.(usage := UsageOk,
                            proactive := Exchange(Some(Creds("t", "r", Some(0))), false, 0, InvalidGrant, 0, true))

  const INVALID_LOG := [ReadCreds(INVALID.proactive.creds)] + [ClaudeCheck(false)] + [Refresh("r", 0, InvalidGrant, 0)]

  lemma InvalidPoll()
    ensures var s := Poll(CFG, Initial("t"), INVALID);
            s.authFailCount == 3 && s.authPaused && s.log == INVALID_LOG
  {
  }

  lemma NoRefusal()
    ensures Consecutive(INVALID_LOG) == 0 && !BypassedWhileFailing(INVALID_LOG)
  {
    var l1 := [ReadCreds(INVALID.proactive.creds)];
    var l2 := l1 + [ClaudeCheck(false)];
    assert l1 == [] + l1;
    CountSnoc([], l1[0]);
    CountSnoc(l1, ClaudeCheck(false));
    CountSnoc(l2, Refresh("r", 0, InvalidGrant, 0));
    CauseSnoc([], l1[0]);
    CauseSnoc(l1, ClaudeCheck(false));
    CauseSnoc(l2, Refresh("r", 0, InvalidGrant, 0));
    hide Monitor;
  }

  /** One poll counts three failures although no fetch was ever refused. */
  lemma PausedWithoutAnyRefusal()
    ensures exists cfg, inputs ::
              var s := Run(cfg, Initial("t"), inputs);
              s.authFailCount == 3 && s.authPaused && Consecutive(s.log) == 0 && !BypassedWhileFailing(s.log)
  {
    InvalidPoll();
    NoRefusal();
    hide Poll, Consecutive, BypassedWhileFailing;
    var s := Poll(CFG, Initial("t"), INVALID);
    assert Run(CFG, Initial("t"), [Tick(INVALID)]) == Run(CFG, s, [Tick(INVALID)][1..]) == s;
  }

  /** A poll that is refused and finds no token to retry with. */
  const UNRETRIED := REFUSED.(retryToken := "")

  lemma UnretriedPoll(s: Agent)
    requires !s.authPaused && s.lastFailedToken == ""
    ensures var s' := Poll(CFG, s, UNRETRIED);
            && s'.authFailCount == s.authFailCount && !s'.authPaused && s'.lastFailedToken == ""
            && Consecutive(s'.log) == Consecutive(s.log) + 1
  {
    var l1 := s.log + [ReadCreds(None)];
    CountSnoc(s.log, ReadCreds(None));
    CountSnoc(l1, Fetch(s.clientToken, Direct, UsageUnauthorized));
    hide Consecutive, Unretried, Surplus, Monitor;
    assert Poll(CFG, s, UNRETRIED).log == l1 + [Fetch(s.clientToken, Direct, UsageUnauthorized)];
  }

  function Repeated(n: nat): seq<Input> {
    if n == 0 then [] else [Tick(UNRETRIED)] + Repeated(n - 1)
  }

  /** However many polls in a row are refused, without a refused retry none is counted, and polling does not pause. */
  lemma {:induction false} RefusedWithoutPause(s: Agent, n: nat)
    requires !s.authPaused && s.lastFailedToken == ""
    ensures var s' := Run(CFG, s, Repeated(n));
            && s'.authFailCount == s.authFailCount && !s'.authPaused
            && Consecutive(s'.log) == Consecutive(s.log) + n
    decreases n
  {
    hide Poll, Consecutive;
    if n > 0 {
      UnretriedPoll(s);
      assert Repeated(n)[1..] == Repeated(n - 1);
      RefusedWithoutPause(Poll(CFG, s, UNRETRIED), n - 1);
    }
  }
}
