/**
  The agent's fields as a function of the log alone, all nine of them, event by event. What may follow what
  in the log is stated with it: whose token a fetch bears, how long a backoff lasts, when a response is stored.
 */
module AnthropicReplay {
  import opened Common
  import opened AnthropicPoll
  import opened AnthropicBackoff

  /** The fields of the agent, without its log. */
  datatype Fields = Fields(clientToken: string, lastToken: string,
                           authFailCount: nat, authPaused: bool, lastFailedToken: string,
                           rateLimitFailCount: nat, rateLimitPaused: bool, resumeAt: Option<int>,
                           pollCycleCount: nat)
  {
    function Decay(): Fields {
      this.(rateLimitFailCount := if rateLimitFailCount > 0 then rateLimitFailCount - 1 else 0)
    }
  }

  function FieldsOf(s: Agent): Fields {
    Fields(s.clientToken, s.lastToken, s.authFailCount, s.authPaused, s.lastFailedToken,
           s.rateLimitFailCount, s.rateLimitPaused, s.resumeAt, s.pollCycleCount)
  }

  function Last(log: seq<Event>): Option<Event> {
    if log == [] then None else Some(log[|log| - 1])
  }

  function Previous(log: seq<Event>): Option<Event> {
    if |log| < 2 then None else Some(log[|log| - 2])
  }

  /** The exchange of the 429 branch failed for a passing reason. */
  predicate BypassFailed(previous: Option<Event>, last: Option<Event>) {
    && last.Some? && last.value.Refresh? && last.value.reply.RefreshFailed?
    && previous.Some? && previous.value.ReadCreds?
  }

  predicate Succeeded(e: Option<Event>) {
    e.Some? && e.value.Fetch? && e.value.usage == UsageOk
  }

  /** A new token ends a pause, unless it is the failed one read back from disk, and a changed one a backoff. */
  function AfterInstall(f: Fields, token: string, origin: Origin): Fields {
    var ends := f.authPaused && (origin == Grant || (origin == DiskChange && token != f.lastFailedToken));
    var f := f.(clientToken := token, lastToken := token);
    var f := if ends then f.(authPaused := false, authFailCount := 0, lastFailedToken := "") else f;
    if origin == DiskChange && f.rateLimitPaused then f.(rateLimitPaused := false, rateLimitFailCount := 0, resumeAt := None) else f
  }

  /** A transient failure counts only in the 429 branch, where the credentials are read last. */
  function AfterRefresh(f: Fields, previous: Option<Event>, reply: RefreshReply): Fields {
    match reply
    case Granted(_, _) => f.(rateLimitPaused := false, rateLimitFailCount := 0, resumeAt := None)
    case RateLimited(_) => f.(rateLimitFailCount := f.rateLimitFailCount + 1)
    case InvalidGrant => f.(authPaused := true, authFailCount := 3, lastFailedToken := f.lastToken)
    case RefreshFailed(_) =>
      if previous.Some? && previous.value.ReadCreds? then f.(rateLimitFailCount := f.rateLimitFailCount + 1) else f
  }

  function AfterFetch(cfg: Config, f: Fields, bearer: string, kind: FetchKind, usage: UsageReply): Fields {
    if kind == Direct && usage == UsageOk then f.Decay().(authFailCount := 0)
    else if kind == Direct && usage == UsageUnauthorized && cfg.tokenRefresh then f.(lastToken := "")
    else if kind == Retry && usage == UsageOk then f.(authFailCount := 0)
    else if kind == Retry && usage == UsageUnauthorized then
      var f := f.(authFailCount := f.authFailCount + 1);
      if f.authFailCount >= 3 then f.(authPaused := true, lastFailedToken := bearer) else f
    else f
  }

  function After(cfg: Config, f: Fields, previous: Option<Event>, e: Event): Fields {
    match e
    case Install(token, origin) => AfterInstall(f, token, origin)
    case Refresh(_, _, reply, _) => AfterRefresh(f, previous, reply)
    case Backoff(_, until, _) => f.(rateLimitPaused := true, resumeAt := Some(until))
    case ClaudeCheck(_) =>
      if previous.Some? && previous.value.Fetch? && f.rateLimitPaused then f.Decay().(rateLimitPaused := false) else f
    case Fetch(bearer, kind, usage) => AfterFetch(cfg, f, bearer, kind, usage)
    case Store(source, ok) => if source == FromStatusline && ok then f.Decay().(pollCycleCount := f.pollCycleCount + 1) else f
    case _ => f
  }

  function Replay(cfg: Config, token: string, log: seq<Event>): Fields {
    if log == [] then Fields(token, "", 0, false, "", 0, false, None, 0)
    else
      var before := log[..|log| - 1];
      After(cfg, Replay(cfg, token, before), Last(before), log[|log| - 1])
  }

  /** min(5 min * 2^(n-1), 6 h) */
  function Exponential(n: nat): int
    requires n >= 1
  {
    var d := 5 * 60_000_000_000 * Pow2(n - 1);
    if d > 360 * 60_000_000_000 then 360 * 60_000_000_000 else d
  }

  /** Whether the event may come now, and whether another one had to. */
  predicate DueNow(f: Fields, previous: Option<Event>, last: Option<Event>, e: Event) {
    && (BypassFailed(previous, last) && f.rateLimitFailCount >= 5 ==> e.Backoff?)
    && (Succeeded(last) <==> e.Store? && e.source == FromApi)
    && (last.Some? && last.value.Save? && last.value.ok ==> e == Install(last.value.access, Grant))
    && match e
       case Fetch(bearer, kind, _) =>
         && !f.authPaused && bearer == f.clientToken
         && (kind == Bypass ==> last == Some(Install(bearer, Grant)))
         && (kind == Retry ==> last == Some(Install(bearer, Reread)))
       case Install(access, Grant) => last.Some? && last.value.Save? && last.value.access == access
       case Save(access, refresh, _) =>
         last.Some? && last.value.Refresh? && last.value.reply.Granted?
         && last.value.reply.access == access && last.value.reply.refresh == refresh
       case Backoff(setAt, until, serverGiven) =>
         && (BypassFailed(previous, last) ==> f.rateLimitFailCount >= 5)
         && (!serverGiven ==> f.rateLimitFailCount >= 1 && until == setAt + Exponential(f.rateLimitFailCount))
       case _ => true
  }

  predicate Due(cfg: Config, token: string, log: seq<Event>, e: Event) {
    DueNow(Replay(cfg, token, log), Previous(log), Last(log), e)
  }

  predicate AllDue(cfg: Config, token: string, log: seq<Event>) {
    forall i | 0 <= i < |log| :: Due(cfg, token, log[..i], log[i])
  }

  /** Nothing has to follow: no response waits to be stored, no saved token to be installed, no fifth failure to be waited out. */
  predicate Settled(s: Agent) {
    && !Succeeded(Last(s.log)) && !(Last(s.log).Some? && Last(s.log).value.Save? && Last(s.log).value.ok)
    && (BypassFailed(Previous(s.log), Last(s.log)) ==> s.rateLimitFailCount < 5)
  }

  predicate Replayed(cfg: Config, token: string, s: Agent) {
    FieldsOf(s) == Replay(cfg, token, s.log) && AllDue(cfg, token, s.log)
  }

  lemma Snoc(cfg: Config, token: string, log: seq<Event>, e: Event)
    ensures Replay(cfg, token, log + [e]) == After(cfg, Replay(cfg, token, log), Last(log), e)
    ensures Last(log + [e]) == Some(e)
    ensures AllDue(cfg, token, log) && Due(cfg, token, log, e) ==> AllDue(cfg, token, log + [e])
  {
    assert (log + [e])[..|log|] == log;
    if AllDue(cfg, token, log) && Due(cfg, token, log, e) {
      hide Due, Replay;
      forall i | 0 <= i < |log + [e]| ensures Due(cfg, token, (log + [e])[..i], (log + [e])[i]) {
        assert (log + [e])[..i] == if i < |log| then log[..i] else log;
      }
    }
  }

  /** One event, with the change of fields that the log implies. */
  lemma Step(cfg: Config, token: string, s: Agent, s': Agent, e: Event)
    requires Replayed(cfg, token, s) && DueNow(FieldsOf(s), Previous(s.log), Last(s.log), e)
    requires s'.log == s.log + [e] && FieldsOf(s') == After(cfg, FieldsOf(s), Last(s.log), e)
    ensures Replayed(cfg, token, s') && Last(s'.log) == Some(e) && Previous(s'.log) == Last(s.log)
  {
    hide Replay, AllDue, DueNow, After;
    Snoc(cfg, token, s.log, e);
  }

  lemma BackoffIsExponential(n: nat)
    requires n >= 1
    ensures RateLimitBackoff(n) == Exponential(n)
  {
    BackoffIsExact(n);
    hide Pow2;
  }

  // ----- the phases of a poll -----

  lemma RateLimitedReplayed(cfg: Config, token: string, s: Agent, sent: Event)
    requires Replayed(cfg, token, s) && sent.Refresh? && sent.reply.RateLimited? && DueNow(FieldsOf(s), Previous(s.log), Last(s.log), sent)
    ensures var s' := OnRateLimited(s.Emit(sent), sent.reply.retryAfter, sent.repliedAt);
            Replayed(cfg, token, s') && Settled(s')
  {
    hide Replayed, Exponential, RateLimitBackoff;
    var s1 := s.Emit(sent).(rateLimitFailCount := s.rateLimitFailCount + 1);
    Step(cfg, token, s, s1, sent);
    BackoffIsExponential(s1.rateLimitFailCount);
    var d := sent.reply.retryAfter;
    var e := Backoff(sent.repliedAt, sent.repliedAt + if d > 0 then d else RateLimitBackoff(s1.rateLimitFailCount), d > 0);
    Step(cfg, token, s1, OnRateLimited(s.Emit(sent), d, sent.repliedAt), e);
  }

  lemma ProactiveSettleReplayed(cfg: Config, token: string, s: Agent, x: Exchange, sent: string)
    requires Replayed(cfg, token, s) && Last(s.log) == Some(ClaudeCheck(false))
    ensures var s' := ProactiveSettle(s.Emit(Refresh(sent, x.now, x.reply, x.repliedAt)), x);
            Replayed(cfg, token, s') && Settled(s')
  {
    hide Replayed, Exponential, RateLimitBackoff, OnRateLimited;
    var e := Refresh(sent, x.now, x.reply, x.repliedAt);
    match x.reply
    case RateLimited(d) => RateLimitedReplayed(cfg, token, s, e);
    case InvalidGrant => Step(cfg, token, s, OnInvalidGrant(s.Emit(e)), e);
    case RefreshFailed(_) => Step(cfg, token, s, s.Emit(e), e);
    case Granted(access, refresh) =>
      var s1 := s.Emit(e).LiftBackoff();
      Step(cfg, token, s, s1, e);
      var s2 := s1.Emit(Save(access, refresh, x.saved));
      Step(cfg, token, s1, s2, Save(access, refresh, x.saved));
      if x.saved {
        Step(cfg, token, s2, ProactiveSettle(s.Emit(e), x), Install(access, Grant));
      }
  }

  lemma ProactiveReplayed(cfg: Config, token: string, s: Agent, x: Exchange)
    requires Replayed(cfg, token, s) && Settled(s)
    ensures var s' := ProactivePhase(cfg, s, x); Replayed(cfg, token, s') && Settled(s')
  {
    hide Replayed, ProactiveSettle;
    var read := s.Emit(ReadCreds(x.creds));
    Step(cfg, token, s, read, ReadCreds(x.creds));
    var checked := read.Emit(ClaudeCheck(x.claudeRunning));
    Step(cfg, token, read, checked, ClaudeCheck(x.claudeRunning));
    if x.creds.Some? && !x.claudeRunning {
      ProactiveSettleReplayed(cfg, token, checked, x, x.creds.value.refresh);
    }
  }

  lemma RereadReplayed(cfg: Config, token: string, s: Agent, disk: string)
    requires Replayed(cfg, token, s) && Settled(s)
    ensures var s' := RereadPhase(cfg, s, disk); Replayed(cfg, token, s') && Settled(s')
  {
    hide Replayed;
    if cfg.tokenRefresh && disk != "" && disk != s.lastToken {
      Step(cfg, token, s, RereadPhase(cfg, s, disk), Install(disk, DiskChange));
    }
  }

  lemma BypassSettleReplayed(cfg: Config, token: string, s: Agent, x: Exchange, sent: string, usage: UsageReply)
    requires Replayed(cfg, token, s) && Last(s.log) == Some(ReadCreds(x.creds)) && !s.authPaused
    ensures var o := BypassSettle(s.Emit(Refresh(sent, x.now, x.reply, x.repliedAt)), x, usage);
            Replayed(cfg, token, o.s) && (if o.Done? then Settled(o.s) else Succeeded(Last(o.s.log)))
  {
    hide Replayed, Exponential, RateLimitBackoff, OnRateLimited;
    var e := Refresh(sent, x.now, x.reply, x.repliedAt);
    match x.reply
    case RateLimited(d) => RateLimitedReplayed(cfg, token, s, e);
    case InvalidGrant => Step(cfg, token, s, OnInvalidGrant(s.Emit(e)), e);
    case RefreshFailed(_) => FailedReplayed(cfg, token, s, e);
    case Granted(access, refresh) =>
      var s1 := s.Emit(e).LiftBackoff();
      Step(cfg, token, s, s1, e);
      var s2 := s1.Emit(Save(access, refresh, x.saved));
      Step(cfg, token, s1, s2, Save(access, refresh, x.saved));
      var s3 := s2.SetToken(access, Grant);
      Step(cfg, token, s2, s3, Install(access, Grant));
      Step(cfg, token, s3, s3.Emit(Fetch(access, Bypass, usage)), Fetch(access, Bypass, usage));
  }

  lemma FailedReplayed(cfg: Config, token: string, s: Agent, sent: Event)
    requires Replayed(cfg, token, s) && sent.Refresh? && sent.reply.RefreshFailed?
    requires Last(s.log).Some? && Last(s.log).value.ReadCreds?
    ensures var s' := OnRefreshFailed(s.Emit(sent), sent.repliedAt); Replayed(cfg, token, s') && Settled(s')
  {
    hide Replayed, Exponential, RateLimitBackoff;
    var s1 := s.Emit(sent).(rateLimitFailCount := s.rateLimitFailCount + 1);
    Step(cfg, token, s, s1, sent);
    if s1.rateLimitFailCount >= MAX_RATE_LIMIT_FAILURES {
      BackoffIsExponential(s1.rateLimitFailCount);
      var e := Backoff(sent.repliedAt, sent.repliedAt + RateLimitBackoff(s1.rateLimitFailCount), false);
      Step(cfg, token, s1, OnRefreshFailed(s.Emit(sent), sent.repliedAt), e);
    }
  }

  lemma BypassReplayed(cfg: Config, token: string, s: Agent, x: Exchange, usage: UsageReply)
    requires Replayed(cfg, token, s) && !s.authPaused
    requires Last(s.log).Some? && Last(s.log).value.Fetch? && Last(s.log).value.usage == UsageRateLimited
    ensures var o := BypassPhase(cfg, s, x, usage);
            Replayed(cfg, token, o.s) && (if o.Done? then Settled(o.s) else Succeeded(Last(o.s.log)))
  {
    hide Replayed, BypassSettle;
    if !s.InBackoff(x.now) {
      var checked := ExpireBackoff(s).Emit(ClaudeCheck(x.claudeRunning));
      Step(cfg, token, s, checked, ClaudeCheck(x.claudeRunning));
      var read := checked.Emit(ReadCreds(x.creds));
      Step(cfg, token, checked, read, ReadCreds(x.creds));
      if x.creds.Some? {
        BypassSettleReplayed(cfg, token, read, x, x.creds.value.refresh, usage);
      }
    }
  }

  lemma RetryReplayed(cfg: Config, token: string, s: Agent, sent: Event, retryToken: string, usage: UsageReply)
    requires Replayed(cfg, token, s) && Settled(s) && !s.authPaused
    requires sent == Fetch(s.clientToken, Direct, UsageUnauthorized)
    ensures var o := AuthRetryPhase(cfg, s.Emit(sent), retryToken, usage);
            Replayed(cfg, token, o.s) && (if o.Done? then Settled(o.s) else Succeeded(Last(o.s.log)))
  {
    hide Replayed;
    var s1 := s.Emit(sent).(lastToken := if cfg.tokenRefresh then "" else s.lastToken);
    Step(cfg, token, s, s1, sent);
    if cfg.tokenRefresh && retryToken != "" {
      RetrySentReplayed(cfg, token, s1, retryToken, usage);
      hide Settled;
    }
  }

  lemma RetrySentReplayed(cfg: Config, token: string, s: Agent, retryToken: string, usage: UsageReply)
    requires Replayed(cfg, token, s) && cfg.tokenRefresh && retryToken != "" && s.lastToken == "" && !s.authPaused
    requires Last(s.log).Some? && Last(s.log).value.Fetch? && Last(s.log).value.usage == UsageUnauthorized
    ensures var o := AuthRetryPhase(cfg, s, retryToken, usage);
            Replayed(cfg, token, o.s) && (if o.Done? then Settled(o.s) else Succeeded(Last(o.s.log)))
  {
    hide Replayed;
    var s1 := s.SetToken(retryToken, Reread);
    Step(cfg, token, s, s1, Install(retryToken, Reread));
    Step(cfg, token, s1, AuthRetryPhase(cfg, s, retryToken, usage).s, Fetch(retryToken, Retry, usage));
  }

  lemma FetchReplayed(cfg: Config, token: string, s: Agent, env: PollEnv)
    requires Replayed(cfg, token, s) && Settled(s)
    ensures var o := FetchPhase(cfg, s, env);
            Replayed(cfg, token, o.s) && (if o.Done? then Settled(o.s) else Succeeded(Last(o.s.log)))
  {
    hide Replayed, BypassPhase, AuthRetryPhase;
    if !s.authPaused {
      var e := Fetch(s.clientToken, Direct, env.usage);
      match env.usage
      case UsageOk => Step(cfg, token, s, FetchPhase(cfg, s, env).s, e);
      case UsageRateLimited =>
        Step(cfg, token, s, s.Emit(e), e);
        BypassReplayed(cfg, token, s.Emit(e), env.bypass, env.bypassUsage);
      case UsageUnauthorized => RetryReplayed(cfg, token, s, e, env.retryToken, env.retryUsage);
      case UsageFailed => Step(cfg, token, s, s.Emit(e), e);
      case UsageCancelled => Step(cfg, token, s, s.Emit(e), e);
    }
  }

  lemma StatuslineReplayed(cfg: Config, token: string, s: Agent, line: Statusline)
    requires Replayed(cfg, token, s) && Settled(s)
    ensures var s' := StatuslinePhase(cfg, s, line).s; Replayed(cfg, token, s') && Settled(s')
  {
    hide Replayed;
    if cfg.statusline && line.Usable? {
      var e := Store(FromStatusline, line.inserted);
      var s1 := s.Emit(e);
      if line.inserted {
        s1 := s1.(pollCycleCount := s.pollCycleCount + 1,
                  rateLimitFailCount := if s.rateLimitFailCount > 0 then s.rateLimitFailCount - 1 else 0);
      }
      Step(cfg, token, s, s1, e);
      Step(cfg, token, s1, s1.Emit(Hybrid), Hybrid);
    }
  }

  lemma PollReplayed(cfg: Config, token: string, s: Agent, env: PollEnv)
    requires Replayed(cfg, token, s) && Settled(s)
    ensures var s' := Poll(cfg, s, env); Replayed(cfg, token, s') && Settled(s')
  {
    hide Replayed, StatuslinePhase, ProactivePhase, RereadPhase, FetchPhase, Settled;
    StatuslineReplayed(cfg, token, s, env.statusline);
    var start := StatuslinePhase(cfg, s, env.statusline).s;
    ProactiveReplayed(cfg, token, start, env.proactive);
    var s1 := ProactivePhase(cfg, start, env.proactive);
    RereadReplayed(cfg, token, s1, env.diskToken);
    var s2 := RereadPhase(cfg, s1, env.diskToken);
    FetchReplayed(cfg, token, s2, env);
    StoreReplayed(cfg, token, FetchPhase(cfg, s2, env).s, env.inserted);
  }

  lemma StoreReplayed(cfg: Config, token: string, s: Agent, inserted: bool)
    ensures Replayed(cfg, token, s) && Succeeded(Last(s.log)) ==>
              var s' := s.Emit(Store(FromApi, inserted)); Replayed(cfg, token, s') && Settled(s')
  {
    hide Replayed;
    if Replayed(cfg, token, s) && Succeeded(Last(s.log)) {
      Step(cfg, token, s, s.Emit(Store(FromApi, inserted)), Store(FromApi, inserted));
    }
  }

  lemma {:induction false} RunReplayed(cfg: Config, token: string, s: Agent, inputs: seq<Input>)
    requires Replayed(cfg, token, s) && Settled(s)
    ensures var s' := Run(cfg, s, inputs); Replayed(cfg, token, s') && Settled(s')
    decreases |inputs|
  {
    hide Poll, Replayed;
    if inputs != [] {
      match inputs[0] {
        case Tick(env) => PollReplayed(cfg, token, s, env);
        case Foreign(access, refresh) =>
          Step(cfg, token, s, s.Emit(ForeignWrite(access, refresh)), ForeignWrite(access, refresh));
      }
      RunReplayed(cfg, token, AnthropicPoll.Step(cfg, s, inputs[0]), inputs[1..]);
    }
  }

  /** In every run all fields are what the log says. */
  lemma FieldsAreReplayed(cfg: Config, token: string, inputs: seq<Input>)
    ensures var s := Run(cfg, Initial(token), inputs); FieldsOf(s) == Replay(cfg, token, s.log)
  {
    RunReplayed(cfg, token, Initial(token), inputs);
  }

  /** In every run a successful fetch, by whichever way, is followed at once by a store, and nothing else is stored. */
  lemma EverySuccessIsStored(cfg: Config, token: string, inputs: seq<Input>, i: nat)
    requires i < |Run(cfg, Initial(token), inputs).log|
    ensures var log := Run(cfg, Initial(token), inputs).log;
            && (log[i].Fetch? && log[i].usage == UsageOk <==>
                  i + 1 < |log| && log[i + 1].Store? && log[i + 1].source == FromApi)
            && !(log[0].Store? && log[0].source == FromApi)
  {
    var log := Run(cfg, Initial(token), inputs).log;
    RunReplayed(cfg, token, Initial(token), inputs);
    assert Due(cfg, token, log[..0], log[0]);
    if i + 1 < |log| {
      assert Due(cfg, token, log[..i + 1], log[i + 1]);
    }
  }

  /**
    In every run: a fetch bears the token installed last; the fetch of the 429 branch bears the one just granted, and a
    retry the one just read again; a saved grant is installed at once; a grant is saved as it was given.
   */
  lemma TokensAreThoseGranted(cfg: Config, token: string, inputs: seq<Input>, i: nat)
    requires i < |Run(cfg, Initial(token), inputs).log|
    ensures var log := Run(cfg, Initial(token), inputs).log;
            match log[i]
            case Fetch(bearer, kind, _) =>
              && bearer == Replay(cfg, token, log[..i]).clientToken && (kind != Direct ==> i >= 1)
              && (kind == Bypass ==> log[i - 1] == Install(bearer, Grant))
              && (kind == Retry ==> log[i - 1] == Install(bearer, Reread))
            case Install(access, Grant) => i >= 1 && log[i - 1].Save? && log[i - 1].access == access
            case Save(access, refresh, ok) =>
              && i >= 1 && log[i - 1].Refresh? && log[i - 1].reply.Granted?
              && log[i - 1].reply.access == access && log[i - 1].reply.refresh == refresh
              && (ok ==> i + 1 < |log| && log[i + 1] == Install(access, Grant))
            case _ => true
  {
    var log := Run(cfg, Initial(token), inputs).log;
    RunReplayed(cfg, token, Initial(token), inputs);
    assert Due(cfg, token, log[..i], log[i]);
    if i + 1 < |log| {
      assert Due(cfg, token, log[..i + 1], log[i + 1]);
    }
  }

  /** In every run a passing failure of the 429 branch is waited out exactly from the fifth failure in the count on. */
  lemma FifthFailureBacksOff(cfg: Config, token: string, inputs: seq<Input>, i: nat)
    requires 1 <= i < |Run(cfg, Initial(token), inputs).log|
    requires var log := Run(cfg, Initial(token), inputs).log;
             log[i].Refresh? && log[i].reply.RefreshFailed? && log[i - 1].ReadCreds?
    ensures var log := Run(cfg, Initial(token), inputs).log;
            i + 1 < |log| && log[i + 1].Backoff? <==> Replay(cfg, token, log[..i + 1]).rateLimitFailCount >= 5
  {
    RunReplayed(cfg, token, Initial(token), inputs);
    FailureIsWaitedOut(cfg, token, Run(cfg, Initial(token), inputs), i);
    hide Run, Replay;
  }

  lemma FailureIsWaitedOut(cfg: Config, token: string, s: Agent, i: nat)
    requires Replayed(cfg, token, s) && Settled(s)
    requires 1 <= i < |s.log| && s.log[i].Refresh? && s.log[i].reply.RefreshFailed? && s.log[i - 1].ReadCreds?
    ensures i + 1 < |s.log| && s.log[i + 1].Backoff? <==> Replay(cfg, token, s.log[..i + 1]).rateLimitFailCount >= 5
  {
    hide Replay, Exponential;
    var before := s.log[..i + 1];
    assert Last(before) == Some(s.log[i]) && Previous(before) == Some(s.log[i - 1]);
    if i + 1 < |s.log| {
      assert Due(cfg, token, before, s.log[i + 1]);
    } else {
      assert before == s.log;
    }
  }

  /** In every run each backoff without Retry-After lasts min(5 min * 2^(n-1), 6 h), where n is the count replayed from the log. */
  lemma BackoffsAreExponential(cfg: Config, token: string, inputs: seq<Input>, i: nat)
    requires i < |Run(cfg, Initial(token), inputs).log|
    ensures var log := Run(cfg, Initial(token), inputs).log;
            var n := Replay(cfg, token, log[..i]).rateLimitFailCount;
            log[i].Backoff? && !log[i].serverGiven ==> n >= 1 && log[i].until == log[i].setAt + Exponential(n)
  {
    var log := Run(cfg, Initial(token), inputs).log;
    RunReplayed(cfg, token, Initial(token), inputs);
    assert Due(cfg, token, log[..i], log[i]);
  }
}
