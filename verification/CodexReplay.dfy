/** The Codex agent's fields as a function of its log alone, and the requests of a poll exactly under their conditions. */
module CodexReplay {
  import opened Common
  import opened CodexPoll

  datatype Fields = Fields(clientToken: string, lastToken: string, authFailCount: nat, authPaused: bool,
                           lastFailedToken: string, proactiveRefreshFailures: nat)
  {
    function Lift(token: string): Fields {
      if authPaused && token != lastFailedToken then this.(authPaused := false, authFailCount := 0, lastFailedToken := "") else this
    }
  }

  function FieldsOf(s: Agent): Fields {
    Fields(s.clientToken, s.lastToken, s.authFailCount, s.authPaused, s.lastFailedToken, s.proactiveRefreshFailures)
  }

  function Last(log: seq<Event>): Option<Event> {
    if log == [] then None else Some(log[|log| - 1])
  }

  predicate Succeeded(e: Option<Event>) {
    e.Some? && e.value.Fetch? && e.value.usage == UsageOk
  }

  /** A saved grant ends a pause whatever it holds, an adopted token only if it is not the failed one. */
  function After(cfg: Config, f: Fields, e: Event): Fields {
    match e
    case Refresh(creds, Reused) => f.(authPaused := true, lastFailedToken := creds.access)
    case Refresh(creds, RefreshFailed) =>
      var f := f.(proactiveRefreshFailures := f.proactiveRefreshFailures + 1);
      if f.proactiveRefreshFailures >= 3 then f.(authPaused := true, lastFailedToken := creds.access) else f
    case Refresh(_, Granted(_, _)) => f.(proactiveRefreshFailures := 0)
    case Save(access, _, true) =>
      var f := f.(clientToken := access, lastToken := access);
      if f.authPaused then f.(authPaused := false, authFailCount := 0, lastFailedToken := "") else f
    case Adopt(token) => f.(clientToken := token, lastToken := token).Lift(token)
    case Fetch(_, false, UsageOk) => f.(authFailCount := 0)
    case Fetch(_, false, UsageUnauthorized) => if cfg.tokenRefresh then f.(lastToken := "") else f
    case Fetch(bearer, true, usage) =>
      var f := f.(clientToken := bearer, lastToken := bearer);
      if usage == UsageOk then f.(authFailCount := 0)
      else if usage != UsageUnauthorized then f
      else
        var f := f.(authFailCount := f.authFailCount + 1);
        if f.authFailCount >= 3 then f.(authPaused := true, lastFailedToken := bearer) else f
    case _ => f
  }

  function Replay(cfg: Config, token: string, log: seq<Event>): Fields {
    if log == [] then Fields(token, "", 0, false, "", 0)
    else After(cfg, Replay(cfg, token, log[..|log| - 1]), log[|log| - 1])
  }

  /** Whether the event may come now, and whether another one had to. */
  predicate DueNow(f: Fields, last: Option<Event>, e: Event) {
    && (Succeeded(last) <==> e.Store?)
    && match e
       case Fetch(bearer, false, _) => !f.authPaused && bearer == f.clientToken
       case Fetch(_, true, _) => last.Some? && last.value.Fetch? && !last.value.retry && last.value.usage == UsageUnauthorized
       case Save(access, refresh, _) =>
         last.Some? && last.value.Refresh? && last.value.reply.Granted?
         && last.value.reply.access == access && last.value.reply.refresh == refresh
       case _ => true
  }

  predicate AllDue(cfg: Config, token: string, log: seq<Event>) {
    forall i | 0 <= i < |log| :: DueNow(Replay(cfg, token, log[..i]), Last(log[..i]), log[i])
  }

  predicate Replayed(cfg: Config, token: string, s: Agent) {
    FieldsOf(s) == Replay(cfg, token, s.log) && AllDue(cfg, token, s.log)
  }

  /** One event, with the change of fields that the log implies. */
  lemma Step(cfg: Config, token: string, s: Agent, s': Agent, e: Event)
    requires Replayed(cfg, token, s) && DueNow(FieldsOf(s), Last(s.log), e)
    requires s'.log == s.log + [e] && FieldsOf(s') == After(cfg, FieldsOf(s), e)
    ensures Replayed(cfg, token, s') && Last(s'.log) == Some(e)
  {
    assert (s.log + [e])[..|s.log|] == s.log;
    hide DueNow, After;
    forall i | 0 <= i < |s'.log| ensures DueNow(Replay(cfg, token, s'.log[..i]), Last(s'.log[..i]), s'.log[i]) {
      assert s'.log[..i] == if i < |s.log| then s.log[..i] else s.log;
    }
  }

  lemma ProactiveReplayed(cfg: Config, token: string, s: Agent, env: PollEnv)
    requires Replayed(cfg, token, s) && !Succeeded(Last(s.log))
    ensures var s' := ProactivePhase(cfg, s, env); Replayed(cfg, token, s') && !Succeeded(Last(s'.log))
  {
    hide Replayed;
    if Refreshes(cfg, env) {
      var e := Refresh(env.creds.value, env.reply);
      match env.reply
      case Reused => Step(cfg, token, s, ProactivePhase(cfg, s, env), e);
      case RefreshFailed => Step(cfg, token, s, ProactivePhase(cfg, s, env), e);
      case Granted(access, refresh) =>
        var s1 := s.Emit(e).(proactiveRefreshFailures := 0);
        Step(cfg, token, s, s1, e);
        Step(cfg, token, s1, ProactivePhase(cfg, s, env), Save(access, refresh, env.saved));
    }
  }

  lemma RereadReplayed(cfg: Config, token: string, s: Agent, disk: string)
    requires Replayed(cfg, token, s) && !Succeeded(Last(s.log))
    ensures var s' := RereadPhase(cfg, s, disk); Replayed(cfg, token, s') && !Succeeded(Last(s'.log))
  {
    hide Replayed;
    if cfg.tokenRefresh && disk != "" && disk != s.lastToken {
      Step(cfg, token, s, RereadPhase(cfg, s, disk), Adopt(disk));
    }
  }

  lemma FetchReplayed(cfg: Config, token: string, s: Agent, env: PollEnv)
    requires Replayed(cfg, token, s) && !Succeeded(Last(s.log))
    ensures var o := FetchPhase(cfg, s, env); Replayed(cfg, token, o.s) && (o.Respond? <==> Succeeded(Last(o.s.log)))
  {
    hide Replayed;
    if !s.authPaused {
      var e := Fetch(s.clientToken, false, env.usage);
      if env.usage == UsageUnauthorized && cfg.tokenRefresh {
        var s1 := s.Emit(e).(lastToken := "");
        Step(cfg, token, s, s1, e);
        if env.retryToken != "" {
          Step(cfg, token, s1, FetchPhase(cfg, s, env).s, Fetch(env.retryToken, true, env.retryUsage));
        }
      } else {
        Step(cfg, token, s, FetchPhase(cfg, s, env).s, e);
      }
    }
  }

  lemma PollReplayed(cfg: Config, token: string, s: Agent, env: PollEnv)
    requires Replayed(cfg, token, s) && !Succeeded(Last(s.log))
    ensures var s' := Poll(cfg, s, env); Replayed(cfg, token, s') && !Succeeded(Last(s'.log))
  {
    hide Replayed, ProactivePhase, RereadPhase, FetchPhase;
    ProactiveReplayed(cfg, token, s, env);
    var s1 := ProactivePhase(cfg, s, env);
    RereadReplayed(cfg, token, s1, env.diskToken);
    var s2 := RereadPhase(cfg, s1, env.diskToken);
    FetchReplayed(cfg, token, s2, env);
    var o := FetchPhase(cfg, s2, env);
    if o.Respond? {
      Step(cfg, token, o.s, o.s.Emit(Store(env.inserted)), Store(env.inserted));
    }
  }

  lemma {:induction false} RunReplayed(cfg: Config, token: string, s: Agent, envs: seq<PollEnv>)
    requires Replayed(cfg, token, s) && !Succeeded(Last(s.log))
    ensures var s' := Run(cfg, s, envs); Replayed(cfg, token, s') && !Succeeded(Last(s'.log))
    decreases |envs|
  {
    hide Poll, Replayed;
    if envs != [] {
      PollReplayed(cfg, token, s, envs[0]);
      RunReplayed(cfg, token, Poll(cfg, s, envs[0]), envs[1..]);
    }
  }

  /**
    In every run all fields are what the log says; a successful fetch, and nothing else, is followed at once by a
    store; a fetch bears the token in use; a grant is saved as it was given.
   */
  lemma RunIsReplayed(cfg: Config, token: string, envs: seq<PollEnv>, i: nat)
    requires i < |Run(cfg, Initial(token), envs).log|
    ensures var s := Run(cfg, Initial(token), envs); FieldsOf(s) == Replay(cfg, token, s.log)
    ensures var log := Run(cfg, Initial(token), envs).log;
            && !log[0].Store?
            && (log[i].Fetch? && log[i].usage == UsageOk <==> i + 1 < |log| && log[i + 1].Store?)
            && match log[i]
               case Fetch(bearer, false, _) => bearer == Replay(cfg, token, log[..i]).clientToken
               case Save(access, refresh, _) =>
                 && i >= 1 && log[i - 1].Refresh? && log[i - 1].reply.Granted?
                 && log[i - 1].reply.access == access && log[i - 1].reply.refresh == refresh
               case _ => true
  {
    var log := Run(cfg, Initial(token), envs).log;
    RunReplayed(cfg, token, Initial(token), envs);
    assert DueNow(Replay(cfg, token, log[..0]), Last(log[..0]), log[0]);
    assert DueNow(Replay(cfg, token, log[..i]), Last(log[..i]), log[i]);
    if i + 1 < |log| {
      assert DueNow(Replay(cfg, token, log[..i + 1]), Last(log[..i + 1]), log[i + 1]);
    }
  }

  // ----- when a poll sends which request -----

  datatype Tally = Tally(refreshes: nat, saves: nat, adopted: nat, direct: nat, retried: nat, stored: nat)

  function Add(t: Tally, e: Event): Tally {
    match e
    case Refresh(_, _) => t.(refreshes := t.refreshes + 1)
    case Save(_, _, _) => t.(saves := t.saves + 1)
    case Adopt(_) => t.(adopted := t.adopted + 1)
    case Fetch(_, retry, _) => if retry then t.(retried := t.retried + 1) else t.(direct := t.direct + 1)
    case Store(_) => t.(stored := t.stored + 1)
  }

  const NOTHING := Tally(0, 0, 0, 0, 0, 0)

  function TallyFrom(log: seq<Event>, n: nat): Tally {
    if |log| <= n then NOTHING else Add(TallyFrom(log[..|log| - 1], n), log[|log| - 1])
  }

  predicate Exchanges(cfg: Config, env: PollEnv) {
    && env.enabled && cfg.credsRefresh && env.creds.Some? && env.creds.value.expiring && env.creds.value.refresh != ""
  }

  predicate Adopts(cfg: Config, s: Agent, env: PollEnv) {
    var held := if Exchanges(cfg, env) && env.reply.Granted? && env.saved then env.reply.access else s.lastToken;
    env.enabled && cfg.tokenRefresh && env.diskToken != "" && env.diskToken != held
  }

  /** Paused after the exchange, and the token that failed. */
  function PausedOn(cfg: Config, s: Agent, env: PollEnv): Option<string> {
    var before := if s.authPaused then Some(s.lastFailedToken) else None;
    if !Exchanges(cfg, env) then before
    else match env.reply
         case Reused => Some(env.creds.value.access)
         case RefreshFailed => if s.proactiveRefreshFailures + 1 >= 3 then Some(env.creds.value.access) else before
         case Granted(_, _) => if env.saved then None else before
  }

  predicate Fetches(cfg: Config, s: Agent, env: PollEnv) {
    var paused := PausedOn(cfg, s, env);
    env.enabled && (paused.None? || (Adopts(cfg, s, env) && env.diskToken != paused.value))
  }

  predicate Retries(cfg: Config, s: Agent, env: PollEnv) {
    Fetches(cfg, s, env) && env.usage == UsageUnauthorized && cfg.tokenRefresh && env.retryToken != ""
  }

  predicate Succeeds(cfg: Config, s: Agent, env: PollEnv) {
    (Fetches(cfg, s, env) && env.usage == UsageOk) || (Retries(cfg, s, env) && env.retryUsage == UsageOk)
  }

  function One(b: bool): nat { if b then 1 else 0 }

  lemma Snoc(log: seq<Event>, e: Event, n: nat)
    requires n <= |log|
    ensures TallyFrom(log + [e], n) == Add(TallyFrom(log, n), e)
  {
    assert (log + [e])[..|log|] == log;
  }

  lemma SettleTally(s: Agent, creds: Creds, reply: RefreshReply, saved: bool, n: nat)
    requires n <= |s.log|
    ensures var (s', t) := (Settle(s, creds, reply, saved), TallyFrom(s.log, n));
            && n <= |s'.log| && TallyFrom(s'.log, n) == t.(saves := t.saves + One(reply.Granted?))
            && s'.lastToken == (if reply.Granted? && saved then reply.access else s.lastToken)
            && (if s'.authPaused then Some(s'.lastFailedToken) else None)
               == (var before := if s.authPaused then Some(s.lastFailedToken) else None;
                   match reply
                   case Reused => Some(creds.access)
                   case RefreshFailed => if s.proactiveRefreshFailures + 1 >= 3 then Some(creds.access) else before
                   case Granted(_, _) => if saved then None else before)
  {
    if reply.Granted? { Snoc(s.log, Save(reply.access, reply.refresh, saved), n); }
    hide TallyFrom;
  }

  lemma ProactiveTally(cfg: Config, s: Agent, env: PollEnv)
    requires env.enabled
    ensures var (s', t) := (ProactivePhase(cfg, s, env), TallyFrom(ProactivePhase(cfg, s, env).log, |s.log|));
            && |s.log| <= |s'.log|
            && t == NOTHING.(refreshes := One(Exchanges(cfg, env)), saves := One(Exchanges(cfg, env) && env.reply.Granted?))
            && s'.lastToken == (if Exchanges(cfg, env) && env.reply.Granted? && env.saved then env.reply.access else s.lastToken)
            && (if s'.authPaused then Some(s'.lastFailedToken) else None) == PausedOn(cfg, s, env)
  {
    assert TallyFrom(s.log, |s.log|) == NOTHING;
    hide TallyFrom, Settle;
    if Exchanges(cfg, env) {
      var e := Refresh(env.creds.value, env.reply);
      Snoc(s.log, e, |s.log|);
      SettleTally(s.Emit(e), env.creds.value, env.reply, env.saved, |s.log|);
    }
  }

  lemma RereadTally(cfg: Config, s: Agent, disk: string, n: nat)
    requires n <= |s.log|
    ensures var adopts := cfg.tokenRefresh && disk != "" && disk != s.lastToken;
            var (s', t) := (RereadPhase(cfg, s, disk), TallyFrom(s.log, n));
            && n <= |s'.log| && TallyFrom(s'.log, n) == t.(adopted := t.adopted + One(adopts))
            && s'.authPaused == (s.authPaused && !(adopts && disk != s.lastFailedToken))
  {
    Snoc(s.log, Adopt(disk), n);
    hide TallyFrom;
  }

  lemma FetchTally(cfg: Config, s: Agent, env: PollEnv, n: nat)
    requires n <= |s.log|
    ensures var retries := !s.authPaused && env.usage == UsageUnauthorized && cfg.tokenRefresh && env.retryToken != "";
            var (o, t) := (FetchPhase(cfg, s, env), TallyFrom(s.log, n));
            && n <= |o.s.log|
            && TallyFrom(o.s.log, n) == t.(direct := t.direct + One(!s.authPaused), retried := t.retried + One(retries))
            && (o.Respond? <==> (!s.authPaused && env.usage == UsageOk) || (retries && env.retryUsage == UsageOk))
  {
    var e := Fetch(s.clientToken, false, env.usage);
    Snoc(s.log, e, n);
    Snoc(s.log + [e], Fetch(env.retryToken, true, env.retryUsage), n);
    hide TallyFrom;
  }

  lemma EnabledSendsExactly(cfg: Config, s: Agent, env: PollEnv)
    requires env.enabled
    ensures var o := FetchPhase(cfg, RereadPhase(cfg, ProactivePhase(cfg, s, env), env.diskToken), env);
            && |s.log| <= |o.s.log|
            && TallyFrom(o.s.log, |s.log|)
               == Tally(One(Exchanges(cfg, env)), One(Exchanges(cfg, env) && env.reply.Granted?), One(Adopts(cfg, s, env)),
                        One(Fetches(cfg, s, env)), One(Retries(cfg, s, env)), 0)
            && (o.Respond? <==> Succeeds(cfg, s, env))
  {
    hide TallyFrom, ProactivePhase, RereadPhase, FetchPhase, PausedOn, Exchanges;
    ProactiveTally(cfg, s, env);
    var s1 := ProactivePhase(cfg, s, env);
    RereadTally(cfg, s1, env.diskToken, |s.log|);
    var s2 := RereadPhase(cfg, s1, env.diskToken);
    assert s2.authPaused <==> !Fetches(cfg, s, env);
    FetchTally(cfg, s2, env, |s.log|);
  }

  /** The requests a poll sends and the response it stores, each exactly under its condition. */
  lemma PollSendsExactly(cfg: Config, s: Agent, env: PollEnv)
    ensures TallyFrom(Poll(cfg, s, env).log, |s.log|)
         == Tally(One(Exchanges(cfg, env)), One(Exchanges(cfg, env) && env.reply.Granted?), One(Adopts(cfg, s, env)),
                  One(Fetches(cfg, s, env)), One(Retries(cfg, s, env)), One(Succeeds(cfg, s, env)))
    ensures Succeeds(cfg, s, env) ==> Last(Poll(cfg, s, env).log) == Some(Store(env.inserted))
  {
    assert TallyFrom(s.log, |s.log|) == NOTHING;
    if env.enabled {
      EnabledSendsExactly(cfg, s, env);
      hide TallyFrom, ProactivePhase, RereadPhase, FetchPhase, PausedOn;
      var o := FetchPhase(cfg, RereadPhase(cfg, ProactivePhase(cfg, s, env), env.diskToken), env);
      if o.Respond? {
        Snoc(o.s.log, Store(env.inserted), |s.log|);
      }
    }
  }
}
