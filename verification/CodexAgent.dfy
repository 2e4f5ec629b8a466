/** The Codex polling step as a function of the agent's fields and the answers of the world. */
module CodexPoll {
  import opened Common

  const MAX_AUTH_FAILURES: nat := 3

  type AccessToken = s: string | s != "" witness "a"

  /** Credentials for a proactive refresh; expiring says that they expire within six hours. */
  datatype Creds = Creds(access: string, refresh: string, expiring: bool)

  datatype RefreshReply = Granted(access: AccessToken, refresh: string) | Reused | RefreshFailed
  datatype UsageReply = UsageOk | UsageUnauthorized | UsageFailed

  datatype PollEnv = PollEnv(enabled: bool, creds: Option<Creds>, reply: RefreshReply, saved: bool, diskToken: string,
                             usage: UsageReply, retryToken: string, retryUsage: UsageReply, inserted: bool)

  datatype Config = Config(tokenRefresh: bool, credsRefresh: bool)

  datatype Event =
    | Refresh(creds: Creds, reply: RefreshReply)
    | Save(access: string, refresh: string, ok: bool)
    | Adopt(token: string)
    | Fetch(bearer: string, retry: bool, usage: UsageReply)
    | Store(ok: bool)

  datatype Agent = Agent(clientToken: string, lastToken: string, authFailCount: nat, authPaused: bool,
                         lastFailedToken: string, proactiveRefreshFailures: nat, log: seq<Event>)
  {
    function Emit(e: Event): Agent {
      this.(log := log + [e])
    }

    function LiftPause(): Agent {
      this.(authPaused := false, authFailCount := 0, lastFailedToken := "")
    }

    function Pause(failedToken: string): Agent {
      this.(authPaused := true, lastFailedToken := failedToken)
    }
  }

  function Initial(clientToken: string): Agent {
    Agent(clientToken, "", 0, false, "", 0, [])
  }

  function Settle(s: Agent, creds: Creds, reply: RefreshReply, saved: bool): Agent {
    match reply
    case Reused => s.Pause(creds.access)
    case RefreshFailed =>
      var s := s.(proactiveRefreshFailures := s.proactiveRefreshFailures + 1);
      if s.proactiveRefreshFailures >= MAX_AUTH_FAILURES then s.Pause(creds.access) else s
    case Granted(access, refresh) =>
      var s := s.(proactiveRefreshFailures := 0).Emit(Save(access, refresh, saved));
      if !saved then s
      else
        var s := s.(clientToken := access, lastToken := access);
        if s.authPaused then s.LiftPause() else s
  }

  /** The credentials expire soon and can be exchanged. */
  predicate Refreshes(cfg: Config, env: PollEnv) {
    cfg.credsRefresh && env.creds.Some? && env.creds.value.expiring && env.creds.value.refresh != ""
  }

  function ProactivePhase(cfg: Config, s: Agent, env: PollEnv): Agent {
    if Refreshes(cfg, env)
    then Settle(s.Emit(Refresh(env.creds.value, env.reply)), env.creds.value, env.reply, env.saved)
    else s
  }

  function RereadPhase(cfg: Config, s: Agent, diskToken: string): Agent {
    if !cfg.tokenRefresh || diskToken == "" || diskToken == s.lastToken then s
    else
      var s := s.(clientToken := diskToken, lastToken := diskToken).Emit(Adopt(diskToken));
      if s.authPaused && diskToken != s.lastFailedToken then s.LiftPause() else s
  }

  datatype Outcome = Done(s: Agent) | Respond(s: Agent)

  function RetryPhase(cfg: Config, s: Agent, retryToken: string, usage: UsageReply): Outcome {
    if !cfg.tokenRefresh then Done(s)
    else if retryToken == "" then Done(s.(lastToken := ""))
    else
      var s := s.(clientToken := retryToken, lastToken := retryToken).Emit(Fetch(retryToken, true, usage));
      match usage
      case UsageOk => Respond(s.(authFailCount := 0))
      case UsageUnauthorized =>
        var s := s.(authFailCount := s.authFailCount + 1);
        Done(if s.authFailCount >= MAX_AUTH_FAILURES then s.Pause(retryToken) else s)
      case UsageFailed => Done(s)
  }

  function FetchPhase(cfg: Config, s: Agent, env: PollEnv): Outcome {
    if s.authPaused then Done(s)
    else
      var s := s.Emit(Fetch(s.clientToken, false, env.usage));
      match env.usage
      case UsageOk => Respond(s.(authFailCount := 0))
      case UsageUnauthorized => RetryPhase(cfg, s, env.retryToken, env.retryUsage)
      case UsageFailed => Done(s)
  }

  function Poll(cfg: Config, s: Agent, env: PollEnv): Agent {
    if !env.enabled then s
    else
      match FetchPhase(cfg, RereadPhase(cfg, ProactivePhase(cfg, s, env), env.diskToken), env)
      case Done(s) => s
      case Respond(s) => s.Emit(Store(env.inserted))
  }

  function Run(cfg: Config, s: Agent, envs: seq<PollEnv>): Agent
    decreases |envs|
  {
    if envs == [] then s else Run(cfg, Poll(cfg, s, envs[0]), envs[1..])
  }

  // ----- what holds over every run -----

  predicate Invariant(s: Agent) {
    && s.authFailCount <= MAX_AUTH_FAILURES
    && (s.authFailCount == MAX_AUTH_FAILURES ==> s.authPaused)
    && (!s.authPaused ==> s.lastFailedToken == "")
    && (s.lastToken != "" ==> s.clientToken == s.lastToken)
  }

  /** The bookkeeping of an observer who sees requests, saves and adopted disk tokens only. */
  datatype Observer = Observer(blocked: bool, failedToken: string, streak: nat, failures: nat) {
    function Free(): Observer { this.(blocked := false, failedToken := "", streak := 0) }

    function See(e: Event): Observer {
      match e
      case Refresh(creds, Reused) => this.(blocked := true, failedToken := creds.access)
      case Refresh(creds, RefreshFailed) =>
        if failures + 1 >= MAX_AUTH_FAILURES
        then this.(blocked := true, failedToken := creds.access, failures := failures + 1)
        else this.(failures := failures + 1)
      case Refresh(_, Granted(_, _)) => this.(failures := 0)
      case Save(_, _, true) => if blocked then Free() else this
      case Adopt(token) => if blocked && token != failedToken then Free() else this
      case Fetch(bearer, true, UsageUnauthorized) =>
        if streak + 1 >= MAX_AUTH_FAILURES
        then this.(blocked := true, failedToken := bearer, streak := streak + 1) else this.(streak := streak + 1)
      case Fetch(_, _, UsageOk) => this.(streak := 0)
      case _ => this
    }
  }

  function Observed(log: seq<Event>): Observer {
    if log == [] then Observer(false, "", 0, 0) else Observed(log[..|log| - 1]).See(log[|log| - 1])
  }

  predicate NoFetchWhileBlocked(log: seq<Event>) {
    forall i | 0 <= i < |log| && log[i].Fetch? :: !Observed(log[..i]).blocked
  }

  /** The invariant holds, the auth fields are those the observer computed, and no request was sent while blocked. */
  predicate Tracked(s: Agent) {
    && Invariant(s) && NoFetchWhileBlocked(s.log)
    && Observed(s.log) == Observer(s.authPaused, s.lastFailedToken, s.authFailCount, s.proactiveRefreshFailures)
  }

  lemma Snoc(log: seq<Event>, e: Event)
    ensures Observed(log + [e]) == Observed(log).See(e)
    ensures NoFetchWhileBlocked(log) && (e.Fetch? ==> !Observed(log).blocked) ==> NoFetchWhileBlocked(log + [e])
  {
    assert (log + [e])[..|log|] == log;
    if NoFetchWhileBlocked(log) && (e.Fetch? ==> !Observed(log).blocked) {
      forall i | 0 <= i < |log + [e]| && (log + [e])[i].Fetch? ensures !Observed((log + [e])[..i]).blocked {
        assert (log + [e])[..i] == if i < |log| then log[..i] else log;
      }
    }
  }

  lemma ProactivePhaseTracked(cfg: Config, s: Agent, env: PollEnv)
    requires Tracked(s)
    ensures Tracked(ProactivePhase(cfg, s, env))
  {
    hide Observed, NoFetchWhileBlocked;
    if env.creds.Some? {
      var e := Refresh(env.creds.value, env.reply);
      Snoc(s.log, e);
      if env.reply.Granted? {
        Snoc(s.log + [e], Save(env.reply.access, env.reply.refresh, env.saved));
      }
    }
  }

  lemma FetchPhaseTracked(cfg: Config, s: Agent, env: PollEnv)
    requires Tracked(s)
    ensures Tracked(FetchPhase(cfg, s, env).s)
  {
    hide Observed, NoFetchWhileBlocked;
    if !s.authPaused {
      var e := Fetch(s.clientToken, false, env.usage);
      Snoc(s.log, e);
      if env.usage.UsageUnauthorized? {
        Snoc(s.log + [e], Fetch(env.retryToken, true, env.retryUsage));
      }
    }
  }

  lemma PollTracked(cfg: Config, s: Agent, env: PollEnv)
    requires Tracked(s)
    ensures Tracked(Poll(cfg, s, env))
  {
    hide Observed, NoFetchWhileBlocked, ProactivePhase, FetchPhase;
    ProactivePhaseTracked(cfg, s, env);
    var s1 := ProactivePhase(cfg, s, env);
    Snoc(s1.log, Adopt(env.diskToken));
    var s2 := RereadPhase(cfg, s1, env.diskToken);
    FetchPhaseTracked(cfg, s2, env);
    Snoc(FetchPhase(cfg, s2, env).s.log, Store(env.inserted));
  }

  lemma {:induction false} RunTracked(cfg: Config, s: Agent, envs: seq<PollEnv>)
    requires Tracked(s)
    ensures Tracked(Run(cfg, s, envs))
    decreases |envs|
  {
    hide Poll;
    if envs != [] {
      PollTracked(cfg, s, envs[0]);
      RunTracked(cfg, Poll(cfg, s, envs[0]), envs[1..]);
    }
  }

  /** In every run the auth fields are determined by the log, and no fetch was sent while it says blocked. */
  lemma Reachable(cfg: Config, token: string, envs: seq<PollEnv>)
    ensures var s := Run(cfg, Initial(token), envs);
            && (s.authPaused <==> Observed(s.log).blocked)
            && s.authFailCount == Observed(s.log).streak <= MAX_AUTH_FAILURES
            && (s.authFailCount == MAX_AUTH_FAILURES ==> s.authPaused)
            && (!s.authPaused ==> s.lastFailedToken == "")
            && (s.lastToken != "" ==> s.clientToken == s.lastToken)
            && forall i | 0 <= i < |s.log| && s.log[i].Fetch? :: !Observed(s.log[..i]).blocked
  {
    RunTracked(cfg, Initial(token), envs);
  }

  lemma BeforeFetching(cfg: Config, s: Agent, env: PollEnv)
    ensures var s2 := RereadPhase(cfg, ProactivePhase(cfg, s, env), env.diskToken);
            s.log <= s2.log && forall i | |s.log| <= i < |s2.log| :: !s2.log[i].Fetch?
  {
    BeforeRereading(cfg, s, env);
    hide ProactivePhase;
  }

  lemma BeforeRereading(cfg: Config, s: Agent, env: PollEnv)
    ensures var s1 := ProactivePhase(cfg, s, env);
            s.log <= s1.log && forall i | |s.log| <= i < |s1.log| :: !s1.log[i].Fetch?
  {
  }

  /** A fetch, if any, is the first event of the fetch phase; a paused agent ends the poll there. */
  lemma FetchComesFirst(cfg: Config, s: Agent, env: PollEnv)
    ensures var s' := FetchPhase(cfg, s, env).s;
            if s.authPaused then s' == s else s.log + [Fetch(s.clientToken, false, env.usage)] <= s'.log
    ensures FetchPhase(cfg, s, env).Respond? ==> !s.authPaused
  {
  }

  /** The exact condition for a poll to fetch from a paused state: a saved refresh, or an unseen and unfailed disk token. */
  lemma PausedPollFetches(cfg: Config, s: Agent, env: PollEnv)
    requires s.authPaused && env.enabled
    ensures var s1 := ProactivePhase(cfg, s, env);
            var s' := Poll(cfg, s, env);
            (exists i :: |s.log| <= i < |s'.log| && s'.log[i].Fetch?) <==>
            || (Refreshes(cfg, env) && env.reply.Granted? && env.saved)
            || (cfg.tokenRefresh && env.diskToken != "" && env.diskToken != s1.lastToken && env.diskToken != s1.lastFailedToken)
  {
    var s1 := ProactivePhase(cfg, s, env);
    var s2 := RereadPhase(cfg, s1, env.diskToken);
    assert s1.authPaused <==> !Refreshes(cfg, env) || !env.reply.Granted? || !env.saved;
    hide ProactivePhase, FetchPhase;
    BeforeFetching(cfg, s, env);
    FetchComesFirst(cfg, s2, env);
    if !s2.authPaused {
      assert Poll(cfg, s, env).log[|s2.log|] == Fetch(s2.clientToken, false, env.usage);
    }
  }

  /** Unlike in the Anthropic agent, a paused agent may hold a token other than the failed one; that token lifts nothing. */
  lemma HeldTokenDoesNotLift()
    ensures exists envs, disk: string ::
              var s := Run(Config(true, true), Initial("c"), envs);
              s.authPaused && disk != "" && disk != s.lastFailedToken
              && RereadPhase(Config(true, true), s, disk).authPaused
  {
    var cfg := Config(true, true);
    var quiet := PollEnv(true, None, RefreshFailed, true, "l", UsageOk, "", UsageOk, true);
    var reused := quiet.(creds := Some(Creds("f", "r", true)), reply := Reused);
    var s1 := Poll(cfg, Initial("c"), quiet);
    var s2 := Poll(cfg, s1, reused);
    assert s2.authPaused && s2.lastFailedToken == "f" && s2.lastToken == "l";
    var envs := [quiet, reused];
    assert envs[1..] == [reused] && [reused][1..] == [];
    assert Run(cfg, s1, [reused]) == Run(cfg, s2, []) == s2;
    assert Run(cfg, Initial("c"), envs) == s2;
    assert RereadPhase(cfg, s2, "l").authPaused;
  }
}

/** The Codex agent as the source writes it. */
module CodexAgentClass {
  import opened P = CodexPoll

  class CodexAgent {
    const cfg: Config
    var clientToken: string
    var lastToken: string
    var authFailCount: nat
    var authPaused: bool
    var lastFailedToken: string
    var proactiveRefreshFailures: nat
    ghost var log: seq<Event>

    ghost function State(): Agent
      reads this
    {
      Agent(clientToken, lastToken, authFailCount, authPaused, lastFailedToken, proactiveRefreshFailures, log)
    }

    constructor (cfg: Config, clientToken: string)
      ensures this.cfg == cfg && State() == Initial(clientToken)
    {
      this.cfg, this.clientToken, lastToken := cfg, clientToken, "";
      authFailCount, authPaused, lastFailedToken, proactiveRefreshFailures := 0, false, "", 0;
      log := [];
    }

    method ProactiveRefresh(env: PollEnv)
      modifies this
      ensures State() == ProactivePhase(cfg, old(State()), env)
    {
      if !cfg.credsRefresh || env.creds.None? {
        return;
      }
      var creds := env.creds.value;
      if !creds.expiring || creds.refresh == "" {
        return;
      }
      log := log + [Refresh(creds, env.reply)];
      match env.reply {
        case Reused =>
          authPaused := true;
          lastFailedToken := creds.access;
        case RefreshFailed =>
          proactiveRefreshFailures := proactiveRefreshFailures + 1;
          if proactiveRefreshFailures >= MAX_AUTH_FAILURES {
            authPaused := true;
            lastFailedToken := creds.access;
          }
        case Granted(access, refresh) =>
          proactiveRefreshFailures := 0;
          log := log + [Save(access, refresh, env.saved)];
          if env.saved {
            clientToken := access;
            lastToken := access;
            if authPaused {
              authPaused := false;
              authFailCount := 0;
              lastFailedToken := "";
            }
          }
      }
    }

    method AdoptDiskToken(newToken: string)
      modifies this
      ensures State() == RereadPhase(cfg, old(State()), newToken)
    {
      if cfg.tokenRefresh && newToken != "" && newToken != lastToken {
        clientToken := newToken;
        lastToken := newToken;
        log := log + [Adopt(newToken)];
        if authPaused && newToken != lastFailedToken {
          authPaused := false;
          authFailCount := 0;
          lastFailedToken := "";
        }
      }
    }

    method FetchUsage(env: PollEnv) returns (responded: bool)
      modifies this
      ensures FetchPhase(cfg, old(State()), env) == if responded then Respond(State()) else Done(State())
    {
      if authPaused {
        return false;
      }
      log := log + [Fetch(clientToken, false, env.usage)];
      if env.usage.UsageOk? {
        authFailCount := 0;
        return true;
      }
      if env.usage.UsageFailed? || !cfg.tokenRefresh {
        return false;
      }
      lastToken := "";
      if env.retryToken == "" {
        return false;
      }
      clientToken := env.retryToken;
      lastToken := env.retryToken;
      log := log + [Fetch(env.retryToken, true, env.retryUsage)];
      if env.retryUsage.UsageOk? {
        authFailCount := 0;
        return true;
      }
      if env.retryUsage.UsageUnauthorized? {
        authFailCount := authFailCount + 1;
        if authFailCount >= MAX_AUTH_FAILURES {
          authPaused := true;
          lastFailedToken := env.retryToken;
        }
      }
      return false;
    }

    method Poll(env: PollEnv)
      modifies this
      ensures State() == P.Poll(cfg, old(State()), env)
    {
      hide ProactivePhase, RereadPhase, FetchPhase;
      if !env.enabled {
        return;
      }
      ProactiveRefresh(env);
      AdoptDiskToken(env.diskToken);
      var responded := FetchUsage(env);
      if responded {
        log := log + [Store(env.inserted)];
      }
    }
  }
}
