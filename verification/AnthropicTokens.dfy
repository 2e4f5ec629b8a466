/**
  Refresh tokens under rotation: each is good for one exchange (section 6 of RFC 6749).
  The world is recomputed from the log: what is on disk, what the server accepts next, which tokens
  were exchanged, whether the latest grant was received and reached the disk (saved), and whether that is so of every
  grant so far (lossless). A grant whose answer is lost uses up the token without the agent's knowledge.
 */
module AnthropicTokens {
  import opened Common
  import opened AnthropicPoll

  datatype World = World(diskAccess: string, diskRefresh: string, accepts: string,
                         spent: set<string>, seen: set<string>, saved: bool, lossless: bool)

  /** A login: the disk holds the one refresh token the server accepts. */
  function LoggedIn(access: string, refresh: string): World {
    World(access, refresh, refresh, {}, {refresh}, true, true)
  }

  function Apply(w: World, e: Event): World {
    match e
    case Refresh(token, _, Granted(_, refresh), _) =>
      w.(accepts := refresh, spent := w.spent + {token}, seen := w.seen + {refresh}, saved := false)
    case Refresh(token, _, RefreshFailed(Some(refresh)), _) =>
      w.(accepts := refresh, spent := w.spent + {token}, seen := w.seen + {refresh}, saved := false, lossless := false)
    case Save(access, refresh, ok) =>
      if ok then w.(diskAccess := access, diskRefresh := refresh, saved := true) else w.(lossless := false)
    case ForeignWrite(access, refresh) =>
      w.(diskAccess := access, diskRefresh := refresh, accepts := refresh, seen := w.seen + {refresh}, saved := true,
          spent := w.spent + if w.accepts == "" then {} else {w.accepts})
    case _ => w
  }

  function After(w: World, log: seq<Event>): World {
    if log == [] then w else Apply(After(w, log[..|log| - 1]), log[|log| - 1])
  }

  /**
    The world the source relies on. A read sees what is on disk, or fails. The server honours a refresh token
    once and answers with a token it never issued before, or with none. Any request may fail or be refused,
    and the answer to a request that was granted may be lost.
    Another process may replace the credentials between polls, using up the token the server accepted so far.
   */
  predicate Allowed(w: World, e: Event) {
    match e
    case ReadCreds(Some(c)) => c.access == w.diskAccess && c.refresh == w.diskRefresh
    case Refresh(token, _, Granted(_, refresh), _) => token == w.accepts && (refresh == "" || refresh !in w.seen)
    case Refresh(token, _, RefreshFailed(Some(refresh)), _) => token == w.accepts && (refresh == "" || refresh !in w.seen)
    case ForeignWrite(_, refresh) => refresh != "" && refresh !in w.seen
    case _ => true
  }

  predicate Consistent(w: World, log: seq<Event>) {
    log == [] || (Consistent(w, log[..|log| - 1]) && Allowed(After(w, log[..|log| - 1]), log[|log| - 1]))
  }

  /** saved says whether the disk and the server agree; once they do not, the disk holds an exchanged token. */
  predicate Sound(w: World) {
    && w.spent <= w.seen && w.diskRefresh in w.seen && w.accepts in w.seen
    && "" !in w.spent && w.accepts !in w.spent
    && (if w.saved then w.diskRefresh == w.accepts else w.diskRefresh in w.spent)
  }

  /** At every point the world is sound, and every refresh request carries the token on disk. */
  predicate SendsDiskToken(w: World, log: seq<Event>) {
    && Sound(After(w, log))
    && (log == [] ||
        (var before := log[..|log| - 1];
         SendsDiskToken(w, before)
         && Proper(After(w, before), before, log[|log| - 1])))
  }

  /** A request carries the token on disk; a save directly follows the grant it saves. */
  predicate Proper(w: World, before: seq<Event>, e: Event) {
    && (e.Refresh? ==> e.token != "" && e.token == w.diskRefresh && (w.lossless ==> w.saved))
    && (e.Save? ==> before != [] && before[|before| - 1].Refresh?
                    && before[|before| - 1].reply.Granted?
                    && before[|before| - 1].reply.access == e.access && before[|before| - 1].reply.refresh == e.refresh)
  }

  predicate Kept(w: World, log: seq<Event>) {
    Consistent(w, log) ==> SendsDiskToken(w, log) && (After(w, log).lossless ==> After(w, log).saved)
  }

  /** As Kept, and if the world is consistent its disk holds the given refresh token. */
  predicate KeptHolding(w: World, log: seq<Event>, token: string) {
    Kept(w, log) && (Consistent(w, log) ==> After(w, log).diskRefresh == token)
  }

  predicate Quiet(e: Event) {
    !e.Refresh? && !e.Save? && !e.ForeignWrite?
  }

  lemma Snoc(w: World, log: seq<Event>, e: Event)
    ensures After(w, log + [e]) == Apply(After(w, log), e)
    ensures Consistent(w, log + [e]) <==> Consistent(w, log) && Allowed(After(w, log), e)
    ensures SendsDiskToken(w, log + [e]) <==>
              SendsDiskToken(w, log) && Sound(Apply(After(w, log), e)) && Proper(After(w, log), log, e)
  {
    assert (log + [e])[..|log|] == log;
  }

  lemma SendsImpliesSound(w: World, log: seq<Event>)
    requires SendsDiskToken(w, log)
    ensures Sound(After(w, log))
  {
  }

  lemma QuietKeeps(w: World, log: seq<Event>, e: Event)
    requires Kept(w, log) && Quiet(e)
    ensures Kept(w, log + [e])
    ensures forall t | KeptHolding(w, log, t) :: KeptHolding(w, log + [e], t)
  {
    hide SendsDiskToken, Consistent, After;
    Snoc(w, log, e);
    if SendsDiskToken(w, log) { SendsImpliesSound(w, log); }
  }

  lemma ReadHolds(w: World, log: seq<Event>, creds: Option<Creds>)
    requires Kept(w, log)
    ensures Kept(w, log + [ReadCreds(creds)])
    ensures creds.Some? ==> KeptHolding(w, log + [ReadCreds(creds)], creds.value.refresh)
  {
    hide SendsDiskToken, After;
    QuietKeeps(w, log, ReadCreds(creds));
    Snoc(w, log, ReadCreds(creds));
  }

  /** An exchange of the token on disk, and the save that follows a grant, keep the world sound. */
  lemma ExchangeKeeps(w: World, log: seq<Event>, token: string, x: Exchange)
    requires token != "" && KeptHolding(w, log, token)
    ensures var sent := log + [Refresh(token, x.now, x.reply, x.repliedAt)];
            (!x.reply.Granted? ==> Kept(w, sent))
            && (x.reply.Granted? ==> Kept(w, sent + [Save(x.reply.access, x.reply.refresh, x.saved)]))
  {
    hide SendsDiskToken, Consistent, After;
    var e := Refresh(token, x.now, x.reply, x.repliedAt);
    Snoc(w, log, e);
    if SendsDiskToken(w, log) { SendsImpliesSound(w, log); }
    if x.reply.Granted? {
      Snoc(w, log + [e], Save(x.reply.access, x.reply.refresh, x.saved));
    }
  }

  lemma OnRateLimitedKeeps(w: World, s: Agent, retryAfter: nat, now: int)
    requires Kept(w, s.log)
    ensures Kept(w, OnRateLimited(s, retryAfter, now).log)
  {
    hide Kept, KeptHolding, RateLimitBackoff;
    var d: int := if retryAfter > 0 then retryAfter else RateLimitBackoff(s.rateLimitFailCount + 1);
    QuietKeeps(w, s.log, Backoff(now, now + d, retryAfter > 0));
  }

  lemma ProactiveSettleKeeps(w: World, s: Agent, x: Exchange, token: string)
    requires token != "" && KeptHolding(w, s.log, token)
    ensures Kept(w, ProactiveSettle(s.Emit(Refresh(token, x.now, x.reply, x.repliedAt)), x).log)
  {
    hide Kept, KeptHolding, OnRateLimited;
    ExchangeKeeps(w, s.log, token, x);
    var s1 := s.Emit(Refresh(token, x.now, x.reply, x.repliedAt));
    match x.reply
    case RateLimited(d) => OnRateLimitedKeeps(w, s1, d, x.repliedAt);
    case InvalidGrant =>
    case RefreshFailed(_) =>
    case Granted(access, refresh) =>
      QuietKeeps(w, s1.log + [Save(access, refresh, x.saved)], Install(access, Grant));
  }

  lemma BypassSettleKeeps(w: World, s: Agent, x: Exchange, token: string, usage: UsageReply)
    requires token != "" && KeptHolding(w, s.log, token)
    ensures Kept(w, BypassSettle(s.Emit(Refresh(token, x.now, x.reply, x.repliedAt)), x, usage).s.log)
  {
    hide Kept, KeptHolding, OnRateLimited, RateLimitBackoff;
    ExchangeKeeps(w, s.log, token, x);
    var s1 := s.Emit(Refresh(token, x.now, x.reply, x.repliedAt));
    match x.reply
    case RateLimited(d) => OnRateLimitedKeeps(w, s1, d, x.repliedAt);
    case InvalidGrant =>
    case RefreshFailed(_) =>
      QuietKeeps(w, s1.log, Backoff(x.repliedAt, x.repliedAt + RateLimitBackoff(s.rateLimitFailCount + 1), false));
    case Granted(access, refresh) =>
      var l := s1.log + [Save(access, refresh, x.saved)];
      QuietKeeps(w, l, Install(access, Grant));
      QuietKeeps(w, l + [Install(access, Grant)], Fetch(access, Bypass, usage));
  }

  lemma ProactivePhaseKeeps(w: World, cfg: Config, s: Agent, x: Exchange)
    requires Kept(w, s.log)
    ensures Kept(w, ProactivePhase(cfg, s, x).log)
  {
    hide Kept, KeptHolding, ProactiveSettle;
    var read := s.Emit(ReadCreds(x.creds));
    ReadHolds(w, s.log, x.creds);
    QuietKeeps(w, read.log, ClaudeCheck(x.claudeRunning));
    if x.creds.Some? && x.creds.value.refresh != "" {
      ProactiveSettleKeeps(w, read.Emit(ClaudeCheck(x.claudeRunning)), x, x.creds.value.refresh);
    }
  }

  lemma BypassPhaseKeeps(w: World, cfg: Config, s: Agent, x: Exchange, usage: UsageReply)
    requires Kept(w, s.log)
    ensures Kept(w, BypassPhase(cfg, s, x, usage).s.log)
  {
    hide Kept, KeptHolding, BypassSettle;
    var checked := ExpireBackoff(s).Emit(ClaudeCheck(x.claudeRunning));
    QuietKeeps(w, s.log, ClaudeCheck(x.claudeRunning));
    ReadHolds(w, checked.log, x.creds);
    if x.creds.Some? && x.creds.value.refresh != "" {
      BypassSettleKeeps(w, checked.Emit(ReadCreds(x.creds)), x, x.creds.value.refresh, usage);
    }
  }

  lemma FetchPhaseKeeps(w: World, cfg: Config, s: Agent, env: PollEnv)
    requires Kept(w, s.log)
    ensures Kept(w, FetchPhase(cfg, s, env).s.log)
  {
    hide Kept, KeptHolding, BypassPhase;
    var s1 := s.Emit(Fetch(s.clientToken, Direct, env.usage));
    QuietKeeps(w, s.log, Fetch(s.clientToken, Direct, env.usage));
    BypassPhaseKeeps(w, cfg, s1, env.bypass, env.bypassUsage);
    QuietKeeps(w, s1.log, Install(env.retryToken, Reread));
    QuietKeeps(w, s1.log + [Install(env.retryToken, Reread)], Fetch(env.retryToken, Retry, env.retryUsage));
  }

  lemma PollKeeps(w: World, cfg: Config, s: Agent, env: PollEnv)
    requires Kept(w, s.log)
    ensures Kept(w, Poll(cfg, s, env).log)
  {
    hide Kept, KeptHolding, ProactivePhase, FetchPhase;
    if env.statusline.Usable? {
      QuietKeeps(w, s.log, Store(FromStatusline, env.statusline.inserted));
      QuietKeeps(w, s.log + [Store(FromStatusline, env.statusline.inserted)], Hybrid);
    }
    var start := StatuslinePhase(cfg, s, env.statusline).s;
    assert Kept(w, start.log);
    ProactivePhaseKeeps(w, cfg, start, env.proactive);
    var s1 := ProactivePhase(cfg, start, env.proactive);
    QuietKeeps(w, s1.log, Install(env.diskToken, DiskChange));
    var s2 := RereadPhase(cfg, s1, env.diskToken);
    FetchPhaseKeeps(w, cfg, s2, env);
    QuietKeeps(w, FetchPhase(cfg, s2, env).s.log, Store(FromApi, env.inserted));
  }

  lemma ForeignKeeps(w: World, log: seq<Event>, access: string, refresh: string)
    requires Kept(w, log)
    ensures Kept(w, log + [ForeignWrite(access, refresh)])
  {
    hide SendsDiskToken, Consistent, After;
    Snoc(w, log, ForeignWrite(access, refresh));
    if SendsDiskToken(w, log) { SendsImpliesSound(w, log); }
  }

  lemma {:induction false} RunKeeps(w: World, cfg: Config, s: Agent, inputs: seq<Input>)
    requires Kept(w, s.log)
    ensures Kept(w, Run(cfg, s, inputs).log)
    decreases |inputs|
  {
    hide Poll, Kept;
    if inputs != [] {
      match inputs[0] {
        case Tick(env) => PollKeeps(w, cfg, s, env);
        case Foreign(access, refresh) => ForeignKeeps(w, s.log, access, refresh);
      }
      RunKeeps(w, cfg, Step(cfg, s, inputs[0]), inputs[1..]);
    }
  }

  lemma {:induction false} PrefixOf(w: World, log: seq<Event>, i: nat)
    requires i <= |log| && SendsDiskToken(w, log) && Consistent(w, log)
    ensures SendsDiskToken(w, log[..i]) && Consistent(w, log[..i])
    ensures i < |log| ==> Allowed(After(w, log[..i]), log[i])
    ensures i < |log| ==> Proper(After(w, log[..i]), log[..i], log[i])
    decreases |log| - i
  {
    if i < |log| {
      PrefixOf(w, log, i + 1);
      assert log[..i + 1][..i] == log[..i];
    } else {
      assert log[..i] == log;
    }
  }

  /** The log of a run of the agent from a login, in the world the source relies on. */
  ghost predicate RunFromLogin(cfg: Config, token: string, w: World, inputs: seq<Input>) {
    && (exists access, refresh :: w == LoggedIn(access, refresh))
    && Consistent(w, Run(cfg, Initial(token), inputs).log)
  }

  lemma RunSendsDiskToken(cfg: Config, token: string, w: World, inputs: seq<Input>)
    requires RunFromLogin(cfg, token, w, inputs)
    ensures SendsDiskToken(w, Run(cfg, Initial(token), inputs).log)
  {
    assert Kept(w, []);
    RunKeeps(w, cfg, Initial(token), inputs);
  }

  /** Disk and server agree on the refresh token exactly when the latest grant was received and saved. */
  lemma DiskIsNextAccepted(cfg: Config, token: string, w: World, inputs: seq<Input>)
    requires RunFromLogin(cfg, token, w, inputs)
    ensures var end := After(w, Run(cfg, Initial(token), inputs).log);
            end.diskRefresh == end.accepts <==> end.saved
  {
    RunSendsDiskToken(cfg, token, w, inputs);
  }

  /** A refresh request carries the token the server accepts exactly when the latest grant was received and saved; else a used one. */
  lemma RequestTokenStatus(cfg: Config, token: string, w: World, inputs: seq<Input>, i: nat)
    requires RunFromLogin(cfg, token, w, inputs)
    requires i < |Run(cfg, Initial(token), inputs).log| && Run(cfg, Initial(token), inputs).log[i].Refresh?
    ensures var log := Run(cfg, Initial(token), inputs).log;
            var before := After(w, log[..i]);
            && (log[i].token == before.accepts <==> before.saved)
            && (log[i].token in before.spent <==> !before.saved)
  {
    var log := Run(cfg, Initial(token), inputs).log;
    RunSendsDiskToken(cfg, token, w, inputs);
    PrefixOf(w, log, i);
  }

  /** A grant did not reach the disk: saving it failed, or its answer was lost. */
  predicate Loses(e: Event) {
    (e.Save? && !e.ok) || (e.Refresh? && e.reply.RefreshFailed? && e.reply.lost.Some?)
  }

  /** The server used up the token of the request. */
  predicate Exchanges(e: Event) {
    e.Refresh? && (e.reply.Granted? || (e.reply.RefreshFailed? && e.reply.lost.Some?))
  }

  lemma {:induction false} Lossless(w: World, log: seq<Event>)
    requires w.lossless && forall k | 0 <= k < |log| :: !Loses(log[k])
    ensures After(w, log).lossless
  {
    if log != [] { Lossless(w, log[..|log| - 1]); }
  }

  lemma {:induction false} SpentStays(w: World, log: seq<Event>, i: nat, j: nat)
    requires i <= j <= |log|
    ensures After(w, log[..i]).spent <= After(w, log[..j]).spent
    decreases j
  {
    if i < j {
      SpentStays(w, log, i, j - 1);
      assert log[..j][..j - 1] == log[..j - 1];
    }
  }

  /** While every grant is received and saved, each request carries the accepted token, and no exchanged token is sent again. */
  lemma RefreshTokensAreUsedOnce(cfg: Config, token: string, w: World, inputs: seq<Input>, i: nat, j: nat)
    requires RunFromLogin(cfg, token, w, inputs)
    requires var log := Run(cfg, Initial(token), inputs).log;
             && i < j < |log| && Exchanges(log[i]) && log[j].Refresh?
             && forall k | 0 <= k < j :: !Loses(log[k])
    ensures var log := Run(cfg, Initial(token), inputs).log;
            log[j].token == After(w, log[..j]).accepts && log[j].token != log[i].token
  {
    var log := Run(cfg, Initial(token), inputs).log;
    RunSendsDiskToken(cfg, token, w, inputs);
    PrefixOf(w, log, j);
    Lossless(w, log[..j]);
    RequestTokenStatus(cfg, token, w, inputs, j);
    assert log[..i + 1][..i] == log[..i];
    SpentStays(w, log, i + 1, j);
  }

  lemma {:induction false} StuckUntilForeignWrite(w: World, log: seq<Event>, i: nat, j: nat)
    requires SendsDiskToken(w, log) && Consistent(w, log)
    requires i < j <= |log| && Loses(log[i])
    requires forall k | i < k < j :: !log[k].ForeignWrite?
    ensures !After(w, log[..j]).saved
    ensures i < j - 1 ==> !Exchanges(log[j - 1])
    ensures log[j - 1].Save? ==> i == j - 1
    decreases j
  {
    PrefixOf(w, log, j - 1);
    assert log[..j][..j - 1] == log[..j - 1];
    if j == i + 1 {
      if log[i].Save? {
        assert log[..i][..i - 1] == log[..i - 1];
        PrefixOf(w, log, i - 1);
      }
    } else {
      StuckUntilForeignWrite(w, log, i, j - 1);
      SendsImpliesSound(w, log[..j - 1]);
    }
  }

  /** After a lost grant every further request sends an exchanged token and is not granted, until another process writes. */
  lemma LostGrantSticks(cfg: Config, token: string, w: World, inputs: seq<Input>, i: nat, j: nat)
    requires RunFromLogin(cfg, token, w, inputs)
    requires var log := Run(cfg, Initial(token), inputs).log;
             && i < j < |log| && Loses(log[i]) && log[j].Refresh?
             && forall k | i < k < j :: !log[k].ForeignWrite?
    ensures var log := Run(cfg, Initial(token), inputs).log;
            log[j].token in After(w, log[..j]).spent && !Exchanges(log[j])
  {
    var log := Run(cfg, Initial(token), inputs).log;
    RunSendsDiskToken(cfg, token, w, inputs);
    StuckUntilForeignWrite(w, log, i, j);
    RequestTokenStatus(cfg, token, w, inputs, j);
    StuckUntilForeignWrite(w, log, i, j + 1);
  }
}
