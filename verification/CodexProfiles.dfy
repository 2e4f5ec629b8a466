/**
  Codex agents that share a directory of profile files and the global auth.json.
  Reading a file, deciding, and writing a file back are separate steps of an agent.
 */
module CodexProfiles {
  import opened Common

  // ----- account ids -----

  /** White space as Go's strings.TrimSpace sees it. */
  predicate Space(c: char) {
    || c in "\t\n\r " || c == '\U{B}' || c == '\U{C}' || c == '\U{85}' || c == '\U{A0}' || c == '\U{1680}'
    || '\U{2000}' <= c <= '\U{200A}' || c == '\U{2028}' || c == '\U{2029}' || c == '\U{202F}'
    || c == '\U{205F}' || c == '\U{3000}'
  }

  function TrimLeft(s: string): string {
    if s != "" && Space(s[0]) then TrimLeft(s[1..]) else s
  }

  function TrimRight(s: string): string {
    if s != "" && Space(s[|s| - 1]) then TrimRight(s[..|s| - 1]) else s
  }

  function Trim(s: string): string {
    TrimRight(TrimLeft(s))
  }

  lemma {:induction false} TrimLeftStops(s: string)
    ensures TrimLeft(s) == "" || !Space(TrimLeft(s)[0])
  {
    if s != "" && Space(s[0]) { TrimLeftStops(s[1..]); }
  }

  lemma {:induction false} TrimRightStops(s: string)
    ensures TrimRight(s) == "" || !Space(TrimRight(s)[|TrimRight(s)| - 1])
    ensures s != "" && !Space(s[0]) ==> TrimRight(s) != "" && TrimRight(s)[0] == s[0]
  {
    if s != "" && Space(s[|s| - 1]) { TrimRightStops(s[..|s| - 1]); }
  }

  lemma TrimTwice(s: string)
    ensures Trim(Trim(s)) == Trim(s)
  {
    TrimLeftStops(s);
    TrimRightStops(TrimLeft(s));
  }

  // ----- credentials -----

  const DEFAULT_PROFILE := "default"
  const REFRESH_THRESHOLD: int := 6 * 60 * 60 * 1000

  /**
    owner is the id of the account a token was issued for, which no operation looks at. expiry and user are
    what an id token tells of itself.
   */
  datatype Token = Empty | Issued(owner: string, serial: int, expiry: Option<int>, user: string)

  datatype Tokens = Tokens(access: Token, refresh: Token, idToken: Token)

  /** A profile file, and auth.json too, which has no user. */
  datatype Profile = Profile(account: string, user: string, tokens: Tokens, apiKey: string)

  /** Credentials read at a moment, which fixes how long they have left. */
  datatype Creds = Creds(account: string, user: string, tokens: Tokens, apiKey: string, readAt: int)
  {
    function ExpiresAt(): Option<int> {
      if tokens.idToken.Issued? then tokens.idToken.expiry else None
    }

    predicate IsExpired() {
      ExpiresAt().Some? && ExpiresAt().value - readAt <= 0
    }

    predicate IsExpiringSoon() {
      ExpiresAt().Some? && ExpiresAt().value - readAt < REFRESH_THRESHOLD
    }
  }

  function UserOf(idToken: Token): string {
    if idToken.Issued? then idToken.user else ""
  }

  function CredsFrom(p: Profile, now: int): Creds {
    Creds(Trim(p.account), if Trim(p.user) != "" then Trim(p.user) else UserOf(p.tokens.idToken), p.tokens, p.apiKey, now)
  }

  function AuthCreds(p: Profile, now: int): Creds {
    Creds(Trim(p.account), UserOf(p.tokens.idToken), p.tokens, p.apiKey, now)
  }

  function ReadProfile(files: map<string, Profile>, name: string, readable: bool, now: int): Option<Creds> {
    if readable && name in files then Some(CredsFrom(files[name], now)) else None
  }

  /** The credentials of auth.json, or else the token of the environment, which has no account id. */
  function Detect(auth: Option<Profile>, environment: Token, now: int): Option<Creds> {
    if auth.Some? && (auth.value.tokens.access.Issued? || auth.value.apiKey != "") then Some(AuthCreds(auth.value, now))
    else if environment.Issued? then Some(Creds("", "", Tokens(environment, Empty, Empty), "", now))
    else None
  }

  /** Whether a named profile takes the credentials of auth.json. */
  function ShouldUseSystemCreds(profile: Option<Creds>, system: Option<Creds>, expected: string): (use: bool)
    ensures use ==> system.Some? && Trim(system.value.account) != "" && Trim(expected) in {"", Trim(system.value.account)}
  {
    if system.None? then false
    else
      var account := Trim(system.value.account);
      if account == "" then false
      else if Trim(expected) != "" && Trim(expected) != account then false
      else if profile.Some? && Trim(profile.value.account) != "" && Trim(profile.value.account) != account then false
      else if profile.None? then system.value.tokens.access.Issued? || system.value.apiKey != ""
      else
        var p, s := profile.value, system.value;
        if p.tokens.access.Empty? && s.tokens.access.Issued? then true
        else if p.ExpiresAt().Some? && s.ExpiresAt().Some? && s.ExpiresAt().value > p.ExpiresAt().value then true
        else if p.IsExpired() && !s.IsExpired() then true
        else s.tokens.access.Issued? && s.tokens.access != p.tokens.access
  }

  /**
    The credentials of auth.json are taken exactly if they name an account, neither the agent nor its file names
    another, and they are an alternative: of another access token, of later expiry, or not expired where the file's are.
   */
  lemma WhenSystemCredsAreUsed(profile: Option<Creds>, system: Option<Creds>, expected: string)
    ensures ShouldUseSystemCreds(profile, system, expected) <==>
      system.Some? &&
      var (s, account) := (system.value, Trim(system.value.account));
      && account != "" && Trim(expected) in {"", account}
      && (profile.Some? ==> Trim(profile.value.account) in {"", account})
      && match profile
         case None => s.tokens.access.Issued? || s.apiKey != ""
         case Some(p) =>
           || (s.tokens.access.Issued? && s.tokens.access != p.tokens.access)
           || (p.ExpiresAt().Some? && s.ExpiresAt().Some? && s.ExpiresAt().value > p.ExpiresAt().value)
           || (p.IsExpired() && !s.IsExpired())
  {
    hide Trim, Creds.IsExpired;
  }

  function Merge(t: Tokens, update: Tokens): Tokens {
    Tokens(if update.access.Issued? then update.access else t.access,
           if update.refresh.Issued? then update.refresh else t.refresh,
           if update.idToken.Issued? then update.idToken else t.idToken)
  }

  /** The file after taking over system credentials. The account id and the user are set only where they were missing. */
  function WithCreds(p: Profile, c: Creds): Profile {
    p.(tokens := Merge(p.tokens, c.tokens),
       account := if p.account == "" then c.account else p.account,
       user := if p.user == "" then c.user else p.user)
  }

  /** The file after saving refreshed tokens. A new id token that names a user sets the user. */
  function WithTokens(p: Profile, t: Tokens): Profile {
    p.(tokens := Merge(p.tokens, t), user := if UserOf(t.idToken) != "" then UserOf(t.idToken) else p.user)
  }

  /** auth.json after the default agent saved refreshed tokens. */
  function AuthWithTokens(auth: Option<Profile>, t: Tokens): Profile {
    var p := if auth.Some? then auth.value else Profile("", "", Tokens(Empty, Empty, Empty), "");
    p.(tokens := t.(idToken := if t.idToken.Issued? then t.idToken else p.tokens.idToken))
  }

  /** The value is the update if that was issued, else what was there before. */
  predicate Replaces(value: Token, before: Token, update: Token) {
    value == if update.Issued? then update else before
  }

  /** A save of refreshed tokens, field by field: each new token stands in its own field, everything else stays. */
  lemma SavesFieldByField(p: Profile, t: Tokens)
    ensures var q := WithTokens(p, t);
            && Replaces(q.tokens.access, p.tokens.access, t.access) && Replaces(q.tokens.refresh, p.tokens.refresh, t.refresh)
            && Replaces(q.tokens.idToken, p.tokens.idToken, t.idToken)
            && q.account == p.account && q.apiKey == p.apiKey
            && q.user == if t.idToken.Issued? && t.idToken.user != "" then t.idToken.user else p.user
  {
  }

  /** Taking over system credentials, field by field. */
  lemma UpdatesFieldByField(p: Profile, c: Creds)
    ensures var q := WithCreds(p, c);
            && Replaces(q.tokens.access, p.tokens.access, c.tokens.access)
            && Replaces(q.tokens.refresh, p.tokens.refresh, c.tokens.refresh)
            && Replaces(q.tokens.idToken, p.tokens.idToken, c.tokens.idToken) && q.apiKey == p.apiKey
            && q.account == (if p.account == "" then c.account else p.account)
            && q.user == (if p.user == "" then c.user else p.user)
  {
  }

  /** The default agent's save: access and refresh token are replaced in any case, the id token if it was issued. */
  lemma WritesFieldByField(auth: Option<Profile>, t: Tokens)
    ensures var q := AuthWithTokens(auth, t);
            && q.tokens.access == t.access && q.tokens.refresh == t.refresh
            && match auth
               case None => q.tokens.idToken == t.idToken && q.account == "" && q.user == "" && q.apiKey == ""
               case Some(p) =>
                 && Replaces(q.tokens.idToken, p.tokens.idToken, t.idToken)
                 && q.account == p.account && q.user == p.user && q.apiKey == p.apiKey
  {
  }

  /** Reading a profile keeps each token in its field; a missing user is told by the id token. */
  lemma ReadsFieldByField(files: map<string, Profile>, name: string, readable: bool, now: int)
    ensures var c := ReadProfile(files, name, readable, now);
            && (c.None? <==> !readable || name !in files)
            && (c.Some? ==>
                  && c.value.tokens.access == files[name].tokens.access && c.value.tokens.refresh == files[name].tokens.refresh
                  && c.value.tokens.idToken == files[name].tokens.idToken && c.value.apiKey == files[name].apiKey
                  && c.value.account == Trim(files[name].account) && c.value.readAt == now
                  && c.value.user == if Trim(files[name].user) != "" then Trim(files[name].user)
                                     else if files[name].tokens.idToken.Issued? then files[name].tokens.idToken.user else "")
  {
    hide Trim;
  }

  /** System credentials are those of auth.json if it holds an access token or an API key, else the token of the environment. */
  lemma DetectsFieldByField(auth: Option<Profile>, environment: Token, now: int)
    ensures var c := Detect(auth, environment, now);
            if auth.Some? && (auth.value.tokens.access.Issued? || auth.value.apiKey != "")
            then && c.Some? && c.value.tokens.access == auth.value.tokens.access
                 && c.value.tokens.refresh == auth.value.tokens.refresh && c.value.tokens.idToken == auth.value.tokens.idToken
                 && c.value.apiKey == auth.value.apiKey && c.value.account == Trim(auth.value.account) && c.value.readAt == now
                 && c.value.user == if auth.value.tokens.idToken.Issued? then auth.value.tokens.idToken.user else ""
            else if environment.Issued?
            then c == Some(Creds("", "", Tokens(environment, Empty, Empty), "", now))
            else c == None
  {
    hide Trim;
  }

  /** Credentials expire soon within six hours of the expiry of their id token, and have expired at it. */
  lemma ExpiryMeaning(c: Creds)
    ensures var known := c.tokens.idToken.Issued? && c.tokens.idToken.expiry.Some?;
            && (c.IsExpiringSoon() <==> known && c.readAt > c.tokens.idToken.expiry.value - 21_600_000)
            && (c.IsExpired() <==> known && c.readAt >= c.tokens.idToken.expiry.value)
  {
  }

  // ----- the agents -----

  datatype Purpose = ForBearer | ForExchange

  /** Where an agent is in one of its three callbacks, with what it has read so far. */
  datatype Work =
    | Idle
    | HasProfile(purpose: Purpose, profile: Option<Creds>)
    | Updating(purpose: Purpose, profile: Option<Creds>, system: Creds)
    | WritingUpdate(purpose: Purpose, profile: Option<Creds>, system: Creds, file: Profile)
    | Exchanging(refresh: Token)
    | Saving(tokens: Tokens)
    | WritingTokens(tokens: Tokens, file: Profile)

  /** expected and initial come from the profile as it was when the agent started. */
  datatype Agent = Agent(name: string, expected: string, initial: Token, bearer: Token, work: Work)
  {
    predicate IsDefault() { name == DEFAULT_PROFILE }

    function Bear(token: Token): Agent {
      this.(work := Idle, bearer := if token.Issued? then token else bearer)
    }

    /** The poll exchanges credentials that expire soon. */
    function Consider(c: Option<Creds>): Agent {
      this.(work := if c.Some? && c.value.IsExpiringSoon() && c.value.tokens.refresh.Issued?
                    then Exchanging(c.value.tokens.refresh) else Idle)
    }

    function FromProfile(purpose: Purpose, profile: Option<Creds>): Agent {
      match purpose
      case ForBearer => Bear(if profile.Some? && profile.value.tokens.access.Issued? then profile.value.tokens.access else initial)
      case ForExchange => Consider(profile)
    }

    function FromSystem(purpose: Purpose, profile: Option<Creds>, system: Creds): Agent {
      match purpose
      case ForBearer => if system.tokens.access.Issued? then Bear(system.tokens.access) else FromProfile(ForBearer, profile)
      case ForExchange => Consider(Some(system))
    }
  }

  /** auth is None when auth.json is missing or cannot be parsed; a save then starts a new file. */
  datatype State = State(files: map<string, Profile>, auth: Option<Profile>, environment: Token, agents: seq<Agent>)

  datatype Step =
    | Launch(name: string)
    | Begin(i: nat, purpose: Purpose, readable: bool, now: int)
    | Advance(i: nat, ok: bool, now: int)
    | Reply(i: nat, granted: Option<Tokens>)
    | Login(owner: string, auth: Option<Profile>)
    | SaveProfile(name: string, profile: Profile)
    | DeleteProfile(name: string)

  /**
    The authorization server answers a refresh token with tokens of its account. A login leaves tokens of the
    account that logged in, with its id or none; a logout leaves nothing.
   */
  predicate Enabled(s: State, step: Step) {
    match step
    case Launch(name) => name in s.files || (name == DEFAULT_PROFILE && s.auth.Some?)
    case Begin(i, _, _, _) => i < |s.agents| && s.agents[i].work.Idle?
    case Advance(i, _, _) => i < |s.agents|
    case Reply(i, granted) =>
      i < |s.agents| && s.agents[i].work.Exchanging?
      && (granted.Some? ==> s.agents[i].work.refresh.Issued? && granted.value.access.Issued?
                            && Owned(granted.value, s.agents[i].work.refresh.owner))
    case Login(owner, auth) => auth.Some? ==> BelongsTo(auth.value, owner)
    case _ => true
  }

  /** The start of a callback. A named profile whose file is good for hours needs nothing else. */
  function BeginWork(s: State, a: Agent, purpose: Purpose, readable: bool, now: int): Agent {
    if a.IsDefault() then
      var system := Detect(s.auth, s.environment, now);
      match purpose
      case ForBearer => a.Bear(if system.Some? then system.value.tokens.access else a.initial)
      case ForExchange => a.Consider(system)
    else
      var profile := ReadProfile(s.files, a.name, readable, now);
      if profile.Some? && !profile.value.IsExpiringSoon() && (purpose.ForExchange? || profile.value.tokens.access.Issued?)
      then a.FromProfile(purpose, profile)
      else a.(work := HasProfile(purpose, profile))
  }

  function Put(s: State, i: nat, a: Agent): State
    requires i < |s.agents|
  {
    s.(agents := s.agents[i := a])
  }

  function AdvanceAgent(s: State, i: nat, ok: bool, now: int): State
    requires i < |s.agents|
  {
    var a := s.agents[i];
    match a.work
    case HasProfile(purpose, profile) =>
      var system := Detect(s.auth, s.environment, now);
      Put(s, i, if ShouldUseSystemCreds(profile, system, a.expected) then a.(work := Updating(purpose, profile, system.value))
                else a.FromProfile(purpose, profile))
    case Updating(purpose, profile, system) =>
      Put(s, i, if ok && a.name in s.files then a.(work := WritingUpdate(purpose, profile, system, s.files[a.name]))
                else a.FromSystem(purpose, profile, system))
    case WritingUpdate(purpose, profile, system, file) =>
      Put(if ok then s.(files := s.files[a.name := WithCreds(file, system)]) else s,
          i, a.FromSystem(purpose, profile, system))
    case Saving(tokens) =>
      if a.IsDefault() then
        Put(s, i, if ok then a.(work := WritingTokens(tokens, AuthWithTokens(s.auth, tokens))) else a.(work := Idle))
      else
        Put(s, i, if ok && a.name in s.files then a.(work := WritingTokens(tokens, WithTokens(s.files[a.name], tokens)))
                  else a.(work := Idle))
    case WritingTokens(tokens, file) =>
      if !ok then Put(s, i, a.(work := Idle))
      else if a.IsDefault() then Put(s.(auth := Some(file)), i, a.Bear(tokens.access))
      else Put(s.(files := s.files[a.name := file]), i, a.Bear(tokens.access))
    case _ => s
  }

  function Next(s: State, step: Step): State {
    if !Enabled(s, step) then s
    else
      match step
      case Launch(name) =>
        var p := if name in s.files then s.files[name] else s.auth.value;
        s.(agents := s.agents + [Agent(name, p.account, p.tokens.access, p.tokens.access, Idle)])
      case Begin(i, purpose, readable, now) => Put(s, i, BeginWork(s, s.agents[i], purpose, readable, now))
      case Advance(i, ok, now) => AdvanceAgent(s, i, ok, now)
      case Reply(i, granted) =>
        Put(s, i, s.agents[i].(work := if granted.Some? then Saving(granted.value) else Idle))
      case Login(_, auth) => s.(auth := auth)
      case SaveProfile(name, profile) => s.(files := s.files[name := profile])
      case DeleteProfile(name) => s.(files := s.files - {name})
  }

  function Run(s: State, steps: seq<Step>): State
    decreases |steps|
  {
    if steps == [] then s else Run(Next(s, steps[0]), steps[1..])
  }

  lemma RunCons(s: State, step: Step, rest: seq<Step>)
    ensures Run(s, [step] + rest) == Run(Next(s, step), rest)
  {
    assert ([step] + rest)[1..] == rest;
  }

  lemma {:induction false} RunSplits(s: State, a: seq<Step>, b: seq<Step>)
    ensures Run(s, a + b) == Run(Run(s, a), b)
    decreases |a|
  {
    hide Next;
    if a == [] {
      assert a + b == b;
    } else {
      assert (a + b)[1..] == a[1..] + b;
      RunSplits(Next(s, a[0]), a[1..], b);
    }
  }

  // ----- whose tokens -----

  predicate OwnedToken(t: Token, owner: string) {
    t.Issued? ==> t.owner == owner
  }

  predicate Owned(t: Tokens, owner: string) {
    OwnedToken(t.access, owner) && OwnedToken(t.refresh, owner) && OwnedToken(t.idToken, owner)
  }

  /** A file with tokens of owner only, which names that account or none. */
  predicate BelongsTo(p: Profile, owner: string) {
    Owned(p.tokens, owner) && Trim(p.account) in {"", owner}
  }

  /** A file with the given account id, up to white space, that holds tokens of owner only. */
  predicate Matches(p: Profile, account: string, owner: string) {
    Trim(p.account) == account && Owned(p.tokens, owner)
  }

  predicate SameOwner(a: Token, b: Token) {
    a.Issued? && b.Issued? ==> a.owner == b.owner
  }

  /** All tokens are of one account, the one that the file names if it names one. */
  predicate OneAccount(p: Profile) {
    && SameOwner(p.tokens.access, p.tokens.refresh) && SameOwner(p.tokens.access, p.tokens.idToken)
    && SameOwner(p.tokens.refresh, p.tokens.idToken)
    && (Trim(p.account) != "" ==> Owned(p.tokens, Trim(p.account)))
  }

  predicate AuthOneAccount(s: State) {
    s.auth.Some? ==> OneAccount(s.auth.value)
  }

  // ----- auth.json -----

  /** The file names no account and tells no expiry, so that nobody takes or exchanges its tokens. */
  predicate Nameless(p: Profile) {
    Trim(p.account) == "" && p.tokens.idToken.Empty? && SameOwner(p.tokens.access, p.tokens.refresh)
  }

  predicate Fits(p: Profile, owner: string) {
    BelongsTo(p, owner) || Nameless(p)
  }

  /** A default agent in flight holds tokens of owner, or is about to write a file that fits. */
  predicate AgentFits(a: Agent, owner: string) {
    match a.work
    case Idle => true
    case Exchanging(refresh) => OwnedToken(refresh, owner)
    case Saving(tokens) => Owned(tokens, owner)
    case WritingTokens(_, file) => Fits(file, owner)
    case _ => false
  }

  predicate DefaultsFit(s: State, owner: string) {
    forall i | 0 <= i < |s.agents| && s.agents[i].IsDefault() :: AgentFits(s.agents[i], owner)
  }

  predicate AuthFits(s: State, owner: string) {
    (s.auth.Some? ==> Fits(s.auth.value, owner)) && DefaultsFit(s, owner)
  }

  lemma FittingAuthIsOneAccount(s: State, owner: string)
    requires AuthFits(s, owner)
    ensures AuthOneAccount(s)
  {
    hide Trim;
  }

  /** A login falls when every default agent in flight fits the account that logs in. */
  predicate LoginFits(s: State, step: Step) {
    step.Login? && Enabled(s, step) ==> DefaultsFit(s, step.owner)
  }

  function OwnerAfter(s: State, step: Step, owner: string): string {
    if step.Login? && Enabled(s, step) then step.owner else owner
  }

  lemma DefaultBeginFits(s: State, a: Agent, owner: string, purpose: Purpose, readable: bool, now: int)
    requires a.IsDefault() && a.work.Idle? && (s.auth.Some? ==> Fits(s.auth.value, owner))
    ensures AgentFits(BeginWork(s, a, purpose, readable, now), owner)
  {
    hide Trim;
  }

  lemma SavedFits(auth: Option<Profile>, tokens: Tokens, owner: string)
    requires (auth.Some? ==> Fits(auth.value, owner)) && Owned(tokens, owner)
    ensures Fits(AuthWithTokens(auth, tokens), owner)
  {
    TrimEmpty();
    hide Trim;
  }

  lemma DefaultAdvanceFits(s: State, i: nat, ok: bool, now: int, owner: string)
    requires AuthFits(s, owner) && i < |s.agents| && s.agents[i].IsDefault()
    ensures AuthFits(AdvanceAgent(s, i, ok, now), owner)
  {
    if s.agents[i].work.Saving? { SavedFits(s.auth, s.agents[i].work.tokens, owner); }
    hide Fits, AuthWithTokens, Owned;
  }

  lemma NextFits(s: State, step: Step, owner: string)
    requires AuthFits(s, owner) && LoginFits(s, step)
    ensures AuthFits(Next(s, step), OwnerAfter(s, step, owner))
  {
    StepTouches(s, step);
    if Enabled(s, step) {
      match step
      case Begin(i, purpose, readable, now) =>
        if s.agents[i].IsDefault() { DefaultBeginFits(s, s.agents[i], owner, purpose, readable, now); }
        hide BeginWork, Fits, AgentFits;
      case Advance(i, ok, now) =>
        if s.agents[i].IsDefault() { DefaultAdvanceFits(s, i, ok, now, owner); }
        hide AdvanceAgent, Fits, AgentFits;
      case Reply(i, _) => hide Fits;
      case Login(_, _) => hide AgentFits;
      case Launch(_) => hide Fits;
      case _ => hide Fits, AgentFits;
    }
  }

  predicate LoginsFit(s: State, steps: seq<Step>)
    decreases |steps|
  {
    steps == [] || (LoginFits(s, steps[0]) && LoginsFit(Next(s, steps[0]), steps[1..]))
  }

  /**
    Whatever the agents do, auth.json holds tokens of one account, the one it names if any, as long as no
    login of another account falls while a default agent is between reading its credentials and writing the file.
   */
  lemma {:induction false} AuthStaysOneAccount(s: State, steps: seq<Step>, owner: string)
    requires AuthFits(s, owner) && LoginsFit(s, steps)
    ensures AuthOneAccount(Run(s, steps))
    decreases |steps|
  {
    if steps == [] {
      FittingAuthIsOneAccount(s, owner);
    } else {
      NextFits(s, steps[0], owner);
      AuthStaysOneAccount(Next(s, steps[0]), steps[1..], OwnerAfter(s, steps[0], owner));
    }
  }

  predicate NoLogin(steps: seq<Step>) {
    forall i | 0 <= i < |steps| :: !steps[i].Login?
  }

  lemma {:induction false} NoLoginFits(s: State, steps: seq<Step>)
    requires NoLogin(steps)
    ensures LoginsFit(s, steps)
    decreases |steps|
  {
    hide Next;
    if steps != [] { NoLoginFits(Next(s, steps[0]), steps[1..]); }
  }

  /** What a complete login leaves: its account id and all three tokens, the id token with an expiry. */
  predicate FullLogin(p: Profile, owner: string) {
    && owner != "" && Trim(p.account) == owner && Owned(p.tokens, owner)
    && p.tokens.access.Issued? && p.tokens.refresh.Issued? && p.tokens.idToken.Issued? && p.tokens.idToken.expiry.Some?
  }

  /** However the agents go on after the login, without another one, auth.json holds tokens of one account. */
  ghost predicate LoginIsSafe(s: State, owner: string, p: Profile) {
    forall steps | NoLogin(steps) :: AuthOneAccount(Run(Next(s, Login(owner, Some(p))), steps))
  }

  /** The moments at which a login is safe are exactly those at which every default agent in flight fits it. */
  lemma LoginIsSafeWhenDefaultsFit(s: State, owner: string, another: string, p: Profile)
    requires AuthFits(s, owner) && FullLogin(p, another)
    ensures LoginIsSafe(s, another, p) <==> DefaultsFit(s, another)
  {
    var step := Login(another, Some(p));
    var s' := Next(s, step);
    assert Enabled(s, step) && s' == s.(auth := Some(p));
    if DefaultsFit(s, another) {
      NextFits(s, step, owner);
      forall steps | NoLogin(steps) ensures AuthOneAccount(Run(s', steps)) {
        NoLoginFits(s', steps);
        AuthStaysOneAccount(s', steps, another);
      }
    } else {
      var i :| 0 <= i < |s.agents| && s.agents[i].IsDefault() && !AgentFits(s.agents[i], another);
      assert AgentFits(s.agents[i], owner);
      hide Next;
      var steps := BreaksAuth(s', i, owner, another, p);
    }
  }

  /** A grant of an access token alone. */
  function Grant(owner: string): Tokens {
    Tokens(Issued(owner, 0, None, ""), Empty, Empty)
  }

  lemma BreaksAuth(s: State, i: nat, owner: string, another: string, p: Profile) returns (steps: seq<Step>)
    requires s.auth == Some(p) && FullLogin(p, another) && i < |s.agents| && s.agents[i].IsDefault()
    requires AgentFits(s.agents[i], owner) && !AgentFits(s.agents[i], another)
    ensures NoLogin(steps) && !AuthOneAccount(Run(s, steps))
  {
    var a := s.agents[i];
    match a.work
    case Saving(tokens) =>
      steps := [Advance(i, true, 0)] + ([Advance(i, true, 0)] + []);
      SavingBreaks(s, i, another, p);
      RunCons(s, Advance(i, true, 0), [Advance(i, true, 0)] + []);
      RunCons(Next(s, Advance(i, true, 0)), Advance(i, true, 0), []);
    case Exchanging(refresh) =>
      var granted := Reply(i, Some(Grant(refresh.owner)));
      var s1 := Next(s, granted);
      steps := [granted] + ([Advance(i, true, 0)] + ([Advance(i, true, 0)] + []));
      SavingBreaks(s1, i, another, p);
      RunCons(s, granted, steps[1..]);
      RunCons(s1, Advance(i, true, 0), [Advance(i, true, 0)] + []);
      RunCons(Next(s1, Advance(i, true, 0)), Advance(i, true, 0), []);
    case WritingTokens(_, _) =>
      steps := WritingBreaks(s, i, owner, another, p);
  }

  lemma SavingBreaks(s: State, i: nat, another: string, p: Profile)
    requires s.auth == Some(p) && FullLogin(p, another) && i < |s.agents| && s.agents[i].IsDefault()
    requires s.agents[i].work.Saving? && !Owned(s.agents[i].work.tokens, another)
    ensures !AuthOneAccount(Next(Next(s, Advance(i, true, 0)), Advance(i, true, 0)))
  {
    hide Trim;
    var tokens := s.agents[i].work.tokens;
    var s1 := Next(s, Advance(i, true, 0));
    assert s1 == Put(s, i, s.agents[i].(work := WritingTokens(tokens, AuthWithTokens(s.auth, tokens))));
    assert Next(s1, Advance(i, true, 0)).auth == Some(AuthWithTokens(s.auth, tokens));
  }

  /** The write undoes the login for a second default agent, whose save then mixes the two accounts. */
  lemma WritingBreaks(s: State, i: nat, owner: string, another: string, p: Profile) returns (steps: seq<Step>)
    requires s.auth == Some(p) && FullLogin(p, another) && i < |s.agents| && s.agents[i].IsDefault()
    requires s.agents[i].work.WritingTokens? && AgentFits(s.agents[i], owner) && !AgentFits(s.agents[i], another)
    ensures NoLogin(steps) && !AuthOneAccount(Run(s, steps))
  {
    hide Trim;
    var (j, file) := (|s.agents|, s.agents[i].work.file);
    var launch, begin := Launch(DEFAULT_PROFILE), Begin(j, ForExchange, true, p.tokens.idToken.expiry.value);
    var write, reply, save := Advance(i, true, 0), Reply(j, Some(Grant(another))), Advance(j, true, 0);
    steps := [launch] + ([begin] + ([write] + ([reply] + ([save] + ([save] + [])))));
    UndoesLogin(s, i, owner, another, p);
    var s1 := Next(s, launch);
    var s2 := Next(s1, begin);
    var s3 := Next(s2, write);
    var s4 := Next(s3, reply);
    hide Next, AuthOneAccount;
    MixedSave(s4, j, file, owner, another);
    RunCons(s, launch, steps[1..]);
    RunCons(s1, begin, [write] + ([reply] + ([save] + ([save] + []))));
    RunCons(s2, write, [reply] + ([save] + ([save] + [])));
    RunCons(s3, reply, [save] + ([save] + []));
    RunCons(s4, save, [save] + []);
    RunCons(Next(s4, save), save, []);
  }

  /** A second default agent starts to exchange the new login's tokens, then the first writes its file back. */
  lemma UndoesLogin(s: State, i: nat, owner: string, another: string, p: Profile)
    requires s.auth == Some(p) && FullLogin(p, another) && i < |s.agents| && s.agents[i].IsDefault()
    requires s.agents[i].work.WritingTokens?
    ensures var (j, file) := (|s.agents|, s.agents[i].work.file);
            var s2 := Next(Next(s, Launch(DEFAULT_PROFILE)), Begin(j, ForExchange, true, p.tokens.idToken.expiry.value));
            var s4 := Next(Next(s2, Advance(i, true, 0)), Reply(j, Some(Grant(another))));
            j < |s4.agents| && s4.agents[j].IsDefault() && s4.agents[j].work == Saving(Grant(another)) && s4.auth == Some(file)
  {
    hide Trim;
    var j := |s.agents|;
    var s1 := Next(s, Launch(DEFAULT_PROFILE));
    assert s1.agents[..j] == s.agents && s1.agents[j].IsDefault() && s1.agents[j].work.Idle? && s1.auth == s.auth;
    var s2 := Next(s1, Begin(j, ForExchange, true, p.tokens.idToken.expiry.value));
    assert s2.agents[j].work == Exchanging(p.tokens.refresh) && s2.agents[i] == s.agents[i];
    var s3 := Next(s2, Advance(i, true, 0));
    assert s3.auth == Some(s.agents[i].work.file) && s3.agents[j] == s2.agents[j];
  }

  lemma MixedSave(s: State, j: nat, file: Profile, owner: string, another: string)
    requires j < |s.agents| && s.agents[j].IsDefault() && s.agents[j].work == Saving(Grant(another)) && s.auth == Some(file)
    requires Fits(file, owner) && !Fits(file, another)
    ensures !AuthOneAccount(Next(Next(s, Advance(j, true, 0)), Advance(j, true, 0)))
  {
    hide Trim;
    var s1 := Next(s, Advance(j, true, 0));
    assert s1.agents[j].work == WritingTokens(Grant(another), AuthWithTokens(s.auth, Grant(another)));
    assert Next(s1, Advance(j, true, 0)).auth == Some(AuthWithTokens(s.auth, Grant(another)));
  }

  /** From the launch of the default agent: another account logs in while it exchanges its tokens, and they are mixed. */
  lemma {:induction false} LoginDuringDefaultSave(p: Profile, owner: string, p': Profile, another: string)
    requires FullLogin(p, owner) && FullLogin(p', another) && owner != another
    ensures exists rest :: NoLogin(rest) &&
              !AuthOneAccount(Run(State(map[], Some(p), Empty, []),
                                  [Launch(DEFAULT_PROFILE)] + ([Begin(0, ForExchange, true, p.tokens.idToken.expiry.value)]
                                                               + ([Login(another, Some(p'))] + rest))))
  {
    var s := State(map[], Some(p), Empty, []);
    var launch, begin := Launch(DEFAULT_PROFILE), Begin(0, ForExchange, true, p.tokens.idToken.expiry.value);
    var login := Login(another, Some(p'));
    var s1 := Next(s, launch);
    assert s1.agents[0].IsDefault() && s1.agents[0].work.Idle? && s1.auth == s.auth;
    var s2 := Next(s1, begin);
    assert s2.agents[0].work == Exchanging(p.tokens.refresh) && s2.agents[0].IsDefault();
    var s3 := Next(s2, login);
    assert s3.auth == Some(p') && s3.agents == s2.agents;
    var rest := BreaksAuth(s3, 0, owner, another, p');
    hide Next;
    RunCons(s, launch, [begin] + ([login] + rest));
    RunCons(s1, begin, [login] + rest);
    RunCons(s2, login, rest);
  }

  // ----- isolation of named profiles -----

  predicate Names(p: Profile, account: string) {
    Trim(p.account) == account
  }

  /** What auth.json offers to agents of the account is its own. */
  predicate Trusted(auth: Option<Profile>, account: string) {
    auth.Some? && Names(auth.value, account) ==> Owned(auth.value.tokens, account)
  }

  /** auth.json is about other accounts, and no default agent is about to change that. */
  predicate Away(s: State, account: string) {
    && (s.auth.Some? ==> !Names(s.auth.value, account))
    && (forall i | 0 <= i < |s.agents| && s.agents[i].IsDefault() && s.agents[i].work.WritingTokens? ::
          !Names(s.agents[i].work.file, account))
  }

  /** Either that, or auth.json and the default agents in flight fit the account. */
  predicate Guarded(s: State, account: string) {
    Away(s, account) || AuthFits(s, account)
  }

  /**
    A login may not name the account while a default agent holds other tokens, nor name another one
    while a default agent is about to write a file that names the account.
   */
  predicate LoginAllowed(s: State, step: Step, account: string) {
    step.Login? && Enabled(s, step) ==>
      || ((step.auth.Some? ==> Fits(step.auth.value, account)) && DefaultsFit(s, account))
      || Away(s.(auth := step.auth), account)
  }

  lemma GuardedIsTrusted(s: State, account: string)
    requires Guarded(s, account) && account != ""
    ensures Trusted(s.auth, account)
  {
    hide Trim;
  }

  lemma AwayAdvances(s: State, i: nat, ok: bool, now: int, account: string)
    requires Away(s, account) && account != "" && i < |s.agents| && s.agents[i].IsDefault()
    ensures Away(AdvanceAgent(s, i, ok, now), account)
  {
    TrimEmpty();
    hide Trim, Detect, ShouldUseSystemCreds;
  }

  lemma NextAway(s: State, step: Step, account: string)
    requires Away(s, account) && account != "" && !step.Login?
    ensures Away(Next(s, step), account)
  {
    StepTouches(s, step);
    if Enabled(s, step) {
      match step
      case Begin(_, _, _, _) => hide Names, Trim, Detect;
      case Advance(i, ok, now) =>
        if s.agents[i].IsDefault() { AwayAdvances(s, i, ok, now, account); }
        hide AdvanceAgent, Names;
      case _ => hide Names;
    }
  }

  lemma NextGuarded(s: State, step: Step, account: string)
    requires Guarded(s, account) && account != "" && LoginAllowed(s, step, account)
    ensures Guarded(Next(s, step), account)
  {
    if step.Login? {
      if Enabled(s, step) { assert Next(s, step) == s.(auth := step.auth); }
      hide Next, Names, Fits, AgentFits;
    } else {
      if Away(s, account) { NextAway(s, step, account); }
      if AuthFits(s, account) { NextFits(s, step, account); }
      hide Next, Away, AuthFits;
    }
  }

  predicate CleanWork(w: Work, account: string) {
    match w
    case Idle => true
    case HasProfile(_, profile) => profile.Some? ==> Owned(profile.value.tokens, account)
    case Updating(_, profile, system) => (profile.Some? ==> Owned(profile.value.tokens, account)) && Owned(system.tokens, account)
    case WritingUpdate(_, profile, system, file) =>
      (profile.Some? ==> Owned(profile.value.tokens, account)) && Owned(system.tokens, account) && Matches(file, account, account)
    case Exchanging(refresh) => OwnedToken(refresh, account)
    case Saving(tokens) => Owned(tokens, account)
    case WritingTokens(tokens, file) => Owned(tokens, account) && Matches(file, account, account)
  }

  /** An agent of the account, everything it holds included. */
  predicate CleanAgent(a: Agent, account: string) {
    && Trim(a.expected) == account && OwnedToken(a.initial, account) && OwnedToken(a.bearer, account)
    && CleanWork(a.work, account)
  }

  /** The named profile and all its agents, however many run at once, hold the account's tokens only. */
  predicate Clean(s: State, name: string, account: string) {
    && (name in s.files ==> Matches(s.files[name], account, account))
    && (forall i | 0 <= i < |s.agents| && s.agents[i].name == name :: CleanAgent(s.agents[i], account))
  }

  /** What the users have to respect: the moment of a login, and the account that the profile is saved for. */
  predicate Permitted(s: State, step: Step, name: string, account: string, owner: string) {
    && LoginAllowed(s, step, account)
    && (step.SaveProfile? && step.name == name ==> Matches(step.profile, account, owner))
  }

  predicate PermittedRun(s: State, steps: seq<Step>, name: string, account: string, owner: string)
    decreases |steps|
  {
    steps == [] || (Permitted(s, steps[0], name, account, owner) && PermittedRun(Next(s, steps[0]), steps[1..], name, account, owner))
  }

  /** Accepted system credentials belong to the account that the profile was started with. */
  lemma AcceptedCredsAreOwned(s: State, profile: Option<Creds>, expected: string, now: int)
    requires Trusted(s.auth, Trim(expected)) && Trim(expected) != ""
    requires ShouldUseSystemCreds(profile, Detect(s.auth, s.environment, now), expected)
    ensures Owned(Detect(s.auth, s.environment, now).value.tokens, Trim(expected))
  {
    if s.auth.Some? { TrimTwice(s.auth.value.account); }
    hide Trim;
    TrimEmpty();
  }

  lemma TrimEmpty()
    ensures Trim("") == ""
  {
  }

  lemma MatchesKept(p: Profile, c: Creds, account: string)
    requires account != "" && Matches(p, account, account) && Owned(c.tokens, account)
    ensures Matches(WithCreds(p, c), account, account)
  {
    TrimEmpty();
    hide Trim;
  }

  lemma BeginClean(s: State, a: Agent, account: string, purpose: Purpose, readable: bool, now: int)
    requires account != "" && CleanAgent(a, account) && !a.IsDefault()
    requires a.name in s.files ==> Matches(s.files[a.name], account, account)
    ensures CleanAgent(BeginWork(s, a, purpose, readable, now), account)
  {
    hide Trim;
  }

  lemma AdvanceClean(s: State, i: nat, ok: bool, now: int, account: string)
    requires i < |s.agents| && account != "" && !s.agents[i].IsDefault()
    requires Clean(s, s.agents[i].name, account) && Trusted(s.auth, account)
    ensures CleanAgent(AdvanceAgent(s, i, ok, now).agents[i], account)
    ensures var name := s.agents[i].name;
            var files := AdvanceAgent(s, i, ok, now).files;
            name in files ==> Matches(files[name], account, account)
  {
    var a := s.agents[i];
    assert CleanAgent(a, account);
    match a.work
    case HasProfile(_, profile) => DecisionClean(s, i, now, account);
      hide CleanAgent, AdvanceAgent;
    case WritingUpdate(_, _, system, file) => MatchesKept(file, system, account);
      hide WithCreds, Trim, Trusted;
    case _ => hide Trim, Trusted;
  }

  lemma DecisionClean(s: State, i: nat, now: int, account: string)
    requires i < |s.agents| && account != "" && CleanAgent(s.agents[i], account) && s.agents[i].work.HasProfile?
    requires Trusted(s.auth, account)
    ensures forall ok :: CleanAgent(AdvanceAgent(s, i, ok, now).agents[i], account) && AdvanceAgent(s, i, ok, now).files == s.files
  {
    var a := s.agents[i];
    if ShouldUseSystemCreds(a.work.profile, Detect(s.auth, s.environment, now), a.expected) {
      AcceptedCredsAreOwned(s, a.work.profile, a.expected, now);
    }
    hide Trim, Detect, ShouldUseSystemCreds, Trusted;
  }

  /** An agent's step touches itself, and the file of its name, or auth.json if it is the default agent. */
  lemma StepTouches(s: State, step: Step)
    ensures var s' := Next(s, step);
            var byAgent := (step.Begin? || step.Advance? || step.Reply?) && step.i < |s.agents|;
            && (byAgent ==> |s'.agents| == |s.agents| && s'.agents[step.i].name == s.agents[step.i].name)
            && (byAgent ==> forall j | 0 <= j < |s.agents| && j != step.i :: s'.agents[j] == s.agents[j])
            && (byAgent ==> s'.files - {s.agents[step.i].name} == s.files - {s.agents[step.i].name})
            && (s'.auth != s.auth ==> step.Login? || (byAgent && s.agents[step.i].IsDefault()))
  {
    hide Trim, Detect, ShouldUseSystemCreds;
  }

  lemma NextClean(s: State, step: Step, name: string, account: string)
    requires name != DEFAULT_PROFILE && account != "" && Clean(s, name, account) && Trusted(s.auth, account)
    requires Permitted(s, step, name, account, account)
    ensures Clean(Next(s, step), name, account)
  {
    StepTouches(s, step);
    var s' := Next(s, step);
    match step
    case Begin(i, purpose, readable, now) =>
      if Enabled(s, step) && s.agents[i].name == name { BeginClean(s, s.agents[i], account, purpose, readable, now); }
      hide BeginWork;
    case Advance(i, ok, now) =>
      if Enabled(s, step) {
        if s.agents[i].name == name { AdvanceClean(s, i, ok, now, account); }
        assert s' == AdvanceAgent(s, i, ok, now);
        hide AdvanceAgent, Next, CleanAgent;
        if s.agents[i].name != name {
          assert name in s'.files - {s.agents[i].name} <==> name in s'.files;
          assert name in s.files - {s.agents[i].name} <==> name in s.files;
          assert name in s.files ==> (s'.files - {s.agents[i].name})[name] == s'.files[name];
          assert name in s.files ==> (s.files - {s.agents[i].name})[name] == s.files[name];
        }
      }
    case Reply(i, _) =>
      if Enabled(s, step) && s.agents[i].name == name { assert CleanAgent(s.agents[i], account); }
    case Launch(_) =>
    case Login(_, _) =>
    case SaveProfile(_, _) =>
    case DeleteProfile(_) =>
  }

  /** The file keeps its account id and the account's own tokens, and the account's agents use no others. */
  lemma {:induction false} ProfilesAreIsolated(s: State, steps: seq<Step>, name: string, account: string)
    requires name != DEFAULT_PROFILE && account != "" && Clean(s, name, account) && Guarded(s, account)
    requires PermittedRun(s, steps, name, account, account)
    ensures Clean(Run(s, steps), name, account)
    decreases |steps|
  {
    if steps != [] {
      GuardedIsTrusted(s, account);
      NextClean(s, steps[0], name, account);
      NextGuarded(s, steps[0], account);
      ProfilesAreIsolated(Next(s, steps[0]), steps[1..], name, account);
    }
  }

  /** The step is a login, or the write of a default agent. */
  predicate WritesAuth(s: State, step: Step) {
    step.Login? || (step.Advance? && step.i < |s.agents| && s.agents[step.i].IsDefault() && s.agents[step.i].work.WritingTokens?)
  }

  /** In every run auth.json changes only by logins and writes of default agents; named agents never change it. */
  lemma {:induction false} NamedAgentsLeaveAuthAlone(s: State, steps: seq<Step>)
    ensures Run(s, steps).auth != s.auth ==>
              exists k :: 0 <= k < |steps| && WritesAuth(Run(s, steps[..k]), steps[k])
    decreases |steps|
  {
    hide Next, WritesAuth;
    if steps != [] {
      var s1 := Next(s, steps[0]);
      StepWritesAuth(s, steps[0]);
      NamedAgentsLeaveAuthAlone(s1, steps[1..]);
      if s1.auth != s.auth {
        assert Run(s, steps[..0]) == s;
      } else if Run(s, steps).auth != s.auth {
        var k :| 0 <= k < |steps[1..]| && WritesAuth(Run(s1, steps[1..][..k]), steps[1..][k]);
        assert steps[..k + 1] == [steps[0]] + steps[1..][..k];
        RunCons(s, steps[0], steps[1..][..k]);
        assert WritesAuth(Run(s, steps[..k + 1]), steps[k + 1]);
      }
    }
  }

  lemma StepWritesAuth(s: State, step: Step)
    ensures Next(s, step).auth != s.auth ==> WritesAuth(s, step)
  {
    StepTouches(s, step);
    hide Trim, Detect, ShouldUseSystemCreds, BeginWork;
  }

  // ----- when isolation fails -----

  /** One profile on disk, nothing running. */
  function OneProfile(name: string, p: Profile): State {
    State(map[name := p], None, Empty, [])
  }

  ghost predicate AlwaysIsolated(name: string, p: Profile, owner: string) {
    forall steps | PermittedRun(OneProfile(name, p), steps, name, Trim(p.account), owner) ::
      var s := Run(OneProfile(name, p), steps);
      name in s.files ==> Owned(s.files[name].tokens, owner)
  }

  /** A profile is isolated in every run exactly if its account id is not blank. */
  lemma BlankAccountsAreNotIsolated(name: string, p: Profile, owner: string)
    requires name != DEFAULT_PROFILE && owner != "" && Owned(p.tokens, owner) && (Trim(p.account) in {"", owner})
    ensures AlwaysIsolated(name, p, owner) <==> Trim(p.account) != ""
  {
    var s := OneProfile(name, p);
    if Trim(p.account) != "" {
      forall steps | PermittedRun(s, steps, name, owner, owner)
        ensures var s' := Run(s, steps); name in s'.files ==> Owned(s'.files[name].tokens, owner)
      {
        ProfilesAreIsolated(s, steps, name, owner);
      }
    } else {
      var steps := Contaminates(name, p, owner);
    }
  }

  /** Another account than owner, and what its login leaves in auth.json: tokens that outlive those of p. */
  function Other(owner: string): string {
    if owner == "x" then "y" else "x"
  }

  function Foreign(owner: string, p: Profile): Profile {
    var t := Issued(Other(owner), 0, Some(Expiry(p) + 1), "");
    Profile(Other(owner), "", Tokens(t, t, t), "")
  }

  function Expiry(p: Profile): int {
    if p.tokens.idToken.Issued? && p.tokens.idToken.expiry.Some? then p.tokens.idToken.expiry.value else 0
  }

  lemma Prepend(s: State, step: Step, rest: seq<Step>, name: string, account: string, owner: string)
    ensures Run(s, [step] + rest) == Run(Next(s, step), rest)
    ensures PermittedRun(s, [step] + rest, name, account, owner)
       <==> Permitted(s, step, name, account, owner) && PermittedRun(Next(s, step), rest, name, account, owner)
  {
    hide Next, Permitted;
    assert ([step] + rest)[1..] == rest;
  }

  lemma ForeignBelongs(owner: string, p: Profile)
    ensures BelongsTo(Foreign(owner, p), Other(owner)) && Trim(Other(owner)) == Other(owner)
  {
    assert TrimLeft("x") == TrimRight("x") == "x" && TrimLeft("y") == TrimRight("y") == "y";
  }

  /** An expired profile reads as such; one that does not tell its expiry has to be unreadable for a moment. */
  predicate TellsExpiry(p: Profile) {
    p.tokens.access.Empty? || (p.tokens.idToken.Issued? && p.tokens.idToken.expiry.Some?)
  }

  /** The agent with a blank account id takes over the other account's tokens. */
  lemma TakesForeign(s: State, name: string, p: Profile, owner: string)
    requires name != DEFAULT_PROFILE && Trim(p.account) == "" && name in s.files && s.files[name] == p
    requires s.agents == [Agent(name, p.account, p.tokens.access, p.tokens.access, Idle)]
    requires s.auth == Some(Foreign(owner, p))
    ensures var s1 := Next(s, Begin(0, ForBearer, TellsExpiry(p), Expiry(p)));
            var s2 := Next(s1, Advance(0, true, Expiry(p)));
            var s3 := Next(s2, Advance(0, true, Expiry(p)));
            var s4 := Next(s3, Advance(0, true, Expiry(p)));
            && s1.auth == s2.auth == s3.auth == s4.auth == s.auth
            && name in s4.files && s4.files[name].tokens.access == Foreign(owner, p).tokens.access
  {
    TrimEmpty();
    ForeignBelongs(owner, p);
    hide Trim;
    var s1 := Next(s, Begin(0, ForBearer, TellsExpiry(p), Expiry(p)));
    var profile := ReadProfile(s.files, name, TellsExpiry(p), Expiry(p));
    assert s1 == Put(s, 0, s.agents[0].(work := HasProfile(ForBearer, profile)));
    var system := AuthCreds(Foreign(owner, p), Expiry(p));
    var s2 := Next(s1, Advance(0, true, Expiry(p)));
    assert ShouldUseSystemCreds(profile, Some(system), p.account);
    assert s2 == Put(s1, 0, s1.agents[0].(work := Updating(ForBearer, profile, system)));
    hide ShouldUseSystemCreds;
    var s3 := Next(s2, Advance(0, true, Expiry(p)));
    assert s3 == Put(s2, 0, s2.agents[0].(work := WritingUpdate(ForBearer, profile, system, p)));
  }

  lemma ForeignLogin(name: string, p: Profile, owner: string)
    requires name != DEFAULT_PROFILE
    ensures var login := Login(Other(owner), Some(Foreign(owner, p)));
            var s0 := OneProfile(name, p);
            var s1 := Next(s0, Launch(name));
            && Permitted(s0, Launch(name), name, "", owner) && Permitted(s1, login, name, "", owner)
            && Next(s1, login) == State(map[name := p], Some(Foreign(owner, p)), Empty,
                                        [Agent(name, p.account, p.tokens.access, p.tokens.access, Idle)])
  {
    ForeignBelongs(owner, p);
    hide Trim;
  }

  lemma Contaminates(name: string, p: Profile, owner: string) returns (steps: seq<Step>)
    requires name != DEFAULT_PROFILE && Trim(p.account) == ""
    ensures PermittedRun(OneProfile(name, p), steps, name, "", owner)
    ensures var s := Run(OneProfile(name, p), steps);
            name in s.files && !Owned(s.files[name].tokens, owner)
  {
    hide Next, Permitted, Trim, Expiry, TellsExpiry, PermittedRun, Run;
    var login := Login(Other(owner), Some(Foreign(owner, p)));
    var b, c := Begin(0, ForBearer, TellsExpiry(p), Expiry(p)), Advance(0, true, Expiry(p));
    var rest := [b] + ([c] + ([c] + ([c] + [])));
    steps := [Launch(name)] + ([login] + rest);
    var s0 := OneProfile(name, p);
    var s1 := Next(s0, Launch(name));
    var s2 := Next(s1, login);
    ForeignLogin(name, p, owner);
    TakesForeign(s2, name, p, owner);
    RunOfFour(s2, b, c, c, c);
    QuietIsPermitted(s2, rest, name, "", owner);
    Prepend(s1, login, rest, name, "", owner);
    Prepend(s0, Launch(name), [login] + rest, name, "", owner);
  }

  lemma RunOfFour(s: State, a: Step, b: Step, c: Step, d: Step)
    ensures Run(s, [a] + ([b] + ([c] + ([d] + [])))) == Next(Next(Next(Next(s, a), b), c), d)
  {
    hide Next;
    RunCons(s, a, [b] + ([c] + ([d] + [])));
    RunCons(Next(s, a), b, [c] + ([d] + []));
    RunCons(Next(Next(s, a), b), c, [d] + []);
    RunCons(Next(Next(Next(s, a), b), c), d, []);
  }

  /** The steps of agents alone. */
  predicate Quiet(steps: seq<Step>) {
    forall i | 0 <= i < |steps| :: !steps[i].Login? && !steps[i].SaveProfile?
  }

  lemma {:induction false} QuietIsPermitted(s: State, steps: seq<Step>, name: string, account: string, owner: string)
    requires Quiet(steps)
    ensures PermittedRun(s, steps, name, account, owner)
    decreases |steps|
  {
    hide Next;
    if steps != [] { QuietIsPermitted(Next(s, steps[0]), steps[1..], name, account, owner); }
  }

  lemma {:induction false} PermittedSplits(s: State, a: seq<Step>, b: seq<Step>, name: string, account: string, owner: string)
    requires PermittedRun(s, a, name, account, owner) && PermittedRun(Run(s, a), b, name, account, owner)
    ensures PermittedRun(s, a + b, name, account, owner)
    decreases |a|
  {
    hide Next, Permitted;
    if a == [] {
      assert a + b == b;
    } else {
      assert (a + b)[1..] == a[1..] + b;
      PermittedSplits(Next(s, a[0]), a[1..], b, name, account, owner);
    }
  }

  // ----- a grant is used -----

  /** Nothing of the system beats the profile. */
  predicate Undisturbed(s: State, a: Agent, now: int) {
    a.name in s.files ==>
      !ShouldUseSystemCreds(Some(CredsFrom(s.files[a.name], now)), Detect(s.auth, s.environment, now), a.expected)
  }

  /**
    After a named agent's exchange was granted and saved, it bears the access token just granted. Its next exchange sends
    the refresh token just granted, and a bearer read from the file later is the access token just granted.
   */
  lemma GrantIsUsedNext(s: State, i: nat, granted: Tokens, now: int)
    requires i < |s.agents| && !s.agents[i].IsDefault() && s.agents[i].name in s.files
    requires Enabled(s, Reply(i, Some(granted))) && granted.refresh.Issued?
    ensures var go := Advance(i, true, now);
            var s1 := Next(Next(Next(s, Reply(i, Some(granted))), go), go);
            var a := s1.agents[i];
            var file := s1.files[a.name];
            && a.work == Idle && a.bearer == granted.access && a.name in s1.files && s1.auth == s.auth
            && file.tokens.access == granted.access && file.tokens.refresh == granted.refresh
            && (Undisturbed(s1, a, now) && CredsFrom(file, now).IsExpiringSoon() ==>
                  Next(Next(s1, Begin(i, ForExchange, true, now)), go).agents[i].work == Exchanging(granted.refresh))
            && (Undisturbed(s1, a, now) ==>
                  Next(Next(s1, Begin(i, ForBearer, true, now)), go).agents[i].bearer == granted.access)
  {
    hide Trim, Detect, ShouldUseSystemCreds, Creds.IsExpiringSoon;
    var (a, go) := (s.agents[i], Advance(i, true, now));
    var sa := Next(s, Reply(i, Some(granted)));
    assert sa == Put(s, i, a.(work := Saving(granted)));
    Saves(sa, i);
    var sb := Next(sa, go);
    assert sb == Put(s, i, a.(work := WritingTokens(granted, WithTokens(s.files[a.name], granted))));
    var s1 := Next(sb, go);
    assert s1.agents[i] == a.Bear(granted.access);
    assert s1.files[a.name] == WithTokens(s.files[a.name], granted);
    ReadAgain(s1, i, now);
  }

  lemma ReadAgain(s: State, i: nat, now: int)
    requires i < |s.agents| && !s.agents[i].IsDefault() && s.agents[i].name in s.files && s.agents[i].work.Idle?
    requires s.files[s.agents[i].name].tokens.access.Issued? && s.files[s.agents[i].name].tokens.refresh.Issued?
    ensures var (a, go) := (s.agents[i], Advance(i, true, now));
            var c := CredsFrom(s.files[a.name], now);
            Undisturbed(s, a, now) ==>
              && (c.IsExpiringSoon() ==>
                    Next(Next(s, Begin(i, ForExchange, true, now)), go).agents[i].work == Exchanging(c.tokens.refresh))
              && Next(Next(s, Begin(i, ForBearer, true, now)), go).agents[i].bearer == c.tokens.access
  {
    hide Trim, Detect, ShouldUseSystemCreds, Creds.IsExpiringSoon;
    var (a, go) := (s.agents[i], Advance(i, true, now));
    var c := CredsFrom(s.files[a.name], now);
    if Undisturbed(s, a, now) {
      if c.IsExpiringSoon() {
        var s1 := Next(s, Begin(i, ForExchange, true, now));
        assert s1 == Put(s, i, a.(work := HasProfile(ForExchange, Some(c))));
      }
      var s2 := Next(s, Begin(i, ForBearer, true, now));
      if c.IsExpiringSoon() {
        assert s2 == Put(s, i, a.(work := HasProfile(ForBearer, Some(c))));
      } else {
        assert s2 == Put(s, i, a.Bear(c.tokens.access));
      }
    }
  }

  /** A named agent that finds nothing better bears its file's access token, else the one it started with, else what it bore. */
  lemma BearsFileToken(s: State, i: nat, readable: bool, now: int)
    requires i < |s.agents| && !s.agents[i].IsDefault() && s.agents[i].work.Idle?
    ensures var (a, profile) := (s.agents[i], ReadProfile(s.files, s.agents[i].name, readable, now));
            !ShouldUseSystemCreds(profile, Detect(s.auth, s.environment, now), a.expected) ==>
              var s' := Next(Next(s, Begin(i, ForBearer, readable, now)), Advance(i, true, now));
              && s'.files == s.files && s'.auth == s.auth && s'.agents[i].work == Idle
              && s'.agents[i].bearer
                 == if readable && a.name in s.files && s.files[a.name].tokens.access.Issued? then s.files[a.name].tokens.access
                    else if a.initial.Issued? then a.initial else a.bearer
  {
    hide Trim, Detect, ShouldUseSystemCreds, Creds.IsExpiringSoon;
    var (a, profile) := (s.agents[i], ReadProfile(s.files, s.agents[i].name, readable, now));
    var s1 := Next(s, Begin(i, ForBearer, readable, now));
    if s1.agents[i].work.HasProfile? {
      assert s1 == Put(s, i, a.(work := HasProfile(ForBearer, profile)));
    } else {
      assert s1 == Put(s, i, a.FromProfile(ForBearer, profile));
    }
  }

  /** The same of a default agent and auth.json. */
  lemma DefaultGrantIsUsedNext(s: State, i: nat, granted: Tokens, now: int)
    requires i < |s.agents| && s.agents[i].IsDefault()
    requires Enabled(s, Reply(i, Some(granted))) && granted.refresh.Issued?
    ensures var go := Advance(i, true, now);
            var s1 := Next(Next(Next(s, Reply(i, Some(granted))), go), go);
            && s1.agents[i].work == Idle && s1.agents[i].bearer == granted.access && s1.files == s.files && s1.auth.Some?
            && s1.auth.value.tokens.access == granted.access && s1.auth.value.tokens.refresh == granted.refresh
            && Next(s1, Begin(i, ForBearer, true, now)).agents[i].bearer == granted.access
            && (AuthCreds(s1.auth.value, now).IsExpiringSoon() ==>
                  Next(s1, Begin(i, ForExchange, true, now)).agents[i].work == Exchanging(granted.refresh))
  {
    hide Trim, ShouldUseSystemCreds, Creds.IsExpiringSoon;
    var (a, go) := (s.agents[i], Advance(i, true, now));
    var sa := Next(s, Reply(i, Some(granted)));
    assert sa == Put(s, i, a.(work := Saving(granted)));
    var sb := Next(sa, go);
    assert sb == Put(s, i, a.(work := WritingTokens(granted, AuthWithTokens(s.auth, granted))));
    var s1 := Next(sb, go);
    assert s1.agents[i] == a.Bear(granted.access) && s1.auth == Some(AuthWithTokens(s.auth, granted));
  }

  /** Accepted system credentials are borne and exchanged as they are, and the file holds them afterwards. */
  lemma SystemCredsAreTakenOver(s: State, i: nat, purpose: Purpose, now: int)
    requires i < |s.agents| && !s.agents[i].IsDefault() && s.agents[i].work.HasProfile? && s.agents[i].work.purpose == purpose
    requires s.agents[i].name in s.files
    requires ShouldUseSystemCreds(s.agents[i].work.profile, Detect(s.auth, s.environment, now), s.agents[i].expected)
    ensures var (go, system) := (Advance(i, true, now), Detect(s.auth, s.environment, now).value);
            var s1 := Next(Next(Next(s, go), go), go);
            var file := s1.files[s.agents[i].name];
            && s.agents[i].name in s1.files
            && (system.tokens.access.Issued? ==> file.tokens.access == system.tokens.access)
            && (system.tokens.refresh.Issued? ==> file.tokens.refresh == system.tokens.refresh)
            && (system.tokens.idToken.Issued? ==> file.tokens.idToken == system.tokens.idToken)
            && (purpose == ForBearer && system.tokens.access.Issued? ==> s1.agents[i].bearer == system.tokens.access)
            && (purpose == ForExchange ==>
                  s1.agents[i].work == if system.IsExpiringSoon() && system.tokens.refresh.Issued?
                                       then Exchanging(system.tokens.refresh) else Idle)
  {
    hide Trim, Detect, ShouldUseSystemCreds, Creds.IsExpiringSoon;
    var (a, go, system) := (s.agents[i], Advance(i, true, now), Detect(s.auth, s.environment, now).value);
    var sa := Next(s, go);
    assert sa == Put(s, i, a.(work := Updating(purpose, a.work.profile, system)));
    var sb := Next(sa, go);
    assert sb == Put(s, i, a.(work := WritingUpdate(purpose, a.work.profile, system, s.files[a.name])));
    var s1 := Next(sb, go);
    assert s1.files[a.name] == WithCreds(s.files[a.name], system);
    assert s1.agents[i] == a.FromSystem(purpose, a.work.profile, system);
  }

  /** An agent starts with its profile's account id and access token; without anything better it goes on with that token. */
  lemma FallsBack(s: State, name: string, now: int)
    requires name != DEFAULT_PROFILE && name in s.files && s.files[name].tokens.access.Issued?
    ensures var (s1, i) := (Next(s, Launch(name)), |s.agents|);
            && |s1.agents| == i + 1 && s1.agents[..i] == s.agents && s1.agents[i].name == name && s1.agents[i].work == Idle
            && s1.agents[i].expected == s.files[name].account && s1.agents[i].bearer == s.files[name].tokens.access
            && (!ShouldUseSystemCreds(None, Detect(s.auth, s.environment, now), s.files[name].account) ==>
                  Next(Next(s1, Begin(i, ForBearer, false, now)), Advance(i, true, now)).agents[i].bearer
                  == s.files[name].tokens.access)
  {
    hide Trim, Detect, ShouldUseSystemCreds, Creds.IsExpiringSoon;
    var (s1, i) := (Next(s, Launch(name)), |s.agents|);
    var a := s1.agents[i];
    assert s1.auth == s.auth && s1.environment == s.environment;
    var s2 := Next(s1, Begin(i, ForBearer, false, now));
    assert s2 == Put(s1, i, a.(work := HasProfile(ForBearer, None)));
  }

  // ----- a login of the profile's own account -----

  /** Credentials of auth.json that name the account and are not its own reach its file, once that cannot be read for a moment. */
  lemma UntrustedAuthHarms(s: State, q: Profile, name: string, p: Profile, account: string) returns (steps: seq<Step>)
    requires name != DEFAULT_PROFILE && account != "" && s.auth == Some(q) && q.tokens.access.Issued?
    requires Names(q, account) && !Owned(q.tokens, account)
    requires name in s.files && s.files[name] == p && Matches(p, account, account)
    ensures Quiet(steps) && !HoldsOwn(Run(s, steps), name, account)
  {
    var j := |s.agents|;
    var launch, begin, go := Launch(name), Begin(j, ForBearer, false, 0), Advance(j, true, 0);
    TrimTwice(q.account);
    hide Trim;
    var a := Agent(name, p.account, p.tokens.access, p.tokens.access, Idle);
    var s1 := Next(s, launch);
    assert s1 == s.(agents := s.agents + [a]);
    var s2 := Next(s1, begin);
    assert s2 == s.(agents := s.agents + [a.(work := HasProfile(ForBearer, None))]);
    var s3 := Next(s2, go);
    assert ShouldUseSystemCreds(None, Some(AuthCreds(q, 0)), p.account);
    assert s3 == s.(agents := s.agents + [a.(work := Updating(ForBearer, None, AuthCreds(q, 0)))]);
    UpdatingHarms(s3, j, name, account);
    hide Next, ShouldUseSystemCreds;
    steps := [launch] + ([begin] + ([go] + ([go] + ([go] + []))));
    RunCons(s, launch, [begin] + ([go] + ([go] + ([go] + []))));
    RunOfFour(s1, begin, go, go, go);
  }

  /** A default agent's save, read and write. */
  lemma DefaultSaves(s: State, i: nat)
    requires i < |s.agents| && s.agents[i].IsDefault() && s.agents[i].work.Saving?
    ensures var s' := Next(Next(s, Advance(i, true, 0)), Advance(i, true, 0));
            s'.auth == Some(AuthWithTokens(s.auth, s.agents[i].work.tokens)) && s'.files == s.files
  {
    hide AuthWithTokens, Trim, Detect, ShouldUseSystemCreds;
    var tokens := s.agents[i].work.tokens;
    var s1 := Next(s, Advance(i, true, 0));
    assert s1 == Put(s, i, s.agents[i].(work := WritingTokens(tokens, AuthWithTokens(s.auth, tokens))));
  }

  /** While a default agent holds another account's tokens, from its read up to its save, a login of the own account does harm. */
  lemma OwnLoginHarms(s: State, i: nat, login: Profile, name: string, account: string) returns (steps: seq<Step>)
    requires i < |s.agents| && s.agents[i].IsDefault() && FullLogin(login, account) && name != DEFAULT_PROFILE
    requires match s.agents[i].work
             case Exchanging(refresh) => !OwnedToken(refresh, account)
             case Saving(tokens) => tokens.access.Issued? && !Owned(tokens, account)
             case _ => false
    requires name in s.files && Matches(s.files[name], account, account)
    ensures Quiet(steps) && !HoldsOwn(Run(Next(s, Login(account, Some(login))), steps), name, account)
  {
    var s1 := Next(s, Login(account, Some(login)));
    assert s1 == s.(auth := Some(login));
    hide Trim;
    steps := [];
    var s2 := s1;
    if s.agents[i].work.Exchanging? {
      var reply := Reply(i, Some(Grant(s.agents[i].work.refresh.owner)));
      steps := [reply] + [];
      s2 := Next(s1, reply);
      RunCons(s1, reply, []);
      assert s2.agents[i].work == Saving(Grant(s.agents[i].work.refresh.owner)) && s2.auth == Some(login) && s2.files == s.files;
    }
    assert Run(s1, steps) == s2;
    var tokens := s2.agents[i].work.tokens;
    var go := Advance(i, true, 0);
    var s3 := Next(Next(s2, go), go);
    DefaultSaves(s2, i);
    hide Next, FullLogin;
    var more := UntrustedAuthHarms(s3, AuthWithTokens(Some(login), tokens), name, s.files[name], account);
    RunCons(s2, go, [go] + more);
    RunCons(Next(s2, go), go, more);
    RunSplits(s1, steps, [go] + ([go] + more));
    steps := steps + ([go] + ([go] + more));
  }

  // ----- replacing a profile while agents of its name run -----

  /** The profile names the account and holds its tokens only. */
  predicate HoldsOwn(s: State, name: string, account: string) {
    name in s.files ==> Matches(s.files[name], account, account)
  }

  /** Nothing the agent holds can bring another account's tokens into the file. */
  predicate WorkHarmless(a: Agent, account: string) {
    match a.work
    case Idle => true
    case HasProfile(purpose, profile) =>
      var a' := a.FromProfile(purpose, profile); a'.work.Exchanging? ==> OwnedToken(a'.work.refresh, account)
    case Updating(_, _, system) => Owned(system.tokens, account)
    case WritingUpdate(_, _, system, file) => Matches(WithCreds(file, system), account, account)
    case Exchanging(refresh) => OwnedToken(refresh, account)
    case Saving(tokens) => Owned(tokens, account)
    case WritingTokens(_, file) => Matches(file, account, account)
  }

  /** An agent that has read its profile and goes on to auth.json is bound to the account, by its start or by what it read. */
  predicate DecidesFor(a: Agent, account: string) {
    a.work.HasProfile? ==>
      Trim(a.expected) == account || (a.work.profile.Some? && Trim(a.work.profile.value.account) == account)
  }

  /** The agent was started for the account too; if files can always be read, that does not matter. */
  predicate Harmless(a: Agent, account: string, readable: bool) {
    WorkHarmless(a, account) && if readable then DecidesFor(a, account) else Trim(a.expected) == account
  }

  predicate AllHarmless(s: State, name: string, account: string, readable: bool) {
    forall i | 0 <= i < |s.agents| && s.agents[i].name == name :: Harmless(s.agents[i], account, readable)
  }

  /** The step neither fails to read a file nor deletes the given one. */
  predicate Reliable(step: Step, name: string) {
    (step.Begin? ==> step.readable) && step != DeleteProfile(name)
  }

  lemma BeginHarmless(s: State, a: Agent, account: string, purpose: Purpose, readable: bool, now: int, reliable: bool)
    requires account != "" && Harmless(a, account, reliable) && !a.IsDefault() && HoldsOwn(s, a.name, account)
    requires reliable ==> readable && a.name in s.files
    ensures Harmless(BeginWork(s, a, purpose, readable, now), account, reliable)
  {
    if a.name in s.files { TrimTwice(s.files[a.name].account); }
    hide Trim;
  }

  lemma AdvanceHarmless(s: State, i: nat, ok: bool, now: int, account: string)
    requires i < |s.agents| && account != "" && !s.agents[i].IsDefault() && Trusted(s.auth, account)
    requires WorkHarmless(s.agents[i], account) && DecidesFor(s.agents[i], account) && HoldsOwn(s, s.agents[i].name, account)
    ensures var a' := AdvanceAgent(s, i, ok, now).agents[i];
            WorkHarmless(a', account) && !a'.work.HasProfile? && a'.expected == s.agents[i].expected
    ensures HoldsOwn(AdvanceAgent(s, i, ok, now), s.agents[i].name, account)
  {
    var a := s.agents[i];
    match a.work
    case HasProfile(_, _) => DecisionHarmless(s, i, ok, now, account);
      hide WorkHarmless, AdvanceAgent, HoldsOwn;
    case Updating(_, _, system) =>
      if a.name in s.files { MatchesKept(s.files[a.name], system, account); }
      hide Trim, WithCreds, Trusted;
    case _ => hide Trim, Trusted;
  }

  lemma DecisionHarmless(s: State, i: nat, ok: bool, now: int, account: string)
    requires i < |s.agents| && account != "" && Trusted(s.auth, account) && s.agents[i].work.HasProfile?
    requires WorkHarmless(s.agents[i], account) && DecidesFor(s.agents[i], account) && HoldsOwn(s, s.agents[i].name, account)
    ensures var a' := AdvanceAgent(s, i, ok, now).agents[i];
            WorkHarmless(a', account) && !a'.work.HasProfile? && a'.expected == s.agents[i].expected
    ensures HoldsOwn(AdvanceAgent(s, i, ok, now), s.agents[i].name, account)
  {
    var a := s.agents[i];
    if ShouldUseSystemCreds(a.work.profile, Detect(s.auth, s.environment, now), a.expected) {
      DecidedCredsAreOwned(s, a, account, now);
    }
    hide Trim, Detect, ShouldUseSystemCreds, Trusted, HoldsOwn;
    assert AdvanceAgent(s, i, ok, now).files == s.files;
    HoldsOwnDependsOnFiles(s, AdvanceAgent(s, i, ok, now), a.name, account);
  }

  lemma DecidedCredsAreOwned(s: State, a: Agent, account: string, now: int)
    requires Trusted(s.auth, account) && account != "" && a.work.HasProfile? && DecidesFor(a, account)
    requires ShouldUseSystemCreds(a.work.profile, Detect(s.auth, s.environment, now), a.expected)
    ensures Owned(Detect(s.auth, s.environment, now).value.tokens, account)
  {
    if s.auth.Some? { TrimTwice(s.auth.value.account); }
    TrimEmpty();
    hide Trim;
  }

  lemma HoldsOwnDependsOnFiles(s: State, s': State, name: string, account: string)
    requires s'.files == s.files && HoldsOwn(s, name, account)
    ensures HoldsOwn(s', name, account)
  {
  }

  lemma NextHarmless(s: State, step: Step, name: string, account: string, reliable: bool)
    requires name != DEFAULT_PROFILE && account != "" && HoldsOwn(s, name, account) && AllHarmless(s, name, account, reliable)
    requires Trusted(s.auth, account) && Permitted(s, step, name, account, account)
    requires reliable ==> name in s.files && Reliable(step, name)
    ensures HoldsOwn(Next(s, step), name, account) && AllHarmless(Next(s, step), name, account, reliable)
    ensures reliable ==> name in Next(s, step).files
  {
    StepTouches(s, step);
    var s' := Next(s, step);
    match step
    case Begin(i, purpose, readable, now) =>
      if Enabled(s, step) && s.agents[i].name == name {
        BeginHarmless(s, s.agents[i], account, purpose, readable, now, reliable);
      }
      hide BeginWork, Harmless;
    case Advance(i, ok, now) =>
      if Enabled(s, step) {
        if s.agents[i].name == name {
          AdvanceHarmless(s, i, ok, now, account);
          assert Harmless(AdvanceAgent(s, i, ok, now).agents[i], account, reliable);
        }
        assert s' == AdvanceAgent(s, i, ok, now);
        AdvanceKeepsFiles(s, i, ok, now, name);
        hide AdvanceAgent, Next, Harmless;
      }
    case Reply(i, _) =>
      if Enabled(s, step) && s.agents[i].name == name { assert Harmless(s.agents[i], account, reliable); }
    case Launch(_) =>
    case Login(_, _) => hide Harmless;
    case SaveProfile(_, _) => hide Harmless;
    case DeleteProfile(_) => hide Harmless;
  }

  lemma AdvanceKeepsFiles(s: State, i: nat, ok: bool, now: int, name: string)
    requires i < |s.agents|
    ensures var s' := AdvanceAgent(s, i, ok, now);
            && (name in s.files ==> name in s'.files)
            && (s.agents[i].name != name ==> (name in s'.files <==> name in s.files)
                                             && (name in s.files ==> s'.files[name] == s.files[name]))
  {
    hide Trim, Detect, ShouldUseSystemCreds, WithCreds, WithTokens, AuthWithTokens;
  }

  lemma {:induction false} HarmlessHoldsOwn(s: State, steps: seq<Step>, name: string, account: string, reliable: bool)
    requires name != DEFAULT_PROFILE && account != "" && HoldsOwn(s, name, account) && AllHarmless(s, name, account, reliable)
    requires Guarded(s, account) && PermittedRun(s, steps, name, account, account)
    requires reliable ==> name in s.files && forall i | 0 <= i < |steps| :: Reliable(steps[i], name)
    ensures HoldsOwn(Run(s, steps), name, account)
    decreases |steps|
  {
    hide HoldsOwn, AllHarmless, Guarded, Next, Reliable;
    if steps != [] {
      GuardedIsTrusted(s, account);
      NextHarmless(s, steps[0], name, account, reliable);
      NextGuarded(s, steps[0], account);
      HarmlessHoldsOwn(Next(s, steps[0]), steps[1..], name, account, reliable);
    }
  }

  // What an agent in flight can do: first the steps that bring it back to idle.

  function Drain(i: nat): seq<Step> {
    [Advance(i, false, 0)] + ([Advance(i, false, 0)] + ([Reply(i, None)] + []))
  }

  /** s' differs from s only in how far agent i is. */
  predicate Moved(s: State, s': State, i: nat)
    requires i < |s.agents|
  {
    && s'.files == s.files && s'.auth == s.auth && s'.environment == s.environment && |s'.agents| == |s.agents|
    && s'.agents[i].name == s.agents[i].name && s'.agents[i].expected == s.agents[i].expected
    && forall j | 0 <= j < |s.agents| && j != i :: s'.agents[j] == s.agents[j]
  }

  lemma DrainStep(s: State, i: nat)
    requires i < |s.agents|
    ensures var s' := Next(s, Advance(i, false, 0));
            && Moved(s, s', i) && !s'.agents[i].work.HasProfile?
            && (!s.agents[i].work.HasProfile? ==> s'.agents[i].work.Idle? || s'.agents[i].work.Exchanging?)
            && (s'.agents[i].work.Idle? || s'.agents[i].work.Exchanging? || s'.agents[i].work.Updating?)
  {
    hide Trim, Detect, ShouldUseSystemCreds;
  }

  lemma DrainOne(s: State, i: nat)
    requires i < |s.agents|
    ensures Moved(s, Run(s, Drain(i)), i) && Run(s, Drain(i)).agents[i].work.Idle? && Quiet(Drain(i))
  {
    var a := Advance(i, false, 0);
    var s1 := Next(s, a);
    var s2 := Next(s1, a);
    DrainStep(s, i);
    DrainStep(s1, i);
    RunCons(s, a, [a] + ([Reply(i, None)] + []));
    RunCons(s1, a, [Reply(i, None)] + []);
    RunCons(s2, Reply(i, None), []);
    hide AdvanceAgent;
  }

  /** Nothing but the work of default agents differs, and the first n of the agents are idle if default. */
  predicate Drained(s: State, s': State, n: nat) {
    && s'.files == s.files && s'.auth == s.auth && s'.environment == s.environment && |s'.agents| == |s.agents|
    && forall j | 0 <= j < |s.agents| ::
         && s'.agents[j].name == s.agents[j].name && (!s.agents[j].IsDefault() ==> s'.agents[j] == s.agents[j])
         && (j < n && s.agents[j].IsDefault() ==> s'.agents[j].work.Idle?)
  }

  lemma {:induction false} DrainDefaults(s: State, n: nat) returns (steps: seq<Step>)
    requires n <= |s.agents|
    ensures Quiet(steps) && Drained(s, Run(s, steps), n)
  {
    steps := [];
    if n > 0 {
      steps := DrainDefaults(s, n - 1);
      var s1 := Run(s, steps);
      if s1.agents[n - 1].IsDefault() {
        DrainOne(s1, n - 1);
        RunSplits(s, steps, Drain(n - 1));
        steps := steps + Drain(n - 1);
      }
    }
  }

  // Then what each kind of work leads to.

  /** A named agent's save: it reads the file, then writes it back with the tokens. */
  lemma Saves(s: State, i: nat)
    requires i < |s.agents| && !s.agents[i].IsDefault() && s.agents[i].work.Saving? && s.agents[i].name in s.files
    ensures var (name, tokens) := (s.agents[i].name, s.agents[i].work.tokens);
            Next(Next(s, Advance(i, true, 0)), Advance(i, true, 0)).files
            == s.files[name := WithTokens(s.files[name], tokens)]
  {
    var tokens := s.agents[i].work.tokens;
    hide WithTokens, Trim, Detect, ShouldUseSystemCreds;
    var s1 := Next(s, Advance(i, true, 0));
    assert s1 == Put(s, i, s.agents[i].(work := WritingTokens(tokens, WithTokens(s.files[s.agents[i].name], tokens))));
  }

  lemma SavingHarms(s: State, i: nat, name: string, account: string)
    requires i < |s.agents| && s.agents[i].name == name != DEFAULT_PROFILE && name in s.files
    requires s.agents[i].work.Saving? && !Owned(s.agents[i].work.tokens, account)
    ensures !HoldsOwn(Next(Next(s, Advance(i, true, 0)), Advance(i, true, 0)), name, account)
  {
    Saves(s, i);
    hide Trim, Next;
  }

  lemma UpdatingHarms(s: State, i: nat, name: string, account: string)
    requires i < |s.agents| && s.agents[i].name == name && name in s.files
    requires s.agents[i].work.Updating? && !Owned(s.agents[i].work.system.tokens, account)
    ensures !HoldsOwn(Next(Next(s, Advance(i, true, 0)), Advance(i, true, 0)), name, account)
  {
    hide Trim;
    var a := s.agents[i];
    var s1 := Next(s, Advance(i, true, 0));
    assert s1 == Put(s, i, a.(work := WritingUpdate(a.work.purpose, a.work.profile, a.work.system, s.files[name])));
  }

  lemma TwoSteps(s: State, a: Step, b: Step, name: string, account: string)
    requires Quiet([a, b])
    ensures Run(s, [a] + ([b] + [])) == Next(Next(s, a), b)
    ensures PermittedRun(s, [a] + ([b] + []), name, account, account)
  {
    hide Next;
    assert [a, b][0] == a && [a, b][1] == b;
    RunCons(s, a, [b] + []);
    RunCons(Next(s, a), b, []);
    QuietIsPermitted(s, [a] + ([b] + []), name, account, account);
  }

  /** Tokens of another account that an agent is exchanging, saving or writing reach the file. */
  lemma InFlightHarms(s: State, i: nat, name: string, account: string) returns (steps: seq<Step>)
    requires i < |s.agents| && s.agents[i].name == name != DEFAULT_PROFILE && name in s.files
    requires !s.agents[i].work.HasProfile? && !WorkHarmless(s.agents[i], account)
    ensures PermittedRun(s, steps, name, account, account) && !HoldsOwn(Run(s, steps), name, account)
  {
    var go := Advance(i, true, 0);
    match s.agents[i].work
    case Exchanging(refresh) =>
      var reply := Reply(i, Some(Grant(refresh.owner)));
      steps := [reply] + ([go] + ([go] + []));
      SavingHarms(Next(s, reply), i, name, account);
      RunCons(s, reply, [go] + ([go] + []));
      TwoSteps(Next(s, reply), go, go, name, account);
      QuietIsPermitted(s, steps, name, account, account);
    case Saving(_) =>
      steps := [go] + ([go] + []);
      SavingHarms(s, i, name, account);
      TwoSteps(s, go, go, name, account);
    case Updating(_, _, _) =>
      steps := [go] + ([go] + []);
      UpdatingHarms(s, i, name, account);
      TwoSteps(s, go, go, name, account);
    case WritingUpdate(_, _, _, _) =>
      steps := [go] + [];
      RunCons(s, go, []);
      QuietIsPermitted(s, steps, name, account, account);
    case WritingTokens(_, _) =>
      steps := [go] + [];
      RunCons(s, go, []);
      QuietIsPermitted(s, steps, name, account, account);
  }

  /** Old credentials that an agent has read, and is about to exchange, reach the file too. */
  lemma ReadHarms(s: State, i: nat, name: string, account: string) returns (steps: seq<Step>)
    requires i < |s.agents| && s.agents[i].name == name != DEFAULT_PROFILE && name in s.files
    requires s.agents[i].work.HasProfile? && !WorkHarmless(s.agents[i], account)
    requires DefaultsFit(s, account)
    ensures PermittedRun(s, steps, name, account, account) && !HoldsOwn(Run(s, steps), name, account)
  {
    var logout, go := Login(account, None), Advance(i, true, 0);
    var s1 := Next(s, logout);
    TrimEmpty();
    assert s1 == s.(auth := None) && Permitted(s, logout, name, account, account);
    var a := s.agents[i].FromProfile(s.agents[i].work.purpose, s.agents[i].work.profile);
    var s2 := Next(s1, go);
    assert s2 == Put(s1, i, a) by { hide Trim; }
    var rest := InFlightHarms(s2, i, name, account);
    steps := [logout] + ([go] + rest);
    hide Next, WorkHarmless, DefaultsFit;
    Prepend(s1, go, rest, name, account, account);
    Prepend(s, logout, [go] + rest, name, account, account);
  }

  /** A login that an agent started for another account, or for none, would take over. */
  function Tempting(expected: string, account: string): Profile {
    var o := if Trim(expected) == "" then Other(account) else Trim(expected);
    Profile(o, "", Grant(o), "")
  }

  lemma TemptingBelongs(expected: string, account: string)
    requires Trim(expected) != account
    ensures var p := Tempting(expected, account);
            BelongsTo(p, p.account) && Trim(p.account) == p.account && p.account !in {"", account}
  {
    TrimTwice(expected);
    assert TrimLeft("x") == TrimRight("x") == "x" && TrimLeft("y") == TrimRight("y") == "y";
  }

  /** An idle agent that was started for another account finds its file unreadable for a moment, and auth.json fitting. */
  lemma ExpectedHarms(s: State, i: nat, name: string, account: string) returns (steps: seq<Step>)
    requires i < |s.agents| && s.agents[i].name == name != DEFAULT_PROFILE && name in s.files
    requires s.agents[i].work.Idle? && Trim(s.agents[i].expected) != account
    requires forall j | 0 <= j < |s.agents| && s.agents[j].IsDefault() :: s.agents[j].work.Idle?
    ensures PermittedRun(s, steps, name, account, account) && !HoldsOwn(Run(s, steps), name, account)
  {
    var a := s.agents[i];
    var p := Tempting(a.expected, account);
    TemptingBelongs(a.expected, account);
    var login := Login(p.account, Some(p));
    var s1 := Next(s, login);
    LoginWhileIdle(s, p, name, account);
    var begin, go := Begin(i, ForBearer, false, 0), Advance(i, true, 0);
    hide Next, Permitted, Trim;
    Tempts(s1, i, account);
    UpdatingHarms(Next(Next(s1, begin), go), i, name, account);
    var rest := [begin] + ([go] + ([go] + ([go] + [])));
    steps := [login] + rest;
    RunOfFour(s1, begin, go, go, go);
    QuietIsPermitted(s1, rest, name, account, account);
    Prepend(s, login, rest, name, account, account);
  }

  lemma LoginWhileIdle(s: State, p: Profile, name: string, account: string)
    requires BelongsTo(p, p.account) && !Names(p, account)
    requires forall j | 0 <= j < |s.agents| && s.agents[j].IsDefault() :: s.agents[j].work.Idle?
    ensures Next(s, Login(p.account, Some(p))) == s.(auth := Some(p))
    ensures Permitted(s, Login(p.account, Some(p)), name, account, account)
  {
    hide Trim, BelongsTo, Names;
  }

  lemma Tempts(s: State, i: nat, account: string)
    requires i < |s.agents| && !s.agents[i].IsDefault() && s.agents[i].work.Idle?
    requires Trim(s.agents[i].expected) != account && s.auth == Some(Tempting(s.agents[i].expected, account))
    ensures var (a, p) := (s.agents[i], Tempting(s.agents[i].expected, account));
            Next(Next(s, Begin(i, ForBearer, false, 0)), Advance(i, true, 0))
            == Put(s, i, a.(work := Updating(ForBearer, None, AuthCreds(p, 0))))
  {
    var a := s.agents[i];
    var p := Tempting(a.expected, account);
    TemptingBelongs(a.expected, account);
    hide Trim;
    var s2 := Next(s, Begin(i, ForBearer, false, 0));
    assert s2 == Put(s, i, a.(work := HasProfile(ForBearer, None)));
    assert ShouldUseSystemCreds(None, Some(AuthCreds(p, 0)), a.expected);
    hide ShouldUseSystemCreds;
  }

  /** An agent that is not harmless can harm. */
  lemma Harms(s: State, i: nat, name: string, account: string) returns (steps: seq<Step>)
    requires i < |s.agents| && s.agents[i].name == name != DEFAULT_PROFILE && name in s.files
    requires !Harmless(s.agents[i], account, false)
    ensures PermittedRun(s, steps, name, account, account) && !HoldsOwn(Run(s, steps), name, account)
  {
    var drain := DrainDefaults(s, |s.agents|);
    var s1 := Run(s, drain);
    assert s1.agents[i] == s.agents[i];
    var rest: seq<Step>;
    if Trim(s.agents[i].expected) != account {
      DrainOne(s1, i);
      var s2 := Run(s1, Drain(i));
      var more := ExpectedHarms(s2, i, name, account);
      hide Harmless, HoldsOwn, Moved, Drained;
      RunSplits(s1, Drain(i), more);
      QuietIsPermitted(s1, Drain(i), name, account, account);
      PermittedSplits(s1, Drain(i), more, name, account, account);
      rest := Drain(i) + more;
    } else if s.agents[i].work.HasProfile? {
      rest := ReadHarms(s1, i, name, account);
    } else {
      rest := InFlightHarms(s1, i, name, account);
    }
    hide Harmless, HoldsOwn, Moved, Drained;
    RunSplits(s, drain, rest);
    QuietIsPermitted(s, drain, name, account, account);
    PermittedSplits(s, drain, rest, name, account, account);
    steps := drain + rest;
  }

  /** However the run goes on, the profile holds its own account's tokens only. */
  ghost predicate StaysOwn(s: State, name: string, account: string) {
    forall steps | PermittedRun(s, steps, name, account, account) :: HoldsOwn(Run(s, steps), name, account)
  }

  /**
    A profile that is saved for an account stays its own in every run exactly if every agent of its name was
    started for that account and has nothing of another one in flight. Idle agents of the former account count, too.
   */
  lemma ReplacedProfileStaysOwn(s: State, name: string, p: Profile, account: string)
    requires name != DEFAULT_PROFILE && account != "" && Matches(p, account, account) && Guarded(s, account)
    ensures StaysOwn(Next(s, SaveProfile(name, p)), name, account) <==> AllHarmless(s, name, account, false)
  {
    var s' := Next(s, SaveProfile(name, p));
    assert s' == s.(files := s.files[name := p]);
    if AllHarmless(s, name, account, false) {
      forall steps | PermittedRun(s', steps, name, account, account) ensures HoldsOwn(Run(s', steps), name, account) {
        HarmlessHoldsOwn(s', steps, name, account, false);
      }
    } else {
      var i :| 0 <= i < |s.agents| && s.agents[i].name == name && !Harmless(s.agents[i], account, false);
      hide Next, Harmless;
      var steps := Harms(s', i, name, account);
    }
  }

  /**
    While every file can be read and the profile is not deleted, only work in flight matters: replacing it is
    safe whenever its agents are idle, whatever account they were started for.
   */
  lemma IdleAgentsSpareReadableProfiles(s: State, steps: seq<Step>, name: string, p: Profile, account: string)
    requires name != DEFAULT_PROFILE && account != "" && Matches(p, account, account) && Guarded(s, account)
    requires forall i | 0 <= i < |s.agents| && s.agents[i].name == name :: s.agents[i].work.Idle?
    requires forall i | 0 <= i < |steps| :: Reliable(steps[i], name)
    requires PermittedRun(Next(s, SaveProfile(name, p)), steps, name, account, account)
    ensures HoldsOwn(Run(Next(s, SaveProfile(name, p)), steps), name, account)
  {
    IdleIsHarmless(s, name, p, account);
    hide Next, Run, PermittedRun, Guarded, AllHarmless, HoldsOwn, Reliable;
    HarmlessHoldsOwn(Next(s, SaveProfile(name, p)), steps, name, account, true);
  }

  lemma IdleIsHarmless(s: State, name: string, p: Profile, account: string)
    requires Matches(p, account, account) && Guarded(s, account)
    requires forall i | 0 <= i < |s.agents| && s.agents[i].name == name :: s.agents[i].work.Idle?
    ensures var s' := Next(s, SaveProfile(name, p));
            && name in s'.files && HoldsOwn(s', name, account) && AllHarmless(s', name, account, true)
            && Guarded(s', account)
  {
    hide Trim, Fits, AgentFits;
    assert Next(s, SaveProfile(name, p)) == s.(files := s.files[name := p]);
  }

  /** From the launch of an agent: even while it is idle, replacing its profile by another account's is not safe. */
  lemma ReplacedUnderIdleAgent(name: string, p: Profile, p': Profile, account: string)
    requires name != DEFAULT_PROFILE && account != "" && Matches(p', account, account) && Trim(p.account) != account
    ensures !StaysOwn(Next(Next(OneProfile(name, p), Launch(name)), SaveProfile(name, p')), name, account)
  {
    var s := Next(OneProfile(name, p), Launch(name));
    assert s.agents[0].name == name && s.agents[0].expected == p.account && !Harmless(s.agents[0], account, false);
    ReplacedProfileStaysOwn(s, name, p', account);
  }

  /** An agent with a complete login reads, finds no better credentials, and exchanges its refresh token. */
  function ToSaving(name: string, p: Profile, owner: string): seq<Step> {
    var expiry := if p.tokens.idToken.Issued? && p.tokens.idToken.expiry.Some? then p.tokens.idToken.expiry.value else 0;
    [Launch(name)] + ([Begin(0, ForExchange, true, expiry)] + ([Advance(0, true, 0)] + ([Reply(0, Some(Grant(owner)))] + [])))
  }

  lemma ReachesSaving(name: string, p: Profile, owner: string)
    requires name != DEFAULT_PROFILE && FullLogin(p, owner)
    ensures var a := Agent(name, p.account, p.tokens.access, p.tokens.access, Saving(Grant(owner)));
            Run(OneProfile(name, p), ToSaving(name, p, owner)) == OneProfile(name, p).(agents := [a])
  {
    var s := OneProfile(name, p);
    var begin, go, reply := Begin(0, ForExchange, true, p.tokens.idToken.expiry.value), Advance(0, true, 0), Reply(0, Some(Grant(owner)));
    var a := Agent(name, p.account, p.tokens.access, p.tokens.access, Idle);
    var s1 := Next(s, Launch(name));
    assert s1 == s.(agents := [a]);
    TrimEmpty();
    hide Trim;
    var s2 := Next(s1, begin);
    assert s2 == s.(agents := [a.(work := HasProfile(ForExchange, Some(CredsFrom(p, p.tokens.idToken.expiry.value))))]);
    var s3 := Next(s2, go);
    assert s3 == s.(agents := [a.(work := Exchanging(p.tokens.refresh))]);
    assert Next(s3, reply) == s.(agents := [a.(work := Saving(Grant(owner)))]);
    hide Next;
    RunOfFour(s, Launch(name), begin, go, reply);
  }

  /** A profile replaced while an agent is about to save: the file ends with the new id and the old account's token. */
  lemma SavesIntoReplaced(s: State, i: nat, p': Profile)
    requires i < |s.agents| && !s.agents[i].IsDefault() && s.agents[i].work.Saving?
    ensures var (name, tokens) := (s.agents[i].name, s.agents[i].work.tokens);
            var steps := [SaveProfile(name, p')] + ([Advance(i, true, 0)] + ([Advance(i, true, 0)] + []));
            name in Run(s, steps).files && Run(s, steps).files[name] == WithTokens(p', tokens)
  {
    var (name, go) := (s.agents[i].name, Advance(i, true, 0));
    var s1 := Next(s, SaveProfile(name, p'));
    assert s1.files == s.files[name := p'] && s1.agents == s.agents;
    Saves(s1, i);
    hide Next, Run, WithTokens;
    RunCons(s, SaveProfile(name, p'), [go] + ([go] + []));
    RunCons(s1, go, [go] + []);
    RunCons(Next(s1, go), go, []);
    RunNone(Next(Next(s1, go), go));
  }

  lemma RunNone(s: State)
    ensures Run(s, []) == s
  {
  }

  /** From the launch of an agent: it exchanges its tokens while the profile is replaced, and saves them into the new one. */
  lemma ProfileReplacedDuringSave(name: string, p: Profile, owner: string, p': Profile, account: string)
    requires name != DEFAULT_PROFILE && FullLogin(p, owner) && Matches(p', account, account) && account != owner
    ensures var steps := [SaveProfile(name, p')] + ([Advance(0, true, 0)] + ([Advance(0, true, 0)] + []));
            var s := Run(OneProfile(name, p), ToSaving(name, p, owner) + steps);
            && PermittedRun(OneProfile(name, p), ToSaving(name, p, owner), name, owner, owner)
            && name in s.files && s.files[name].account == p'.account && !Owned(s.files[name].tokens, account)
  {
    var steps := [SaveProfile(name, p')] + ([Advance(0, true, 0)] + ([Advance(0, true, 0)] + []));
    ReachesSaving(name, p, owner);
    assert Quiet(ToSaving(name, p, owner)) by { hide FullLogin, Matches; }
    hide Next, Run;
    QuietIsPermitted(OneProfile(name, p), ToSaving(name, p, owner), name, owner, owner);
    RunSplits(OneProfile(name, p), ToSaving(name, p, owner), steps);
    SavesIntoReplaced(Run(OneProfile(name, p), ToSaving(name, p, owner)), 0, p');
  }
}

/** The file operations and the callbacks of an agent as written, each proved to be its steps with nothing in between. */
module CodexProfilesClass {
  import opened Common
  import opened CodexProfiles

  class CodexHost {
    var files: map<string, Profile>
    var auth: Option<Profile>
    const environment: Token

    ghost function With(a: Agent): State
      reads this
    {
      State(files, auth, environment, [a])
    }

    constructor (files: map<string, Profile>, auth: Option<Profile>, environment: Token)
      ensures this.files == files && this.auth == auth && this.environment == environment
    {
      this.files, this.auth, this.environment := files, auth, environment;
    }

    /** Fields that the update leaves empty keep their values. */
    method MergeInto(tokens: Tokens, update: Tokens) returns (merged: Tokens)
      ensures merged == Merge(tokens, update)
    {
      merged := tokens;
      if update.access.Issued? {
        merged := merged.(access := update.access);
      }
      if update.refresh.Issued? {
        merged := merged.(refresh := update.refresh);
      }
      if update.idToken.Issued? {
        merged := merged.(idToken := update.idToken);
      }
    }

    method SaveTokensToProfile(name: string, tokens: Tokens, readable: bool, writable: bool) returns (ok: bool)
      modifies this`files
      ensures ok == (readable && writable && name in old(files))
      ensures files == if ok then old(files)[name := WithTokens(old(files)[name], tokens)] else old(files)
    {
      if !readable || name !in files {
        return false;
      }
      var profile := files[name];
      var merged := MergeInto(profile.tokens, tokens);
      profile := profile.(tokens := merged);
      if tokens.idToken.Issued? && UserOf(tokens.idToken) != "" {
        profile := profile.(user := UserOf(tokens.idToken));
      }
      if !writable {
        return false;
      }
      files := files[name := profile];
      return true;
    }

    method UpdateProfileFromSystemCreds(name: string, creds: Creds, readable: bool, writable: bool) returns (ok: bool)
      modifies this`files
      ensures ok == (readable && writable && name in old(files))
      ensures files == if ok then old(files)[name := WithCreds(old(files)[name], creds)] else old(files)
    {
      if !readable || name !in files {
        return false;
      }
      var profile := files[name];
      var merged := MergeInto(profile.tokens, creds.tokens);
      profile := profile.(tokens := merged);
      if profile.account == "" {
        profile := profile.(account := creds.account);
      }
      if profile.user == "" {
        profile := profile.(user := creds.user);
      }
      if !writable {
        return false;
      }
      files := files[name := profile];
      return true;
    }

    method WriteCodexCredentials(tokens: Tokens, readable: bool, writable: bool) returns (ok: bool)
      modifies this`auth
      ensures ok == (readable && writable)
      ensures auth == if ok then Some(AuthWithTokens(old(auth), tokens)) else old(auth)
    {
      if !readable {
        return false;
      }
      var file := if auth.Some? then auth.value else Profile("", "", Tokens(Empty, Empty, Empty), "");
      var kept := file.tokens.idToken;
      file := file.(tokens := Tokens(tokens.access, tokens.refresh, if tokens.idToken.Issued? then tokens.idToken else kept));
      if !writable {
        return false;
      }
      auth := Some(file);
      return true;
    }

    /** What a callback does with the world: whether its three file operations succeed, and when it reads. */
    static function Steps(purpose: Purpose, readable: bool, updatable: bool, writable: bool, now: int, later: int): seq<Step> {
      [Begin(0, purpose, readable, now), Advance(0, true, later), Advance(0, updatable, later), Advance(0, writable, later)]
    }

    method TokenRefresh(a: Agent, readable: bool, updatable: bool, writable: bool, now: int, later: int) returns (token: Token)
      requires a.work.Idle?
      modifies this`files
      ensures With(a.Bear(token)) == Run(old(With(a)), Steps(ForBearer, readable, updatable, writable, now, later))
    {
      ghost var s := With(a);
      Callback(s, ForBearer, readable, updatable, writable, now, later);
      hide Trim, Detect, ShouldUseSystemCreds, WithCreds, Run, Next, Creds.IsExpiringSoon, CredsFrom;
      if a.IsDefault() {
        var system := Detect(auth, environment, now);
        return if system.Some? then system.value.tokens.access else a.initial;
      }
      var profile := ReadProfile(files, a.name, readable, now);
      if profile.Some? && !profile.value.IsExpiringSoon() && profile.value.tokens.access.Issued? {
        return profile.value.tokens.access;
      }
      var system := Detect(auth, environment, later);
      if ShouldUseSystemCreds(profile, system, a.expected) {
        var _ := UpdateProfileFromSystemCreds(a.name, system.value, updatable, writable);
        if system.value.tokens.access.Issued? {
          return system.value.tokens.access;
        }
      }
      if profile.Some? && profile.value.tokens.access.Issued? {
        return profile.value.tokens.access;
      }
      return a.initial;
    }

    /** The poll exchanges the result if it expires soon. */
    method CredentialsRefresh(a: Agent, readable: bool, updatable: bool, writable: bool, now: int, later: int)
      returns (creds: Option<Creds>)
      requires a.work.Idle?
      modifies this`files
      ensures With(a.Consider(creds)) == Run(old(With(a)), Steps(ForExchange, readable, updatable, writable, now, later))
    {
      ghost var s := With(a);
      Callback(s, ForExchange, readable, updatable, writable, now, later);
      hide Trim, Detect, ShouldUseSystemCreds, WithCreds, Run, Next, Creds.IsExpiringSoon, CredsFrom;
      if a.IsDefault() {
        creds := Detect(auth, environment, now);
        return;
      }
      var profile := ReadProfile(files, a.name, readable, now);
      if profile.Some? && !profile.value.IsExpiringSoon() {
        return profile;
      }
      var system := Detect(auth, environment, later);
      if ShouldUseSystemCreds(profile, system, a.expected) {
        var _ := UpdateProfileFromSystemCreds(a.name, system.value, updatable, writable);
        return system;
      }
      return profile;
    }

    /** A named agent saves to its profile, the default one to auth.json. Only a saved token is used. */
    method TokenSave(a: Agent, tokens: Tokens, readable: bool, writable: bool, now: int) returns (ok: bool)
      requires a.work == Saving(tokens)
      modifies this`files, this`auth
      ensures With(if ok then a.Bear(tokens.access) else a.(work := Idle))
           == Next(Next(old(With(a)), Advance(0, readable, now)), Advance(0, writable, now))
    {
      if a.IsDefault() {
        ok := WriteCodexCredentials(tokens, readable, writable);
      } else {
        ok := SaveTokensToProfile(a.name, tokens, readable, writable);
      }
    }
  }

  /** A whole callback: done at the start, or without auth.json, or with its credentials. */
  lemma Callback(s: State, purpose: Purpose, readable: bool, updatable: bool, writable: bool, now: int, later: int)
    requires |s.agents| == 1 && s.agents[0].work.Idle?
    ensures var a := s.agents[0];
            var a' := BeginWork(s, a, purpose, readable, now);
            var system := Detect(s.auth, s.environment, later);
            var s' := Run(s, CodexHost.Steps(purpose, readable, updatable, writable, now, later));
            && (!a'.work.HasProfile? ==> s' == s.(agents := [a']))
            && (a'.work.HasProfile? && !ShouldUseSystemCreds(a'.work.profile, system, a.expected) ==>
                  s' == s.(agents := [a.FromProfile(purpose, a'.work.profile)]))
            && (a'.work.HasProfile? && ShouldUseSystemCreds(a'.work.profile, system, a.expected) ==>
                  s' == s.(agents := [a.FromSystem(purpose, a'.work.profile, system.value)],
                           files := if updatable && writable && a.name in s.files
                                    then s.files[a.name := WithCreds(s.files[a.name], system.value)] else s.files))
  {
    RunOfSteps(s, purpose, readable, updatable, writable, now, later);
    var a := s.agents[0];
    assert s.agents == [a];
    var a' := BeginWork(s, a, purpose, readable, now);
    var s1 := Next(s, Begin(0, purpose, readable, now));
    assert s1 == s.(agents := [a']);
    hide BeginWork, Run, Detect, ShouldUseSystemCreds, WithCreds;
    if a'.work.HasProfile? {
      assert a' == a.(work := HasProfile(purpose, a'.work.profile)) by { BeginKeeps(s, a, purpose, readable, now); }
      Decided(s, a, purpose, a'.work.profile, updatable, writable, later);
    } else {
      BeginKeeps(s, a, purpose, readable, now);
    }
  }

  lemma BeginKeeps(s: State, a: Agent, purpose: Purpose, readable: bool, now: int)
    requires a.work.Idle?
    ensures var a' := BeginWork(s, a, purpose, readable, now);
            if a'.work.HasProfile? then a' == a.(work := HasProfile(purpose, a'.work.profile))
            else a'.work.Idle? || a'.work.Exchanging?
  {
  }

  lemma Decided(s: State, a: Agent, purpose: Purpose, profile: Option<Creds>, updatable: bool, writable: bool, later: int)
    ensures var system := Detect(s.auth, s.environment, later);
            var s1 := s.(agents := [a.(work := HasProfile(purpose, profile))]);
            var s4 := Next(Next(Next(s1, Advance(0, true, later)), Advance(0, updatable, later)), Advance(0, writable, later));
            && (!ShouldUseSystemCreds(profile, system, a.expected) ==> s4 == s.(agents := [a.FromProfile(purpose, profile)]))
            && (ShouldUseSystemCreds(profile, system, a.expected) ==>
                  s4 == s.(agents := [a.FromSystem(purpose, profile, system.value)],
                           files := if updatable && writable && a.name in s.files
                                    then s.files[a.name := WithCreds(s.files[a.name], system.value)] else s.files))
  {
    var system := Detect(s.auth, s.environment, later);
    var s1 := s.(agents := [a.(work := HasProfile(purpose, profile))]);
    var s2 := Next(s1, Advance(0, true, later));
    if ShouldUseSystemCreds(profile, system, a.expected) {
      assert s2 == s.(agents := [a.(work := Updating(purpose, profile, system.value))]) by {
        hide Detect, ShouldUseSystemCreds, WithCreds, Creds.IsExpiringSoon;
      }
      hide Detect, ShouldUseSystemCreds, Next;
      Updated(s, a, purpose, profile, system.value, updatable, writable, later);
    } else {
      assert s2 == s.(agents := [a.FromProfile(purpose, profile)]) by {
        hide Detect, ShouldUseSystemCreds, WithCreds, Creds.IsExpiringSoon;
      }
      hide Detect, ShouldUseSystemCreds, Next;
      Settled(s, a.FromProfile(purpose, profile), updatable, later);
      Settled(s, a.FromProfile(purpose, profile), writable, later);
    }
  }

  lemma Settled(s: State, a: Agent, ok: bool, now: int)
    requires a.work.Idle? || a.work.Exchanging?
    ensures Next(s.(agents := [a]), Advance(0, ok, now)) == s.(agents := [a])
  {
  }

  lemma Updated(s: State, a: Agent, purpose: Purpose, profile: Option<Creds>, system: Creds,
                updatable: bool, writable: bool, later: int)
    ensures var s2 := s.(agents := [a.(work := Updating(purpose, profile, system))]);
            Next(Next(s2, Advance(0, updatable, later)), Advance(0, writable, later)) ==
            s.(agents := [a.FromSystem(purpose, profile, system)],
               files := if updatable && writable && a.name in s.files
                        then s.files[a.name := WithCreds(s.files[a.name], system)] else s.files)
  {
    hide WithCreds, Creds.IsExpiringSoon;
    var s2 := s.(agents := [a.(work := Updating(purpose, profile, system))]);
    var s3 := Next(s2, Advance(0, updatable, later));
    if updatable && a.name in s.files {
      assert s3 == s.(agents := [a.(work := WritingUpdate(purpose, profile, system, s.files[a.name]))]);
    } else {
      assert s3 == s.(agents := [a.FromSystem(purpose, profile, system)]);
      hide Next;
      Settled(s, a.FromSystem(purpose, profile, system), writable, later);
    }
  }

  lemma RunOfSteps(s: State, purpose: Purpose, readable: bool, updatable: bool, writable: bool, now: int, later: int)
    ensures Run(s, CodexHost.Steps(purpose, readable, updatable, writable, now, later))
         == Next(Next(Next(Next(s, Begin(0, purpose, readable, now)), Advance(0, true, later)),
                      Advance(0, updatable, later)), Advance(0, writable, later))
  {
    var a, b, c, d := Begin(0, purpose, readable, now), Advance(0, true, later), Advance(0, updatable, later), Advance(0, writable, later);
    hide Next;
    assert [a, b, c, d][1..] == [b, c, d] && [b, c, d][1..] == [c, d] && [c, d][1..] == [d] && [d][1..] == [];
    var s1 := Next(s, a);
    var s2 := Next(s1, b);
    var s3 := Next(s2, c);
    assert Run(s3, [d]) == Run(Next(s3, d), []);
    assert Run(s2, [c, d]) == Run(s3, [d]);
    assert Run(s1, [b, c, d]) == Run(s2, [c, d]);
  }
}
