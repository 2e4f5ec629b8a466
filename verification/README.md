# Verification of the polling agents and the desktop client's stores

The server polls several AI providers for usage. Each provider has an agent that keeps OAuth tokens alive, backs off,
pauses and resumes; managers start and stop agents concurrently; a session manager cuts the stream of polled values into
usage sessions. The desktop client keeps a list of accounts, binds session files to them and reads rate limits. These
models cover that logic and prove what it keeps over every run.

**Form.** Code that updates an object is a class with the same fields. Its methods are proved equal to a specification
function on the object's state (`ensures State() == Spec(old(State()), ...)`), and the results are proved about that
function. The state carries a log of what was sent, saved or stored, so results about runs are results about logs.
What the world answers (clock, disk, OAuth server, usage server, running processes, database) is input: a result holds
for all answers unless it says otherwise.

| file | models |
|---|---|
| `AnthropicPoll`, `AnthropicAgent` | one poll of the Anthropic agent, as a function and as the class |
| `AnthropicState`, `AnthropicTokens`, `AnthropicBackoff`, `AnthropicRhythm` | what every run of polls keeps |
| `AnthropicReplay`, `AnthropicRequests` | the fields recomputed from the log, and when a poll sends and stores what |
| `CodexAgent`, `CodexReplay` | the poll of the Codex agent, and the same about it |
| `CodexProfiles` | Codex agents sharing profile files and `auth.json`, as interleaved steps |
| `AgentManager`, `MiniMaxManager` | the managers as interleaved critical sections, and as classes |
| `SessionManager` | the session detector and the segmentation it computes |
| `UsageBindings`, `RateLimits` | session bindings and rate-limit parsing of the Tauri backend |
| `AccountStore` | the account list of the desktop client |
| `LogRotation`, `MiniMaxPools` | rotating the log file, grouping models by shared quota |

**Where the code does less than its comments say, or than one may expect.** Each of these is a proved result with its
exact condition in the table.

- `authFailCount` is documented as consecutive failures (401 or 403). It is their number, less the refused fetches that
  no refused retry followed, plus a surplus; so it is right exactly if the two balance. There is a surplus exactly if a
  fetch succeeded through the 429 bypass while failures were pending, or an `invalid_grant` answer paused polling, and
  nothing reset it since (`CountsConsecutiveFailures`). Polling can pause without three refusals in a row, and without
  any, and any number of refusals in a row need not pause it (`PausedWithoutThreeInARow`, `PausedWithoutAnyRefusal`,
  `RefusedWithoutPause`).
- If a rotated refresh token is not saved, or the answer that grants it is lost, every further request sends a used one
  until another process writes (`RequestTokenStatus`, `LostGrantSticks`).
- A runner's late cleanup deletes the entry of the runner started after it, which then polls beyond the manager's reach
  (`TruthfulFutures`, `OrphansAreForever`, `LateCleanupDoublesPolling`). Restarting a key at once always leads there
  (`ImmediateRestartIsStale`), and the Codex manager restarts a modified profile
  in this way (server/internal/agent/codex_agent_manager.go:646-656, 574-577).
- `Reload` is serialised against itself but not against the initial load of `Run`. If both start the same account, one
  goroutine is lost and every later wait hangs (`InitialLoadRacesReload`, `LostBlocksWaiting`); no agent is ever lost
  exactly if no registration displaces a live one (`RunOwned`). A stop between an agent's registration and its
  `wg.Add` does not wait for it, and it starts afterwards (`WaitMissesOnlyTheGap`, `StopMissesStartingAgent`).
- A named Codex profile is called fully scoped to its file. That holds exactly if its account id is not blank
  (`BlankAccountsAreNotIsolated`), as long as two things are respected. A login is safe for `auth.json` exactly while
  each default agent in flight holds tokens of the account that logs in, or is about to write a file with that
  account's tokens or with neither account id nor id token (`LoginIsSafeWhenDefaultsFit`); during the default agent's
  exchange it is not (`LoginDuringDefaultSave`), and if it is the profile's own account the profile suffers
  (`OwnLoginHarms`). A profile saved anew for another account stays its own
  exactly if no agent of its name was started for, or has in flight, anything of the former one
  (`ReplacedProfileStaysOwn`). Idle agents count because of files that cannot be read for a moment
  (`ReplacedUnderIdleAgent`, `IdleAgentsSpareReadableProfiles`).
- A pause of the Codex agent can outlast a disk token that differs from the failed one (`HeldTokenDoesNotLift`).
- An accepted session binding can be evicted by its own insertion (`AcceptedBindingIsStored`,
  `AcceptedBindingIsEvicted`).
- A reset time before September 2001 is read correctly in seconds but refused in milliseconds (`SecondsAndMilliseconds`).
- Adding a Codex auth matches accounts of all providers, and overwrites one of another provider exactly if that is the
  chosen match (`AddOverwritesChosen`). Following the Codex login activates one of another provider in the same way
  (`SyncActivatesTarget`).
- The latest updated of several equally ranked accounts is meant to win. The tray writes epoch milliseconds and the
  client ISO dates, so it does exactly if all of them are dated by the tray, or each one dated by the tray is no later
  than some ISO-dated one (`MatchIsLatest`). The account just switched to from the tray loses (`TrayDateLoses`).
- Account operations load the store, wait, and save it. Overlapping ones keep it valid but lose updates
  (`OverlappingHistoryIsValid`, `OverlapLosesUpdate`).
- The models of a single pool group need not share a quota, if some model is inactive or a reset falls in the first
  second of the epoch (`OneGroupIsShared`, `MixedGroup`).

## Model

| member | source | states |
|---|---|---|
| `AnthropicAgentClass.AnthropicAgent.Poll` | server/internal/agent/anthropic_agent.go:391-760 | a poll, as written with its fields and early exits, has the effect on all fields and the log of requests that the specification function has |
| `AnthropicAgentClass.AnthropicAgent.PollApi` | server/internal/agent/anthropic_agent.go:438-760 | the API part: proactive refresh, re-read, pause check, fetch and its error branches, storing |
| `AnthropicAgentClass.AnthropicAgent.ProactiveRefresh` | server/internal/agent/anthropic_agent.go:313-388 | no exchange while Claude Code runs or the backoff lasts; tokens used only once saved |
| `AnthropicAgentClass.AnthropicAgent.AdoptDiskToken` | server/internal/agent/anthropic_agent.go:448-473 | a new disk token is installed, lifts the auth pause if it is not the failed one, and ends a backoff |
| `AnthropicAgentClass.AnthropicAgent.BypassRateLimit` | server/internal/agent/anthropic_agent.go:499-637 | the 429 branch with all its exits, and whether it leaves a response to process |
| `AnthropicAgentClass.AnthropicAgent.RetryAuth` | server/internal/agent/anthropic_agent.go:644-691 | the 401/403 branch: forced re-read, one retry, counting and pausing |
| `AnthropicState.PollTracked` | server/internal/agent/anthropic_agent.go:391-760 | one poll keeps the invariant (paused iff three failures; not paused means no failed token; paused means the failed token is the last one; a last token is the client's; a backoff has an end), agrees with an observer that sees only the log, and fetches only unpaused |
| `AnthropicState.Reachable` | server/internal/agent/anthropic_agent.go:140-150 | the same in every reachable state, for every sequence of polls and foreign writes |
| `AnthropicState.DiskTokenLiftsPause` | server/internal/agent/anthropic_agent.go:448-473 | in a reachable paused state a disk token lifts the pause iff it is nonempty and not the one held |
| `AnthropicState.CountsConsecutiveFailures` | server/internal/agent/anthropic_agent.go:140-140 | in every reachable state authFailCount is the consecutive auth failures since the last success or ended pause, less those without a refused retry, plus the surplus; it is right iff these balance, and there is a surplus iff a fetch succeeded through the bypass with failures pending or invalid_grant paused polling since |
| `AnthropicState.PausedWithoutThreeInARow` | server/internal/agent/anthropic_agent.go:604-637 | a run that pauses with only one failure since the last success |
| `AnthropicState.PausedWithoutAnyRefusal` | server/internal/agent/anthropic_agent.go:350-358 | one poll that counts three failures and pauses without any refused fetch |
| `AnthropicState.RefusedWithoutPause` | server/internal/agent/anthropic_agent.go:644-691 | any number of polls refused in a row, none with a token to retry, count nothing and do not pause |
| `AnthropicTokens.DiskIsNextAccepted` | server/internal/agent/anthropic_agent.go:334-388 | over every run from a login, the token on disk is the one a rotating server accepts next iff the latest grant was received and saved |
| `AnthropicTokens.RequestTokenStatus` | server/internal/agent/anthropic_agent.go:531-611 | each refresh request carries the accepted token iff the latest grant was received and saved, and an already exchanged one otherwise |
| `AnthropicTokens.RefreshTokensAreUsedOnce` | server/internal/agent/anthropic_agent.go:334-388 | while no grant is lost no exchanged refresh token is ever sent again, even with both exchanges in one poll |
| `AnthropicTokens.LostGrantSticks` | server/internal/agent/anthropic_agent.go:371-373 | after a failed save or a lost answer all requests send used tokens and none is granted, until another process writes credentials |
| `AnthropicBackoff.BackoffIsExact` | server/internal/agent/anthropic_agent.go:293-306 | the backoff is min(5 min * 2^(n-1), 6 h) for every n >= 1 despite the shift cap |
| `AnthropicBackoff.BackoffIsMonotone` | server/internal/agent/anthropic_agent.go:293-306 | monotone in n, between 5 minutes and 6 hours, within 64 bits of nanoseconds |
| `AnthropicBackoff.RunPermitted` | server/internal/agent/anthropic_agent.go:320-334 | with a clock that does not run backwards, every refresh request of a run follows a negative Claude Code check and is not sent before the end of the backoff last set, which an observer of the log knows to be the agent's own resumeAt |
| `AnthropicBackoff.BackoffIsHonoured` | server/internal/agent/anthropic_agent.go:499-509 | no refresh request is sent between the start of a backoff and its end, whether set by Retry-After, exponentially or after repeated failures, unless a changed disk token came in between |
| `AnthropicBackoff.RetryAfterIsHonoured` | server/internal/agent/anthropic_agent.go:536-563 | a 429 of the OAuth server is followed at once by a backoff of exactly its Retry-After, or else of 5 minutes to 6 hours, and that is honoured |
| `AnthropicBackoff.ClaudeIsCheckedFirst` | server/internal/agent/anthropic_agent.go:320-334 | only reading credentials separates a refresh request from a check that found Claude Code not running |
| `AnthropicBackoff.OwnBackoffsAreBounded` | server/internal/agent/anthropic_agent.go:548-584 | every resume time not given by the server lies 5 minutes to 6 hours ahead |
| `AnthropicRhythm.PollRhythm` | server/internal/agent/anthropic_agent.go:399-436 | at most two refresh and two usage requests per poll, none in a statusline-only cycle; a hybrid poll exactly at multiples of the interval |
| `AnthropicRhythm.HybridRhythm` | server/internal/agent/anthropic_agent.go:399-436 | over any run, k statusline polls from counter c trigger exactly (c+k)/N - c/N hybrid polls |
| `AnthropicRequests.PollSendsExactly` | server/internal/agent/anthropic_agent.go:391-705 | from the fields a poll starts with and what the world answers: exactly when it exchanges proactively, adopts the disk token, fetches, exchanges and fetches to bypass a rate limit, retries, and stores a response (once, as its last event, iff a fetch by whichever way succeeded) |
| `AnthropicReplay.FieldsAreReplayed` | server/internal/agent/anthropic_agent.go:313-698 | in every run all nine fields, the counts of failures and cycles included, are a function of the log |
| `AnthropicReplay.EverySuccessIsStored` | server/internal/agent/anthropic_agent.go:692-705 | in every run each successful fetch, direct, bypassing or retried, is followed at once by a store, and nothing else is stored |
| `AnthropicReplay.TokensAreThoseGranted` | server/internal/agent/anthropic_agent.go:371-376 | in every run a fetch bears the token installed last, a bypass the one just granted, a retry the one just read; a grant is saved as it was given, and installed once saved |
| `AnthropicReplay.BackoffsAreExponential` | server/internal/agent/anthropic_agent.go:345-348 | in every run each backoff without Retry-After lasts min(5 min * 2^(n-1), 6 h) for the failure count n that the log gives |
| `AnthropicReplay.FifthFailureBacksOff` | server/internal/agent/anthropic_agent.go:577-590 | in every run a passing failure of the 429 branch is waited out iff the count has reached five |
| `CodexAgentClass.CodexAgent.Poll` | server/internal/agent/codex_agent.go:158-353 | a Codex poll as written equals its specification function on all fields and the log |
| `CodexAgentClass.CodexAgent.ProactiveRefresh` | server/internal/agent/codex_agent.go:163-226 | reuse and repeated failures pause, a saved grant resumes |
| `CodexAgentClass.CodexAgent.AdoptDiskToken` | server/internal/agent/codex_agent.go:228-245 | a changed token is installed and lifts the pause if it is not the failed one |
| `CodexPoll.Reachable` | server/internal/agent/codex_agent.go:158-353 | in every run at most three auth failures, three only when paused, no failed token when not paused, no fetch while an observer of the log sees a pause |
| `CodexPoll.PausedPollFetches` | server/internal/agent/codex_agent.go:163-252 | a poll entered paused sends a fetch iff its refresh was granted and saved or the disk token is neither held nor the failed one |
| `CodexPoll.HeldTokenDoesNotLift` | server/internal/agent/codex_agent.go:228-245 | a reachable pause that a nonempty disk token other than the failed one does not lift |
| `CodexReplay.PollSendsExactly` | server/internal/agent/codex_agent.go:158-353 | exactly when a poll exchanges, saves, adopts, fetches, retries and stores, from its start and the answers |
| `CodexReplay.RunIsReplayed` | server/internal/agent/codex_agent.go:158-353 | in every run all fields are a function of the log; a successful fetch and nothing else is stored, at once; a fetch bears the token in use; a grant is saved as it was given |
| `CodexProfiles.WhenSystemCredsAreUsed` | server/internal/agent/codex_agent_manager.go:260-298 | credentials of auth.json are taken iff they name an account, neither the start of the agent nor its file names another, and they have another access token, expire later, or are valid where the file's expired |
| `CodexProfiles.ReadsFieldByField` | server/internal/agent/codex_agent_manager.go:221-258 | reading a profile keeps each token in its field, trims the ids, and takes a missing user from the id token |
| `CodexProfiles.DetectsFieldByField` | server/internal/api/codex_credentials.go:67-124 | the credentials of auth.json field by field, else the token of the environment without an account id |
| `CodexProfiles.ExpiryMeaning` | server/internal/api/codex_credentials.go:24-38 | expiring soon is within six hours of a known expiry, expired from it on |
| `CodexProfiles.SavesFieldByField` | server/internal/agent/codex_agent_manager.go:317-330 | after a save each new token stands in its own field, a new id token sets the user it names, all else stays |
| `CodexProfiles.UpdatesFieldByField` | server/internal/agent/codex_agent_manager.go:366-380 | the same for system credentials, with account id and user only where missing |
| `CodexProfiles.WritesFieldByField` | server/internal/api/codex_credentials.go:196-208 | the same for auth.json, where access and refresh token are replaced in any case |
| `CodexProfiles.GrantIsUsedNext` | server/internal/agent/codex_agent_manager.go:302-348 | after a granted exchange was saved, the agent bears the access token granted, its next exchange sends the refresh token granted, and a bearer read from the file is the access token granted |
| `CodexProfiles.BearsFileToken` | server/internal/agent/codex_agent_manager.go:457-485 | a named agent that takes nothing from auth.json bears its file's access token, else the one it started with, else what it bore |
| `CodexProfiles.DefaultGrantIsUsedNext` | server/internal/agent/codex_agent_manager.go:449-455 | the same for the default agent and auth.json |
| `CodexProfiles.SystemCredsAreTakenOver` | server/internal/agent/codex_agent_manager.go:469-508 | accepted system credentials are borne, exchanged and left in the file as they are |
| `CodexProfiles.FallsBack` | server/internal/agent/codex_agent_manager.go:480-485 | an agent starts with its profile's account id and token and goes on with that token when nothing else can be read |
| `CodexProfiles.ProfilesAreIsolated` | server/internal/agent/codex_agent_manager.go:448-527 | under every interleaving of reads, decisions, exchanges, saves, logins and launches a profile with a nonblank account id keeps it, holds that account's tokens only, and its agents hold and use no others; only a login that names the account while a default agent holds other tokens, or another one while a default agent is about to write a file that names it, is excluded |
| `CodexProfiles.NextClean` | server/internal/agent/codex_agent_manager.go:302-400 | the single step of that, in-flight values included |
| `CodexProfiles.NamedAgentsLeaveAuthAlone` | server/internal/agent/codex_agent_manager.go:509-527 | in every run, whoever takes part, auth.json changes only by a login or the write of a default agent |
| `CodexProfiles.OwnLoginHarms` | server/internal/agent/codex_agent_manager.go:474-482 | from its read to its save a default agent with another account's tokens makes a login of the profile's account harm the profile |
| `CodexProfiles.BlankAccountsAreNotIsolated` | server/internal/agent/codex_agent_manager.go:260-298 | a profile holds its owner's tokens in every permitted run iff its account id is not blank |
| `CodexProfiles.AuthStaysOneAccount` | server/internal/api/codex_credentials.go:163-228 | over every run auth.json holds tokens of one account, the one it names, if each login falls when the default agents in flight fit it; nothing is assumed of their own saves |
| `CodexProfiles.LoginIsSafeWhenDefaultsFit` | server/internal/agent/codex_agent_manager.go:510-514 | after a complete login auth.json keeps to one account in every continuation iff each default agent in flight holds that account's tokens, or writes a file without account id and id token |
| `CodexProfiles.LoginDuringDefaultSave` | server/internal/agent/codex_agent_manager.go:510-514 | from the launch of the default agent, a run in which a login during its exchange mixes two accounts in auth.json |
| `CodexProfiles.ReplacedProfileStaysOwn` | server/internal/agent/codex_agent_manager.go:302-400 | a profile saved for an account stays its own in every run iff every agent of its name was started for that account and has nothing of another one in flight |
| `CodexProfiles.IdleAgentsSpareReadableProfiles` | server/internal/agent/codex_agent_manager.go:457-482 | while files can be read and the profile is not deleted, idle agents of a former account do no harm |
| `CodexProfiles.ReplacedUnderIdleAgent` | server/internal/agent/codex_agent_manager.go:474-482 | from a launch, replacing the profile of an idle agent by another account's is not safe in general |
| `CodexProfiles.ProfileReplacedDuringSave` | server/internal/agent/codex_agent_manager.go:302-348 | from a launch, a run in which a profile replaced during an exchange receives the former account's token |
| `CodexProfilesClass.CodexHost.SaveTokensToProfile` | server/internal/agent/codex_agent_manager.go:302-348 | the file with the nonempty new tokens and the user of a new id token, or no change on an error |
| `CodexProfilesClass.CodexHost.UpdateProfileFromSystemCreds` | server/internal/agent/codex_agent_manager.go:350-400 | the file with the nonempty system tokens; account id and user are set only if missing |
| `CodexProfilesClass.CodexHost.TokenRefresh` | server/internal/agent/codex_agent_manager.go:448-485 | the callback as written is its four steps run without interference |
| `CodexProfilesClass.CodexHost.CredentialsRefresh` | server/internal/agent/codex_agent_manager.go:487-508 | likewise for the credentials to be exchanged |
| `CodexProfilesClass.CodexHost.WriteCodexCredentials` | server/internal/api/codex_credentials.go:163-228 | auth.json with the new access and refresh token and its other fields, or no change on an error |
| `CodexProfilesClass.CodexHost.TokenSave` | server/internal/agent/codex_agent_manager.go:510-530 | likewise for saving: named agents write their file, the default agent auth.json |
| `AgentProtocol.RegisteredIsUncancelled` | server/internal/agent/manager.go:60-132 | in every interleaving a registered cancel function has not been called |
| `AgentProtocol.ConcurrentStartsRegisterOnce` | server/internal/agent/manager.go:60-90 | however many starts of a key overlap, at most one registers until the key is removed |
| `AgentProtocol.StartStarts` | server/internal/agent/manager.go:60-100 | an undisturbed Start of a registered provider that does not run sets one polling agent running |
| `AgentProtocol.StopStops` | server/internal/agent/manager.go:105-116 | a Stop cancels the agent of its key and no other |
| `AgentProtocol.StopAllStopsAll` | server/internal/agent/manager.go:119-132 | a StopAll leaves nothing running and has exactly the running agents to cancel |
| `AgentProtocol.StartsAreConserved` | server/internal/agent/manager.go:60-90 | over every run each Start that passed its check has registered, ended without registering, or is between its sections |
| `AgentProtocol.RunnersHaveFactories` | server/internal/agent/manager.go:66-71 | over every run only registered providers have agents |
| `AgentProtocol.NextTruthful` | server/internal/agent/manager.go:60-132 | a step keeps every polling agent registered under its key; registering is safe for the future iff the key's earlier goroutines are cleaned up |
| `AgentProtocol.DisciplinedManagerIsTruthful` | server/internal/agent/manager.go:135-140 | if keys are re-registered only after cleanup, IsRunning is true of every polling agent and there is one per key |
| `AgentProtocol.TruthfulFutures` | server/internal/agent/manager.go:91-100 | the manager stays truthful in all continuations without new starts iff no stale cleanup is pending |
| `AgentProtocol.OrphansAreForever` | server/internal/agent/manager.go:105-132 | no Stop or StopAll ever reaches an unregistered polling agent |
| `AgentProtocol.LateCleanupDoublesPolling` | server/internal/agent/manager.go:96-98 | a run from the start in which two agents poll for one key |
| `AgentProtocol.ImmediateRestartIsStale` | server/internal/agent/manager.go:60-116 | stopping and restarting a key at once leaves a stale cleanup, from every state |
| `AgentManagerClass.AgentManager.CheckStart` | server/internal/agent/manager.go:60-71 | first critical section of Start and its answer |
| `AgentManagerClass.AgentManager.Register` | server/internal/agent/manager.go:83-90 | second critical section: registers unless the key is taken by then |
| `AgentManagerClass.AgentManager.TakeForStop` | server/internal/agent/manager.go:105-116 | the entry leaves the map and its cancel function is handed out |
| `AgentManagerClass.AgentManager.TakeAll` | server/internal/agent/manager.go:119-132 | the map is emptied and exactly its cancel functions are handed out |
| `AgentManagerClass.AgentManager.CleanUp` | server/internal/agent/manager.go:91-100 | the cleanup removes whatever entry its key has |
| `MiniMaxProtocol.WaitGroupBoundsRunning` | server/internal/agent/minimax_agent_manager.go:211-243 | with wg.Add, the start of the goroutine, its return and wg.Done as separate steps, the counter is never negative, equals the additions not done, and bounds the running goroutines in every interleaving |
| `MiniMaxProtocol.WaitMissesOnlyTheGap` | server/internal/agent/minimax_agent_manager.go:205-211 | after a wait no agent registered before ever runs again iff none is between its registration and its wg.Add |
| `MiniMaxProtocol.StopMissesStartingAgent` | server/internal/agent/minimax_agent_manager.go:205-243 | a run in which a complete stop ends and an agent then starts |
| `MiniMaxProtocol.NextSound` | server/internal/agent/minimax_agent_manager.go:122-243 | every step keeps that, and that instances are agents of their accounts which nobody has stopped |
| `MiniMaxProtocol.NextOwned` | server/internal/agent/minimax_agent_manager.go:205-207 | every agent stays registered or stopped, except that registering loses one iff it displaces a live, uncancelled agent |
| `MiniMaxProtocol.RunOwned` | server/internal/agent/minimax_agent_manager.go:122-243 | over every run no agent is ever lost iff no registration displaces a live, uncancelled one |
| `MiniMaxProtocol.LostBlocksWaiting` | server/internal/agent/minimax_agent_manager.go:228-243 | a lost agent stays lost and the WaitGroup positive, whatever the manager does |
| `MiniMaxProtocol.ContextCancelsAll` | server/internal/agent/minimax_agent_manager.go:196-197 | over every run a cancelled context has cancelled every agent, those registered later included |
| `MiniMaxProtocol.InitialLoadRacesReload` | server/internal/agent/minimax_agent_manager.go:103-134 | a run of two loads that loses an agent |
| `MiniMaxManagerClass.MiniMaxAgentManager.Reload` | server/internal/agent/minimax_agent_manager.go:122-134 | with goroutines returning at any moment: nothing from before is alive, the keys are exactly the active accounts with an API key, each live uncancelled agent is the one registered for its account |
| `MiniMaxManagerClass.MiniMaxAgentManager.StopAllAgents` | server/internal/agent/minimax_agent_manager.go:228-243 | every goroutine is gone, the map is empty, the WaitGroup is zero |
| `MiniMaxManagerClass.MiniMaxAgentManager.StartAgentForAccount` | server/internal/agent/minimax_agent_manager.go:163-225 | exactly this account is added, and nothing gone comes back |
| `Sessions.OnlineMatchesSegmentation` | server/internal/agent/session_manager.go:42-101 | the calls made poll by poll equal those of segmenting the whole history, failures included |
| `Sessions.PollCallsCarry` | server/internal/agent/session_manager.go:65-158 | a session is created, at a change with none open, with the first three values of the poll before; each increment goes with those of its own poll; a close carries the time of the unchanged poll that makes it |
| `Sessions.EveryCallHasItsPoll` | server/internal/agent/session_manager.go:42-158 | over any history each call is made by one of its polls in that way |
| `Sessions.EndIsFirstIdle` | server/internal/agent/session_manager.go:84-94 | a session ends at the first unchanged poll more than the timeout after its latest change |
| `Sessions.SessionsDoNotOverlap` | server/internal/agent/session_manager.go:42-101 | only the open session is counted, and a close is called before the next one is created; if closes succeed, each stored session ends before the next starts |
| `Sessions.PollIncrements` | server/internal/agent/session_manager.go:42-101 | a poll increments the session open at its end once and no other, and the first poll none |
| `Sessions.OneIncrementPerPoll` | server/internal/agent/session_manager.go:42-101 | over any history a session is incremented as often as there are polls that end with it open |
| `Sessions.SessionCount` | server/internal/agent/session_manager.go:138-158 | with distinct ids, the session opened by a poll is incremented once for each poll from there up to its end |
| `SessionManagerClass.SessionManager.ReportPoll` | server/internal/agent/session_manager.go:42-101 | a poll as written has the specified effect on all fields and calls |
| `SessionManagerClass.SessionManager.HasChanged` | server/internal/agent/session_manager.go:112-125 | true iff there is a previous poll and the values differ in length or anywhere |
| `SessionManagerClass.SessionManager.Shutdown` | server/internal/agent/session_manager.go:104-109 | exactly the open session is closed |
| `SessionManagerClass.ReportAll` | server/internal/agent/session_manager.go:42-101 | a fresh manager fed a history makes the calls of its segmentation |
| `UsageBindingsClass.UsageBindings.Update` | client/src-tauri/src/lib.rs:1406-1441 | the store after a bind, refused iff another account holds the session or the file |
| `Bindings.BindKeepsValid` | client/src-tauri/src/lib.rs:1406-1441 | no session or file in two accounts, distinct sessions, sorted, at most 200 per account; other accounts untouched, a refused bind changes nothing |
| `Bindings.BoundKeeps` | client/src-tauri/src/lib.rs:1424-1438 | at most one entry is evicted, ordered no later than every kept one, and nothing else is lost |
| `Bindings.BindIsRefused` | client/src-tauri/src/lib.rs:1411-1422 | a bind is refused, and changes nothing, iff another account holds the session or the file |
| `Bindings.OrderMeaning` | client/src-tauri/src/lib.rs:1431-1435 | entries are ordered by the session's date, then by the date of binding |
| `Bindings.SortIsStable` | client/src-tauri/src/lib.rs:1431-1435 | entries of the same dates keep their order |
| `Bindings.EveryHistoryIsValid` | client/src-tauri/src/lib.rs:1406-1441 | the same after any sequence of binds |
| `Bindings.AcceptedBindingIsStored` | client/src-tauri/src/lib.rs:1424-1438 | an accepted bind is kept unless the account is full of strictly later entries and the session is new |
| `Bindings.AcceptedBindingIsEvicted` | client/src-tauri/src/lib.rs:1433-1438 | a full account and a bind that is evicted at once |
| `RateLimits.SecondsAndMilliseconds` | client/src-tauri/src/lib.rs:2382-2398 | seconds and milliseconds of a valid instant normalise to it, milliseconds exactly from 10^12 on |
| `RateLimits.UsedAndRemainingAgree` | client/src-tauri/src/lib.rs:2466-2526 | an entry given by use or by remainder of the same limit has the same percentage |
| `RateLimits.UsedPercentMeansUsed` | client/src-tauri/src/lib.rs:2479-2500 | an entry with used_percent parses as the one with used and limit of that share; unwhole percentages of at most 1 are fractions |
| `RateLimits.NothingUsedLeavesAll` | client/src-tauri/src/lib.rs:2479-2500 | an unused limit leaves 100 percent and a used up one 0, whichever way it is given |
| `RateLimits.LeftFallsWithUse` | client/src-tauri/src/lib.rs:2479-2500 | the more is used, the less is left, and the more remains, the more is left |
| `RateLimits.UsageIsMissing` | client/src-tauri/src/lib.rs:2479-2500 | exactly which entries fail for lack of usage or of a positive limit |
| `RateLimits.EpochRange` | client/src-tauri/src/lib.rs:2382-2398 | which timestamps are accepted, and the error of the others |
| `RateLimits.ResetMeaning` | client/src-tauri/src/lib.rs:2429-2464 | a reset is absolute in seconds or milliseconds, or counts from now |
| `RateLimits.WindowMeaning` | client/src-tauri/src/lib.rs:2502-2519 | the window in minutes and the order of its three sources |
| `RateLimits.WindowTellsKind` | client/src-tauri/src/lib.rs:2549-2556 | without a telling tag, windows up to six hours or from seven days on decide |
| `RateLimits.TagTellsKind` | client/src-tauri/src/lib.rs:2535-2547 | a tag that speaks of a week, else of five or of hours, decides whatever the window |
| `RateLimits.ParseList` | client/src-tauri/src/lib.rs:2561-2605 | succeeds iff all entries parse and both limits exist; five-hour is the last classified so, else the first unclassified; weekly the last classified so, else the first unclassified one after a non-weekly one; the first bad entry gives the error |
| `RateLimits.ChoiceIsUnique` | client/src-tauri/src/lib.rs:2561-2605 | that description determines two different entries |
| `RateLimits.ParseRateLimits` | client/src-tauri/src/lib.rs:2561-2605 | which of the three layouts is used, and that results have percentages in [0, 100] and resets in the valid range |
| `AccountStoreClass.AccountStore.FindBestMatch` | client/src/utils/storage.ts:256-325 | the loops return the specified best match and -1 iff there is none |
| `Accounts.BestIsMaximal` | client/src/utils/storage.ts:256-285 | the match has the highest rank, counts exactly the accounts of that rank and has the greatest updatedAt string of them |
| `Accounts.ChosenIsBest` | client/src/utils/storage.ts:256-285 | rank, date string and position determine the match, ties included |
| `Accounts.RanksFollowCriteria` | client/src/utils/storage.ts:224-254 | of two candidates the one that meets the earlier criterion ranks higher: account and user id, account and email, user id, email, account id, and for other providers user id, email, account id |
| `Accounts.MatchMeetsEarliest` | client/src/utils/storage.ts:256-325 | no account meets an earlier criterion than the match, and there is a match iff an account meets any |
| `Accounts.MatchIsLatest` | client/src/utils/storage.ts:277-280 | with tray and ISO dates among the best-ranked accounts, the match is the latest of them iff the tray dated all or each tray date is no later than some ISO date |
| `Accounts.MatchIsLatestInOneFormat` | client/src/utils/storage.ts:277-280 | if the best-ranked accounts' dates have one format, whichever, the match is the latest of them |
| `Accounts.OneFormatOrdersByTime` | client/src/utils/storage.ts:277-280 | date strings of one format are ordered as the numbers of their digits |
| `Accounts.TrayDateLoses` | client/src-tauri/src/lib.rs:2369-2374 | a date the tray wrote loses to every ISO date of an equally ranked account |
| `Accounts.AddChangesOneEntry` | client/src/utils/storage.ts:573-650 | adding changes at most one entry, never one with another nonempty account id, and the auth is stored |
| `Accounts.AddOverwritesEarliest` | client/src/utils/storage.ts:573-650 | an add overwrites an account that meets the earliest of the first four criteria, keeping id, provider and flag; else it appends, active only in an empty store |
| `Accounts.AddIsRefused` | client/src/utils/storage.ts:580-595 | without permission an auth is refused iff it could not be parsed or has neither user id nor email |
| `Accounts.AddTwice` | client/src/utils/storage.ts:573-650 | adding an auth again creates no entry iff it has a user id or an email |
| `Accounts.UpsertStaysWithProvider` | client/src/utils/storage.ts:652-695 | an upsert stores the info under its provider, touches no other provider's account, no id and no active flag |
| `Accounts.UpsertTwice` | client/src/utils/storage.ts:652-695 | repeating an upsert creates no entry iff the identity suffices for the provider |
| `Accounts.UpsertOverwritesEarliest` | client/src/utils/storage.ts:652-695 | an upsert overwrites an account of its provider that meets the earliest criterion, else appends an inactive one |
| `Accounts.SetActiveChangesFlags` | client/src/utils/storage.ts:871-879 | exactly the account with the id becomes active, nothing else changes |
| `Accounts.TraySwitchChanges` | client/src-tauri/src/lib.rs:392-440 | exactly when a tray switch succeeds, and that it then activates and dates the account and changes nothing else |
| `Accounts.UsageChangesDate` | client/src/utils/storage.ts:854-866 | recording usage dates the account, as far as matching is concerned nothing else |
| `Accounts.RemoveKeepsOrder` | client/src/utils/storage.ts:844-849 | removing keeps the other accounts in their order |
| `Accounts.AddOverwritesChosen` | client/src/utils/storage.ts:573-650 | an add changes an account iff it is the chosen match with rank 2 or more and differs from the new info; so it overwrites another provider's account iff that is the chosen one |
| `Accounts.AddSparesStrangers` | client/src/utils/storage.ts:573-650 | an account that shares neither user id nor email is never changed by an add |
| `Accounts.AddMayOverwriteAnotherProvider` | client/src/utils/storage.ts:573-650 | a store in which adding a Codex auth overwrites a Claude account |
| `Accounts.EveryHistoryIsValid` | client/src/utils/storage.ts:558-879 | any sequence of adds, imports, upserts, removals, usage updates, activations, tray switches and syncs with fresh ids keeps ids distinct and at most one active account |
| `Accounts.SyncActivatesBest` | client/src/utils/storage.ts:953-1059 | exactly one best-ranked account is active, an active one stays, else the one of greatest updatedAt string; none if nothing matches |
| `Accounts.SyncActivatesEarliest` | client/src/utils/storage.ts:953-1059 | a sync activates an account that meets the earliest criterion, none iff no account meets any, and changes only flags |
| `Accounts.SyncIsIdempotent` | client/src/utils/storage.ts:953-1059 | syncing again with the same auth changes nothing |
| `Accounts.SyncActivatesTarget` | client/src/utils/storage.ts:953-1059 | a sync activates an account of another provider iff that is the target among the best-ranked ones |
| `Accounts.SyncMayActivateAnotherProvider` | client/src/utils/storage.ts:953-1059 | a store in which a Codex login activates a Claude account |
| `Accounts.OverlappingHistoryIsValid` | client/src/utils/storage.ts:573-695 | however loads and saves of operations overlap, ids stay distinct and at most one account is active |
| `Accounts.OverlapLosesUpdate` | client/src/utils/storage.ts:573-650 | of two overlapping operations the later save leaves nothing of the earlier |
| `AccountStoreClass.AccountStore.AddAccount` | client/src/utils/storage.ts:573-650 | the store after an add, refused iff the identity is insufficient and that is not allowed |
| `AccountStoreClass.AccountStore.UpsertProviderAccount` | client/src/utils/storage.ts:652-695 | the store after an upsert |
| `AccountStoreClass.AccountStore.RemoveAccount` | client/src/utils/storage.ts:844-849 | the store after a removal |
| `AccountStoreClass.AccountStore.SetActiveAccount` | client/src/utils/storage.ts:871-879 | the store after an activation |
| `AccountStoreClass.AccountStore.SwitchFromTray` | client/src-tauri/src/lib.rs:392-440 | the store after a tray switch; on success the account is active, on failure nothing changed |
| `AccountStoreClass.AccountStore.SyncCurrentAccount` | client/src/utils/storage.ts:953-1059 | the store after a sync and the id it reports |
| `LogRotation.FileSystem.OpenRotatingLogFile` | server/internal/config/config.go:607-634 | an exact shift for any pattern of missing backups, all other paths untouched, the log new; after a fault the shift of the upper part only |
| `LogRotation.OnlyTheOldestIsLost` | server/internal/config/config.go:607-634 | whatever the fault, every content but the oldest is still there, in place or one number up |
| `LogRotation.EachMovesUpByOne` | server/internal/config/config.go:607-634 | after a complete rotation each backup holds what the one before it held, file by file, and all else stays |
| `LogRotation.RotatesWhenFull` | server/internal/config/config.go:607-616 | a log is rotated from 50 MiB on |
| `MiniMaxPools.GroupByPool` | server/internal/api/minimax_types.go:333-379 | one group per pool in first-appearance order, holding exactly the names of its members, sorted |
| `MiniMaxPools.GroupsPartition` | server/internal/api/minimax_types.go:333-379 | no active model's name is lost or doubled and groups have distinct pools |
| `MiniMaxPools.GroupedTogether` | server/internal/api/minimax_types.go:333-379 | two models are in one group iff both report a total or a use and agree on total, use, rest and second of reset |
| `MiniMaxPools.FirstAppearance` | server/internal/api/minimax_types.go:333-379 | a group is represented by the first of its models |
| `MiniMaxPools.GroupsInOrder` | server/internal/api/minimax_types.go:333-379 | groups come in the order of their first models |
| `MiniMaxPools.IsSharedQuota` | server/internal/api/minimax_types.go:74-94 | true iff there are two or more models and all report the first one's pool, resets within a second |
| `MiniMaxPools.OneGroupIsShared` | server/internal/api/minimax_types.go:74-94 | if the active models form a single group, the quota is shared iff all models are active and all or none have a reset time, the latter failing only for a reset in second 0 |
| `MiniMaxPools.MixedGroup` | server/internal/api/minimax_types.go:333-379 | two models in one group that do not share a quota |

## Left out

- The database, trackers, notifications and web handlers: the log records the calls, whose outcomes are inputs.
- HTTP, JSON, keychain, file dialogs, process detection and the user interface: their outcomes are inputs.
- Anthropic credentials are one store. The file and the keychain behind `WriteAnthropicCredentials`, and a write that
  reaches only one of them, are not distinguished; other processes write between polls, not inside one.
- Times are unbounded integers, except the 64-bit epoch numbers of `RateLimits`; amounts are reals, so NaN and rounding
  are not modelled.
- Strings are compared by code point. JavaScript compares UTF-16 units, which differs only for characters beyond U+FFFF.
- Session and account ids come from outside and are assumed fresh where a result says so.
- `AgentManagerClass.AgentManager.Register`: the factory call between the two critical sections has no effect here but to
  succeed or fail.
- `MiniMaxManagerClass.MiniMaxAgentManager.Reload`: the initial load is over and the context is not cancelled meanwhile;
  `InitialLoadRacesReload` shows what happens otherwise.
- `MiniMaxManagerClass.MiniMaxAgentManager.StopAllAgents`: no other load is in flight, as in a `Reload` after the initial
  load; with one, the steps interleave as in `MiniMaxProtocol`, and `WaitMissesOnlyTheGap` says what is left behind.
- `MiniMaxManagerClass.MiniMaxAgentManager.StartAgentForAccount`: no other load is in flight; with one, `NextOwned` says
  when a registration displaces an agent.
- `CodexProfiles.ProfilesAreIsolated`: an owner is an account id, and a login leaves tokens of one account. The code does
  not tell two users of one account apart.
  Of the two kinds of login it excludes, the first is shown to do harm (`OwnLoginHarms`); whether the second does
  depends on what further default agents do.
  A profile's name is its file's name, and writing through the temporary file is one step.
- The profile scanner and the instance map of the Codex manager; its late cleanup is that of `AgentProtocol`.
- Workspace metadata and the other fields that take no part in matching are one field, given already merged; aliases
  and the stored auth files are omitted.
- The Gemini agent, which re-applies the token from before a refresh in the same poll, and the other providers' agents.
- Display names, status thresholds, key redaction, settings and encryption of secrets: true but easy, or a library's.
