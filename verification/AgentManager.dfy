/**
  The provider agent manager as interleaved steps. Each step is one critical section of manager.go,
  one call of a cancel function, or a runner returning. A runner is named by its generation,
  its position in the sequence of all goroutines ever started.
 */
module AgentProtocol {

  /** Live: Run has not returned. Returned: Run has returned, its cleanup has not run yet. */
  datatype Phase = Live | Returned | Cleaned
  datatype Runner = Runner(key: string, phase: Phase)

  /**
    starting: the Start calls between their two critical sections.
    toCancel: the generations a Stop or StopAll has removed and not cancelled yet.
   */
  datatype State = State(factories: set<string>, running: map<string, nat>, runners: seq<Runner>,
                         cancelled: set<nat>, toCancel: set<nat>, starting: multiset<string>)
  {
    /** Neither cancelled nor about to be. */
    predicate Uncancelled(g: nat) { g !in cancelled && g !in toCancel }

    predicate Registered(g: nat)
      requires g < |runners|
    {
      runners[g].key in running && running[runners[g].key] == g
    }

    /** A polling agent nobody has asked to stop. */
    predicate Polling(g: nat) {
      g < |runners| && runners[g].phase.Live? && Uncancelled(g)
    }

    predicate AwaitsCleanup(g: nat) {
      g < |runners| && !runners[g].phase.Cleaned?
    }

    predicate IsRunning(key: string) { key in running }
  }

  datatype Action =
    | RegisterFactory(key: string)
    | StartCheck(key: string)
    | FactoryFails(key: string)
    | StartRegister(key: string)
    | StopTake(key: string)
    | StopAllTake
    | Cancel(g: nat)
    | Return(g: nat)
    | Cleanup(g: nat)

  const INITIAL := State({}, map[], [], {}, {}, multiset{})

  predicate Enabled(s: State, a: Action) {
    match a
    case FactoryFails(key) => key in s.starting
    case StartRegister(key) => key in s.starting
    case Cancel(g) => g in s.toCancel
    case Return(g) => g < |s.runners| && s.runners[g].phase.Live?
    case Cleanup(g) => g < |s.runners| && s.runners[g].phase.Returned?
    case _ => true
  }

  /** The effect of a step; a step that is not enabled does nothing. */
  function Next(s: State, a: Action): State {
    if !Enabled(s, a) then s
    else
      match a
      case RegisterFactory(key) => s.(factories := s.factories + {key})
      case StartCheck(key) =>
        if key in s.running || key !in s.factories then s
        else s.(starting := s.starting + multiset{key})
      case FactoryFails(key) => s.(starting := s.starting - multiset{key})
      case StartRegister(key) =>
        var s := s.(starting := s.starting - multiset{key});
        if key in s.running then s
        else s.(running := s.running[key := |s.runners|], runners := s.runners + [Runner(key, Live)])
      case StopTake(key) =>
        if key !in s.running then s
        else s.(running := s.running - {key}, toCancel := s.toCancel + {s.running[key]})
      case StopAllTake => s.(running := map[], toCancel := s.toCancel + s.running.Values)
      case Cancel(g) => s.(toCancel := s.toCancel - {g}, cancelled := s.cancelled + {g})
      case Return(g) => s.(runners := s.runners[g := s.runners[g].(phase := Returned)])
      case Cleanup(g) =>
        s.(running := s.running - {s.runners[g].key}, runners := s.runners[g := s.runners[g].(phase := Cleaned)])
  }

  function Run(s: State, actions: seq<Action>): State
    decreases |actions|
  {
    if actions == [] then s else Run(Next(s, actions[0]), actions[1..])
  }

  // ----- what every interleaving keeps -----

  /** A registered entry names a runner of its key that was never cancelled and has not been cleaned up. */
  predicate Sound(s: State) {
    && (forall k | k in s.running ::
          s.running[k] < |s.runners| && s.runners[s.running[k]].key == k
          && s.Uncancelled(s.running[k]) && !s.runners[s.running[k]].phase.Cleaned?)
    && (forall g | g in s.cancelled :: g < |s.runners|)
    && (forall g | g in s.toCancel :: g < |s.runners| && g !in s.cancelled)
  }

  lemma NextSound(s: State, a: Action)
    requires Sound(s)
    ensures Sound(Next(s, a))
  {
    if Enabled(s, a) {
      match a
      case StartRegister(_) =>
      case Cleanup(_) =>
      case _ =>
    }
  }

  lemma {:induction false} RunSound(s: State, actions: seq<Action>)
    requires Sound(s)
    ensures Sound(Run(s, actions))
    decreases |actions|
  {
    if actions != [] {
      NextSound(s, actions[0]);
      RunSound(Next(s, actions[0]), actions[1..]);
    }
  }

  /** In every interleaving a registered cancel function has not been called. */
  lemma RegisteredIsUncancelled(actions: seq<Action>, key: string)
    ensures var s := Run(INITIAL, actions);
            s.IsRunning(key) ==> s.running[key] < |s.runners| && s.running[key] !in s.cancelled
  {
    RunSound(INITIAL, actions);
  }

  predicate Removes(s: State, a: Action, key: string) {
    || a == StopTake(key) || a.StopAllTake?
    || (a.Cleanup? && a.g < |s.runners| && s.runners[a.g].key == key)
  }

  /** No step of the run takes key out of the running map. */
  predicate NeverRemoved(s: State, actions: seq<Action>, key: string)
    decreases |actions|
  {
    actions == [] || (!Removes(s, actions[0], key) && NeverRemoved(Next(s, actions[0]), actions[1..], key))
  }

  function CountOf(runners: seq<Runner>, key: string): nat {
    if runners == [] then 0
    else CountOf(runners[..|runners| - 1], key) + if runners[|runners| - 1].key == key then 1 else 0
  }

  lemma {:induction false} CountIgnoresPhase(runners: seq<Runner>, g: nat, phase: Phase, key: string)
    requires g < |runners|
    ensures CountOf(runners[g := runners[g].(phase := phase)], key) == CountOf(runners, key)
  {
    var n := |runners| - 1;
    var changed := runners[g := runners[g].(phase := phase)];
    if g < n {
      CountIgnoresPhase(runners[..n], g, phase, key);
      assert changed[..n] == runners[..n][g := runners[g].(phase := phase)];
    } else {
      assert changed[..n] == runners[..n];
    }
  }

  lemma NextCount(s: State, a: Action, key: string)
    ensures CountOf(Next(s, a).runners, key) == CountOf(s.runners, key)
              + if Enabled(s, a) && a == StartRegister(key) && !s.IsRunning(key) then 1 else 0
  {
    match a
    case StartRegister(k) => assert (s.runners + [Runner(k, Live)])[..|s.runners|] == s.runners;
    case Return(g) => if Enabled(s, a) { CountIgnoresPhase(s.runners, g, Returned, key); }
    case Cleanup(g) => if Enabled(s, a) { CountIgnoresPhase(s.runners, g, Cleaned, key); }
    case _ =>
  }

  /** However many Starts of a key overlap, at most one registers until the key is removed, none if it was running. */
  lemma {:induction false} ConcurrentStartsRegisterOnce(s: State, actions: seq<Action>, key: string)
    requires NeverRemoved(s, actions, key)
    ensures CountOf(Run(s, actions).runners, key) <= CountOf(s.runners, key) + if s.IsRunning(key) then 0 else 1
    ensures s.IsRunning(key) ==> Run(s, actions).IsRunning(key)
    decreases |actions|
  {
    if actions != [] {
      NextCount(s, actions[0], key);
      ConcurrentStartsRegisterOnce(Next(s, actions[0]), actions[1..], key);
    }
  }

  // ----- what a Start, a Stop and a StopAll achieve -----

  /** A Start of a registered provider that does not run, with nothing in between, sets a polling agent running. */
  lemma StartStarts(s: State, key: string)
    requires Sound(s) && key in s.factories && !s.IsRunning(key)
    ensures var s' := Next(Next(s, StartCheck(key)), StartRegister(key));
            && s'.IsRunning(key) && s'.Polling(s'.running[key]) && s'.starting == s.starting
            && s'.runners == s.runners + [Runner(key, Live)] && s'.running == s.running[key := |s.runners|]
  {
    assert s.starting + multiset{key} - multiset{key} == s.starting;
  }

  /** A Stop cancels the running agent of its key and no other. */
  lemma StopStops(s: State, key: string)
    requires Sound(s) && s.IsRunning(key)
    ensures var g := s.running[key];
            var s' := Next(Next(s, StopTake(key)), Cancel(g));
            && !s'.IsRunning(key) && !s'.Polling(g) && s'.cancelled == s.cancelled + {g} && s'.toCancel == s.toCancel
            && s'.running == s.running - {key} && s'.runners == s.runners
  {
  }

  /** A StopAll leaves nothing running and has exactly the running agents to cancel. */
  lemma StopAllStopsAll(s: State, g: nat)
    ensures var s' := Next(s, StopAllTake);
            && s'.running == map[] && s'.runners == s.runners && s'.cancelled == s.cancelled
            && (g in s'.toCancel <==> g in s.toCancel || exists key :: s.IsRunning(key) && s.running[key] == g)
  {
  }

  /** The number of Start calls for the key that went past their first check, over a run. */
  function Passed(s: State, actions: seq<Action>, key: string): nat
    decreases |actions|
  {
    if actions == [] then 0
    else (if actions[0] == StartCheck(key) && key !in s.running && key in s.factories then 1 else 0)
         + Passed(Next(s, actions[0]), actions[1..], key)
  }

  /** Those that ended without registering: their factory failed, or the key was taken by then. */
  function Ended(s: State, actions: seq<Action>, key: string): nat
    decreases |actions|
  {
    if actions == [] then 0
    else (if key in s.starting && (actions[0] == FactoryFails(key) || (actions[0] == StartRegister(key) && key in s.running))
          then 1 else 0)
         + Ended(Next(s, actions[0]), actions[1..], key)
  }

  /** Every Start that passed its check has registered an agent, ended without one, or is still between its two sections. */
  lemma {:induction false} StartsAreConserved(s: State, actions: seq<Action>, key: string)
    ensures CountOf(Run(s, actions).runners, key) + Run(s, actions).starting[key] + Ended(s, actions, key)
         == CountOf(s.runners, key) + s.starting[key] + Passed(s, actions, key)
    decreases |actions|
  {
    if actions != [] {
      NextCount(s, actions[0], key);
      StartsAreConserved(Next(s, actions[0]), actions[1..], key);
    }
  }

  /** No agent runs for a key without a factory. */
  predicate HaveFactories(s: State) {
    (forall k | k in s.starting :: k in s.factories) && (forall g | 0 <= g < |s.runners| :: s.runners[g].key in s.factories)
  }

  lemma {:induction false} RunnersHaveFactories(s: State, actions: seq<Action>)
    requires HaveFactories(s)
    ensures HaveFactories(Run(s, actions))
    ensures forall k :: k in Run(s, actions).factories <==> k in s.factories || RegisterFactory(k) in actions
    decreases |actions|
  {
    if actions != [] {
      RunnersHaveFactories(Next(s, actions[0]), actions[1..]);
      assert forall k :: RegisterFactory(k) in actions <==> RegisterFactory(k) == actions[0] || RegisterFactory(k) in actions[1..];
    }
  }

  // ----- when IsRunning tells the truth -----

  /** Each polling agent is the one registered for its key. */
  ghost predicate Truthful(s: State) {
    forall g: nat | s.Polling(g) :: s.Registered(g)
  }

  /** No goroutine awaiting cleanup has a key under which another one is registered and polling. */
  ghost predicate NoStaleCleanup(s: State) {
    forall g: nat | s.AwaitsCleanup(g) && s.IsRunning(s.runners[g].key) && s.Polling(s.running[s.runners[g].key]) ::
      s.Registered(g)
  }

  /** The guard under which re-registering is harmless: the key's earlier goroutines are all cleaned up. */
  ghost predicate AllCleaned(s: State, key: string) {
    forall g: nat | s.AwaitsCleanup(g) :: s.runners[g].key != key
  }

  ghost predicate Disciplined(s: State, actions: seq<Action>)
    decreases |actions|
  {
    actions == [] ||
    ((Enabled(s, actions[0]) && actions[0].StartRegister? && !s.IsRunning(actions[0].key) ==> AllCleaned(s, actions[0].key))
     && Disciplined(Next(s, actions[0]), actions[1..]))
  }

  lemma NextTruthful(s: State, a: Action)
    requires Sound(s) && Truthful(s) && NoStaleCleanup(s)
    ensures Truthful(Next(s, a))
    ensures !a.StartRegister? ==> NoStaleCleanup(Next(s, a))
    ensures a.StartRegister? && (!Enabled(s, a) || s.IsRunning(a.key)) ==> NoStaleCleanup(Next(s, a))
    ensures a.StartRegister? && Enabled(s, a) && !s.IsRunning(a.key) ==>
              (NoStaleCleanup(Next(s, a)) <==> AllCleaned(s, a.key))
  {
    var s' := Next(s, a);
    forall g: nat | s'.Polling(g) ensures s'.Registered(g) {
      PollingIsRegistered(s, a, g);
    }
    if a.StartRegister? && Enabled(s, a) && !s.IsRunning(a.key) {
      RegisteringIsStale(s, a.key);
    }
  }

  lemma RegisteringIsStale(s: State, key: string)
    requires Sound(s) && NoStaleCleanup(s) && key in s.starting && !s.IsRunning(key)
    ensures NoStaleCleanup(Next(s, StartRegister(key))) <==> AllCleaned(s, key)
  {
    var s' := Next(s, StartRegister(key));
    if g: nat :| s.AwaitsCleanup(g) && s.runners[g].key == key {
      assert s'.AwaitsCleanup(g) && !s'.Registered(g);
      assert s'.Polling(s'.running[key]);
    } else {
      forall g: nat | s'.AwaitsCleanup(g) && s'.IsRunning(s'.runners[g].key) && s'.Polling(s'.running[s'.runners[g].key])
        ensures s'.Registered(g)
      {
        assert g < |s.runners| ==> s.AwaitsCleanup(g);
      }
    }
  }

  lemma PollingIsRegistered(s: State, a: Action, g: nat)
    requires Sound(s) && Truthful(s) && NoStaleCleanup(s) && Next(s, a).Polling(g)
    ensures Next(s, a).Registered(g)
  {
    if g < |s.runners| {
      assert s.Polling(g) && s.Registered(g);
      assert a.Cleanup? && Enabled(s, a) ==> s.AwaitsCleanup(a.g);
    }
  }

  lemma {:induction false} RunTruthful(s: State, actions: seq<Action>)
    requires Sound(s) && Truthful(s) && NoStaleCleanup(s) && Disciplined(s, actions)
    ensures Sound(Run(s, actions)) && Truthful(Run(s, actions)) && NoStaleCleanup(Run(s, actions))
    decreases |actions|
  {
    if actions != [] {
      NextSound(s, actions[0]);
      NextTruthful(s, actions[0]);
      RunTruthful(Next(s, actions[0]), actions[1..]);
    }
  }

  /**
    If no key is re-registered before its old goroutine's cleanup, a polling agent is the registered one:
    there is at most one per key, and a key that is not running has none.
   */
  lemma DisciplinedManagerIsTruthful(actions: seq<Action>, g: nat, h: nat)
    requires Disciplined(INITIAL, actions)
    ensures var s := Run(INITIAL, actions);
            && (s.Polling(g) ==> s.IsRunning(s.runners[g].key))
            && (s.Polling(g) && s.Polling(h) && s.runners[g].key == s.runners[h].key ==> g == h)
  {
    RunTruthful(INITIAL, actions);
  }

  /** No step of the run registers a new runner. */
  predicate RegistersNone(actions: seq<Action>) {
    forall i | 0 <= i < |actions| :: !actions[i].StartRegister?
  }

  lemma {:induction false} StaysTruthful(s: State, actions: seq<Action>)
    requires Sound(s) && Truthful(s) && NoStaleCleanup(s) && RegistersNone(actions)
    ensures Truthful(Run(s, actions))
    decreases |actions|
  {
    if actions != [] {
      NextSound(s, actions[0]);
      NextTruthful(s, actions[0]);
      StaysTruthful(Next(s, actions[0]), actions[1..]);
    }
  }

  /** A stale cleanup deletes the entry of the agent registered after it, which goes on polling unregistered. */
  lemma StaleCleanupOrphans(s: State, g: nat) returns (actions: seq<Action>)
    requires Sound(s) && s.AwaitsCleanup(g) && s.IsRunning(s.runners[g].key) && !s.Registered(g)
    requires s.Polling(s.running[s.runners[g].key])
    ensures RegistersNone(actions) && !Truthful(Run(s, actions))
  {
    var h := s.running[s.runners[g].key];
    actions := [Return(g), Cleanup(g)];
    assert actions[1..] == [Cleanup(g)] && [Cleanup(g)][1..] == [];
    var s1 := Next(s, Return(g));
    var s2 := Next(s1, Cleanup(g));
    assert s1.runners[g].phase.Returned? && s1.runners[g].key == s.runners[g].key;
    assert Run(s, actions) == Run(s1, [Cleanup(g)]) == Run(s2, []) == s2;
    assert s2.Polling(h) && !s2.Registered(h);
  }

  /** Exactly the states without a stale cleanup stay truthful however the pending steps interleave. */
  lemma TruthfulFutures(s: State)
    requires Sound(s) && Truthful(s)
    ensures NoStaleCleanup(s) <==> forall actions | RegistersNone(actions) :: Truthful(Run(s, actions))
  {
    if NoStaleCleanup(s) {
      forall actions | RegistersNone(actions) ensures Truthful(Run(s, actions)) {
        StaysTruthful(s, actions);
      }
    } else {
      var g: nat :| s.AwaitsCleanup(g) && s.IsRunning(s.runners[g].key) && s.Polling(s.running[s.runners[g].key]) && !s.Registered(g);
      var actions := StaleCleanupOrphans(s, g);
    }
  }

  /** An agent that polls but is not registered. */
  predicate Orphan(s: State, g: nat) {
    s.Polling(g) && !s.Registered(g)
  }

  /** Nothing the manager does stops an orphan: it polls until it returns by itself, in every continuation. */
  lemma {:induction false} OrphansAreForever(s: State, actions: seq<Action>, g: nat)
    requires Sound(s) && Orphan(s, g)
    requires forall i | 0 <= i < |actions| :: actions[i] != Return(g)
    ensures Orphan(Run(s, actions), g)
    decreases |actions|
  {
    if actions != [] {
      NextSound(s, actions[0]);
      OrphansAreForever(Next(s, actions[0]), actions[1..], g);
    }
  }

  const KEY := "anthropic"
  const TWICE_STARTED :=
    State({KEY}, map[KEY := 1], [Runner(KEY, Live), Runner(KEY, Live)], {}, {0}, multiset{})
  const ORPHANED :=
    State({KEY}, map[], [Runner(KEY, Cleaned), Runner(KEY, Live)], {0}, {}, multiset{})

  lemma StartStopStart()
    ensures Next(Next(Next(Next(Next(Next(INITIAL, RegisterFactory(KEY)), StartCheck(KEY)), StartRegister(KEY)),
                           StopTake(KEY)), StartCheck(KEY)), StartRegister(KEY)) == TWICE_STARTED
  {
    var s3 := Next(Next(Next(INITIAL, RegisterFactory(KEY)), StartCheck(KEY)), StartRegister(KEY));
    assert s3 == State({KEY}, map[KEY := 0], [Runner(KEY, Live)], {}, {}, multiset{});
    var s4 := Next(s3, StopTake(KEY));
    assert s4.running == map[] && s4.toCancel == {0};
  }

  lemma LateCleanup()
    ensures Next(Next(Next(TWICE_STARTED, Cancel(0)), Return(0)), Cleanup(0)) == ORPHANED
  {
  }

  lemma {:induction false} RunSplits(s: State, a: seq<Action>, b: seq<Action>)
    ensures Run(s, a + b) == Run(Run(s, a), b)
    decreases |a|
  {
    if a == [] {
      assert a + b == b;
    } else {
      assert (a + b)[1..] == a[1..] + b;
      RunSplits(Next(s, a[0]), a[1..], b);
    }
  }

  lemma RunOfThree(s: State, a: Action, b: Action, c: Action)
    ensures Run(s, [a, b, c]) == Next(Next(Next(s, a), b), c)
  {
    hide Next;
    assert [a, b, c][1..] == [b, c] && [b, c][1..] == [c] && [c][1..] == [];
    var s2 := Next(Next(s, a), b);
    assert Run(s2, [c]) == Run(Next(s2, c), []);
    assert Run(Next(s, a), [b, c]) == Run(s2, [c]);
  }

  /** Start, Stop, Start, then the first goroutine's late cleanup, then Start: two agents poll for one key. */
  lemma LateCleanupDoublesPolling() returns (actions: seq<Action>, g: nat, h: nat)
    ensures var s := Run(INITIAL, actions);
            g != h && s.Polling(g) && s.Polling(h) && s.runners[g].key == s.runners[h].key
  {
    var a := [RegisterFactory(KEY), StartCheck(KEY), StartRegister(KEY)];
    var b := [StopTake(KEY), StartCheck(KEY), StartRegister(KEY)];
    var c := [Cancel(0), Return(0), Cleanup(0)];
    var d := [StartCheck(KEY), StartRegister(KEY), RegisterFactory(KEY)];
    actions, g, h := a + b + c + d, 1, 2;
    RunSplits(INITIAL, a + b + c, d);
    RunSplits(INITIAL, a + b, c);
    RunSplits(INITIAL, a, b);
    RunOfThree(INITIAL, a[0], a[1], a[2]);
    RunOfThree(Run(INITIAL, a), b[0], b[1], b[2]);
    RunOfThree(TWICE_STARTED, c[0], c[1], c[2]);
    RunOfThree(ORPHANED, d[0], d[1], d[2]);
    StartStopStart();
    LateCleanup();
  }

  /** Stopping and restarting a key without waiting always leaves a stale cleanup behind, whatever the state. */
  lemma ImmediateRestartIsStale(s: State, key: string)
    requires Sound(s) && s.IsRunning(key) && key in s.factories
    ensures var s1 := Next(Next(s, StopTake(key)), Cancel(s.running[key]));
            !NoStaleCleanup(Next(Next(s1, StartCheck(key)), StartRegister(key)))
  {
    var g := s.running[key];
    var s1 := Next(Next(s, StopTake(key)), Cancel(g));
    var s2 := Next(Next(s1, StartCheck(key)), StartRegister(key));
    assert s2.runners == s.runners + [Runner(key, Live)] && s2.running[key] == |s.runners|;
    assert s2.AwaitsCleanup(g) && !s2.Registered(g);
    assert s2.Polling(|s.runners|);
  }
}

/** The manager with its maps, one method per critical section. A cancel function is the generation it cancels. */
module AgentManagerClass {
  import opened Common
  import opened AgentProtocol

  datatype CheckResult = AlreadyRunning | NotRegistered | CallFactory

  class AgentManager {
    var factories: set<string>
    var running: map<string, nat>

    // The goroutines and calls in flight, which the manager itself does not see.
    ghost var runners: seq<Runner>
    ghost var cancelled: set<nat>
    ghost var toCancel: set<nat>
    ghost var starting: multiset<string>

    // Names the next goroutine, as the context created for it does.
    var started: nat

    ghost predicate Valid()
      reads this
    {
      started == |runners| && Sound(State())
    }

    ghost function State(): AgentProtocol.State
      reads this
    {
      AgentProtocol.State(factories, running, runners, cancelled, toCancel, starting)
    }

    constructor ()
      ensures Valid() && State() == INITIAL
    {
      factories, running, started := {}, map[], 0;
      runners, cancelled, toCancel, starting := [], {}, {}, multiset{};
    }

    method RegisterFactory(key: string)
      requires Valid()
      modifies this
      ensures Valid() && State() == Next(old(State()), Action.RegisterFactory(key))
    {
      factories := factories + {key};
    }

    /** First critical section of Start. */
    method CheckStart(key: string) returns (r: CheckResult)
      requires Valid()
      modifies this
      ensures Valid() && State() == Next(old(State()), StartCheck(key))
      ensures r == if key in running then AlreadyRunning else if key in factories then CallFactory else NotRegistered
    {
      if key in running {
        return AlreadyRunning;
      }
      if key !in factories {
        return NotRegistered;
      }
      starting := starting + multiset{key};
      return CallFactory;
    }

    /** Second critical section of Start, once the factory has built a runner. */
    method Register(key: string) returns (registered: bool)
      requires Valid() && key in starting
      modifies this
      ensures Valid() && State() == Next(old(State()), StartRegister(key))
      ensures registered == (key !in old(running))
    {
      NextSound(State(), StartRegister(key));
      starting := starting - multiset{key};
      if key in running {
        return false;
      }
      running := running[key := started];
      runners := runners + [Runner(key, Live)];
      started := started + 1;
      return true;
    }

    /** Critical section of Stop; the caller cancels the result after unlocking. */
    method TakeForStop(key: string) returns (cancel: Option<nat>)
      requires Valid()
      modifies this
      ensures Valid() && State() == Next(old(State()), StopTake(key))
      ensures cancel == if key in old(running) then Some(old(running)[key]) else None
    {
      NextSound(State(), StopTake(key));
      if key !in running {
        return None;
      }
      cancel := Some(running[key]);
      running := running - {key};
      toCancel := toCancel + {cancel.value};
    }

    /** Critical section of StopAll: empties the map entry by entry, collecting the cancel functions. */
    method TakeAll() returns (cancels: seq<nat>)
      requires Valid()
      modifies this
      ensures Valid() && State() == Next(old(State()), StopAllTake)
      ensures forall g :: g in cancels <==> g in old(running).Values
    {
      NextSound(State(), StopAllTake);
      cancels := EmptyRunning();
      toCancel := toCancel + old(running).Values;
    }

    method EmptyRunning() returns (cancels: seq<nat>)
      modifies this`running
      ensures running == map[]
      ensures forall g :: g in cancels <==> g in old(running).Values
    {
      ghost var was := running;
      cancels := [];
      while running != map[]
        invariant forall k | k in running :: k in was && running[k] == was[k]
        invariant forall g | g in cancels :: g in was.Values
        invariant forall k | k in was && k !in running :: was[k] in cancels
        decreases |running|
      {
        var key :| key in running;
        cancels := cancels + [running[key]];
        ghost var before := running;
        running := running - {key};
        assert running.Keys == before.Keys - {key};
      }
    }

    /** Critical section at the end of a runner's goroutine. It deletes whatever entry its key has by now. */
    method CleanUp(key: string, ghost g: nat)
      requires Valid() && g < |runners| && runners[g] == Runner(key, Returned)
      modifies this
      ensures Valid() && State() == Next(old(State()), Cleanup(g))
    {
      NextSound(State(), Cleanup(g));
      running := running - {key};
      runners := runners[g := Runner(key, Cleaned)];
    }
  }
}
