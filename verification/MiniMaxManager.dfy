/**
  The MiniMax account manager as interleaved steps: checking for and registering an instance, adding to the
  WaitGroup, the goroutine starting, returning and calling Done, taking all instances, cancelling one.
  Agents are named by the order of registration.
 */
module MiniMaxProtocol {

  /**
    Registered: put in the map. Added: wg.Add(1) was called. Running: the goroutine executes the agent.
    Returned: the agent has returned, wg.Done has not been called yet. Gone: it has.
   */
  datatype Phase = Registered | Added | Running | Returned | Gone {
    predicate Counted() { Added? || Running? || Returned? }
  }
  datatype Agent = Agent(account: int, phase: Phase, cancelled: bool)

  /** checked: accounts found absent by a load that has not registered them yet. toCancel: taken, not cancelled yet. */
  datatype State = State(instances: map<int, nat>, agents: seq<Agent>, wg: int,
                         checked: multiset<int>, toCancel: set<nat>, done: bool)
  {
    /** The agent was told to stop, or is about to be. */
    predicate Stopping(g: nat)
      requires g < |agents|
    {
      agents[g].cancelled || g in toCancel
    }

    predicate Held(g: nat)
      requires g < |agents|
    {
      agents[g].account in instances && instances[agents[g].account] == g
    }
  }

  datatype Step =
    | Check(account: int)
    | Register(account: int)
    | Add(g: nat)
    | Go(g: nat)
    | TakeAll
    | Cancel(g: nat)
    | Return(g: nat)
    | Done(g: nat)
    | CancelContext

  const INITIAL := State(map[], [], 0, multiset{}, {}, false)

  function Progress(p: Phase): nat {
    match p case Registered => 0 case Added => 1 case Running => 2 case Returned => 3 case Gone => 4
  }

  /** s' comes from s by goroutines going on: starting, returning, calling Done. */
  predicate OnlyProgress(s: State, s': State) {
    && s'.instances == s.instances && s'.checked == s.checked && s'.toCancel == s.toCancel && s'.done == s.done
    && |s'.agents| == |s.agents|
    && forall g: nat | g < |s.agents| ::
         && s'.agents[g] == s.agents[g].(phase := s'.agents[g].phase)
         && Progress(s.agents[g].phase) <= Progress(s'.agents[g].phase)
         && (s.agents[g].phase.Registered? <==> s'.agents[g].phase.Registered?)
  }

  /** Every registered agent is counted by the WaitGroup or gone. */
  predicate Quiet(s: State) {
    forall g: nat | g < |s.agents| :: !s.agents[g].phase.Registered?
  }

  /** s' may follow s while the context is not cancelled: no agent is forgotten or comes back. */
  predicate Later(s: State, s': State) {
    && s'.done == s.done && |s.agents| <= |s'.agents|
    && forall g: nat | g < |s.agents| && s.agents[g].phase.Gone? :: s'.agents[g].phase.Gone?
  }

  predicate Enabled(s: State, step: Step) {
    match step
    case Register(account) => account in s.checked
    case Add(g) => g < |s.agents| && s.agents[g].phase.Registered?
    case Go(g) => g < |s.agents| && s.agents[g].phase.Added?
    case Cancel(g) => g in s.toCancel && g < |s.agents|
    case Return(g) => g < |s.agents| && s.agents[g].phase.Running?
    case Done(g) => g < |s.agents| && s.agents[g].phase.Returned?
    case _ => true
  }

  function Move(s: State, g: nat, phase: Phase): State
    requires g < |s.agents|
  {
    s.(agents := s.agents[g := s.agents[g].(phase := phase)])
  }

  function CancelAll(agents: seq<Agent>): seq<Agent> {
    seq(|agents|, i requires 0 <= i < |agents| => agents[i].(cancelled := true))
  }

  function Taken(instances: map<int, nat>): set<nat> {
    set a | a in instances :: instances[a]
  }

  function Next(s: State, step: Step): State {
    if !Enabled(s, step) then s
    else
      match step
      case Check(account) =>
        if account in s.instances then s else s.(checked := s.checked + multiset{account})
      case Register(account) =>
        s.(checked := s.checked - multiset{account}, instances := s.instances[account := |s.agents|],
           agents := s.agents + [Agent(account, Registered, s.done)])
      case Add(g) => Move(s, g, Added).(wg := s.wg + 1)
      case Go(g) => Move(s, g, Running)
      case TakeAll => s.(instances := map[], toCancel := s.toCancel + Taken(s.instances))
      case Cancel(g) =>
        s.(toCancel := s.toCancel - {g}, agents := s.agents[g := s.agents[g].(cancelled := true)])
      case Return(g) => Move(s, g, Returned)
      case Done(g) => Move(s, g, Gone).(wg := s.wg - 1)
      case CancelContext => s.(agents := CancelAll(s.agents), done := true)
  }

  function Run(s: State, steps: seq<Step>): State
    decreases |steps|
  {
    if steps == [] then s else Run(Next(s, steps[0]), steps[1..])
  }

  function CountAdded(agents: seq<Agent>): nat {
    if agents == [] then 0
    else CountAdded(agents[..|agents| - 1]) + if agents[|agents| - 1].phase.Counted() then 1 else 0
  }

  function CountRunning(agents: seq<Agent>): nat {
    if agents == [] then 0
    else CountRunning(agents[..|agents| - 1]) + if agents[|agents| - 1].phase.Running? then 1 else 0
  }

  lemma {:induction false} CountUpdate(agents: seq<Agent>, g: nat, a: Agent)
    requires g < |agents|
    ensures CountAdded(agents[g := a]) == CountAdded(agents)
              + (if a.phase.Counted() then 1 else 0) - (if agents[g].phase.Counted() then 1 else 0)
  {
    var n := |agents| - 1;
    if g < n {
      CountUpdate(agents[..n], g, a);
      assert agents[g := a][..n] == agents[..n][g := a];
    } else {
      assert agents[g := a][..n] == agents[..n];
    }
  }

  lemma {:induction false} CountCancelAll(agents: seq<Agent>)
    ensures CountAdded(CancelAll(agents)) == CountAdded(agents)
  {
    if agents != [] {
      CountCancelAll(agents[..|agents| - 1]);
      assert CancelAll(agents)[..|agents| - 1] == CancelAll(agents[..|agents| - 1]);
    }
  }

  lemma {:induction false} AddedCounts(agents: seq<Agent>, g: nat)
    requires g < |agents| && agents[g].phase.Counted()
    ensures CountAdded(agents) > 0
  {
    if g < |agents| - 1 {
      AddedCounts(agents[..|agents| - 1], g);
    }
  }

  lemma {:induction false} SomeAdded(agents: seq<Agent>)
    requires CountAdded(agents) > 0
    ensures exists g :: 0 <= g < |agents| && agents[g].phase.Counted()
  {
    var n := |agents| - 1;
    if !agents[n].phase.Counted() {
      SomeAdded(agents[..n]);
      var g :| 0 <= g < n && agents[..n][g].phase.Counted();
      assert agents[g].phase.Counted();
    }
  }

  lemma {:induction false} RunningAreAdded(agents: seq<Agent>)
    ensures CountRunning(agents) <= CountAdded(agents)
  {
    if agents != [] {
      RunningAreAdded(agents[..|agents| - 1]);
    }
  }

  // ----- what every interleaving keeps -----

  /** The WaitGroup counts the additions that are not done, and the map holds agents of their own accounts, not yet told to stop. */
  predicate Sound(s: State) {
    && s.wg == CountAdded(s.agents)
    && (forall a | a in s.instances :: s.instances[a] < |s.agents| && s.agents[s.instances[a]].account == a
                                       && s.instances[a] !in s.toCancel
                                       && (s.agents[s.instances[a]].cancelled ==> s.done))
    && (forall g | g in s.toCancel :: g < |s.agents|)
  }

  lemma NextSound(s: State, step: Step)
    requires Sound(s)
    ensures Sound(Next(s, step))
  {
    NextCount(s, step);
    hide CountAdded;
  }

  lemma NextCount(s: State, step: Step)
    ensures CountAdded(Next(s, step).agents) - Next(s, step).wg == CountAdded(s.agents) - s.wg
  {
    if Enabled(s, step) {
      match step
      case Register(account) => assert Next(s, step).agents[..|s.agents|] == s.agents;
      case Add(g) => CountUpdate(s.agents, g, s.agents[g].(phase := Added));
      case Go(g) => CountUpdate(s.agents, g, s.agents[g].(phase := Running));
      case Cancel(g) => CountUpdate(s.agents, g, s.agents[g].(cancelled := true));
      case Return(g) => CountUpdate(s.agents, g, s.agents[g].(phase := Returned));
      case Done(g) => CountUpdate(s.agents, g, s.agents[g].(phase := Gone));
      case CancelContext => CountCancelAll(s.agents);
      case _ =>
    }
  }

  lemma {:induction false} RunSound(s: State, steps: seq<Step>)
    requires Sound(s)
    ensures Sound(Run(s, steps))
    decreases |steps|
  {
    if steps != [] {
      NextSound(s, steps[0]);
      RunSound(Next(s, steps[0]), steps[1..]);
    }
  }

  /**
    In every interleaving the WaitGroup equals the additions that are not done and is never negative. It
    bounds the running goroutines from above, so when it is zero none runs.
   */
  lemma WaitGroupBoundsRunning(steps: seq<Step>)
    ensures var s := Run(INITIAL, steps);
            CountRunning(s.agents) <= s.wg == CountAdded(s.agents)
            && (s.wg == 0 ==> forall g | 0 <= g < |s.agents| :: !s.agents[g].phase.Running?)
  {
    RunSound(INITIAL, steps);
    var s := Run(INITIAL, steps);
    RunningAreAdded(s.agents);
    forall g | 0 <= g < |s.agents| && s.agents[g].phase.Running? ensures s.wg > 0 {
      AddedCounts(s.agents, g);
    }
  }

  /** Once the context is cancelled every agent is, those registered later included. */
  lemma {:induction false} ContextCancelsAll(s: State, steps: seq<Step>)
    requires s.done ==> forall g | 0 <= g < |s.agents| :: s.agents[g].cancelled
    ensures var s' := Run(s, steps); s'.done ==> forall g | 0 <= g < |s'.agents| :: s'.agents[g].cancelled
    ensures CancelContext in steps ==> Run(s, steps).done
    decreases |steps|
  {
    if steps != [] {
      DoneStays(Next(s, steps[0]), steps[1..]);
      ContextCancelsAll(Next(s, steps[0]), steps[1..]);
    }
  }

  lemma {:induction false} DoneStays(s: State, steps: seq<Step>)
    ensures s.done ==> Run(s, steps).done
    decreases |steps|
  {
    if steps != [] { DoneStays(Next(s, steps[0]), steps[1..]); }
  }

  // ----- what a wait may miss -----

  predicate NoneRuns(s: State) {
    forall g | 0 <= g < |s.agents| :: !s.agents[g].phase.Running?
  }

  /** The steps register no agent. */
  predicate RegistersNone(steps: seq<Step>) {
    forall i | 0 <= i < |steps| :: !steps[i].Register?
  }

  predicate AllGone(s: State) {
    forall g | 0 <= g < |s.agents| :: s.agents[g].phase.Gone?
  }

  lemma {:induction false} GoneStays(s: State, steps: seq<Step>)
    requires AllGone(s) && RegistersNone(steps)
    ensures AllGone(Run(s, steps))
    decreases |steps|
  {
    if steps != [] {
      GoneStays(Next(s, steps[0]), steps[1..]);
    }
  }

  /**
    When a wait has ended, no goroutine of an agent registered so far ever runs again exactly if no agent
    stands between its registration and its wg.Add. A stop in that gap leaves its goroutine behind.
   */
  lemma WaitMissesOnlyTheGap(s: State)
    requires Sound(s) && s.wg == 0
    ensures (forall steps | RegistersNone(steps) :: NoneRuns(Run(s, steps))) <==> Quiet(s)
  {
    forall g | 0 <= g < |s.agents| ensures !s.agents[g].phase.Counted() {
      if s.agents[g].phase.Counted() { AddedCounts(s.agents, g); }
    }
    if Quiet(s) {
      forall steps | RegistersNone(steps) ensures NoneRuns(Run(s, steps)) {
        GoneStays(s, steps);
      }
    } else {
      var g: nat :| g < |s.agents| && s.agents[g].phase.Registered?;
      RunOfTwo(s, Add(g), Go(g), []);
      var steps := [Add(g), Go(g)] + [];
      assert RegistersNone(steps);
      assert Run(s, steps).agents[g].phase.Running?;
    }
  }

  const STOPPED_EARLY := State(map[], [Agent(1, Registered, true)], 0, multiset{}, {}, false)

  /** A load registers an account, a stop takes and cancels it and finds the WaitGroup at zero: the agent still starts. */
  lemma StopMissesStartingAgent()
    ensures Next(Next(Next(Next(INITIAL, Check(1)), Register(1)), TakeAll), Cancel(0)) == STOPPED_EARLY
    ensures Sound(STOPPED_EARLY) && STOPPED_EARLY.wg == 0 && !Quiet(STOPPED_EARLY)
    ensures !NoneRuns(Next(Next(STOPPED_EARLY, Add(0)), Go(0)))
  {
    var s := Next(Next(INITIAL, Check(1)), Register(1));
    assert s == State(map[1 := 0], [Agent(1, Registered, false)], 0, multiset{}, {}, false);
    assert STOPPED_EARLY.agents[..0] == [];
    assert STOPPED_EARLY.agents[0].phase.Registered?;
    assert Next(Next(STOPPED_EARLY, Add(0)), Go(0)).agents[0].phase.Running?;
  }

  /** Every agent that has not gone is in the map or was told to stop, so whoever stops all can wait for all. */
  predicate Owned(s: State) {
    forall g: nat | g < |s.agents| && !s.agents[g].phase.Gone? :: s.Stopping(g) || s.Held(g)
  }

  /** Registering an account displaces no agent that still needs its map entry. */
  predicate DisplacesNone(s: State, account: int) {
    account in s.instances && s.instances[account] < |s.agents| ==>
      var g := s.instances[account]; s.agents[g].phase.Gone? || s.agents[g].cancelled
  }

  /** Only registering over a live entry can lose an agent, and it always does. */
  lemma NextOwned(s: State, step: Step)
    requires Sound(s) && Owned(s)
    ensures !step.Register? || !Enabled(s, step) ==> Owned(Next(s, step))
    ensures step.Register? && Enabled(s, step) ==> (Owned(Next(s, step)) <==> DisplacesNone(s, step.account))
  {
    hide CountAdded;
    if step.Register? && Enabled(s, step) {
      var s' := Next(s, step);
      if !DisplacesNone(s, step.account) {
        var g := s.instances[step.account];
        assert s'.agents[g] == s.agents[g] && !s'.Stopping(g) && !s'.Held(g);
      } else {
        forall g: nat | g < |s'.agents| && !s'.agents[g].phase.Gone? ensures s'.Stopping(g) || s'.Held(g) {
          if g < |s.agents| { assert s'.agents[g] == s.agents[g]; }
        }
      }
    }
  }

  /** Every enabled registration of the run displaces none. */
  predicate NoneDisplaced(s: State, steps: seq<Step>)
    decreases |steps|
  {
    steps == [] ||
    ((steps[0].Register? && Enabled(s, steps[0]) ==> DisplacesNone(s, steps[0].account))
     && NoneDisplaced(Next(s, steps[0]), steps[1..]))
  }

  predicate OwnedThroughout(s: State, steps: seq<Step>)
    decreases |steps|
  {
    Owned(s) && (steps == [] || OwnedThroughout(Next(s, steps[0]), steps[1..]))
  }

  /** Over every run, no agent is ever lost exactly if no registration displaces a live, uncancelled one. */
  lemma {:induction false} RunOwned(s: State, steps: seq<Step>)
    requires Sound(s) && Owned(s)
    ensures OwnedThroughout(s, steps) <==> NoneDisplaced(s, steps)
    decreases |steps|
  {
    hide Sound, Owned, Next, DisplacesNone;
    if steps != [] {
      NextSound(s, steps[0]);
      NextOwned(s, steps[0]);
      if Owned(Next(s, steps[0])) {
        RunOwned(Next(s, steps[0]), steps[1..]);
      }
    }
  }

  /** An agent that is to run or runs, and that nobody can stop any more. */
  predicate Lost(s: State, g: nat) {
    && g < |s.agents| && (s.agents[g].phase.Added? || s.agents[g].phase.Running?)
    && !s.Stopping(g) && !s.Held(g)
  }

  lemma NextLost(s: State, step: Step, g: nat)
    requires Sound(s) && Lost(s, g) && step != Return(g) && !step.CancelContext?
    ensures Lost(Next(s, step), g)
  {
    hide CountAdded;
  }

  /** A lost agent stays lost, and no wait for the WaitGroup ends, until it returns by itself or the context is cancelled. */
  lemma {:induction false} LostBlocksWaiting(s: State, steps: seq<Step>, g: nat)
    requires Sound(s) && Lost(s, g)
    requires forall i | 0 <= i < |steps| :: steps[i] != Return(g) && !steps[i].CancelContext?
    ensures Lost(Run(s, steps), g) && Run(s, steps).wg > 0
    decreases |steps|
  {
    if steps == [] {
      AddedCounts(s.agents, g);
    } else {
      NextSound(s, steps[0]);
      NextLost(s, steps[0], g);
      LostBlocksWaiting(Next(s, steps[0]), steps[1..], g);
    }
  }

  /** What the steps of starting one agent amount to, with other goroutines going on in between. */
  lemma StartedOne(s: State, s1: State, s2: State, s3: State, s4: State, account: int)
    requires Quiet(s) && s.checked == multiset{} && account !in s.instances && s1 == Next(s, Check(account))
    requires OnlyProgress(s1, s2) && s3 == Next(s2, Register(account)) && OnlyProgress(s3, s4)
    ensures account in s2.checked && account !in s2.instances
    ensures |s2.agents| < |s4.agents| && s4.agents[|s2.agents|].phase.Registered?
    ensures var s5 := Next(s4, Add(|s2.agents|));
            && Quiet(s5) && Later(s, s5) && s5.checked == multiset{} && s5.toCancel == s.toCancel
            && s5.instances.Keys == s.instances.Keys + {account}
  {
    var g := |s2.agents|;
    assert s1.checked - multiset{account} == multiset{};
    assert s3.agents[g].phase.Registered?;
    assert forall i | 0 <= i < g :: s2.agents[i] == s3.agents[i];
  }

  lemma ProgressReflexive(s: State)
    ensures OnlyProgress(s, s)
  {
  }

  lemma ProgressTransitive(s: State, t: State, u: State)
    requires OnlyProgress(s, t) && OnlyProgress(t, u)
    ensures OnlyProgress(s, u)
  {
  }

  lemma DoneProgress(s: State, g: nat)
    requires Enabled(s, Done(g))
    ensures OnlyProgress(s, Next(s, Done(g)))
  {
  }

  lemma RunOfTwo(s: State, a: Step, b: Step, rest: seq<Step>)
    ensures Run(s, [a, b] + rest) == Run(Next(Next(s, a), b), rest)
  {
    hide Next;
    assert ([a, b] + rest)[1..] == [b] + rest && ([b] + rest)[1..] == rest;
  }

  const RACING := State(map[1 := 0], [Agent(1, Added, false)], 1, multiset{1}, {}, false)
  const RACED := State(map[1 := 1], [Agent(1, Running, false), Agent(1, Added, false)], 2, multiset{}, {}, false)

  lemma FirstRegisters()
    ensures Next(Next(Next(Next(INITIAL, Check(1)), Check(1)), Register(1)), Add(0)) == RACING
  {
    hide CountAdded;
    var s := Next(Next(INITIAL, Check(1)), Check(1));
    assert s == INITIAL.(checked := multiset{1, 1});
    assert Next(s, Register(1)) == State(map[1 := 0], [Agent(1, Registered, false)], 0, multiset{1}, {}, false);
  }

  lemma SecondRegisters()
    ensures Next(Next(Next(RACING, Go(0)), Register(1)), Add(1)) == RACED
  {
    hide CountAdded;
    var s := Next(RACING, Go(0));
    assert s == RACING.(agents := [Agent(1, Running, false)]);
    assert Next(s, Register(1))
        == State(map[1 := 1], [Agent(1, Running, false), Agent(1, Registered, false)], 1, multiset{}, {}, false);
  }

  lemma RacedIsSound()
    ensures Sound(RACED) && Lost(RACED, 0)
  {
    assert RACED.agents[..1] == [Agent(1, Running, false)];
    assert RACED.agents[..1][..0] == [];
    assert CountAdded(RACED.agents[..1]) == 1;
  }

  /** The initial load and a Reload check the same account before either registers it: one agent is lost. */
  lemma InitialLoadRacesReload() returns (steps: seq<Step>)
    ensures Sound(Run(INITIAL, steps)) && Lost(Run(INITIAL, steps), 0)
  {
    var c := [Register(1), Add(1)] + [];
    var b := [Add(0), Go(0)] + c;
    steps := [Check(1), Check(1)] + ([Register(1)] + b);
    FirstRegisters();
    SecondRegisters();
    RacedIsSound();
    hide Next, Sound;
    var s2 := Next(Next(INITIAL, Check(1)), Check(1));
    RunOfTwo(INITIAL, Check(1), Check(1), [Register(1)] + b);
    assert ([Register(1)] + b)[1..] == b;
    RunOfTwo(Next(s2, Register(1)), Add(0), Go(0), c);
    RunOfTwo(Next(RACING, Go(0)), Register(1), Add(1), []);
    assert Run(RACED, []) == RACED;
  }
}

/** The manager itself. Between its statements any goroutine may go on. */
module MiniMaxManagerClass {
  import opened Common
  import opened P = MiniMaxProtocol

  datatype Account = Account(id: int, apiKey: string)

  class MiniMaxAgentManager {
    var instances: map<int, nat>
    var wg: int
    var registered: nat
    var done: bool
    ghost var agents: seq<Agent>
    ghost var checked: multiset<int>
    ghost var toCancel: set<nat>

    ghost function State(): P.State
      reads this
    {
      P.State(instances, agents, wg, checked, toCancel, done)
    }

    /** No load or stop is under way, and every agent can be stopped. */
    ghost predicate Idle()
      reads this
    {
      Valid() && checked == multiset{} && toCancel == {}
    }

    ghost predicate Valid()
      reads this
    {
      registered == |agents| && Sound(State()) && Owned(State())
    }

    constructor ()
      ensures Idle() && instances == map[] && !done && agents == []
    {
      instances, wg, registered, done := map[], 0, 0, false;
      agents, checked, toCancel := [], multiset{}, {};
    }

    /** A goroutine starts or its agent returns. The manager sees nothing of it. */
    ghost method GoOn(g: nat)
      requires Valid() && g < |agents| && (agents[g].phase.Added? || agents[g].phase.Running?)
      modifies this`agents
      ensures Valid() && OnlyProgress(old(State()), State())
      ensures agents[g].phase == if old(agents)[g].phase.Added? then Running else Returned
      ensures forall k: nat | k < |agents| && k != g :: agents[k] == old(agents)[k]
    {
      var step := if agents[g].phase.Added? then Go(g) else Return(g);
      NextSound(State(), step);
      NextOwned(State(), step);
      hide Sound, Owned;
      agents := Next(State(), step).agents;
    }

    ghost method RunToReturn(g: nat)
      requires Valid() && g < |agents| && agents[g].phase.Counted()
      modifies this`agents
      ensures Valid() && OnlyProgress(old(State()), State()) && agents[g].phase.Returned?
    {
      ghost var s0 := State();
      hide Sound, Owned;
      if agents[g].phase.Added? { GoOn(g); }
      ghost var s1 := State();
      if agents[g].phase.Running? { GoOn(g); }
      ProgressTransitive(s0, s1, State());
      hide OnlyProgress;
    }

    /** One goroutine goes on to its end, its deferred Done. */
    method Finish(ghost g: nat)
      requires Valid() && g < |agents| && agents[g].phase.Counted()
      modifies this`agents, this`wg
      ensures Valid() && OnlyProgress(old(State()), State()) && wg == old(wg) - 1
    {
      ghost var s0 := State();
      RunToReturn(g);
      ghost var s1 := State();
      NextSound(s1, Done(g));
      NextOwned(s1, Done(g));
      DoneProgress(s1, g);
      ProgressTransitive(s0, s1, Next(s1, Done(g)));
      hide Sound, Owned, OnlyProgress;
      agents := agents[g := agents[g].(phase := Gone)];
      wg := wg - 1;
      assert State() == Next(s1, Done(g));
    }

    /** Any goroutine goes on: to its end, or by one step. */
    method Another(finish: bool)
      requires Valid()
      modifies this`agents, this`wg
      ensures Valid() && OnlyProgress(old(State()), State())
    {
      if finish && wg > 0 {
        SomeAdded(agents);
        ghost var g: nat :| g < |agents| && agents[g].phase.Counted();
        hide Sound, Owned;
        Finish(g);
      } else {
        hide Sound, Owned;
        if exists g: nat :: g < |agents| && (agents[g].phase.Added? || agents[g].phase.Running?) {
          ghost var g: nat :| g < |agents| && (agents[g].phase.Added? || agents[g].phase.Running?);
          GoOn(g);
        }
      }
    }

    /** Interference: goroutines go on by any number of steps. */
    method Others()
      requires Valid()
      modifies this`agents, this`wg
      ensures Valid() && OnlyProgress(old(State()), State())
    {
      ghost var s := State();
      var n: nat := *;
      ProgressReflexive(s);
      hide Sound, Owned, OnlyProgress;
      while n > 0
        invariant Valid() && OnlyProgress(s, State())
      {
        ghost var s1 := State();
        var finish: bool := *;
        Another(finish);
        ProgressTransitive(s, s1, State());
        n := n - 1;
      }
    }

    /** wg.Wait: every goroutine it waits for has been cancelled, so each returns in the end. */
    method Wait()
      requires Valid() && forall g: nat | g < |agents| && agents[g].phase.Counted() :: agents[g].cancelled
      modifies this`agents, this`wg
      ensures Valid() && OnlyProgress(old(State()), State())
      ensures wg == 0 && forall g: nat | g < |agents| :: !agents[g].phase.Counted()
    {
      while wg > 0
        invariant Valid() && OnlyProgress(old(State()), State())
        decreases wg
      {
        SomeAdded(agents);
        hide Sound, Owned;
        ghost var g: nat :| g < |agents| && agents[g].phase.Counted();
        Finish(g);
      }
      forall g: nat | g < |agents| ensures !agents[g].phase.Counted() {
        if agents[g].phase.Counted() { AddedCounts(agents, g); }
      }
    }

    method CancelOne(g: nat)
      requires Valid() && g in toCancel
      modifies this`agents, this`toCancel
      ensures Valid() && State() == Next(old(State()), Cancel(g)) && toCancel == old(toCancel) - {g}
    {
      NextSound(State(), Cancel(g));
      NextOwned(State(), Cancel(g));
      ghost var s := State();
      agents := agents[g := agents[g].(cancelled := true)];
      toCancel := toCancel - {g};
      assert State() == Next(s, Cancel(g));
    }

    /** No goroutine is left, however many there were. */
    method StopAllAgents()
      requires Idle() && Quiet(State())
      modifies this
      ensures Idle() && instances == map[] && wg == 0 && done == old(done) && |agents| == |old(agents)|
      ensures forall g: nat | g < |agents| :: agents[g].phase.Gone?
    {
      NextSound(State(), TakeAll);
      NextOwned(State(), TakeAll);
      ghost var s := State();
      var taken := Taken(instances);
      instances := map[];
      toCancel := toCancel + taken;
      assert State() == Next(s, TakeAll);
      CancelTaken(taken);
      AllCancelled();
      Wait();
    }

    /** Every live agent has been cancelled. */
    lemma AllCancelled()
      requires Idle() && Quiet(State()) && instances == map[]
      ensures forall g: nat | g < |agents| && agents[g].phase.Counted() :: agents[g].cancelled
    {
      forall g: nat | g < |agents| && agents[g].phase.Counted() ensures agents[g].cancelled {
        assert State().Stopping(g) || State().Held(g);
      }
    }

    method CancelTaken(all: set<nat>)
      requires Valid() && Quiet(State()) && instances == map[] && checked == multiset{} && toCancel == all
      modifies this`agents, this`wg, this`toCancel
      ensures Idle() && Quiet(State()) && |agents| == |old(agents)|
    {
      hide Sound, Owned;
      var taken := all;
      while taken != {}
        invariant Valid() && instances == map[] && checked == multiset{} && toCancel == taken
        invariant |agents| == |old(agents)| && Quiet(State())
        decreases |taken|
      {
        Others();
        var g :| g in taken;
        CancelOne(g);
        taken := taken - {g};
      }
    }

    method CheckAbsent(account: int)
      requires Valid() && account !in instances
      modifies this`checked
      ensures Valid() && State() == Next(old(State()), Check(account))
    {
      NextSound(State(), Check(account));
      NextOwned(State(), Check(account));
      hide Sound, Owned;
      checked := checked + multiset{account};
    }

    /** The critical section that stores the new instance; no check is repeated in it. */
    method Register(account: int)
      requires Valid() && account in checked && DisplacesNone(State(), account)
      modifies this
      ensures Valid() && State() == Next(old(State()), Step.Register(account))
    {
      NextSound(State(), Step.Register(account));
      NextOwned(State(), Step.Register(account));
      hide Sound, Owned;
      checked := checked - multiset{account};
      instances := instances[account := registered];
      agents := agents + [Agent(account, Registered, done)];
      registered := registered + 1;
    }

    method AddOne(g: nat)
      requires Valid() && g < |agents| && agents[g].phase.Registered?
      modifies this`agents, this`wg
      ensures Valid() && State() == Next(old(State()), Add(g))
    {
      NextSound(State(), Add(g));
      NextOwned(State(), Add(g));
      hide Sound, Owned;
      agents := agents[g := agents[g].(phase := Added)];
      wg := wg + 1;
    }

    method StartAgentForAccount(account: int)
      requires Idle() && Quiet(State())
      modifies this
      ensures Idle() && Quiet(State()) && Later(old(State()), State())
      ensures instances.Keys == old(instances).Keys + {account}
    {
      if account in instances {
        return;
      }
      ghost var s := State();
      hide Sound, Owned, Quiet, Later, OnlyProgress;
      CheckAbsent(account);
      ghost var s1 := State();
      Others();
      ghost var s2 := State();
      var g := registered;
      Register(account);
      ghost var s3 := State();
      Others();
      ghost var s4 := State();
      StartedOne(s, s1, s2, s3, s4, account);
      AddOne(g);
    }

    /** accounts is None when the query fails. */
    method LoadAndStartAccounts(accounts: Option<seq<Account>>)
      requires Idle() && Quiet(State())
      modifies this
      ensures Idle() && Quiet(State()) && Later(old(State()), State())
      ensures instances.Keys == old(instances).Keys + Wanted(accounts)
    {
      if accounts.None? {
        return;
      }
      var list := accounts.value;
      for i := 0 to |list|
        invariant Idle() && Quiet(State()) && Later(old(State()), State())
        invariant instances.Keys == old(instances).Keys + Wanted(Some(list[..i]))
      {
        assert list[..i + 1] == list[..i] + [list[i]];
        if list[i].apiKey != "" {
          StartAgentForAccount(list[i].id);
        }
      }
      assert list[..|list|] == list;
    }

    /**
      One Reload: nothing that ran before is alive, the map holds exactly the active accounts with an API key,
      and each live agent is the one the map holds for its account.
     */
    method Reload(accounts: Option<seq<Account>>)
      requires Idle() && Quiet(State())
      modifies this
      ensures Idle() && done == old(done)
      ensures done ==> State() == old(State())
      ensures !done ==> instances.Keys == Wanted(accounts)
      ensures !done ==> forall id :: id in instances <==>
                accounts.Some? && exists a :: a in accounts.value && a.id == id && |a.apiKey| > 0
      ensures !done ==> |old(agents)| <= |agents| && forall g: nat | g < |old(agents)| :: agents[g].phase.Gone?
      ensures !done ==> forall g: nat | g < |agents| && !agents[g].phase.Gone? && !agents[g].cancelled :: State().Held(g)
      ensures wg == CountAdded(agents)
      ensures Quiet(State())
    {
      if done {
        return;
      }
      StopAllAgents();
      LoadAndStartAccounts(accounts);
    }
  }

  /** The accounts that get an agent. */
  function Wanted(accounts: Option<seq<Account>>): set<int> {
    match accounts
    case None => {}
    case Some(list) => set a | a in list && a.apiKey != "" :: a.id
  }
}
