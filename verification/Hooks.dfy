/** How many hooks may be alive and how many may run, kept by two counts of permits. */
module Hooks {
  import opened Options

  const DEFAULT_CONCURRENCY: nat := 4
  const DEFAULT_QUEUE: nat := 64

  datatype Config = Config(concurrency: Option<nat>, queue: Option<nat>) {
    /** Zero would mean no hook ever ran, and is read as one. */
    function Concurrency(): (n: nat)
      ensures n > 0
    {
      AtLeastOne(if concurrency.Some? then concurrency.value else DEFAULT_CONCURRENCY)
    }

    function Queue(): (n: nat)
      ensures n > 0
    {
      AtLeastOne(if queue.Some? then queue.value else DEFAULT_QUEUE)
    }
  }

  function AtLeastOne(n: nat): nat {
    if n == 0 then 1 else n
  }

  /** What is configured is what holds, zero being read as one, and 4 and 64 where nothing is. */
  lemma ConfiguredAs(n: nat)
    ensures Config(None, None).Concurrency() == 4 && Config(None, None).Queue() == 64
    ensures n > 0 ==> forall c: Config :: (c.concurrency == Some(n) ==> c.Concurrency() == n) && (c.queue == Some(n) ==> c.Queue() == n)
    ensures forall c: Config :: (c.concurrency == Some(0) ==> c.Concurrency() == 1) && (c.queue == Some(0) ==> c.Queue() == 1)
  {
  }

  /** `Leaving` has given its slot back and still holds its admission. */
  datatype Phase = Waiting | Running | Leaving

  /** The permits left in each semaphore, the hooks alive, and how many were turned away. */
  datatype State = State(admitted: nat, running: nat, alive: map<int, Phase>, dropped: nat)

  /** `Fire` is for an event with a usable script; ids are never used again while alive. */
  datatype Action = Fire(hook: int) | Start(hook: int) | Finish(hook: int) | Leave(hook: int)

  predicate Enabled(s: State, action: Action) {
    match action
    case Fire(hook) => hook !in s.alive
    case Start(hook) => hook in s.alive && s.alive[hook] == Waiting && s.running > 0
    case Finish(hook) => hook in s.alive && s.alive[hook] == Running
    case Leave(hook) => hook in s.alive && s.alive[hook] == Leaving
  }

  function Next(s: State, action: Action): State
    requires Enabled(s, action)
  {
    match action
    case Fire(hook) =>
      if s.admitted == 0 then s.(dropped := s.dropped + 1)
      else s.(admitted := s.admitted - 1, alive := s.alive[hook := Waiting])
    case Start(hook) => s.(running := s.running - 1, alive := s.alive[hook := Running])
    case Finish(hook) => s.(running := s.running + 1, alive := s.alive[hook := Leaving])
    case Leave(hook) => s.(admitted := s.admitted + 1, alive := s.alive - {hook})
  }

  function Initial(config: Config): State {
    State(config.Concurrency() + config.Queue(), config.Concurrency(), map[], 0)
  }

  class HookRunner {
    const config: Config
    var admitted: nat
    var running: nat
    var alive: map<int, Phase>
    var dropped: nat

    ghost function Now(): State
      reads this
    {
      State(admitted, running, alive, dropped)
    }

    constructor (config: Config)
      ensures this.config == config && Now() == Initial(config)
    {
      this.config := config;
      admitted, running := config.Concurrency() + config.Queue(), config.Concurrency();
      alive, dropped := map[], 0;
    }

    /** Refused at the door rather than queued without end. */
    method FireHook(hook: int) returns (admittedIt: bool)
      requires Enabled(Now(), Fire(hook))
      modifies this
      ensures Now() == Next(old(Now()), Fire(hook)) && (admittedIt <==> old(admitted) > 0)
      ensures admittedIt ==> admitted == old(admitted) - 1 && alive == old(alive)[hook := Waiting] && dropped == old(dropped)
      ensures !admittedIt ==> admitted == old(admitted) && alive == old(alive) && dropped == old(dropped) + 1
    {
      if admitted == 0 {
        dropped := dropped + 1;
        return false;
      }
      admitted := admitted - 1;
      alive := alive[hook := Waiting];
      return true;
    }

    /** The spawned task gets its slot. */
    method StartHook(hook: int)
      requires Enabled(Now(), Start(hook))
      modifies this
      ensures Now() == Next(old(Now()), Start(hook))
    {
      running := running - 1;
      alive := alive[hook := Running];
    }

    /** The task ends, however the script did, and gives its permits back, the slot it took last first. */
    method FinishHook(hook: int)
      requires Enabled(Now(), Finish(hook))
      modifies this
      ensures Now() == Next(old(Now()), Finish(hook))
    {
      running := running + 1;
      alive := alive[hook := Leaving];
    }

    method LeaveHook(hook: int)
      requires Enabled(Now(), Leave(hook))
      modifies this
      ensures Now() == Next(old(Now()), Leave(hook))
    {
      admitted := admitted + 1;
      alive := alive - {hook};
    }
  }

  // ---- whole runs ----

  ghost predicate Legal(config: Config, actions: seq<Action>)
    decreases |actions|, 0
  {
    actions == [] ||
    (Legal(config, actions[..|actions| - 1]) && Enabled(After(config, actions[..|actions| - 1]), actions[|actions| - 1]))
  }

  ghost function After(config: Config, actions: seq<Action>): State
    requires Legal(config, actions)
    decreases |actions|, 1
  {
    if actions == [] then Initial(config) else Next(After(config, actions[..|actions| - 1]), actions[|actions| - 1])
  }

  ghost function HooksIn(s: State, phase: Phase): set<int> {
    set hook | hook in s.alive && s.alive[hook] == phase
  }

  ghost function RunningHooks(s: State): set<int> {
    HooksIn(s, Running)
  }

  /** Every permit is either left or held by a hook. */
  ghost predicate Conserved(config: Config, s: State) {
    && s.admitted + |s.alive.Keys| == config.Concurrency() + config.Queue()
    && s.running + |RunningHooks(s)| == config.Concurrency()
  }

  lemma StepConserves(config: Config, s: State, action: Action)
    requires Enabled(s, action) && Conserved(config, s)
    ensures Conserved(config, Next(s, action))
  {
    var s' := Next(s, action);
    match action
    case Fire(hook) =>
      assert RunningHooks(s') == RunningHooks(s);
      if s.admitted > 0 {
        assert s'.alive.Keys == s.alive.Keys + {hook};
      }
    case Start(hook) =>
      assert s'.alive.Keys == s.alive.Keys;
      assert RunningHooks(s') == RunningHooks(s) + {hook};
    case Finish(hook) =>
      assert s'.alive.Keys == s.alive.Keys;
      assert RunningHooks(s') == RunningHooks(s) - {hook};
    case Leave(hook) =>
      assert s'.alive.Keys == s.alive.Keys - {hook};
      assert RunningHooks(s') == RunningHooks(s);
  }

  lemma {:induction false} AlwaysConserved(config: Config, actions: seq<Action>)
    requires Legal(config, actions)
    ensures Conserved(config, After(config, actions))
    decreases |actions|
  {
    if actions == [] {
      assert RunningHooks(Initial(config)) == {};
    } else {
      AlwaysConserved(config, actions[..|actions| - 1]);
      StepConserves(config, After(config, actions[..|actions| - 1]), actions[|actions| - 1]);
    }
  }

  /** On every run no more run, and no more are alive, than configured; and with none alive every permit is back. */
  lemma PermitsBound(config: Config, actions: seq<Action>)
    requires Legal(config, actions)
    ensures var s := After(config, actions);
            && |RunningHooks(s)| <= config.Concurrency()
            && |s.alive.Keys| <= config.Concurrency() + config.Queue()
            && (s.alive == map[] ==> s.admitted == Initial(config).admitted && s.running == Initial(config).running)
  {
    AlwaysConserved(config, actions);
    var s := After(config, actions);
    if s.alive == map[] {
      assert s.alive.Keys == {} && RunningHooks(s) == {};
    }
  }

  /** A hook is turned away exactly when as many are alive as there may be. */
  lemma DroppedIff(config: Config, actions: seq<Action>, hook: int)
    requires Legal(config, actions) && Enabled(After(config, actions), Fire(hook))
    ensures var s := After(config, actions);
            Next(s, Fire(hook)).dropped > s.dropped <==> |s.alive.Keys| == config.Concurrency() + config.Queue()
  {
    AlwaysConserved(config, actions);
  }

  lemma SomeMember(a: set<int>)
    ensures a == {} || exists x :: x in a
  {
    if forall x :: x !in a {
      assert a == {};
    }
  }

  /** Whatever is alive, some hook of it can start or finish. */
  lemma SomethingCanMove(config: Config, s: State) returns (action: Action)
    requires Conserved(config, s) && s.alive != map[]
    ensures !action.Fire? && Enabled(s, action)
  {
    assert s.alive.Keys != {};
    SomeMember(s.alive.Keys);
    var hook :| hook in s.alive.Keys;
    if s.alive[hook] == Running {
      action := Finish(hook);
    } else if s.alive[hook] == Leaving {
      action := Leave(hook);
    } else if s.running > 0 {
      action := Start(hook);
    } else {
      var hooks := RunningHooks(s);
      assert |hooks| > 0;
      SomeMember(hooks);
      var other :| other in hooks;
      action := Finish(other);
    }
  }

  /** How many steps the hooks alive are from all being done: three each, less what each has behind it. */
  ghost function Remaining(s: State): int {
    3 * |s.alive.Keys| - |HooksIn(s, Running)| - 2 * |HooksIn(s, Leaving)|
  }

  lemma RemainingIsNatural(s: State)
    ensures Remaining(s) >= 0
  {
    var running, leaving := HooksIn(s, Running), HooksIn(s, Leaving);
    assert running !! leaving && running + leaving <= s.alive.Keys;
    SubsetSize(running + leaving, s.alive.Keys);
    assert |running + leaving| == |running| + |leaving|;
  }

  lemma StartMoves(s: State, hook: int)
    requires Enabled(s, Start(hook))
    ensures Remaining(Next(s, Start(hook))) == Remaining(s) - 1
  {
    var s' := Next(s, Start(hook));
    assert s'.alive.Keys == s.alive.Keys;
    assert HooksIn(s', Running) == HooksIn(s, Running) + {hook};
    assert HooksIn(s', Leaving) == HooksIn(s, Leaving);
  }

  lemma FinishMoves(s: State, hook: int)
    requires Enabled(s, Finish(hook))
    ensures Remaining(Next(s, Finish(hook))) == Remaining(s) - 1
  {
    var s' := Next(s, Finish(hook));
    assert s'.alive.Keys == s.alive.Keys;
    assert HooksIn(s', Running) == HooksIn(s, Running) - {hook};
    assert HooksIn(s', Leaving) == HooksIn(s, Leaving) + {hook};
  }

  lemma LeaveMoves(s: State, hook: int)
    requires Enabled(s, Leave(hook))
    ensures Remaining(Next(s, Leave(hook))) == Remaining(s) - 1
  {
    var s' := Next(s, Leave(hook));
    assert s'.alive.Keys == s.alive.Keys - {hook};
    assert HooksIn(s', Running) == HooksIn(s, Running);
    assert HooksIn(s', Leaving) == HooksIn(s, Leaving) - {hook};
  }

  lemma MovesOn(s: State, action: Action)
    requires Enabled(s, action) && !action.Fire?
    ensures Remaining(Next(s, action)) == Remaining(s) - 1
  {
    match action
    case Start(hook) => StartMoves(s, hook);
    case Finish(hook) => FinishMoves(s, hook);
    case Leave(hook) => LeaveMoves(s, hook);
  }

  lemma {:induction false} SubsetSize(a: set<int>, b: set<int>)
    requires a <= b
    ensures |a| <= |b|
    decreases a
  {
    if a == {} {
    } else {
      SomeMember(a);
      var x :| x in a;
      SubsetSize(a - {x}, b - {x});
    }
  }

  /** However full the queue, with no more events every hook gets its turn and every permit comes back: no order of finishing deadlocks. */
  lemma {:induction false} QueueDrains(config: Config, actions: seq<Action>) returns (more: seq<Action>)
    requires Legal(config, actions)
    ensures Legal(config, actions + more) && forall i :: 0 <= i < |more| ==> !more[i].Fire?
    ensures After(config, actions + more) == Initial(config).(dropped := After(config, actions).dropped)
    decreases Remaining(After(config, actions))
  {
    var s := After(config, actions);
    AlwaysConserved(config, actions);
    if s.alive == map[] {
      assert s.alive.Keys == {} && RunningHooks(s) == {};
      more := [];
      assert actions + more == actions;
    } else {
      var action := SomethingCanMove(config, s);
      MovesOn(s, action);
      RemainingIsNatural(s);
      assert (actions + [action])[..|actions|] == actions;
      var rest := QueueDrains(config, actions + [action]);
      more := [action] + rest;
      assert actions + more == actions + [action] + rest;
    }
  }
}
