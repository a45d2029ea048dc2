/**
 Sessions closed as vanished that go on running: on any run, what that takes,
 and that nothing but a start overlapping the reconciliation brings it about.
 */
module Vanishing {
  import opened Options
  import opened Events
  import opened SessionStore
  import opened Sessions

  ghost predicate Steps(d: Daemon, action: Action, d': Daemon) {
    Enabled(d, action) && After(d, action) == d'
  }

  ghost predicate StepsAll(trace: seq<Daemon>, actions: seq<Action>) {
    |trace| == |actions| + 1 && forall n :: 0 <= n < |actions| ==> Steps(trace[n], actions[n], trace[n + 1])
  }

  /** The daemon before each step of a run, and after its last. */
  ghost predicate Traces(trace: seq<Daemon>, actions: seq<Action>) {
    StepsAll(trace, actions) && trace[0] == BOOT
  }

  lemma StepsCons(d: Daemon, action: Action, trace: seq<Daemon>, actions: seq<Action>)
    requires StepsAll(trace, actions) && Steps(d, action, trace[0])
    ensures StepsAll([d] + trace, [action] + actions)
  {
    var more, all := [d] + trace, [action] + actions;
    forall n | 0 <= n < |all| ensures Steps(more[n], all[n], more[n + 1]) {
      if n > 0 {
        var m := n - 1;
        assert more[n] == trace[m] && all[n] == actions[m] && more[n + 1] == trace[m + 1];
      }
    }
  }

  /** Every legal run has its trace. */
  lemma {:induction false} EveryRunTraces(d: Daemon, actions: seq<Action>) returns (trace: seq<Daemon>)
    requires Legal(d, actions)
    ensures StepsAll(trace, actions) && trace[0] == d && trace[|actions|] == Run(d, actions)
    decreases |actions|
  {
    if actions == [] {
      trace := [d];
    } else {
      var rest := EveryRunTraces(After(d, actions[0]), actions[1..]);
      StepsCons(d, actions[0], rest, actions[1..]);
      trace := [d] + rest;
      assert [actions[0]] + actions[1..] == actions;
    }
  }

  lemma StepKeepsNames(d: Daemon, action: Action, d': Daemon)
    requires Steps(d, action, d') && NamesInv(d.rows)
    ensures NamesInv(d'.rows)
  {
    NamesKept(d, action);
  }

  ghost predicate NamesHold(d: Daemon) {
    NamesInv(d.rows)
  }

  lemma StepAt(trace: seq<Daemon>, actions: seq<Action>, n: nat)
    requires StepsAll(trace, actions) && n < |actions| && NamesHold(trace[n])
    ensures NamesHold(trace[n + 1])
  {
    StepKeepsNames(trace[n], actions[n], trace[n + 1]);
  }

  lemma {:induction false} NamesStay(trace: seq<Daemon>, actions: seq<Action>, n: nat)
    requires StepsAll(trace, actions) && NamesHold(trace[0]) && n <= |actions|
    ensures NamesHold(trace[n])
  {
    if n == 0 {
    } else {
      NamesStay(trace, actions, n - 1);
      StepAt(trace, actions, n - 1);
    }
  }

  lemma NamesAt(trace: seq<Daemon>, actions: seq<Action>, n: nat)
    requires Traces(trace, actions) && n <= |actions|
    ensures NamesInv(trace[n].rows)
  {
    assert NamesHold(BOOT);
    NamesStay(trace, actions, n);
  }

  // ---- one row, its start and its tmux session ----

  /** The row under id `s` before step `n` was inserted at step `b`. */
  ghost predicate Born(trace: seq<Daemon>, actions: seq<Action>, b: nat, s: int, n: nat)
    requires Traces(trace, actions) && n <= |actions|
  {
    && b < n && actions[b].StartInsert? && actions[b].session == s
    && (forall l :: b < l <= n ==> s in trace[l].rows && trace[l].rows[s].task == actions[b].task)
  }

  /** At step `j` tmux takes up the session of the start that inserted its row at step `b`. */
  ghost predicate TakenUp(trace: seq<Daemon>, actions: seq<Action>, b: nat, j: nat)
    requires Traces(trace, actions)
  {
    && b < j < |actions| && actions[b].StartInsert? && actions[j].CreateOk? && actions[j].proc == actions[b].proc
    && (forall l :: b < l <= j ==> Waits(trace[l], actions[b].proc, actions[b].session, actions[b].task))
  }

  predicate Waits(d: Daemon, proc: int, session: int, task: int) {
    proc in d.procs && d.procs[proc] == Creating(session, task)
  }

  /** The session taken up at `j` has been running ever since, up to `m`. */
  ghost predicate RunsTo(trace: seq<Daemon>, actions: seq<Action>, b: nat, j: nat, m: nat)
    requires Traces(trace, actions)
  {
    && TakenUp(trace, actions, b, j) && j < m <= |actions|
    && (forall l :: j < l <= m ==> TmuxName(actions[b].task) in trace[l].running)
  }

  lemma RowsFrom(d: Daemon, action: Action, s: int)
    requires Enabled(d, action) && s in After(d, action).rows
    ensures s in d.rows ==> After(d, action).rows[s].task == d.rows[s].task && After(d, action).rows[s].name == d.rows[s].name
    ensures s !in d.rows ==> action.StartInsert? && action.session == s && After(d, action).rows[s].task == action.task
  {
    if !action.StartInsert? {
      StepNarrows(d, action);
    }
  }

  /** Every row was inserted at some step. */
  lemma {:induction false} BornAt(trace: seq<Daemon>, actions: seq<Action>, s: int, n: nat) returns (b: nat)
    requires Traces(trace, actions) && n <= |actions| && s in trace[n].rows
    ensures Born(trace, actions, b, s, n)
  {
    if n == 0 {
      assert false;
    } else {
      assert Steps(trace[n - 1], actions[n - 1], trace[n]);
      RowsFrom(trace[n - 1], actions[n - 1], s);
      if s in trace[n - 1].rows {
        b := BornAt(trace, actions, s, n - 1);
      } else {
        b := n - 1;
      }
    }
  }

  // ---- where a close as vanished comes from ----

  predicate Vanishes(p: Proc) {
    p.Closing? && p.reason == Vanished
  }

  predicate Lists(p: Proc) {
    p.Listed? || p.Checking?
  }

  /** Step `n` closes a live row as vanished. */
  ghost predicate ClosesVanished(trace: seq<Daemon>, actions: seq<Action>, n: nat)
    requires Traces(trace, actions)
  {
    && n < |actions| && actions[n].Close?
    && var d := trace[n];
       && actions[n].proc in d.procs && Vanishes(d.procs[actions[n].proc])
       && Live(d.rows, d.procs[actions[n].proc].session)
  }

  ghost function ClosedId(trace: seq<Daemon>, actions: seq<Action>, n: nat): int
    requires Traces(trace, actions) && ClosesVanished(trace, actions, n)
  {
    trace[n].procs[actions[n].proc].session
  }

  lemma VanishesFrom(d: Daemon, action: Action, q: int)
    requires Enabled(d, action) && q in After(d, action).procs && Vanishes(After(d, action).procs[q])
    ensures
      || (q in d.procs && d.procs[q] == After(d, action).procs[q])
      || (var s := After(d, action).procs[q].session;
          action.CheckNext? && action.closer == q && s in d.rows && d.rows[s].name !in d.procs[action.proc].names)
  {
  }

  /** At step `k` a reconciliation compared the row under id `s` with what it had listed, and found it missing. */
  ghost predicate Missed(trace: seq<Daemon>, actions: seq<Action>, k: nat, q: int, s: int)
    requires Traces(trace, actions)
  {
    && k < |actions| && actions[k].CheckNext? && actions[k].closer == q
    && var d := trace[k];
       && actions[k].proc in d.procs && d.procs[actions[k].proc].Checking?
       && s in d.rows && d.rows[s].name !in d.procs[actions[k].proc].names
  }

  lemma {:induction false} MissedAt(trace: seq<Daemon>, actions: seq<Action>, n: nat, q: int) returns (k: nat)
    requires Traces(trace, actions) && n <= |actions|
    requires var d := trace[n]; q in d.procs && Vanishes(d.procs[q])
    ensures k < n && Missed(trace, actions, k, q, trace[n].procs[q].session)
    ensures forall l :: k < l <= n ==> q in trace[l].procs && Vanishes(trace[l].procs[q])
  {
    if n == 0 {
      assert false;
    } else {
      var d := trace[n - 1];
      assert Steps(trace[n - 1], actions[n - 1], trace[n]);
      VanishesFrom(d, actions[n - 1], q);
      if q in d.procs && d.procs[q] == trace[n].procs[q] {
        k := MissedAt(trace, actions, n - 1, q);
      } else {
        k := n - 1;
      }
    }
  }

  lemma ListsFrom(d: Daemon, action: Action, p: int)
    requires Enabled(d, action) && p in After(d, action).procs && Lists(After(d, action).procs[p])
    ensures
      || (p in d.procs && Lists(d.procs[p]) && d.procs[p].names == After(d, action).procs[p].names)
      || (action == List(p) && After(d, action).procs[p].names == d.running)
  {
  }

  lemma {:induction false} ListedAt(trace: seq<Daemon>, actions: seq<Action>, n: nat, p: int) returns (i: nat)
    requires Traces(trace, actions) && n <= |actions|
    requires var d := trace[n]; p in d.procs && Lists(d.procs[p])
    ensures i < n && actions[i] == List(p) && trace[n].procs[p].names == trace[i].running
    ensures forall l :: i < l <= n ==> p in trace[l].procs && Lists(trace[l].procs[p])
  {
    if n == 0 {
      assert false;
    } else {
      var d := trace[n - 1];
      assert Steps(trace[n - 1], actions[n - 1], trace[n]);
      ListsFrom(d, actions[n - 1], p);
      if p in d.procs && Lists(d.procs[p]) && d.procs[p].names == trace[n].procs[p].names {
        i := ListedAt(trace, actions, n - 1, p);
      } else {
        i := n - 1;
      }
    }
  }

  ghost predicate Reconciles(d: Daemon) {
    exists p :: p in d.procs && (Lists(d.procs[p]) || Vanishes(d.procs[p]))
  }

  ghost predicate Starts(d: Daemon) {
    exists p :: p in d.procs && d.procs[p].Creating?
  }

  /** The reconciliation that closes a row at step `n` listed tmux at `i`, missed the row at `k`, and was under way throughout. */
  ghost predicate ReconciledFrom(trace: seq<Daemon>, actions: seq<Action>, i: nat, k: nat, n: nat)
    requires Traces(trace, actions) && ClosesVanished(trace, actions, n)
  {
    && i < k < n && Missed(trace, actions, k, actions[n].proc, ClosedId(trace, actions, n))
    && actions[i] == List(actions[k].proc) && trace[k].procs[actions[k].proc].names == trace[i].running
    && (forall l :: i < l <= n ==> Reconciles(trace[l]))
  }

  lemma FindReconciliation(trace: seq<Daemon>, actions: seq<Action>, n: nat) returns (i: nat, k: nat)
    requires Traces(trace, actions) && ClosesVanished(trace, actions, n)
    ensures ReconciledFrom(trace, actions, i, k, n)
  {
    var q := actions[n].proc;
    k := MissedAt(trace, actions, n, q);
    var p := actions[k].proc;
    i := ListedAt(trace, actions, k, p);
    forall l | i < l <= n ensures Reconciles(trace[l]) {
      if l <= k {
        assert p in trace[l].procs && Lists(trace[l].procs[p]);
      } else {
        assert q in trace[l].procs && Vanishes(trace[l].procs[q]);
      }
    }
  }

  // ---- when the session goes on running ----

  /**
   On any run, deletions, crashes and tmux sessions coming and going included: if
   a row is closed as vanished, and its tmux session is running later without
   having stopped meanwhile, then tmux took it up after that reconciliation had
   listed it, before the close or after.
   */
  lemma RunningOnlyIfStartedDuring(trace: seq<Daemon>, actions: seq<Action>, i: nat, k: nat, n: nat, b: nat, j: nat, m: nat)
    requires Traces(trace, actions) && ClosesVanished(trace, actions, n) && ReconciledFrom(trace, actions, i, k, n)
    requires Born(trace, actions, b, ClosedId(trace, actions, n), n) && RunsTo(trace, actions, b, j, m) && n < m
    ensures i < j
  {
    if b < k {
      NamesAt(trace, actions, k);
      assert TmuxName(actions[b].task) !in trace[i].running;
    }
  }

  predicate NoneDie(actions: seq<Action>) {
    forall n :: 0 <= n < |actions| ==> !actions[n].Outside?
  }

  lemma StillRunning(d: Daemon, action: Action, d': Daemon, name: string)
    requires Steps(d, action, d') && !action.Outside?
    ensures name in d.running ==> name in d'.running
    ensures action.CreateOk? && TmuxName(d.procs[action.proc].task) == name ==> name in d'.running
  {
  }

  lemma {:induction false} KeepsRunning(trace: seq<Daemon>, actions: seq<Action>, b: nat, j: nat, m: nat)
    requires Traces(trace, actions) && NoneDie(actions) && TakenUp(trace, actions, b, j) && j < m <= |actions|
    ensures RunsTo(trace, actions, b, j, m)
  {
    StillRunning(trace[m - 1], actions[m - 1], trace[m], TmuxName(actions[b].task));
    if j + 1 == m {
      assert Waits(trace[j], actions[b].proc, actions[b].session, actions[b].task);
    } else {
      KeepsRunning(trace, actions, b, j, m - 1);
    }
  }

  /**
   If none die meanwhile: a row closed as vanished has its session running in the
   end exactly when its start succeeds at all, before the close or after; and the
   start then succeeds only once the reconciliation has listed tmux.
   */
  lemma RunningIffStarted(trace: seq<Daemon>, actions: seq<Action>, n: nat) returns (i: nat, k: nat, b: nat)
    requires Traces(trace, actions) && NoneDie(actions) && ClosesVanished(trace, actions, n)
    ensures ReconciledFrom(trace, actions, i, k, n) && Born(trace, actions, b, ClosedId(trace, actions, n), n)
    ensures (exists j :: RunsTo(trace, actions, b, j, |actions|)) <==> (exists j :: TakenUp(trace, actions, b, j))
    ensures forall j :: TakenUp(trace, actions, b, j) ==> i < j
  {
    i, k := FindReconciliation(trace, actions, n);
    b := BornAt(trace, actions, ClosedId(trace, actions, n), n);
    forall j | TakenUp(trace, actions, b, j) ensures i < j && RunsTo(trace, actions, b, j, |actions|) {
      KeepsRunning(trace, actions, b, j, |actions|);
      RunningOnlyIfStartedDuring(trace, actions, i, k, n, b, j, |actions|);
    }
  }

  // ---- starts and reconciliations apart ----

  /** No reconciliation is under way, from listing tmux to its last close, while a start is, from its row to tmux's answer. */
  ghost predicate Apart(trace: seq<Daemon>) {
    forall l :: 0 <= l < |trace| ==> OneAtATime(trace[l])
  }

  ghost predicate OneAtATime(d: Daemon) {
    !(Starts(d) && Reconciles(d))
  }

  /** The row closed as vanished at `n` has its session, taken up at `j`, running at `m` later. */
  ghost predicate VanishesRunning(trace: seq<Daemon>, actions: seq<Action>, n: nat, b: nat, j: nat, m: nat) {
    && Traces(trace, actions) && ClosesVanished(trace, actions, n) && Born(trace, actions, b, ClosedId(trace, actions, n), n)
    && RunsTo(trace, actions, b, j, m) && n < m
  }

  /** Some run closes a session as vanished that goes on running, with or without starts overlapping reconciliations. */
  ghost predicate CanVanishRunning(overlapping: bool) {
    exists trace, actions, n, b, j, m :: VanishesRunning(trace, actions, n, b, j, m) && (overlapping || Apart(trace))
  }

  /** The start and the reconciliation overlap. */
  lemma VanishesOverlapping(trace: seq<Daemon>, actions: seq<Action>, n: nat, b: nat, j: nat, m: nat)
    requires VanishesRunning(trace, actions, n, b, j, m)
    ensures !Apart(trace)
  {
    var i, k := FindReconciliation(trace, actions, n);
    RunningOnlyIfStartedDuring(trace, actions, i, k, n, b, j, m);
    var l := if b < i then i + 1 else b + 1;
    assert Waits(trace[l], actions[b].proc, actions[b].session, actions[b].task);
    assert !OneAtATime(trace[l]);
  }

  /** Stops, polls, crashes, deletions and dying sessions do no harm: a session closed as vanished goes on running exactly if starts may overlap a reconciliation. */
  lemma VanishesIffOverlapping(overlapping: bool)
    ensures CanVanishRunning(overlapping) <==> overlapping
  {
    if CanVanishRunning(overlapping) {
      var trace, actions, n, b, j, m :| VanishesRunning(trace, actions, n, b, j, m) && (overlapping || Apart(trace));
      VanishesOverlapping(trace, actions, n, b, j, m);
    }
    if overlapping {
      var trace := OutlivingRun(5);
      assert VanishesRunning(trace, Outliving(5), 4, 0, 5, 6);
    }
  }

  // ---- runs on which it does ----

  /** tmux is listed; a session is started; only then are the rows read. */
  function Racing(task: int): seq<Action> {
    [List(7), StartInsert(1, 1, task), CreateOk(1, None), ReadRows(7, [1]), CheckNext(7, 8, None), Close(8, 0)]
  }

  /** A whole reconciliation goes by while tmux is asked for the session. */
  function Outliving(task: int): seq<Action> {
    [StartInsert(1, 1, task), List(7), ReadRows(7, [1]), CheckNext(7, 8, None), Close(8, 0), CreateOk(1, None)]
  }

  /** A daemon with just this session, in these hands. */
  function Holding(task: int, running: set<string>, procs: map<int, Proc>): Daemon {
    Daemon(map[1 := NewRow(task)], running, procs, [], map[])
  }

  /** The only row there is, missed, */
  lemma OneIsMissed(task: int, running: set<string>, start: Proc)
    ensures var d1 := Holding(task, running, map[7 := Listed({}), 1 := start]);
            var d2 := d1.(procs := map[7 := Checking({}, [1]), 1 := start]);
            var d3 := d1.(procs := map[1 := start, 8 := Closing(1, task, Stopped, Vanished, None)]);
            Steps(d1, ReadRows(7, [1]), d2) && Steps(d2, CheckNext(7, 8, None), d3) && Steps(d3, Close(8, 0), Buried(task, running, start))
  {
    assert [1][1..] == [];
    OneIsClosed(task, running, start);
  }

  /** and closed. */
  function Buried(task: int, running: set<string>, start: Proc): Daemon {
    Daemon(map[1 := NewRow(task).(status := Stopped, ended := Some(0))], running,
           map[1 := start, 8 := Won(1, task, Vanished, None)], [], map[1 := Vanished])
  }

  lemma OneIsClosed(task: int, running: set<string>, start: Proc)
    ensures var d := Holding(task, running, map[1 := start, 8 := Closing(1, task, Stopped, Vanished, None)]);
            Steps(d, Close(8, 0), Buried(task, running, start))
  {
  }

  lemma RaceBegins(task: int)
    ensures var d1 := BOOT.(procs := map[7 := Listed({})]);
            var d2 := Holding(task, {}, map[7 := Listed({}), 1 := Creating(1, task)]);
            && Steps(BOOT, List(7), d1) && Steps(d1, StartInsert(1, 1, task), d2)
            && Steps(d2, CreateOk(1, None), Holding(task, {TmuxName(task)}, map[7 := Listed({}), 1 := Launched(1, task)]))
  {
  }

  lemma RacingRun(task: int) returns (trace: seq<Daemon>)
    ensures Traces(trace, Racing(task)) && ClosedForGood(trace[6], TmuxName(task))
    ensures VanishesRunning(trace, Racing(task), 5, 1, 2, 6)
  {
    var running, start := {TmuxName(task)}, Launched(1, task);
    RaceBegins(task);
    OneIsMissed(task, running, start);
    var d3 := Holding(task, running, map[7 := Listed({}), 1 := start]);
    var d4 := d3.(procs := map[7 := Checking({}, [1]), 1 := start]);
    var d5 := d3.(procs := map[1 := start, 8 := Closing(1, task, Stopped, Vanished, None)]);
    trace := [BOOT, BOOT.(procs := map[7 := Listed({})]), Holding(task, {}, map[7 := Listed({}), 1 := Creating(1, task)]),
              d3, d4, d5, After(d5, Close(8, 0))];
  }

  lemma OutlivingBegins(task: int)
    ensures var d1 := Holding(task, {}, map[1 := Creating(1, task)]);
            && Steps(BOOT, StartInsert(1, 1, task), d1)
            && Steps(d1, List(7), Holding(task, {}, map[7 := Listed({}), 1 := Creating(1, task)]))
  {
  }

  lemma OutlivingRun(task: int) returns (trace: seq<Daemon>)
    ensures Traces(trace, Outliving(task)) && ClosedForGood(trace[6], TmuxName(task))
    ensures VanishesRunning(trace, Outliving(task), 4, 0, 5, 6)
  {
    var start := Creating(1, task);
    OutlivingBegins(task);
    OneIsMissed(task, {}, start);
    var d2 := Holding(task, {}, map[7 := Listed({}), 1 := start]);
    var d3 := d2.(procs := map[7 := Checking({}, [1]), 1 := start]);
    var d4 := d2.(procs := map[1 := start, 8 := Closing(1, task, Stopped, Vanished, None)]);
    var d5 := After(d4, Close(8, 0));
    trace := [BOOT, Holding(task, {}, map[1 := start]), d2, d3, d4, d5, After(d5, CreateOk(1, None))];
  }

  ghost predicate ClosedForGood(d: Daemon, name: string) {
    Ended(d, 1) && 1 in d.winners && d.winners[1] == Vanished && name in d.running
  }

  ghost predicate VanishedForGood(trace: seq<Daemon>, actions: seq<Action>, name: string) {
    && Traces(trace, actions) && NoDeletes(actions) && NoneDie(actions) && ClosedForGood(trace[|actions|], name)
  }

  /** Whether tmux takes it up before its row is closed or only after. */
  ghost predicate Lost(trace: seq<Daemon>, actions: seq<Action>, task: int, n: nat, b: nat, j: nat, late: bool) {
    && VanishesRunning(trace, actions, n, b, j, |actions|) && VanishedForGood(trace, actions, TmuxName(task))
    && actions[b].task == task && (late <==> n < j)
  }

  /** A session started while a reconciliation is under way may end as vanished, for good, and tmux goes on running it, either way. */
  lemma StartMayBeClosedAsVanished(task: int, late: bool)
    ensures exists trace, actions, n, b, j :: Lost(trace, actions, task, n, b, j, late)
  {
    if late {
      var trace := OutlivingRun(task);
      assert Lost(trace, Outliving(task), task, 4, 0, 5, true);
    } else {
      var trace := RacingRun(task);
      assert Lost(trace, Racing(task), task, 5, 1, 2, false);
    }
  }

  // ---- and a run with the two apart, on which it does not ----

  /** A session dies, is closed as vanished, and is started again. */
  function Again(task: int): seq<Action> {
    [StartInsert(1, 1, task), CreateOk(1, None), Outside({}), List(7), ReadRows(7, [1]), CheckNext(7, 8, None), Close(8, 0),
     StartInsert(2, 2, task), CreateOk(2, None)]
  }

  lemma DyingBegins(task: int)
    ensures var d1 := Holding(task, {}, map[1 := Creating(1, task)]);
            var d3 := Holding(task, {}, map[1 := Launched(1, task)]);
            && Steps(BOOT, StartInsert(1, 1, task), d1) && Steps(d1, CreateOk(1, None), d3.(running := {TmuxName(task)}))
            && Steps(d3.(running := {TmuxName(task)}), Outside({}), d3)
            && Steps(d3, List(7), Holding(task, {}, map[7 := Listed({}), 1 := Launched(1, task)]))
            && OneAtATime(d1) && OneAtATime(d3) && OneAtATime(d3.(running := {TmuxName(task)}))
  {
  }

  lemma StartsAnew(task: int)
    ensures var d := Buried(task, {}, Launched(1, task));
            var d1 := d.(rows := d.rows[2 := NewRow(task)], procs := d.procs[2 := Creating(2, task)]);
            && Steps(d, StartInsert(2, 2, task), d1) && Steps(d1, CreateOk(2, None), After(d1, CreateOk(2, None)))
            && OneAtATime(d) && OneAtATime(d1) && OneAtATime(After(d1, CreateOk(2, None)))
  {
  }

  lemma NobodyStarts(d: Daemon)
    requires forall p :: p in d.procs ==> !d.procs[p].Creating?
    ensures OneAtATime(d)
  {
  }

  function AgainTrace(task: int): seq<Daemon> {
    var start := Launched(1, task);
    var dead := Holding(task, {}, map[1 := start]);
    var listed := Holding(task, {}, map[7 := Listed({}), 1 := start]);
    var anew := Buried(task, {}, start).(rows := Buried(task, {}, start).rows[2 := NewRow(task)], procs := Buried(task, {}, start).procs[2 := Creating(2, task)]);
    [BOOT, Holding(task, {}, map[1 := Creating(1, task)]), dead.(running := {TmuxName(task)}), dead, listed,
     listed.(procs := map[7 := Checking({}, [1]), 1 := start]),
     listed.(procs := map[1 := start, 8 := Closing(1, task, Stopped, Vanished, None)]),
     Buried(task, {}, start), anew, After(anew, CreateOk(2, None))]
  }

  lemma AgainTraces(task: int)
    ensures Traces(AgainTrace(task), Again(task))
  {
    DyingBegins(task);
    OneIsMissed(task, {}, Launched(1, task));
    StartsAnew(task);
  }

  lemma AgainIsApart(task: int)
    ensures Apart(AgainTrace(task))
  {
    var trace := AgainTrace(task);
    DyingBegins(task);
    StartsAnew(task);
    NobodyStarts(trace[0]);
    NobodyStarts(trace[4]);
    NobodyStarts(trace[5]);
    NobodyStarts(trace[6]);
  }

  /** A row is closed as vanished, and a session is started later. */
  ghost predicate StartsAgain(trace: seq<Daemon>, actions: seq<Action>, n: nat, j: nat) {
    Traces(trace, actions) && ClosesVanished(trace, actions, n) && n < j < |actions| && actions[j].CreateOk?
  }

  lemma ApartIsPossible(task: int)
    ensures exists trace, actions, n, j :: StartsAgain(trace, actions, n, j) && Apart(trace)
  {
    AgainTraces(task);
    AgainIsApart(task);
    assert StartsAgain(AgainTrace(task), Again(task), 6, 8);
  }
}
