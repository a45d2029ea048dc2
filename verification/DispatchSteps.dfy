/** Dispatching a row as it is written is what the step system does when nobody disturbs it. */
module DispatchSteps {
  import opened Options
  import opened Events
  import opened Placement
  import opened QueueStore
  import opened TaskStore
  import opened Dispatch
  import Loop = DispatchLoop

  ghost predicate Leads(h: Hub, actions: seq<Action>, h': Hub) {
    Legal(h, actions) && Run(h, actions) == h'
  }

  lemma First(h: Hub, action: Action, rest: seq<Action>, h': Hub)
    requires Enabled(h, action) && Leads(After(h, action), rest, h')
    ensures Leads(h, [action] + rest, h')
  {
    RunCons(h, action, rest);
  }

  lemma None(h: Hub)
    ensures Leads(h, [], h)
  {
  }

  /** What the pass as written makes of the row, with nobody withdrawing any. */
  function AsWritten(h: Hub, row: int, view: seq<Inventory>, answer: Loop.Answer): (Rows, seq<ForgeEvent>)
    requires row in h.rows
  {
    Loop.Outcome(h.rows, row, h.rows[row].wish, view, |h.names|, Loop.Turn(answer, []))
  }

  /** Queued, with nothing of this attempt begun. */
  ghost predicate Ready(h: Hub, attempt: int, request: int, row: int, view: seq<Inventory>) {
    && attempt !in h.attempts && request !in h.requests && IsQueued(h.rows, row) && ViewOf(view, h.names)
    && |h.machines| == |h.names|
  }

  lemma WaitingInSteps(h: Hub, attempt: int, request: int, row: int, view: seq<Inventory>, answer: Loop.Answer)
    requires Ready(h, attempt, request, row, view) && Place(h.rows[row].wish, view).Wait?
    ensures var h' := After(h, Plan(attempt, request, row, view));
            && Enabled(h, Plan(attempt, request, row, view)) && h'.rows == AsWritten(h, row, view, answer).0
            && h'.events == h.events + AsWritten(h, row, view, answer).1 && h'.attempts == h.attempts
  {
    assert h.events + [] == h.events;
  }

  lemma PlanSends(h: Hub, attempt: int, request: int, row: int, view: seq<Inventory>) returns (a: Attempt)
    requires Ready(h, attempt, request, row, view) && Place(h.rows[row].wish, view).Send?
    ensures var p := Place(h.rows[row].wish, view);
            && p.index < |h.names| && Enabled(h, Plan(attempt, request, row, view))
            && a == Attempt(row, p.index, p.machine, p.considered, view, request, Sent)
            && After(h, Plan(attempt, request, row, view))
               == h.(attempts := h.attempts[attempt := a],
                     requests := h.requests[request := Request(p.index, Some(QueueKey(row)), Asked)])
  {
    var p := Place(h.rows[row].wish, view);
    SendsIntoTheFleet(h.rows[row].wish, view, h.names);
    a := Attempt(row, p.index, p.machine, p.considered, view, request, Sent);
  }

  /** A request refused, however it was. */
  lemma RefusalInSteps(h: Hub, attempt: int, request: int, row: int, view: seq<Inventory>, detail: string) returns (h': Hub)
    requires Ready(h, attempt, request, row, view) && Place(h.rows[row].wish, view).Send?
    ensures Leads(h, [Plan(attempt, request, row, view)] + ([Fail(attempt, detail)] + []), h')
    ensures h'.rows == AsWritten(h, row, view, Loop.Refusal(detail)).0
    ensures h'.events == h.events + AsWritten(h, row, view, Loop.Refusal(detail)).1 && h'.attempts == h.attempts
  {
    var a := PlanSends(h, attempt, request, row, view);
    var h1 := After(h, Plan(attempt, request, row, view));
    h' := After(h1, Fail(attempt, detail));
    assert h'.attempts == h.attempts;
    None(h');
    First(h1, Fail(attempt, detail), [], h');
    First(h, Plan(attempt, request, row, view), [Fail(attempt, detail)] + [], h');
  }

  /** The machine makes the task, under the row's key. */
  lemma MakingInSteps(h: Hub, request: int, m: nat, key: string, task: int) returns (actions: seq<Action>, h': Hub)
    requires request in h.requests && h.requests[request] == Request(m, Some(key), Asked)
    requires m < |h.machines| && !HasKey(h.machines[m], key) && task !in h.machines[m]
    ensures Leads(h, actions, h') && h'.rows == h.rows && h'.attempts == h.attempts && h'.events == h.events
    ensures h'.requests == h.requests[request := Request(m, Some(key), Answered(task))]
    ensures h'.machines == h.machines[m := h.machines[m][task := Some(key)]]
  {
    var h1 := After(h, Lookup(request, Option<int>.None));
    var h2 := After(h1, Insert(request, task));
    h' := After(h2, Provision(request, true, true));
    assert h'.requests == h.requests[request := Request(m, Some(key), Answered(task))];
    None(h');
    First(h2, Provision(request, true, true), [], h');
    First(h1, Insert(request, task), [Provision(request, true, true)] + [], h');
    actions := [Lookup(request, Option<int>.None)] + ([Insert(request, task)] + ([Provision(request, true, true)] + []));
    First(h, Lookup(request, Option<int>.None), [Insert(request, task)] + ([Provision(request, true, true)] + []), h');
  }

  /** A task that cannot be provisioned goes again, unless undoing it fails too; then it is what a retry is answered with. */
  lemma FailingInSteps(h: Hub, request: int, m: nat, key: string, task: int, undone: bool) returns (h': Hub)
    requires request in h.requests && h.requests[request] == Request(m, Some(key), Asked)
    requires m < |h.machines| && !HasKey(h.machines[m], key) && task !in h.machines[m]
    ensures Leads(h, [Lookup(request, Option<int>.None)] + ([Insert(request, task)] + ([Provision(request, false, undone)] + [])), h')
    ensures h'.requests == h.requests[request := Request(m, Some(key), Rejected)] && h'.rows == h.rows && h'.events == h.events
    ensures |h'.machines| == |h.machines| && (undone ==> h'.machines == h.machines)
    ensures !undone ==> h'.machines == h.machines[m := h.machines[m][task := Some(key)]] && LooksUp(h'.machines[m], Some(key), Some(task))
  {
    var h1 := After(h, Lookup(request, Option<int>.None));
    var h2 := After(h1, Insert(request, task));
    h' := After(h2, Provision(request, false, undone));
    assert h'.requests == h.requests[request := Request(m, Some(key), Rejected)];
    if undone {
      assert h.machines[m][task := Some(key)] - {task} == h.machines[m];
    }
    None(h');
    First(h2, Provision(request, false, undone), [], h');
    First(h1, Insert(request, task), [Provision(request, false, undone)] + [], h');
    First(h, Lookup(request, Option<int>.None), [Insert(request, task)] + ([Provision(request, false, undone)] + []), h');
  }

  /** A task whose agent will not start is taken back, if it can be. */
  lemma UndoingInSteps(h: Hub, request: int, m: nat, key: string, task: int, undone: bool)
    requires request in h.requests && h.requests[request] == Request(m, Some(key), Answered(task)) && m < |h.machines|
    ensures Enabled(h, Undo(request, undone))
    ensures After(h, Undo(request, undone))
         == h.(requests := h.requests[request := Request(m, Some(key), Rejected)],
               machines := if undone then h.machines[m := h.machines[m] - {task}] else h.machines)
  {
  }

  /** A retry is answered with the task already made under the key, and makes none. */
  lemma RetryingInSteps(h: Hub, request: int, m: nat, key: string, task: int)
    requires request in h.requests && h.requests[request] == Request(m, Some(key), Asked) && m < |h.machines|
    requires KeysUnique(h.machines[m]) && Holds(h.machines[m], task, key)
    ensures Enabled(h, Lookup(request, Some(task)))
    ensures After(h, Lookup(request, Some(task))) == h.(requests := h.requests[request := Request(m, Some(key), Answered(task))])
    ensures forall found :: Enabled(h, Lookup(request, found)) ==> found == Some(task)
  {
  }

  /** The answer comes back, the row is claimed, and the claim announced. */
  lemma ClaimingInSteps(h: Hub, attempt: int, a: Attempt, task: int) returns (actions: seq<Action>, h': Hub)
    requires attempt in h.attempts && h.attempts[attempt] == a && a.stage == Sent && IsQueued(h.rows, a.row)
    requires a.request in h.requests && h.requests[a.request].phase == Answered(task)
    ensures Leads(h, actions, h') && h'.attempts == h.attempts - {attempt} && h'.machines == h.machines
    ensures h'.rows == Marked(h.rows, a.row, a.machine, task, a.considered)
    ensures h'.events == h.events + [TaskDispatched(a.row, a.machine, task, a.considered)]
  {
    var h1 := After(h, Reply(attempt));
    var h2 := After(h1, Claim(attempt));
    h' := After(h2, Announce(attempt));
    assert h'.attempts == h.attempts - {attempt};
    None(h');
    First(h2, Announce(attempt), [], h');
    First(h1, Claim(attempt), [Announce(attempt)] + [], h');
    actions := [Reply(attempt)] + ([Claim(attempt)] + ([Announce(attempt)] + []));
    First(h, Reply(attempt), [Claim(attempt)] + ([Announce(attempt)] + []), h');
  }

  /** A request answered with a new task. */
  lemma StartInSteps(h: Hub, attempt: int, request: int, row: int, view: seq<Inventory>, task: int)
    returns (actions: seq<Action>, h': Hub)
    requires Ready(h, attempt, request, row, view) && Place(h.rows[row].wish, view).Send?
    requires var m := Place(h.rows[row].wish, view).index;
             m < |h.machines| && !HasKey(h.machines[m], QueueKey(row)) && task !in h.machines[m]
    ensures Leads(h, actions, h') && h'.attempts == h.attempts
    ensures h'.rows == AsWritten(h, row, view, Loop.Started(task)).0
    ensures h'.events == h.events + AsWritten(h, row, view, Loop.Started(task)).1
    ensures var m := Place(h.rows[row].wish, view).index; h'.machines == h.machines[m := h.machines[m][task := Some(QueueKey(row))]]
  {
    var plan := Plan(attempt, request, row, view);
    var a := PlanSends(h, attempt, request, row, view);
    var h1 := After(h, plan);
    var making, h2 := MakingInSteps(h1, request, a.index, QueueKey(row), task);
    var claiming;
    claiming, h' := ClaimingInSteps(h2, attempt, a, task);
    assert h'.attempts == h.attempts;
    RunConcat(h1, making, claiming);
    actions := [plan] + (making + claiming);
    First(h, plan, making + claiming, h');
  }
}
