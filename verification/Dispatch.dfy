/**
 Turning queued rows into tasks on other Macs, as a step system: place, create
 remotely under an idempotency key, then claim the row conditionally, with
 crashes and lost replies possible at every gap.
 */
module Dispatch {
  import opened Options
  import opened Decimal
  import opened Events
  import opened Placement
  import opened QueueStore
  import opened TaskStore

  /** The queue row names the attempt, so every retry of one row carries the same key. */
  function QueueKey(row: int): string {
    "forge-queue-" + Show(row)
  }

  /** How far a machine has got with one `POST /tasks`: the lookup, the insert and the provisioning are separate steps there. */
  datatype Phase = Asked | Missed | Made(task: int) | Answered(task: int) | Rejected

  datatype Request = Request(machine: nat, key: Option<string>, phase: Phase)

  /** How far the hub has got with one row: waiting for an answer, holding one, or having claimed the row. */
  datatype Stage = Sent | Replied(task: int) | Claimed(task: int)

  datatype Attempt = Attempt(
    row: int, index: nat, machine: string, considered: seq<string>, view: seq<Inventory>, request: int, stage: Stage)

  /**
   The hub and its fleet. `made` remembers every task ever created, as machine,
   id and key, and `views` the inventory each claimed row was placed with.
   */
  datatype Hub = Hub(
    names: seq<string>, rows: Rows, machines: seq<Tasks>,
    requests: map<int, Request>, attempts: map<int, Attempt>, events: seq<ForgeEvent>,
    made: set<(nat, int, Option<string>)>, views: map<int, seq<Inventory>>)

  datatype Action =
    | Enqueue(row: int, wish: Wish)
    | Cancel(row: int)
    | Plan(attempt: int, request: int, row: int, view: seq<Inventory>)
    | Lookup(request: int, found: Option<int>)
    | Insert(request: int, task: int)
    // Undoing a task may fail too, and its row stay behind under its key.
    | Provision(request: int, ok: bool, undone: bool)
    | Undo(request: int, undone: bool)
    | Reply(attempt: int)
    | Fail(attempt: int, detail: string)
    | Claim(attempt: int)
    | Announce(attempt: int)
    | Crash
    | Foreign(request: int, machine: nat, key: Option<string>)
    | Delete(machine: nat, task: int)

  /** What `task_by_key` may answer. */
  predicate LooksUp(tasks: Tasks, key: Option<string>, found: Option<int>) {
    if found.Some? then key.Some? && Holds(tasks, found.value, key.value) else Admits(tasks, key)
  }

  ghost predicate Enabled(h: Hub, action: Action) {
    match action
    case Enqueue(row, _) => row !in h.rows
    case Cancel(_) => true
    // The pass works from a snapshot, in which the row was queued; by now it may have moved on.
    case Plan(attempt, request, row, view) =>
      attempt !in h.attempts && request !in h.requests && row in h.rows && ViewOf(view, h.names)
    case Lookup(request, found) =>
      && request in h.requests && h.requests[request].phase == Asked
      && h.requests[request].machine < |h.machines|
      && LooksUp(h.machines[h.requests[request].machine], h.requests[request].key, found)
    case Insert(request, task) =>
      && request in h.requests && h.requests[request].phase == Missed
      && h.requests[request].machine < |h.machines| && task !in h.machines[h.requests[request].machine]
    case Provision(request, _, _) =>
      request in h.requests && h.requests[request].phase.Made? && h.requests[request].machine < |h.machines|
    case Undo(request, _) =>
      request in h.requests && h.requests[request].phase.Answered? && h.requests[request].machine < |h.machines|
    case Reply(attempt) =>
      && attempt in h.attempts && h.attempts[attempt].stage == Sent
      && h.attempts[attempt].request in h.requests && h.requests[h.attempts[attempt].request].phase.Answered?
    case Fail(attempt, _) => attempt in h.attempts && h.attempts[attempt].stage == Sent
    case Claim(attempt) => attempt in h.attempts && h.attempts[attempt].stage.Replied?
    case Announce(attempt) => attempt in h.attempts && h.attempts[attempt].stage.Claimed?
    case Crash => true
    // Other clients of a machine name their own attempts, if at all.
    case Foreign(request, machine, key) =>
      request !in h.requests && machine < |h.machines| && forall row :: key != Some(QueueKey(row))
    case Delete(machine, _) => machine < |h.machines|
  }

  function Advance(h: Hub, request: int, phase: Phase): map<int, Request>
    requires request in h.requests
  {
    h.requests[request := h.requests[request].(phase := phase)]
  }

  function Without(h: Hub, machine: nat, task: int): seq<Tasks>
    requires machine < |h.machines|
  {
    h.machines[machine := h.machines[machine] - {task}]
  }

  ghost function After(h: Hub, action: Action): Hub
    requires Enabled(h, action)
  {
    match action
    case Enqueue(row, wish) => h.(rows := h.rows[row := NewRow(wish, "", None)])
    case Cancel(row) => h.(rows := Withdrawn(h.rows, row))
    case Plan(attempt, request, row, view) => Planned(h, attempt, request, row, view)
    case Lookup(request, found) =>
      h.(requests := Advance(h, request, if found.Some? then Answered(found.value) else Missed))
    case Insert(request, task) => Inserted(h, request, task)
    case Provision(request, ok, undone) =>
      if ok then h.(requests := Advance(h, request, Answered(h.requests[request].phase.task))) else RolledBack(h, request, undone)
    case Undo(request, undone) => RolledBack(h, request, undone)
    case Reply(attempt) =>
      var a := h.attempts[attempt];
      h.(attempts := h.attempts[attempt := a.(stage := Replied(h.requests[a.request].phase.task))])
    case Fail(attempt, detail) =>
      var a := h.attempts[attempt];
      h.(attempts := h.attempts - {attempt},
         rows := Reasoned(h.rows, a.row, detail, a.considered),
         events := h.events + [DispatchFailed(a.row, a.machine, detail)])
    case Claim(attempt) => ClaimedBy(h, attempt)
    case Announce(attempt) =>
      var a := h.attempts[attempt];
      h.(attempts := h.attempts - {attempt},
         events := h.events + [TaskDispatched(a.row, a.machine, a.stage.task, a.considered)])
    case Crash => h.(attempts := map[])
    case Foreign(request, machine, key) => h.(requests := h.requests[request := Request(machine, key, Asked)])
    case Delete(machine, task) => h.(machines := Without(h, machine, task))
  }

  function RolledBack(h: Hub, request: int, undone: bool): Hub
    requires request in h.requests && h.requests[request].machine < |h.machines|
    requires h.requests[request].phase.Made? || h.requests[request].phase.Answered?
  {
    var r := h.requests[request];
    h.(requests := Advance(h, request, Rejected), machines := if undone then Without(h, r.machine, r.phase.task) else h.machines)
  }

  function Planned(h: Hub, attempt: int, request: int, row: int, view: seq<Inventory>): Hub
    requires row in h.rows
  {
    match Place(h.rows[row].wish, view)
    case Wait(reason, considered) => h.(rows := Reasoned(h.rows, row, reason, considered))
    case Send(index, machine, _, considered) =>
      h.(attempts := h.attempts[attempt := Attempt(row, index, machine, considered, view, request, Sent)],
         requests := h.requests[request := Request(index, Some(QueueKey(row)), Asked)])
  }

  /** The insert itself, which the unique index may still refuse. */
  function Inserted(h: Hub, request: int, task: int): Hub
    requires request in h.requests && h.requests[request].machine < |h.machines|
  {
    var r := h.requests[request];
    if Admits(h.machines[r.machine], r.key) then
      h.(requests := Advance(h, request, Made(task)),
         machines := h.machines[r.machine := h.machines[r.machine][task := r.key]],
         made := h.made + {(r.machine, task, r.key)})
    else h.(requests := Advance(h, request, Rejected))
  }

  function ClaimedBy(h: Hub, attempt: int): Hub
    requires attempt in h.attempts && h.attempts[attempt].stage.Replied?
  {
    var a := h.attempts[attempt];
    if IsQueued(h.rows, a.row) then
      h.(rows := Marked(h.rows, a.row, a.machine, a.stage.task, a.considered),
         attempts := h.attempts[attempt := a.(stage := Claimed(a.stage.task))],
         views := h.views[a.row := a.view])
    else h.(attempts := h.attempts - {attempt})
  }

  function Start(names: seq<string>): Hub {
    Hub(names, map[], seq(|names|, _ => map[]), map[], map[], [], {}, map[])
  }

  ghost predicate Legal(h: Hub, actions: seq<Action>)
    decreases |actions|
  {
    actions != [] ==> Enabled(h, actions[0]) && Legal(After(h, actions[0]), actions[1..])
  }

  ghost function Run(h: Hub, actions: seq<Action>): Hub
    requires Legal(h, actions)
    decreases |actions|
  {
    if actions == [] then h else Run(After(h, actions[0]), actions[1..])
  }

  // ---- what every step keeps: the machines ----

  /** No machine ever holds two tasks with one key, and every task it holds was made there under that key. */
  ghost predicate TasksInv(h: Hub) {
    && |h.machines| == |h.names|
    && (forall m :: 0 <= m < |h.machines| ==> KeysUnique(h.machines[m]))
    && (forall m, t :: 0 <= m < |h.machines| && t in h.machines[m] ==> (m, t, h.machines[m][t]) in h.made)
  }

  lemma TasksKept(h: Hub, action: Action)
    requires TasksInv(h) && Enabled(h, action)
    ensures TasksInv(After(h, action))
  {
    if action.Insert? {
      var r := h.requests[action.request];
      if Admits(h.machines[r.machine], r.key) {
        InsertKeepsUnique(h.machines[r.machine], action.task, r.key);
      }
    }
  }

  /** An answer is always a task made on that machine under that request's key. */
  ghost predicate RequestsInv(h: Hub) {
    forall r :: r in h.requests ==> Honest(h, h.requests[r])
  }

  ghost predicate Honest(h: Hub, r: Request) {
    && r.machine < |h.names|
    && (r.phase.Made? || r.phase.Answered? ==> (r.machine, r.phase.task, r.key) in h.made)
  }

  lemma RequestKept(h: Hub, action: Action, r: int)
    requires TasksInv(h) && RequestsInv(h) && Enabled(h, action) && r in h.requests
    ensures r in After(h, action).requests && Honest(After(h, action), After(h, action).requests[r])
  {
    assert Honest(h, h.requests[r]);
  }

  lemma NewRequestHonest(h: Hub, action: Action, r: int)
    requires TasksInv(h) && Enabled(h, action) && r !in h.requests && r in After(h, action).requests
    ensures Honest(After(h, action), After(h, action).requests[r])
  {
    if action.Plan? {
      SendsIntoTheFleet(h.rows[action.row].wish, action.view, h.names);
    }
  }

  lemma RequestsKept(h: Hub, action: Action)
    requires TasksInv(h) && RequestsInv(h) && Enabled(h, action)
    ensures RequestsInv(After(h, action))
  {
    forall r | r in After(h, action).requests ensures Honest(After(h, action), After(h, action).requests[r]) {
      if r in h.requests {
        RequestKept(h, action, r);
      } else {
        NewRequestHonest(h, action, r);
      }
    }
  }

  // ---- the rows' keys ----

  lemma QueueKeyInjective(a: int, b: int)
    requires QueueKey(a) == QueueKey(b)
    ensures a == b
  {
    assert QueueKey(a)[12..] == Show(a) && QueueKey(b)[12..] == Show(b);
    ShowInjective(a, b);
  }

  /** Where a key of this row may turn up. */
  ghost predicate Allowed(h: Hub, row: int, machine: nat) {
    && row in h.rows
    && (h.rows[row].wish.target.Some? ==> machine == Home(h.names, h.rows[row].wish.target.value))
  }

  /** A row's key is asked for, and made, only where the row may go. */
  ghost predicate KeysInv(h: Hub) {
    && (forall r, row :: r in h.requests && h.requests[r].key == Some(QueueKey(row)) ==> Allowed(h, row, h.requests[r].machine))
    && (forall x, row :: x in h.made && x.2 == Some(QueueKey(row)) ==> Allowed(h, row, x.0))
  }

  /** Nothing a step does takes back a row, a request or a made task. */
  ghost predicate Extends(h: Hub, h': Hub) {
    && h'.names == h.names
    && Settling(h.rows, h'.rows)
    && h.made <= h'.made
    && (forall r :: r in h.requests ==>
          r in h'.requests && h'.requests[r].machine == h.requests[r].machine && h'.requests[r].key == h.requests[r].key)
  }

  lemma RowsSettle(h: Hub, action: Action)
    requires Enabled(h, action)
    ensures Settling(h.rows, After(h, action).rows) && After(h, action).names == h.names
  {
  }

  lemma RequestStays(h: Hub, action: Action, r: int)
    requires Enabled(h, action) && r in h.requests
    ensures var later := After(h, action).requests;
            r in later && later[r].machine == h.requests[r].machine && later[r].key == h.requests[r].key
  {
  }

  lemma MadeStays(h: Hub, action: Action)
    requires Enabled(h, action)
    ensures h.made <= After(h, action).made
  {
  }

  lemma StepExtends(h: Hub, action: Action)
    requires Enabled(h, action)
    ensures Extends(h, After(h, action))
  {
    RowsSettle(h, action);
    MadeStays(h, action);
    var h' := After(h, action);
    forall r | r in h.requests
      ensures r in h'.requests && h'.requests[r].machine == h.requests[r].machine && h'.requests[r].key == h.requests[r].key
    {
      RequestStays(h, action, r);
    }
  }

  lemma AllowedKept(h: Hub, h': Hub, row: int, machine: nat)
    requires Extends(h, h') && Allowed(h, row, machine)
    ensures Allowed(h', row, machine)
  {
  }

  lemma RequestKeyAllowed(h: Hub, action: Action, r: int, row: int)
    requires KeysInv(h) && Enabled(h, action)
    requires r in After(h, action).requests && After(h, action).requests[r].key == Some(QueueKey(row))
    ensures Allowed(After(h, action), row, After(h, action).requests[r].machine)
  {
    if r in h.requests {
      StepExtends(h, action);
      AllowedKept(h, After(h, action), row, h.requests[r].machine);
    } else if action.Plan? {
      QueueKeyInjective(row, action.row);
      if h.rows[row].wish.target.Some? {
        NamedIsFixed(h.rows[row].wish, action.view, h.names);
      }
    }
  }

  lemma MadeKeyAllowed(h: Hub, action: Action, x: (nat, int, Option<string>), row: int)
    requires KeysInv(h) && Enabled(h, action)
    requires x in After(h, action).made && x.2 == Some(QueueKey(row))
    ensures Allowed(After(h, action), row, x.0)
  {
    StepExtends(h, action);
    if x in h.made {
      AllowedKept(h, After(h, action), row, x.0);
    } else {
      assert action.Insert?;
      AllowedKept(h, After(h, action), row, h.requests[action.request].machine);
    }
  }

  lemma KeysKept(h: Hub, action: Action)
    requires KeysInv(h) && Enabled(h, action)
    ensures KeysInv(After(h, action))
  {
    var h' := After(h, action);
    forall r, row | r in h'.requests && h'.requests[r].key == Some(QueueKey(row))
      ensures Allowed(h', row, h'.requests[r].machine)
    {
      RequestKeyAllowed(h, action, r, row);
    }
    forall x, row | x in h'.made && x.2 == Some(QueueKey(row))
      ensures Allowed(h', row, x.0)
    {
      MadeKeyAllowed(h, action, x, row);
    }
  }

  // ---- what every step keeps: attempts, claims and announcements ----

  /** An attempt stands for what placing its row on its inventory came to, and for one request with the row's key. */
  ghost predicate Planful(h: Hub, a: Attempt) {
    && a.row in h.rows && ViewOf(a.view, h.names)
    && Place(h.rows[a.row].wish, a.view).Send?
    && Place(h.rows[a.row].wish, a.view).index == a.index
    && Place(h.rows[a.row].wish, a.view).machine == a.machine
    && Place(h.rows[a.row].wish, a.view).considered == a.considered
    && a.request in h.requests
    && h.requests[a.request].machine == a.index && h.requests[a.request].key == Some(QueueKey(a.row))
    && (a.stage != Sent ==> (a.index, a.stage.task, Some(QueueKey(a.row))) in h.made)
  }

  ghost predicate AttemptsInv(h: Hub) {
    forall a :: a in h.attempts ==> Planful(h, h.attempts[a])
  }

  lemma PlanfulKept(h: Hub, h': Hub, a: Attempt)
    requires Extends(h, h') && Planful(h, a)
    ensures Planful(h', a)
  {
  }

  lemma NewAttemptPlanful(h: Hub, action: Action)
    requires RequestsInv(h) && Enabled(h, action) && action.Plan? && action.attempt in After(h, action).attempts
    ensures Planful(After(h, action), After(h, action).attempts[action.attempt])
  {
  }

  lemma AttemptMoves(h: Hub, action: Action, a: int)
    requires Enabled(h, action) && a in h.attempts && a in After(h, action).attempts
    ensures After(h, action).attempts[a] == h.attempts[a].(stage := After(h, action).attempts[a].stage)
    ensures action != Reply(a) && h.attempts[a].stage == Sent ==> After(h, action).attempts[a].stage == Sent
    ensures h.attempts[a].stage != Sent ==>
              After(h, action).attempts[a].stage != Sent && After(h, action).attempts[a].stage.task == h.attempts[a].stage.task
    ensures action == Reply(a) ==>
              After(h, action).attempts[a].stage == Replied(h.requests[h.attempts[a].request].phase.task)
  {
  }

  lemma AnswerIsReal(h: Hub, a: Attempt)
    requires Planful(h, a) && RequestsInv(h) && h.requests[a.request].phase.Answered?
    ensures Planful(h, a.(stage := Replied(h.requests[a.request].phase.task)))
  {
    assert Honest(h, h.requests[a.request]);
  }

  lemma SameTaskPlanful(h: Hub, a: Attempt, stage: Stage)
    requires Planful(h, a)
    requires if a.stage == Sent then stage == Sent else stage != Sent && stage.task == a.stage.task
    ensures Planful(h, a.(stage := stage))
  {
  }

  lemma AttemptKept(h: Hub, action: Action, a: int)
    requires AttemptsInv(h) && RequestsInv(h) && Enabled(h, action) && a in After(h, action).attempts
    ensures Planful(After(h, action), After(h, action).attempts[a])
  {
    if a in h.attempts {
      AttemptMoves(h, action, a);
      StepExtends(h, action);
      var was, now := h.attempts[a], After(h, action).attempts[a];
      if action == Reply(a) {
        AnswerIsReal(h, was);
      } else {
        SameTaskPlanful(h, was, now.stage);
      }
      PlanfulKept(h, After(h, action), now);
    } else {
      NewAttemptPlanful(h, action);
    }
  }

  lemma AttemptsKept(h: Hub, action: Action)
    requires AttemptsInv(h) && RequestsInv(h) && Enabled(h, action)
    ensures AttemptsInv(After(h, action))
  {
    forall a | a in After(h, action).attempts ensures Planful(After(h, action), After(h, action).attempts[a]) {
      AttemptKept(h, action, a);
    }
  }

  ghost predicate Recorded(rows: Rows, row: int, machine: string, task: int, considered: seq<string>) {
    && row in rows && rows[row].state == Dispatched
    && rows[row].machine == Some(machine) && rows[row].remoteTask == Some(task) && rows[row].considered == considered
  }

  lemma RecordedKept(rows: Rows, later: Rows, row: int, machine: string, task: int, considered: seq<string>)
    requires Settling(rows, later) && Recorded(rows, row, machine, task, considered)
    ensures Recorded(later, row, machine, task, considered)
  {
  }

  /** An attempt that won its claim is what the row records; nobody else won it, and it is not announced yet. */
  ghost predicate ClaimsInv(h: Hub) {
    && (forall a :: a in h.attempts && h.attempts[a].stage.Claimed? ==> Winner(h, h.attempts[a]))
    && (forall a, b :: a in h.attempts && b in h.attempts && a != b && h.attempts[a].stage.Claimed? && h.attempts[b].stage.Claimed?
          ==> h.attempts[a].row != h.attempts[b].row)
  }

  ghost predicate Winner(h: Hub, a: Attempt)
    requires a.stage.Claimed?
  {
    && Recorded(h.rows, a.row, a.machine, a.stage.task, a.considered)
    && forall i :: 0 <= i < |h.events| && h.events[i].TaskDispatched? ==> h.events[i].queued != a.row
  }

  lemma WonBefore(h: Hub, action: Action, a: int)
    requires ClaimsInv(h) && Enabled(h, action)
    requires a in h.attempts && h.attempts[a].stage.Claimed? && a in After(h, action).attempts
    ensures After(h, action).attempts[a] == h.attempts[a] && Winner(After(h, action), h.attempts[a])
  {
    var w := h.attempts[a];
    StepExtends(h, action);
    RecordedKept(h.rows, After(h, action).rows, w.row, w.machine, w.stage.task, w.considered);
  }

  lemma WinsNow(h: Hub, a: int)
    requires AnnouncedInv(h) && Enabled(h, Claim(a)) && a in After(h, Claim(a)).attempts
    ensures Winner(After(h, Claim(a)), After(h, Claim(a)).attempts[a])
  {
  }

  lemma WinnerKept(h: Hub, action: Action, a: int)
    requires ClaimsInv(h) && AnnouncedInv(h) && Enabled(h, action)
    requires a in After(h, action).attempts && After(h, action).attempts[a].stage.Claimed?
    ensures Winner(After(h, action), After(h, action).attempts[a])
  {
    if a in h.attempts && h.attempts[a].stage.Claimed? {
      WonBefore(h, action, a);
    } else {
      assert action == Claim(a);
      WinsNow(h, a);
    }
  }

  lemma ClaimsKept(h: Hub, action: Action)
    requires ClaimsInv(h) && AnnouncedInv(h) && Enabled(h, action)
    ensures ClaimsInv(After(h, action))
  {
    forall a | a in After(h, action).attempts && After(h, action).attempts[a].stage.Claimed?
      ensures Winner(After(h, action), After(h, action).attempts[a])
    {
      WinnerKept(h, action, a);
    }
  }

  /** What was announced is what the row records, and no row was announced twice. */
  ghost predicate AnnouncedInv(h: Hub) {
    && (forall i :: 0 <= i < |h.events| && h.events[i].TaskDispatched? ==> Announced(h.rows, h.events[i]))
    && (forall i, j :: 0 <= i < j < |h.events| && h.events[i].TaskDispatched? && h.events[j].TaskDispatched?
          ==> h.events[i].queued != h.events[j].queued)
  }

  ghost predicate Announced(rows: Rows, event: ForgeEvent)
    requires event.TaskDispatched?
  {
    Recorded(rows, event.queued, event.machine, event.remoteTask, event.considered)
  }

  lemma AnnouncedKept(h: Hub, action: Action)
    requires ClaimsInv(h) && AnnouncedInv(h) && Enabled(h, action)
    ensures AnnouncedInv(After(h, action))
  {
    var h' := After(h, action);
    StepExtends(h, action);
    forall i | 0 <= i < |h'.events| && h'.events[i].TaskDispatched? ensures Announced(h'.rows, h'.events[i]) {
      if i < |h.events| {
        var e := h.events[i];
        RecordedKept(h.rows, h'.rows, e.queued, e.machine, e.remoteTask, e.considered);
      }
    }
  }

  /** A dispatched row names a task that was made for it, on the machine its placement chose. */
  ghost predicate Traceable(h: Hub, row: int)
    requires row in h.rows
  {
    && row in h.views && ViewOf(h.views[row], h.names)
    && var p := Place(h.rows[row].wish, h.views[row]);
       && p.Send? && h.rows[row].machine == Some(p.machine) && h.rows[row].considered == p.considered
       && h.rows[row].remoteTask.Some?
       && (p.index, h.rows[row].remoteTask.value, Some(QueueKey(row))) in h.made
  }

  ghost predicate RowsInv(h: Hub) {
    forall row :: row in h.rows && h.rows[row].state == Dispatched ==> Traceable(h, row)
  }

  lemma StaysTraceable(h: Hub, h': Hub, row: int)
    requires Extends(h, h') && row in h.rows && h.rows[row].state == Dispatched && Traceable(h, row)
    requires row in h'.views && h'.views[row] == h.views[row]
    ensures Traceable(h', row)
  {
  }

  lemma ViewKept(h: Hub, action: Action, row: int)
    requires Enabled(h, action) && row in h.rows && h.rows[row].state == Dispatched && row in h.views
    ensures row in After(h, action).views && After(h, action).views[row] == h.views[row]
  {
  }

  lemma BecomesTraceable(h: Hub, a: int)
    requires Enabled(h, Claim(a)) && Planful(h, h.attempts[a]) && IsQueued(h.rows, h.attempts[a].row)
    ensures Traceable(After(h, Claim(a)), h.attempts[a].row)
  {
  }

  lemma OnlyClaimsDispatch(h: Hub, action: Action, row: int)
    requires Enabled(h, action) && row in After(h, action).rows && After(h, action).rows[row].state == Dispatched
    requires !(row in h.rows && h.rows[row].state == Dispatched)
    ensures action.Claim? && h.attempts[action.attempt].row == row && IsQueued(h.rows, row)
  {
  }

  lemma TraceableKept(h: Hub, action: Action, row: int)
    requires RowsInv(h) && AttemptsInv(h) && Enabled(h, action)
    requires row in After(h, action).rows && After(h, action).rows[row].state == Dispatched
    ensures Traceable(After(h, action), row)
  {
    if row in h.rows && h.rows[row].state == Dispatched {
      assert Traceable(h, row);
      StepExtends(h, action);
      ViewKept(h, action, row);
      StaysTraceable(h, After(h, action), row);
    } else {
      OnlyClaimsDispatch(h, action, row);
      BecomesTraceable(h, action.attempt);
    }
  }

  lemma RowsKept(h: Hub, action: Action)
    requires RowsInv(h) && AttemptsInv(h) && Enabled(h, action)
    ensures RowsInv(After(h, action))
  {
    forall row | row in After(h, action).rows && After(h, action).rows[row].state == Dispatched
      ensures Traceable(After(h, action), row)
    {
      TraceableKept(h, action, row);
    }
  }

  // ---- whole runs ----

  ghost predicate Inv(h: Hub) {
    TasksInv(h) && RequestsInv(h) && KeysInv(h) && AttemptsInv(h) && ClaimsInv(h) && AnnouncedInv(h) && RowsInv(h)
  }

  lemma StartInv(names: seq<string>)
    ensures Inv(Start(names))
  {
  }

  lemma InvKept(h: Hub, action: Action)
    requires Inv(h) && Enabled(h, action)
    ensures Inv(After(h, action))
  {
    TasksKept(h, action);
    RequestsKept(h, action);
    KeysKept(h, action);
    AttemptsKept(h, action);
    ClaimsKept(h, action);
    AnnouncedKept(h, action);
    RowsKept(h, action);
  }

  lemma {:induction false} RunKeeps(h: Hub, actions: seq<Action>)
    requires Legal(h, actions) && Inv(h)
    ensures Inv(Run(h, actions))
    ensures Settling(h.rows, Run(h, actions).rows) && Run(h, actions).names == h.names
    decreases |actions|
  {
    if actions == [] {
    } else {
      var h' := After(h, actions[0]);
      InvKept(h, actions[0]);
      StepExtends(h, actions[0]);
      RunKeeps(h', actions[1..]);
    }
  }

  /** Through crashes, lost replies and retries, no machine ever holds two tasks with one row's key. */
  lemma OncePerMachine(names: seq<string>, actions: seq<Action>, row: int, m: nat, a: int, b: int)
    requires Legal(Start(names), actions)
    requires var h := Run(Start(names), actions);
             m < |h.machines| && Holds(h.machines[m], a, QueueKey(row)) && Holds(h.machines[m], b, QueueKey(row))
    ensures a == b
  {
    StartInv(names);
    RunKeeps(Start(names), actions);
  }

  /** A row with a named target has at most one task in the whole fleet, and it is on that machine. */
  lemma NamedTargetOnceInTheFleet(names: seq<string>, actions: seq<Action>, row: int, m: nat, a: int, n: nat, b: int)
    requires Legal(Start(names), actions)
    requires var h := Run(Start(names), actions);
             && row in h.rows && h.rows[row].wish.target.Some?
             && m < |h.machines| && Holds(h.machines[m], a, QueueKey(row))
             && n < |h.machines| && Holds(h.machines[n], b, QueueKey(row))
    ensures m == n && a == b
    ensures m == Home(names, Run(Start(names), actions).rows[row].wish.target.value)
  {
    StartInv(names);
    RunKeeps(Start(names), actions);
    var h := Run(Start(names), actions);
    assert (m, a, Some(QueueKey(row))) in h.made && (n, b, Some(QueueKey(row))) in h.made;
  }

  /**
   What the row records as dispatched to is a task that machine made for it,
   chosen as placement chooses; what is announced is what is recorded, once.
   */
  lemma DispatchedIsReal(names: seq<string>, actions: seq<Action>, row: int)
    requires Legal(Start(names), actions)
    ensures var h := Run(Start(names), actions);
            && (row in h.rows && h.rows[row].state == Dispatched ==> Traceable(h, row))
            && AnnouncedInv(h)
  {
    StartInv(names);
    RunKeeps(Start(names), actions);
  }

  /** The dispatch of the row has been announced, or is about to be. */
  ghost predicate ToldOrTelling(h: Hub, row: int) {
    || (exists i :: 0 <= i < |h.events| && h.events[i].TaskDispatched? && h.events[i].queued == row)
    || (exists a :: a in h.attempts && h.attempts[a].stage.Claimed? && h.attempts[a].row == row)
  }

  lemma EventsGrow(h: Hub, action: Action)
    requires Enabled(h, action)
    ensures h.events <= After(h, action).events
  {
  }

  lemma ClaimedStays(h: Hub, action: Action, a: int)
    requires Enabled(h, action) && !action.Crash? && a in h.attempts && h.attempts[a].stage.Claimed?
    ensures ToldOrTelling(After(h, action), h.attempts[a].row)
  {
    var h', row := After(h, action), h.attempts[a].row;
    if action == Announce(a) {
      var last := h'.events[|h.events|];
      assert last.TaskDispatched? && last.queued == row;
    } else {
      assert a in h'.attempts && h'.attempts[a] == h.attempts[a];
    }
  }

  lemma StepTells(h: Hub, action: Action, row: int)
    requires Enabled(h, action) && !action.Crash?
    requires row in h.rows && h.rows[row].state == Dispatched ==> ToldOrTelling(h, row)
    requires row in After(h, action).rows && After(h, action).rows[row].state == Dispatched
    ensures ToldOrTelling(After(h, action), row)
  {
    var h' := After(h, action);
    if row in h.rows && h.rows[row].state == Dispatched {
      EventsGrow(h, action);
      if i :| 0 <= i < |h.events| && h.events[i].TaskDispatched? && h.events[i].queued == row {
        assert h'.events[i] == h.events[i];
      } else {
        var a :| a in h.attempts && h.attempts[a].stage.Claimed? && h.attempts[a].row == row;
        ClaimedStays(h, action, a);
      }
    } else {
      OnlyClaimsDispatch(h, action, row);
      assert h'.attempts[action.attempt].stage.Claimed?;
    }
  }

  predicate NoCrash(actions: seq<Action>) {
    forall i :: 0 <= i < |actions| ==> !actions[i].Crash?
  }

  lemma {:induction false} RunTells(h: Hub, actions: seq<Action>, row: int)
    requires Legal(h, actions) && NoCrash(actions)
    requires row in h.rows && h.rows[row].state == Dispatched ==> ToldOrTelling(h, row)
    ensures row in Run(h, actions).rows && Run(h, actions).rows[row].state == Dispatched ==> ToldOrTelling(Run(h, actions), row)
    decreases |actions|
  {
    if actions == [] {
    } else {
      var h' := After(h, actions[0]);
      if row in h'.rows && h'.rows[row].state == Dispatched {
        StepTells(h, actions[0], row);
      }
      RunTells(h', actions[1..], row);
    }
  }

  /** Unless the hub crashes in between, every row recorded as dispatched is announced, or its own claim is still about to be. */
  lemma DispatchedIsAnnounced(names: seq<string>, actions: seq<Action>, row: int)
    requires Legal(Start(names), actions) && NoCrash(actions)
    ensures var h := Run(Start(names), actions);
            row in h.rows && h.rows[row].state == Dispatched ==> ToldOrTelling(h, row)
  {
    RunTells(Start(names), actions, row);
  }

  /** A row changes state at most once: from then on every field of it is frozen, whatever passes, retries and cancels follow. */
  lemma LeavesQueueOnce(names: seq<string>, before: seq<Action>, after: seq<Action>, row: int)
    requires Legal(Start(names), before) && Legal(Run(Start(names), before), after)
    requires row in Run(Start(names), before).rows && Run(Start(names), before).rows[row].state != Queued
    ensures row in Run(Run(Start(names), before), after).rows
    ensures Run(Run(Start(names), before), after).rows[row] == Run(Start(names), before).rows[row]
  {
    StartInv(names);
    RunKeeps(Start(names), before);
    RunKeeps(Run(Start(names), before), after);
  }

  // ---- where the key does not help ----

  /** An inventory in which only machine `at` answers, and has the project. */
  function OnlyAt(names: seq<string>, project: string, at: nat): (view: seq<Inventory>)
    ensures ViewOf(view, names)
  {
    seq(|names|, i requires 0 <= i < |names| => Inventory(i, names[i], [(1, project)], 0, i == at))
  }

  lemma {:induction false} OnlyOneEligible(fleet: seq<Inventory>, project: string, at: nat)
    requires at < |fleet|
    requires forall i :: 0 <= i < |fleet| ==> (Eligible(fleet[i], project) <==> i == at)
    ensures EligibleOf(fleet, project) == [fleet[at]]
  {
    if at == 0 {
      NoneEligible(fleet[1..], project);
    } else {
      OnlyOneEligible(fleet[1..], project, at - 1);
    }
  }

  lemma {:induction false} NoneEligible(fleet: seq<Inventory>, project: string)
    requires forall i :: 0 <= i < |fleet| ==> !Eligible(fleet[i], project)
    ensures EligibleOf(fleet, project) == []
  {
    if fleet == [] {
    } else {
      NoneEligible(fleet[1..], project);
    }
  }

  lemma PlacesOnlyAt(names: seq<string>, wish: Wish, at: nat)
    requires at < |names| && wish.target.None?
    ensures Place(wish, OnlyAt(names, wish.project, at)) == Send(at, names[at], 1, [names[at]])
  {
    var view := OnlyAt(names, wish.project, at);
    assert forall i :: 0 <= i < |view| ==> ProjectId(view[i].projects, wish.project) == Some(1);
    OnlyOneEligible(view, wish.project, at);
    NameAt([view[at]], 0);
  }

  /** Some run leaves one row with tasks on two machines. */
  ghost predicate CanDouble(names: seq<string>, wish: Wish) {
    exists actions, row, m, n, a, b :: Doubles(names, wish, actions, row, m, n, a, b)
  }

  ghost predicate Doubles(names: seq<string>, wish: Wish, actions: seq<Action>, row: int, m: nat, n: nat, a: int, b: int) {
    && Legal(Start(names), actions)
    && var h := Run(Start(names), actions);
       && row in h.rows && h.rows[row].wish == wish
       && m < |h.machines| && n < |h.machines| && m != n
       && Holds(h.machines[m], a, QueueKey(row)) && Holds(h.machines[n], b, QueueKey(row))
  }

  /** The attempt numbered `k` creates a task for row 1 on machine `k`, whose answer is then lost. */
  function LostAttempt(names: seq<string>, wish: Wish, k: nat): seq<Action> {
    [Plan(k, k, 1, OnlyAt(names, wish.project, k)), Lookup(k, None), Insert(k, 1), Fail(k, "lost")]
  }

  /** A hub with row 1 still queued, nothing in flight, and machine `k` holding nothing. */
  ghost predicate Ready(h: Hub, names: seq<string>, wish: Wish, k: nat) {
    && h.names == names && |h.machines| == |names| && k < |names|
    && IsQueued(h.rows, 1) && h.rows[1].wish == wish
    && k !in h.requests && k !in h.attempts && h.machines[k] == map[]
  }

  lemma AttemptMisses(h: Hub, names: seq<string>, wish: Wish, k: nat)
    requires Ready(h, names, wish, k) && wish.target.None?
    ensures var view := OnlyAt(names, wish.project, k);
            var plan := Plan(k, k, 1, view);
            && Enabled(h, plan) && Enabled(After(h, plan), Lookup(k, None))
            && After(After(h, plan), Lookup(k, None))
               == h.(attempts := h.attempts[k := Attempt(1, k, names[k], [names[k]], view, k, Sent)],
                     requests := h.requests[k := Request(k, Some(QueueKey(1)), Missed)])
  {
    PlacesOnlyAt(names, wish, k);
    var h1 := After(h, Plan(k, k, 1, OnlyAt(names, wish.project, k)));
    assert h1.requests[k] == Request(k, Some(QueueKey(1)), Asked) && h1.machines[k] == map[];
    assert h1.requests[k := Request(k, Some(QueueKey(1)), Missed)] == h.requests[k := Request(k, Some(QueueKey(1)), Missed)];
  }

  lemma AttemptIsLost(h: Hub, k: nat, attempt: Attempt)
    requires k < |h.machines| && h.machines[k] == map[] && attempt.row == 1 && attempt.stage == Sent && IsQueued(h.rows, 1)
    requires k in h.attempts && h.attempts[k] == attempt
    requires k in h.requests && h.requests[k] == Request(k, Some(QueueKey(1)), Missed)
    ensures Enabled(h, Insert(k, 1)) && Enabled(After(h, Insert(k, 1)), Fail(k, "lost"))
    ensures var h' := After(After(h, Insert(k, 1)), Fail(k, "lost"));
            && h'.names == h.names && IsQueued(h'.rows, 1) && h'.rows[1].wish == h.rows[1].wish
            && h'.machines == h.machines[k := map[1 := Some(QueueKey(1))]]
            && h'.attempts == h.attempts - {k} && h'.requests.Keys == h.requests.Keys
  {
  }

  lemma LostAttemptRuns(h: Hub, names: seq<string>, wish: Wish, k: nat)
    requires Ready(h, names, wish, k) && wish.target.None?
    ensures Legal(h, LostAttempt(names, wish, k))
    ensures var h' := Run(h, LostAttempt(names, wish, k));
            && h'.names == names && IsQueued(h'.rows, 1) && h'.rows[1].wish == wish
            && h'.machines == h.machines[k := map[1 := Some(QueueKey(1))]]
            && h'.attempts == h.attempts && h'.requests.Keys == h.requests.Keys + {k}
  {
    var actions := LostAttempt(names, wish, k);
    AttemptMisses(h, names, wish, k);
    var h2 := After(After(h, actions[0]), actions[1]);
    AttemptIsLost(h2, k, h2.attempts[k]);
    assert h2.attempts - {k} == h.attempts;
    Unroll4(h, actions);
  }

  lemma Unroll4(h: Hub, actions: seq<Action>)
    requires |actions| == 4
    requires Enabled(h, actions[0])
    requires var h1 := After(h, actions[0]); Enabled(h1, actions[1])
    requires var h1 := After(h, actions[0]); var h2 := After(h1, actions[1]); Enabled(h2, actions[2])
    requires var h1 := After(h, actions[0]); var h2 := After(h1, actions[1]); var h3 := After(h2, actions[2]); Enabled(h3, actions[3])
    ensures Legal(h, actions)
    ensures Run(h, actions) == After(After(After(After(h, actions[0]), actions[1]), actions[2]), actions[3])
  {
    var h1 := After(h, actions[0]);
    var h2 := After(h1, actions[1]);
    var h3 := After(h2, actions[2]);
    RunCons(h3, actions[3], []);
    RunCons(h2, actions[2], [actions[3]] + []);
    RunCons(h1, actions[1], [actions[2]] + ([actions[3]] + []));
    RunCons(h, actions[0], [actions[1]] + ([actions[2]] + ([actions[3]] + [])));
    assert actions == [actions[0]] + ([actions[1]] + ([actions[2]] + ([actions[3]] + [])));
  }

  lemma RunCons(h: Hub, action: Action, rest: seq<Action>)
    requires Enabled(h, action) && Legal(After(h, action), rest)
    ensures Legal(h, [action] + rest) && Run(h, [action] + rest) == Run(After(h, action), rest)
  {
    assert ([action] + rest)[1..] == rest;
  }

  lemma {:induction false} RunConcat(h: Hub, a: seq<Action>, b: seq<Action>)
    requires Legal(h, a) && Legal(Run(h, a), b)
    ensures Legal(h, a + b) && Run(h, a + b) == Run(Run(h, a), b)
    decreases |a|
  {
    if a == [] {
      assert a + b == b;
    } else {
      RunConcat(After(h, a[0]), a[1..], b);
      assert (a + b)[1..] == a[1..] + b;
    }
  }

  lemma TwoAttemptsRun(h: Hub, names: seq<string>, wish: Wish)
    requires Ready(h, names, wish, 0) && |names| >= 2 && wish.target.None?
    requires 1 !in h.requests && 1 !in h.attempts && h.machines[1] == map[]
    ensures var both := LostAttempt(names, wish, 0) + LostAttempt(names, wish, 1);
            && Legal(h, both)
            && var h' := Run(h, both);
               && 1 in h'.rows && h'.rows[1].wish == wish
               && h'.machines == h.machines[0 := map[1 := Some(QueueKey(1))]][1 := map[1 := Some(QueueKey(1))]]
  {
    LostAttemptRuns(h, names, wish, 0);
    LostAttemptRuns(Run(h, LostAttempt(names, wish, 0)), names, wish, 1);
    RunConcat(h, LostAttempt(names, wish, 0), LostAttempt(names, wish, 1));
  }

  lemma DoublingRun(names: seq<string>, wish: Wish)
    requires wish.target.None? && |names| >= 2
    ensures CanDouble(names, wish)
  {
    var h0, enqueue := Start(names), Enqueue(1, wish);
    var h1 := After(h0, enqueue);
    var first, second := LostAttempt(names, wish, 0), LostAttempt(names, wish, 1);
    TwoAttemptsRun(h1, names, wish);
    RunCons(h0, enqueue, first + second);
    assert Doubles(names, wish, [enqueue] + (first + second), 1, 0, 1, 1, 1);
  }

  lemma OneMachineForEver(names: seq<string>, actions: seq<Action>)
    requires Legal(Start(names), actions)
    ensures |Run(Start(names), actions).machines| == |names|
  {
    StartInv(names);
    RunKeeps(Start(names), actions);
  }

  /**
   The key deduplicates per machine only. Some run leaves one row with tasks on
   two machines exactly when the row names no target and the fleet has a second
   machine.
   */
  lemma DoublesIffUntargeted(names: seq<string>, wish: Wish)
    ensures CanDouble(names, wish) <==> wish.target.None? && |names| >= 2
  {
    if CanDouble(names, wish) {
      var actions, row, m, n, a, b :| Doubles(names, wish, actions, row, m, n, a, b);
      assert Doubles(names, wish, actions, row, m, n, a, b);
      OneMachineForEver(names, actions);
      if wish.target.Some? {
        NamedTargetOnceInTheFleet(names, actions, row, m, a, n, b);
      }
    }
    if wish.target.None? && |names| >= 2 {
      DoublingRun(names, wish);
    }
  }

  // ---- where cancelling does not help ----

  /** Some machine of this fleet could ever be chosen for the wish. */
  predicate CanPlace(names: seq<string>, wish: Wish) {
    if wish.target.None? then names != [] else Home(names, wish.target.value) < |names|
  }

  /** The row is cancelled while its start is in flight; the claim that follows loses, says nothing, and leaves the task. */
  ghost predicate Orphans(
    names: seq<string>, wish: Wish, before: seq<Action>, after: seq<Action>, row: int, attempt: int, m: nat, task: int)
  {
    && Legal(Start(names), before) && Legal(Run(Start(names), before), [Cancel(row)] + after)
    && after != [] && after[|after| - 1] == Claim(attempt)
    && var (h, end) := (Run(Start(names), before), Run(Run(Start(names), before), [Cancel(row)] + after));
       && IsQueued(h.rows, row) && attempt in h.attempts && h.attempts[attempt].row == row && h.attempts[attempt].stage == Sent
       && row in end.rows && end.rows[row].wish == wish && end.rows[row].state == Cancelled
       && attempt !in end.attempts && end.events == h.events
       && m < |end.machines| && Holds(end.machines[m], task, QueueKey(row))
  }

  ghost predicate CanOrphan(names: seq<string>, wish: Wish) {
    exists before, after, row, attempt, m, task :: Orphans(names, wish, before, after, row, attempt, m, task)
  }

  lemma OrphansCanBePlaced(
      names: seq<string>, wish: Wish, before: seq<Action>, after: seq<Action>, row: int, attempt: int, m: nat, task: int)
    requires Orphans(names, wish, before, after, row, attempt, m, task)
    ensures CanPlace(names, wish)
  {
    var rest := [Cancel(row)] + after;
    StartInv(names);
    RunKeeps(Start(names), before);
    RunKeeps(Run(Start(names), before), rest);
    var end := Run(Run(Start(names), before), rest);
    assert (m, task, Some(QueueKey(row))) in end.made;
    assert Allowed(end, row, m);
  }

  /** The machine a wish that can be placed goes to, if it is the one that answers. */
  function Spot(names: seq<string>, wish: Wish): nat {
    if wish.target.None? then 0 else Home(names, wish.target.value)
  }

  lemma PlacesAtItsSpot(names: seq<string>, wish: Wish)
    requires CanPlace(names, wish)
    ensures var k := Spot(names, wish);
            Place(wish, OnlyAt(names, wish.project, k)) == Send(k, names[k], 1, [names[k]])
  {
    if wish.target.None? {
      PlacesOnlyAt(names, wish, 0);
    } else {
      NamesOfView(OnlyAt(names, wish.project, Spot(names, wish)), names);
    }
  }

  /** A fleet that holds nothing, and a hub with one attempt at row 1 in flight to machine `k`. */
  function Sending(names: seq<string>, wish: Wish, k: nat): Hub
    requires k < |names|
  {
    Start(names).(
      rows := map[1 := NewRow(wish, "", None)],
      attempts := map[0 := Attempt(1, k, names[k], [names[k]], OnlyAt(names, wish.project, k), 0, Sent)],
      requests := map[0 := Request(k, Some(QueueKey(1)), Asked)])
  }

  lemma SendingRuns(names: seq<string>, wish: Wish)
    requires CanPlace(names, wish)
    ensures var k := Spot(names, wish);
            var sent := [Enqueue(1, wish)] + ([Plan(0, 0, 1, OnlyAt(names, wish.project, k))] + []);
            Legal(Start(names), sent) && Run(Start(names), sent) == Sending(names, wish, k)
  {
    var k := Spot(names, wish);
    PlacesAtItsSpot(names, wish);
    var h1 := After(Start(names), Enqueue(1, wish));
    var plan := Plan(0, 0, 1, OnlyAt(names, wish.project, k));
    assert h1.rows == map[1 := NewRow(wish, "", None)];
    assert After(h1, plan) == Sending(names, wish, k);
    RunCons(h1, plan, []);
    RunCons(Start(names), Enqueue(1, wish), [plan] + []);
  }

  lemma LookupMisses(h: Hub, k: nat)
    requires k < |h.machines| && h.machines[k] == map[]
    requires h.requests == map[0 := Request(k, Some(QueueKey(1)), Asked)]
    ensures Enabled(h, Lookup(0, None))
    ensures After(h, Lookup(0, None)) == h.(requests := map[0 := Request(k, Some(QueueKey(1)), Missed)])
  {
  }

  lemma InsertMakes(h: Hub, k: nat)
    requires k < |h.machines| && h.machines[k] == map[]
    requires h.requests == map[0 := Request(k, Some(QueueKey(1)), Missed)]
    ensures Enabled(h, Insert(0, 1))
    ensures After(h, Insert(0, 1))
         == h.(requests := map[0 := Request(k, Some(QueueKey(1)), Made(1))],
               machines := h.machines[k := map[1 := Some(QueueKey(1))]], made := h.made + {(k, 1, Some(QueueKey(1)))})
  {
  }

  /** The task is made although nobody wants it any more. */
  lemma MadeAllTheSame(h: Hub, k: nat)
    requires k < |h.machines| && h.machines[k] == map[]
    requires h.requests == map[0 := Request(k, Some(QueueKey(1)), Asked)]
    ensures var made := [Lookup(0, None)] + ([Insert(0, 1)] + ([Provision(0, true, true)] + []));
            && Legal(h, made)
            && var h' := Run(h, made);
               && h'.requests == map[0 := Request(k, Some(QueueKey(1)), Answered(1))]
               && h'.machines == h.machines[k := map[1 := Some(QueueKey(1))]]
               && h'.rows == h.rows && h'.attempts == h.attempts && h'.events == h.events
  {
    LookupMisses(h, k);
    var h1 := h.(requests := map[0 := Request(k, Some(QueueKey(1)), Missed)]);
    InsertMakes(h1, k);
    var h2 := After(h1, Insert(0, 1));
    var h3 := After(h2, Provision(0, true, true));
    assert h3.requests == map[0 := Request(k, Some(QueueKey(1)), Answered(1))];
    RunCons(h2, Provision(0, true, true), []);
    RunCons(h1, Insert(0, 1), [Provision(0, true, true)] + []);
    RunCons(h, Lookup(0, None), [Insert(0, 1)] + ([Provision(0, true, true)] + []));
  }

  /** Its answer comes back to a claim that loses. */
  lemma ClaimLoses(h: Hub, k: nat, attempt: Attempt)
    requires h.attempts == map[0 := attempt] && attempt.row == 1 && attempt.request == 0 && attempt.stage == Sent
    requires h.requests == map[0 := Request(k, Some(QueueKey(1)), Answered(1))] && !IsQueued(h.rows, 1)
    ensures var claimed := [Reply(0)] + ([Claim(0)] + []);
            && Legal(h, claimed)
            && var h' := Run(h, claimed);
               h'.attempts == map[] && h'.rows == h.rows && h'.machines == h.machines && h'.events == h.events
  {
    var h1 := After(h, Reply(0));
    assert h1.attempts == map[0 := attempt.(stage := Replied(1))];
    var h2 := After(h1, Claim(0));
    assert h2.attempts == map[];
    RunCons(h1, Claim(0), []);
    RunCons(h, Reply(0), [Claim(0)] + []);
  }

  /** From the cancel on. */
  function Unwanted(): seq<Action> {
    [Lookup(0, None)] + ([Insert(0, 1)] + ([Provision(0, true, true)] + [])) + ([Reply(0)] + ([Claim(0)] + []))
  }

  lemma UnwantedRuns(names: seq<string>, wish: Wish, k: nat)
    requires k < |names|
    ensures var h := Sending(names, wish, k);
            && Legal(h, [Cancel(1)] + Unwanted())
            && var end := Run(h, [Cancel(1)] + Unwanted());
               && end.rows == Withdrawn(h.rows, 1) && end.attempts == map[] && end.events == h.events
               && end.machines == h.machines[k := map[1 := Some(QueueKey(1))]]
  {
    var h := Sending(names, wish, k);
    var h1 := After(h, Cancel(1));
    MadeAllTheSame(h1, k);
    var made := [Lookup(0, None)] + ([Insert(0, 1)] + ([Provision(0, true, true)] + []));
    ClaimLoses(Run(h1, made), k, h.attempts[0]);
    RunConcat(h1, made, [Reply(0)] + ([Claim(0)] + []));
    RunCons(h, Cancel(1), Unwanted());
  }

  lemma OrphaningRun(names: seq<string>, wish: Wish)
    requires CanPlace(names, wish)
    ensures CanOrphan(names, wish)
  {
    var k := Spot(names, wish);
    SendingRuns(names, wish);
    UnwantedRuns(names, wish, k);
    var sent := [Enqueue(1, wish)] + ([Plan(0, 0, 1, OnlyAt(names, wish.project, k))] + []);
    assert Holds(map[1 := Some(QueueKey(1))], 1, QueueKey(1));
    assert Orphans(names, wish, sent, Unwanted(), 1, 0, k, 1);
  }

  /**
   A row can be cancelled while its start is in flight, and the task is then made
   for nobody, exactly when the row could be placed at all, targeted or not.
   */
  lemma CancelLeavesTheTask(names: seq<string>, wish: Wish)
    ensures CanOrphan(names, wish) <==> CanPlace(names, wish)
  {
    if CanOrphan(names, wish) {
      var before, after, row, attempt, m, task :| Orphans(names, wish, before, after, row, attempt, m, task);
      assert Orphans(names, wish, before, after, row, attempt, m, task);
      OrphansCanBePlaced(names, wish, before, after, row, attempt, m, task);
    }
    if CanPlace(names, wish) {
      OrphaningRun(names, wish);
    }
  }
}
