/** The `tasks` table of one machine, and creating a task so that a retry is safe. */
module TaskStore {
  import opened Options

  /** Each task by id, with the key that names the attempt that made it. */
  type Tasks = map<int, Option<string>>

  /** The unique index on keys that are not null. */
  ghost predicate KeysUnique(tasks: Tasks) {
    forall a, b :: a in tasks && b in tasks && tasks[a].Some? && tasks[a] == tasks[b] ==> a == b
  }

  predicate Holds(tasks: Tasks, id: int, key: string) {
    id in tasks && tasks[id] == Some(key)
  }

  predicate HasKey(tasks: Tasks, key: string) {
    exists id :: id in tasks && Holds(tasks, id, key)
  }

  /** Whether the table takes a row with this key. */
  predicate Admits(tasks: Tasks, key: Option<string>) {
    key.Some? ==> !HasKey(tasks, key.value)
  }

  lemma InsertKeepsUnique(tasks: Tasks, id: int, key: Option<string>)
    requires KeysUnique(tasks) && id !in tasks && Admits(tasks, key)
    ensures KeysUnique(tasks[id := key])
  {
    forall a | a in tasks && key.Some? && tasks[a] == key ensures false {
      assert Holds(tasks, a, key.value);
    }
  }

  predicate Beyond(tasks: Tasks, id: int) {
    id > 0 && forall t :: t in tasks ==> t < id
  }

  lemma {:induction false} Bounded(ids: set<int>) returns (top: int)
    ensures top >= 0 && forall id :: id in ids ==> id <= top
  {
    if x :| x in ids {
      var rest := Bounded(ids - {x});
      assert forall id :: id in ids ==> id == x || id in ids - {x};
      top := if x > rest then x else rest;
    } else {
      top := 0;
    }
  }

  class TaskStore {
    var tasks: Tasks

    constructor ()
      ensures tasks == map[]
    {
      tasks := map[];
    }

    method TaskByKey(key: string) returns (found: Option<int>)
      ensures found.Some? ==> Holds(tasks, found.value, key)
      ensures found.None? ==> !HasKey(tasks, key)
    {
      if id :| id in tasks && Holds(tasks, id, key) {
        found := Some(id);
      } else {
        found := None;
      }
    }

    /** Inserts beyond every id in use, or refuses a key that is already there. */
    method CreateTask(key: Option<string>) returns (id: Option<int>)
      requires KeysUnique(tasks)
      modifies this
      ensures KeysUnique(tasks)
      ensures id.None? ==> tasks == old(tasks) && !Admits(tasks, key)
      ensures id.Some? ==> id.value !in old(tasks) && tasks == old(tasks)[id.value := key] && Admits(old(tasks), key)
    {
      if key.Some? {
        var held := TaskByKey(key.value);
        if held.Some? {
          return None;
        }
      }
      ghost var top := Bounded(tasks.Keys);
      assert Beyond(tasks, top + 1);
      var next: int :| Beyond(tasks, next);
      assert Beyond(tasks, next) && next !in tasks;
      InsertKeepsUnique(tasks, next, key);
      tasks := tasks[next := key];
      id := Some(next);
    }

    method DeleteTask(id: int)
      requires KeysUnique(tasks)
      modifies this
      ensures KeysUnique(tasks) && tasks == old(tasks) - {id}
    {
      tasks := tasks - {id};
    }
  }

  /** Which tasks have a worktree on disk. */
  class Disk {
    var worktrees: set<int>
  }

  /** What a request asks for, and what looking it up finds. */
  datatype CreateRequest = CreateRequest(titled: bool, adapterLoaded: bool, key: Option<string>, projectKnown: bool, baseExists: bool, worktree: bool)

  /** How provisioning ends: not at all, with a worktree nobody recorded, or recorded and announced. */
  datatype Provisioned = NoWorktree | Unrecorded | Attached

  /** What goes right when it does not: removing the worktree, deleting the row. */
  datatype CleanUp = CleanUp(worktree: bool, row: bool)

  datatype Created = Existing(task: int) | Fresh(task: int) | Refused

  predicate WellFormed(request: CreateRequest) {
    request.titled && request.adapterLoaded
  }

  predicate Accepted(request: CreateRequest) {
    WellFormed(request) && request.projectKnown && request.baseExists
  }

  predicate Provides(request: CreateRequest, provision: Provisioned) {
    request.worktree ==> provision.Attached?
  }

  /** Rows stay, and those that are new have keys others created under. */
  ghost predicate OnlyOthers(before: Tasks, after: Tasks, keys: seq<Option<string>>) {
    && (forall id :: id in before ==> id in after && after[id] == before[id])
    && (forall id :: id in after && id !in before ==> after[id] in keys)
  }

  /** Others create tasks while a request waits. */
  method OthersCreate(store: TaskStore, keys: seq<Option<string>>)
    requires KeysUnique(store.tasks)
    modifies store
    ensures KeysUnique(store.tasks) && OnlyOthers(old(store.tasks), store.tasks, keys)
  {
    for i := 0 to |keys|
      invariant KeysUnique(store.tasks) && OnlyOthers(old(store.tasks), store.tasks, keys)
    {
      var id := store.CreateTask(keys[i]);
    }
  }

  lemma OthersHaveNotTheKey(before: Tasks, after: Tasks, keys: seq<Option<string>>, key: Option<string>)
    requires OnlyOthers(before, after, keys) && Admits(before, key) && (key.Some? ==> key !in keys)
    ensures Admits(after, key)
  {
    forall id | id in after && key.Some? ensures !Holds(after, id, key.value) {
      assert id in before ==> !Holds(before, id, key.value);
    }
  }

  lemma KeyGoesWithItsRow(tasks: Tasks, id: int)
    requires KeysUnique(tasks) && id in tasks && tasks[id].Some?
    ensures !Admits(tasks, tasks[id]) && Admits(tasks - {id}, tasks[id])
  {
    assert Holds(tasks, id, tasks[id].value);
  }

  /** Removes what there is of a worktree, and the row. */
  method RollBack(store: TaskStore, disk: Disk, task: int, cleanUp: CleanUp)
    requires KeysUnique(store.tasks)
    modifies store, disk
    ensures KeysUnique(store.tasks)
    ensures store.tasks == if cleanUp.row then old(store.tasks) - {task} else old(store.tasks)
    ensures disk.worktrees == if cleanUp.worktree then old(disk.worktrees) - {task} else old(disk.worktrees)
  {
    if task in disk.worktrees && cleanUp.worktree {
      disk.worktrees := disk.worktrees - {task};
    }
    if cleanUp.row {
      store.DeleteTask(task);
    }
  }

  /** Gives a task just inserted its worktree, or takes both away again. */
  method ProvisionOrRollBack(store: TaskStore, disk: Disk, task: int, during: seq<Option<string>>, provision: Provisioned, cleanUp: CleanUp)
    returns (ok: bool)
    requires KeysUnique(store.tasks) && task in store.tasks
    modifies store, disk
    ensures KeysUnique(store.tasks) && ok == provision.Attached?
    ensures var others := old(store.tasks) - {task};
            OnlyOthers(others, if ok || !cleanUp.row then store.tasks - {task} else store.tasks, during)
    ensures ok || !cleanUp.row ==> task in store.tasks && store.tasks[task] == old(store.tasks)[task]
    ensures !ok && cleanUp.row ==> task !in store.tasks && Admits(store.tasks, old(store.tasks)[task])
    ensures ok ==> disk.worktrees == old(disk.worktrees) + {task}
    ensures !ok && cleanUp.worktree ==> disk.worktrees == old(disk.worktrees) - {task}
  {
    OthersCreate(store, during);
    if store.tasks[task].Some? {
      KeyGoesWithItsRow(store.tasks, task);
    }
    if !provision.NoWorktree? {
      disk.worktrees := disk.worktrees + {task};
    }
    if !provision.Attached? {
      RollBack(store, disk, task, cleanUp);
    }
    ok := provision.Attached?;
  }

  /**
   `POST /tasks`. Others create tasks of their own while the base branch is
   looked up, and again while the worktree is made. Never two tasks for a key;
   what is answered has it; and a refused request leaves nothing of its own
   behind, except, exactly, when undoing the row fails, or announcing a task
   that is complete.
   */
  method Create(store: TaskStore, disk: Disk, request: CreateRequest, before: seq<Option<string>>, during: seq<Option<string>>,
                provision: Provisioned, cleanUp: CleanUp, announced: bool)
    returns (answer: Created)
    requires KeysUnique(store.tasks)
    modifies store, disk
    ensures KeysUnique(store.tasks)
    ensures !WellFormed(request) ==> answer.Refused?
    ensures WellFormed(request) && !Admits(old(store.tasks), request.key) ==> answer.Existing?
    ensures !WellFormed(request) || !Admits(old(store.tasks), request.key) ==>
              store.tasks == old(store.tasks) && disk.worktrees == old(disk.worktrees)
    ensures !answer.Refused? ==> answer.task in store.tasks && store.tasks[answer.task] == request.key
    ensures answer.Existing? ==> request.key.Some? && !Admits(old(store.tasks), request.key)
    ensures answer.Fresh? ==>
              && Accepted(request) && Provides(request, provision) && announced
              && answer.task !in old(store.tasks) && OnlyOthers(old(store.tasks), store.tasks - {answer.task}, before + during)
              && disk.worktrees == old(disk.worktrees) + if request.worktree then {answer.task} else {}
    ensures Accepted(request) && Admits(old(store.tasks), request.key) && (request.key.Some? ==> request.key !in before) ==>
              (answer.Fresh? <==> Provides(request, provision) && announced)
    ensures answer.Refused? && (Provides(request, provision) ==> announced) && (!Provides(request, provision) ==> cleanUp.row) ==>
              OnlyOthers(old(store.tasks), store.tasks, before + during)
    ensures answer.Refused? && Accepted(request) && request.key.Some? && request.key !in before + during ==>
              (Admits(store.tasks, request.key) <==> !Provides(request, provision) && cleanUp.row)
    ensures answer.Refused? && !Provides(request, provision) && cleanUp.worktree ==> disk.worktrees <= old(disk.worktrees)
  {
    if !request.titled || !request.adapterLoaded {
      return Refused;
    }
    if request.key.Some? {
      var existing := store.TaskByKey(request.key.value);
      if existing.Some? {
        return Existing(existing.value);
      }
    }
    if !request.projectKnown {
      return Refused;
    }
    OthersCreate(store, before);
    if !request.baseExists {
      return Refused;
    }
    if request.key.Some? && request.key !in before {
      OthersHaveNotTheKey(old(store.tasks), store.tasks, before, request.key);
    }
    var made := store.CreateTask(request.key);
    if made.None? {
      return Refused;
    }
    var task := made.value;
    if request.key.Some? {
      KeyGoesWithItsRow(store.tasks, task);
    }
    if request.worktree {
      var provisioned := ProvisionOrRollBack(store, disk, task, during, provision, cleanUp);
      if !provisioned {
        return Refused;
      }
    }
    if !announced {
      return Refused;
    }
    answer := Fresh(task);
  }
}
