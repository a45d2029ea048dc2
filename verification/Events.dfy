/** What the daemon announces on the bus, and which task and session each event is about. */
module Events {
  import opened Options

  datatype AgentStatus = Idle | Working | Waiting | Error | Stopped

  datatype StopReason = Requested | Exited | Vanished

  datatype ForgeEvent =
    | ProjectRegistered(project: int, name: string, path: string)
    | ProjectRemoved(project: int)
    | TaskCreated(task: int, project: int, title: string)
    | TaskDeleted(task: int)
    | TaskFinished(task: int, session: int)
    | SessionStarted(task: int, session: int, tmuxName: string)
    | SessionStopped(task: int, session: int, reason: StopReason)
    | StatusChanged(task: int, session: int, from: AgentStatus, to: AgentStatus)
    | AgentWaiting(task: int, session: int, tail: string)
    | AgentError(task: int, session: int, detail: string)
    | WorktreeCreated(task: int, path: string, branch: string)
    | WorktreeRemoved(task: int, path: string)
    | PrOpened(task: int, number: int, url: string)
    | PrMerged(task: int, number: int, url: string)
    | PrClosed(task: int, number: int, url: string)
    | ChecksPassed(task: int, number: int, url: string)
    | ChecksFailed(task: int, number: int, url: string)
    | TaskQueued(queued: int, projectName: string, title: string, target: Option<string>)
    | TaskDispatched(queued: int, machine: string, remoteTask: int, considered: seq<string>)
    | DispatchFailed(queued: int, machine: string, detail: string)
  {
    /** The `task_id` column. The hub's own events name no task of this daemon. */
    function TaskId(): Option<int> {
      match this
      case ProjectRegistered(_, _, _) => None
      case ProjectRemoved(_) => None
      case TaskQueued(_, _, _, _) => None
      case TaskDispatched(_, _, _, _) => None
      case DispatchFailed(_, _, _) => None
      case _ => Some(task)
    }

    /** The `session_id` column. */
    function SessionId(): Option<int> {
      match this
      case TaskFinished(_, session) => Some(session)
      case SessionStarted(_, session, _) => Some(session)
      case SessionStopped(_, session, _) => Some(session)
      case StatusChanged(_, session, _, _) => Some(session)
      case AgentWaiting(_, session, _) => Some(session)
      case AgentError(_, session, _) => Some(session)
      case _ => None
    }
  }

  /** What each kind of event carries: the task it is about, if it is about one of this daemon's. */
  predicate IsAbout(event: ForgeEvent, id: int) {
    match event
    case ProjectRegistered(_, _, _) => false
    case ProjectRemoved(_) => false
    case TaskCreated(task, _, _) => task == id
    case TaskDeleted(task) => task == id
    case TaskFinished(task, _) => task == id
    case SessionStarted(task, _, _) => task == id
    case SessionStopped(task, _, _) => task == id
    case StatusChanged(task, _, _, _) => task == id
    case AgentWaiting(task, _, _) => task == id
    case AgentError(task, _, _) => task == id
    case WorktreeCreated(task, _, _) => task == id
    case WorktreeRemoved(task, _) => task == id
    case PrOpened(task, _, _) => task == id
    case PrMerged(task, _, _) => task == id
    case PrClosed(task, _, _) => task == id
    case ChecksPassed(task, _, _) => task == id
    case ChecksFailed(task, _, _) => task == id
    case TaskQueued(_, _, _, _) => false
    case TaskDispatched(_, _, _, _) => false
    case DispatchFailed(_, _, _) => false
  }

  /** The session it is about, likewise. */
  predicate IsOf(event: ForgeEvent, id: int) {
    match event
    case TaskFinished(_, session) => session == id
    case SessionStarted(_, session, _) => session == id
    case SessionStopped(_, session, _) => session == id
    case StatusChanged(_, session, _, _) => session == id
    case AgentWaiting(_, session, _) => session == id
    case AgentError(_, session, _) => session == id
    case ProjectRegistered(_, _, _) => false
    case ProjectRemoved(_) => false
    case TaskCreated(_, _, _) => false
    case TaskDeleted(_) => false
    case WorktreeCreated(_, _, _) => false
    case WorktreeRemoved(_, _) => false
    case PrOpened(_, _, _) => false
    case PrMerged(_, _, _) => false
    case PrClosed(_, _, _) => false
    case ChecksPassed(_, _, _) => false
    case ChecksFailed(_, _, _) => false
    case TaskQueued(_, _, _, _) => false
    case TaskDispatched(_, _, _, _) => false
    case DispatchFailed(_, _, _) => false
  }

  /** The two columns say, of every kind of event, what it carries. */
  lemma ColumnsAre(event: ForgeEvent, id: int)
    ensures event.TaskId() == Some(id) <==> IsAbout(event, id)
    ensures event.SessionId() == Some(id) <==> IsOf(event, id)
  {
  }

  /** A persisted event. Its timestamp decides nothing and is not modelled. */
  datatype EventRecord = EventRecord(id: int, event: ForgeEvent)
}
