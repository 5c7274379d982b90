/**
 * Saving online records and acknowledging them. Every event is one piece of code between two awaits
 * of one coroutine, so a run is any interleaving of the notification worker, the summary ACK tasks,
 * the GATT executor, storage completions, faults and session changes.
 */
module OnlineAckSpec {
  import opened Wrappers

  datatype RecordType = Raw | Motion | Stress | Summary | Unsupported

  /** A record whose save finished, with the epoch and session in which it did. */
  datatype Saved = Saved(id: nat, kind: RecordType, epoch: nat, session: Option<nat>)

  /** `_online_fault_reason` empty, set with `_online_fault_can_drain`, and set without it. */
  datatype Fault = NoFault | Draining | Closed

  /** The values `_send_online_record_ack` captures before its first await, and the batch of a full ACK. */
  datatype Send = Send(names: seq<Saved>, client: nat, token: nat, epoch: nat, session: nat, batch: nat)

  /** A GATT operation that goes on without its coroutine, before its first or before its second write. */
  datatype Orphan = Orphan(send: Send, second: bool)

  datatype Phase =
    | Sleeping
    | AtLock(send: Send)
    | Queued(send: Send)
    | Popped(send: Send)   // the executor has taken the operation; from here on it outlives its coroutine
    | Writing(send: Send, second: bool)
    | Returned(send: Send)
    | Noting(send: Send, skipped: bool)
    | Finished(orphan: Option<Orphan>)

  datatype TaskKind = Direct | Full | PartialOnce | PartialLoop
  datatype Task = Task(kind: TaskKind, cancelled: bool, phase: Phase)

  datatype Worker = Idle | Saving(id: nat, kind: RecordType, epoch: nat, client: nat) | Acking(task: nat)

  /** One write of an ONLINE_RECORD_ACK; `savedBefore` saves had finished when it was issued. */
  datatype Ack = Ack(task: nat, recordId: nat, count: nat, names: seq<Saved>, epoch: nat, session: nat,
                     savedBefore: nat)

  /** One deletion of summaries from the pending list by a full-ACK task. */
  datatype Release = Release(task: nat, names: seq<Saved>, skipped: bool)

  datatype State = State(
    epoch: nat, session: Option<nat>, client: nat, up: bool, token: nat,
    active: bool, batch: nat, fault: Fault, worker: Worker,
    pending: seq<Saved>, tasks: seq<Task>, fullRef: Option<nat>, partialRef: Option<nat>,
    // what has happened so far; the pending list was last emptied after `mark` saves, before all `releases`
    saved: seq<Saved>, acks: seq<Ack>, mark: nat, releases: seq<Release>)

  const DEFAULT_BATCH := 1

  function Initial(): State {
    State(0, None, 0, false, 0, false, DEFAULT_BATCH, NoFault, Idle, [], [], None, None, [], [], 0, [])
  }

  predicate Done(t: Task) {
    t.phase.Finished?
  }

  predicate LiveTask(s: State, t: nat) {
    t < |s.tasks| && !s.tasks[t].cancelled && !Done(s.tasks[t])
  }

  /** The guard of the write, and the check once the write has returned. */
  predicate Current(s: State, send: Send) {
    s.client == send.client && s.epoch == send.epoch && s.session == Some(send.session)
  }

  /** What lets an operation write: its guard, and a connection token that makes the executor keep it. */
  predicate Writable(s: State, send: Send) {
    Current(s, send) && s.token == send.token
  }

  function SetPhase(s: State, t: nat, phase: Phase): State
    requires t < |s.tasks|
  {
    s.(tasks := s.tasks[t := s.tasks[t].(phase := phase)])
  }

  function Spawn(s: State, kind: TaskKind): State {
    s.(tasks := s.tasks + [Task(kind, false, Sleeping)])
  }

  // ----- summary ACK tasks -----

  predicate RefRuns(s: State, ref: Option<nat>) {
    ref.Some? && ref.value < |s.tasks| && !Done(s.tasks[ref.value])
  }

  /** `_schedule_online_summary_full_ack`. */
  function ScheduleFull(s: State): State {
    if RefRuns(s, s.fullRef) then s else Spawn(s, Full).(fullRef := Some(|s.tasks|))
  }

  /** `_schedule_online_summary_partial_ack(force=True)`. */
  function SchedulePartial(s: State): State {
    if s.pending == [] then s
    else if |s.pending| >= s.batch then ScheduleFull(s)
    else if RefRuns(s, s.partialRef) then Spawn(s, PartialOnce)
    else Spawn(s, PartialLoop).(partialRef := Some(|s.tasks|))
  }

  function CancelTask(tasks: seq<Task>, ref: Option<nat>): (r: seq<Task>)
    ensures |r| == |tasks|
  {
    if ref.Some? && ref.value < |tasks| && !Done(tasks[ref.value])
    then tasks[ref.value := tasks[ref.value].(cancelled := true)] else tasks
  }

  /** `_cancel_online_summary_ack_tasks`: a cancelled coroutine learns of it when it runs next. */
  function CancelSummaryTasks(s: State): State {
    s.(tasks := CancelTask(CancelTask(s.tasks, s.fullRef), s.partialRef), fullRef := None, partialRef := None)
  }

  function EmptyPending(s: State): State {
    s.(pending := [], mark := |s.saved|, releases := [])
  }

  // ----- faults and session changes -----

  /** `_handle_online_error`. */
  function OnlineFailed(s: State): State {
    CancelSummaryTasks(EmptyPending(s.(active := false))).(epoch := s.epoch + 1)
  }

  /** `_begin_online_fault`: only `ack_metadata_exhausted` leaves the session draining. */
  function BeginFault(s: State, metadata: bool): State {
    if s.fault != NoFault then if metadata then s else s.(fault := Closed)
    else if metadata then s.(fault := Draining)
    else OnlineFailed(s.(fault := Closed))
  }

  function Started(s: State, session: nat, batch: nat): State {
    EmptyPending(CancelSummaryTasks(s.(epoch := s.epoch + 1))).(
      fault := NoFault, active := true, session := Some(session),
      batch := if batch == 0 then DEFAULT_BATCH else batch)
  }

  function ControlCleared(s: State): State {
    EmptyPending(CancelSummaryTasks(s.(epoch := s.epoch + 1))).(
      fault := NoFault, active := false, session := None, batch := DEFAULT_BATCH)
  }

  // ----- sending -----

  /** How a call of `_send_online_record_ack` ended: its result, or a CancelledError. */
  datatype Outcome = Sent | NotSent | Interrupted

  /** What the coroutine does with the outcome, up to its next await or its end. */
  function Conclude(s: State, t: nat, send: Send, skipped: bool, outcome: Outcome): State
    requires t < |s.tasks|
  {
    match s.tasks[t].kind
    case Direct => SetPhase(s, t, Finished(None)).(worker := if s.worker == Acking(t) then Idle else s.worker)
    case PartialOnce => SetPhase(s, t, Finished(None))
    case PartialLoop =>
      if outcome == Interrupted then SetPhase(s, t, Finished(None)).(partialRef := None) else SetPhase(s, t, Sleeping)
    case Full =>
      if outcome != Sent then SetPhase(s, t, Finished(None)).(fullRef := None)
      else
        var n := if |send.names| <= |s.pending| then |send.names| else |s.pending|;
        var freed := SetPhase(s, t, Finished(None)).(
          pending := s.pending[n..], fullRef := None,
          releases := s.releases + [Release(t, send.names, skipped)]);
        if |freed.pending| >= send.batch then ScheduleFull(freed) else freed
  }

  /** `_send_online_record_ack` up to the control lock. */
  function BeginSend(s: State, t: nat, names: seq<Saved>): State
    requires t < |s.tasks| && names != []
  {
    if !s.active || s.session == None || !s.up
    then Conclude(s, t, Send(names, s.client, s.token, s.epoch, 0, s.batch), false, NotSent)
    else SetPhase(s, t, AtLock(Send(names, s.client, s.token, s.epoch, s.session.value, s.batch)))
  }

  /** A task whose sleep is over. */
  function Woken(s: State, t: nat): State
    requires t < |s.tasks|
  {
    match s.tasks[t].kind
    case Direct => s
    case Full =>
      var n := if s.batch <= |s.pending| then s.batch else |s.pending|;
      if n == 0 then SetPhase(s, t, Finished(None)).(fullRef := None) else BeginSend(s, t, s.pending[..n])
    case PartialOnce =>
      if s.pending == [] || |s.pending| >= s.batch then SetPhase(s, t, Finished(None)) else BeginSend(s, t, s.pending)
    case PartialLoop =>
      if s.pending == [] || |s.pending| >= s.batch then SetPhase(s, t, Finished(None)).(partialRef := None)
      else BeginSend(s, t, s.pending)
  }

  /** Inside the control lock: a lost link or a moved token returns without an exception. */
  function LockTaken(s: State, t: nat, send: Send): State
    requires t < |s.tasks|
  {
    if s.token == send.token && s.up && Current(s, send) then SetPhase(s, t, Queued(send))
    else if Current(s, send) then SetPhase(s, t, Noting(send, true))
    else Conclude(s, t, send, true, NotSent)
  }

  function Written(s: State, t: nat, send: Send): State
    requires send.names != []
  {
    s.(acks := s.acks + [Ack(t, send.names[|send.names| - 1].id, |send.names|, send.names, send.epoch, send.session,
                             |s.saved|)])
  }

  /** The executor reaches a write: the guard is read in the same step. */
  function TryWrite(s: State, t: nat): State
    requires t < |s.tasks|
  {
    var task := s.tasks[t];
    match task.phase
    case Popped(send) =>
      if send.names == [] then s
      else if Writable(s, send) then SetPhase(Written(s, t, send), t, Writing(send, false))
      else if task.cancelled then s   // a guard that fails once fails for good
      else Conclude(s, t, send, false, Interrupted)
    case Writing(send, second) =>
      if second || send.names == [] then s
      else if Writable(s, send) then SetPhase(Written(s, t, send), t, Writing(send, true))
      else if task.cancelled then SetPhase(s, t, Writing(send, true))
      else Conclude(s, t, send, false, Interrupted)
    case Finished(Some(rest)) =>
      if rest.send.names != [] && Writable(s, rest.send)
      then SetPhase(Written(s, t, rest.send), t, Finished(if rest.second then None else Some(rest.(second := true))))
      else SetPhase(s, t, Finished(None))
    case _ => s
  }

  /** What the executor still has to do for a coroutine that ends now. */
  function Remainder(p: Phase): Option<Orphan> {
    match p
    case Popped(send) => Some(Orphan(send, false))
    case Writing(send, second) => if second then None else Some(Orphan(send, true))
    case _ => None
  }

  /** The `finally` of a cancelled task: it clears the reference, whichever task that names by now. */
  function CancelledTaskRuns(s: State, t: nat): State
    requires t < |s.tasks|
  {
    var task := s.tasks[t];
    var ended := SetPhase(s, t, Finished(Remainder(task.phase)));
    match task.kind
    case Full => ended.(fullRef := None)
    case PartialLoop => ended.(partialRef := None)
    case _ => ended
  }

  // ----- the notification worker -----

  /** A record is acknowledged at once, or put on the pending list. */
  function AfterSave(s: State, r: Saved): State {
    if r.kind == Unsupported then OnlineFailed(s.(worker := Idle))
    else if r.kind == Summary && s.batch > 1 then
      var queued := s.(worker := Idle, pending := s.pending + [r]);
      if |queued.pending| >= s.batch then ScheduleFull(queued) else queued
    else BeginSend(Spawn(s, Direct).(worker := Acking(|s.tasks|)), |s.tasks|, [r])
  }

  /** The worker resumes after `save_record`; another epoch or client makes it give up. */
  function SaveCompleted(s: State, ok: bool): State
    requires s.worker.Saving?
  {
    var w := s.worker;
    if w.epoch != s.epoch || w.client != s.client then s.(worker := Idle)
    else if !ok then BeginFault(s.(worker := Idle), false)
    else
      var r := Saved(w.id, w.kind, s.epoch, s.session);
      AfterSave(s.(saved := s.saved + [r]), r)
  }

  function WorkerCancelled(s: State): State {
    match s.worker
    case Acking(t) =>
      if t < |s.tasks| && !Done(s.tasks[t])
      then s.(worker := Idle, tasks := s.tasks[t := s.tasks[t].(cancelled := true)]) else s.(worker := Idle)
    case _ => s.(worker := Idle)
  }

  // ----- runs -----

  datatype Event =
    | Deliver(id: nat, kind: RecordType, admitted: bool)
    | SaveDone(ok: bool)
    | CancelWorker
    | Wake(task: nat)
    | LockGranted(task: nat)
    | GattPopped(task: nat)
    | GattWrite(task: nat)
    | GattReturned(task: nat)
    | GattFailed(task: nat)
    | GattCancelled(task: nat)
    | SendResumed(task: nat)
    | NoteDone(task: nat)
    | CancelRuns(task: nat)
    | MetadataExhausted
    | OtherFault
    | FaultSettled
    | DeviceAborted
    | StartFrame(newSession: nat, ackBatch: nat)
    | EndFrame
    | StartRefused
    | StartTimedOut
    | PartialRequested
    | DisconnectBegins
    | ClearControl
    | LinkChanged(isUp: bool)
    | ClientReplaced
    | TokenMoved

  /** One piece of code; an event whose coroutine is not at that point changes nothing. */
  function Next(s: State, e: Event): State {
    match e
    case Deliver(id, kind, admitted) =>
      if s.worker != Idle || !s.active || s.fault == Closed then s
      else if admitted then s.(worker := Saving(id, kind, s.epoch, s.client))
      else BeginFault(s, false)
    case SaveDone(ok) => if s.worker.Saving? then SaveCompleted(s, ok) else s
    case CancelWorker => WorkerCancelled(s)
    case Wake(t) => if LiveTask(s, t) && s.tasks[t].phase.Sleeping? then Woken(s, t) else s
    case LockGranted(t) =>
      if LiveTask(s, t) && s.tasks[t].phase.AtLock? then LockTaken(s, t, s.tasks[t].phase.send) else s
    case GattPopped(t) =>
      if LiveTask(s, t) && s.tasks[t].phase.Queued? && s.token == s.tasks[t].phase.send.token
      then SetPhase(s, t, Popped(s.tasks[t].phase.send)) else s
    case GattWrite(t) => if t < |s.tasks| then TryWrite(s, t) else s
    case GattReturned(t) =>
      if LiveTask(s, t) && s.tasks[t].phase.Writing? then SetPhase(s, t, Returned(s.tasks[t].phase.send)) else s
    case GattFailed(t) =>
      if LiveTask(s, t) && s.tasks[t].phase.Writing? && s.tasks[t].phase.second
      then Conclude(s, t, s.tasks[t].phase.send, false, NotSent) else s
    case GattCancelled(t) =>
      if LiveTask(s, t) && (s.tasks[t].phase.Queued? || s.tasks[t].phase.Popped? || s.tasks[t].phase.Writing?)
      then Conclude(s, t, s.tasks[t].phase.send, false, Interrupted) else s
    case SendResumed(t) =>
      if !(LiveTask(s, t) && s.tasks[t].phase.Returned?) then s
      else if Current(s, s.tasks[t].phase.send) then SetPhase(s, t, Noting(s.tasks[t].phase.send, false))
      else Conclude(s, t, s.tasks[t].phase.send, false, NotSent)
    case NoteDone(t) =>
      if !(LiveTask(s, t) && s.tasks[t].phase.Noting?) then s
      else
        var p := s.tasks[t].phase;
        Conclude(s, t, p.send, p.skipped,
                 if s.epoch == p.send.epoch && s.client == p.send.client then Sent else Interrupted)
    case CancelRuns(t) =>
      if t < |s.tasks| && s.tasks[t].cancelled && !Done(s.tasks[t]) then CancelledTaskRuns(s, t) else s
    case MetadataExhausted => BeginFault(s, true)
    case OtherFault => BeginFault(s, false)
    case FaultSettled => if s.active then s else s.(fault := NoFault)   // the terminal event ends the session first
    case DeviceAborted => OnlineFailed(s)
    case StartFrame(session, batch) =>
      if s.worker != Idle || s.fault != NoFault then s else Started(s, session, batch)
    case EndFrame =>
      if s.worker != Idle || s.fault == Closed then s
      else CancelSummaryTasks(EmptyPending(s))
    case StartRefused => s.(active := false, session := None)
    case StartTimedOut => s.(active := false)
    case PartialRequested => SchedulePartial(s)
    case DisconnectBegins => WorkerCancelled(s).(epoch := s.epoch + 1)
    case ClearControl => ControlCleared(WorkerCancelled(s))
    case LinkChanged(isUp) => s.(up := isUp)
    case ClientReplaced => s.(client := s.client + 1)
    case TokenMoved => s.(token := s.token + 1)
  }

  function Run(s: State, es: seq<Event>): State
    decreases |es|
  {
    if es == [] then s else Next(Run(s, es[..|es| - 1]), es[|es| - 1])
  }
}
