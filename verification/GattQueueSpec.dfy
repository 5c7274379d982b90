/**
 * The GATT executor as an interleaving of atomic steps: code between two awaits runs undisturbed.
 * A future is named by the sequence number of the submission that created it.
 */
module GattQueueSpec {
  import opened Wrappers

  datatype Queued = Queued(priority: nat, sequence: nat, token: Option<nat>)

  /** The heap order of `_QueuedGattOperation`: priority, then submission number. */
  predicate Less(a: Queued, b: Queued) {
    a.priority < b.priority || (a.priority == b.priority && a.sequence < b.sequence)
  }

  datatype Future = Pending | HasResult(value: int) | HasException | WasCancelled

  /** How an operation's coroutine ends. */
  datatype Outcome = Returned(value: int) | Raised | Aborted

  /** A task is created, scheduled, and starts its body only in a later turn of the event loop. */
  datatype Phase = Created | Running | Finished(outcome: Outcome)

  datatype ActiveTask = ActiveTask(queued: Queued, phase: Phase, cancelRequested: bool)

  datatype Runner = NoRunner | Scheduled | Awaiting

  /** What an observer of the executor sees, each entry with the connection token of that moment. */
  datatype Entry =
    | Started(queued: Queued, current: nat)
    | Ended(sequence: nat, outcome: Outcome)
    | Settled(sequence: nat, future: Future, token: Option<nat>, current: nat)

  datatype State = State(
    token: nat, sequence: nat, pending: seq<Queued>, futures: map<nat, Future>,
    runner: Runner, active: Option<ActiveTask>, log: seq<Entry>)

  const INITIAL := State(0, 0, [], map[], NoRunner, None, [])

  predicate Current(token: Option<nat>, current: nat) {
    token == None || token == Some(current)
  }

  function FutureOf(s: State, n: nat): Future {
    if n in s.futures then s.futures[n] else WasCancelled
  }

  /** `set_result`, `set_exception` or `cancel` on a future: settled futures stay as they are. */
  function Settle(s: State, q: Queued, f: Future): State {
    if FutureOf(s, q.sequence) == Pending then
      s.(futures := s.futures[q.sequence := f], log := s.log + [Settled(q.sequence, f, q.token, s.token)])
    else s
  }

  // ----- the heap -----

  function LeastIndex(p: seq<Queued>): (i: nat)
    requires p != []
    ensures i < |p| && forall j :: 0 <= j < |p| ==> !Less(p[j], p[i])
    decreases |p|
  {
    if |p| == 1 then 0
    else
      var i := LeastIndex(p[..|p| - 1]);
      assert forall j :: 0 <= j < |p| - 1 ==> p[..|p| - 1][j] == p[j];
      if Less(p[|p| - 1], p[i]) then |p| - 1 else i
  }

  function Without<T>(p: seq<T>, i: nat): (r: seq<T>)
    requires i < |p|
    ensures |r| == |p| - 1
  {
    p[..i] + p[i + 1..]
  }

  /** The order in which `heappop` would empty the queue. */
  function PopOrder(p: seq<Queued>): seq<Queued>
    decreases |p|
  {
    if p == [] then [] else [p[LeastIndex(p)]] + PopOrder(Without(p, LeastIndex(p)))
  }

  // ----- the steps -----

  /** `submit` up to its await: a stale token is refused, a missing or finished runner is replaced. */
  function Submit(s: State, token: Option<nat>, priority: nat): State {
    if !Current(token, s.token) then s
    else
      var n := s.sequence + 1;
      s.(sequence := n, pending := s.pending + [Queued(priority, n, token)],
         futures := s.futures[n := Pending],
         runner := if s.runner == NoRunner then Scheduled else s.runner)
  }

  function Survivors(p: seq<Queued>, current: nat): seq<Queued>
    decreases |p|
  {
    if p == [] then []
    else Survivors(p[..|p| - 1], current) + if Current(p[|p| - 1].token, current) then [p[|p| - 1]] else []
  }

  /** Cancel the futures of the queued operations that do not survive, in queue order. */
  function CancelDropped(s: State, p: seq<Queued>): State
    decreases |p|
  {
    if p == [] then s
    else
      var before := CancelDropped(s, p[..|p| - 1]);
      if Current(p[|p| - 1].token, s.token) then before else Settle(before, p[|p| - 1], WasCancelled)
  }

  function CancelActive(s: State): State {
    if s.active.Some? && !Current(s.active.value.queued.token, s.token) && !s.active.value.phase.Finished?
    then s.(active := Some(s.active.value.(cancelRequested := true)))
    else s
  }

  /** `cancel_stale(current_token)`, called with the coordinator's token. */
  function CancelStale(s: State): State {
    CancelActive(CancelDropped(s, s.pending).(pending := Survivors(s.pending, s.token)))
  }

  /** `begin` and `invalidate`: a new token, then everything stale is cancelled. */
  function ChangeConnection(s: State): State {
    CancelStale(s.(token := s.token + 1))
  }

  /** The first turn of the operation's task: a cancelled task ends without running its body. */
  function StartTask(s: State): State
    requires s.active.Some? && s.active.value.phase.Created?
  {
    var task := s.active.value;
    if task.cancelRequested then s.(active := Some(task.(phase := Finished(Aborted))))
    else s.(active := Some(task.(phase := Running)), log := s.log + [Started(task.queued, s.token)])
  }

  function EndTask(s: State, outcome: Outcome): State
    requires s.active.Some? && s.active.value.phase.Running?
  {
    var task := s.active.value;
    s.(active := Some(task.(phase := Finished(outcome))), log := s.log + [Ended(task.queued.sequence, outcome)])
  }

  /** The `try` block of `_run` after its await, and the `finally`. */
  function SettleActive(s: State): State
    requires s.active.Some? && s.active.value.phase.Finished?
  {
    var q := s.active.value.queued;
    var settled :=
      match s.active.value.phase.outcome
      case Returned(v) => Settle(s, q, if Current(q.token, s.token) then HasResult(v) else WasCancelled)
      case Aborted => Settle(s, q, WasCancelled)
      case Raised => Settle(s, q, HasException);
    settled.(active := None)
  }

  /** The `while` loop of `_run` until it awaits an operation or finds the queue empty. */
  function RunLoop(s: State): State
    decreases |s.pending|
  {
    if s.pending == [] then s.(runner := NoRunner)
    else
      var q := s.pending[LeastIndex(s.pending)];
      var popped := s.(pending := Without(s.pending, LeastIndex(s.pending)));
      if FutureOf(s, q.sequence) != Pending then RunLoop(popped)
      else if !Current(q.token, s.token) then RunLoop(Settle(popped, q, WasCancelled))
      else popped.(active := Some(ActiveTask(q, Created, false)), runner := Awaiting)
  }

  function ResumeRunner(s: State): State
    requires CanResume(s)
  {
    if s.runner == Scheduled then RunLoop(s) else RunLoop(SettleActive(s))
  }

  predicate CanResume(s: State) {
    s.runner == Scheduled || (s.runner == Awaiting && s.active.Some? && s.active.value.phase.Finished?)
  }

  /** A cancelled caller cancels the future it waits on. */
  function CancelCaller(s: State, n: nat): State {
    if FutureOf(s, n) == Pending then
      s.(futures := s.futures[n := WasCancelled], log := s.log + [Settled(n, WasCancelled, None, s.token)])
    else s
  }

  datatype Step =
    | SubmitStep(token: Option<nat>, priority: nat)
    | ConnectionStep
    | StartStep
    | EndStep(outcome: Outcome)
    | RunnerStep
    | CallerStep(sequence: nat)

  predicate Enabled(s: State, step: Step) {
    match step
    case StartStep => s.active.Some? && s.active.value.phase.Created?
    case EndStep(_) => s.active.Some? && s.active.value.phase.Running?
    case RunnerStep => CanResume(s)
    case _ => true
  }

  function Next(s: State, step: Step): State
    requires Enabled(s, step)
  {
    match step
    case SubmitStep(token, priority) => Submit(s, token, priority)
    case ConnectionStep => ChangeConnection(s)
    case StartStep => StartTask(s)
    case EndStep(outcome) => EndTask(s, outcome)
    case RunnerStep => ResumeRunner(s)
    case CallerStep(n) => CancelCaller(s, n)
  }

  predicate IsRun(s: State, steps: seq<Step>)
    decreases |steps|
  {
    steps == [] || (Enabled(s, steps[0]) && IsRun(Next(s, steps[0]), steps[1..]))
  }

  function After(s: State, steps: seq<Step>): State
    requires IsRun(s, steps)
    decreases |steps|
  {
    if steps == [] then s else After(Next(s, steps[0]), steps[1..])
  }
}
