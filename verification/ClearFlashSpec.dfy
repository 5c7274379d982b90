/**
 * The CLEAR_FLASH transaction: a sender, the ACK handler, a quarantine task and a verification task
 * that all outlive one another. Every function is one piece of code between two awaits.
 */
module ClearFlashSpec {
  import opened Wrappers

  /** `_ClearFlashTransaction`, and what has happened on its behalf. */
  datatype Txn = Txn(
    seqNo: nat, token: nat, client: nat, ackReceived: bool, terminalStarted: bool,
    deviceAccepted: bool, quarantined: bool, quarantineFailed: bool, empty: bool)

  datatype Job =
    | Tracking(stage: nat)
    | Updating(left: nat)
    | Sending
    | AcceptStart
    | Accepting
    | FailStart(resume: bool, keep: bool)
    | VerifyStart
    | AwaitAccept(accept: nat)
    | Listing
    | Marking(ok: bool, left: nat, resume: bool, keep: bool)
    | Resuming
    | Pausing
    | Over

  datatype Coroutine = Coroutine(txn: nat, job: Job)
  datatype Outcome = Outcome(txn: nat, ok: bool)

  datatype State = State(
    current: Option<nat>, token: nat, client: nat, accepted: bool, acceptTask: Option<nat>, acceptOk: bool,
    blocked: bool, legacyKeys: nat, offlineKeys: nat,
    txns: seq<Txn>, coroutines: seq<Coroutine>,
    outcomes: seq<Outcome>,      // clear_ok and clear_failed reports that end a transaction
    partialFailures: seq<nat>)   // transactions whose clear_failed report came from the quarantine

  function Initial(): State {
    State(None, 0, 0, false, None, false, false, 0, 0, [], [], [], [])
  }

  /** `_clear_flash_is_current`. */
  predicate IsCurrent(s: State, x: nat) {
    s.current == Some(x) && x < |s.txns| && s.txns[x].token == s.token && s.txns[x].client == s.client
  }

  function Move(s: State, c: nat, job: Job): State
    requires c < |s.coroutines|
  {
    s.(coroutines := s.coroutines[c := s.coroutines[c].(job := job)])
  }

  function Spawn(s: State, x: nat, job: Job): State {
    s.(coroutines := s.coroutines + [Coroutine(x, job)])
  }

  /** `_reset_clear_flash_context`. */
  function Reset(s: State): State {
    s.(current := None, legacyKeys := 0, offlineKeys := 0, accepted := false, acceptTask := None, acceptOk := false)
  }

  // ----- the sender -----

  /** The first piece of `_track_clear_flash_request`. */
  function Request(s: State, seqNo: nat): State {
    Spawn(s.(txns := s.txns + [Txn(seqNo, s.token, s.client, false, false, false, false, false, false)],
             current := Some(|s.txns|), accepted := false, acceptOk := false, blocked := true),
          |s.txns|, Tracking(0))
  }

  /** Pause, two collections, one metadata update per legacy session, then the write: each is rechecked. */
  function TrackStep(s: State, c: nat, legacy: nat, offline: nat): State
    requires c < |s.coroutines|
  {
    var x := s.coroutines[c].txn;
    match s.coroutines[c].job
    case Tracking(stage) =>
      if !IsCurrent(s, x) then Move(s, c, Over)
      else if stage < 2 then Move(s, c, Tracking(stage + 1))
      else
        var found := s.(legacyKeys := legacy, offlineKeys := offline);
        if legacy == 0 then Move(found, c, Sending) else Move(found, c, Updating(legacy))
    case Updating(left) =>
      if !IsCurrent(s, x) then Move(s, c, Over)
      else if left <= 1 then Move(s, c, Sending)
      else Move(s, c, Updating(left - 1))
    case _ => s
  }

  predicate SenderJob(j: Job) {
    j.Tracking? || j.Updating? || j.Sending?
  }

  /** An exception or a cancellation while sending: a device ACK already received stays authoritative. */
  function SendFails(s: State, c: nat): State
    requires c < |s.coroutines|
  {
    var x := s.coroutines[c].txn;
    if !SenderJob(s.coroutines[c].job) then s
    else if x >= |s.txns| || s.txns[x].ackReceived || !IsCurrent(s, x) then Move(s, c, Over)
    else StartMark(s.(txns := s.txns[x := s.txns[x].(terminalStarted := true)]), c, false, true, false)
  }

  // ----- the end of a transaction -----

  /** The last piece of `_mark_clear_flash_failed`. */
  function ReportFailure(s: State, c: nat): State
    requires c < |s.coroutines|
  {
    var x := s.coroutines[c].txn;
    if !IsCurrent(s, x) then Move(s, c, Over)
    else Reset(Move(s, c, Over)).(outcomes := s.outcomes + [Outcome(x, false)])
  }

  /** All metadata is written: report success, or lift or keep the block and go on failing. */
  function Marked(s: State, c: nat, ok: bool, resume: bool, keep: bool): State
    requires c < |s.coroutines|
  {
    var x := s.coroutines[c].txn;
    if ok then Reset(Move(s, c, Over)).(blocked := false, outcomes := s.outcomes + [Outcome(x, true)])
    else if resume then Move(s.(blocked := keep), c, Resuming)
    else ReportFailure(s.(blocked := keep), c)
  }

  /** `_mark_clear_flash_ok` and `_mark_clear_flash_failed` up to their first await. */
  function StartMark(s: State, c: nat, ok: bool, resume: bool, keep: bool): State
    requires c < |s.coroutines|
  {
    if !IsCurrent(s, s.coroutines[c].txn) then Move(s, c, Over)
    else if s.legacyKeys + s.offlineKeys == 0 then Marked(s, c, ok, resume, keep)
    else Move(s, c, Marking(ok, s.legacyKeys + s.offlineKeys, resume, keep))
  }

  function MarkStep(s: State, c: nat): State
    requires c < |s.coroutines|
  {
    match s.coroutines[c].job
    case Marking(ok, left, resume, keep) =>
      if !IsCurrent(s, s.coroutines[c].txn) then Move(s, c, Over)
      else if left <= 1 then Marked(s, c, ok, resume, keep)
      else Move(s, c, Marking(ok, left - 1, resume, keep))
    case _ => s
  }

  /** `resume_after_clear_rejected` came back; if it raised, the sync is paused again before the report. */
  function ResumeDone(s: State, c: nat, raised: bool): State
    requires c < |s.coroutines|
  {
    if s.coroutines[c].job != Resuming then s
    else if !raised then ReportFailure(s, c)
    else if !IsCurrent(s, s.coroutines[c].txn) then Move(s, c, Over)
    else Move(s.(blocked := true), c, Pausing)
  }

  function PauseDone(s: State, c: nat): State
    requires c < |s.coroutines|
  {
    if s.coroutines[c].job != Pausing then s else ReportFailure(s, c)
  }

  // ----- the device's answers -----

  datatype Mode = AcceptedAsync | RealAction | AsyncDone | OtherMode

  /** An OK ACK: the first one to accept starts the quarantine, ASYNC_DONE the verification. */
  function OkAck(s: State, x: nat, mode: Mode): State
    requires x < |s.txns|
  {
    if mode == OtherMode then s
    else
      var told := s.(txns := s.txns[x := s.txns[x].(deviceAccepted := true)]);
      var started :=
        if told.accepted then told
        else Spawn(told, x, AcceptStart).(accepted := true, acceptTask := Some(|s.coroutines|));
      if mode != AsyncDone then started
      else Spawn(started.(txns := started.txns[x := started.txns[x].(terminalStarted := true)]), x, VerifyStart)
  }

  /** `_handle_clear_flash_ack`. */
  function HandleAck(s: State, seqNo: nat, statusOk: bool, mode: Mode): State {
    match s.current
    case None => s
    case Some(x) =>
      if !IsCurrent(s, x) || s.txns[x].seqNo != seqNo || s.txns[x].terminalStarted then s
      else
        var heard := s.(txns := s.txns[x := s.txns[x].(ackReceived := true)]);
        if statusOk then OkAck(heard, x, mode)
        else Spawn(heard.(txns := heard.txns[x := heard.txns[x].(terminalStarted := true)]), x,
                   FailStart(!s.accepted, s.accepted))
  }

  // ----- quarantine and verification -----

  function AcceptRuns(s: State, c: nat): State
    requires c < |s.coroutines|
  {
    if s.coroutines[c].job != AcceptStart then s
    else Move(s, c, if IsCurrent(s, s.coroutines[c].txn) then Accepting else Over)
  }

  /** `accept_clear` came back. */
  function AcceptDone(s: State, c: nat, raised: bool): State
    requires c < |s.coroutines|
  {
    var x := s.coroutines[c].txn;
    if s.coroutines[c].job != Accepting then s
    else if !IsCurrent(s, x) then Move(s, c, Over)
    else if raised
    then Move(s, c, Over).(blocked := true, partialFailures := s.partialFailures + [x],
                           txns := s.txns[x := s.txns[x].(quarantineFailed := true)])
    else Move(s, c, Over).(acceptOk := true, txns := s.txns[x := s.txns[x].(quarantined := true)])
  }

  function AfterAccept(s: State, c: nat): State
    requires c < |s.coroutines|
  {
    if !IsCurrent(s, s.coroutines[c].txn) then Move(s, c, Over)
    else if !s.acceptOk then StartMark(s, c, false, false, true)
    else Move(s, c, Listing)
  }

  function VerifyRuns(s: State, c: nat): State
    requires c < |s.coroutines|
  {
    if s.coroutines[c].job != VerifyStart then s
    else if !IsCurrent(s, s.coroutines[c].txn) then Move(s, c, Over)
    else if s.acceptTask.Some? then Move(s, c, AwaitAccept(s.acceptTask.value))
    else AfterAccept(s, c)
  }

  function AwaitDone(s: State, c: nat): State
    requires c < |s.coroutines|
  {
    match s.coroutines[c].job
    case AwaitAccept(a) => if a < |s.coroutines| && s.coroutines[a].job != Over then s else AfterAccept(s, c)
    case _ => s
  }

  datatype ListResult = EmptyList | NotEmpty | ListRaised

  /** `verify_empty_after_clear` came back. */
  function ListDone(s: State, c: nat, result: ListResult): State
    requires c < |s.coroutines|
  {
    var x := s.coroutines[c].txn;
    if s.coroutines[c].job != Listing then s
    else if !IsCurrent(s, x) then Move(s, c, Over)
    else if result != EmptyList then StartMark(s, c, false, false, true)
    else StartMark(s.(txns := s.txns[x := s.txns[x].(empty := true)]), c, true, false, false)
  }

  function FailRuns(s: State, c: nat): State
    requires c < |s.coroutines|
  {
    match s.coroutines[c].job
    case FailStart(resume, keep) => StartMark(s, c, false, resume, keep)
    case _ => s
  }

  // ----- runs -----

  datatype Event =
    | Requested(seqNo: nat)
    | Tracked(c: nat, legacy: nat, offline: nat)
    | SendFailed(c: nat)
    | SendDone(c: nat)
    | AckArrived(ackSeq: nat, statusOk: bool, mode: Mode)
    | AcceptBegins(c: nat)
    | AcceptReturned(c: nat, raised: bool)
    | VerifyBegins(c: nat)
    | AcceptAwaited(c: nat)
    | Listed(c: nat, result: ListResult)
    | FailBegins(c: nat)
    | MetadataWritten(c: nat)
    | Resumed(c: nat, raised: bool)
    | Paused(c: nat)
    | Died(c: nat)
    | ConnectionChanged
    | ClientReplaced
    | ContextCleared

  predicate OfCoroutine(e: Event) {
    e.Tracked? || e.SendFailed? || e.SendDone? || e.AcceptBegins? || e.AcceptReturned? || e.VerifyBegins?
    || e.AcceptAwaited? || e.Listed? || e.FailBegins? || e.MetadataWritten? || e.Resumed? || e.Paused? || e.Died?
  }

  function CoroutineStep(s: State, e: Event): State
    requires OfCoroutine(e) && e.c < |s.coroutines|
  {
    match e
    case Tracked(c, legacy, offline) => TrackStep(s, c, legacy, offline)
    case SendFailed(c) => SendFails(s, c)
    case SendDone(c) => if s.coroutines[c].job == Sending then Move(s, c, Over) else s
    case AcceptBegins(c) => AcceptRuns(s, c)
    case AcceptReturned(c, raised) => AcceptDone(s, c, raised)
    case VerifyBegins(c) => VerifyRuns(s, c)
    case AcceptAwaited(c) => AwaitDone(s, c)
    case Listed(c, result) => ListDone(s, c, result)
    case FailBegins(c) => FailRuns(s, c)
    case MetadataWritten(c) => MarkStep(s, c)
    case Resumed(c, raised) => ResumeDone(s, c, raised)
    case Paused(c) => PauseDone(s, c)
    case Died(c) => Move(s, c, Over)
  }

  function Next(s: State, e: Event): State {
    if OfCoroutine(e) then if e.c < |s.coroutines| then CoroutineStep(s, e) else s
    else
      match e
      case Requested(seqNo) => Request(s, seqNo)
      case AckArrived(seqNo, statusOk, mode) => HandleAck(s, seqNo, statusOk, mode)
      case ConnectionChanged => s.(token := s.token + 1)
      case ClientReplaced => s.(client := s.client + 1)
      case ContextCleared => Reset(s).(blocked := false)
      case _ => s
  }

  function Run(s: State, es: seq<Event>): State
    decreases |es|
  {
    if es == [] then s else Next(Run(s, es[..|es| - 1]), es[|es| - 1])
  }
}
