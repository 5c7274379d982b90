/**
 * The CLEAR_FLASH context of the BLE manager, changed in place between awaits. Every handler keeps the
 * invariant the promises of a transaction rest on.
 */
module ClearFlash {
  import opened ClearFlashOutcome
  import opened ClearFlashSafety
  import opened ClearFlashSpec
  import opened Wrappers

  class ClearFlashContext {
    var current: Option<nat>
    var token: nat
    var client: nat
    var accepted: bool
    var acceptTask: Option<nat>
    var acceptOk: bool
    var blocked: bool
    var legacyKeys: nat
    var offlineKeys: nat
    var txns: seq<Txn>
    var coroutines: seq<Coroutine>
    // what has been reported so far
    ghost var outcomes: seq<Outcome>
    ghost var partialFailures: seq<nat>

    ghost function Value(): State
      reads this
    {
      State(current, token, client, accepted, acceptTask, acceptOk, blocked, legacyKeys, offlineKeys, txns,
            coroutines, outcomes, partialFailures)
    }

    /** One ending coroutine and at most one terminal report per transaction, each of them true. */
    ghost predicate Valid()
      reads this
    {
      Inv(Value()) && Announced(Value())
    }

    constructor ()
      ensures Valid() && Value() == Initial()
    {
      current, token, client, accepted, acceptTask, acceptOk := None, 0, 0, false, None, false;
      blocked, legacyKeys, offlineKeys := false, 0, 0;
      txns, coroutines, outcomes, partialFailures := [], [], [], [];
      new;
      InitialInv();
      NothingAnnounced();
    }

    /** `_clear_flash_is_current`. */
    predicate Current(x: nat)
      reads this
    {
      current == Some(x) && x < |txns| && txns[x].token == token && txns[x].client == client
    }

    // ----- pieces of the handlers -----

    method MoveTo(c: nat, job: Job)
      requires c < |coroutines|
      modifies `coroutines
      ensures Value() == Move(old(Value()), c, job)
    {
      coroutines := coroutines[c := coroutines[c].(job := job)];
    }

    method Start(x: nat, job: Job)
      modifies `coroutines
      ensures Value() == Spawn(old(Value()), x, job)
    {
      coroutines := coroutines + [Coroutine(x, job)];
    }

    /** `_reset_clear_flash_context`. */
    method ResetClearFlashContext()
      modifies this
      ensures Value() == Reset(old(Value()))
    {
      current := None;
      legacyKeys, offlineKeys := 0, 0;
      accepted := false;
      acceptTask := None;
      acceptOk := false;
    }

    /** The last piece of `_mark_clear_flash_failed`. */
    method Fail(c: nat)
      requires c < |coroutines|
      modifies this
      ensures Value() == ReportFailure(old(Value()), c)
    {
      var x := coroutines[c].txn;
      MoveTo(c, Over);
      if Current(x) {
        ResetClearFlashContext();
        outcomes := outcomes + [Outcome(x, false)];
      }
    }

    method FinishMarks(c: nat, ok: bool, resume: bool, keep: bool)
      requires c < |coroutines|
      modifies this
      ensures Value() == Marked(old(Value()), c, ok, resume, keep)
    {
      var x := coroutines[c].txn;
      if ok {
        MoveTo(c, Over);
        ResetClearFlashContext();
        blocked := false;
        outcomes := outcomes + [Outcome(x, true)];
        return;
      }
      blocked := keep;
      if resume {
        MoveTo(c, Resuming);
      } else {
        Fail(c);
      }
    }

    /** `_mark_clear_flash_ok` and `_mark_clear_flash_failed` up to their first await. */
    method BeginMarks(c: nat, ok: bool, resume: bool, keep: bool)
      requires c < |coroutines|
      modifies this
      ensures Value() == StartMark(old(Value()), c, ok, resume, keep)
    {
      hide Marked;
      if !Current(coroutines[c].txn) {
        MoveTo(c, Over);
      } else if legacyKeys + offlineKeys == 0 {
        FinishMarks(c, ok, resume, keep);
      } else {
        MoveTo(c, Marking(ok, legacyKeys + offlineKeys, resume, keep));
      }
    }

    method HandleOkAck(x: nat, mode: Mode)
      requires x < |txns|
      modifies this
      ensures Value() == OkAck(old(Value()), x, mode)
    {
      if mode == OtherMode {
        return;
      }
      txns := txns[x := txns[x].(deviceAccepted := true)];
      if !accepted {
        accepted := true;
        acceptTask := Some(|coroutines|);
        Start(x, AcceptStart);
      }
      if mode == AsyncDone {
        txns := txns[x := txns[x].(terminalStarted := true)];
        Start(x, VerifyStart);
      }
    }

    /** The step is one of the modelled events, so it keeps what every event keeps. */
    ghost method Settled(before: State, e: Event)
      requires Inv(before) && Announced(before) && Value() == Next(before, e)
      ensures Valid()
    {
      StepInv(before, e);
      StepAnnounces(before, e);
    }

    // ----- the handlers -----

    /** `_track_clear_flash_request` up to its first await. */
    method TrackClearFlashRequest(seqNo: nat)
      requires Valid()
      modifies this
      ensures Valid() && Value() == Next(old(Value()), Requested(seqNo))
    {
      hide Inv, Announced;
      var x := |txns|;
      txns := txns + [Txn(seqNo, token, client, false, false, false, false, false, false)];
      current := Some(x);
      accepted := false;
      acceptOk := false;
      blocked := true;
      Start(x, Tracking(0));
      Settled(old(Value()), Requested(seqNo));
    }

    /** `_track_clear_flash_request` after one of its awaits. */
    method OnTracked(c: nat, legacy: nat, offline: nat)
      requires Valid() && c < |coroutines|
      modifies this
      ensures Valid() && Value() == Next(old(Value()), Tracked(c, legacy, offline))
    {
      hide Inv, Announced;
      var job := coroutines[c].job;
      if job.Tracking? || job.Updating? {
        if !Current(coroutines[c].txn) {
          MoveTo(c, Over);
        } else if job.Updating? {
          MoveTo(c, if job.left <= 1 then Sending else Updating(job.left - 1));
        } else if job.stage < 2 {
          MoveTo(c, Tracking(job.stage + 1));
        } else {
          legacyKeys, offlineKeys := legacy, offline;
          MoveTo(c, if legacy == 0 then Sending else Updating(legacy));
        }
      }
      Settled(old(Value()), Tracked(c, legacy, offline));
    }

    /** `_clear_flash_send_failed` and the handlers around the write. */
    method OnSendFailed(c: nat)
      requires Valid() && c < |coroutines|
      modifies this
      ensures Valid() && Value() == Next(old(Value()), SendFailed(c))
    {
      hide Inv, Announced, StartMark;
      var x := coroutines[c].txn;
      if SenderJob(coroutines[c].job) {
        if x >= |txns| || txns[x].ackReceived || !Current(x) {
          MoveTo(c, Over);
        } else {
          txns := txns[x := txns[x].(terminalStarted := true)];
          BeginMarks(c, false, true, false);
        }
      }
      Settled(old(Value()), SendFailed(c));
    }

    /** `_handle_clear_flash_ack`. */
    method HandleClearFlashAck(seqNo: nat, statusOk: bool, mode: Mode)
      requires Valid()
      modifies this
      ensures Valid() && Value() == Next(old(Value()), AckArrived(seqNo, statusOk, mode))
    {
      hide Inv, Announced, OkAck;
      if current.Some? && Current(current.value) && txns[current.value].seqNo == seqNo
         && !txns[current.value].terminalStarted {
        var x := current.value;
        txns := txns[x := txns[x].(ackReceived := true)];
        if statusOk {
          HandleOkAck(x, mode);
        } else {
          txns := txns[x := txns[x].(terminalStarted := true)];
          Start(x, FailStart(!accepted, accepted));
        }
      }
      Settled(old(Value()), AckArrived(seqNo, statusOk, mode));
    }

    /** `_accept_clear_flash` after `accept_clear` has come back. */
    method OnAcceptReturned(c: nat, raised: bool)
      requires Valid() && c < |coroutines|
      modifies this
      ensures Valid() && Value() == Next(old(Value()), AcceptReturned(c, raised))
    {
      hide Inv, Announced;
      if coroutines[c].job == Accepting {
        var x := coroutines[c].txn;
        MoveTo(c, Over);
        if Current(x) && raised {
          blocked := true;
          partialFailures := partialFailures + [x];
          txns := txns[x := txns[x].(quarantineFailed := true)];
        } else if Current(x) {
          acceptOk := true;
          txns := txns[x := txns[x].(quarantined := true)];
        }
      }
      Settled(old(Value()), AcceptReturned(c, raised));
    }

    /** `_verify_and_mark_clear_flash_ok` once the quarantine it waited for is over. */
    method OnAcceptAwaited(c: nat)
      requires Valid() && c < |coroutines|
      modifies this
      ensures Valid() && Value() == Next(old(Value()), AcceptAwaited(c))
    {
      hide Inv, Announced, StartMark;
      if coroutines[c].job.AwaitAccept? {
        var a := coroutines[c].job.accept;
        if a >= |coroutines| || coroutines[a].job == Over {
          if !Current(coroutines[c].txn) {
            MoveTo(c, Over);
          } else if acceptOk {
            MoveTo(c, Listing);
          } else {
            BeginMarks(c, false, false, true);
          }
        }
      }
      Settled(old(Value()), AcceptAwaited(c));
    }

    /** `_verify_and_mark_clear_flash_ok` after the LIST has come back. */
    method OnListed(c: nat, result: ListResult)
      requires Valid() && c < |coroutines|
      modifies this
      ensures Valid() && Value() == Next(old(Value()), Listed(c, result))
    {
      hide Inv, Announced, StartMark;
      if coroutines[c].job == Listing {
        var x := coroutines[c].txn;
        if !Current(x) {
          MoveTo(c, Over);
        } else if result != EmptyList {
          BeginMarks(c, false, false, true);
        } else {
          txns := txns[x := txns[x].(empty := true)];
          BeginMarks(c, true, false, false);
        }
      }
      Settled(old(Value()), Listed(c, result));
    }

    /** One more session has its clear status written. */
    method OnMetadataWritten(c: nat)
      requires Valid() && c < |coroutines|
      modifies this
      ensures Valid() && Value() == Next(old(Value()), MetadataWritten(c))
    {
      hide Inv, Announced, Marked;
      var job := coroutines[c].job;
      if job.Marking? {
        if !Current(coroutines[c].txn) {
          MoveTo(c, Over);
        } else if job.left <= 1 {
          FinishMarks(c, job.ok, job.resume, job.keep);
        } else {
          MoveTo(c, Marking(job.ok, job.left - 1, job.resume, job.keep));
        }
      }
      Settled(old(Value()), MetadataWritten(c));
    }

    /** `_mark_clear_flash_failed` after the sync was resumed, or refused to. */
    method OnResumed(c: nat, raised: bool)
      requires Valid() && c < |coroutines|
      modifies this
      ensures Valid() && Value() == Next(old(Value()), Resumed(c, raised))
    {
      hide Inv, Announced, ReportFailure;
      if coroutines[c].job == Resuming {
        if !raised {
          Fail(c);
        } else if !Current(coroutines[c].txn) {
          MoveTo(c, Over);
        } else {
          blocked := true;
          MoveTo(c, Pausing);
        }
      }
      Settled(old(Value()), Resumed(c, raised));
    }
  }
}
