/** What every order of ACKs, failures, quarantines, listings and reconnects keeps. */
module ClearFlashSafety {
  import opened ClearFlashSpec
  import opened Wrappers

  predicate AcceptJob(j: Job) {
    j.AcceptStart? || j.Accepting?
  }

  /** The jobs that may end in a terminal report. */
  predicate TerminalJob(j: Job) {
    j.FailStart? || j.VerifyStart? || j.AwaitAccept? || j.Listing? || j.Marking? || j.Resuming? || j.Pausing?
  }

  /** Two jobs one transaction never has at the same time. */
  predicate Clash(i: Job, j: Job) {
    (SenderJob(i) && SenderJob(j)) || (AcceptJob(i) && AcceptJob(j)) || (TerminalJob(i) && TerminalJob(j))
  }

  predicate NoClash(cs: seq<Coroutine>) {
    forall c, d :: 0 <= c < d < |cs| && cs[c].txn == cs[d].txn ==> !Clash(cs[c].job, cs[d].job)
  }

  /** What a job says about the transaction it works for. */
  predicate JobOk(t: Txn, isCurrent: bool, accepted: bool, j: Job) {
    && (SenderJob(j) && t.terminalStarted ==> t.ackReceived)
    && (AcceptJob(j) ==> t.deviceAccepted && !t.quarantined && !t.quarantineFailed && (isCurrent ==> accepted))
    && (TerminalJob(j) ==> t.terminalStarted)
    && (j.VerifyStart? || j.AwaitAccept? ==> t.deviceAccepted)
    && (j.Listing? ==> t.deviceAccepted && t.quarantined)
    && (TerminalJob(j) && !(j.Marking? && j.ok) ==> !t.empty)
    && (j.Marking? && j.ok ==> t.deviceAccepted && t.quarantined && t.empty)
  }

  predicate JobsOk(s: State) {
    forall c :: 0 <= c < |s.coroutines| ==>
      var x := s.coroutines[c].txn;
      x < |s.txns| && JobOk(s.txns[x], s.current == Some(x), s.accepted, s.coroutines[c].job)
  }

  predicate CurrentOk(s: State) {
    && (s.current.Some? ==> s.current.value == |s.txns| - 1)
    && (s.accepted ==> s.current.Some? && s.txns[s.current.value].deviceAccepted)
    && (s.acceptOk ==> s.current.Some? && s.txns[s.current.value].quarantined)
  }

  predicate TxnOk(t: Txn, isCurrent: bool, accepted: bool) {
    && !(t.quarantined && t.quarantineFailed)
    && (t.quarantined || t.quarantineFailed ==> t.deviceAccepted && (isCurrent ==> accepted))
    && (t.empty ==> t.terminalStarted)
  }

  predicate TxnsOk(s: State) {
    forall x :: 0 <= x < |s.txns| ==> TxnOk(s.txns[x], s.current == Some(x), s.accepted)
  }

  /** A reported transaction is over: what it reported fits what happened, and nothing works for it. */
  predicate OutcomeOk(s: State, o: Outcome) {
    && o.txn < |s.txns| && s.current != Some(o.txn) && s.txns[o.txn].terminalStarted
    && (o.ok <==> s.txns[o.txn].empty)
    && (o.ok ==> s.txns[o.txn].deviceAccepted && s.txns[o.txn].quarantined)
    && (forall c :: 0 <= c < |s.coroutines| && s.coroutines[c].txn == o.txn ==> !TerminalJob(s.coroutines[c].job))
  }

  predicate OutcomesOk(s: State) {
    && (forall k :: 0 <= k < |s.outcomes| ==> OutcomeOk(s, s.outcomes[k]))
    && (forall j, k :: 0 <= j < k < |s.outcomes| ==> s.outcomes[j].txn != s.outcomes[k].txn)
    && (forall k :: 0 <= k < |s.partialFailures| ==>
          s.partialFailures[k] < |s.txns| && s.txns[s.partialFailures[k]].quarantineFailed)
  }

  predicate Inv(s: State) {
    NoClash(s.coroutines) && JobsOk(s) && CurrentOk(s) && TxnsOk(s) && OutcomesOk(s)
  }

  // ----- one coroutine moves -----

  /** A move inside the group of jobs a coroutine is in, or to the end. */
  predicate SameGroup(i: Job, j: Job) {
    j == Over || (SenderJob(i) && SenderJob(j)) || (AcceptJob(i) && AcceptJob(j)) || (TerminalJob(i) && TerminalJob(j))
  }

  lemma InvMove(s: State, c: nat, job: Job)
    requires Inv(s) && c < |s.coroutines| && SameGroup(s.coroutines[c].job, job)
    requires var x := s.coroutines[c].txn; JobOk(s.txns[x], s.current == Some(x), s.accepted, job)
    ensures Inv(Move(s, c, job))
  {
  }

  /** The fields no invariant reads. */
  lemma InvFrame(s: State, r: State)
    requires Inv(s) && r.current == s.current && r.accepted == s.accepted && r.acceptOk == s.acceptOk
    requires r.txns == s.txns && r.coroutines == s.coroutines && r.outcomes == s.outcomes
    requires r.partialFailures == s.partialFailures
    ensures Inv(r)
  {
  }

  lemma InvOver(s: State, c: nat)
    requires Inv(s) && c < |s.coroutines|
    ensures Inv(Move(s, c, Over))
  {
    InvMove(s, c, Over);
  }

  lemma InvReset(s: State)
    requires Inv(s)
    ensures Inv(Reset(s))
  {
  }

  /** The only step that reports: the transaction is current, so it has not reported before. */
  lemma InvReport(s: State, c: nat, ok: bool)
    requires Inv(s) && c < |s.coroutines| && TerminalJob(s.coroutines[c].job)
    requires IsCurrent(s, s.coroutines[c].txn) && (ok <==> s.txns[s.coroutines[c].txn].empty)
    requires ok ==> s.txns[s.coroutines[c].txn].deviceAccepted && s.txns[s.coroutines[c].txn].quarantined
    ensures Inv(Reset(Move(s, c, Over)).(outcomes := s.outcomes + [Outcome(s.coroutines[c].txn, ok)]))
  {
    var x := s.coroutines[c].txn;
    var quiet := Reset(Move(s, c, Over));
    InvOver(s, c);
    InvReset(Move(s, c, Over));
    var r := quiet.(outcomes := s.outcomes + [Outcome(x, ok)]);
    assert OutcomeOk(r, Outcome(x, ok)) by {
      assert JobOk(s.txns[x], s.current == Some(x), s.accepted, s.coroutines[c].job);
      forall d | 0 <= d < |r.coroutines| && r.coroutines[d].txn == x ensures !TerminalJob(r.coroutines[d].job) {
        if d != c {
          assert !Clash(s.coroutines[d].job, s.coroutines[c].job);
        }
      }
    }
    forall k | 0 <= k < |s.outcomes| ensures OutcomeOk(r, s.outcomes[k]) && s.outcomes[k].txn != x {
      assert OutcomeOk(quiet, s.outcomes[k]) && OutcomeOk(s, s.outcomes[k]);
    }
  }

  lemma InvReportFailure(s: State, c: nat)
    requires Inv(s) && c < |s.coroutines| && TerminalJob(s.coroutines[c].job)
    requires !(s.coroutines[c].job.Marking? && s.coroutines[c].job.ok)
    ensures Inv(ReportFailure(s, c))
  {
    InvOver(s, c);
    if IsCurrent(s, s.coroutines[c].txn) {
      InvReport(s, c, false);
    }
  }

  /** `j` may be replaced by a marking job with outcome `ok`. */
  predicate MayMark(s: State, c: nat, ok: bool)
    requires c < |s.coroutines| && s.coroutines[c].txn < |s.txns|
  {
    var t := s.txns[s.coroutines[c].txn];
    TerminalJob(s.coroutines[c].job) && (ok <==> t.empty) && (ok ==> t.deviceAccepted && t.quarantined)
  }

  lemma InvMarked(s: State, c: nat, ok: bool, resume: bool, keep: bool)
    requires Inv(s) && c < |s.coroutines| && s.coroutines[c].txn < |s.txns| && MayMark(s, c, ok)
    requires IsCurrent(s, s.coroutines[c].txn)
    ensures Inv(Marked(s, c, ok, resume, keep))
  {
    hide Inv, Move;
    var x := s.coroutines[c].txn;
    InvFrame(s, s.(blocked := keep));
    if ok {
      InvReport(s, c, true);
      var r := Reset(Move(s, c, Over)).(outcomes := s.outcomes + [Outcome(x, true)]);
      InvFrame(r, r.(blocked := false));
    } else if resume {
      TerminalIsOk(s, c, Resuming);
      InvMove(s.(blocked := keep), c, Resuming);
    } else {
      InvReport(s.(blocked := keep), c, false);
    }
  }

  lemma TerminalIsOk(s: State, c: nat, job: Job)
    requires Inv(s) && c < |s.coroutines| && s.coroutines[c].txn < |s.txns|
    requires TerminalJob(s.coroutines[c].job) && MayMark(s, c, job.Marking? && job.ok)
    requires job.Marking? || job.Resuming? || job.Pausing?
    ensures var x := s.coroutines[c].txn; JobOk(s.txns[x], s.current == Some(x), s.accepted, job)
  {
  }

  lemma InvStartMark(s: State, c: nat, ok: bool, resume: bool, keep: bool)
    requires Inv(s) && c < |s.coroutines| && s.coroutines[c].txn < |s.txns| && MayMark(s, c, ok)
    ensures Inv(StartMark(s, c, ok, resume, keep))
  {
    hide Inv, Marked, Move, IsCurrent;
    InvOver(s, c);
    if IsCurrent(s, s.coroutines[c].txn) {
      InvMarked(s, c, ok, resume, keep);
      var job := Marking(ok, s.legacyKeys + s.offlineKeys, resume, keep);
      TerminalIsOk(s, c, job);
      InvMove(s, c, job);
    }
  }

  // ----- coroutine steps -----

  lemma JobIsOk(s: State, c: nat)
    requires Inv(s) && c < |s.coroutines|
    ensures var x := s.coroutines[c].txn;
            x < |s.txns| && JobOk(s.txns[x], s.current == Some(x), s.accepted, s.coroutines[c].job)
  {
  }

  lemma InvTrack(s: State, c: nat, legacy: nat, offline: nat)
    requires Inv(s) && c < |s.coroutines|
    ensures Inv(TrackStep(s, c, legacy, offline))
  {
    hide Inv, Move, IsCurrent;
    JobIsOk(s, c);
    InvOver(s, c);
    var job := s.coroutines[c].job;
    if SenderJob(job) {
      var found := s.(legacyKeys := legacy, offlineKeys := offline);
      InvFrame(s, found);
      InvMove(found, c, Sending);
      InvMove(found, c, Updating(legacy));
      InvMove(s, c, Sending);
      if job.Tracking? {
        InvMove(s, c, Tracking(job.stage + 1));
      } else if job.Updating? && job.left > 1 {
        InvMove(s, c, Updating(job.left - 1));
      }
    }
  }

  /** The sender may turn into the failure path only if nothing terminal was started before. */
  lemma InvSendFails(s: State, c: nat)
    requires Inv(s) && c < |s.coroutines|
    ensures Inv(SendFails(s, c))
  {
    JobIsOk(s, c);
    InvOver(s, c);
    var x := s.coroutines[c].txn;
    if SenderJob(s.coroutines[c].job) && !s.txns[x].ackReceived && IsCurrent(s, x) {
      var begun := s.(txns := s.txns[x := s.txns[x].(terminalStarted := true)]);
      var turned := Move(begun, c, FailStart(true, false));
      assert Inv(turned) by { InvTurn(s, c); }
      InvStartMark(turned, c, false, true, false);
      SameStart(begun, c, FailStart(true, false), true, false);
    }
  }

  lemma InvTurn(s: State, c: nat)
    requires Inv(s) && c < |s.coroutines|
    requires SenderJob(s.coroutines[c].job) && !s.txns[s.coroutines[c].txn].ackReceived
    requires IsCurrent(s, s.coroutines[c].txn)
    ensures var x := s.coroutines[c].txn;
            Inv(Move(s.(txns := s.txns[x := s.txns[x].(terminalStarted := true)]), c, FailStart(true, false)))
  {
    var x := s.coroutines[c].txn;
    var r := Move(s.(txns := s.txns[x := s.txns[x].(terminalStarted := true)]), c, FailStart(true, false));
    assert !s.txns[x].terminalStarted;
    forall d | 0 <= d < |s.coroutines| && d != c && s.coroutines[d].txn == x
      ensures !TerminalJob(s.coroutines[d].job) && !SenderJob(s.coroutines[d].job)
    {
      assert JobOk(s.txns[x], s.current == Some(x), s.accepted, s.coroutines[d].job);
      assert !Clash(s.coroutines[d].job, s.coroutines[c].job) && !Clash(s.coroutines[c].job, s.coroutines[d].job);
    }
    assert NoClash(r.coroutines);
    assert OutcomesOk(r) by {
      forall k | 0 <= k < |s.outcomes| ensures OutcomeOk(r, s.outcomes[k]) {
        assert OutcomeOk(s, s.outcomes[k]);
      }
    }
  }

  lemma MoveTwice(s: State, c: nat, i: Job, j: Job)
    requires c < |s.coroutines|
    ensures Move(Move(s, c, i), c, j) == Move(s, c, j)
    ensures Move(s, c, i).coroutines[c] == Coroutine(s.coroutines[c].txn, i)
    ensures |Move(s, c, i).coroutines| == |s.coroutines| && Move(s, c, i).txns == s.txns
  {
  }

  /** Which job a coroutine leaves does not matter to where it goes. */
  lemma SameStart(s: State, c: nat, job: Job, resume: bool, keep: bool)
    requires c < |s.coroutines|
    ensures |Move(s, c, job).coroutines| == |s.coroutines|
    ensures StartMark(Move(s, c, job), c, false, resume, keep) == StartMark(s, c, false, resume, keep)
  {
    MoveTwice(s, c, job, Over);
    MoveTwice(s, c, job, Marking(false, s.legacyKeys + s.offlineKeys, resume, keep));
    MoveTwice(s.(blocked := keep), c, job, Resuming);
    MoveTwice(s.(blocked := keep), c, job, Over);
    assert Move(s, c, job).(blocked := keep) == Move(s.(blocked := keep), c, job);
    MoveReads(s, c, job);
    MoveReads(s.(blocked := keep), c, job);
    hide Move;
  }

  /** A move changes no field that decides where to go. */
  lemma MoveReads(s: State, c: nat, job: Job)
    requires c < |s.coroutines|
    ensures var m := Move(s, c, job);
            m.legacyKeys == s.legacyKeys && m.offlineKeys == s.offlineKeys && m.outcomes == s.outcomes
            && forall x :: IsCurrent(m, x) == IsCurrent(s, x)
  {
  }

  lemma InvAccept(s: State, c: nat, raised: bool)
    requires Inv(s) && c < |s.coroutines|
    ensures Inv(AcceptRuns(s, c)) && Inv(AcceptDone(s, c, raised))
  {
    JobIsOk(s, c);
    InvOver(s, c);
    if s.coroutines[c].job == AcceptStart {
      InvMove(s, c, Accepting);
    }
    if s.coroutines[c].job == Accepting && IsCurrent(s, s.coroutines[c].txn) {
      InvQuarantine(s, c, raised);
    }
  }

  lemma InvQuarantine(s: State, c: nat, raised: bool)
    requires Inv(s) && c < |s.coroutines| && s.coroutines[c].job == Accepting && IsCurrent(s, s.coroutines[c].txn)
    ensures Inv(AcceptDone(s, c, raised))
  {
    var x := s.coroutines[c].txn;
    var r := AcceptDone(s, c, raised);
    forall d | 0 <= d < |s.coroutines|
      ensures r.coroutines[d].txn < |r.txns|
      ensures JobOk(r.txns[r.coroutines[d].txn], r.current == Some(r.coroutines[d].txn), r.accepted,
                    r.coroutines[d].job)
    {
      var y := s.coroutines[d].txn;
      assert JobOk(s.txns[y], s.current == Some(y), s.accepted, s.coroutines[d].job);
      if d < c {
        assert y == x ==> !Clash(s.coroutines[d].job, s.coroutines[c].job);
      } else if c < d {
        assert y == x ==> !Clash(s.coroutines[c].job, s.coroutines[d].job);
      }
    }
    assert NoClash(r.coroutines);
    assert OutcomesOk(r) by {
      forall k | 0 <= k < |s.outcomes| ensures OutcomeOk(r, s.outcomes[k]) {
        assert OutcomeOk(s, s.outcomes[k]);
      }
    }
  }

  lemma InvAfterAccept(s: State, c: nat)
    requires Inv(s) && c < |s.coroutines| && (s.coroutines[c].job.VerifyStart? || s.coroutines[c].job.AwaitAccept?)
    ensures Inv(AfterAccept(s, c))
  {
    hide StartMark, Move;
    JobIsOk(s, c);
    InvOver(s, c);
    InvStartMark(s, c, false, false, true);
    if IsCurrent(s, s.coroutines[c].txn) && s.acceptOk {
      InvMove(s, c, Listing);
    }
  }

  lemma InvVerify(s: State, c: nat)
    requires Inv(s) && c < |s.coroutines|
    ensures Inv(VerifyRuns(s, c)) && Inv(AwaitDone(s, c))
  {
    hide AfterAccept, Move, Inv;
    JobIsOk(s, c);
    InvOver(s, c);
    var job := s.coroutines[c].job;
    if job.VerifyStart? || job.AwaitAccept? {
      InvAfterAccept(s, c);
      if s.acceptTask.Some? {
        InvMove(s, c, AwaitAccept(s.acceptTask.value));
      }
    }
  }

  lemma InvListDone(s: State, c: nat, result: ListResult)
    requires Inv(s) && c < |s.coroutines|
    ensures Inv(ListDone(s, c, result))
  {
    hide StartMark, Move, Inv;
    JobIsOk(s, c);
    InvOver(s, c);
    var x := s.coroutines[c].txn;
    if s.coroutines[c].job == Listing && IsCurrent(s, x) {
      InvStartMark(s, c, false, false, true);
      var seen := s.(txns := s.txns[x := s.txns[x].(empty := true)]);
      var turned := Move(seen, c, Marking(true, 0, false, false));
      InvListed(s, c);
      SameStartOk(seen, c, Marking(true, 0, false, false));
      InvStartMark(turned, c, true, false, false);
    }
  }

  lemma SameStartOk(s: State, c: nat, job: Job)
    requires c < |s.coroutines|
    ensures StartMark(Move(s, c, job), c, true, false, false) == StartMark(s, c, true, false, false)
    ensures Move(s, c, job).coroutines[c].txn == s.coroutines[c].txn && Move(s, c, job).coroutines[c].job == job
    ensures Move(s, c, job).txns == s.txns && |Move(s, c, job).coroutines| == |s.coroutines|
  {
    var m := Move(s, c, job);
    assert forall j :: Move(m, c, j) == Move(s, c, j);
  }

  lemma InvListed(s: State, c: nat)
    requires Inv(s) && c < |s.coroutines| && s.coroutines[c].job == Listing && IsCurrent(s, s.coroutines[c].txn)
    ensures var x := s.coroutines[c].txn;
            Inv(Move(s.(txns := s.txns[x := s.txns[x].(empty := true)]), c, Marking(true, 0, false, false)))
  {
    var x := s.coroutines[c].txn;
    var r := Move(s.(txns := s.txns[x := s.txns[x].(empty := true)]), c, Marking(true, 0, false, false));
    forall d | 0 <= d < |s.coroutines|
      ensures r.coroutines[d].txn < |r.txns|
      ensures JobOk(r.txns[r.coroutines[d].txn], r.current == Some(r.coroutines[d].txn), r.accepted,
                    r.coroutines[d].job)
    {
      var y := s.coroutines[d].txn;
      assert JobOk(s.txns[y], s.current == Some(y), s.accepted, s.coroutines[d].job);
      if d < c {
        assert y == x ==> !Clash(s.coroutines[d].job, s.coroutines[c].job);
      } else if c < d {
        assert y == x ==> !Clash(s.coroutines[c].job, s.coroutines[d].job);
      }
    }
    assert NoClash(r.coroutines);
    assert OutcomesOk(r) by {
      forall k | 0 <= k < |s.outcomes| ensures OutcomeOk(r, s.outcomes[k]) {
        assert OutcomeOk(s, s.outcomes[k]);
      }
    }
  }

  lemma InvEnding(s: State, c: nat, raised: bool)
    requires Inv(s) && c < |s.coroutines|
    ensures Inv(FailRuns(s, c)) && Inv(MarkStep(s, c)) && Inv(ResumeDone(s, c, raised)) && Inv(PauseDone(s, c))
  {
    hide StartMark, Marked, ReportFailure, Move, Inv;
    JobIsOk(s, c);
    InvOver(s, c);
    var job := s.coroutines[c].job;
    match job {
      case FailStart(resume, keep) => InvStartMark(s, c, false, resume, keep);
      case Marking(ok, left, resume, keep) =>
        if IsCurrent(s, s.coroutines[c].txn) {
          InvMarked(s, c, ok, resume, keep);
          if left > 1 {
            InvMove(s, c, Marking(ok, left - 1, resume, keep));
          }
        }
      case Resuming =>
        InvReportFailure(s, c);
        InvFrame(s, s.(blocked := true));
        InvMove(s.(blocked := true), c, Pausing);
      case Pausing => InvReportFailure(s, c);
      case _ =>
    }
  }

  lemma InvCoroutine(s: State, e: Event)
    requires Inv(s) && OfCoroutine(e) && e.c < |s.coroutines|
    ensures Inv(CoroutineStep(s, e))
  {
    hide Inv, TrackStep, SendFails, AcceptRuns, AcceptDone, VerifyRuns, AwaitDone, ListDone, FailRuns, MarkStep,
         ResumeDone, PauseDone, Move;
    match e {
      case Tracked(c, legacy, offline) => InvTrack(s, c, legacy, offline);
      case SendFailed(c) => InvSendFails(s, c);
      case SendDone(c) => InvOver(s, c);
      case AcceptBegins(c) => InvAccept(s, c, false);
      case AcceptReturned(c, raised) => InvAccept(s, c, raised);
      case VerifyBegins(c) => InvVerify(s, c);
      case AcceptAwaited(c) => InvVerify(s, c);
      case Listed(c, result) => InvListDone(s, c, result);
      case FailBegins(c) => InvEnding(s, c, false);
      case MetadataWritten(c) => InvEnding(s, c, false);
      case Resumed(c, raised) => InvEnding(s, c, raised);
      case Paused(c) => InvEnding(s, c, false);
      case Died(c) => InvOver(s, c);
    }
  }

  // ----- requests and ACKs -----

  lemma InvRequest(s: State, seqNo: nat)
    requires Inv(s)
    ensures Inv(Request(s, seqNo))
  {
    var r := Request(s, seqNo);
    assert OutcomesOk(r) by {
      forall k | 0 <= k < |s.outcomes| ensures OutcomeOk(r, s.outcomes[k]) {
        assert OutcomeOk(s, s.outcomes[k]);
      }
    }
  }

  /** A flag that only ever goes up is set on the current transaction. */
  lemma InvHeard(s: State, x: nat)
    requires Inv(s) && s.current == Some(x) && x < |s.txns|
    ensures Inv(s.(txns := s.txns[x := s.txns[x].(ackReceived := true)]))
    ensures Inv(s.(txns := s.txns[x := s.txns[x].(deviceAccepted := true)]))
  {
  }

  lemma InvAcceptSpawn(s: State, x: nat)
    requires Inv(s) && s.current == Some(x) && x < |s.txns| && s.txns[x].deviceAccepted && !s.accepted
    ensures Inv(Spawn(s, x, AcceptStart).(accepted := true, acceptTask := Some(|s.coroutines|)))
  {
    var r := Spawn(s, x, AcceptStart).(accepted := true, acceptTask := Some(|s.coroutines|));
    assert !s.txns[x].quarantined && !s.txns[x].quarantineFailed by {
      assert TxnOk(s.txns[x], s.current == Some(x), s.accepted);
    }
    forall d | 0 <= d < |s.coroutines| && s.coroutines[d].txn == x ensures !AcceptJob(s.coroutines[d].job) {
      assert JobOk(s.txns[x], s.current == Some(x), s.accepted, s.coroutines[d].job);
    }
    assert OutcomesOk(r) by {
      forall k | 0 <= k < |s.outcomes| ensures OutcomeOk(r, s.outcomes[k]) {
        assert OutcomeOk(s, s.outcomes[k]);
      }
    }
  }

  lemma InvTerminalSpawn(s: State, x: nat, job: Job)
    requires Inv(s) && s.current == Some(x) && x < |s.txns| && !s.txns[x].terminalStarted && s.txns[x].ackReceived
    requires job.FailStart? || (job.VerifyStart? && s.txns[x].deviceAccepted)
    ensures Inv(Spawn(s.(txns := s.txns[x := s.txns[x].(terminalStarted := true)]), x, job))
  {
    var r := Spawn(s.(txns := s.txns[x := s.txns[x].(terminalStarted := true)]), x, job);
    assert TxnOk(s.txns[x], s.current == Some(x), s.accepted);
    forall d | 0 <= d < |s.coroutines| && s.coroutines[d].txn == x ensures !TerminalJob(s.coroutines[d].job) {
      assert JobOk(s.txns[x], s.current == Some(x), s.accepted, s.coroutines[d].job);
    }
    assert OutcomesOk(r) by {
      forall k | 0 <= k < |s.outcomes| ensures OutcomeOk(r, s.outcomes[k]) {
        assert OutcomeOk(s, s.outcomes[k]);
      }
    }
  }

  lemma InvOkAck(s: State, x: nat, mode: Mode)
    requires Inv(s) && s.current == Some(x) && x < |s.txns| && s.txns[x].ackReceived && !s.txns[x].terminalStarted
    ensures Inv(OkAck(s, x, mode))
  {
    hide Inv;
    InvHeard(s, x);
    var told := s.(txns := s.txns[x := s.txns[x].(deviceAccepted := true)]);
    if !s.accepted {
      InvAcceptSpawn(told, x);
    }
    var started :=
      if told.accepted then told
      else Spawn(told, x, AcceptStart).(accepted := true, acceptTask := Some(|s.coroutines|));
    InvTerminalSpawn(started, x, VerifyStart);
  }

  lemma InvAck(s: State, seqNo: nat, statusOk: bool, mode: Mode)
    requires Inv(s)
    ensures Inv(HandleAck(s, seqNo, statusOk, mode))
  {
    hide Inv, OkAck, Spawn;
    if s.current.Some? {
      var x := s.current.value;
      if IsCurrent(s, x) && !s.txns[x].terminalStarted {
        InvHeard(s, x);
        var heard := s.(txns := s.txns[x := s.txns[x].(ackReceived := true)]);
        InvOkAck(heard, x, mode);
        InvTerminalSpawn(heard, x, FailStart(!s.accepted, s.accepted));
      }
    }
  }

  lemma StepInv(s: State, e: Event)
    requires Inv(s)
    ensures Inv(Next(s, e))
  {
    hide Inv, Request, HandleAck, CoroutineStep, Reset;
    if OfCoroutine(e) {
      if e.c < |s.coroutines| {
        InvCoroutine(s, e);
      }
    } else {
      InvReset(s);
      InvFrame(Reset(s), Reset(s).(blocked := false));
      InvFrame(s, s.(token := s.token + 1));
      InvFrame(s, s.(client := s.client + 1));
      if e.Requested? {
        InvRequest(s, e.seqNo);
      } else if e.AckArrived? {
        InvAck(s, e.ackSeq, e.statusOk, e.mode);
      }
    }
  }

  lemma InitialInv()
    ensures Inv(Initial())
  {
  }

  lemma {:induction false} RunInv(es: seq<Event>)
    ensures Inv(Run(Initial(), es))
    decreases |es|
  {
    hide Inv, Next;
    if es == [] {
      InitialInv();
    } else {
      RunInv(es[..|es| - 1]);
      StepInv(Run(Initial(), es[..|es| - 1]), es[|es| - 1]);
    }
  }
}
