/** The promises of a CLEAR_FLASH transaction over whole runs. */
module ClearFlashOutcome {
  import opened ClearFlashSafety
  import opened ClearFlashSpec
  import opened Wrappers

  /**
   * Each transaction reaches at most one terminal report. It is clear_ok exactly when an empty LIST
   * was verified for it, and then the device had accepted it and its quarantine had succeeded; a
   * transaction whose quarantine failed is never reported as clear_ok.
   */
  lemma OneOutcomeAndItIsTrue(es: seq<Event>)
    ensures var s := Run(Initial(), es);
            && (forall j, k :: 0 <= j < k < |s.outcomes| ==> s.outcomes[j].txn != s.outcomes[k].txn)
            && (forall k :: 0 <= k < |s.outcomes| ==>
                  var o := s.outcomes[k];
                  && o.txn < |s.txns| && (o.ok <==> s.txns[o.txn].empty)
                  && (o.ok ==> s.txns[o.txn].deviceAccepted && s.txns[o.txn].quarantined
                               && o.txn !in s.partialFailures))
  {
    RunInv(es);
    var s := Run(Initial(), es);
    forall k | 0 <= k < |s.outcomes|
      ensures var o := s.outcomes[k];
              && o.txn < |s.txns| && (o.ok <==> s.txns[o.txn].empty)
              && (o.ok ==> s.txns[o.txn].deviceAccepted && s.txns[o.txn].quarantined
                           && o.txn !in s.partialFailures)
    {
      assert OutcomeOk(s, s.outcomes[k]);
      assert TxnOk(s.txns[s.outcomes[k].txn], s.current == Some(s.outcomes[k].txn), s.accepted);
    }
  }

  // ----- superseded transactions -----

  /** Only coroutine `c` moved on; the context, the reports and every transaction are as before. */
  predicate OnlyMoved(s: State, r: State, c: nat) {
    && c < |s.coroutines| == |r.coroutines| && r == s.(coroutines := r.coroutines)
    && (forall d :: 0 <= d < |s.coroutines| && d != c ==> r.coroutines[d] == s.coroutines[d])
    && r.coroutines[c].txn == s.coroutines[c].txn
  }

  /** A step that works for a superseded transaction resets nothing and reports nothing. */
  lemma SupersededStepsAreInert(s: State, e: Event)
    requires OfCoroutine(e) && e.c < |s.coroutines| && !IsCurrent(s, s.coroutines[e.c].txn)
    ensures OnlyMoved(s, Next(s, e), e.c)
  {
    hide StartMark, MarkStep, TrackStep, ReportFailure, Marked;
    var c := e.c;
    OverIsOnlyMoved(s, c);
    SupersededEndings(s, e);
  }

  lemma OverIsOnlyMoved(s: State, c: nat)
    requires c < |s.coroutines|
    ensures forall job :: OnlyMoved(s, Move(s, c, job), c)
    ensures OnlyMoved(s, s, c)
  {
  }

  /** The longer pieces of code all end at once for a superseded transaction. */
  lemma SupersededEndings(s: State, e: Event)
    requires OfCoroutine(e) && e.c < |s.coroutines| && !IsCurrent(s, s.coroutines[e.c].txn)
    ensures forall ok, resume, keep :: StartMark(s, e.c, ok, resume, keep) == Move(s, e.c, Over)
    ensures ReportFailure(s, e.c) == Move(s, e.c, Over)
    ensures MarkStep(s, e.c) == Move(s, e.c, Over) || MarkStep(s, e.c) == s
    ensures e.Tracked? ==>
              TrackStep(s, e.c, e.legacy, e.offline) == Move(s, e.c, Over)
              || TrackStep(s, e.c, e.legacy, e.offline) == s
  {
  }

  /** Tokens and clients only move forward. */
  predicate Forward(s: State) {
    && (s.current.Some? ==> s.current.value < |s.txns|)
    && forall x :: 0 <= x < |s.txns| ==> s.txns[x].token <= s.token && s.txns[x].client <= s.client
  }

  /** How a step may change the transactions and the context. */
  predicate Onward(s: State, r: State) {
    && s.token <= r.token && s.client <= r.client && |s.txns| <= |r.txns|
    && (forall x :: 0 <= x < |s.txns| ==> r.txns[x].token == s.txns[x].token && r.txns[x].client == s.txns[x].client)
    && (forall x :: |s.txns| <= x < |r.txns| ==> r.txns[x].token <= r.token && r.txns[x].client <= r.client)
    && (r.current == s.current || r.current == None || (r.current == Some(|s.txns|) && |s.txns| < |r.txns|))
  }

  /** What any coroutine working for `x` may do to the shared context. */
  predicate Effect(s: State, r: State, x: nat) {
    && r.token == s.token && r.client == s.client && |r.txns| == |s.txns|
    && (forall y :: 0 <= y < |s.txns| ==> r.txns[y].token == s.txns[y].token && r.txns[y].client == s.txns[y].client)
    && (r.current == s.current || r.current == None)
    && (r.outcomes == s.outcomes || r.outcomes == s.outcomes + [Outcome(x, true)]
        || r.outcomes == s.outcomes + [Outcome(x, false)])
  }

  lemma EndingEffect(s: State, c: nat, ok: bool, resume: bool, keep: bool)
    requires c < |s.coroutines|
    ensures var x := s.coroutines[c].txn;
            Effect(s, ReportFailure(s, c), x) && Effect(s, Marked(s, c, ok, resume, keep), x)
  {
  }

  lemma StartEffect(s: State, c: nat, ok: bool, resume: bool, keep: bool)
    requires c < |s.coroutines|
    ensures Effect(s, StartMark(s, c, ok, resume, keep), s.coroutines[c].txn)
  {
    hide Marked;
    EndingEffect(s, c, ok, resume, keep);
  }

  /** The same after a flag of the transaction was set. */
  lemma FlaggedStartEffect(s: State, c: nat, t: Txn, ok: bool, resume: bool)
    requires c < |s.coroutines| && s.coroutines[c].txn < |s.txns|
    requires t.token == s.txns[s.coroutines[c].txn].token && t.client == s.txns[s.coroutines[c].txn].client
    ensures var x := s.coroutines[c].txn;
            Effect(s, StartMark(s.(txns := s.txns[x := t]), c, ok, resume, false), x)
  {
    hide StartMark;
    StartEffect(s.(txns := s.txns[s.coroutines[c].txn := t]), c, ok, resume, false);
  }

  lemma SenderEffect(s: State, c: nat, legacy: nat, offline: nat)
    requires c < |s.coroutines|
    ensures Effect(s, TrackStep(s, c, legacy, offline), s.coroutines[c].txn)
    ensures Effect(s, SendFails(s, c), s.coroutines[c].txn)
  {
    hide StartMark;
    var x := s.coroutines[c].txn;
    if x < |s.txns| {
      FlaggedStartEffect(s, c, s.txns[x].(terminalStarted := true), false, true);
    }
  }

  lemma AcceptEffect(s: State, c: nat, raised: bool)
    requires c < |s.coroutines|
    ensures Effect(s, AcceptRuns(s, c), s.coroutines[c].txn) && Effect(s, AcceptDone(s, c, raised), s.coroutines[c].txn)
  {
  }

  lemma AfterAcceptEffect(s: State, c: nat)
    requires c < |s.coroutines|
    ensures Effect(s, AfterAccept(s, c), s.coroutines[c].txn)
  {
    hide StartMark;
    StartEffect(s, c, false, false, true);
  }

  lemma VerifyEffect(s: State, c: nat)
    requires c < |s.coroutines|
    ensures Effect(s, VerifyRuns(s, c), s.coroutines[c].txn) && Effect(s, AwaitDone(s, c), s.coroutines[c].txn)
  {
    hide AfterAccept;
    AfterAcceptEffect(s, c);
  }

  lemma ListEffect(s: State, c: nat, result: ListResult)
    requires c < |s.coroutines|
    ensures Effect(s, ListDone(s, c, result), s.coroutines[c].txn)
  {
    hide StartMark;
    var x := s.coroutines[c].txn;
    StartEffect(s, c, false, false, true);
    if x < |s.txns| {
      FlaggedStartEffect(s, c, s.txns[x].(empty := true), true, false);
    }
  }

  lemma MarkEffect(s: State, c: nat)
    requires c < |s.coroutines|
    ensures Effect(s, FailRuns(s, c), s.coroutines[c].txn) && Effect(s, MarkStep(s, c), s.coroutines[c].txn)
  {
    hide StartMark, Marked;
    match s.coroutines[c].job {
      case FailStart(resume, keep) => StartEffect(s, c, false, resume, keep);
      case Marking(ok, _, resume, keep) => EndingEffect(s, c, ok, resume, keep);
      case _ =>
    }
  }

  lemma ResumeEffect(s: State, c: nat, raised: bool)
    requires c < |s.coroutines|
    ensures Effect(s, ResumeDone(s, c, raised), s.coroutines[c].txn) && Effect(s, PauseDone(s, c), s.coroutines[c].txn)
  {
    hide ReportFailure;
    EndingEffect(s, c, false, false, false);
  }

  lemma CoroutineEffect(s: State, e: Event)
    requires OfCoroutine(e) && e.c < |s.coroutines|
    ensures Effect(s, CoroutineStep(s, e), s.coroutines[e.c].txn)
  {
    hide TrackStep, SendFails, AcceptRuns, AcceptDone, VerifyRuns, AwaitDone, ListDone, FailRuns, MarkStep,
         ResumeDone, PauseDone;
    match e {
      case Tracked(c, legacy, offline) => SenderEffect(s, c, legacy, offline);
      case SendFailed(c) => SenderEffect(s, c, 0, 0);
      case SendDone(c) =>
      case AcceptBegins(c) => AcceptEffect(s, c, false);
      case AcceptReturned(c, raised) => AcceptEffect(s, c, raised);
      case VerifyBegins(c) => VerifyEffect(s, c);
      case AcceptAwaited(c) => VerifyEffect(s, c);
      case Listed(c, result) => ListEffect(s, c, result);
      case FailBegins(c) => MarkEffect(s, c);
      case MetadataWritten(c) => MarkEffect(s, c);
      case Resumed(c, raised) => ResumeEffect(s, c, raised);
      case Paused(c) => ResumeEffect(s, c, false);
      case Died(c) =>
    }
  }

  lemma AckOnward(s: State, seqNo: nat, statusOk: bool, mode: Mode)
    ensures Onward(s, HandleAck(s, seqNo, statusOk, mode)) && HandleAck(s, seqNo, statusOk, mode).outcomes == s.outcomes
  {
  }

  lemma StepOnward(s: State, e: Event)
    ensures Onward(s, Next(s, e))
  {
    hide CoroutineStep, HandleAck;
    if OfCoroutine(e) && e.c < |s.coroutines| {
      CoroutineEffect(s, e);
    } else if e.AckArrived? {
      AckOnward(s, e.ackSeq, e.statusOk, e.mode);
    }
  }

  lemma StaysSuperseded(s: State, e: Event, x: nat)
    requires Forward(s) && x < |s.txns| && !IsCurrent(s, x)
    ensures Forward(Next(s, e)) && x < |Next(s, e).txns| && !IsCurrent(Next(s, e), x)
  {
    hide Next;
    StepOnward(s, e);
  }

  /** Once superseded, a transaction is never current again, so it never reports either. */
  lemma {:induction false} SupersededForever(s: State, es: seq<Event>, x: nat)
    requires Forward(s) && x < |s.txns| && !IsCurrent(s, x)
    ensures var r := Run(s, es); Forward(r) && x < |r.txns| && !IsCurrent(r, x)
    ensures forall o :: o in Run(s, es).outcomes && o.txn == x ==> o in s.outcomes
    decreases |es|
  {
    hide Next, Forward, IsCurrent;
    if es != [] {
      var init := es[..|es| - 1];
      SupersededForever(s, init, x);
      StaysSuperseded(Run(s, init), es[|es| - 1], x);
      ReportsAreCurrent(Run(s, init), es[|es| - 1]);
    }
  }

  /** Only the current transaction reports. */
  lemma ReportsAreCurrent(s: State, e: Event)
    ensures forall o :: o in Next(s, e).outcomes ==> o in s.outcomes || IsCurrent(s, o.txn)
  {
    hide CoroutineStep, HandleAck;
    if OfCoroutine(e) && e.c < |s.coroutines| {
      if IsCurrent(s, s.coroutines[e.c].txn) {
        CoroutineEffect(s, e);
      } else {
        SupersededStepsAreInert(s, e);
      }
    } else if e.AckArrived? {
      AckOnward(s, e.ackSeq, e.statusOk, e.mode);
    }
  }

  // ----- a failed quarantine -----

  /** The event is a quarantine of the current transaction `x` coming back with an exception. */
  predicate RaisesNow(s: State, e: Event, x: nat) {
    e.AcceptReturned? && e.raised && e.c < |s.coroutines| && s.coroutines[e.c] == Coroutine(x, Accepting)
    && IsCurrent(s, x)
  }

  /** Some event of the run was that. */
  predicate QuarantineRaised(es: seq<Event>, x: nat)
    decreases |es|
  {
    es != [] && (QuarantineRaised(es[..|es| - 1], x) || RaisesNow(Run(Initial(), es[..|es| - 1]), es[|es| - 1], x))
  }

  /** The announced quarantine failures are those that happened, each announced once. */
  predicate Announced(s: State) {
    && (forall j, k :: 0 <= j < k < |s.partialFailures| ==> s.partialFailures[j] != s.partialFailures[k])
    && (forall k :: 0 <= k < |s.partialFailures| ==> s.partialFailures[k] < |s.txns|)
    && (forall x :: 0 <= x < |s.txns| ==> (s.txns[x].quarantineFailed <==> x in s.partialFailures))
  }

  /** Nothing about failed quarantines changed but for new transactions. */
  predicate SameQuarantines(s: State, r: State) {
    && r.partialFailures == s.partialFailures && |s.txns| <= |r.txns|
    && (forall x :: 0 <= x < |s.txns| ==> r.txns[x].quarantineFailed == s.txns[x].quarantineFailed)
    && (forall x :: |s.txns| <= x < |r.txns| ==> !r.txns[x].quarantineFailed)
  }

  lemma EndingQuarantines(s: State, c: nat, ok: bool, resume: bool, keep: bool)
    requires c < |s.coroutines|
    ensures SameQuarantines(s, ReportFailure(s, c)) && SameQuarantines(s, Marked(s, c, ok, resume, keep))
  {
  }

  lemma StartQuarantines(s: State, c: nat, ok: bool, resume: bool, keep: bool)
    requires c < |s.coroutines|
    ensures SameQuarantines(s, StartMark(s, c, ok, resume, keep))
  {
    hide Marked;
    EndingQuarantines(s, c, ok, resume, keep);
  }

  lemma FlaggedStartQuarantines(s: State, c: nat, t: Txn, ok: bool, resume: bool)
    requires c < |s.coroutines| && s.coroutines[c].txn < |s.txns|
    requires t.quarantineFailed == s.txns[s.coroutines[c].txn].quarantineFailed
    ensures SameQuarantines(s, StartMark(s.(txns := s.txns[s.coroutines[c].txn := t]), c, ok, resume, false))
  {
    hide StartMark;
    StartQuarantines(s.(txns := s.txns[s.coroutines[c].txn := t]), c, ok, resume, false);
  }

  lemma SenderQuarantines(s: State, c: nat, legacy: nat, offline: nat)
    requires c < |s.coroutines|
    ensures SameQuarantines(s, TrackStep(s, c, legacy, offline)) && SameQuarantines(s, SendFails(s, c))
  {
    hide StartMark;
    var x := s.coroutines[c].txn;
    if x < |s.txns| {
      FlaggedStartQuarantines(s, c, s.txns[x].(terminalStarted := true), false, true);
    }
  }

  lemma VerifyQuarantines(s: State, c: nat, result: ListResult)
    requires c < |s.coroutines|
    ensures SameQuarantines(s, VerifyRuns(s, c)) && SameQuarantines(s, AwaitDone(s, c))
    ensures SameQuarantines(s, ListDone(s, c, result))
  {
    hide StartMark;
    var x := s.coroutines[c].txn;
    StartQuarantines(s, c, false, false, true);
    if x < |s.txns| {
      FlaggedStartQuarantines(s, c, s.txns[x].(empty := true), true, false);
    }
  }

  lemma LastQuarantines(s: State, c: nat, raised: bool)
    requires c < |s.coroutines|
    ensures SameQuarantines(s, FailRuns(s, c)) && SameQuarantines(s, MarkStep(s, c))
    ensures SameQuarantines(s, ResumeDone(s, c, raised)) && SameQuarantines(s, PauseDone(s, c))
  {
    hide StartMark, Marked, ReportFailure;
    EndingQuarantines(s, c, false, false, false);
    match s.coroutines[c].job {
      case FailStart(resume, keep) => StartQuarantines(s, c, false, resume, keep);
      case Marking(ok, _, resume, keep) => EndingQuarantines(s, c, ok, resume, keep);
      case _ =>
    }
  }

  lemma AckQuarantines(s: State, seqNo: nat, statusOk: bool, mode: Mode)
    ensures SameQuarantines(s, HandleAck(s, seqNo, statusOk, mode))
  {
  }

  lemma OtherQuarantines(s: State, e: Event)
    requires !e.AcceptReturned?
    ensures SameQuarantines(s, Next(s, e))
  {
    hide TrackStep, SendFails, VerifyRuns, AwaitDone, ListDone, FailRuns, MarkStep, ResumeDone, PauseDone, HandleAck;
    if OfCoroutine(e) {
      if e.c < |s.coroutines| {
        match e {
          case Tracked(c, legacy, offline) => SenderQuarantines(s, c, legacy, offline);
          case SendFailed(c) => SenderQuarantines(s, c, 0, 0);
          case VerifyBegins(c) => VerifyQuarantines(s, c, EmptyList);
          case AcceptAwaited(c) => VerifyQuarantines(s, c, EmptyList);
          case Listed(c, result) => VerifyQuarantines(s, c, result);
          case FailBegins(c) => LastQuarantines(s, c, false);
          case MetadataWritten(c) => LastQuarantines(s, c, false);
          case Resumed(c, raised) => LastQuarantines(s, c, raised);
          case Paused(c) => LastQuarantines(s, c, false);
          case SendDone(_) =>
          case AcceptBegins(_) =>
          case Died(_) =>
        }
      }
    } else if e.AckArrived? {
      AckQuarantines(s, e.ackSeq, e.statusOk, e.mode);
    }
  }

  /** What a step adds to the announced failures: the transaction whose quarantine raises now, if any. */
  lemma StepAnnounces(s: State, e: Event)
    requires Inv(s) && Announced(s)
    ensures var r := Next(s, e);
            && Announced(r) && |s.txns| <= |r.txns|
            && (forall x :: 0 <= x < |r.txns| ==>
                  (r.txns[x].quarantineFailed
                   <==> (x < |s.txns| && s.txns[x].quarantineFailed) || RaisesNow(s, e, x)))
  {
    if e.AcceptReturned? && e.c < |s.coroutines| {
      JobIsOk(s, e.c);
      AcceptAnnounces(s, e);
    } else if e.AcceptReturned? {
      assert Next(s, e) == s;
    } else {
      hide Next;
      OtherQuarantines(s, e);
    }
  }

  lemma AcceptAnnounces(s: State, e: Event)
    requires Announced(s) && e.AcceptReturned? && e.c < |s.coroutines| && s.coroutines[e.c].txn < |s.txns|
    requires s.coroutines[e.c].job == Accepting ==> !s.txns[s.coroutines[e.c].txn].quarantineFailed
    ensures var r := AcceptDone(s, e.c, e.raised);
            && Announced(r) && |s.txns| == |r.txns|
            && (forall x :: 0 <= x < |r.txns| ==>
                  (r.txns[x].quarantineFailed <==> s.txns[x].quarantineFailed || RaisesNow(s, e, x)))
  {
  }

  lemma RaisesAreKnown(s: State, e: Event, x: nat)
    requires Inv(s) && RaisesNow(s, e, x)
    ensures x < |s.txns|
  {
  }

  lemma {:induction false} RunAnnounces(es: seq<Event>)
    ensures var s := Run(Initial(), es);
            && Announced(s)
            && (forall x: nat :: QuarantineRaised(es, x) <==> x < |s.txns| && s.txns[x].quarantineFailed)
    decreases |es|
  {
    hide Next, Inv, RaisesNow, Announced;
    if es == [] {
      NothingAnnounced();
    } else {
      var init, last := es[..|es| - 1], es[|es| - 1];
      var s := Run(Initial(), init);
      RunAnnounces(init);
      RunInv(init);
      StepAnnounces(s, last);
      forall x: nat | RaisesNow(s, last, x) ensures x < |s.txns| {
        RaisesAreKnown(s, last, x);
      }
    }
  }

  lemma NothingAnnounced()
    ensures Announced(Initial())
  {
  }

  // ----- how many reports one transaction can make -----

  function Times<T(==)>(xs: seq<T>, x: T): nat
    decreases |xs|
  {
    if xs == [] then 0 else Times(xs[..|xs| - 1], x) + if xs[|xs| - 1] == x then 1 else 0
  }

  function TxnsOf(outcomes: seq<Outcome>): (xs: seq<nat>)
    ensures |xs| == |outcomes| && forall k :: 0 <= k < |xs| ==> xs[k] == outcomes[k].txn
  {
    seq(|outcomes|, k requires 0 <= k < |outcomes| => outcomes[k].txn)
  }

  /** The clear_ok and clear_failed reports that name `x`, the quarantine's own among them. */
  function Reports(s: State, x: nat): nat {
    Times(s.partialFailures, x) + Times(TxnsOf(s.outcomes), x)
  }

  predicate Ended(s: State, x: nat) {
    exists k :: 0 <= k < |s.outcomes| && s.outcomes[k].txn == x
  }

  lemma {:induction false} TimesOfDistinct<T>(xs: seq<T>, x: T)
    requires forall j, k :: 0 <= j < k < |xs| ==> xs[j] != xs[k]
    ensures Times(xs, x) == if x in xs then 1 else 0
    decreases |xs|
  {
    if xs != [] {
      TimesOfDistinct(xs[..|xs| - 1], x);
      assert xs == xs[..|xs| - 1] + [xs[|xs| - 1]];
    }
  }

  /**
   * In every run each transaction makes at most two reports, and it makes two if and only if its
   * quarantine raised while it was current and it has ended: one terminal outcome, announced twice.
   */
  lemma FailedQuarantineIsReportedTwice(es: seq<Event>, x: nat)
    ensures var s := Run(Initial(), es);
            && Reports(s, x) <= 2
            && (Reports(s, x) == 2 <==> QuarantineRaised(es, x) && Ended(s, x))
            && (QuarantineRaised(es, x) ==> Outcome(x, true) !in s.outcomes)
  {
    var s := Run(Initial(), es);
    RunAnnounces(es);
    RunInv(es);
    OneOutcomeAndItIsTrue(es);
    TimesOfDistinct(s.partialFailures, x);
    TimesOfDistinct(TxnsOf(s.outcomes), x);
    assert Ended(s, x) <==> x in TxnsOf(s.outcomes);
    if Outcome(x, true) in s.outcomes {
      var k :| 0 <= k < |s.outcomes| && s.outcomes[k] == Outcome(x, true);
      assert x !in s.partialFailures;
    }
  }

  /** The shortest run to two reports: accepted and done at once, the quarantine fails, the end reports. */
  function TwoReports(): seq<Event> {
    [Requested(7), AckArrived(7, true, AsyncDone)] + [AcceptBegins(1), AcceptReturned(1, true)]
    + [VerifyBegins(2), AcceptAwaited(2)]
  }

  lemma TwoReportsHappen()
    ensures Reports(Run(Initial(), TwoReports()), 0) == 2
  {
    var txn := Txn(7, 0, 0, true, true, true, false, false, false);
    var s2 := Next(Next(Initial(), Requested(7)), AckArrived(7, true, AsyncDone));
    assert s2 == Initial().(
      current := Some(0), accepted := true, acceptTask := Some(1), blocked := true, txns := [txn],
      coroutines := [Coroutine(0, Tracking(0)), Coroutine(0, AcceptStart), Coroutine(0, VerifyStart)]);
    var s4 := Next(Next(s2, AcceptBegins(1)), AcceptReturned(1, true));
    assert s4 == s2.(
      partialFailures := [0], txns := [txn.(quarantineFailed := true)],
      coroutines := [Coroutine(0, Tracking(0)), Coroutine(0, Over), Coroutine(0, VerifyStart)]);
    var s6 := Next(Next(s4, VerifyBegins(2)), AcceptAwaited(2));
    assert s6.outcomes == [Outcome(0, false)] && s6.partialFailures == [0];
    TwoReportsRun();
    assert TxnsOf(s6.outcomes) == [0] && [0][..0] == [];
  }

  lemma RunTwo(s: State, es: seq<Event>, a: Event, b: Event)
    ensures Run(s, es + [a, b]) == Next(Next(Run(s, es), a), b)
  {
    var all := es + [a, b];
    assert all[..|es| + 1] == es + [a] && (es + [a])[..|es|] == es;
  }

  lemma TwoReportsRun()
    ensures Run(Initial(), TwoReports())
            == Next(Next(Next(Next(Next(Next(Initial(), Requested(7)), AckArrived(7, true, AsyncDone)),
                                   AcceptBegins(1)), AcceptReturned(1, true)), VerifyBegins(2)), AcceptAwaited(2))
  {
    hide Next;
    var first := [Requested(7), AckArrived(7, true, AsyncDone)];
    var second := [AcceptBegins(1), AcceptReturned(1, true)];
    RunTwo(Initial(), [], Requested(7), AckArrived(7, true, AsyncDone));
    assert [] + first == first;
    RunTwo(Initial(), first, AcceptBegins(1), AcceptReturned(1, true));
    RunTwo(Initial(), first + second, VerifyBegins(2), AcceptAwaited(2));
  }
}
