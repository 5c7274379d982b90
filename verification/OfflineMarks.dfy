/** A capture that preempts a transfer: bytes from before the mark are never joined to later ones. */
module OfflineMarks {
  import opened Crc32
  import opened OfflineCrashSafety
  import opened OfflineDisk
  import opened OfflineProtocol
  import opened OfflineRuns
  import opened OfflineStoreSpec
  import opened Wrappers

  /** How many accepted bytes the store may still build on: all of them, or the checkpointed ones. */
  function Usable(w: World): nat {
    if w.mem.Active? then |w.accepted|
    else if w.dir.resume.Some? && w.dir.resume.value.durableOffset <= |w.accepted| then w.dir.resume.value.durableOffset
    else if w.dir.resume.Some? then |w.accepted|
    else 0
  }

  predicate SameMarks(marks: seq<nat>, n: nat) {
    n <= |marks| && forall i, j :: 0 <= i < n && 0 <= j < n ==> marks[i] == marks[j]
  }

  /** No byte is from after the latest mark, and with no mark pending all usable bytes are. */
  ghost predicate MarksInv(w: World, device: Address) {
    && (w.dir.restart == None || w.dir.restart == Some(device))
    && |w.marksBefore| == |w.accepted|
    && (forall i :: 0 <= i < |w.marksBefore| ==> w.marksBefore[i] <= w.marks)
    && (w.dir.restart == None ==> forall i :: 0 <= i < Usable(w) ==> w.marksBefore[i] == w.marks)
  }

  /** Marks and prepares of the run are for one device. */
  ghost predicate OneDevice(ts: seq<Transition>, device: Address) {
    forall t :: t in ts ==> DeviceOf(t.event, device)
  }

  predicate DeviceOf(e: Event, device: Address) {
    (e.PrepareEvent? ==> e.address == device) && (e.MarkEvent? ==> e.device == device)
  }

  /**
   * What a caller can keep count of: how many bytes the open session had received when the capture
   * was last marked as preempted. A prepare that opens a session sets it to zero.
   */
  ghost function StaleAfter(w: World, t: Transition, n: nat): nat {
    if t.Crash? then 0
    else
      match t.event
      case MarkEvent(_) => if w.mem.Active? then w.mem.received else 0
      case PrepareEvent(m, address) => if Prepare(w.dir, m, address).result.Resumable? then 0 else n
      case _ => n
  }

  ghost function StaleBytes(w: World, ts: seq<Transition>, n: nat): nat
    decreases |ts|
  {
    if ts == [] then n else StaleBytes(Next(w, ts[0]), ts[1..], StaleAfter(w, ts[0], n))
  }

  /** The stale bytes of an open session are exactly those from before the latest mark. */
  ghost predicate StaleInv(w: World, n: nat) {
    w.mem.Active? ==>
      n <= |w.marksBefore| && forall i :: 0 <= i < |w.marksBefore| ==> (w.marksBefore[i] != w.marks <==> i < n)
  }

  predicate TakesFresh(w: World, t: Transition) {
    t.Complete? && t.event.AppendEvent?
    && Append(w.dir, w.mem, t.event.offset, t.event.payload, t.event.prefixCrc) == Fresh
  }

  /** The caller never lets a fresh chunk follow stale bytes. */
  ghost predicate NoStaleAppend(w: World, ts: seq<Transition>, n: nat)
    decreases |ts|
  {
    ts == [] || ((TakesFresh(w, ts[0]) ==> n == 0) && NoStaleAppend(Next(w, ts[0]), ts[1..], StaleAfter(w, ts[0], n)))
  }

  /** Stricter: the caller prepares again after every mark before it hands over the next fresh chunk. */
  ghost predicate PreparesAgain(w: World, ts: seq<Transition>)
    decreases |ts|
  {
    ts == [] || ((TakesFresh(w, ts[0]) ==> w.dir.restart == None) && PreparesAgain(Next(w, ts[0]), ts[1..]))
  }

  // ----- what file operations do to the checkpoint and the mark -----

  predicate PartOnly(op: FileOp) {
    op.ResetPart? || op.FinalToPart? || op.TruncatePart? || op.SyncPart? || op.AppendPart?
    || op.WriteScratch? || op.PartToFinal? || op.PutMetadata?
  }

  ghost function SameControl(d: Directory): Directory -> bool {
    (e: Directory) => e.resume == d.resume && e.restart == d.restart
  }

  lemma {:induction false} PartOnlyKeepsControl(d: Directory, ops: seq<FileOp>, d0: Directory)
    requires forall op :: op in ops ==> PartOnly(op)
    requires d.resume == d0.resume && d.restart == d0.restart
    ensures Along(d, ops, SameControl(d0))
    decreases |ops|
  {
    if ops != [] {
      assert ops[0] in ops && forall op :: op in ops[1..] ==> op in ops;
      PartOnlyKeepsControl(Apply(d, ops[0]), ops[1..], d0);
    }
  }

  /** Checkpoint and mark are as before, or already what the operation publishes. */
  ghost function ControlWithin(d: Directory, published: Resume, forced: bool): Directory -> bool {
    (e: Directory) =>
      (e.restart == d.restart && (e.resume == d.resume || e.resume == Some(published)))
      || (forced && e.restart == None && e.resume == Some(published))
  }

  lemma {:induction false} Weaken(d: Directory, ops: seq<FileOp>, p: Directory -> bool, q: Directory -> bool)
    requires Along(d, ops, p) && forall e :: p(e) ==> q(e)
    ensures Along(d, ops, q)
    decreases |ops|
  {
    if ops != [] {
      Weaken(Apply(d, ops[0]), ops[1..], p, q);
    }
  }

  lemma TransferControl(d: Directory, accepted: bytes, m: Manifest, forced: bool)
    requires DiskInv(d, accepted)
    ensures Along(d, TransferPlan(d, m, forced).ops, ControlWithin(d, ResumeFor(m, Settled(d, m, forced)), forced))
  {
    PlanOfTransfer(d, accepted, m, forced);
    var cp := Settled(d, m, forced);
    var within := ControlWithin(d, ResumeFor(m, cp), forced);
    var ops := OpenOps(d, forced) + FitStage(d, m, forced);
    PartOnlyKeepsControl(d, ops, d);
    Weaken(d, ops, SameControl(d), within);
    HoldsAtEnd(d, ops, SameControl(d));
    var e := Run(d, ops);
    var put := PutResume(ResumeFor(m, cp));
    if forced {
      AlongTwo(e, put, DropRestart, within);
      assert CloseOps(m, cp, forced) == [put, DropRestart];
    } else {
      AlongOne(e, put, within);
      assert CloseOps(m, cp, forced) == [put];
    }
    Join(d, ops, CloseOps(m, cp, forced), within);
  }

  /** A prepare never settles above the recorded checkpoint, and on zero when it is forced. */
  lemma SettledIsRecordedOrZero(d: Directory, accepted: bytes, m: Manifest, forced: bool)
    requires DiskInv(d, accepted)
    ensures var n := Settled(d, m, forced).offset;
            n == 0 || (!forced && d.resume.Some? && n == d.resume.value.durableOffset)
  {
    OpenSafe(d, accepted, forced);
  }

  // ----- crashes and events -----

  lemma CrashControl(d: Directory, e: Directory)
    requires AfterCrash(d, e)
    ensures e.resume == d.resume && e.restart == d.restart
  {
  }

  /** A crash leaves the accepted stream alone; only checkpoint, mark and memory may have moved. */
  lemma FewerUsable(w: World, v: World, device: Address)
    requires MarksInv(w, device)
    requires v.accepted == w.accepted && v.marksBefore == w.marksBefore && Usable(v) <= Usable(w)
    requires v.dir.restart == w.dir.restart || (v.dir.restart == None && Usable(v) == 0)
    requires v.marks == w.marks
    ensures MarksInv(v, device)
  {
  }

  lemma PrepareCrash(w: World, t: Transition, device: Address)
    requires WorldInv(w) && MarksInv(w, device) && Possible(w, t) && t.Crash?
    requires t.event.PrepareEvent? && t.event.address == device
    ensures MarksInv(Next(w, t), device)
  {
    var m := t.event.manifest;
    var forced := Forced(w.dir, device);
    var ops := OpsOf(w, t.event);
    var cut := Run(w.dir, ops[..t.k]);
    CrashControl(cut, t.left);
    if !forced && Committed(w.dir, m) {
      assert ops[..t.k] == [];
    } else {
      TransferControl(w.dir, w.accepted, m, forced);
      SettledIsRecordedOrZero(w.dir, w.accepted, m, forced);
      AlongAt(w.dir, ops, ControlWithin(w.dir, ResumeFor(m, Settled(w.dir, m, forced)), forced), t.k);
    }
    FewerUsable(w, Next(w, t), device);
  }

  ghost function ControlOfActive(w: World): Directory -> bool {
    (e: Directory) => e.restart == w.dir.restart
  }

  lemma {:induction false} NoDropKeepsMark(d: Directory, ops: seq<FileOp>, w: World)
    requires d.restart == w.dir.restart
    requires forall op :: op in ops ==> !op.DropRestart? && !op.PutRestart?
    ensures Along(d, ops, ControlOfActive(w))
    decreases |ops|
  {
    if ops != [] {
      assert ops[0] in ops && forall op :: op in ops[1..] ==> op in ops;
      NoDropKeepsMark(Apply(d, ops[0]), ops[1..], w);
    }
  }

  /** While a session is active every accepted byte is usable, so no crash can make more usable. */
  lemma ActiveCrash(w: World, t: Transition, device: Address)
    requires WorldInv(w) && MarksInv(w, device) && Possible(w, t) && t.Crash?
    requires t.event.AppendEvent? || t.event.CheckpointEvent? || t.event.FinalizeEvent? || t.event.CloseEvent?
    ensures MarksInv(Next(w, t), device)
  {
    var ops := OpsOf(w, t.event);
    var cut := Run(w.dir, ops[..t.k]);
    NoDropKeepsMark(w.dir, ops, w);
    AlongAt(w.dir, ops, ControlOfActive(w), t.k);
    CrashControl(cut, t.left);
    if w.mem.Idle? {
      assert ops[..t.k] == [];
    }
    FewerUsable(w, Next(w, t), device);
  }

  lemma MarkCrash(w: World, t: Transition, device: Address)
    requires WorldInv(w) && MarksInv(w, device) && Possible(w, t) && t.Crash?
    requires t.event.MarkEvent? && t.event.device == device
    ensures MarksInv(Next(w, t), device)
  {
    var ops := OpsOf(w, t.event);
    CrashControl(Run(w.dir, ops[..t.k]), t.left);
    RunOne(w.dir, PutRestart(device));
    assert ops[..t.k] == (if t.k == 0 then [] else [PutRestart(device)]);
  }

  lemma PrepareMarks(w: World, m: Manifest, device: Address)
    requires WorldInv(w) && MarksInv(w, device)
    ensures MarksInv(AfterPrepare(w, m, device), device)
  {
    var forced := Forced(w.dir, device);
    if forced || !Committed(w.dir, m) {
      TransferSafe(w.dir, w.accepted, m, forced);
      SettledIsRecordedOrZero(w.dir, w.accepted, m, forced);
    }
  }

  lemma AppendMarks(w: World, t: Transition, device: Address)
    requires WorldInv(w) && MarksInv(w, device)
    requires t.Complete? && t.event.AppendEvent?
    ensures MarksInv(Next(w, t), device)
  {
    var e := t.event;
    if Append(w.dir, w.mem, e.offset, e.payload, e.prefixCrc) == Fresh {
      FreshAppend(w, e.offset, e.payload, e.prefixCrc);
    }
  }

  lemma StoreEventMarks(w: World, e: Event, device: Address)
    requires WorldInv(w) && MarksInv(w, device)
    requires e.CheckpointEvent? || e.FinalizeEvent? || e.CloseEvent?
    ensures MarksInv(Perform(w, e), device)
  {
    EventStep(w, e);
    NoDropKeepsMark(w.dir, OpsOf(w, e), w);
    HoldsAtEnd(w.dir, OpsOf(w, e), ControlOfActive(w));
    FewerUsable(w, Perform(w, e), device);
  }

  lemma TransitionMarks(w: World, t: Transition, device: Address)
    requires WorldInv(w) && MarksInv(w, device) && Possible(w, t)
    requires DeviceOf(t.event, device)
    ensures MarksInv(Next(w, t), device)
  {
    if t.Crash? {
      match t.event
      case PrepareEvent(_, _) => PrepareCrash(w, t, device);
      case MarkEvent(_) => MarkCrash(w, t, device);
      case _ => ActiveCrash(w, t, device);
    } else {
      match t.event
      case PrepareEvent(m, _) => PrepareMarks(w, m, device);
      case AppendEvent(_, _, _) => AppendMarks(w, t, device);
      case MarkEvent(_) => RunOne(w.dir, PutRestart(device));
      case _ => StoreEventMarks(w, t.event, device);
    }
  }

  // ----- stale bytes -----

  lemma PrepareStale(w: World, m: Manifest, device: Address, n: nat)
    requires WorldInv(w) && MarksInv(w, device) && StaleInv(w, n)
    ensures var t := Complete(PrepareEvent(m, device));
            StaleInv(Next(w, t), StaleAfter(w, t, n))
  {
    PrepareMarks(w, m, device);
    if Prepare(w.dir, m, device).result.Resumable? {
      TransferSafe(w.dir, w.accepted, m, Forced(w.dir, device));
    }
  }

  lemma AppendStale(w: World, t: Transition, n: nat)
    requires WorldInv(w) && StaleInv(w, n) && t.Complete? && t.event.AppendEvent?
    ensures StaleInv(Next(w, t), n)
  {
    var e := t.event;
    if Append(w.dir, w.mem, e.offset, e.payload, e.prefixCrc) == Fresh {
      FreshAppend(w, e.offset, e.payload, e.prefixCrc);
    }
  }

  lemma TransitionStale(w: World, t: Transition, device: Address, n: nat)
    requires WorldInv(w) && MarksInv(w, device) && StaleInv(w, n) && Possible(w, t) && DeviceOf(t.event, device)
    ensures StaleInv(Next(w, t), StaleAfter(w, t, n))
  {
    if t.Complete? {
      match t.event
      case PrepareEvent(m, _) => PrepareStale(w, m, device, n);
      case AppendEvent(_, _, _) => AppendStale(w, t, n);
      case _ =>
    }
  }

  lemma {:induction false} RunKeepsMarks(w: World, ts: seq<Transition>, device: Address, n: nat)
    requires WorldInv(w) && MarksInv(w, device) && StaleInv(w, n) && IsRun(w, ts) && OneDevice(ts, device)
    ensures WorldInv(After(w, ts)) && MarksInv(After(w, ts), device)
    ensures StaleInv(After(w, ts), StaleBytes(w, ts, n))
    decreases |ts|
  {
    if ts != [] {
      assert ts[0] in ts && forall t :: t in ts[1..] ==> t in ts;
      TransitionStep(w, ts[0]);
      TransitionMarks(w, ts[0], device);
      TransitionStale(w, ts[0], device, n);
      RunKeepsMarks(Next(w, ts[0]), ts[1..], device, StaleAfter(w, ts[0], n));
    }
  }

  /**
   * The store itself never refuses an append after a mark. In every run for one device, of any
   * discipline and with any crashes, the next fresh append joins bytes from both sides of a mark if
   * and only if the session had received bytes when the capture was last marked.
   */
  lemma AppendMixesExactlyWhen(ts: seq<Transition>, device: Address, offset: int, payload: bytes, crc: bv32)
    requires IsRun(FRESH_WORLD, ts) && OneDevice(ts, device)
    requires var w := After(FRESH_WORLD, ts); Append(w.dir, w.mem, offset, payload, crc) == Fresh
    ensures var v := AfterAppend(After(FRESH_WORLD, ts), offset, payload, crc);
            SameMarks(v.marksBefore, |v.accepted|) <==> StaleBytes(FRESH_WORLD, ts, 0) == 0
  {
    RunKeepsMarks(FRESH_WORLD, ts, device, 0);
    AppendMixes(After(FRESH_WORLD, ts), offset, payload, crc, StaleBytes(FRESH_WORLD, ts, 0));
  }

  lemma AppendMixes(w: World, offset: int, payload: bytes, crc: bv32, n: nat)
    requires WorldInv(w) && StaleInv(w, n) && Append(w.dir, w.mem, offset, payload, crc) == Fresh
    ensures var v := AfterAppend(w, offset, payload, crc); SameMarks(v.marksBefore, |v.accepted|) <==> n == 0
  {
    var v := AfterAppend(w, offset, payload, crc);
    FreshAppend(w, offset, payload, crc);
    assert v.marksBefore[|w.accepted|] == w.marks;
    if n > 0 {
      assert v.marksBefore[0] == w.marksBefore[0] != w.marks;
    }
  }

  lemma {:induction false} PreparesAgainMeans(w: World, ts: seq<Transition>, device: Address, n: nat)
    requires WorldInv(w) && MarksInv(w, device) && StaleInv(w, n) && IsRun(w, ts) && OneDevice(ts, device)
    requires PreparesAgain(w, ts) && (w.mem.Active? && w.dir.restart.Some? ==> n == |w.accepted|)
    ensures var v := After(w, ts);
            v.mem.Active? && v.dir.restart.Some? ==> StaleBytes(w, ts, n) == |v.accepted|
    decreases |ts|
  {
    if ts != [] {
      assert ts[0] in ts && forall t :: t in ts[1..] ==> t in ts;
      TransitionStep(w, ts[0]);
      TransitionMarks(w, ts[0], device);
      TransitionStale(w, ts[0], device, n);
      PendingMeansAllStale(w, ts[0], device, n);
      PreparesAgainMeans(Next(w, ts[0]), ts[1..], device, StaleAfter(w, ts[0], n));
    }
  }

  lemma PendingMeansAllStale(w: World, t: Transition, device: Address, n: nat)
    requires WorldInv(w) && MarksInv(w, device) && Possible(w, t) && DeviceOf(t.event, device)
    requires TakesFresh(w, t) ==> w.dir.restart == None
    requires w.mem.Active? && w.dir.restart.Some? ==> n == |w.accepted|
    ensures var v := Next(w, t); v.mem.Active? && v.dir.restart.Some? ==> StaleAfter(w, t, n) == |v.accepted|
  {
    if t.Complete? {
      if t.event.PrepareEvent? {
        if Prepare(w.dir, t.event.manifest, device).result.Resumable? {
          TransferSafe(w.dir, w.accepted, t.event.manifest, Forced(w.dir, device));
        }
      } else if TakesFresh(w, t) {
        FreshAppend(w, t.event.offset, t.event.payload, t.event.prefixCrc);
      } else if !t.event.MarkEvent? {
        QuietEvent(w, t);
      }
    }
  }

  lemma QuietEvent(w: World, t: Transition)
    requires WorldInv(w) && t.Complete? && !t.event.PrepareEvent? && !t.event.MarkEvent? && !TakesFresh(w, t)
    ensures Next(w, t).dir.restart == w.dir.restart && Next(w, t).accepted == w.accepted
    ensures Next(w, t).mem.Active? ==> w.mem.Active?
  {
    NoDropKeepsMark(w.dir, OpsOf(w, t.event), w);
    HoldsAtEnd(w.dir, OpsOf(w, t.event), ControlOfActive(w));
  }

  /**
   * The guard that can be read off the store: if the controller prepares again after every mark, the
   * next fresh append keeps the file unmixed exactly when no mark is pending or nothing was received.
   */
  lemma PendingMarkGuard(ts: seq<Transition>, device: Address, offset: int, payload: bytes, crc: bv32)
    requires IsRun(FRESH_WORLD, ts) && OneDevice(ts, device) && PreparesAgain(FRESH_WORLD, ts)
    requires var w := After(FRESH_WORLD, ts); Append(w.dir, w.mem, offset, payload, crc) == Fresh
    ensures var w := After(FRESH_WORLD, ts);
            var v := AfterAppend(w, offset, payload, crc);
            SameMarks(v.marksBefore, |v.accepted|) <==> w.dir.restart == None || w.mem.received == 0
  {
    AppendMixesExactlyWhen(ts, device, offset, payload, crc);
    RunKeepsMarks(FRESH_WORLD, ts, device, 0);
    PreparesAgainMeans(FRESH_WORLD, ts, device, 0);
    var w := After(FRESH_WORLD, ts);
    if StaleBytes(FRESH_WORLD, ts, 0) > 0 {
      assert w.marksBefore[0] != w.marks;
    }
  }

  // ----- unmixed sessions -----

  lemma UnmixedStep(w: World, t: Transition, device: Address, n: nat)
    requires WorldInv(w) && MarksInv(w, device) && StaleInv(w, n) && Possible(w, t) && DeviceOf(t.event, device)
    requires SameMarks(w.marksBefore, Usable(w)) && (TakesFresh(w, t) ==> n == 0)
    ensures SameMarks(Next(w, t).marksBefore, Usable(Next(w, t)))
  {
    var v := Next(w, t);
    TransitionStep(w, t);
    TransitionMarks(w, t, device);
    if TakesFresh(w, t) {
      AppendMixes(w, t.event.offset, t.event.payload, t.event.prefixCrc, n);
    } else {
      UsableShrinks(w, t, device);
    }
  }

  /** Only a fresh append makes more bytes usable. */
  lemma UsableShrinks(w: World, t: Transition, device: Address)
    requires WorldInv(w) && MarksInv(w, device) && Possible(w, t) && DeviceOf(t.event, device) && !TakesFresh(w, t)
    ensures var v := Next(w, t);
            Usable(v) <= Usable(w) && Usable(v) <= |v.marksBefore| && v.marksBefore <= w.marksBefore
  {
    hide Usable;
    if t.Complete? {
      CompletedUsable(w, t, device);
    } else if t.event.PrepareEvent? {
      CrashedPrepareUsable(w, t, device);
    } else if t.event.MarkEvent? {
      CrashedMarkUsable(w, t);
    } else {
      CrashedUsable(w, t);
    }
    TransitionStep(w, t);
    UsableIsBounded(Next(w, t));
  }

  lemma UsableIsBounded(w: World)
    requires WorldInv(w)
    ensures Usable(w) <= |w.marksBefore|
  {
  }

  lemma CompletedUsable(w: World, t: Transition, device: Address)
    requires WorldInv(w) && MarksInv(w, device) && t.Complete? && DeviceOf(t.event, device) && !TakesFresh(w, t)
    ensures Usable(Next(w, t)) <= Usable(w) && Next(w, t).marksBefore <= w.marksBefore
  {
    match t.event
    case PrepareEvent(m, _) =>
      if Prepare(w.dir, m, device).result.Resumable? {
        TransferSafe(w.dir, w.accepted, m, Forced(w.dir, device));
        SettledIsRecordedOrZero(w.dir, w.accepted, m, Forced(w.dir, device));
      }
    case MarkEvent(_) => RunOne(w.dir, PutRestart(device));
    case _ => EventStep(w, t.event);
  }

  lemma CrashedMarkUsable(w: World, t: Transition)
    requires WorldInv(w) && Possible(w, t) && t.Crash? && t.event.MarkEvent?
    ensures Usable(Next(w, t)) <= Usable(w)
  {
    var op := PutRestart(t.event.device);
    CrashControl(Run(w.dir, [op][..t.k]), t.left);
    RunOne(w.dir, op);
    assert [op][..t.k] == (if t.k == 0 then [] else [op]);
  }

  lemma CrashedUsable(w: World, t: Transition)
    requires WorldInv(w) && Possible(w, t) && t.Crash? && !t.event.MarkEvent? && !t.event.PrepareEvent?
    ensures Usable(Next(w, t)) <= Usable(w)
  {
    var ops := OpsOf(w, t.event);
    CrashControl(Run(w.dir, ops[..t.k]), t.left);
    if w.mem.Idle? {
      assert ops[..t.k] == [];
    }
  }

  lemma CrashedPrepareUsable(w: World, t: Transition, device: Address)
    requires WorldInv(w) && MarksInv(w, device) && Possible(w, t) && t.Crash?
    requires t.event.PrepareEvent? && t.event.address == device
    ensures Usable(Next(w, t)) <= Usable(w)
  {
    var m := t.event.manifest;
    var forced := Forced(w.dir, device);
    var ops := OpsOf(w, t.event);
    CrashControl(Run(w.dir, ops[..t.k]), t.left);
    if !forced && Committed(w.dir, m) {
      assert ops[..t.k] == [];
    } else {
      TransferControl(w.dir, w.accepted, m, forced);
      SettledIsRecordedOrZero(w.dir, w.accepted, m, forced);
      AlongAt(w.dir, ops, ControlWithin(w.dir, ResumeFor(m, Settled(w.dir, m, forced)), forced), t.k);
    }
  }

  lemma {:induction false} RunKeepsUnmixed(w: World, ts: seq<Transition>, device: Address, n: nat)
    requires WorldInv(w) && MarksInv(w, device) && StaleInv(w, n) && IsRun(w, ts) && OneDevice(ts, device)
    requires NoStaleAppend(w, ts, n) && SameMarks(w.marksBefore, Usable(w))
    ensures SameMarks(After(w, ts).marksBefore, Usable(After(w, ts)))
    decreases |ts|
  {
    if ts != [] {
      assert ts[0] in ts && forall t :: t in ts[1..] ==> t in ts;
      TransitionStep(w, ts[0]);
      TransitionMarks(w, ts[0], device);
      TransitionStale(w, ts[0], device, n);
      UnmixedStep(w, ts[0], device, n);
      RunKeepsUnmixed(Next(w, ts[0]), ts[1..], device, StaleAfter(w, ts[0], n));
    }
  }

  /**
   * Preempted transfers never mix, in every run for one device in which no fresh chunk follows stale
   * bytes: the bytes of an open part file were all received between the same two marks. And in every
   * run for one device, whatever was appended, a prefix that a later prepare opens with holds only
   * bytes from after the latest mark, and the mark is gone.
   */
  lemma PreemptedTransfersNeverMix(ts: seq<Transition>, device: Address, m: Manifest)
    requires IsRun(FRESH_WORLD, ts) && OneDevice(ts, device)
    ensures var w := After(FRESH_WORLD, ts);
            && (w.mem.Active? ==>
                 && w.dir.part.Present? && w.dir.part.data == w.accepted
                 && (NoStaleAppend(FRESH_WORLD, ts, 0) ==> SameMarks(w.marksBefore, |w.accepted|))
                 && (w.dir.restart == None ==> forall k :: k in w.marksBefore ==> k == w.marks))
            && (Prepare(w.dir, m, device).result.Resumable? ==>
                 var v := AfterPrepare(w, m, device);
                 && v.dir.part.Present? && v.dir.part.data == v.accepted && v.dir.restart == None
                 && forall k :: k in v.marksBefore ==> k == v.marks)
  {
    RunKeepsMarks(FRESH_WORLD, ts, device, 0);
    if NoStaleAppend(FRESH_WORLD, ts, 0) {
      RunKeepsUnmixed(FRESH_WORLD, ts, device, 0);
    }
    var w := After(FRESH_WORLD, ts);
    PrepareStep(w, m, device);
    PrepareMarks(w, m, device);
    if Prepare(w.dir, m, device).result.Resumable? {
      TransferSafe(w.dir, w.accepted, m, Forced(w.dir, device));
    }
  }

  /**
   * The run that mixes, for every manifest and any two chunks that fit: a session is opened, a chunk is
   * taken, the capture is marked, and the next chunk is taken as well.
   */
  lemma AppendAfterMarkMixes(m: Manifest, device: Address, a: bytes, b: bytes)
    requires a != [] && b != [] && |a| + |b| <= m.logicalBytes
    ensures IsRun(FRESH_WORLD, MarkedRun(m, device, a)) && OneDevice(MarkedRun(m, device, a), device)
    ensures var w := After(FRESH_WORLD, MarkedRun(m, device, a));
            var v := AfterAppend(w, |a|, b, Crc(a + b, 0));
            && Append(w.dir, w.mem, |a|, b, Crc(a + b, 0)) == Fresh
            && v.dir.part.Present? && v.dir.part.data == a + b && !SameMarks(v.marksBefore, |a| + |b|)
  {
    MarkedSession(m, device, a);
    hide *;
    NextChunkMixes(After(FRESH_WORLD, MarkedRun(m, device, a)), a, b);
  }

  lemma NextChunkMixes(w: World, a: bytes, b: bytes)
    requires WorldInv(w) && w.mem.Active? && w.accepted == a != [] && b != []
    requires |a| + |b| <= w.mem.manifest.logicalBytes && w.marksBefore[0] != w.marks
    ensures var v := AfterAppend(w, |a|, b, Crc(a + b, 0));
            && Append(w.dir, w.mem, |a|, b, Crc(a + b, 0)) == Fresh
            && v.dir.part.Present? && v.dir.part.data == a + b && !SameMarks(v.marksBefore, |a| + |b|)
  {
    assert |w.marksBefore| == |a|;
    hide *;
    ChunkIsTaken(w, b);
    DifferentMarks(w.marksBefore, |b|, w.marks);
  }

  /** The marks of a stream after `n` more bytes. */
  function Stamped(before: seq<nat>, n: nat, mark: nat): seq<nat> {
    before + seq(n, i => mark)
  }

  lemma DifferentMarks(before: seq<nat>, n: nat, mark: nat)
    requires before != [] && n > 0 && before[0] != mark
    ensures !SameMarks(Stamped(before, n, mark), |before| + n)
  {
    var all := Stamped(before, n, mark);
    assert all[0] == before[0] && all[|before|] == mark;
  }

  /** Open a session, take a chunk, mark the capture. */
  function MarkedRun(m: Manifest, device: Address, a: bytes): seq<Transition> {
    [Complete(PrepareEvent(m, device)), Complete(AppendEvent(0, a, Crc(a, 0))), Complete(MarkEvent(device))]
  }

  lemma MarkedSession(m: Manifest, device: Address, a: bytes)
    requires a != [] && |a| <= m.logicalBytes
    ensures var ts := MarkedRun(m, device, a);
            && IsRun(FRESH_WORLD, ts) && OneDevice(ts, device)
            && var w := After(FRESH_WORLD, ts);
               && WorldInv(w) && w.mem.Active? && w.mem.manifest == m && w.accepted == a
               && |w.marksBefore| == |a| && w.marksBefore[0] == 0 && w.marks == 1
  {
    var prepare := Complete(PrepareEvent(m, device));
    var append := Complete(AppendEvent(0, a, Crc(a, 0)));
    var mark := Complete(MarkEvent(device));
    FirstPrepare(m, device);
    var begun := Next(FRESH_WORLD, prepare);
    assert begun == AfterPrepare(FRESH_WORLD, m, device);
    FirstChunk(begun, a);
    MarkKeepsBytes(Next(begun, append), device);
    AfterThree(FRESH_WORLD, prepare, append, mark);
    OneDeviceOnly(m, device, a);
    hide *;
  }

  lemma OneDeviceOnly(m: Manifest, device: Address, a: bytes)
    ensures OneDevice(MarkedRun(m, device, a), device)
  {
  }

  lemma FirstChunk(w: World, a: bytes)
    requires WorldInv(w) && w.mem.Active? && w.accepted == [] && w.marksBefore == [] && w.marks == 0
    requires a != [] && |a| <= w.mem.manifest.logicalBytes
    ensures var v := Next(w, Complete(AppendEvent(0, a, Crc(a, 0))));
            && WorldInv(v) && v.mem.Active? && v.mem.manifest == w.mem.manifest && v.accepted == a
            && |v.marksBefore| == |a| && v.marksBefore[0] == 0 && v.marks == 0
  {
    assert [] + a == a;
    ChunkIsTaken(w, a);
    hide Append, WorldInv;
  }

  lemma MarkKeepsBytes(w: World, device: Address)
    requires WorldInv(w)
    ensures var v := Next(w, Complete(MarkEvent(device)));
            WorldInv(v) && v == w.(dir := v.dir, marks := w.marks + 1)
  {
    TransitionStep(w, Complete(MarkEvent(device)));
  }

  lemma AfterOne(w: World, t: Transition, rest: seq<Transition>)
    ensures After(w, [t] + rest) == After(Next(w, t), rest)
    ensures IsRun(w, [t] + rest) <==> Possible(w, t) && IsRun(Next(w, t), rest)
    ensures After(w, []) == w && IsRun(w, [])
  {
    assert ([t] + rest)[1..] == rest;
  }

  lemma AfterThree(w: World, a: Transition, b: Transition, c: Transition)
    requires a.Complete? && b.Complete? && c.Complete?
    ensures IsRun(w, [a, b, c]) && After(w, [a, b, c]) == Next(Next(Next(w, a), b), c)
  {
    hide Next, Possible, After, IsRun;
    CompleteIsPossible(w, a);
    CompleteIsPossible(Next(w, a), b);
    CompleteIsPossible(Next(Next(w, a), b), c);
    assert [a, b, c] == [a] + [b, c] && [b, c] == [b] + [c] && [c] == [c] + [];
    AfterOne(w, a, [b, c]);
    AfterOne(Next(w, a), b, [c]);
    AfterOne(Next(Next(w, a), b), c, []);
    AfterOne(Next(Next(Next(w, a), b), c), c, []);
  }

  lemma CompleteIsPossible(w: World, t: Transition)
    requires t.Complete?
    ensures Possible(w, t)
  {
  }

  lemma FirstPrepare(m: Manifest, device: Address)
    ensures var w := AfterPrepare(FRESH_WORLD, m, device);
            WorldInv(w) && w.mem.Active? && w.mem.manifest == m && w.accepted == [] && w.marksBefore == []
            && w.marks == 0 && w.dir.restart == None
  {
    assert WorldInv(FRESH_WORLD);
    PrepareStep(FRESH_WORLD, m, device);
    TransferSafe(EMPTY_DIRECTORY, [], m, false);
  }

  lemma ChunkIsTaken(w: World, chunk: bytes)
    requires WorldInv(w) && w.mem.Active? && chunk != []
    requires |w.accepted| + |chunk| <= w.mem.manifest.logicalBytes
    ensures var crc := Crc(w.accepted + chunk, 0);
            var v := AfterAppend(w, |w.accepted|, chunk, crc);
            && Append(w.dir, w.mem, |w.accepted|, chunk, crc) == Fresh
            && WorldInv(v) && v.mem.Active? && v.mem.manifest == w.mem.manifest
            && v.accepted == w.accepted + chunk && v.marks == w.marks
            && v.marksBefore == Stamped(w.marksBefore, |chunk|, w.marks)
            && v.dir.part.Present? && v.dir.part.data == w.accepted + chunk
  {
    CrcChain(w.accepted, chunk, 0);
    FreshAppend(w, |w.accepted|, chunk, Crc(w.accepted + chunk, 0));
  }

  /** A mark disappears only in a step that leaves a durable, empty part file and a zero checkpoint. */
  lemma MarkOutlivesUntilZero(w: World, t: Transition)
    requires WorldInv(w) && Possible(w, t) && w.dir.restart.Some? && Next(w, t).dir.restart.None?
    ensures var d := Next(w, t).dir;
            && t.event.PrepareEvent? && Some(t.event.address) == w.dir.restart
            && d.part == Present([], [])
            && d.resume == Some(ResumeFor(t.event.manifest, ZERO_CHECKPOINT))
  {
    var ops := OpsOf(w, t.event);
    var k := if t.Crash? then t.k else |ops|;
    var cut := Run(w.dir, ops[..k]);
    assert ops[..|ops|] == ops;
    if t.Crash? {
      CrashControl(cut, t.left);
    }
    if !t.event.PrepareEvent? && !t.event.MarkEvent? {
      NoDropKeepsMark(w.dir, ops, w);
      AlongAt(w.dir, ops, ControlOfActive(w), k);
    } else if t.event.MarkEvent? {
      RunOne(w.dir, PutRestart(t.event.device));
    } else {
      ForcedPrepareDropsLast(w, t.event.manifest, t.event.address, k);
    }
  }

  lemma ForcedPrepareDropsLast(w: World, m: Manifest, address: Address, k: nat)
    requires WorldInv(w) && k <= |Prepare(w.dir, m, address).ops|
    requires w.dir.restart.Some? && Run(w.dir, Prepare(w.dir, m, address).ops[..k]).restart.None?
    ensures Some(address) == w.dir.restart
    ensures var d := Run(w.dir, Prepare(w.dir, m, address).ops[..k]);
            d.part == Present([], []) && d.resume == Some(ResumeFor(m, ZERO_CHECKPOINT))
  {
    var forced := Forced(w.dir, address);
    var ops := Prepare(w.dir, m, address).ops;
    if forced {
      ForcedPlan(w.dir, w.accepted, m);
      if k < 3 {
        NoDropKeepsMark(w.dir, ops[..k], w);
        HoldsAtEnd(w.dir, ops[..k], ControlOfActive(w));
      } else {
        var rest := [PutResume(ResumeFor(m, ZERO_CHECKPOINT)), DropRestart];
        assert ops[..k] == [ResetPart] + rest;
        RunConcat(w.dir, [ResetPart], rest);
        RunOne(w.dir, ResetPart);
        RunTwo(Apply(w.dir, ResetPart), rest[0], rest[1]);
      }
    } else if !Committed(w.dir, m) {
      TransferControl(w.dir, w.accepted, m, forced);
      AlongAt(w.dir, ops, ControlWithin(w.dir, ResumeFor(m, Settled(w.dir, m, forced)), forced), k);
    }
  }

  /** A forced prepare is exactly: empty the part file, publish zero, and only then drop the mark. */
  lemma ForcedPlan(d: Directory, accepted: bytes, m: Manifest)
    requires DiskInv(d, accepted)
    ensures TransferPlan(d, m, true).ops
            == [ResetPart, PutResume(ResumeFor(m, ZERO_CHECKPOINT)), DropRestart]
  {
    PlanOfTransfer(d, accepted, m, true);
    RunOne(d, ResetPart);
    assert FitStage(d, m, true) == [];
  }

  /**
   * When a prepare resumes instead of starting over: exactly when the mark, if any, is another
   * device's, and an in-range checkpoint of this manifest stands beside a non-empty file.
   */
  lemma ResumesExactlyWhen(d: Directory, accepted: bytes, m: Manifest, address: Address)
    requires DiskInv(d, accepted) && (Forced(d, address) || !Committed(d, m))
    ensures var result := Prepare(d, m, address).result;
            result.Resumable? &&
            (result.checkpoint.offset > 0 <==>
               && d.restart != Some(address)
               && d.resume.Some? && ResumeMatches(d.resume.value, m)
               && 0 < d.resume.value.durableOffset <= m.logicalBytes
               && Current(d).Present? && Current(d).data != [])
  {
    var forced := Forced(d, address);
    TransferSafe(d, accepted, m, forced);
    OpenSafe(d, accepted, forced);
    if !forced && d.resume.Some? && Current(d).Present? {
      assert MayLeave(Current(d), Current(d).data);
    }
  }
}
