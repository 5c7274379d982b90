/** The bounded connection recovery, with everything it awaits left to the environment. */
module Recovery {
  import opened RecoverySpec
  import opened Wrappers

  /** How an await ends: with a value, with an exception, or with a CancelledError. */
  datatype Raised = Nothing | Failure(failure: RecoverySpec.Failure) | Interrupted
  datatype Pairing = Paired | NotPaired | Unknown

  /** What an awaited call answers; `syncing` is the coordinator stage found afterwards. */
  datatype Answer = Answer(raised: Raised, flag: bool, gatt: bool, syncing: bool, preserve: bool, endpoint: string,
                           pairing: Pairing)

  /** One await: the user actions that come in meanwhile, and how the awaited call answers. */
  datatype Moment = Moment(ui: seq<UiAction>, swallowed: bool, answer: Answer)

  /** A cancel interrupts the await it falls into, unless the awaited call swallows the cancellation. */
  function Heard(m: Moment): Answer {
    if Cancel in m.ui && !m.swallowed then LOST else m.answer
  }

  predicate Interrupts(m: Moment) {
    Heard(m).raised == Interrupted
  }

  datatype Exit = Go | Retry(client: bool) | Success | Fail(why: RecoverySpec.Failure) | CancelledExit

  predicate Fatal(f: RecoverySpec.Failure) {
    f.Identity? || f.Protocol? || f.HostCi? || f.Business? || f.AccessDenied? || f.Cleanup?
  }

  const LOST := Answer(Interrupted, false, false, false, false, "", Unknown)

  class ConnectionRecovery {
    var operationId: nat
    var running: bool
    var cancelled: bool
    var confirmation: Confirmation
    var authorizedAddress: string
    var authorizedEndpoint: string
    var confirmedEndpoint: string
    ghost var log: seq<Entry>
    // of one run
    var missingCount: nat
    var securitySeen: bool
    var preserveBusiness: bool
    var syncing: bool
    var failure: RecoverySpec.Failure
    // what the awaited calls and the user will do, until the program ends
    var script: seq<Moment>
    // the moments awaited in this run, and whether the last await outlived the program
    ghost var seen: seq<Moment>
    ghost var ranOut: bool

    ghost function View(): Shared
      reads `operationId, `cancelled, `confirmation, `authorizedAddress, `authorizedEndpoint, `confirmedEndpoint, `log
    {
      Shared(operationId, cancelled, confirmation, authorizedAddress, authorizedEndpoint, confirmedEndpoint, log)
    }

    /** The counters of a run agree with its log. */
    ghost predicate Counted(attempts: nat, unpairs: nat)
      reads `log, `missingCount, `securitySeen
    {
      && Count(log, Attempt) == attempts && Unpairs(log) == unpairs
      && missingCount == Count(log, Missing) && (securitySeen ==> Failed(Security) in log)
      && Count(log, Closing(true)) == 0 && Count(log, Closing(false)) == 0
    }

    /** The moments of the run in order, awaited and still to come. */
    ghost function Whole(): seq<Moment>
      reads `seen, `script
    {
      seen + script
    }

    /** No question is open and no approval is left. */
    ghost predicate Quiet()
      reads `confirmation, `authorizedEndpoint
    {
      confirmation == NoQuestion && authorizedEndpoint == ""
    }

    constructor (script: seq<Moment>)
      ensures !running && Quiet()
    {
      operationId, running, cancelled, confirmation := 0, false, false, NoQuestion;
      authorizedAddress, authorizedEndpoint, confirmedEndpoint, log := "", "", "", [];
      missingCount, securitySeen, preserveBusiness, syncing, failure := 0, false, false, false, Unreachable;
      this.script, seen, ranOut := script, [], false;
    }

    method DoAction(a: UiAction)
      modifies `operationId, `cancelled, `confirmation, `authorizedAddress, `authorizedEndpoint, `confirmedEndpoint,
               `log
      ensures View() == Act(old(View()), a)
    {
      match a {
        case Respond(op, approved) =>
          if op == operationId && confirmation == Waiting {
            confirmation := Answered(approved);
            if approved {
              log := log + [Approved(op)];
            }
          }
        case Cancel =>
          operationId := operationId + 1;
          authorizedAddress := "";
          authorizedEndpoint := "";
          confirmedEndpoint := "";
          cancelled := true;
          log := log + [CancelRequested];
      }
    }

    /** What the user does during one await. */
    method Play(ui: seq<UiAction>)
      modifies `operationId, `cancelled, `confirmation, `authorizedAddress, `authorizedEndpoint, `confirmedEndpoint,
               `log
      ensures View() == ActAll(old(View()), ui)
    {
      hide Act;
      ghost var before := View();
      var i := 0;
      while i < |ui|
        invariant 0 <= i <= |ui| && View() == ActAll(before, ui[..i])
      {
        DoAction(ui[i]);
        assert ui[..i + 1][..i] == ui[..i];
        i := i + 1;
      }
      assert ui[..i] == ui;
    }

    /** What user actions leave of the other fields. */
    twostate lemma UiEffects()
      requires OnlyUi(old(View()), View())
      ensures forall attempts, unpairs ::
                (old(Counted(attempts, unpairs)) && missingCount == old(missingCount)
                 && securitySeen == old(securitySeen)) ==> Counted(attempts, unpairs)
      ensures (old(confirmation) == NoQuestion <==> confirmation == NoQuestion) && (old(Quiet()) ==> Quiet())
      ensures !cancelled ==> confirmedEndpoint == old(confirmedEndpoint)
      ensures View().cancelled == cancelled
    {
      hide Count, Unpairs;
    }

    method TakeMoment() returns (moment: Moment)
      requires script != []
      modifies `script, `seen
      ensures moment == old(script)[0] && seen == old(seen) + [moment] && Whole() == old(Whole())
      ensures |script| < |old(script)|
    {
      moment := script[0];
      script := script[1..];
      seen := seen + [moment];
      assert seen + script == old(seen + script);
    }

    /** Gives up control until the awaited call is over. */
    method Await(ghost op: nat, ghost attempts: nat, ghost unpairs: nat) returns (a: Answer)
      requires Tied(View(), op) && Counted(attempts, unpairs)
      modifies `operationId, `cancelled, `confirmation, `authorizedAddress, `authorizedEndpoint, `confirmedEndpoint,
               `log, `syncing, `script, `seen, `ranOut
      ensures Tied(View(), op) && Counted(attempts, unpairs) && OnlyUi(old(View()), View())
      ensures |script| < |old(script)| || (script == [] && a.raised == Interrupted)
      ensures Whole() == old(Whole()) && ranOut == (old(script) == []) && (ranOut ==> script == [] && a == LOST)
      ensures !ranOut ==> seen == old(seen) + [old(script)[0]] && a == Heard(old(script)[0])
      ensures !ranOut && Cancel in old(script)[0].ui ==> cancelled
      ensures (old(confirmation) == NoQuestion <==> confirmation == NoQuestion) && (old(Quiet()) ==> Quiet())
      ensures !cancelled ==> confirmedEndpoint == old(confirmedEndpoint)
    {
      hide Tied, Act, ActAll, Heard, Whole, View, OnlyUi, Quiet;
      ranOut := script == [];
      if script == [] {
        ActAllKeeps(View(), [], op);
        NothingActed(View());
        UiEffects();
        return LOST;
      }
      var moment := TakeMoment();
      ActAllKeeps(View(), moment.ui, op);
      if Cancel in moment.ui {
        CancelIsKept(View(), moment.ui);
      }
      Play(moment.ui);
      UiEffects();
      a := Heard(moment);
      syncing := a.syncing;
    }

    method Note(e: Entry, ghost op: nat)
      requires Tied(View(), op) && (e.Attempt? || e.Missing? || e.Failed? || e.Resolved? || e.Closing?)
      modifies `log
      ensures Tied(View(), op) && log == old(log) + [e]
    {
      hide Lawful, ConsentOf;
      Extend(log, e);
      log := log + [e];
    }

    /** One discovery: the error kinds are those `_discover` lets through. */
    method Discover(ghost op: nat, ghost attempts: nat, ghost unpairs: nat) returns (a: Answer)
      requires Tied(View(), op) && Counted(attempts, unpairs)
      modifies this
      ensures Whole() == old(Whole())
      ensures Tied(View(), op) && Counted(attempts, unpairs) && |script| <= |old(script)|
      ensures old(Quiet()) ==> Quiet()
      ensures running == old(running) && (a.raised != Interrupted ==> |script| < |old(script)|)
    {
      a := Await(op, attempts, unpairs);
    }

    /** A failed attempt or probe is remembered. */
    method Remember(f: RecoverySpec.Failure, ghost op: nat, ghost attempts: nat, ghost unpairs: nat)
      requires Tied(View(), op) && Counted(attempts, unpairs)
      modifies `log, `securitySeen, `failure
      ensures Tied(View(), op) && Counted(attempts, unpairs) && failure == f
    {
      hide Tied;
      Extend(log, Failed(f));
      Note(Failed(f), op);
      assert Failed(f) in log;
      securitySeen := securitySeen || f == Security;
      failure := f;
    }

    method BeginAttempt(ghost op: nat, ghost attempts: nat, ghost unpairs: nat)
      requires Tied(View(), op) && Counted(attempts, unpairs)
      modifies `log
      ensures Tied(View(), op) && Counted(attempts + 1, unpairs)
    {
      hide Tied;
      Extend(log, Attempt);
      Note(Attempt, op);
    }

    method CountMissing(ghost op: nat, ghost attempts: nat, ghost unpairs: nat)
      requires Tied(View(), op) && Counted(attempts, unpairs)
      modifies `log, `missingCount
      ensures Tied(View(), op) && Counted(attempts, unpairs) && missingCount == old(missingCount) + 1
    {
      hide Tied;
      Extend(log, Missing);
      Note(Missing, op);
      missingCount := missingCount + 1;
    }

    /** The part of an attempt inside the inner `try`: `Retry` stands for an exception. */
    method TryConnect(first: Option<RecoverySpec.Failure>, prepared: Option<Answer>, ghost op: nat,
                      ghost attempts: nat, ghost unpairs: nat) returns (exit: Exit, why: RecoverySpec.Failure)
      requires Tied(View(), op) && Counted(attempts, unpairs)
      modifies this
      ensures Whole() == old(Whole())
      ensures Tied(View(), op) && Counted(attempts, unpairs) && |script| <= |old(script)|
      ensures exit.Success? || exit.Retry? || exit == CancelledExit
      ensures old(Quiet()) ==> Quiet()
      ensures running == old(running)
    {
      hide *;
      if first.Some? {
        return Retry(false), first.value;
      }
      var found: Answer;
      if prepared.Some? {
        found := prepared.value;
      } else {
        found := Discover(op, attempts, unpairs);
        match found.raised {
          case Interrupted => return CancelledExit, Unreachable;
          case Failure(f) => return Retry(false), f;
          case Nothing =>
        }
      }
      if cancelled {
        return CancelledExit, Unreachable;
      }
      if !found.gatt {
        CountMissing(op, attempts, unpairs);
        return Retry(true), GattMissing;
      }
      var a := Await(op, attempts, unpairs);
      match a.raised {
        case Interrupted => return CancelledExit, Unreachable;
        case Failure(f) => return Retry(true), f;
        case Nothing =>
      }
      if cancelled {
        return CancelledExit, Unreachable;
      }
      if a.flag {
        return Success, Unreachable;
      }
      preserveBusiness := a.preserve;
      return Retry(true), Business;
    }

    /** One pass of the attempt loop. `Go` means that another attempt may follow. */
    method AttemptOnce(attempt: nat, first: Option<RecoverySpec.Failure>, prepared: Option<Answer>, ghost op: nat,
                       ghost attempts: nat, ghost unpairs: nat) returns (exit: Exit)
      requires Tied(View(), op) && Counted(attempts, unpairs)
      modifies this
      ensures Whole() == old(Whole())
      ensures Tied(View(), op) && |script| <= |old(script)|
      ensures exit == Go || exit.Success? || exit.Fail? || exit == CancelledExit
      ensures Counted(attempts + 1, unpairs) || (Counted(attempts, unpairs) && exit == CancelledExit)
      ensures old(Quiet()) ==> Quiet()
      ensures running == old(running)
    {
      hide *;
      if cancelled {
        return CancelledExit;
      }
      BeginAttempt(op, attempts, unpairs);
      if attempt > 1 {
        var slept := Await(op, attempts + 1, unpairs);
        if slept.raised == Interrupted {
          return CancelledExit;
        }
      }
      var why;
      exit, why := TryConnect(first, prepared, op, attempts + 1, unpairs);
      if !exit.Retry? {
        return;
      }
      if syncing {
        preserveBusiness := true;
        why := Business;
      }
      Remember(why, op, attempts + 1, unpairs);
      if preserveBusiness {
        return Fail(why);
      }
      if exit.client {
        var dropped := Await(op, attempts + 1, unpairs);
        match dropped.raised {
          case Interrupted => return CancelledExit;
          case Failure(f) => return Fail(f);
          case Nothing =>
        }
      }
      return if Fatal(why) then Fail(why) else Go;
    }

    method Ask(endpoint: string, ghost op: nat, ghost attempts: nat, ghost unpairs: nat)
      requires Tied(View(), op) && Counted(attempts, unpairs) && !cancelled && authorizedEndpoint == ""
      modifies `confirmedEndpoint, `confirmation, `log
      ensures Tied(View(), op) && Counted(attempts, unpairs) && confirmation == Waiting
      ensures confirmedEndpoint == endpoint
    {
      hide Count, Unpairs, Lawful;
      confirmedEndpoint := endpoint;
      Extend(log, Asked(operationId, endpoint));
      log := log + [Asked(operationId, endpoint)];
      confirmation := Waiting;
    }

    /** The `finally` of `_confirm`. */
    method CloseQuestion(ghost op: nat)
      requires Tied(View(), op)
      modifies `confirmation
      ensures Tied(View(), op) && confirmation == NoQuestion
    {
      hide Lawful, ConsentOf;
      confirmation := NoQuestion;
    }

    ghost method ApprovalIsConsent(op: nat)
      requires Tied(View(), op) && !cancelled && confirmation == Answered(true)
      ensures ConsentOf(log) == Given(op, confirmedEndpoint)
    {
    }

    /** `_confirm`: waits for an answer to this question. */
    method Confirm(endpoint: string, ghost op: nat, ghost attempts: nat, ghost unpairs: nat)
      returns (exit: Exit, approved: bool)
      requires Tied(View(), op) && Counted(attempts, unpairs) && !cancelled && authorizedEndpoint == ""
      modifies this
      ensures Whole() == old(Whole())
      ensures Tied(View(), op) && Counted(attempts, unpairs) && |script| <= |old(script)|
      ensures missingCount == old(missingCount) && securitySeen == old(securitySeen) && confirmation == NoQuestion
      ensures running == old(running)
      ensures exit == Go || exit == CancelledExit
      ensures exit == Go && approved ==> !cancelled && ConsentOf(log) == Given(op, endpoint)
    {
      hide *;
      Ask(endpoint, op, attempts, unpairs);
      exit, approved := Go, false;
      while confirmation == Waiting
        invariant Whole() == old(Whole())
        invariant Tied(View(), op) && Counted(attempts, unpairs) && |script| <= |old(script)|
        invariant missingCount == old(missingCount) && securitySeen == old(securitySeen)
        invariant running == old(running)
        invariant exit == Go && !cancelled && confirmedEndpoint == endpoint && confirmation != NoQuestion
        decreases |script|
      {
        var a := Await(op, attempts, unpairs);
        if cancelled || a.raised == Interrupted {
          CloseQuestion(op);
          return CancelledExit, false;
        }
      }
      approved := confirmation == Answered(true);
      if approved {
        ApprovalIsConsent(op);
      }
      CloseQuestion(op);
    }

    /** The approval is used up, and the destructive call begins. */
    method Consume(endpoint: string, ghost op: nat, ghost attempts: nat)
      requires Tied(View(), op) && Counted(attempts, 0) && Qualifies(log) && confirmation == NoQuestion && !cancelled
      requires endpoint != "" && authorizedEndpoint == endpoint
      requires log != [] && log[|log| - 1] == Resolved(endpoint, true)
      modifies `log, `authorizedEndpoint, `authorizedAddress
      ensures Tied(View(), op) && Counted(attempts, 1) && log == old(log) + [Unpair(operationId, endpoint)]
      ensures authorizedEndpoint == ""
    {
      hide Count, Unpairs, Lawful, ConsentOf, Qualifies;
      authorizedEndpoint := "";
      authorizedAddress := "";
      Extend(log, Unpair(op, endpoint));
      LawfulUnpair(log, op, endpoint);
      log := log + [Unpair(operationId, endpoint)];
    }

    /** The second look at the target: only an unchanged, still paired endpoint uses up the approval. */
    method UseApproval(address: string, operation: nat, endpoint: string, target: Answer, ghost op: nat,
                       ghost attempts: nat) returns (used: bool)
      requires Tied(View(), op) && Counted(attempts, 0) && endpoint != ""
      requires (missingCount >= 2 || securitySeen) && confirmation == NoQuestion
      modifies `log, `authorizedEndpoint, `authorizedAddress
      ensures Tied(View(), op) && Counted(attempts, if used then 1 else 0)
      ensures used ==> target.pairing == Paired && target.endpoint == endpoint
                       && log == old(log) + [Resolved(endpoint, true), Unpair(operation, endpoint)]
    {
      hide Tied, Count, Unpairs, View;
      Extend(log, Resolved(target.endpoint, target.pairing == Paired));
      Note(Resolved(target.endpoint, target.pairing == Paired), op);
      if operationId != operation || !running || cancelled || authorizedAddress != address
         || authorizedEndpoint != endpoint || target.endpoint != endpoint || target.pairing != Paired {
        return false;
      }
      Consume(endpoint, op, attempts);
      return true;
    }

    /** `_unpair_windows_device`. The approval is used up before the destructive call. */
    method UnpairWindowsDevice(address: string, windows: bool, ghost op: nat, ghost attempts: nat)
      returns (exit: Exit, ok: bool)
      requires Tied(View(), op) && Counted(attempts, 0) && confirmation == NoQuestion
      requires missingCount >= 2 || securitySeen
      modifies this
      ensures Whole() == old(Whole())
      ensures Tied(View(), op) && |script| <= |old(script)|
      ensures Counted(attempts, 0) || Counted(attempts, 1)
      ensures (exit == Go || exit == CancelledExit) && confirmation == NoQuestion && running == old(running)
    {
      hide *;
      if authorizedAddress != address || authorizedEndpoint == "" || !running || cancelled || !windows {
        return Go, false;
      }
      var operation, endpoint := operationId, authorizedEndpoint;
      var target := Await(op, attempts, 0);
      match target.raised {
        case Interrupted => return CancelledExit, false;
        case Failure(_) => return Go, false;
        case Nothing =>
      }
      var used := UseApproval(address, operation, endpoint, target, op, attempts);
      if !used {
        return Go, false;
      }
      var result := Await(op, attempts, 1);
      match result.raised {
        case Interrupted => return CancelledExit, false;
        case Failure(_) => return Go, false;
        case Nothing => return Go, result.flag;
      }
    }

    /** What follows three failed attempts of the first round. `Go` means that a second round may start. */
    method OfferRepair(address: string, windows: bool, ghost op: nat, ghost attempts: nat) returns (exit: Exit)
      requires Tied(View(), op) && Counted(attempts, 0) && Quiet() && running
      modifies this
      ensures Whole() == old(Whole())
      ensures Tied(View(), op) && |script| <= |old(script)| && (exit == Go || exit.Fail? || exit == CancelledExit)
      ensures Quiet() && running
      ensures Counted(attempts, 0) || Counted(attempts, 1)
    {
      hide *;
      if !(missingCount >= 2 || securitySeen) {
        return Fail(failure);
      }
      var target := Await(op, attempts, 0);
      match target.raised {
        case Interrupted => return CancelledExit;
        case Failure(f) => return Fail(f);
        case Nothing =>
      }
      if cancelled {
        return CancelledExit;
      }
      if target.pairing != Paired {
        return Fail(if target.pairing == Unknown then PairingUnknown else failure);
      }
      var ok;
      exit, ok := RepairTarget(address, target.endpoint, windows, op, attempts);
      if exit != Go {
        return;
      }
      if !ok {
        return Fail(UnpairFailed);
      }
      exit := FindAgain(op, attempts);
    }

    /** Consent, the authorization bound to it, and the one unpair; the authorization never outlives it. */
    method RepairTarget(address: string, endpoint: string, windows: bool, ghost op: nat, ghost attempts: nat)
      returns (exit: Exit, ok: bool)
      requires Tied(View(), op) && Counted(attempts, 0) && Quiet() && running && !cancelled
      requires missingCount >= 2 || securitySeen
      modifies this
      ensures Whole() == old(Whole())
      ensures Tied(View(), op) && |script| <= |old(script)| && (exit == Go || exit.Fail? || exit == CancelledExit)
      ensures Quiet() && running
      ensures Counted(attempts, 0) || Counted(attempts, 1)
    {
      hide Count, Unpairs, Lawful, ConsentOf, Whole, OnlyUi, Counted;
      var approved;
      exit, approved := Confirm(endpoint, op, attempts, 0);
      ok := false;
      if exit == Go && approved {
        authorizedAddress := address;
        authorizedEndpoint := endpoint;
        exit, ok := UnpairWindowsDevice(address, windows, op, attempts);
      } else if exit == Go {
        exit := Fail(Declined);
      }
      authorizedAddress := "";
      authorizedEndpoint := "";
    }

    /** After an unpair the device must be scanned again. */
    method FindAgain(ghost op: nat, ghost attempts: nat) returns (exit: Exit)
      requires Tied(View(), op) && (Counted(attempts, 0) || Counted(attempts, 1)) && Quiet()
      modifies this
      ensures Whole() == old(Whole())
      ensures Tied(View(), op) && |script| <= |old(script)| && (exit == Go || exit.Fail? || exit == CancelledExit)
      ensures Quiet() && running == old(running) && (Counted(attempts, 0) || Counted(attempts, 1))
    {
      hide Count, Unpairs, Lawful, ConsentOf, Whole;
      ghost var unpairs := Unpairs(log);
      var slept := Await(op, attempts, unpairs);
      if slept.raised == Interrupted {
        return CancelledExit;
      }
      var found := Await(op, attempts, unpairs);
      match found.raised {
        case Interrupted => return CancelledExit;
        case Failure(f) => return Fail(f);
        case Nothing => return if found.flag then Go else Fail(Unreachable);
      }
    }

    /** The wait for a device that restarts after an update. Probes are not attempts of the main loop. */
    method ProbeReturn(ghost op: nat)
      returns (exit: Exit, first: Option<RecoverySpec.Failure>, prepared: Option<Answer>)
      requires Tied(View(), op) && Counted(0, 0) && Quiet() && running
      modifies this
      ensures Whole() == old(Whole())
      ensures Tied(View(), op) && Counted(0, 0) && Quiet() && running
      ensures exit == Go || exit.Fail? || exit == CancelledExit
    {
      hide *;
      exit, first, prepared := Go, None, None;
      var windowOpen := true;
      while windowOpen
        invariant Whole() == old(Whole())
        invariant Tied(View(), op) && Counted(0, 0) && Quiet() && running
        invariant exit == Go && first == None && prepared == None
        decreases |script|
      {
        var scan := Await(op, 0, 0);
        match scan.raised {
          case Interrupted => return CancelledExit, None, None;
          case Failure(f) => return Fail(f), None, None;
          case Nothing =>
        }
        if scan.flag || scan.gatt {
          var found := Discover(op, 0, 0);
          match found.raised {
            case Interrupted => return CancelledExit, None, None;
            case Nothing => return Go, None, Some(found);
            case Failure(f) =>
              if !scan.flag && found.flag {
                return Fail(Unreachable), None, None;
              }
              Remember(f, op, 0, 0);
              if f.AccessDenied? || f.Cleanup? {
                return Fail(f), None, None;
              }
              if f.Security? || scan.flag {
                return Go, Some(f), None;
              }
          }
        }
        var slept := Await(op, 0, 0);
        if slept.raised == Interrupted {
          return CancelledExit, None, None;
        }
        windowOpen := slept.flag;
      }
      exit := Fail(Unreachable);
    }

    /** Three attempts, then at most one repair, then three more. */
    method Rounds(address: string, windows: bool, first: Option<RecoverySpec.Failure>, prepared: Option<Answer>,
                  ghost op: nat) returns (exit: Exit)
      requires Tied(View(), op) && Counted(0, 0) && Quiet() && running
      modifies this
      ensures Whole() == old(Whole())
      ensures Tied(View(), op) && Quiet() && running && (exit.Success? || exit.Fail? || exit == CancelledExit)
      ensures exists attempts, unpairs :: 0 <= attempts <= 6 && 0 <= unpairs <= 1 && Counted(attempts, unpairs)
    {
      hide *;
      ghost var attempts: nat, unpairs: nat := 0, 0;
      var round := 0;
      while round < 2
        invariant 0 <= round <= 2 && attempts == 3 * round && unpairs <= round
        invariant Whole() == old(Whole())
        invariant Tied(View(), op) && Counted(attempts, unpairs) && Quiet() && running
        invariant round < 2 && (round == 0 ==> unpairs == 0) && unpairs <= 1
      {
        var attempt := 1;
        while attempt <= 3
          invariant 1 <= attempt <= 4 && attempts == 3 * round + attempt - 1
          invariant Whole() == old(Whole())
          invariant Tied(View(), op) && Counted(attempts, unpairs) && Quiet() && running
        {
          var opening := round == 0 && attempt == 1;
          exit := AttemptOnce(attempt, if opening then first else None, if opening then prepared else None, op,
                              attempts, unpairs);
          if exit != Go {
            return;
          }
          attempts := attempts + 1;
          attempt := attempt + 1;
        }
        if round == 1 {
          return Fail(failure);
        }
        exit := OfferRepair(address, windows, op, attempts);
        unpairs := if Counted(attempts, 1) then 1 else 0;
        if exit != Go {
          return;
        }
        round := round + 1;
      }
      assert false;
    }

    /** Nothing to connect to: no update is awaited and the device is not known. */
    ghost predicate NoDevice(ota: bool, script: seq<Moment>) {
      !ota && script != [] && Heard(script[0]).raised == Nothing && !Heard(script[0]).flag
    }

    method Reconnect(address: string, ota: bool, windows: bool, ghost op: nat) returns (exit: Exit)
      requires Tied(View(), op) && Counted(0, 0) && Quiet() && running
      modifies this
      ensures Tied(View(), op) && Quiet() && running && (exit.Success? || exit.Fail? || exit == CancelledExit)
      ensures Whole() == old(Whole())
      ensures exists attempts, unpairs :: 0 <= attempts <= 6 && 0 <= unpairs <= 1 && Counted(attempts, unpairs)
      ensures NoDevice(ota, old(script)) ==>
                && exit == Fail(Unreachable) && preserveBusiness == old(preserveBusiness)
                && seen == old(seen) + [old(script)[0]] && script == old(script)[1..]
    {
      hide Tied, Counted, OnlyUi, Quiet, View;
      var closed := Await(op, 0, 0);
      if old(script) != [] {
        NextMoment(old(seen), old(script), seen, script);
      }
      hide Whole;
      match closed.raised {
        case Interrupted => return CancelledExit;
        case Failure(f) => return Fail(f);
        case Nothing =>
      }
      var first, prepared := None, None;
      if ota {
        exit, first, prepared := ProbeReturn(op);
        if exit != Go {
          return;
        }
      } else if !closed.flag {
        return Fail(Unreachable);
      }
      exit := Rounds(address, windows, first, prepared, op);
    }

    method OpenOperation() returns (ghost op: nat)
      requires Quiet()
      modifies `operationId, `cancelled, `authorizedAddress, `log
      ensures Tied(View(), op) && Quiet() && log == [] && op == old(operationId) + 1
    {
      hide Lawful, ConsentOf, Tied;
      operationId := operationId + 1;
      cancelled := false;
      authorizedAddress := "";
      log := [];
      op := operationId;
      FreshIsTied(View(), op);
    }

    method Begin() returns (ghost op: nat)
      requires Quiet()
      modifies this
      ensures Tied(View(), op) && Counted(0, 0) && Quiet() && running && op == old(operationId) + 1
      ensures seen == [] && script == old(script) && !preserveBusiness
    {
      hide Tied, Count, Unpairs, View;
      op := OpenOperation();
      running := true;
      seen, ranOut := [], false;
      missingCount, securitySeen, preserveBusiness, failure := 0, false, false, Unreachable;
      NothingCounted();
    }

    /** The disconnect of the `finally`: what it answers decides whether the rest of it runs. */
    method CloseRun(ghost op: nat, ghost attempts: nat, ghost unpairs: nat) returns (interrupted: bool)
      requires Tied(View(), op) && Counted(attempts, unpairs) && Quiet()
      modifies `operationId, `cancelled, `confirmation, `authorizedAddress, `authorizedEndpoint, `confirmedEndpoint,
               `log, `syncing, `script, `seen, `ranOut
      ensures Tied(View(), op) && Quiet() && Whole() == old(Whole())
      ensures Count(log, Attempt) == attempts && Unpairs(log) == unpairs
      ensures log != [] && log[|log| - 1] == Closing(interrupted)
      ensures ranOut == (old(script) == []) && (ranOut ==> interrupted)
      ensures !ranOut ==> seen == old(seen) + [old(script)[0]] && interrupted == Interrupts(old(script)[0])
      ensures !ranOut && Cancel in old(script)[0].ui ==> cancelled
    {
      hide Tied, OnlyUi, View, Whole, Quiet;
      var closed := Await(op, attempts, unpairs);
      interrupted := closed.raised == Interrupted;
      Extend(log, Closing(interrupted));
      Note(Closing(interrupted), op);
    }

    /** How the run that just ended left the recovery. */
    ghost predicate Ended(exit: Exit)
      reads this
    {
      // the last disconnect is awaited unless all went well or the business is kept
      && (log != [] && log[|log| - 1].Closing? <==> !exit.Success? && !preserveBusiness)
      // still running exactly when that disconnect was interrupted
      && (running <==> log != [] && log[|log| - 1] == Closing(true))
      && (running <==> !exit.Success? && !preserveBusiness
                       && (ranOut || (seen != [] && Interrupts(seen[|seen| - 1]))))
      && (running && !ranOut && Cancel in seen[|seen| - 1].ui ==> CancelRequested in log)
    }

    method Release(ghost op: nat)
      requires Quiet()
      modifies `running, `authorizedAddress, `authorizedEndpoint, `confirmedEndpoint, `confirmation
      ensures Quiet() && !running
    {
      authorizedAddress := "";
      authorizedEndpoint := "";
      confirmedEndpoint := "";
      confirmation := NoQuestion;
      running := false;
    }

    /** The `finally` of `run`. */
    method Finish(exit: Exit, ghost op: nat, ghost attempts: nat, ghost unpairs: nat)
      requires Tied(View(), op) && Counted(attempts, unpairs) && Quiet() && running
      modifies this
      ensures Lawful(log) && Count(log, Attempt) == attempts && Unpairs(log) == unpairs
      ensures Quiet() && Whole() == old(Whole()) && Ended(exit)
      ensures !exit.Success? && !old(preserveBusiness) && old(script) != [] ==>
                !ranOut && seen == old(seen) + [old(script)[0]] && (running <==> Interrupts(old(script)[0]))
    {
      CountMeansIn(log, Closing(true));
      CountMeansIn(log, Closing(false));
      hide Count, Unpairs, Lawful, Qualifies, Heard, Whole, Quiet;
      if !exit.Success? && !preserveBusiness {
        var interrupted := CloseRun(op, attempts, unpairs);
        WithdrawnMeans(log);
        hide Tied;
        if interrupted {
          return;
        }
      }
      Release(op);
    }

    /**
     * `run`, with its `finally`. A request while one runs changes nothing. Otherwise the main loop
     * makes at most six attempts and one unpair, the log is lawful, and no approval is left behind.
     *
     * The recovery is free again unless the run awaited its last disconnect, which it does if neither
     * the device got ready nor its business is preserved, and that await was interrupted: by a cancel
     * that was not swallowed, by another canceller, or by the end of the program.
     */
    method Run(address: string, userOk: bool, ota: bool, windows: bool) returns (exit: Exit)
      requires !running ==> Quiet()
      modifies this
      ensures old(running) || address == "" || !userOk ==> unchanged(this)
      ensures !(old(running) || address == "" || !userOk) ==>
                && Lawful(log) && Count(log, Attempt) <= 6 && Unpairs(log) <= 1
                && Quiet() && Ended(exit) && Whole() == old(script)
      ensures !(old(running) || address == "" || !userOk) && NoDevice(ota, old(script)) && |old(script)| >= 2 ==>
                && exit == Fail(Unreachable) && !ranOut && seen == old(script)[..2] && script == old(script)[2..]
                && (running <==> Interrupts(old(script)[1]))
    {
      hide Tied, Counted, Quiet, Lawful, Count, Unpairs, Ended, View, Interrupts;
      if running || address == "" || !userOk {
        return CancelledExit;
      }
      ghost var op := Begin();
      assert seen + script == old(script);
      exit := Reconnect(address, ota, windows, op);
      ghost var attempts, unpairs :| 0 <= attempts <= 6 && 0 <= unpairs <= 1 && Counted(attempts, unpairs);
      Finish(exit, op, attempts, unpairs);
      if NoDevice(ota, old(script)) && |old(script)| >= 2 {
        SplitAtTwo(old(script), seen, script);
      }
    }
  }

  lemma SplitAtTwo(all: seq<Moment>, seen: seq<Moment>, rest: seq<Moment>)
    requires |all| >= 2 && seen + rest == all && seen == [all[0]] + [all[1]]
    ensures seen == all[..2] && rest == all[2..]
  {
    assert rest == (seen + rest)[2..];
  }

  lemma NothingCounted()
    ensures Unpairs([]) == 0 && forall e: Entry :: Count([], e) == 0
  {
  }

  lemma FreshIsTied(s: Shared, op: nat)
    requires s.log == [] && !s.cancelled && s.operationId == op && s.confirmation == NoQuestion
    requires s.authorizedEndpoint == ""
    ensures Tied(s, op)
  {
  }

  const NOTHING_FOUND := Answer(Nothing, false, false, false, false, "", Unknown)

  /** No device is known, and the user cancels while the run is already closing. */
  const CANCEL_WHILE_CLOSING: seq<Moment> :=
    [Moment([], false, NOTHING_FOUND), Moment([Cancel], false, NOTHING_FOUND)]

  /** From then on the recovery is marked as running and every later request changes nothing. */
  method CancelledClosingRefusesForEver(r: ConnectionRecovery, address: string)
    requires !r.running && r.Quiet() && r.script == CANCEL_WHILE_CLOSING && address != ""
    modifies r
    ensures r.running && CancelRequested in r.log && r.log[|r.log| - 1] == Closing(true) && r.script == []
  {
    var first := r.Run(address, true, false, true);
    label closed:
    var second := r.Run(address, true, false, true);
    assert unchanged@closed(r);
    var third := r.Run(address, true, true, true);
    assert unchanged@closed(r);
  }

  lemma NothingActed(s: Shared)
    ensures ActAll(s, []) == s
  {
  }

  lemma NextMoment(was: seq<Moment>, script: seq<Moment>, seen: seq<Moment>, rest: seq<Moment>)
    requires seen + rest == was + script && script != [] && seen == was + [script[0]]
    ensures rest == script[1..]
  {
    assert rest == (seen + rest)[|seen|..];
  }

  lemma LawfulUnpair(log: seq<Entry>, op: nat, endpoint: string)
    requires Lawful(log) && ConsentOf(log) == Given(op, endpoint) && Qualifies(log)
    requires log != [] && log[|log| - 1] == Resolved(endpoint, true)
    ensures Lawful(log + [Unpair(op, endpoint)])
    ensures ConsentOf(log + [Unpair(op, endpoint)]) == NoConsent
  {
    assert (log + [Unpair(op, endpoint)])[..|log|] == log;
  }
}
