/** What the user, and the connection recovery itself, may do: a log and the consent it carries. */
module RecoverySpec {
  datatype Failure =
    | Unreachable | Security | GattMissing | GattDiscovery | Initialization | Business | Identity | Protocol
    | HostCi | AccessDenied | Cleanup | PairingUnknown | Declined | UnpairFailed

  /** What happened during one run, in order. */
  datatype Entry =
    | Attempt
    | Missing
    | Failed(failure: Failure)
    | Asked(op: nat, endpoint: string)
    | Approved(op: nat)
    | CancelRequested
    | Resolved(endpoint: string, paired: bool)
    | Unpair(op: nat, endpoint: string)
    | Closing(interrupted: bool)

  datatype Consent = NoConsent | Pending(op: nat, endpoint: string) | Given(op: nat, endpoint: string) | Withdrawn

  /** An answer counts for the last question, a cancel withdraws for good, and one unpair uses it up. */
  function ConsentOf(log: seq<Entry>): Consent
    decreases |log|
  {
    if log == [] then NoConsent
    else
      var before := ConsentOf(log[..|log| - 1]);
      if before == Withdrawn then Withdrawn
      else
        match log[|log| - 1]
        case Asked(op, endpoint) => Pending(op, endpoint)
        case Approved(op) => if before.Pending? && before.op == op then Given(op, before.endpoint) else before
        case CancelRequested => Withdrawn
        case Unpair(_, _) => NoConsent
        case _ => before
  }

  function Count(log: seq<Entry>, e: Entry): nat
    decreases |log|
  {
    if log == [] then 0 else Count(log[..|log| - 1], e) + if log[|log| - 1] == e then 1 else 0
  }

  function Unpairs(log: seq<Entry>): nat
    decreases |log|
  {
    if log == [] then 0 else Unpairs(log[..|log| - 1]) + if log[|log| - 1].Unpair? then 1 else 0
  }

  /** The failures seen so far justify offering to remove the pairing. */
  predicate Qualifies(log: seq<Entry>) {
    Count(log, Missing) >= 2 || Failed(Security) in log
  }

  /** Every unpair had consent for exactly that endpoint, resolved as paired in the entry before. */
  predicate Lawful(log: seq<Entry>)
    decreases |log|
  {
    log == [] ||
    var before := log[..|log| - 1];
    && Lawful(before)
    && match log[|log| - 1]
       case Unpair(op, endpoint) =>
         && ConsentOf(before) == Given(op, endpoint) && Qualifies(before)
         && before != [] && before[|before| - 1] == Resolved(endpoint, true)
       case _ => true
  }

  lemma Extend(log: seq<Entry>, e: Entry)
    ensures (log + [e])[..|log|] == log
    ensures ConsentOf(log) == Withdrawn ==> ConsentOf(log + [e]) == Withdrawn
    ensures !e.Unpair? && Lawful(log) ==> Lawful(log + [e])
    ensures forall x: Entry :: Count(log + [e], x) == Count(log, x) + if x == e then 1 else 0
    ensures Unpairs(log + [e]) == Unpairs(log) + if e.Unpair? then 1 else 0
    ensures Qualifies(log) ==> Qualifies(log + [e])
    ensures e.Attempt? || e.Missing? || e.Failed? || e.Resolved? || e.Closing? ==> ConsentOf(log + [e]) == ConsentOf(log)
  {
    assert (log + [e])[..|log|] == log;
  }

  /** `log[i]` asks, `log[j]` approves, and nothing between `i` and `k` asks again, cancels or unpairs. */
  predicate ConsentedAt(log: seq<Entry>, k: nat, i: nat, j: nat, op: nat, endpoint: string) {
    && i < j < k <= |log| && log[i] == Asked(op, endpoint) && log[j] == Approved(op)
    && (forall m :: i < m < k ==> !log[m].Asked? && log[m] != CancelRequested && !log[m].Unpair?)
  }

  lemma {:induction false} WithdrawnMeans(log: seq<Entry>)
    ensures ConsentOf(log) == Withdrawn <==> CancelRequested in log
    decreases |log|
  {
    if log != [] {
      WithdrawnMeans(log[..|log| - 1]);
      assert log == log[..|log| - 1] + [log[|log| - 1]];
    }
  }

  /** `log[i]` asks, and nothing after it asks again, cancels or unpairs. */
  predicate AskedAt(log: seq<Entry>, i: nat, op: nat, endpoint: string) {
    && i < |log| && log[i] == Asked(op, endpoint)
    && forall m :: i < m < |log| ==> !log[m].Asked? && log[m] != CancelRequested && !log[m].Unpair?
  }

  lemma {:induction false} PendingMeans(log: seq<Entry>)
    requires ConsentOf(log).Pending?
    ensures exists i: nat :: AskedAt(log, i, ConsentOf(log).op, ConsentOf(log).endpoint)
    decreases |log|
  {
    var before := log[..|log| - 1];
    if log[|log| - 1].Asked? {
      assert AskedAt(log, |log| - 1, ConsentOf(log).op, ConsentOf(log).endpoint);
    } else {
      PendingMeans(before);
      var i: nat :| AskedAt(before, i, ConsentOf(log).op, ConsentOf(log).endpoint);
      assert forall m :: 0 <= m < |before| ==> log[m] == before[m];
      assert AskedAt(log, i, ConsentOf(log).op, ConsentOf(log).endpoint);
    }
  }

  /** Given consent is a question and its approval, with nothing in between that would undo them. */
  lemma {:induction false} GivenMeans(log: seq<Entry>)
    requires ConsentOf(log).Given?
    ensures CancelRequested !in log
    ensures exists i, j :: ConsentedAt(log, |log|, i, j, ConsentOf(log).op, ConsentOf(log).endpoint)
    decreases |log|
  {
    WithdrawnMeans(log);
    var before := log[..|log| - 1];
    if ConsentOf(before).Given? && !(log[|log| - 1].Approved? && ConsentOf(before).Pending?) {
      GivenMeans(before);
      var i, j :| ConsentedAt(before, |before|, i, j, ConsentOf(log).op, ConsentOf(log).endpoint);
      assert forall m :: 0 <= m < |before| ==> log[m] == before[m];
      assert ConsentedAt(log, |log|, i, j, ConsentOf(log).op, ConsentOf(log).endpoint);
    } else {
      PendingMeans(before);
      var i: nat :| AskedAt(before, i, ConsentOf(log).op, ConsentOf(log).endpoint);
      assert forall m :: 0 <= m < |before| ==> log[m] == before[m];
      assert ConsentedAt(log, |log|, i, |before|, ConsentOf(log).op, ConsentOf(log).endpoint);
    }
  }

  lemma {:induction false} LawfulPrefix(log: seq<Entry>, k: nat)
    requires Lawful(log) && k <= |log|
    ensures Lawful(log[..k])
    decreases |log|
  {
    if k == |log| {
      assert log[..k] == log;
    } else {
      assert log[..|log| - 1][..k] == log[..k];
      LawfulPrefix(log[..|log| - 1], k);
    }
  }

  /**
   * In a lawful log every unpair follows an approved question about exactly the endpoint that was
   * resolved, still paired, just before the call; nobody had cancelled, and the failures qualified.
   */
  lemma LawfulMeans(log: seq<Entry>, k: nat)
    requires Lawful(log) && k < |log| && log[k].Unpair?
    ensures CancelRequested !in log[..k] && Qualifies(log[..k])
    ensures k > 0 && log[k - 1] == Resolved(log[k].endpoint, true)
    ensures exists i, j :: ConsentedAt(log, k, i, j, log[k].op, log[k].endpoint)
  {
    LawfulPrefix(log, k + 1);
    var upTo := log[..k + 1];
    assert upTo[..k] == log[..k] && upTo[k] == log[k];
    var before := log[..k];
    GivenMeans(before);
    var i, j :| ConsentedAt(before, k, i, j, log[k].op, log[k].endpoint);
    assert forall m :: 0 <= m < k ==> before[m] == log[m];
    assert ConsentedAt(log, k, i, j, log[k].op, log[k].endpoint);
  }

  // ----- what may happen at an await -----

  datatype Confirmation = NoQuestion | Waiting | Answered(approved: bool)

  /** The fields other tasks may touch while the run awaits. */
  datatype Shared = Shared(
    operationId: nat, cancelled: bool, confirmation: Confirmation, authorizedAddress: string,
    authorizedEndpoint: string, confirmedEndpoint: string, log: seq<Entry>)

  datatype UiAction = Respond(operationId: nat, approved: bool) | Cancel

  /** `respond` and `cancel`, called by other tasks while the run awaits. */
  function Act(s: Shared, a: UiAction): Shared {
    match a
    case Respond(op, approved) =>
      if op != s.operationId || s.confirmation != Waiting then s
      else s.(confirmation := Answered(approved), log := if approved then s.log + [Approved(op)] else s.log)
    case Cancel =>
      s.(operationId := s.operationId + 1, authorizedAddress := "", authorizedEndpoint := "",
         confirmedEndpoint := "", cancelled := true, log := s.log + [CancelRequested])
  }

  function ActAll(s: Shared, ui: seq<UiAction>): Shared
    decreases |ui|
  {
    if ui == [] then s else Act(ActAll(s, ui[..|ui| - 1]), ui[|ui| - 1])
  }

  /** How the fields of run `op` are tied to its log. */
  predicate Tied(s: Shared, op: nat) {
    && Lawful(s.log)
    && (s.cancelled <==> ConsentOf(s.log) == Withdrawn)
    && (!s.cancelled ==> s.operationId == op)
    && (!s.cancelled && s.confirmation == Waiting ==> ConsentOf(s.log) == Pending(op, s.confirmedEndpoint))
    && (!s.cancelled && s.confirmation == Answered(true) ==> ConsentOf(s.log) == Given(op, s.confirmedEndpoint))
    && (s.authorizedEndpoint != "" ==> !s.cancelled && ConsentOf(s.log) == Given(op, s.authorizedEndpoint))
  }

  /** What an await leaves of the run's own records. */
  ghost predicate OnlyUi(s: Shared, r: Shared) {
    && (forall e: Entry :: !e.Approved? && e != CancelRequested ==> Count(r.log, e) == Count(s.log, e))
    && Unpairs(r.log) == Unpairs(s.log)
    && (Failed(Security) in s.log ==> Failed(Security) in r.log)
    && (s.cancelled ==> r.cancelled)
    && (r.confirmation == s.confirmation || (s.confirmation == Waiting && r.confirmation.Answered?))
    && (!r.cancelled ==> r.authorizedEndpoint == s.authorizedEndpoint && r.authorizedAddress == s.authorizedAddress
                         && r.confirmedEndpoint == s.confirmedEndpoint
                         && (s.confirmation != Waiting ==> r.log == s.log))
    && (r.authorizedEndpoint != "" ==> !r.cancelled)
  }

  lemma ActKeeps(s: Shared, a: UiAction, op: nat)
    requires Tied(s, op)
    ensures Tied(Act(s, a), op) && OnlyUi(s, Act(s, a))
  {
    if a.Respond? {
      Extend(s.log, Approved(a.operationId));
    } else {
      Extend(s.log, CancelRequested);
    }
  }

  /** Whatever the user does during an await keeps consent and fields tied together. */
  lemma {:induction false} ActAllKeeps(s: Shared, ui: seq<UiAction>, op: nat)
    requires Tied(s, op)
    ensures Tied(ActAll(s, ui), op) && OnlyUi(s, ActAll(s, ui))
    decreases |ui|
  {
    hide Act, Lawful, ConsentOf, Count, Unpairs;
    if ui != [] {
      ActAllKeeps(s, ui[..|ui| - 1], op);
      ActKeeps(ActAll(s, ui[..|ui| - 1]), ui[|ui| - 1], op);
    }
  }

  /** A cancel during an await is never forgotten. */
  lemma {:induction false} CancelIsKept(s: Shared, ui: seq<UiAction>)
    requires Cancel in ui || s.cancelled
    ensures ActAll(s, ui).cancelled
    decreases |ui|
  {
    if ui != [] {
      var init := ui[..|ui| - 1];
      assert ui == init + [ui[|ui| - 1]];
      if Cancel in init || s.cancelled {
        CancelIsKept(s, init);
      }
    }
  }

  lemma {:induction false} CountMeansIn(log: seq<Entry>, e: Entry)
    ensures Count(log, e) == 0 <==> e !in log
    decreases |log|
  {
    if log != [] {
      CountMeansIn(log[..|log| - 1], e);
      assert log == log[..|log| - 1] + [log[|log| - 1]];
    }
  }
}
