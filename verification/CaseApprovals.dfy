/** The approval a row holds is the ACTION_APPROVED event on record, over every history of
    service calls and worker steps. */
module CaseApprovals {
  import opened Domain
  import opened ActionRecords
  import opened Safety
  import opened CaseRecords
  import opened CaseLaws

  /** The ACTION_APPROVED event of an action is on record. */
  predicate ApprovalRecorded(s: State, id: string)
    requires id in s.actions
  {
    (s.actions[id].caseId, ApprovalOf(id)) in s.events
  }

  /** A manually gated row is past its gate: neither waiting for approval nor cancelled. */
  predicate PassedTheGate(row: ActionRow) {
    row.policy == RequireManualApproval && row.status != AwaitingApproval && row.status != Cancelled
  }

  predicate ApprovalInOrder(s: State, id: string)
    requires id in s.actions
  {
    (s.actions[id].row.approved <==> ApprovalRecorded(s, id)) && (PassedTheGate(s.actions[id].row) ==> ApprovalRecorded(s, id))
  }

  /** Rows and audit events agree on what was approved, and events name existing actions. */
  ghost predicate Approvals(s: State) {
    && (forall id | id in s.actions :: ApprovalInOrder(s, id))
    && (forall e | e in s.events && e.1.ApprovalOf? :: e.1.actionId in s.actions)
  }

  /** What every command but an approval may do to a row. */
  predicate KeepsGate(a: ActionRow, b: ActionRow) {
    b.approved == a.approved && (PassedTheGate(b) ==> PassedTheGate(a))
  }

  /** A command that records no approval keeps rows and events in agreement if it lets no old
      row through the gate and inserts no new row past it. */
  lemma NoApprovalKeepsAgreement(s: State, t: State)
    requires Approvals(s) && s.events <= t.events
    requires forall e | e in t.events && e.1.ApprovalOf? :: e in s.events
    requires forall id | id in s.actions ::
      id in t.actions && t.actions[id].caseId == s.actions[id].caseId && KeepsGate(s.actions[id].row, t.actions[id].row)
    requires forall id | id in t.actions && id !in s.actions :: !t.actions[id].row.approved && !PassedTheGate(t.actions[id].row)
    ensures Approvals(t)
  {
    forall id | id in t.actions ensures ApprovalInOrder(t, id) {
      if id in s.actions {
        assert ApprovalInOrder(s, id);
      } else {
        assert (t.actions[id].caseId, ApprovalOf(id)) !in s.events;
      }
    }
  }

  lemma ApproveKeepsAgreement(s: State, k: string, id: string)
    requires Approvals(s)
    ensures Approvals(Approve(s, k, id).0)
  {
    var t := Approve(s, k, id).0;
    forall i | i in t.actions ensures ApprovalInOrder(t, i) {
      assert ApprovalInOrder(s, i);
      if i != id { assert ApprovalRecorded(t, i) <==> ApprovalRecorded(s, i); }
    }
  }

  lemma WorkedKeepsGate(row: ActionRow, outcome: CaseOutcome, step: WorkerStep)
    ensures KeepsGate(row, Worked(row, outcome, step))
  {
  }

  lemma RecommendKeepsAgreement(s: State, config: Option<Config>, k: string, requested: Option<Selection>,
                                ranked: Selection, id: string, now: int)
    requires AllValid(s) && Approvals(s) && id !in s.actions
    ensures Approvals(Recommend(s, config, k, requested, ranked, id, now).0)
  {
    NoApprovalKeepsAgreement(s, Recommend(s, config, k, requested, ranked, id, now).0);
  }

  lemma CloseKeepsAgreement(s: State, t: State, k: string)
    requires Approvals(s) && t.actions == CancelNonterminal(s.actions, k) && s.events <= t.events
    requires forall e | e in t.events && e.1.ApprovalOf? :: e in s.events
    ensures Approvals(t)
  {
    NoApprovalKeepsAgreement(s, t);
  }

  lemma EscalateKeepsAgreement(s: State, k: string, id: string)
    requires Approvals(s) && id !in s.actions
    ensures Approvals(Escalate(s, k, id).0)
  {
    NoApprovalKeepsAgreement(s, Escalate(s, k, id).0);
  }

  lemma DoKeepsAgreement(s: State, config: Option<Config>, c: Command)
    requires MoneyInv(s) && Approvals(s)
    ensures Approvals(Do(s, config, c))
  {
    match c
    case Recommending(k, requested, ranked, id, now) =>
      if id !in s.actions { RecommendKeepsAgreement(s, config, k, requested, ranked, id, now); }
    case Approving(k, id) => ApproveKeepsAgreement(s, k, id);
    case Rejecting(k, id) => RejectKeepsAgreement(s, k, id);
    case Stopping(k) => StopKeepsAgreement(s, k);
    case Escalating(k, id) => if id !in s.actions { EscalateKeepsAgreement(s, k, id); }
    case Disposing(k, d) => SafetyKeepsAgreement(s, k, d);
    case Succeeding(k, e, amount, at, reactivated) => SuccessKeepsAgreement(s, k, e, amount, at, reactivated);
    case LateFailing(k, e) => LateFailureKeepsAgreement(s, k, e);
    case Working(id, step) => WorkerKeepsAgreement(s, config, id, step);
  }

  lemma RejectKeepsAgreement(s: State, k: string, id: string)
    requires Approvals(s)
    ensures Approvals(Reject(s, k, id).0)
  {
    NoApprovalKeepsAgreement(s, Reject(s, k, id).0);
  }

  lemma LateFailureKeepsAgreement(s: State, k: string, e: string)
    requires Approvals(s)
    ensures Approvals(ApplyLateFailure(s, k, e).0)
  {
    NoApprovalKeepsAgreement(s, ApplyLateFailure(s, k, e).0);
  }

  lemma StopKeepsAgreement(s: State, k: string)
    requires Approvals(s)
    ensures Approvals(StopCase(s, k).0)
  {
    if StopCase(s, k).0 != s { CloseKeepsAgreement(s, StopCase(s, k).0, k); }
  }

  lemma SafetyKeepsAgreement(s: State, k: string, d: ContactDisposition)
    requires Approvals(s)
    ensures Approvals(RecordSafety(s, k, d).0)
  {
    if RecordSafety(s, k, d).0 != s { CloseKeepsAgreement(s, RecordSafety(s, k, d).0, k); }
  }

  lemma SuccessKeepsAgreement(s: State, k: string, e: string, amount: Option<int>, at: int, reactivated: bool)
    requires Approvals(s)
    ensures Approvals(ApplySuccess(s, k, e, amount, at, reactivated).0)
  {
    var t := ApplySuccess(s, k, e, amount, at, reactivated).0;
    if t != s { CloseKeepsAgreement(s, t, k); }
  }

  lemma WorkerKeepsAgreement(s: State, config: Option<Config>, id: string, step: WorkerStep)
    requires MoneyInv(s) && Approvals(s)
    ensures Approvals(Do(s, config, Working(id, step)))
  {
    if id in s.actions && s.actions[id].caseId in s.cases {
      WorkedKeepsGate(s.actions[id].row, s.cases[s.actions[id].caseId].outcome, step);
      NoApprovalKeepsAgreement(s, Do(s, config, Working(id, step)));
    }
  }

  lemma {:induction false} RunKeepsAgreement(s: State, config: Option<Config>, cs: seq<Command>)
    requires MoneyInv(s) && Approvals(s)
    ensures Approvals(Run(s, config, cs))
    decreases |cs|
  {
    if cs != [] {
      DoKeepsAgreement(s, config, cs[0]);
      DoKeepsMoney(s, config, cs[0]);
      RunKeepsAgreement(Do(s, config, cs[0]), config, cs[1..]);
    }
  }

  /** Over every history the row's approval is the recorded ACTION_APPROVED event: a row holds
      it exactly when the event does, and a manually gated action past its gate has the event. */
  lemma ApprovalIsTheRecordedEvent(s: State, config: Option<Config>, cs: seq<Command>, id: string)
    requires MoneyInv(s) && Approvals(s) && id in Run(s, config, cs).actions
    ensures var t := Run(s, config, cs);
            && (t.actions[id].row.approved <==> (t.actions[id].caseId, ApprovalOf(id)) in t.events)
            && (t.actions[id].row.policy == RequireManualApproval
                && t.actions[id].row.status != AwaitingApproval && t.actions[id].row.status != Cancelled
                ==> (t.actions[id].caseId, ApprovalOf(id)) in t.events)
  {
    RunKeepsAgreement(s, config, cs);
    assert ApprovalInOrder(Run(s, config, cs), id);
  }

  /** So no manually gated action is claimed, or was ever claimed and not cancelled, without
      its recorded approval. */
  lemma ClaimsOfGatedActionsAreOnRecord(s: State, config: Option<Config>, cs: seq<Command>, id: string, inFlight: bool, now: int)
    requires MoneyInv(s) && Approvals(s) && id in Run(s, config, cs).actions
    ensures var t := Run(s, config, cs);
            var row := t.actions[id].row;
            (row.policy == RequireManualApproval
             && (ReadForClaim(Some(row), inFlight, now).TrySwap? || row.status == Executing || row.status == Succeeded))
              ==> (t.actions[id].caseId, ApprovalOf(id)) in t.events
  {
    ApprovalIsTheRecordedEvent(s, config, cs, id);
  }

  lemma ApprovalsStartInOrder(s: State)
    requires s.actions == map[] && forall e | e in s.events :: !e.1.ApprovalOf?
    ensures Approvals(s)
  {
  }
}
