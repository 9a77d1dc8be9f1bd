/** The operator service and the worker's protocol on one durable action, in one system: the
    row the service's tables hold is the row the deliveries act on. */
module JointRuns {
  import opened Domain
  import opened ActionRecords
  import opened CaseRecords
  import opened Safety
  import CaseApprovals
  import CaseLaws
  import P = ActionProtocol

  datatype Joint = Joint(s: State, w: P.World)

  datatype Event =
    | Service(command: Command)  // a service call, or a worker commit to another action
    | Worker(event: P.Event)     // a step of the worker, the nonce store or the process

  /** The operator's commands reach the row only through the service's tables. */
  predicate IsOperatorCommand(e: P.Event) {
    e.Operate? && (e.command.Approve? || e.command.Reject? || e.command.CloseCase?)
  }

  function Written(s: State, id: string, row: ActionRow): State
    requires id in s.actions
  {
    s.(actions := s.actions[id := s.actions[id].(row := row)])
  }

  /** A service call that would change the row waits for the row's lock. */
  function ServiceStep(j: Joint, config: Option<Config>, id: string, c: Command): Joint
    requires id in j.s.actions && CaseLaws.AllValid(j.s)
  {
    var t := Do(j.s, config, c);
    if (c.Working? && c.id == id) || id !in t.actions then j
    else if t.actions[id].row == j.w.row then j.(s := t)
    else if j.w.lock.Some? then j
    else Joint(t, j.w.(row := t.actions[id].row))
  }

  function WorkerStep(j: Joint, id: string, e: P.Event, atomic: bool): Joint
    requires id in j.s.actions
  {
    if IsOperatorCommand(e) then j
    else
      var v := P.Step(j.w, e, atomic);
      Joint(Written(j.s, id, v.row), v)
  }

  /** One row, in order on both sides. */
  ghost predicate JointInv(j: Joint, id: string) {
    && CaseLaws.MoneyInv(j.s) && CaseApprovals.Approvals(j.s) && P.RowInv(j.w)
    && id in j.s.actions && j.s.actions[id].row == j.w.row
  }

  ghost function Step(j: Joint, config: Option<Config>, id: string, e: Event, atomic: bool): Joint
    requires JointInv(j, id)
  {
    match e
    case Service(c) => ServiceStep(j, config, id, c)
    case Worker(p) => WorkerStep(j, id, p, atomic)
  }

  lemma OperatorStepKeepsRowInv(w: P.World, row: ActionRow)
    requires P.RowInv(w) && w.lock.None? && CaseLaws.OperatorStep(w, row)
    ensures P.RowInv(w.(row := row))
  {
    P.RowInvStep(w, P.Operate(P.Command.Approve), false);
    P.RowInvStep(w, P.Operate(P.Command.Reject), false);
    P.RowInvStep(w, P.Operate(P.CloseCase), false);
  }

  lemma OthersKeepTheRow(s: State, config: Option<Config>, c: Command, id: string)
    requires CaseLaws.MoneyInv(s) && id in s.actions && c.Working? && c.id != id
    ensures id in Do(s, config, c).actions && Do(s, config, c).actions[id] == s.actions[id]
  {
  }

  lemma ServiceKeeps(j: Joint, config: Option<Config>, id: string, c: Command)
    requires JointInv(j, id)
    ensures JointInv(ServiceStep(j, config, id, c), id)
  {
    CaseLaws.DoKeepsMoney(j.s, config, c);
    CaseApprovals.DoKeepsAgreement(j.s, config, c);
    if c.Working? {
      if c.id != id { OthersKeepTheRow(j.s, config, c, id); }
    } else if j.w.lock.None? {
      CaseLaws.ServiceCallsAreOperatorSteps(j.s, config, c, id, j.w);
      OperatorStepKeepsRowInv(j.w, Do(j.s, config, c).actions[id].row);
    }
  }

  /** No step of the worker writes the approval. */
  lemma WorkerWritesNoApproval(w: P.World, e: P.Event, atomic: bool)
    requires !IsOperatorCommand(e)
    ensures P.Step(w, e, atomic).row.approved == w.row.approved
  {
    match e
    case Operate(c) =>
    case Claiming(p, c) => ClaimsWriteNoApproval(w, p, c, atomic);
    case Calling(p, c) => CallsWriteNoApproval(w, p, c);
    case Locking(p, c) => LocksWriteNoApproval(w, p, c);
    case Crash =>
  }

  lemma ClaimsWriteNoApproval(w: P.World, p: nat, c: P.ClaimMove, atomic: bool)
    ensures P.StepClaim(w, p, c, atomic).row.approved == w.row.approved
  {
  }

  lemma CallsWriteNoApproval(w: P.World, p: nat, c: P.CallMove)
    ensures P.StepCall(w, p, c).row.approved == w.row.approved
  {
  }

  lemma LocksWriteNoApproval(w: P.World, p: nat, c: P.LockMove)
    ensures P.StepLock(w, p, c).row.approved == w.row.approved
  {
  }

  /** A row in order keeps its agreement with the events when its approval is not written. */
  lemma WrittenKeepsAgreement(s: State, id: string, v: P.World)
    requires CaseApprovals.Approvals(s) && id in s.actions && P.RowInv(v) && v.row.approved == s.actions[id].row.approved
    ensures CaseApprovals.Approvals(Written(s, id, v.row))
  {
    var t := Written(s, id, v.row);
    forall i | i in t.actions ensures CaseApprovals.ApprovalInOrder(t, i) { assert CaseApprovals.ApprovalInOrder(s, i); }
  }

  lemma WorkerKeeps(j: Joint, id: string, e: P.Event, atomic: bool)
    requires JointInv(j, id)
    ensures JointInv(WorkerStep(j, id, e, atomic), id)
  {
    if !IsOperatorCommand(e) {
      P.RowInvStep(j.w, e, atomic);
      WorkerWritesNoApproval(j.w, e, atomic);
      WrittenKeepsAgreement(j.s, id, P.Step(j.w, e, atomic));
    }
  }

  lemma StepKeeps(j: Joint, config: Option<Config>, id: string, e: Event, atomic: bool)
    requires JointInv(j, id)
    ensures JointInv(Step(j, config, id, e, atomic), id)
  {
    match e
    case Service(c) => ServiceKeeps(j, config, id, c);
    case Worker(p) => WorkerKeeps(j, id, p, atomic);
  }

  ghost function Run(j: Joint, config: Option<Config>, id: string, es: seq<Event>, atomic: bool): (k: Joint)
    requires JointInv(j, id)
    ensures JointInv(k, id)
    decreases |es|
  {
    if es == [] then j else
      StepKeeps(j, config, id, es[0], atomic);
      Run(Step(j, config, id, es[0], atomic), config, id, es[1..], atomic)
  }

  /** A joint run starts where a recommendation just inserted its payment action. */
  lemma RecommendationsStartJointRuns(s: State, id: string)
    requires CaseLaws.MoneyInv(s) && CaseApprovals.Approvals(s) && id in s.actions && P.Recommended(s.actions[id].row)
    ensures JointInv(Joint(s, P.Start(s.actions[id].row)), id)
  {
  }

  /** Over every interleaving of service calls with deliveries, cleanups and crashes, each
      provider call for the action was authorized, and if its policy asks for a manual approval
      the ACTION_APPROVED event is on record. */
  lemma EverySubmissionIsOnRecord(s: State, config: Option<Config>, id: string, es: seq<Event>, atomic: bool)
    requires CaseLaws.MoneyInv(s) && CaseApprovals.Approvals(s) && id in s.actions && P.Recommended(s.actions[id].row)
    ensures var k := Run(Joint(s, P.Start(s.actions[id].row)), config, id, es, atomic);
            k.w.calls > 0 || k.w.links > 0 ==>
              && P.Authorized(k.w)
              && k.s.actions[id].row == k.w.row
              && (k.w.row.policy == RequireManualApproval ==> (k.s.actions[id].caseId, ApprovalOf(id)) in k.s.events)
  {
    var k := Run(Joint(s, P.Start(s.actions[id].row)), config, id, es, atomic);
    assert CaseApprovals.ApprovalInOrder(k.s, id);
  }
}
