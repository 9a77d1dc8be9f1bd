/** The rows of one merchant's cases, and what each transaction of the operator service does
    to them. A service call is one transaction here. */
module CaseRecords {
  import opened Domain
  import opened ActionRecords
  import opened Safety
  import ActionProtocol

  datatype CaseRow = CaseRow(
    outcome: CaseOutcome, payment: PaymentState, subscription: SubscriptionState,
    contact: ContactDisposition, attribution: RevenueAttribution,
    atRiskPaise: int, collectedPaise: int, recovered: bool, reactivated: bool,
    invoiceId: Option<string>, openedAt: int, deadline: int, recoveredAt: Option<int>, version: nat)

  /** `settled` is the invoice state "paid". */
  datatype InvoiceRow = InvoiceRow(amountPaise: int, paidPaise: int, settled: bool)

  datatype Recognition = Recognition(caseId: string, eventId: string, amountPaise: int)

  datatype ActionKey =
    | RecommendationKey(caseId: string, actionType: ActionType, surface: Option<Surface>)
    | EscalationKey(caseId: string, version: nat)

  datatype CaseAction = CaseAction(caseId: string, row: ActionRow)

  /** What an audit event is unique for within its case. */
  datatype SourceId =
    | ProviderEvent(eventId: string)
    | RecommendationOf(actionId: string) | ApprovalOf(actionId: string) | RejectionOf(actionId: string)
    | EscalationOf(actionId: string) | StopAt(version: nat) | SafetyOf(contact: ContactDisposition)

  datatype State = State(
    cases: map<string, CaseRow>,
    invoices: map<string, InvoiceRow>,
    actions: map<string, CaseAction>,
    keys: map<ActionKey, string>,      // unique idempotency keys
    newest: map<string, string>,       // each case's latest action
    ledger: seq<Recognition>,
    events: set<(string, SourceId)>)   // unique (case, source event)

  datatype ServiceError = NotFound | CaseConflict | AlreadyRecovered | BrokenReference | PolicyUnresolved

  function Audit(s: State, caseId: string, source: SourceId): State { s.(events := s.events + {(caseId, source)}) }

  /** The bulk update of every nonterminal action of a case. */
  function CancelNonterminal(actions: map<string, CaseAction>, caseId: string): map<string, CaseAction> {
    map id | id in actions ::
      if actions[id].caseId == caseId then actions[id].(row := CancelledByCase(actions[id].row)) else actions[id]
  }

  // ------------------------------------------------------------- recommending

  datatype Selection = Selection(actionType: ActionType, surface: Option<Surface>)

  function PolicyContext(c: CaseRow, sel: Selection, now: int): Context
    requires c.atRiskPaise >= 0
  {
    Context(now, c.deadline, c.outcome, c.payment, c.subscription, c.contact, sel.actionType, sel.surface,
            c.atRiskPaise, c.subscription == SubPending, 0, None)
  }

  function NewRow(sel: Selection, policy: PolicyDecision): ActionRow {
    ActionRow(sel.actionType, sel.surface, ActionProtocol.InitialStatus(policy.disposition), policy.disposition,
              policy.delayUntil, policy.delayUntil, None, false)
  }

  /** The insert of a recommendation under its idempotency key. */
  function Insert(s: State, caseId: string, sel: Selection, policy: PolicyDecision, id: string): State {
    var t := s.(actions := s.actions[id := CaseAction(caseId, NewRow(sel, policy))],
                keys := s.keys[RecommendationKey(caseId, sel.actionType, sel.surface) := id],
                newest := s.newest[caseId := id]);
    Audit(t, caseId, RecommendationOf(id))
  }

  /** `requested` is an operator's explicit action, `ranked` the decision engine's choice, which
      it makes unless the end of quiet hours is lost. */
  function Recommend(s: State, config: Option<Config>, caseId: string, requested: Option<Selection>,
                     ranked: Selection, id: string, now: int): (State, Result<string, ServiceError>)
    requires forall c | c in s.cases :: s.cases[c].atRiskPaise >= 0
  {
    if caseId !in s.cases then (s, Err(NotFound))
    else if requested.None? && caseId in s.newest then (s, Ok(s.newest[caseId]))
    else if config.None? then (s, Err(NotFound))
    else
      var sel := if requested.Some? then requested.value else ranked;
      if requested.None? && QuietEndLost(now, config.value) then (s, Err(PolicyUnresolved))
      else if (sel.actionType == OpenCustomerPaymentSurface) != sel.surface.Some? then (s, Err(CaseConflict))
      else match Evaluate(PolicyContext(s.cases[caseId], sel, now), config.value)
        case Err(_) => (s, Err(PolicyUnresolved))
        case Ok(policy) =>
          var key := RecommendationKey(caseId, sel.actionType, sel.surface);
          if key in s.keys then (s, Ok(s.keys[key]))
          else (Insert(s, caseId, sel, policy, id), Ok(id))
  }

  // ---------------------------------------------------------- operator commands

  predicate Has(s: State, caseId: string, id: string) {
    caseId in s.cases && id in s.actions && s.actions[id].caseId == caseId
  }

  function WithStatus(s: State, id: string, row: ActionRow): State
    requires id in s.actions
  {
    s.(actions := s.actions[id := s.actions[id].(row := row)])
  }

  function Approve(s: State, caseId: string, id: string): (State, Result<(), ServiceError>) {
    if !Has(s, caseId, id) then (s, Err(NotFound))
    else
      var row := s.actions[id].row;
      var invoice := s.cases[caseId].invoiceId;
      if row.status != AwaitingApproval then (s, Err(CaseConflict))
      else if row.actionType == OpenCustomerPaymentSurface
              && (row.surface.None? || invoice.None? || invoice.value !in s.invoices) then (s, Err(CaseConflict))
      else (WriteApproval(s, caseId, id), Ok(()))
  }

  /** What an approval commits once it has seen its action wait. */
  function WriteApproval(s: State, caseId: string, id: string): State
    requires id in s.actions
  {
    Audit(WithStatus(s, id, s.actions[id].row.(status := Scheduled, approved := true)), caseId, ApprovalOf(id))
  }

  function Reject(s: State, caseId: string, id: string): (State, Result<(), ServiceError>) {
    if !Has(s, caseId, id) then (s, Err(NotFound))
    else
      var row := s.actions[id].row;
      if row.status == Cancelled then (s, Ok(()))
      else if !ActionProtocol.Unclaimed(row.status) then (s, Err(CaseConflict))
      else (Audit(WithStatus(s, id, row.(status := Cancelled)), caseId, RejectionOf(id)), Ok(()))
  }

  /** A case leaves OPEN and takes its nonterminal actions with it. */
  function Close(s: State, caseId: string, c: CaseRow): State {
    s.(cases := s.cases[caseId := c], actions := CancelNonterminal(s.actions, caseId))
  }

  function StopCase(s: State, caseId: string): (State, Result<(), ServiceError>) {
    if caseId !in s.cases then (s, Err(NotFound))
    else
      var c := s.cases[caseId];
      if c.outcome == Stopped then (s, Ok(()))
      else if c.outcome != Open then (s, Err(CaseConflict))
      else (Audit(Close(s, caseId, c.(outcome := Stopped, version := c.version + 1)), caseId, StopAt(c.version + 1)), Ok(()))
  }

  const EscalationRow := ActionRow(EscalateToHuman, None, Succeeded, Allow, None, None, None, false)

  function Escalate(s: State, caseId: string, id: string): (State, Result<(), ServiceError>) {
    if caseId !in s.cases then (s, Err(NotFound))
    else
      var c := s.cases[caseId];
      if c.outcome == Escalated then (s, Ok(()))
      else if c.outcome != Open then (s, Err(CaseConflict))
      else
        var t := s.(actions := s.actions[id := CaseAction(caseId, EscalationRow)],
                    keys := s.keys[EscalationKey(caseId, c.version + 1) := id], newest := s.newest[caseId := id]);
        (Audit(Close(t, caseId, c.(outcome := Escalated, version := c.version + 1)), caseId, EscalationOf(id)), Ok(()))
  }

  /** The outcome a safety disposition ends a case with. */
  function SafetyOutcome(d: ContactDisposition): Option<CaseOutcome> {
    match d
    case Dispute => Some(Disputed)
    case OptedOut => Some(Stopped)
    case WrongPerson => Some(Stopped)
    case AlreadyPaid => Some(Escalated)
    case _ => None
  }

  function RecordSafety(s: State, caseId: string, d: ContactDisposition): (State, Result<(), ServiceError>) {
    if SafetyOutcome(d).None? then (s, Err(CaseConflict))
    else if caseId !in s.cases then (s, Err(NotFound))
    else
      var c := s.cases[caseId];
      var target := SafetyOutcome(d).value;
      if c.outcome != Open then (s, if c.outcome == target && c.contact == d then Ok(()) else Err(CaseConflict))
      else (Audit(Close(s, caseId, c.(contact := d, outcome := target, version := c.version + 1)), caseId, SafetyOf(d)), Ok(()))
  }

  // --------------------------------------------------------------------- money

  function Find(ledger: seq<Recognition>, eventId: string): Option<int> {
    if ledger == [] then None
    else if ledger[0].eventId == eventId then Some(ledger[0].amountPaise)
    else Find(ledger[1..], eventId)
  }

  datatype Success = Success(newlyRecognized: bool, amountPaise: int)

  function Collect(i: InvoiceRow, amount: int): InvoiceRow {
    var paid := Min(i.amountPaise, i.paidPaise + amount);
    i.(paidPaise := paid, settled := i.settled || paid == i.amountPaise)
  }

  function Credited(c: CaseRow, amount: int, at: int, reactivated: bool): CaseRow {
    var total := c.collectedPaise + amount;
    c.(collectedPaise := total, attribution := SimulatedRevenue, recovered := total >= c.atRiskPaise,
       payment := Captured, reactivated := reactivated,
       outcome := if total >= c.atRiskPaise then Recovered else PartiallyRecovered,
       recoveredAt := Some(at), version := c.version + 1)
  }

  function ApplySuccess(s: State, caseId: string, eventId: string, amount: Option<int>, at: int, reactivated: bool)
    : (State, Result<Success, ServiceError>)
  {
    if caseId !in s.cases then (s, Err(NotFound))
    else
      var c := s.cases[caseId];
      var remaining := c.atRiskPaise - c.collectedPaise;
      var paise := if amount.Some? then amount.value else remaining;
      if Find(s.ledger, eventId).Some? then (s, Ok(Success(false, Find(s.ledger, eventId).value)))
      else if remaining <= 0 then (s, Err(AlreadyRecovered))
      else if paise <= 0 || paise > remaining || c.invoiceId.None? then (s, Err(CaseConflict))
      else if c.invoiceId.value !in s.invoices then (s, Err(BrokenReference))
      else
        var t := s.(invoices := s.invoices[c.invoiceId.value := Collect(s.invoices[c.invoiceId.value], paise)],
                    ledger := s.ledger + [Recognition(caseId, eventId, paise)]);
        (Audit(Close(t, caseId, Credited(c, paise, at, reactivated)), caseId, ProviderEvent(eventId)), Ok(Success(true, paise)))
  }

  function ApplyLateFailure(s: State, caseId: string, eventId: string): (State, Result<bool, ServiceError>) {
    if caseId !in s.cases then (s, Err(NotFound))
    else if (caseId, ProviderEvent(eventId)) in s.events then (s, Ok(false))
    else
      var c := s.cases[caseId];
      var t := if c.payment == Captured then s
               else s.(cases := s.cases[caseId := c.(payment := PaymentFailed, version := c.version + 1)]);
      (Audit(t, caseId, ProviderEvent(eventId)), Ok(true))
  }

  // ------------------------------------------------------------- whole histories

  datatype Command =
    | Recommending(caseId: string, requested: Option<Selection>, ranked: Selection, id: string, now: int)
    | Approving(caseId: string, id: string)
    | Rejecting(caseId: string, id: string)
    | Stopping(caseId: string)
    | Escalating(caseId: string, id: string)
    | Disposing(caseId: string, contact: ContactDisposition)
    | Succeeding(caseId: string, eventId: string, amount: Option<int>, at: int, reactivated: bool)
    | LateFailing(caseId: string, eventId: string)
    | Working(id: string, step: WorkerStep)

  /** What the worker commits to an action row, whatever its case has come to. */
  datatype WorkerStep =
    | ClaimRow(now: int)
    | ClaimWithGrant(auth: Option<AuthStatus>, facts: MandateFacts, now: int)
    | RecordResult(reference: string)
    | CancelRow
    | CleanRow(lookup: Lookup, revocation: Revocation)

  function Worked(row: ActionRow, outcome: CaseOutcome, step: WorkerStep): ActionRow {
    match step
    case ClaimRow(now) =>
      var read := ReadForClaim(Some(row), false, now);
      if read.TrySwap? && SwapWins(row, read.seen, now) then row.(status := Executing) else row
    case ClaimWithGrant(auth, facts, now) =>
      if facts.caseOutcome == outcome && MandateClaim(row, auth, facts, now).Fresh? then row.(status := Executing) else row
    case RecordResult(reference) => if row.status == Executing then Persisted(row, reference) else row
    case CancelRow => CancelledByActivity(row)
    case CleanRow(lookup, revocation) =>
      if NeedsCleanup(row) && Cleaned(row, lookup, revocation).Some? then Cleaned(row, lookup, revocation).value else row
  }

  /** One service call or worker transaction; a call that fails changes nothing, and ids
      drawn for new actions are new. */
  function Do(s: State, config: Option<Config>, c: Command): State
    requires forall k | k in s.cases :: s.cases[k].atRiskPaise >= 0
  {
    match c
    case Recommending(k, requested, ranked, id, now) =>
      if id in s.actions then s else Recommend(s, config, k, requested, ranked, id, now).0
    case Approving(k, id) => Approve(s, k, id).0
    case Rejecting(k, id) => Reject(s, k, id).0
    case Stopping(k) => StopCase(s, k).0
    case Escalating(k, id) => if id in s.actions then s else Escalate(s, k, id).0
    case Disposing(k, d) => RecordSafety(s, k, d).0
    case Succeeding(k, e, amount, at, reactivated) => ApplySuccess(s, k, e, amount, at, reactivated).0
    case LateFailing(k, e) => ApplyLateFailure(s, k, e).0
    case Working(id, step) =>
      if id in s.actions && s.actions[id].caseId in s.cases
      then WithStatus(s, id, Worked(s.actions[id].row, s.cases[s.actions[id].caseId].outcome, step)) else s
  }
}
