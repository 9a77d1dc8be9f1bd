/** One durable action row, and what each transaction of the worker does to it.

    A transaction of the worker runs between two awaits while it holds the row
    lock, so each is one function from the row it reads to the row it commits. */
module ActionRecords {
  import opened Domain

  /** An action row joined with its policy decision and its approval event. */
  datatype ActionRow = ActionRow(
    actionType: ActionType,
    surface: Option<Surface>,
    status: ActionStatus,
    policy: Disposition,
    scheduledFor: Option<int>,
    delayUntil: Option<int>,
    externalReference: Option<string>,
    approved: bool)

  /** execution_status of the consumed mandate of an action. */
  datatype AuthStatus = AuthAuthorized | AuthExecuting | AuthSucceeded | AuthUncertain | AuthLegacy

  datatype ResultStatus = ResSucceeded | ResRejected | ResUncertain

  datatype ExecutionResult = ExecutionResult(status: ResultStatus, reason: string)

  datatype ClaimOutcome =
    | Fresh                              // the row is EXECUTING and this delivery submits
    | Reconcile                          // an earlier submission must be looked up first
    | Returned(result: ExecutionResult)  // nothing to submit

  /** What the claim's locked read decides before it writes. */
  datatype ClaimRead = Decided(outcome: ClaimOutcome) | TrySwap(seen: ActionStatus)

  predicate IsStandard(row: ActionRow) { row.surface == Some(StandardPaymentLink) }

  /** The later of the two instants that may hold an action back. */
  function EffectiveDelay(row: ActionRow): Option<int> {
    match (row.scheduledFor, row.delayUntil)
    case (None, d) => d
    case (s, None) => s
    case (Some(s), Some(d)) => Some(Max(s, d))
  }

  predicate Due(row: ActionRow, now: int) {
    match EffectiveDelay(row) case None => true case Some(at) => at <= now
  }

  predicate Claimable(policy: Disposition, status: ActionStatus) {
    match policy
    case Allow => status == Proposed || status == Scheduled
    case Delay => status == Scheduled
    case RequireManualApproval => status == Scheduled
    case Block => false
  }

  function Rejected(reason: string): ClaimOutcome { Returned(ExecutionResult(ResRejected, reason)) }

  function Unresolved(): ClaimOutcome { Returned(ExecutionResult(ResUncertain, "SUBMISSION_RECONCILIATION_REQUIRED")) }

  function AlreadyExecuted(): ClaimOutcome { Returned(ExecutionResult(ResSucceeded, "ALREADY_EXECUTED")) }

  /** The read of a claim without a mandate. */
  function ReadForClaim(found: Option<ActionRow>, inFlight: bool, now: int): ClaimRead {
    match found
    case None => Decided(Rejected("PERSISTED_POLICY_NOT_FOUND"))
    case Some(row) =>
      if row.status == Succeeded then Decided(AlreadyExecuted())
      else if row.status == Executing then
        Decided(if !inFlight && IsStandard(row) then Reconcile else Unresolved())
      else if row.policy == Block then Decided(Rejected("POLICY_BLOCKED"))
      else if row.status == Cancelled then Decided(Rejected("ACTION_CANCELLED"))
      else if !Claimable(row.policy, row.status) then Decided(Rejected("ACTION_NOT_AUTHORIZED"))
      else if !Due(row, now) then Decided(Rejected("ACTION_NOT_DUE"))
      else TrySwap(row.status)
  }

  /** The compare-and-swap that makes a read row EXECUTING. */
  predicate SwapWins(row: ActionRow, seen: ActionStatus, now: int) {
    row.status == seen && (row.scheduledFor.None? || row.scheduledFor.value <= now)
  }

  /** The re-read after a lost compare-and-swap. */
  function RereadForClaim(row: ActionRow, inFlight: bool): ClaimOutcome {
    if row.status == Succeeded then AlreadyExecuted()
    else if row.status == Executing && !inFlight && IsStandard(row) then Reconcile
    else Unresolved()
  }

  // ---------------------------------------------------------------- mandates

  /** The nine scope fields that a command, a mandate and the rows must share. */
  datatype Scope = Scope(
    actionId: string, invoiceId: string, caseId: string, merchantId: string, customerId: string,
    exactAmountPaise: int, currency: string, surface: Surface, surfaceReference: string)

  /** Everything a mandate-backed claim compares, as read under the row locks. */
  datatype MandateFacts = MandateFacts(
    commandScope: Scope,
    signedScope: Scope,
    persistedScope: Scope,        // the consumed authorization's own columns
    currentScope: Scope,          // rebuilt from the action, case and invoice rows
    taskAndSignerMatch: bool,
    authorizedAction: string,
    issuedAt: int, persistedIssuedAt: int,
    expiresAt: int, persistedExpiresAt: int,
    commandDeadline: int, recoveryDeadline: int,
    invoiceAmountPaise: int, invoicePaidPaise: int,
    caseOutcome: CaseOutcome, paymentState: PaymentState, caseRecovered: bool)

  predicate MandateSafe(row: ActionRow, m: MandateFacts, now: int) {
    && m.persistedScope == m.signedScope
    && m.currentScope == m.signedScope
    && m.taskAndSignerMatch
    && m.authorizedAction == "OPEN_EXACT_PAYMENT_SURFACE"
    && m.persistedIssuedAt == m.issuedAt
    && m.persistedExpiresAt == m.expiresAt
    && now < m.expiresAt <= m.recoveryDeadline
    && m.commandDeadline == m.recoveryDeadline
    && m.invoiceAmountPaise - m.invoicePaidPaise == m.signedScope.exactAmountPaise
    && m.caseOutcome == Open
    && m.paymentState != Captured
    && !m.caseRecovered
    && row.actionType == SendToCustomerAgent
    && (row.policy == Allow || row.policy == Delay)
  }

  /** A claim backed by a consumed mandate; a Fresh outcome also writes both rows. */
  function MandateClaim(row: ActionRow, auth: Option<AuthStatus>, m: MandateFacts, now: int): ClaimOutcome {
    if m.signedScope != m.commandScope then Rejected("A2A_MANDATE_COMMAND_SCOPE_MISMATCH")
    else if auth.None? then Rejected("A2A_VERIFIED_AUTHORIZATION_NOT_FOUND")
    else if !MandateSafe(row, m, now) then Rejected("A2A_AUTHORIZATION_STALE_OR_MISMATCHED")
    else if row.status == Succeeded then AlreadyExecuted()
    else if row.status == Cancelled then Rejected("ACTION_CANCELLED")
    else match auth.value
      case AuthExecuting => if m.commandScope.surface == StandardPaymentLink then Reconcile else Unresolved()
      case AuthUncertain => if m.commandScope.surface == StandardPaymentLink then Reconcile else Unresolved()
      case AuthSucceeded => AlreadyExecuted()
      case AuthLegacy => Rejected("A2A_AUTHORIZATION_NOT_EXECUTABLE")
      case AuthAuthorized =>
        if row.status != Proposed && row.status != Scheduled then Rejected("ACTION_NOT_AUTHORIZED")
        else if !Due(row, now) then Rejected("ACTION_NOT_DUE")
        else Fresh
  }

  /** What lets a mandate-backed claim submit: one scope everywhere, an unexpired mandate inside
      the recovery deadline for exactly the open balance, and a live case and action. */
  lemma FreshMandateIff(row: ActionRow, auth: Option<AuthStatus>, m: MandateFacts, now: int)
    ensures MandateClaim(row, auth, m, now).Fresh? <==>
      && m.commandScope == m.signedScope == m.persistedScope == m.currentScope
      && m.taskAndSignerMatch && m.authorizedAction == "OPEN_EXACT_PAYMENT_SURFACE"
      && m.persistedIssuedAt == m.issuedAt && m.persistedExpiresAt == m.expiresAt
      && now < m.expiresAt <= m.recoveryDeadline == m.commandDeadline
      && m.invoiceAmountPaise == m.invoicePaidPaise + m.signedScope.exactAmountPaise
      && m.caseOutcome == Open && m.paymentState != Captured && !m.caseRecovered
      && row.actionType == SendToCustomerAgent && row.policy in {Allow, Delay} && row.status in {Proposed, Scheduled}
      && (row.scheduledFor.Some? ==> row.scheduledFor.value <= now)
      && (row.delayUntil.Some? ==> row.delayUntil.value <= now)
      && auth == Some(AuthAuthorized)
  {
  }

  // ------------------------------------------------- results and cancellation

  /** Recording a provider result: a cancelled or settled row keeps what it has. */
  function Persisted(row: ActionRow, reference: string): ActionRow {
    if row.status == Cancelled || row.status == Succeeded then row
    else row.(status := Succeeded, externalReference := Some(reference))
  }

  function PersistedAuth(row: ActionRow, auth: Option<AuthStatus>): Option<AuthStatus> {
    if row.status == Cancelled || row.status == Succeeded || auth.None? then auth else Some(AuthSucceeded)
  }

  predicate Nonterminal(s: ActionStatus) {
    s == Proposed || s == AwaitingApproval || s == Scheduled || s == Executing
  }

  /** The second transaction of a cancellation. */
  function CancelledByActivity(row: ActionRow): ActionRow {
    if !IsStandard(row) && Nonterminal(row.status) then row.(status := Cancelled) else row
  }

  /** The API's bulk update when a case leaves OPEN. */
  function CancelledByCase(row: ActionRow): ActionRow {
    if Nonterminal(row.status) then row.(status := Cancelled) else row
  }

  predicate NeedsCleanup(row: ActionRow) {
    IsStandard(row) && (row.status == Executing || row.status == Succeeded)
  }

  /** A provider reference is only ever written together with SUCCEEDED. */
  predicate ReferenceSettled(row: ActionRow) {
    row.externalReference.Some? ==> row.status == Succeeded || row.status == Cancelled
  }

  datatype Lookup = LookupError | Absent | Present(reference: string)

  datatype Revocation = RevokeError | RevokeUnknown | RevokedNow | AlreadyInactive | PaymentPresent

  /** Cleanup of one standard link: None is the branch that rolls back. */
  function Cleaned(row: ActionRow, lookup: Lookup, revocation: Revocation): Option<ActionRow> {
    if row.externalReference.None? && lookup == LookupError then None
    else if row.externalReference.None? && lookup == Absent then Some(row.(status := Cancelled))
    else
      var linked := if row.externalReference.Some? then row
                    else row.(status := Succeeded, externalReference := Some(lookup.reference));
      match revocation
      case PaymentPresent => Some(linked)
      case RevokedNow => Some(linked.(status := Cancelled))
      case AlreadyInactive => Some(linked.(status := Cancelled))
      case RevokeError => None
      case RevokeUnknown => None
  }
}
