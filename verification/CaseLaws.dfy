/** What every history of service calls and worker steps keeps: the money, the case states,
    and the quiet of closed cases. */
module CaseLaws {
  import opened Domain
  import opened ActionRecords
  import opened Safety
  import opened CaseRecords
  import ActionProtocol
  import Reconciliation

  // --------------------------------------------------------------- one case row

  /** RecoveryCaseState.validate_state, and beyond it: no more is collected than is at risk,
      a case is recovered exactly when all of it was, and collected money was captured. */
  predicate ValidCase(c: CaseRow) {
    && 0 <= c.collectedPaise <= c.atRiskPaise
    && (c.recovered <==> c.collectedPaise == c.atRiskPaise && c.collectedPaise > 0)
    && (c.collectedPaise > 0 ==> c.payment == Captured && c.outcome in {Recovered, PartiallyRecovered})
    && c.openedAt < c.deadline
    && (c.outcome == Recovered <==> c.recovered)
    && (c.payment == Captured ==> c.collectedPaise != 0)
    && (c.collectedPaise > 0 ==> c.attribution != NoAttribution)
  }

  /** What no case row ever takes back. */
  predicate Advances(a: CaseRow, b: CaseRow) {
    && (b.invoiceId, b.atRiskPaise, b.openedAt, b.deadline) == (a.invoiceId, a.atRiskPaise, a.openedAt, a.deadline)
    && a.collectedPaise <= b.collectedPaise && a.version <= b.version
    && (a.payment == Captured ==> b.payment == Captured)
    && (a.outcome != Open ==> b.outcome != Open)
    && (a.outcome == Recovered ==> b.outcome == Recovered && b.collectedPaise == a.collectedPaise)
  }

  // ------------------------------------------------------------------- the money

  function Sum(ledger: seq<Recognition>, caseId: string): int {
    if ledger == [] then 0
    else (if ledger[0].caseId == caseId then ledger[0].amountPaise else 0) + Sum(ledger[1..], caseId)
  }

  lemma {:induction false} SumAppend(ledger: seq<Recognition>, r: Recognition, caseId: string)
    ensures Sum(ledger + [r], caseId) == Sum(ledger, caseId) + if r.caseId == caseId then r.amountPaise else 0
  {
    if ledger == [] {
      assert ledger + [r] == [r];
    } else {
      SumAppend(ledger[1..], r, caseId);
      assert (ledger + [r])[1..] == ledger[1..] + [r];
    }
  }

  predicate AllValid(s: State) { forall k | k in s.cases :: ValidCase(s.cases[k]) }

  ghost predicate LedgerAgrees(s: State) { forall k | k in s.cases :: s.cases[k].collectedPaise == Sum(s.ledger, k) }

  /** No two cases of a merchant share an invoice. */
  predicate OneCasePerInvoice(cases: map<string, CaseRow>) {
    forall i, j | i in cases && j in cases && cases[i].invoiceId.Some? && cases[i].invoiceId == cases[j].invoiceId :: i == j
  }

  predicate InvoicesInRange(invoices: map<string, InvoiceRow>) {
    forall i | i in invoices :: 0 <= invoices[i].paidPaise <= invoices[i].amountPaise
  }

  ghost predicate MoneyInv(s: State) {
    AllValid(s) && LedgerAgrees(s) && OneCasePerInvoice(s.cases) && InvoicesInRange(s.invoices)
  }

  /** What every command but a newly recognized success leaves alone. */
  ghost predicate MoneyUntouched(s: State, t: State) {
    && t.ledger == s.ledger && t.invoices == s.invoices
    && (forall k | k in s.cases && k in t.cases :: t.cases[k].collectedPaise == s.cases[k].collectedPaise)
  }

  ghost predicate Progress(s: State, t: State) {
    && t.cases.Keys == s.cases.Keys && s.events <= t.events
    && forall k | k in s.cases :: Advances(s.cases[k], t.cases[k]) && ValidCase(t.cases[k])
  }

  lemma ActionsProgress(s: State, config: Option<Config>, c: Command)
    requires MoneyInv(s) && (c.Recommending? || c.Approving? || c.Rejecting? || c.Working?)
    ensures Do(s, config, c).cases == s.cases && Do(s, config, c).ledger == s.ledger
    ensures Do(s, config, c).invoices == s.invoices && s.events <= Do(s, config, c).events
  {
  }

  lemma NothingProgresses(s: State)
    requires AllValid(s)
    ensures Progress(s, s) && MoneyUntouched(s, s)
  {
  }

  /** A command that rewrites one case row progresses if that row does. */
  lemma RowProgress(s: State, t: State, k: string, c: CaseRow)
    requires AllValid(s) && k in s.cases && t.cases == s.cases[k := c] && s.events <= t.events
    requires Advances(s.cases[k], c) && ValidCase(c)
    ensures Progress(s, t)
    ensures t.ledger == s.ledger && t.invoices == s.invoices && c.collectedPaise == s.cases[k].collectedPaise ==> MoneyUntouched(s, t)
  {
  }

  lemma StopProgress(s: State, k: string)
    requires AllValid(s)
    ensures MoneyUntouched(s, StopCase(s, k).0) && Progress(s, StopCase(s, k).0)
  {
    var t := StopCase(s, k).0;
    if k in s.cases && s.cases[k].outcome == Open { RowProgress(s, t, k, t.cases[k]); } else { NothingProgresses(s); }
  }

  lemma EscalateProgress(s: State, k: string, id: string)
    requires AllValid(s)
    ensures MoneyUntouched(s, Escalate(s, k, id).0) && Progress(s, Escalate(s, k, id).0)
  {
    var t := Escalate(s, k, id).0;
    if k in s.cases && s.cases[k].outcome == Open { RowProgress(s, t, k, t.cases[k]); } else { NothingProgresses(s); }
  }

  lemma SafetyProgress(s: State, k: string, d: ContactDisposition)
    requires AllValid(s)
    ensures MoneyUntouched(s, RecordSafety(s, k, d).0) && Progress(s, RecordSafety(s, k, d).0)
  {
    var t := RecordSafety(s, k, d).0;
    if k in s.cases && s.cases[k].outcome == Open && SafetyOutcome(d).Some? { RowProgress(s, t, k, t.cases[k]); }
    else { NothingProgresses(s); }
  }

  lemma LateFailureProgress(s: State, k: string, e: string)
    requires AllValid(s)
    ensures MoneyUntouched(s, ApplyLateFailure(s, k, e).0) && Progress(s, ApplyLateFailure(s, k, e).0)
  {
    var t := ApplyLateFailure(s, k, e).0;
    if k in s.cases && (k, ProviderEvent(e)) !in s.events {
      var c := s.cases[k];
      if c.payment == Captured { assert t.cases == s.cases[k := c]; }
      RowProgress(s, t, k, if c.payment == Captured then c else c.(payment := PaymentFailed, version := c.version + 1));
    } else {
      NothingProgresses(s);
    }
  }

  lemma SuccessProgress(s: State, caseId: string, e: string, amount: Option<int>, at: int, reactivated: bool)
    requires AllValid(s)
    ensures Progress(s, ApplySuccess(s, caseId, e, amount, at, reactivated).0)
  {
    var (t, r) := ApplySuccess(s, caseId, e, amount, at, reactivated);
    if r.Ok? && r.value.newlyRecognized { RowProgress(s, t, caseId, t.cases[caseId]); } else { NothingProgresses(s); }
  }

  lemma DoProgress(s: State, config: Option<Config>, c: Command)
    requires MoneyInv(s)
    ensures Progress(s, Do(s, config, c)) && (!c.Succeeding? ==> MoneyUntouched(s, Do(s, config, c)))
  {
    match c
    case Stopping(k) => StopProgress(s, k);
    case Escalating(k, id) => EscalateProgress(s, k, id);
    case Disposing(k, d) => SafetyProgress(s, k, d);
    case LateFailing(k, e) => LateFailureProgress(s, k, e);
    case Succeeding(k, e, amount, at, reactivated) => SuccessProgress(s, k, e, amount, at, reactivated);
    case _ => ActionsProgress(s, config, c);
  }

  lemma DoKeepsMoney(s: State, config: Option<Config>, c: Command)
    requires MoneyInv(s)
    ensures MoneyInv(Do(s, config, c))
  {
    match c
    case Succeeding(k, e, amount, at, reactivated) => SuccessKeepsMoney(s, k, e, amount, at, reactivated);
    case _ => DoProgress(s, config, c); UntouchedKeepsMoney(s, Do(s, config, c));
  }

  lemma UntouchedKeepsMoney(s: State, t: State)
    requires MoneyInv(s) && Progress(s, t) && MoneyUntouched(s, t)
    ensures MoneyInv(t)
  {
    InvoiceIdsKept(s, t);
  }

  lemma SuccessKeepsMoney(s: State, caseId: string, e: string, amount: Option<int>, at: int, reactivated: bool)
    requires MoneyInv(s)
    ensures MoneyInv(ApplySuccess(s, caseId, e, amount, at, reactivated).0)
  {
    var (t, r) := ApplySuccess(s, caseId, e, amount, at, reactivated);
    if r.Ok? && r.value.newlyRecognized {
      SuccessProgress(s, caseId, e, amount, at, reactivated);
      RecognitionAgrees(s, t, Recognition(caseId, e, r.value.amountPaise));
      InvoiceIdsKept(s, t);
    }
  }

  lemma RecognitionAgrees(s: State, t: State, r: Recognition)
    requires LedgerAgrees(s) && t.ledger == s.ledger + [r] && r.caseId in s.cases && t.cases.Keys == s.cases.Keys
    requires forall k | k in s.cases && k != r.caseId :: t.cases[k] == s.cases[k]
    requires t.cases[r.caseId].collectedPaise == s.cases[r.caseId].collectedPaise + r.amountPaise
    ensures LedgerAgrees(t)
  {
    forall k | k in t.cases ensures t.cases[k].collectedPaise == Sum(t.ledger, k) { SumAppend(s.ledger, r, k); }
  }

  lemma InvoiceIdsKept(s: State, t: State)
    requires OneCasePerInvoice(s.cases) && Progress(s, t)
    ensures OneCasePerInvoice(t.cases)
  {
    forall k | k in t.cases ensures t.cases[k].invoiceId == s.cases[k].invoiceId { assert Advances(s.cases[k], t.cases[k]); }
  }

  /** How an invoice row stands to the recognitions since a starting state. */
  ghost predicate InvoiceFollows(start: State, s: State, k: string)
    requires k in start.cases && start.cases[k].invoiceId.Some? && start.cases[k].invoiceId.value in start.invoices
  {
    var i := start.cases[k].invoiceId.value;
    && i in s.invoices && s.invoices[i].amountPaise == start.invoices[i].amountPaise
    && s.invoices[i].paidPaise
       == Min(start.invoices[i].amountPaise, start.invoices[i].paidPaise + Sum(s.ledger, k) - Sum(start.ledger, k))
    && Sum(start.ledger, k) <= Sum(s.ledger, k)
  }

  lemma InvoiceFollowsStep(start: State, s: State, config: Option<Config>, c: Command, k: string)
    requires MoneyInv(s) && k in start.cases && k in s.cases && s.cases[k].invoiceId == start.cases[k].invoiceId
    requires start.cases[k].invoiceId.Some? && start.cases[k].invoiceId.value in start.invoices
    requires InvoiceFollows(start, s, k)
    ensures InvoiceFollows(start, Do(s, config, c), k)
  {
    match c
    case Succeeding(caseId, e, amount, at, reactivated) =>
      InvoiceFollowsSuccess(start, s, k, caseId, e, amount, at, reactivated);
    case _ =>
      DoProgress(s, config, c);
      InvoiceFollowsUntouched(start, s, Do(s, config, c), k);
  }

  lemma InvoiceFollowsUntouched(start: State, s: State, t: State, k: string)
    requires k in start.cases && start.cases[k].invoiceId.Some? && start.cases[k].invoiceId.value in start.invoices
    requires InvoiceFollows(start, s, k) && MoneyUntouched(s, t)
    ensures InvoiceFollows(start, t, k)
  {
  }

  lemma InvoiceFollowsSuccess(start: State, s: State, k: string, caseId: string, e: string, amount: Option<int>, at: int, reactivated: bool)
    requires MoneyInv(s) && k in start.cases && k in s.cases && s.cases[k].invoiceId == start.cases[k].invoiceId
    requires start.cases[k].invoiceId.Some? && start.cases[k].invoiceId.value in start.invoices
    requires InvoiceFollows(start, s, k)
    ensures InvoiceFollows(start, ApplySuccess(s, caseId, e, amount, at, reactivated).0, k)
  {
    var r := ApplySuccess(s, caseId, e, amount, at, reactivated).1;
    if r.Ok? && r.value.newlyRecognized { SumAppend(s.ledger, Recognition(caseId, e, r.value.amountPaise), k); }
  }

  ghost function Run(s: State, config: Option<Config>, cs: seq<Command>): (t: State)
    requires MoneyInv(s)
    ensures MoneyInv(t)
    decreases |cs|
  {
    if cs == [] then s else
      DoKeepsMoney(s, config, cs[0]);
      Run(Do(s, config, cs[0]), config, cs[1..])
  }

  /** Over every history a case's collected arrears are the sum of its recognitions and stay
      within the amount at risk, and validate_state holds of every case. */
  lemma CollectedIsTheSumOfRecognitions(s: State, config: Option<Config>, cs: seq<Command>, k: string)
    requires MoneyInv(s) && k in Run(s, config, cs).cases
    ensures var t := Run(s, config, cs);
            0 <= t.cases[k].collectedPaise == Sum(t.ledger, k) <= t.cases[k].atRiskPaise && ValidCase(t.cases[k])
  {
  }

  /** Over every history a case is recovered exactly when its recognitions add up to the whole
      amount at risk, and a case with money is either recovered or partially recovered. */
  lemma RecoveredIffPaidInFull(s: State, config: Option<Config>, cs: seq<Command>, k: string)
    requires MoneyInv(s) && k in Run(s, config, cs).cases
    ensures var c, paid := Run(s, config, cs).cases[k], Sum(Run(s, config, cs).ledger, k);
            && (c.recovered <==> 0 < paid == c.atRiskPaise) && (c.outcome == Recovered <==> c.recovered)
            && (0 < paid < c.atRiskPaise ==> c.outcome == PartiallyRecovered)
            && (0 < paid ==> c.payment == Captured && c.attribution != NoAttribution)
  {
    CollectedIsTheSumOfRecognitions(s, config, cs, k);
  }

  /** The row as the worker's reconciliation reads it. */
  function Facts(id: string, c: CaseRow): Reconciliation.CaseFacts {
    Reconciliation.CaseFacts(id, c.atRiskPaise, c.collectedPaise, c.recovered, c.payment, c.subscription, c.reactivated)
  }

  /** So the worker always finds the accounts that make its recovered results exact. */
  lemma ReconciliationFindsAccountsInOrder(s: State, config: Option<Config>, cs: seq<Command>, k: string)
    requires MoneyInv(s) && k in Run(s, config, cs).cases
    ensures Reconciliation.Accounts(Facts(k, Run(s, config, cs).cases[k]))
  {
    assert ValidCase(Run(s, config, cs).cases[k]);
  }

  /** Over every history a recovered answer about a case carries exactly the amount at risk. The
      recognitions of these histories are the mock provider's; a recognition of the live provider
      comes from a writer that is not part of this model, and is covered as far as it leaves the
      case row as this service does. */
  lemma RecoveredAnswersAreExact(s: State, config: Option<Config>, cs: seq<Command>, k: string, scope: bool,
                                 trigger: Reconciliation.Trigger, rows: Reconciliation.Rows, snapshot: Reconciliation.Snapshot)
    requires MoneyInv(s) && k in Run(s, config, cs).cases
    requires rows.recoveryCase == Some(Facts(k, Run(s, config, cs).cases[k]))
    ensures var r := Reconciliation.ReconcileCase(scope, trigger, rows, snapshot);
            r.caseRecovered ==>
              r.authoritative && r.paymentState == Captured && r.providerReference.Some?
              && r.arrearsCollectedPaise == Run(s, config, cs).cases[k].atRiskPaise
  {
    ReconciliationFindsAccountsInOrder(s, config, cs, k);
    Reconciliation.RecoveredResultIsExact(scope, trigger, rows, snapshot);
  }

  /** CAPTURED is never left, a case that left OPEN stays closed, a recovered case stays
      recovered, and collected arrears only grow. */
  lemma {:induction false} CasesOnlyAdvance(s: State, config: Option<Config>, cs: seq<Command>, k: string)
    requires MoneyInv(s) && k in s.cases
    ensures k in Run(s, config, cs).cases && Advances(s.cases[k], Run(s, config, cs).cases[k])
    decreases |cs|
  {
    if cs != [] {
      DoProgress(s, config, cs[0]);
      DoKeepsMoney(s, config, cs[0]);
      CasesOnlyAdvance(Do(s, config, cs[0]), config, cs[1..], k);
    }
  }

  lemma {:induction false} InvoiceFollowsRun(start: State, s: State, config: Option<Config>, cs: seq<Command>, k: string)
    requires MoneyInv(s) && k in start.cases && k in s.cases && s.cases[k].invoiceId == start.cases[k].invoiceId
    requires start.cases[k].invoiceId.Some? && start.cases[k].invoiceId.value in start.invoices
    requires InvoiceFollows(start, s, k)
    ensures InvoiceFollows(start, Run(s, config, cs), k)
    decreases |cs|
  {
    if cs != [] {
      DoProgress(s, config, cs[0]);
      DoKeepsMoney(s, config, cs[0]);
      InvoiceFollowsStep(start, s, config, cs[0], k);
      InvoiceFollowsRun(start, Do(s, config, cs[0]), config, cs[1..], k);
    }
  }

  /** The invoice's paid amount grows by exactly what the case recognized in the meantime if
      and only if that still fits the invoice, which it always does when the invoice's open
      balance covers what is left of the amount at risk. */
  lemma InvoiceGrowsByTheRecognitions(s: State, config: Option<Config>, cs: seq<Command>, k: string)
    requires MoneyInv(s) && k in s.cases && s.cases[k].invoiceId.Some? && s.cases[k].invoiceId.value in s.invoices
    ensures var t := Run(s, config, cs);
            var i := s.cases[k].invoiceId.value;
            var grown := Sum(t.ledger, k) - Sum(s.ledger, k);
            var open := s.invoices[i].amountPaise - s.invoices[i].paidPaise;
            && i in t.invoices && k in t.cases
            && (t.invoices[i].paidPaise == s.invoices[i].paidPaise + grown <==> grown <= open)
            && (s.cases[k].atRiskPaise - s.cases[k].collectedPaise <= open ==> grown <= open)
  {
    InvoiceFollowsRun(s, s, config, cs, k);
    CasesOnlyAdvance(s, config, cs, k);
  }

  // ------------------------------------------------------------------- replaying

  lemma {:induction false} FindAppend(ledger: seq<Recognition>, r: Recognition, e: string)
    ensures Find(ledger + [r], e) == if Find(ledger, e).Some? then Find(ledger, e)
                                     else if r.eventId == e then Some(r.amountPaise) else None
  {
    if ledger == [] {
      assert ledger + [r] == [r];
    } else {
      FindAppend(ledger[1..], r, e);
      assert (ledger + [r])[1..] == ledger[1..] + [r];
    }
  }

  lemma {:induction false} RecognitionsStay(s: State, config: Option<Config>, cs: seq<Command>, e: string)
    requires MoneyInv(s) && Find(s.ledger, e).Some?
    ensures Find(Run(s, config, cs).ledger, e) == Find(s.ledger, e)
    decreases |cs|
  {
    if cs != [] {
      var c := cs[0];
      if c.Succeeding? {
        var r := ApplySuccess(s, c.caseId, c.eventId, c.amount, c.at, c.reactivated).1;
        if r.Ok? && r.value.newlyRecognized { FindAppend(s.ledger, Recognition(c.caseId, c.eventId, r.value.amountPaise), e); }
      } else {
        DoProgress(s, config, c);
      }
      DoKeepsMoney(s, config, c);
      RecognitionsStay(Do(s, config, c), config, cs[1..], e);
    }
  }

  /** A success event that was recognized once changes nothing when it is delivered again,
      whatever happened in between and whatever amount the repeat carries, and is answered
      with the amount first recognized. */
  lemma ReplayedSuccessChangesNothing(s: State, config: Option<Config>, first: Command, cs: seq<Command>, again: Command)
    requires MoneyInv(s) && first.Succeeding? && again.Succeeding? && again.eventId == first.eventId
    requires MoneyInv(Do(s, config, first)) && again.caseId in s.cases
    requires var r := ApplySuccess(s, first.caseId, first.eventId, first.amount, first.at, first.reactivated).1; r.Ok? && r.value.newlyRecognized
    ensures var r := ApplySuccess(s, first.caseId, first.eventId, first.amount, first.at, first.reactivated).1;
            var later := Run(Do(s, config, first), config, cs);
            ApplySuccess(later, again.caseId, again.eventId, again.amount, again.at, again.reactivated)
              == (later, Ok(Success(false, r.value.amountPaise)))
  {
    var r := ApplySuccess(s, first.caseId, first.eventId, first.amount, first.at, first.reactivated).1;
    FindAppend(s.ledger, Recognition(first.caseId, first.eventId, r.value.amountPaise), first.eventId);
    RecognitionsStay(Do(s, config, first), config, cs, first.eventId);
    DoProgress(s, config, first);
    CasesOnlyAdvance(Do(s, config, first), config, cs, again.caseId);
  }

  lemma {:induction false} EventsStay(s: State, config: Option<Config>, cs: seq<Command>)
    requires MoneyInv(s)
    ensures s.events <= Run(s, config, cs).events && s.cases.Keys == Run(s, config, cs).cases.Keys
    decreases |cs|
  {
    if cs != [] {
      DoProgress(s, config, cs[0]);
      DoKeepsMoney(s, config, cs[0]);
      EventsStay(Do(s, config, cs[0]), config, cs[1..]);
    }
  }

  /** A late failure counts once: any event the case has seen, its own capture included, is
      answered without a change. */
  lemma SeenEventFailsNothing(s: State, config: Option<Config>, cs: seq<Command>, k: string, e: string)
    requires MoneyInv(s) && k in s.cases && (k, ProviderEvent(e)) in s.events
    ensures ApplyLateFailure(Run(s, config, cs), k, e) == (Run(s, config, cs), Ok(false))
  {
    EventsStay(s, config, cs);
  }

  // ----------------------------------------------------- the quiet of closed cases

  /** Cases as they are opened, before any action or payment: where every history starts. */
  predicate JustOpened(c: CaseRow) {
    && c.outcome == Open && c.payment == PaymentFailed && !c.recovered
    && c.collectedPaise == 0 <= c.atRiskPaise && c.openedAt < c.deadline
  }

  lemma HistoriesStartInOrder(s: State)
    requires forall k | k in s.cases :: JustOpened(s.cases[k])
    requires OneCasePerInvoice(s.cases) && InvoicesInRange(s.invoices)
    requires s.ledger == [] && s.actions == map[] && s.keys == map[] && s.newest == map[]
    ensures MoneyInv(s) && Quiet(s)
  {
    assert forall k | k in s.cases :: JustOpened(s.cases[k]) && Sum(s.ledger, k) == 0;
  }

  /** An action that still may run belongs to an open case, unless it is STOP or ESCALATE. */
  ghost predicate Quiet(s: State) {
    && (forall id | id in s.actions :: QuietAction(s, s.actions[id]))
    && (forall k | k in s.keys :: s.keys[k] in s.actions)
    && (forall k | k in s.newest :: s.newest[k] in s.actions)
  }

  predicate QuietAction(s: State, a: CaseAction) {
    && a.caseId in s.cases
    && (Nonterminal(a.row.status) && !IsTerminalControl(a.row.actionType) ==> s.cases[a.caseId].outcome == Open)
  }

  lemma CloseKeepsQuiet(s: State, k: string, c: CaseRow)
    requires Quiet(s) && k in s.cases
    ensures Quiet(Close(s, k, c))
  {
    var t := Close(s, k, c);
    forall id | id in t.actions ensures QuietAction(t, t.actions[id]) { assert QuietAction(s, s.actions[id]); }
  }

  lemma RowKeepsQuiet(s: State, id: string, row: ActionRow)
    requires Quiet(s) && id in s.actions && row.actionType == s.actions[id].row.actionType
    requires Nonterminal(row.status) ==> Nonterminal(s.actions[id].row.status)
    ensures Quiet(WithStatus(s, id, row))
  {
    var t := WithStatus(s, id, row);
    assert QuietAction(s, s.actions[id]);
    forall i | i in t.actions ensures QuietAction(t, t.actions[i]) { assert QuietAction(s, s.actions[i]); }
  }

  /** Inserting a recommendation keeps closed cases quiet exactly when its policy blocked it,
      it is a terminal control, or its case is open at the insert. The policy itself sees to
      this when it was evaluated on the row as it still is. */
  lemma InsertKeepsQuietIff(s: State, k: string, sel: Selection, policy: PolicyDecision, id: string)
    requires Quiet(s) && k in s.cases && id !in s.actions
    ensures Quiet(Insert(s, k, sel, policy, id)) <==>
              policy.disposition == Block || IsTerminalControl(sel.actionType) || s.cases[k].outcome == Open
  {
    var t := Insert(s, k, sel, policy, id);
    forall i | i in s.actions ensures QuietAction(t, t.actions[i]) { assert QuietAction(s, s.actions[i]); }
    assert QuietAction(t, t.actions[id]) <==>
      policy.disposition == Block || IsTerminalControl(sel.actionType) || s.cases[k].outcome == Open;
  }

  /** A recommendation whose policy read the case before another call closed it, and whose
      insert came after, leaves a claimable payment action on a closed case: for every open
      case whose policy allows the action. */
  lemma RecommendationCanRaceAStop(s: State, config: Config, k: string, id: string, now: int)
    requires Quiet(s) && k in s.cases && s.cases[k].outcome == Open && id !in s.actions
    requires s.cases[k].atRiskPaise >= 0
    requires var read := Evaluate(PolicyContext(s.cases[k], InvoiceLinkAction, now), config);
             read.Ok? && read.value.disposition == Allow
    ensures var read := Evaluate(PolicyContext(s.cases[k], InvoiceLinkAction, now), config);
            var raced := Insert(StopCase(s, k).0, k, InvoiceLinkAction, read.value, id);
            && raced.cases[k].outcome == Stopped && !Quiet(raced)
            && ReadForClaim(Some(raced.actions[id].row), false, now) == TrySwap(Proposed)
  {
    var read := Evaluate(PolicyContext(s.cases[k], InvoiceLinkAction, now), config);
    var raced := Insert(StopCase(s, k).0, k, InvoiceLinkAction, read.value, id);
    assert !QuietAction(raced, raced.actions[id]);
  }

  const InvoiceLinkAction := Selection(OpenCustomerPaymentSurface, Some(InvoiceLink))

  /** Committing an approval keeps closed cases quiet exactly when its action is a terminal
      control or its case is still open. */
  lemma ApprovalKeepsQuietIff(s: State, k: string, id: string)
    requires Quiet(s) && Has(s, k, id)
    ensures Quiet(WriteApproval(s, k, id)) <==> IsTerminalControl(s.actions[id].row.actionType) || s.cases[k].outcome == Open
  {
    var t := WriteApproval(s, k, id);
    forall i | i in s.actions && i != id ensures QuietAction(t, t.actions[i]) { assert QuietAction(s, s.actions[i]); }
    assert QuietAction(t, t.actions[id]) <==>
      IsTerminalControl(s.actions[id].row.actionType) || s.cases[k].outcome == Open;
  }

  /** An approval that saw its action wait before a stop, and commits after it without seeing
      the cancellation, revives the action on a closed case. */
  lemma StaleApprovalRevivesAnAction(s: State, k: string, id: string)
    requires Quiet(s) && Has(s, k, id) && s.cases[k].outcome == Open
    requires s.actions[id].row.status == AwaitingApproval && !IsTerminalControl(s.actions[id].row.actionType)
    ensures var stopped := StopCase(s, k).0;
            && stopped.actions[id].row.status == Cancelled && Quiet(stopped)
            && Approve(stopped, k, id) == (stopped, Err(CaseConflict))
            && !Quiet(WriteApproval(stopped, k, id)) && WriteApproval(stopped, k, id).actions[id].row.status == Scheduled
  {
    StopKeepsQuiet(s, k);
    ApprovalKeepsQuietIff(StopCase(s, k).0, k, id);
  }

  lemma RecommendKeepsQuiet(s: State, config: Option<Config>, k: string, requested: Option<Selection>, ranked: Selection, id: string, now: int)
    requires MoneyInv(s) && Quiet(s) && id !in s.actions
    ensures Quiet(Recommend(s, config, k, requested, ranked, id, now).0)
  {
    if k in s.cases && config.Some? {
      var sel := if requested.Some? then requested.value else ranked;
      var x := PolicyContext(s.cases[k], sel, now);
      ClosedCasesAdmitOnlyTerminalControls(x, config.value);
      match Evaluate(x, config.value)
      case Err(_) =>
      case Ok(policy) => InsertKeepsQuietIff(s, k, sel, policy, id);
    }
  }

  lemma WorkedStaysQuiet(row: ActionRow, outcome: CaseOutcome, step: WorkerStep)
    ensures Worked(row, outcome, step).actionType == row.actionType
    ensures Nonterminal(Worked(row, outcome, step).status) ==> Nonterminal(row.status)
  {
  }

  lemma WorkerKeepsQuiet(s: State, config: Option<Config>, id: string, step: WorkerStep)
    requires MoneyInv(s) && Quiet(s)
    ensures Quiet(Do(s, config, Working(id, step)))
  {
    if id in s.actions && s.actions[id].caseId in s.cases {
      var row := Worked(s.actions[id].row, s.cases[s.actions[id].caseId].outcome, step);
      WorkedStaysQuiet(s.actions[id].row, s.cases[s.actions[id].caseId].outcome, step);
      RowKeepsQuiet(s, id, row);
    }
  }

  lemma EscalateKeepsQuiet(s: State, k: string, id: string)
    requires Quiet(s) && id !in s.actions
    ensures Quiet(Escalate(s, k, id).0)
  {
    if k in s.cases && s.cases[k].outcome == Open {
      var c := s.cases[k];
      var t := s.(actions := s.actions[id := CaseAction(k, EscalationRow)],
                  keys := s.keys[EscalationKey(k, c.version + 1) := id], newest := s.newest[k := id]);
      forall i | i in s.actions ensures QuietAction(t, t.actions[i]) { assert QuietAction(s, s.actions[i]); }
      CloseKeepsQuiet(t, k, c.(outcome := Escalated, version := c.version + 1));
    }
  }

  lemma SuccessKeepsQuiet(s: State, c: Command)
    requires Quiet(s) && c.Succeeding?
    ensures Quiet(ApplySuccess(s, c.caseId, c.eventId, c.amount, c.at, c.reactivated).0)
  {
    var r := ApplySuccess(s, c.caseId, c.eventId, c.amount, c.at, c.reactivated).1;
    if r.Ok? && r.value.newlyRecognized {
      var invoice := s.cases[c.caseId].invoiceId.value;
      var t := s.(invoices := s.invoices[invoice := Collect(s.invoices[invoice], r.value.amountPaise)],
                  ledger := s.ledger + [Recognition(c.caseId, c.eventId, r.value.amountPaise)]);
      forall i | i in s.actions ensures QuietAction(t, t.actions[i]) { assert QuietAction(s, s.actions[i]); }
      CloseKeepsQuiet(t, c.caseId, Credited(s.cases[c.caseId], r.value.amountPaise, c.at, c.reactivated));
    }
  }

  lemma LateFailureKeepsQuiet(s: State, k: string, e: string)
    requires Quiet(s)
    ensures Quiet(ApplyLateFailure(s, k, e).0)
  {
    var t := ApplyLateFailure(s, k, e).0;
    forall i | i in s.actions ensures QuietAction(t, t.actions[i]) { assert QuietAction(s, s.actions[i]); }
  }

  lemma ApproveKeepsQuiet(s: State, k: string, id: string)
    requires Quiet(s)
    ensures Quiet(Approve(s, k, id).0)
  {
    if Has(s, k, id) && s.actions[id].row.status == AwaitingApproval {
      RowKeepsQuiet(s, id, s.actions[id].row.(status := Scheduled, approved := true));
    }
  }

  lemma RejectKeepsQuiet(s: State, k: string, id: string)
    requires Quiet(s)
    ensures Quiet(Reject(s, k, id).0)
  {
    if Has(s, k, id) { RowKeepsQuiet(s, id, s.actions[id].row.(status := Cancelled)); }
  }

  lemma StopKeepsQuiet(s: State, k: string)
    requires Quiet(s)
    ensures Quiet(StopCase(s, k).0)
  {
    if k in s.cases { CloseKeepsQuiet(s, k, s.cases[k].(outcome := Stopped, version := s.cases[k].version + 1)); }
  }

  lemma SafetyKeepsQuiet(s: State, k: string, d: ContactDisposition)
    requires Quiet(s)
    ensures Quiet(RecordSafety(s, k, d).0)
  {
    if k in s.cases && SafetyOutcome(d).Some? {
      CloseKeepsQuiet(s, k, s.cases[k].(contact := d, outcome := SafetyOutcome(d).value, version := s.cases[k].version + 1));
    }
  }

  lemma DoKeepsQuiet(s: State, config: Option<Config>, c: Command)
    requires MoneyInv(s) && Quiet(s)
    ensures Quiet(Do(s, config, c))
  {
    match c
    case Recommending(k, requested, ranked, id, now) =>
      if id !in s.actions { RecommendKeepsQuiet(s, config, k, requested, ranked, id, now); }
    case Approving(k, id) => ApproveKeepsQuiet(s, k, id);
    case Rejecting(k, id) => RejectKeepsQuiet(s, k, id);
    case Stopping(k) => StopKeepsQuiet(s, k);
    case Escalating(k, id) => if id !in s.actions { EscalateKeepsQuiet(s, k, id); }
    case Disposing(k, d) => SafetyKeepsQuiet(s, k, d);
    case Succeeding(_, _, _, _, _) => SuccessKeepsQuiet(s, c);
    case LateFailing(k, e) => LateFailureKeepsQuiet(s, k, e);
    case Working(id, step) => WorkerKeepsQuiet(s, config, id, step);
  }

  /** With each service call one transaction, a closed case has no action left to run over
      any history, save STOP and ESCALATE: none of its payment actions can be claimed. */
  lemma {:induction false} ClosedCasesStayQuiet(s: State, config: Option<Config>, cs: seq<Command>)
    requires MoneyInv(s) && Quiet(s)
    ensures Quiet(Run(s, config, cs))
    decreases |cs|
  {
    if cs != [] {
      DoKeepsQuiet(s, config, cs[0]);
      DoKeepsMoney(s, config, cs[0]);
      ClosedCasesStayQuiet(Do(s, config, cs[0]), config, cs[1..]);
    }
  }

  lemma NothingToClaimOnAClosedCase(s: State, config: Option<Config>, cs: seq<Command>, id: string,
                                    inFlight: bool, auth: Option<AuthStatus>, facts: MandateFacts, now: int)
    requires MoneyInv(s) && Quiet(s) && id in Run(s, config, cs).actions
    ensures var t := Run(s, config, cs);
            var a := t.actions[id];
            && a.caseId in t.cases
            && (!IsTerminalControl(a.row.actionType) && t.cases[a.caseId].outcome != Open ==>
                  && !ReadForClaim(Some(a.row), inFlight, now).TrySwap?
                  && (forall seen, at | seen == Proposed || seen == Scheduled :: !SwapWins(a.row, seen, at))
                  && !MandateClaim(a.row, auth, facts, now).Fresh?)
  {
    ClosedCasesStayQuiet(s, config, cs);
    var t := Run(s, config, cs);
    assert QuietAction(t, t.actions[id]);
    if !Nonterminal(t.actions[id].row.status) { SettledRowIsNotClaimed(t.actions[id].row, inFlight, auth, facts, now); }
  }

  /** A mandate-backed claim wins only while its case is open and its action has not begun. */
  lemma GrantedClaimsNeedAnOpenCase(row: ActionRow, outcome: CaseOutcome, auth: Option<AuthStatus>, facts: MandateFacts, now: int)
    ensures Worked(row, outcome, ClaimWithGrant(auth, facts, now)) != row ==>
      outcome == Open && row.status in {Proposed, Scheduled}
      && Worked(row, outcome, ClaimWithGrant(auth, facts, now)) == row.(status := Executing)
  {
    FreshMandateIff(row, auth, facts, now);
  }

  lemma SettledRowIsNotClaimed(row: ActionRow, inFlight: bool, auth: Option<AuthStatus>, facts: MandateFacts, now: int)
    requires !Nonterminal(row.status)
    ensures !ReadForClaim(Some(row), inFlight, now).TrySwap? && !MandateClaim(row, auth, facts, now).Fresh?
  {
  }

  // ------------------------------------------------------ towards the worker's rows

  /** A recommended payment action enters the worker's protocol in one of its start rows. */
  lemma RecommendedRowsStartTheProtocol(c: CaseRow, config: Config, sel: Selection, now: int)
    requires c.atRiskPaise >= 0 && ValidConfig(config) && Evaluate(PolicyContext(c, sel, now), config).Ok?
    requires sel.actionType == OpenCustomerPaymentSurface || sel.actionType == SendToCustomerAgent
    requires sel.surface.Some? <==> sel.actionType == OpenCustomerPaymentSurface
    ensures ActionProtocol.Recommended(NewRow(sel, Evaluate(PolicyContext(c, sel, now), config).value))
  {
    DelayIsInsideTheWindow(PolicyContext(c, sel, now), config);
  }

  /** A recommended row may run, now, later or after approval, only if it fits the case as it is:
      nothing but STOP and ESCALATE on a closed or paid case or past the deadline, no contact after
      a suppression, and approval exactly for its action or the amount at risk. */
  lemma RecommendationsFitTheCase(c: CaseRow, config: Config, sel: Selection, now: int)
    requires c.atRiskPaise >= 0 && ValidConfig(config) && Evaluate(PolicyContext(c, sel, now), config).Ok?
    requires sel.surface.Some? <==> sel.actionType == OpenCustomerPaymentSurface
    ensures
      var row := NewRow(sel, Evaluate(PolicyContext(c, sel, now), config).value);
      && (row.status != Cancelled && sel.actionType !in {Stop, EscalateToHuman} ==>
            && c.outcome == Open && c.payment != Captured && now < c.deadline
            && !config.globalKillSwitch && !config.merchantKillSwitch)
      && (row.status != Cancelled && sel.actionType in {OpenCustomerPaymentSurface, StartVoice, SendToCustomerAgent} ==>
            c.contact !in {OptedOut, WrongPerson, Dispute, AlreadyPaid})
      && (row.status in {Proposed, AwaitingApproval} ==>
            (row.status == AwaitingApproval <==>
              || (sel.actionType in config.manualActions && sel.actionType !in {Stop, EscalateToHuman})
              || (sel.actionType in {OpenCustomerPaymentSurface, StartVoice, SendToCustomerAgent}
                  && config.manualAbovePaise.Some? && c.atRiskPaise >= config.manualAbovePaise.value)))
      && (c.subscription == SubPending && sel.surface == Some(StandardPaymentLink) ==> row.status == Cancelled)
  {
    EvaluationGateByGate(PolicyContext(c, sel, now), config);
  }

  /** What a command may make of an action row: nothing, or one operator step of the
      worker's protocol. */
  predicate OperatorStep(w: ActionProtocol.World, row: ActionRow) {
    || row == w.row
    || row == ActionProtocol.StepOperate(w, ActionProtocol.Command.Approve).row
    || row == ActionProtocol.StepOperate(w, ActionProtocol.Command.Reject).row
    || row == ActionProtocol.StepOperate(w, ActionProtocol.CloseCase).row
  }

  lemma ApprovalIsAnOperatorStep(s: State, k: string, a: string, id: string, w: ActionProtocol.World)
    requires id in s.actions && w.row == s.actions[id].row && w.lock.None?
    ensures OperatorStep(w, Approve(s, k, a).0.actions[id].row) && OperatorStep(w, Reject(s, k, a).0.actions[id].row)
  {
    assert id != a ==> Approve(s, k, a).0.actions[id] == s.actions[id] == Reject(s, k, a).0.actions[id];
  }

  /** Every service call acts on every existing action row as nothing, or as one operator
      step of the worker's protocol. */
  lemma ServiceCallsAreOperatorSteps(s: State, config: Option<Config>, c: Command, id: string, w: ActionProtocol.World)
    requires MoneyInv(s) && id in s.actions && !c.Working?
    requires w.row == s.actions[id].row && w.lock.None?
    ensures id in Do(s, config, c).actions && OperatorStep(w, Do(s, config, c).actions[id].row)
  {
    if c.Approving? || c.Rejecting? || c.Recommending? || c.LateFailing? {
      OtherCallsAreOperatorSteps(s, config, c, id, w);
    } else {
      ClosingCommandsAreOperatorSteps(s, config, c, id, w);
    }
  }

  lemma OtherCallsAreOperatorSteps(s: State, config: Option<Config>, c: Command, id: string, w: ActionProtocol.World)
    requires MoneyInv(s) && id in s.actions && w.row == s.actions[id].row && w.lock.None?
    requires c.Approving? || c.Rejecting? || c.Recommending? || c.LateFailing?
    ensures id in Do(s, config, c).actions && OperatorStep(w, Do(s, config, c).actions[id].row)
  {
    match c
    case Approving(k, a) => ApprovalIsAnOperatorStep(s, k, a, id, w);
    case Rejecting(k, a) => ApprovalIsAnOperatorStep(s, k, a, id, w);
    case Recommending(k, requested, ranked, a, now) =>
      if a !in s.actions { RecommendationKeepsOthers(s, config, k, requested, ranked, a, now, id); }
    case LateFailing(k, e) => LateFailureKeepsActions(s, k, e);
    case _ =>
  }

  lemma LateFailureKeepsActions(s: State, k: string, e: string)
    ensures ApplyLateFailure(s, k, e).0.actions == s.actions
  {
  }

  lemma RecommendationKeepsOthers(s: State, config: Option<Config>, k: string, requested: Option<Selection>,
                                  ranked: Selection, a: string, now: int, id: string)
    requires AllValid(s) && id in s.actions && id != a
    ensures var t := Recommend(s, config, k, requested, ranked, a, now).0; id in t.actions && t.actions[id] == s.actions[id]
  {
  }

  lemma ClosingCommandsAreOperatorSteps(s: State, config: Option<Config>, c: Command, id: string, w: ActionProtocol.World)
    requires MoneyInv(s) && id in s.actions && w.row == s.actions[id].row && w.lock.None?
    requires c.Stopping? || c.Escalating? || c.Disposing? || c.Succeeding?
    ensures id in Do(s, config, c).actions && OperatorStep(w, Do(s, config, c).actions[id].row)
  {
    var row := Do(s, config, c).actions[id].row;
    assert row == w.row || row == CancelledByCase(w.row);
  }
}
