/** reconcile_case: what the worker may conclude about a payment, from durable rows, a stored
    signed webhook and one authoritative provider snapshot. */
module Reconciliation {
  import opened Domain

  datatype ReconciliationResult = ReconciliationResult(
    paymentState: PaymentState,
    subscriptionState: SubscriptionState,
    authoritative: bool,
    caseRecovered: bool,
    arrearsCollectedPaise: int,
    subscriptionReactivated: bool,
    providerReference: Option<string>)

  datatype CaseFacts = CaseFacts(
    id: string, amountAtRiskPaise: int, arrearsCollectedPaise: int, caseRecovered: bool,
    paymentState: PaymentState, subscriptionState: SubscriptionState, subscriptionReactivated: bool)

  datatype InvoiceFacts = InvoiceFacts(providerInvoiceId: Option<string>, currency: string)

  datatype WebhookEvent = WebhookEvent(
    isPaymentLinkPaid: bool, paymentState: PaymentState, paymentId: Option<string>,
    invoiceId: Option<string>, subscriptionId: Option<string>, caseId: Option<string>)

  datatype Inbox = NoEntry | Malformed | Entry(event: WebhookEvent)

  /** Everything the activity reads. `recognized` is the newest recognition of this invoice's
      captured payment: by any event for a recovered case, by the trigger event otherwise. */
  datatype Rows = Rows(
    recoveryCase: Option<CaseFacts>,
    invoice: Option<InvoiceFacts>,
    subscription: Option<Option<string>>,   // its provider id
    recognized: Option<Option<string>>,     // its provider payment id
    inbox: Inbox)

  datatype Snapshot = Snapshot(
    authoritative: bool, paymentState: PaymentState, subscriptionState: SubscriptionState,
    paymentId: Option<string>, invoiceId: Option<string>, subscriptionId: Option<string>,
    amountPaise: nat, currency: string)

  function Unreconciled(): ReconciliationResult {
    ReconciliationResult(PaymentUnknown, SubUnknown, false, false, 0, false, None)
  }

  predicate Correlates(e: WebhookEvent, c: CaseFacts, invoice: InvoiceFacts, providerSubscription: Option<string>) {
    && e.invoiceId == invoice.providerInvoiceId
    && (e.subscriptionId == None || e.subscriptionId == providerSubscription)
    && (if e.isPaymentLinkPaid then e.caseId == Some(c.id) else e.caseId == None || e.caseId == Some(c.id))
    && e.paymentState == Captured
    && e.paymentId.Some?
  }

  /** What a caller says about the event that made it ask. */
  datatype Trigger = Trigger(
    eventId: string, authoritativeHint: bool, paymentHint: Option<PaymentState>, amountHint: Option<int>)

  /** The answer with a live provider. */
  function ReconcileCase(hasInvoiceScope: bool, trigger: Trigger, rows: Rows, snapshot: Snapshot): ReconciliationResult {
    if !hasInvoiceScope || rows.recoveryCase.None? || rows.invoice.None? || rows.subscription.None? then Unreconciled()
    else
      var c := rows.recoveryCase.value;
      if rows.recognized.Some? then
        ReconciliationResult(c.paymentState, c.subscriptionState, true, c.caseRecovered, c.arrearsCollectedPaise,
                             c.subscriptionReactivated,
                             if rows.recognized.value.Some? then rows.recognized.value else Some(trigger.eventId))
      else match rows.inbox
        case Malformed => Unreconciled()
        case NoEntry => if trigger.authoritativeHint then Unreconciled() else FromSnapshot(c, rows, None, snapshot)
        case Entry(e) =>
          if Correlates(e, c, rows.invoice.value, rows.subscription.value)
          then FromSnapshot(c, rows, e.paymentId, snapshot) else Unreconciled()
  }

  predicate HintsCapture(trigger: Trigger) { trigger.authoritativeHint && trigger.paymentHint == Some(Captured) }

  /** The answer with the mock provider, which believes its caller's hints. */
  function MockReconcile(trigger: Trigger): ReconciliationResult {
    var recovered := HintsCapture(trigger);
    ReconciliationResult(
      if recovered then Captured else if trigger.paymentHint.Some? then trigger.paymentHint.value else PaymentUnknown,
      if recovered then SubActive else SubPending,
      trigger.authoritativeHint, recovered,
      if recovered && trigger.amountHint.Some? then trigger.amountHint.value else 0,
      recovered, Some(trigger.eventId))
  }

  /** reconcile_case, whichever provider the worker is configured with. */
  function Reconcile(mock: bool, hasInvoiceScope: bool, trigger: Trigger, rows: Rows, snapshot: Snapshot): ReconciliationResult {
    if mock then MockReconcile(trigger) else ReconcileCase(hasInvoiceScope, trigger, rows, snapshot)
  }

  function FromSnapshot(c: CaseFacts, rows: Rows, paymentId: Option<string>, s: Snapshot): ReconciliationResult
    requires rows.invoice.Some? && rows.subscription.Some?
  {
    var invoiceId := rows.invoice.value.providerInvoiceId;
    var subscriptionId := rows.subscription.value;
    var required := Max(c.amountAtRiskPaise - c.arrearsCollectedPaise, 0);
    if invoiceId.None? || subscriptionId.None? then Unreconciled()
    else
      var recovered :=
        && s.authoritative && s.paymentState == Captured
        && s.invoiceId == invoiceId && s.subscriptionId == subscriptionId
        && s.currency == rows.invoice.value.currency
        && s.amountPaise == required && required > 0
        && (paymentId.None? || s.paymentId == paymentId);
      ReconciliationResult(s.paymentState, s.subscriptionState, s.authoritative, recovered,
                           if recovered then c.arrearsCollectedPaise + s.amountPaise else 0,
                           recovered && s.subscriptionState == SubActive,
                           if s.paymentId.Some? then s.paymentId else s.invoiceId)
  }

  /** The accounting the case service keeps on every case row. */
  predicate Accounts(c: CaseFacts) {
    && 0 <= c.arrearsCollectedPaise <= c.amountAtRiskPaise
    && (c.caseRecovered ==> c.arrearsCollectedPaise >= c.amountAtRiskPaise)
    && (c.arrearsCollectedPaise > 0 ==> c.paymentState == Captured)
    && (c.caseRecovered ==> c.arrearsCollectedPaise > 0)
  }

  /** A recovered result is authoritative, captured, referenced, and carries exactly the amount
      at risk: from a snapshot whatever the rows hold, and from a recorded recognition because
      the case row's accounts are in order. */
  lemma RecoveredResultIsExact(scope: bool, trigger: Trigger, rows: Rows, s: Snapshot)
    requires rows.recoveryCase.Some?
    requires rows.recognized.Some? ==> Accounts(rows.recoveryCase.value)
    ensures var r := ReconcileCase(scope, trigger, rows, s);
            r.caseRecovered ==>
              && r.authoritative
              && r.paymentState == Captured
              && r.arrearsCollectedPaise == rows.recoveryCase.value.amountAtRiskPaise
              && r.providerReference.Some?
  {
  }

  /** Without a recorded recognition the provider is asked exactly when no entry answers a question
      that asserts nothing, or an entry shows a captured payment of this invoice, subscription and
      case; asked, it is quoted, and the payment is recovered exactly when its snapshot shows that
      payment, captured, of the right identities and currency, for the whole open amount. */
  lemma RecoveredIffSnapshotVouches(scope: bool, trigger: Trigger, rows: Rows, s: Snapshot)
    requires rows.recognized.None?
    ensures
      var r := ReconcileCase(scope, trigger, rows, s);
      var asked :=
        && scope && rows.recoveryCase.Some?
        && rows.invoice.Some? && rows.invoice.value.providerInvoiceId.Some?
        && rows.subscription.Some? && rows.subscription.value.Some?
        && !rows.inbox.Malformed?
        && (rows.inbox.NoEntry? ==> !trigger.authoritativeHint)
        && (rows.inbox.Entry? ==>
              && rows.inbox.event.paymentState == Captured && rows.inbox.event.paymentId.Some?
              && rows.inbox.event.invoiceId == rows.invoice.value.providerInvoiceId
              && rows.inbox.event.subscriptionId in {None, rows.subscription.value}
              && (rows.inbox.event.caseId == Some(rows.recoveryCase.value.id)
                  || (rows.inbox.event.caseId.None? && !rows.inbox.event.isPaymentLinkPaid)));
      && (!asked ==> r == ReconciliationResult(PaymentUnknown, SubUnknown, false, false, 0, false, None))
      && (asked ==>
            && r.paymentState == s.paymentState && r.subscriptionState == s.subscriptionState
            && r.authoritative == s.authoritative
            && r.providerReference == (if s.paymentId.Some? then s.paymentId else s.invoiceId))
      && (r.caseRecovered <==>
            && asked && s.authoritative && s.paymentState == Captured
            && (rows.inbox.Entry? ==> s.paymentId == rows.inbox.event.paymentId)
            && s.invoiceId == rows.invoice.value.providerInvoiceId
            && s.subscriptionId == rows.subscription.value
            && s.currency == rows.invoice.value.currency
            && s.amountPaise == rows.recoveryCase.value.amountAtRiskPaise - rows.recoveryCase.value.arrearsCollectedPaise > 0)
      && (r.subscriptionReactivated <==> r.caseRecovered && s.subscriptionState == SubActive)
      && r.arrearsCollectedPaise == (if r.caseRecovered then rows.recoveryCase.value.amountAtRiskPaise else 0)
  {
  }

  /** With a recorded recognition the answer is the case row's own accounts. */
  lemma RecognitionAnswersForTheCase(trigger: Trigger, rows: Rows, s: Snapshot)
    requires rows.recognized.Some? && rows.recoveryCase.Some? && rows.invoice.Some? && rows.subscription.Some?
    ensures var r, c := ReconcileCase(true, trigger, rows, s), rows.recoveryCase.value;
      && r.authoritative && r.caseRecovered == c.caseRecovered
      && r.arrearsCollectedPaise == c.arrearsCollectedPaise
      && r.paymentState == c.paymentState && r.subscriptionState == c.subscriptionState
      && r.subscriptionReactivated == c.subscriptionReactivated
      && r.providerReference == Some(if rows.recognized.value.Some? then rows.recognized.value.value else trigger.eventId)
  {
  }

  /** The mock provider takes its caller's word for everything. */
  lemma MockBelievesItsCaller(scope: bool, trigger: Trigger, rows: Rows, s: Snapshot)
    ensures var r := Reconcile(true, scope, trigger, rows, s);
      && r.authoritative == trigger.authoritativeHint && r.providerReference == Some(trigger.eventId)
      && (r.caseRecovered <==> trigger.authoritativeHint && trigger.paymentHint == Some(Captured))
      && r.subscriptionReactivated == r.caseRecovered
      && r.paymentState == (if trigger.paymentHint.Some? then trigger.paymentHint.value else PaymentUnknown)
      && r.arrearsCollectedPaise == (if r.caseRecovered && trigger.amountHint.Some? then trigger.amountHint.value else 0)
  {
  }

  /** Nothing is authoritative unless a recognition is recorded, a correlated signed webhook is
      stored, or the provider itself was asked without a claim of success to believe. */
  lemma AssertedSuccessIsNeverPaymentTruth(scope: bool, trigger: Trigger, rows: Rows, s: Snapshot)
    requires trigger.authoritativeHint
    ensures var r := ReconcileCase(scope, trigger, rows, s);
            r.authoritative ==>
              && rows.recoveryCase.Some? && rows.invoice.Some? && rows.subscription.Some?
              && (rows.recognized.Some? ||
                  (rows.inbox.Entry? && s.authoritative
                   && rows.inbox.event.paymentState == Captured && rows.inbox.event.paymentId.Some?
                   && rows.inbox.event.invoiceId == rows.invoice.value.providerInvoiceId
                   && rows.inbox.event.subscriptionId in {None, rows.subscription.value}
                   && rows.inbox.event.caseId in {None, Some(rows.recoveryCase.value.id)}))
  {
  }

  /** A snapshot of any other amount recovers nothing and reports nothing collected. */
  lemma PartialSnapshotCollectsNothing(c: CaseFacts, rows: Rows, paymentId: Option<string>, s: Snapshot)
    requires rows.invoice.Some? && rows.subscription.Some?
    requires c.arrearsCollectedPaise + s.amountPaise != c.amountAtRiskPaise
    ensures var r := FromSnapshot(c, rows, paymentId, s);
            !r.caseRecovered && r.arrearsCollectedPaise == 0 && !r.subscriptionReactivated
  {
  }
}
