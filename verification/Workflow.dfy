/** The durable workflow of one recovery case.

    Signal handlers only enqueue, so every await is a place where any number of deliveries may
    arrive, time may pass, and the activity may fail for good. `script` is what the world does
    at each await; a run is cut when the script ends. All methods keep `Inv()` whether they go
    on or are cut, so it holds at every await of every run. */
module Workflow {
  import opened Domain
  import opened Reconciliation
  import opened WorkflowTrace

  datatype PollStatus = PollPending | PollVerified | PollRejected

  datatype PolicyResult = PolicyResult(disposition: Disposition, action: ActionType, delayUntil: Option<int>)

  /** One activity's reply; each activity reads its own fields. */
  datatype Reply = Reply(
    policy: PolicyResult,
    reconciliation: ReconciliationResult,
    remoteTaskId: string, taskState: WorkStatus,
    poll: PollStatus, mandateId: Option<string>, artifact: Option<string>,
    executionStatus: WorkStatus, providerReference: Option<string>,
    cancelled: bool, delivered: bool)

  /** What happens while the workflow is suspended once. */
  datatype Arrival = Arrival(signals: seq<Signal>, elapsed: nat, failed: bool, reply: Reply)

  datatype RunInput = RunInput(
    caseId: string, amountAtRiskPaise: int, deadline: int,
    surfaceReference: Option<string>, recoveryActionId: Option<string>, failedInvoiceId: Option<string>)

  datatype Progress = Running | Cut {
    predicate IsFailure() { Cut? }
    function PropagateFailure(): Progress { Cut }
  }

  datatype Answered = Answer(reply: Reply) | NoAnswer
  {
    predicate IsFailure() { NoAnswer? }
    function PropagateFailure(): Progress { Cut }
    function Extract(): Reply requires Answer? { reply }
  }

  const A2A_POLL_INTERVAL := 5

  function ActionName(a: ActionType): string {
    match a
    case WaitForGatewayRetry => "WAIT_FOR_GATEWAY_RETRY"
    case OpenCustomerPaymentSurface => "OPEN_CUSTOMER_PAYMENT_SURFACE"
    case StartVoice => "START_VOICE"
    case SendToCustomerAgent => "SEND_TO_CUSTOMER_AGENT"
    case EscalateToHuman => "ESCALATE_TO_HUMAN"
    case Stop => "STOP"
  }

  /** Only a DELAY holds an action back. */
  function HeldUntil(policy: PolicyResult): Option<int> { if policy.disposition == Delay then policy.delayUntil else None }

  function ExecutionKey(caseId: string, a: ActionType): string { caseId + ":" + ActionName(a) + ":1" }

  /** Different actions of a case never share an idempotency key. */
  lemma ExecutionKeysTellActionsApart(caseId: string, a: ActionType, b: ActionType)
    ensures ExecutionKey(caseId, a) == ExecutionKey(caseId, b) <==> a == b
  {
    var n := |caseId| + 1;
    assert forall c :: ExecutionKey(caseId, c)[n..n + |ActionName(c)|] == ActionName(c);
    if a != b { assert |ActionName(a)| != |ActionName(b)| || ActionName(a)[0] != ActionName(b)[0]; }
  }

  /** The signal queue of a run, together with the world that fills it while the run waits. */
  class SignalQueue {
    var signals: seq<Signal>
    var seenSignalIds: set<string>
    var processedSignalCount: nat
    var duplicateSignalCount: nat

    var now: int
    var script: seq<Arrival>        // what the world still has in store

    ghost var log: seq<Signal>      // every delivery so far
    ghost var processed: seq<Signal>
    ghost var firstAt: seq<int>     // where in the log each kept signal was first delivered

    constructor (start: int, world: seq<Arrival>)
      ensures Valid() && now == start && script == world && log == []
    {
      signals, seenSignalIds, processedSignalCount, duplicateSignalCount := [], {}, 0, 0;
      now, script := start, world;
      log, processed, firstAt := [], [], [];
    }

    /** Processed and queued signals together are the deduplicated delivery log. */
    ghost predicate Valid()
      reads this
    {
      && FirstDeliveries(log, processed + signals, firstAt)
      && seenSignalIds == Ids(processed + signals)
      && processedSignalCount == |processed|
      && duplicateSignalCount == |log| - |processed| - |signals|
    }

    /** A signal handler: an id that was seen is only counted. */
    method Enqueue(signal: Signal)
      requires Valid()
      modifies this
      ensures Valid() && log == old(log) + [signal] && now == old(now) && script == old(script)
      ensures signals == if signal.id in old(seenSignalIds) then old(signals) else old(signals) + [signal]
    {
      ghost var kept := processed + signals;
      if signal.id in seenSignalIds {
        DropRepeat(log, signal, kept, firstAt);
        log := log + [signal];
        duplicateSignalCount := duplicateSignalCount + 1;
        return;
      }
      KeepOne(log, signal, kept, firstAt);
      IdsAppend(kept, signal);
      log, firstAt := log + [signal], firstAt + [|log|];
      seenSignalIds := seenSignalIds + {signal.id};
      signals := signals + [signal];
      assert processed + signals == kept + [signal];
    }

    method EnqueueAll(arrived: seq<Signal>)
      requires Valid()
      modifies this
      ensures Valid() && log == old(log) + arrived && old(signals) <= signals && now == old(now) && script == old(script)
    {
      var i := 0;
      while i < |arrived|
        invariant 0 <= i <= |arrived| && Valid() && log == old(log) + arrived[..i]
        invariant old(signals) <= signals && now == old(now) && script == old(script)
      {
        Enqueue(arrived[i]);
        i := i + 1;
      }
    }

    /** Suspend once: the world delivers, time passes, and the run may end here. */
    method Await() returns (p: Progress)
      requires Valid()
      modifies this
      ensures Valid()
      ensures |script| <= |old(script)| && (p.Running? ==> |script| < |old(script)| && script == old(script)[1..])
      ensures now >= old(now) && |signals| >= |old(signals)|
    {
      if script == [] { return Cut; }
      var arrival := script[0];
      script := script[1..];
      now := now + arrival.elapsed;
      EnqueueAll(arrival.signals);
      return Running;
    }

    /** Run one activity; one that failed all its attempts ends the run. */
    method Activity() returns (a: Answered)
      requires Valid()
      modifies this
      ensures Valid()
      ensures |script| <= |old(script)| && (a.Answer? ==> |script| < |old(script)|)
      ensures a.Answer? ==> a.reply == old(script)[0].reply && script == old(script)[1..]
      ensures now >= old(now) && |signals| >= |old(signals)|
    {
      if script == [] || script[0].failed { return Answered.NoAnswer; }
      var reply := script[0].reply;
      var p := Await();
      return if p.Running? then Answer(reply) else Answered.NoAnswer;
    }

    method Audit() returns (p: Progress)
      requires Valid()
      modifies this
      ensures Valid()
      ensures |script| <= |old(script)| && (p.Running? ==> |script| < |old(script)|)
      ensures now >= old(now) && |signals| >= |old(signals)|
    {
      var _ :- Activity();
      return Running;
    }

    /** wait_condition: suspended until a signal is queued or the clock reaches `wake`. */
    method WaitForSignal(wake: int) returns (p: Progress)
      requires Valid()
      modifies this
      ensures Valid() && |script| <= |old(script)| && now >= old(now) && |signals| >= |old(signals)|
      ensures p.Running? ==> signals != [] || wake <= now
      ensures p.Running? && |script| == |old(script)| ==> signals == old(signals) && now == old(now)
    {
      while signals == [] && now < wake
        invariant Valid() && |script| <= |old(script)| && now >= old(now) && |signals| >= |old(signals)|
        invariant |script| < |old(script)| || (signals == old(signals) && now == old(now))
        decreases |script|
      {
        :- Await();
      }
      return Running;
    }

    /** Take the oldest signal off the queue. */
    method Take() returns (signal: Signal)
      requires Valid() && signals != []
      modifies this
      ensures Valid() && signal == old(signals)[0] && signals == old(signals)[1..]
      ensures processed == old(processed) + [signal] && log == old(log) && now == old(now) && script == old(script)
    {
      signal := signals[0];
      processed := processed + [signal];
      signals := signals[1..];
      processedSignalCount := processedSignalCount + 1;
      assert processed + signals == old(processed + signals);
    }
  }

  class RecoveryCaseWorkflow {
    const queue: SignalQueue
    const input: RunInput

    var terminal: bool
    var outcome: Option<CaseOutcome>
    var actionStatus: Option<WorkStatus>
    var providerReference: Option<string>
    var paymentState: PaymentState
    var subscriptionState: SubscriptionState
    var contactDisposition: ContactDisposition
    var approvalRequired: bool
    var approvalReceived: Option<bool>
    var outreachSuppressed: bool
    var a2aTaskId: Option<string>
    var a2aState: Option<WorkStatus>
    var nextA2aPollAt: Option<int>
    var mandateReceived: bool
    var a2aMandateId: Option<string>
    var a2aReceiptSent: bool
    var arrearsCollectedPaise: int
    var subscriptionReactivated: bool

    ghost var trace: seq<Ev>
    ghost var sums: seq<Summary>    // the summaries along it
    ghost var sum: Summary          // the last of them

    constructor (command: RunInput, empty: SignalQueue)
      requires empty.Valid()
      ensures Inv() && input == command && queue == empty && trace == []
    {
      input, queue := command, empty;
      terminal, outcome, actionStatus, providerReference := false, None, None, None;
      paymentState, subscriptionState, contactDisposition := PaymentFailed, SubUnknown, NotContacted;
      approvalRequired, approvalReceived, outreachSuppressed := false, None, false;
      a2aTaskId, a2aState, nextA2aPollAt, mandateReceived := None, None, None, false;
      a2aMandateId, a2aReceiptSent := None, false;
      arrearsCollectedPaise, subscriptionReactivated := 0, false;
      trace, sums, sum := [], [Nothing], Nothing;
    }

    // -------------------------------------------------------------- invariants

    predicate DurableScope() {
      input.surfaceReference.Some? && input.recoveryActionId.Some? && input.failedInvoiceId.Some?
    }

    function RunTerms(): Terms { Terms(input.amountAtRiskPaise, input.deadline, DurableScope()) }

    ghost predicate TraceInv()
      reads this`trace, this`sums, this`sum
    {
      Steps(trace, sums, RunTerms()) && sum == sums[|trace|]
    }

    /** The fields say exactly what the trace says. */
    ghost predicate ControlInv()
      reads this`sum, this`actionStatus, this`outreachSuppressed, this`terminal, this`outcome, this`approvalRequired, this`approvalReceived, this`a2aTaskId
      reads this`nextA2aPollAt, this`a2aMandateId, this`a2aReceiptSent, this`arrearsCollectedPaise, this`subscriptionReactivated
    {
      && actionStatus == sum.grounds.status
      && outreachSuppressed == sum.grounds.suppressed
      && terminal == sum.finish.Some?
      && (terminal ==> outcome == sum.finish)
      && (approvalRequired ==> sum.policy == Some(RequireManualApproval))
      && approvalReceived == sum.approval
      && (a2aTaskId.Some? ==> sum.started)
      && (sum.mandate.Some? ==> a2aTaskId.Some?)
      && (sum.started ==> Cleared(sum) && (sum.key.Some? ==> sum.key.value == ExecutionKey(input.caseId, OpenCustomerPaymentSurface)))
      && (nextA2aPollAt.Some? ==> a2aTaskId.Some?)
      && a2aMandateId == sum.mandate
      && (a2aReceiptSent ==> sum.receipt)
      && arrearsCollectedPaise == sum.arrears
      && subscriptionReactivated == sum.reactivated
    }

    ghost predicate Inv()
      reads this, queue
    {
      queue.Valid() && TraceInv() && ControlInv()
    }

    /** What handlers leave alone: they decide no policy, start nothing and execute nothing. */
    ghost function Fixed(): (Option<Disposition>, bool, Option<string>, Option<ActionType>, Option<int>)
      reads this`sum
    {
      (sum.policy, sum.started, sum.key, sum.grounds.action, sum.grounds.notBefore)
    }

    /** What the policy activity ordered. */
    ghost function Charge(): (Option<Disposition>, Option<ActionType>, Option<int>)
      reads this`sum
    {
      (sum.policy, sum.grounds.action, sum.grounds.notBefore)
    }

    ghost predicate May(e: Ev)
      reads this`sum
    {
      Allowed(sum, e, RunTerms())
    }

    ghost method Emit(e: Ev)
      requires TraceInv() && May(e)
      modifies this`trace, this`sums, this`sum
      ensures TraceInv() && trace == old(trace) + [e] && sum == Apply(old(sum), e)
    {
      ExtendSteps(trace, sums, e, RunTerms());
      trace, sums, sum := trace + [e], sums + [Apply(sum, e)], Apply(sum, e);
    }

    /** An event that no field of the run keeps. */
    ghost method Note(e: Ev)
      requires Inv() && May(e) && (e.CancelSought? || e.ReceiptSent? || e.ActionChosen? || e.HeldBack? || e.Begun?)
      modifies this`trace, this`sums, this`sum
      ensures Inv() && sum == Apply(old(sum), e)
    {
      Emit(e);
    }

    // ---------------------------------------------------------------- finishing

    /** The run ends, for a reason the trace bears out. */
    method Finish(o: CaseOutcome, ghost cause: Cause)
      requires Inv() && May(Finished(o, cause, queue.now))
      modifies this`outcome, this`terminal, this`paymentState, this`trace, this`sums, this`sum
      ensures Inv() && terminal && sum == old(sum).(finish := Some(o)) && trace == old(trace) + [Finished(o, cause, queue.now)]
      ensures outcome == Some(o) && paymentState == if o == Recovered then Captured else old(paymentState)
    {
      Emit(Finished(o, cause, queue.now));
      outcome, terminal := Some(o), true;
      if o == Recovered { paymentState := Captured; }
    }

    function DeadlineOutcome(): CaseOutcome
      reads this
    {
      if outreachSuppressed then Stopped else Expired
    }

    /** Asks for the active action's cancellation unless there is none to ask for. */
    method CancelActiveAction(reason: CancelReason) returns (p: Progress)
      requires Inv() && (reason == DeadlineExpired && QueueFirst(sum, RunTerms()) ==> queue.signals == [])
      modifies this`actionStatus, this`trace, this`sums, this`sum, queue
      ensures Inv() && |queue.script| <= |old(queue.script)| && queue.now >= old(queue.now) && |queue.signals| >= |old(queue.signals)|
      ensures sum == old(sum).(grounds := old(sum).grounds.(sought := Some(reason), status := actionStatus))
      ensures actionStatus == old(actionStatus) || actionStatus == Some(IsCancelled)
      ensures !MustAsk(old(actionStatus), reason) ==>
        p.Running? && actionStatus == old(actionStatus) && queue.script == old(queue.script) && queue.signals == old(queue.signals)
      ensures p.Running? && MustAsk(old(actionStatus), reason) ==> |queue.script| < |old(queue.script)|
    {
      var needed := NeedsCancelling(reason);
      Note(CancelSought(reason, needed, |queue.signals|));
      if !needed { return Running; }
      p := AskCancellation();
    }

    method NeedsCancelling(reason: CancelReason) returns (needed: bool)
      ensures needed == MustAsk(actionStatus, reason)
      ensures needed <==> actionStatus !in {Some(IsCancelled), Some(IsFailed), Some(IsRejected)}
                          && (actionStatus.Some? || reason in {PaymentArrived, Requested(PAYMENT_TEXT)})
    {
      if actionStatus in {Some(IsCancelled), Some(IsFailed), Some(IsRejected)} { return false; }
      if actionStatus.None? && reason !in {PaymentArrived, Requested(PAYMENT_TEXT)} { return false; }
      return true;
    }

    method AskCancellation() returns (p: Progress)
      requires Inv()
      modifies this`actionStatus, this`trace, this`sums, this`sum, queue
      ensures Inv() && |queue.script| <= |old(queue.script)| && queue.now >= old(queue.now) && |queue.signals| >= |old(queue.signals)|
      ensures sum == old(sum).(grounds := old(sum).grounds.(status := actionStatus))
      ensures actionStatus == old(actionStatus) || actionStatus == Some(IsCancelled)
      ensures p.Running? ==> |queue.script| < |old(queue.script)|
    {
      var reply :- queue.Activity();
      SettleCancellation(reply.cancelled);
      return Running;
    }

    method SettleCancellation(cancelled: bool)
      requires TraceInv() && ControlInv()
      modifies this`actionStatus, this`trace, this`sums, this`sum
      ensures TraceInv() && ControlInv() && actionStatus == if cancelled then Some(IsCancelled) else old(actionStatus)
      ensures sum == old(sum).(grounds := old(sum).grounds.(status := actionStatus))
    {
      if cancelled { SetStatus(IsCancelled); }
    }

    method SetStatus(status: WorkStatus)
      requires TraceInv() && ControlInv()
      modifies this`actionStatus, this`trace, this`sums, this`sum
      ensures TraceInv() && ControlInv() && actionStatus == Some(status)
      ensures sum == old(sum).(grounds := old(sum).grounds.(status := Some(status)))
    {
      Emit(StatusSet(status));
      actionStatus := Some(status);
    }

    method ExpireAtDeadline() returns (p: Progress)
      requires Inv() && queue.now >= input.deadline && (QueueFirst(sum, RunTerms()) ==> queue.signals == [])
      modifies this, queue
      ensures Inv() && |queue.script| <= |old(queue.script)| && Fixed() == old(Fixed())
      ensures p.Running? ==> terminal && outcome == Some(if outreachSuppressed then Stopped else Expired)
      ensures outreachSuppressed == old(outreachSuppressed)
      ensures old(actionStatus).None? ==> p.Running? && queue.signals == old(queue.signals)
    {
      p := Running;
      :- CancelActiveAction(DeadlineExpired);
      Finish(DeadlineOutcome(), DeadlinePassed);
    }

    // ------------------------------------------------------------------ handlers

    /** Take every queued signal in order until the run is terminal. */
    method DrainSignals() returns (p: Progress)
      requires Inv()
      modifies this, queue
      ensures Inv() && |queue.script| <= |old(queue.script)| && Fixed() == old(Fixed()) && queue.now >= old(queue.now)
      ensures p.Running? && !old(terminal) && old(queue.signals) != [] ==> |queue.script| < |old(queue.script)|
      ensures p.Running? ==> queue.signals == [] || terminal
      ensures p.Running? && |queue.script| == |old(queue.script)| ==>
                queue.now == old(queue.now) && terminal == old(terminal) && nextA2aPollAt == old(nextA2aPollAt)
    {
      while queue.signals != [] && !terminal
        invariant Inv() && |queue.script| <= |old(queue.script)| && Fixed() == old(Fixed()) && queue.now >= old(queue.now)
        invariant |queue.script| < |old(queue.script)| || (queue.signals == old(queue.signals) && terminal == old(terminal)
                                               && queue.now == old(queue.now) && nextA2aPollAt == old(nextA2aPollAt))
        decreases |queue.script|
      {
        var signal := TakeSignal();
        :- Handle(signal);
      }
      return Running;
    }

    method Handle(signal: Signal) returns (p: Progress)
      requires Inv() && !terminal && sum.current == Some(signal)
      modifies this, queue
      ensures Inv() && Fixed() == old(Fixed()) && queue.now >= old(queue.now)
      ensures |queue.script| <= |old(queue.script)| && (p.Running? ==> |queue.script| < |old(queue.script)|)
      ensures p.Running? ==> match signal.body
        case ApprovalBody(approved) => !terminal &&
          approvalReceived == if old(approvalRequired) && old(approvalReceived).None? then Some(approved) else old(approvalReceived)
        case PaymentBody => terminal ==> outcome == Some(Recovered)
        case IntentBody(intent) => contactDisposition == IntentDisposition(intent)
        case OptOutBody => !terminal && outreachSuppressed && contactDisposition == OptedOut
        case CancellationBody(_) => terminal && outcome == Some(Stopped)
        case EscalationBody => terminal && outcome == Some(Escalated)
        case UpdateBody(_, _) => trace == old(trace)
        case MandateBody => trace == old(trace)
    {
      match signal.body {
        case ApprovalBody(approved) => :- HandleApproval(approved);
        case PaymentBody => :- HandlePayment();
        case IntentBody(intent) => :- HandleCustomerIntent(intent);
        case OptOutBody => :- HandleOptOut();
        case CancellationBody(reason) => :- HandleCancellation(reason);
        case EscalationBody => :- HandleOperatorEscalation();
        case UpdateBody(remoteTaskId, state) => :- HandleA2aUpdate(remoteTaskId, state);
        case MandateBody => :- HandleMandate();
      }
      return Running;
    }

    method TakeSignal() returns (signal: Signal)
      requires Inv() && queue.signals != [] && !terminal
      modifies queue, this`trace, this`sums, this`sum
      ensures Inv() && signal == old(queue.signals)[0] && queue.signals == old(queue.signals)[1..] && Fixed() == old(Fixed())
      ensures sum.current == Some(signal) && queue.script == old(queue.script) && queue.now == old(queue.now)
    {
      signal := queue.Take();
      Emit(Popped(signal));
    }

    /** Only an awaited approval counts, and only the first. */
    method HandleApproval(approved: bool) returns (p: Progress)
      requires Inv() && sum.current.Some? && sum.current.value.body == ApprovalBody(approved)
      modifies this, queue
      ensures Inv() && Fixed() == old(Fixed()) && queue.now >= old(queue.now)
      ensures |queue.script| <= |old(queue.script)| && (p.Running? ==> |queue.script| < |old(queue.script)|)
      ensures terminal == old(terminal) && approvalRequired == old(approvalRequired)
      ensures approvalReceived == if old(approvalRequired) && old(approvalReceived).None? then Some(approved) else old(approvalReceived)
      ensures approvalReceived == old(approvalReceived) ==> trace == old(trace)
    {
      if !approvalRequired || approvalReceived.Some? {
        :- queue.Audit();
        return Running;
      }
      Emit(ApprovalRecorded(approved));
      approvalReceived := Some(approved);
      :- queue.Audit();
      return Running;
    }

    method ApplyReconciliation(result: ReconciliationResult)
      requires Inv() && !terminal
      modifies this`paymentState, this`subscriptionState, this`arrearsCollectedPaise, this`subscriptionReactivated, this`trace, this`sums, this`sum
      ensures Inv() && Fixed() == old(Fixed()) && sum.proof == Some(result)
      ensures sum.finish == old(sum).finish && sum.current == old(sum).current
      ensures result.authoritative ==>
        && paymentState == result.paymentState && subscriptionState == result.subscriptionState
        && arrearsCollectedPaise == result.arrearsCollectedPaise
        && subscriptionReactivated == result.subscriptionReactivated
      ensures !result.authoritative ==>
        && paymentState == old(paymentState) && subscriptionState == old(subscriptionState)
        && arrearsCollectedPaise == old(arrearsCollectedPaise)
        && subscriptionReactivated == old(subscriptionReactivated)
    {
      Emit(Reconciled(result));
      if !result.authoritative { return; }
      paymentState := result.paymentState;
      subscriptionState := result.subscriptionState;
      arrearsCollectedPaise := result.arrearsCollectedPaise;
      subscriptionReactivated := result.subscriptionReactivated;
    }

    /** The end of both payment handlers once a reconciliation proved recovery. */
    method RecoverOn(result: ReconciliationResult) returns (p: Progress)
      requires Inv() && !terminal && sum.proof == Some(result) && Proves(result)
      requires sum.current.Some? && Pays(sum.current.value.body)
      modifies this, queue
      ensures Inv() && Fixed() == old(Fixed()) && queue.now >= old(queue.now) && |queue.script| <= |old(queue.script)|
      ensures p.Running? ==> terminal && outcome == Some(Recovered) && paymentState == Captured && sum.proof == Some(result)
      ensures contactDisposition == old(contactDisposition)
    {
      p := Running;
      :- SendReceiptIfApplicable(result);
      :- CloseRecovered(result);
    }

    method CloseRecovered(result: ReconciliationResult) returns (p: Progress)
      requires Inv() && !terminal && sum.proof == Some(result) && Proves(result)
      requires sum.current.Some? && Pays(sum.current.value.body)
      requires a2aTaskId.Some? && a2aMandateId.Some? && ReceiptGuard(result, input.amountAtRiskPaise) ==> sum.receipt
      modifies this, queue
      ensures Inv() && Fixed() == old(Fixed()) && queue.now >= old(queue.now) && |queue.script| <= |old(queue.script)|
      ensures p.Running? ==> terminal && outcome == Some(Recovered) && paymentState == Captured && sum.proof == Some(result)
      ensures contactDisposition == old(contactDisposition)
    {
      p := Running;
      :- CancelActiveAction(PaymentArrived);
      Finish(Recovered, PaymentProved);
    }

    method HandlePayment() returns (p: Progress)
      requires Inv() && !terminal && Handles(sum, PaymentBody)
      modifies this, queue
      ensures Inv() && Fixed() == old(Fixed()) && queue.now >= old(queue.now)
      ensures |queue.script| <= |old(queue.script)| && (p.Running? ==> |queue.script| < |old(queue.script)|)
      ensures p.Running? && terminal ==> outcome == Some(Recovered) && paymentState == Captured
      ensures p.Running? && !terminal ==> outcome == old(outcome)
      ensures p.Running? ==>
        var answer := old(queue.script)[0].reply.reconciliation;
        sum.proof == Some(answer) && (terminal <==> answer.authoritative && answer.caseRecovered)
    {
      var reply :- queue.Activity();
      ApplyReconciliation(reply.reconciliation);
      :- queue.Audit();
      if Proves(reply.reconciliation) { :- RecoverOn(reply.reconciliation); }
      return Running;
    }

    function IntentDisposition(intent: Intent): ContactDisposition {
      match intent
      case IntentOptOut => OptedOut
      case IntentWrongPerson => WrongPerson
      case IntentDispute => Dispute
      case IntentAlreadyPaid => AlreadyPaid
      case IntentPromiseToPay => PromiseToPay
      case IntentOther => Engaged
    }

    method HandleCustomerIntent(intent: Intent) returns (p: Progress)
      requires Inv() && !terminal && Handles(sum, IntentBody(intent))
      modifies this, queue
      ensures Inv() && Fixed() == old(Fixed()) && queue.now >= old(queue.now)
      ensures |queue.script| <= |old(queue.script)| && (p.Running? ==> |queue.script| < |old(queue.script)|)
      ensures contactDisposition == IntentDisposition(intent)
      ensures contactDisposition == OptedOut <==> intent == IntentOptOut
      ensures contactDisposition == WrongPerson <==> intent == IntentWrongPerson
      ensures contactDisposition == Dispute <==> intent == IntentDispute
      ensures contactDisposition == AlreadyPaid <==> intent == IntentAlreadyPaid
      ensures contactDisposition == PromiseToPay <==> intent == IntentPromiseToPay
      ensures contactDisposition == Engaged <==> intent == IntentOther
      ensures p.Running? && intent == IntentDispute ==> terminal && outcome == Some(Disputed)
      ensures p.Running? && (intent == IntentOptOut || intent == IntentWrongPerson) ==> !terminal && outreachSuppressed
      ensures p.Running? && (intent == IntentPromiseToPay || intent == IntentOther) ==> !terminal && trace == old(trace)
      ensures p.Running? && intent == IntentAlreadyPaid && terminal ==> outcome == Some(Recovered)
    {
      contactDisposition := IntentDisposition(intent);
      :- queue.Audit();
      match intent {
        case IntentOptOut => :- SuppressOutreach(OptedOut);
        case IntentWrongPerson => :- SuppressOutreach(WrongPerson);
        case IntentDispute => :- HandleDispute();
        case IntentAlreadyPaid => :- HandleAlreadyPaid();
        case IntentPromiseToPay =>
        case IntentOther =>
      }
      return Running;
    }

    method HandleDispute() returns (p: Progress)
      requires Inv() && !terminal && Handles(sum, IntentBody(IntentDispute))
      modifies this, queue
      ensures Inv() && Fixed() == old(Fixed()) && queue.now >= old(queue.now) && |queue.script| <= |old(queue.script)|
      ensures (p.Running? ==> terminal && outcome == Some(Disputed)) && contactDisposition == old(contactDisposition)
    {
      p := Running;
      :- CancelActiveAction(CustomerDisputed);
      Finish(Disputed, DisputeHandled);
    }

    /** A customer's word is only a reason to ask the provider. */
    method HandleAlreadyPaid() returns (p: Progress)
      requires Inv() && !terminal && Handles(sum, IntentBody(IntentAlreadyPaid))
      modifies this, queue
      ensures Inv() && Fixed() == old(Fixed()) && queue.now >= old(queue.now) && |queue.script| <= |old(queue.script)|
      ensures (p.Running? && terminal ==> outcome == Some(Recovered)) && contactDisposition == old(contactDisposition)
      ensures p.Running? ==>
        |old(queue.script)| > 0 &&
        var answer := old(queue.script)[0].reply.reconciliation;
        sum.proof == Some(answer) && (terminal <==> answer.authoritative && answer.caseRecovered)
    {
      var reply :- queue.Activity();
      ApplyReconciliation(reply.reconciliation);
      if Proves(reply.reconciliation) { :- RecoverOn(reply.reconciliation); }
      return Running;
    }

    method HandleOptOut() returns (p: Progress)
      requires Inv() && !terminal && Handles(sum, OptOutBody)
      modifies this, queue
      ensures Inv() && Fixed() == old(Fixed()) && queue.now >= old(queue.now)
      ensures |queue.script| <= |old(queue.script)| && (p.Running? ==> |queue.script| < |old(queue.script)|)
      ensures contactDisposition == OptedOut && !terminal && (p.Running? ==> outreachSuppressed && outcome == Some(Stopped))
    {
      contactDisposition := OptedOut;
      :- queue.Audit();
      :- SuppressOutreach(OptedOut);
      return Running;
    }

    method MarkSuppressed()
      requires TraceInv() && ControlInv() && !terminal && sum.current.Some? && Suppresses(sum.current.value.body)
      modifies this`outreachSuppressed, this`trace, this`sums, this`sum
      ensures TraceInv() && ControlInv() && outreachSuppressed
      ensures sum == old(sum).(grounds := old(sum).grounds.(suppressed := true))
    {
      Emit(OutreachSuppressed);
      outreachSuppressed := true;
    }

    /** Outreach stops; the run stays open for late payments. */
    method SuppressOutreach(disposition: ContactDisposition) returns (p: Progress)
      requires Inv() && !terminal && sum.current.Some? && Suppresses(sum.current.value.body)
      modifies this, queue
      ensures Inv() && Fixed() == old(Fixed()) && queue.now >= old(queue.now) && |queue.script| <= |old(queue.script)|
      ensures outreachSuppressed && !terminal && (p.Running? ==> outcome == Some(Stopped))
      ensures contactDisposition == old(contactDisposition) && sum.grounds.sought == Some(Suppressed(disposition))
    {
      MarkSuppressed();
      :- CancelActiveAction(Suppressed(disposition));
      :- queue.Audit();
      outcome := Some(Stopped);
      return Running;
    }

    method HandleCancellation(reason: string) returns (p: Progress)
      requires Inv() && !terminal && Handles(sum, CancellationBody(reason))
      modifies this, queue
      ensures Inv() && Fixed() == old(Fixed()) && queue.now >= old(queue.now)
      ensures |queue.script| <= |old(queue.script)|
      ensures p.Running? ==> |queue.script| < |old(queue.script)| && terminal && outcome == Some(Stopped)
    {
      p := Running;
      :- queue.Audit();
      :- CancelActiveAction(Requested(reason));
      Finish(Stopped, CancellationHandled);
    }

    method HandleOperatorEscalation() returns (p: Progress)
      requires Inv() && !terminal && Handles(sum, EscalationBody)
      modifies this, queue
      ensures Inv() && Fixed() == old(Fixed()) && queue.now >= old(queue.now)
      ensures |queue.script| <= |old(queue.script)|
      ensures p.Running? ==> |queue.script| < |old(queue.script)| && terminal && outcome == Some(Escalated)
    {
      p := Running;
      :- queue.Audit();
      :- EscalateForOperator();
    }

    method EscalateForOperator() returns (p: Progress)
      requires Inv() && !terminal && Handles(sum, EscalationBody)
      modifies this, queue
      ensures Inv() && Fixed() == old(Fixed()) && queue.now >= old(queue.now) && |queue.script| <= |old(queue.script)|
      ensures p.Running? ==> terminal && outcome == Some(Escalated)
    {
      p := Running;
      :- CancelActiveAction(OperatorEscalated);
      Finish(Escalated, EscalationHandled);
    }

    /** An update is a wake-up hint: it moves the next poll, never the authorization. */
    method HandleA2aUpdate(remoteTaskId: string, state: WorkStatus) returns (p: Progress)
      requires Inv()
      modifies this, queue
      ensures Inv() && Fixed() == old(Fixed()) && queue.now >= old(queue.now)
      ensures |queue.script| <= |old(queue.script)| && (p.Running? ==> |queue.script| < |old(queue.script)|)
      ensures trace == old(trace) && a2aMandateId == old(a2aMandateId)
      ensures p.Running? ==> nextA2aPollAt == if a2aTaskId == Some(remoteTaskId) then Some(queue.now) else old(nextA2aPollAt)
      ensures a2aTaskId == old(a2aTaskId) && a2aState == if a2aTaskId == Some(remoteTaskId) then Some(state) else old(a2aState)
    {
      if a2aTaskId != Some(remoteTaskId) {
        :- queue.Audit();
        return Running;
      }
      a2aState := Some(state);
      :- queue.Audit();
      nextA2aPollAt := Some(queue.now);
      return Running;
    }

    method HandleMandate() returns (p: Progress)
      requires Inv()
      modifies this, queue
      ensures Inv() && Fixed() == old(Fixed()) && queue.now >= old(queue.now)
      ensures |queue.script| <= |old(queue.script)| && (p.Running? ==> |queue.script| < |old(queue.script)|)
      ensures trace == old(trace) && a2aMandateId == old(a2aMandateId)
      ensures p.Running? ==> nextA2aPollAt == if a2aTaskId.Some? then Some(queue.now) else old(nextA2aPollAt)
    {
      p := Running;
      :- queue.Audit();
      if a2aTaskId.Some? { nextA2aPollAt := Some(queue.now); }
    }

    // --------------------------------------------------------- customer agent

    method StartA2aAuthorization() returns (p: Progress)
      requires Inv() && !terminal && Cleared(sum) && !sum.started && sum.key.None?
      modifies this, queue
      ensures Inv() && |queue.script| <= |old(queue.script)| && sum.key == old(sum).key && sum.mandate == old(sum).mandate
      ensures Charge() == old(Charge())
      ensures if DurableScope() then sum.started && !terminal else !sum.started && (p.Running? ==> terminal && outcome == Some(Escalated))
    {
      if !DurableScope() {
        :- queue.Audit();
        RejectAction(ScopeMissing);
        return Running;
      }
      Emit(AuthorizationStarted);
      var reply :- queue.Activity();
      SetStatus(reply.taskState);
      DelegateTo(reply);
      :- queue.Audit();
      return Running;
    }

    method RejectAction(ghost cause: Cause)
      requires Inv() && !terminal
      requires (cause == ScopeMissing && !DurableScope()) || (cause == PollRefused && sum.started && sum.grounds.refused)
      modifies this`actionStatus, this`outcome, this`terminal, this`paymentState, this`trace, this`sums, this`sum
      ensures Inv() && terminal && Fixed() == old(Fixed())
      ensures outcome == Some(Escalated) && sum.mandate == old(sum).mandate && sum.verified == old(sum).verified
    {
      SetStatus(IsRejected);
      Finish(Escalated, cause);
    }

    method DelegateTo(reply: Reply)
      requires Inv() && !terminal && sum.started
      modifies this`providerReference, this`a2aTaskId, this`a2aState, this`nextA2aPollAt
      ensures Inv() && a2aTaskId == Some(reply.remoteTaskId) && !terminal
      ensures nextA2aPollAt == Some(if reply.taskState == IsWorking then queue.now else queue.now + A2A_POLL_INTERVAL)
    {
      providerReference := Some(reply.remoteTaskId);
      a2aTaskId := Some(reply.remoteTaskId);
      a2aState := Some(reply.taskState);
      nextA2aPollAt := Some(if reply.taskState == IsWorking then queue.now else queue.now + A2A_POLL_INTERVAL);
    }

    method PollA2aIfDue() returns (p: Progress)
      requires Inv() && !terminal
      modifies this, queue
      ensures Inv() && |queue.script| <= |old(queue.script)| && Charge() == old(Charge())
      ensures p.Running? && |queue.script| < |old(queue.script)| && old(queue.script)[0].reply.poll == PollPending ==>
        !terminal && nextA2aPollAt == Some(queue.now + A2A_POLL_INTERVAL) && trace == old(trace)
      ensures p.Running? && |queue.script| == |old(queue.script)| && !terminal ==>
                queue.signals == old(queue.signals) && queue.now == old(queue.now) && (nextA2aPollAt.None? || queue.now < nextA2aPollAt.value)
    {
      if a2aTaskId.None? || nextA2aPollAt.None? || queue.now < nextA2aPollAt.value { return Running; }
      if !DurableScope() {
        nextA2aPollAt := None;
        RejectAction(ScopeMissing);
        return Running;
      }
      var reply :- queue.Activity();
      a2aState := Some(reply.taskState);
      if reply.poll == PollPending {
        nextA2aPollAt := Some(queue.now + A2A_POLL_INTERVAL);
        return Running;
      }
      :- SettlePoll(reply);
      return Running;
    }

    predicate Accepted(reply: Reply) { reply.poll == PollVerified && reply.mandateId.Some? && reply.artifact.Some? }

    /** Only a VERIFIED poll with a mandate and its artifact executes anything. */
    method SettlePoll(reply: Reply) returns (p: Progress)
      requires Inv() && !terminal && a2aTaskId.Some?
      modifies this, queue
      ensures Inv() && |queue.script| <= |old(queue.script)| && Charge() == old(Charge())
      ensures p.Running? && reply.poll == PollVerified && reply.mandateId.Some? && reply.artifact.Some? ==>
        sum.mandate == reply.mandateId && sum.key == Some(ExecutionKey(input.caseId, OpenCustomerPaymentSurface))
      ensures p.Running? && (reply.poll != PollVerified || reply.mandateId.None? || reply.artifact.None?) ==>
        terminal && outcome == Some(Escalated) && Fixed() == old(Fixed()) && sum.mandate == old(sum).mandate
    {
      var accepted := Accepted(reply);
      RecordPoll(accepted);
      :- queue.Audit();
      if !accepted {
        RejectAction(PollRefused);
        return Running;
      }
      AcceptMandate(reply.mandateId.value);
      :- ExecuteAction(OpenCustomerPaymentSurface, reply.artifact);
      return Running;
    }

    method RecordPoll(accepted: bool)
      requires Inv() && !terminal && sum.started
      modifies this`nextA2aPollAt, this`trace, this`sums, this`sum
      ensures Inv() && sum == old(sum).(verified := accepted, grounds := old(sum).grounds.(refused := !accepted))
    {
      nextA2aPollAt := None;
      Emit(Polled(accepted));
    }

    method AcceptMandate(mandateId: string)
      requires Inv() && !terminal && a2aTaskId.Some? && sum.verified
      modifies this`mandateReceived, this`a2aMandateId, this`trace, this`sums, this`sum
      ensures Inv() && a2aMandateId == Some(mandateId) && sum == old(sum).(mandate := Some(mandateId))
    {
      Emit(MandateAccepted(mandateId));
      mandateReceived := true;
      a2aMandateId := Some(mandateId);
    }

    /** The receipt goes out exactly when the reconciliation meets its guard. */
    method SendReceiptIfApplicable(result: ReconciliationResult) returns (p: Progress)
      requires Inv() && !terminal && sum.proof == Some(result)
      modifies this, queue
      ensures Inv() && Fixed() == old(Fixed()) && queue.now >= old(queue.now) && |queue.script| <= |old(queue.script)|
      ensures terminal == old(terminal) && sum.proof == Some(result) && contactDisposition == old(contactDisposition)
      ensures sum.mandate == old(sum).mandate && sum.current == old(sum).current
      ensures p.Running? && a2aTaskId.Some? && a2aMandateId.Some? && ReceiptGuard(result, input.amountAtRiskPaise) ==>
                sum.receipt
    {
      if a2aReceiptSent || a2aTaskId.None? || a2aMandateId.None? { return Running; }
      if !ReceiptGuard(result, input.amountAtRiskPaise) { return Running; }
      Note(ReceiptSent(input.amountAtRiskPaise));
      :- DeliverReceipt();
      return Running;
    }

    method DeliverReceipt() returns (p: Progress)
      requires Inv() && sum.receipt
      modifies this`a2aReceiptSent, this`a2aState, queue
      ensures Inv() && queue.now >= old(queue.now) && |queue.script| <= |old(queue.script)|
      ensures a2aReceiptSent && !old(a2aReceiptSent) ==>
        |old(queue.script)| > 0 && old(queue.script)[0].reply.delivered && old(queue.script)[0].reply.taskState == IsCompleted
    {
      var reply :- queue.Activity();
      if reply.delivered && reply.taskState == IsCompleted {
        a2aReceiptSent := true;
        a2aState := Some(IsCompleted);
      }
      :- queue.Audit();
      return Running;
    }

    // -------------------------------------------------------------- execution

    method ExecuteAction(action: ActionType, mandate: Option<string>) returns (p: Progress)
      requires Inv() && !terminal && Cleared(sum)
      requires mandate.None? ==> !sum.started && sum.key.None?
      requires mandate.Some? ==> sum.started && sum.verified && sum.mandate.Some? && action == OpenCustomerPaymentSurface
      modifies this, queue
      ensures Inv() && |queue.script| <= |old(queue.script)|
      ensures action != SendToCustomerAgent ==> sum.key == Some(ExecutionKey(input.caseId, action)) && sum.started == old(sum).started
      ensures action == SendToCustomerAgent ==> sum.key == old(sum).key && (p.Running? ==> sum.started || outcome == Some(Escalated))
      ensures sum.mandate == old(sum).mandate && Charge() == old(Charge())
    {
      if action == SendToCustomerAgent && mandate.None? {
        :- StartA2aAuthorization();
        return Running;
      }
      BeginExecution(ExecutionKey(input.caseId, action), mandate);
      var reply :- queue.Activity();
      :- SettleExecution(reply);
      return Running;
    }

    /** The execution is on the trace, under its key, before its activity answers. */
    method BeginExecution(key: string, mandate: Option<string>)
      requires Inv() && !terminal && May(Executed(key, mandate))
      requires sum.started ==> key == ExecutionKey(input.caseId, OpenCustomerPaymentSurface)
      modifies this`actionStatus, this`trace, this`sums, this`sum
      ensures Inv() && actionStatus == Some(IsExecuting)
      ensures sum == old(sum).(key := Some(key), grounds := old(sum).grounds.(status := Some(IsExecuting)))
    {
      Emit(Executed(key, mandate));
      actionStatus := Some(IsExecuting);
    }

    method RecordAnswer(answer: WorkStatus)
      requires Inv() && !terminal && sum.key.Some?
      modifies this`actionStatus, this`trace, this`sums, this`sum
      ensures Inv() && actionStatus == Some(answer)
      ensures sum == old(sum).(grounds := old(sum).grounds.(answer := Some(answer), status := Some(answer)))
    {
      Emit(ExecutionAnswered(answer));
      actionStatus := Some(answer);
    }

    method SettleExecution(reply: Reply) returns (p: Progress)
      requires Inv() && !terminal && sum.key.Some?
      modifies this, queue
      ensures Inv() && |queue.script| <= |old(queue.script)| && Fixed() == old(Fixed()) && sum.mandate == old(sum).mandate
      ensures p.Running? ==> (terminal <==> reply.executionStatus == IsFailed || reply.executionStatus == IsRejected)
      ensures p.Running? && terminal ==> outcome == Some(Escalated)
    {
      RecordAnswer(reply.executionStatus);
      providerReference := reply.providerReference;
      :- queue.Audit();
      if reply.executionStatus == IsFailed || reply.executionStatus == IsRejected { Finish(Escalated, ExecutionRefused); }
      return Running;
    }

    // ------------------------------------------------------------------ waiting

    function WakeAt(): int
      reads this`nextA2aPollAt
    {
      if nextA2aPollAt.Some? then Min(input.deadline, nextA2aPollAt.value) else input.deadline
    }

    method WaitForSignalOrDeadline() returns (p: Progress)
      requires Inv()
      modifies queue
      ensures Inv() && |queue.script| <= |old(queue.script)| && queue.now >= old(queue.now)
      ensures p.Running? && |queue.script| == |old(queue.script)| ==> queue.signals == old(queue.signals) && queue.now == old(queue.now)
      ensures p.Running? && old(queue.signals) == [] && old(queue.now) < WakeAt() ==> |queue.script| < |old(queue.script)|
      ensures p.Running? ==> queue.signals != [] || queue.now >= input.deadline
                             || (nextA2aPollAt.Some? && queue.now >= nextA2aPollAt.value)
    {
      var wake := input.deadline;
      if nextA2aPollAt.Some? { wake := Min(wake, nextA2aPollAt.value); }
      if wake <= queue.now { return Running; }
      :- queue.WaitForSignal(wake);
      return Running;
    }

    /** The approval wait; its deadline check runs even when a handler just finished the run. */
    method WaitForApprovalOrTerminal() returns (p: Progress)
      requires Inv() && !sum.started
      modifies this, queue
      ensures Inv() && |queue.script| <= |old(queue.script)| && Fixed() == old(Fixed())
      ensures p.Running? ==> terminal || approvalReceived.Some?
    {
      while approvalReceived.None? && !terminal
        invariant Inv() && |queue.script| <= |old(queue.script)| && Fixed() == old(Fixed())
        decreases |queue.script|, if terminal then 0 else 1
      {
        :- WaitForSignalOrDeadline();
        :- DrainSignals();
        if queue.now >= input.deadline { :- ExpireAtDeadline(); }
      }
      return Running;
    }

    method WaitUntil(target: int) returns (p: Progress)
      requires Inv() && !terminal && actionStatus.None? && sum.grounds.heldAt.None?
      modifies this, queue
      ensures Inv() && |queue.script| <= |old(queue.script)| && Fixed() == old(Fixed())
      ensures p.Running? && !terminal ==> queue.now >= target && queue.now < input.deadline
      ensures old(queue.now) >= input.deadline ==>
        p.Running? && terminal && outcome == Some(if old(outreachSuppressed) then Stopped else Expired)
        && queue.signals == old(queue.signals)
    {
      Note(HeldBack(queue.now));
      while !terminal && queue.now < target
        invariant Inv() && |queue.script| <= |old(queue.script)| && Fixed() == old(Fixed())
        invariant sum.grounds.heldAt == Some(queue.now) || queue.signals == [] || terminal
        invariant old(queue.now) >= input.deadline ==> !terminal && queue.now == old(queue.now) && queue.signals == old(queue.signals)
                                                       && actionStatus.None? && outreachSuppressed == old(outreachSuppressed)
        decreases |queue.script|
      {
        var wake := Min(target, input.deadline);
        if wake <= queue.now { break; }
        :- queue.WaitForSignal(wake);
        :- DrainSignals();
      }
      if queue.now >= input.deadline && !terminal { :- ExpireAtDeadline(); }
      return Running;
    }

    // ---------------------------------------------------------------------- run

    /** The whole run, wherever the script cuts it: the trace is safe, and the processed and
        queued signals are the deduplicated delivery log. */
    method Run() returns (p: Progress)
      requires Inv() && trace == [] && 0 <= input.amountAtRiskPaise
      modifies this, queue
      ensures Inv() && (p.Running? ==> terminal)
      ensures Safe(trace, RunTerms())
      ensures queue.processed + queue.signals == Dedup(queue.log)
      ensures |queue.seenSignalIds| == queue.processedSignalCount + |queue.signals|
      ensures queue.duplicateSignalCount == |queue.log| - |queue.seenSignalIds|
      ensures p.Running? ==> exists e | e in trace :: e.Finished? && Some(e.outcome) == outcome
      ensures LastAuthoritative(trace, arrearsCollectedPaise, subscriptionReactivated)
      ensures p.Running? ==>
        |old(queue.script)| > 3 &&
        var ordered := old(queue.script)[3].reply.policy;
        PolicyDecided(ordered.disposition) in trace
        && exists e | e in trace :: e.ActionChosen? && e.action == ordered.action
                                    && e.notBefore == if ordered.disposition == Delay then ordered.delayUntil else None
    {
      p := Orchestrate();
      StepsAreSafe(trace, sums, RunTerms());
      FirstDeliveriesAreDedup(queue.log, queue.processed + queue.signals, queue.firstAt);
      IdsCount(queue.log, queue.processed + queue.signals, queue.firstAt);
      FinishIsLast(trace);
      HintsNeverMoveMoney(trace);
      if p.Running? {
        PolicyIsRecorded(trace, RunTerms(), sum.policy.value);
        ActionIsRecorded(trace);
        assert ActionChosen(sum.grounds.action.value, sum.grounds.notBefore) in trace;
      }
    }

    method Orchestrate() returns (p: Progress)
      requires Inv() && sum == Nothing
      modifies this, queue
      ensures Inv() && (p.Running? ==> terminal)
      ensures p.Running? ==>
        |old(queue.script)| > 3 &&
        var ordered := old(queue.script)[3].reply.policy;
        Charge() == (Some(ordered.disposition), Some(ordered.action), HeldUntil(ordered))
    {
      p := Running;
      :- Assess();
      var decided :- queue.Activity();
      Emit(PolicyDecided(decided.policy.disposition));
      Emit(ActionChosen(decided.policy.action, HeldUntil(decided.policy)));
      :- queue.Audit();
      :- FollowPolicy(decided.policy);
    }

    /** Normalize, diagnose and score; only the normalized states are kept. */
    method Assess() returns (p: Progress)
      requires Inv()
      modifies this, queue
      ensures Inv() && sum == old(sum)
      ensures p.Running? ==> |old(queue.script)| >= 3 && queue.script == old(queue.script)[3..]
    {
      var normalized :- queue.Activity();
      paymentState := normalized.reconciliation.paymentState;
      subscriptionState := normalized.reconciliation.subscriptionState;
      var _ :- queue.Activity();
      var _ :- queue.Activity();
      return Running;
    }

    method FollowPolicy(policy: PolicyResult) returns (p: Progress)
      requires Inv() && !terminal && Fixed() == (Some(policy.disposition), false, None, Some(policy.action), HeldUntil(policy))
      requires actionStatus.None? && sum.grounds.heldAt.None?
      modifies this, queue
      ensures Inv() && (p.Running? ==> terminal) && Charge() == old(Charge())
      ensures policy.disposition == Block ==> p.Running? && outcome == Some(Stopped) && Fixed() == old(Fixed())
    {
      if policy.disposition == Block {
        Finish(Stopped, BlockedByPolicy);
        return Running;
      }
      :- AwaitClearance(policy);
      if terminal { return Running; }
      Note(Begun(queue.now));
      :- ActOn(policy);
      return Running;
    }

    /** Waits out a DELAY, or for the approval that is required: a run that goes on may act. */
    method AwaitClearance(policy: PolicyResult) returns (p: Progress)
      requires Inv() && !terminal && policy.disposition != Block && actionStatus.None? && sum.grounds.heldAt.None?
      requires Fixed() == (Some(policy.disposition), false, None, Some(policy.action), HeldUntil(policy))
      modifies this, queue
      ensures Inv() && |queue.script| <= |old(queue.script)| && Fixed() == old(Fixed())
      ensures p.Running? && !terminal && policy.disposition == RequireManualApproval ==> sum.approval == Some(true)
      ensures p.Running? && !terminal && policy.disposition == Delay && policy.delayUntil.Some? ==>
                policy.delayUntil.value <= queue.now < input.deadline
    {
      if policy.disposition == Delay && policy.delayUntil.Some? {
        :- WaitUntil(policy.delayUntil.value);
        if terminal { return Running; }
      }
      if policy.disposition == RequireManualApproval {
        approvalRequired := true;
        :- WaitForApprovalOrTerminal();
        if terminal { return Running; }
        if approvalReceived != Some(true) {
          assert approvalReceived.Some? && !approvalReceived.value;
          Finish(Stopped, ApprovalRefused);
        }
      }
      return Running;
    }

    method ActOn(policy: PolicyResult) returns (p: Progress)
      requires Inv() && !terminal && Cleared(sum) && !sum.started && sum.key.None? && sum.grounds.action == Some(policy.action)
      modifies this, queue
      ensures Inv() && (p.Running? ==> terminal) && Charge() == old(Charge())
      ensures policy.action == Stop ==> p.Running? && outcome == Some(Stopped) && Fixed() == old(Fixed())
    {
      if policy.action != WaitForGatewayRetry && policy.action != Stop {
        :- ExecuteAction(policy.action, None);
        if terminal { return Running; }
      } else if policy.action == Stop {
        Finish(Stopped, StoppedByPolicy);
        return Running;
      } else {
        SetStatus(IsScheduled);
      }
      :- RecoveryLoop();
      return Running;
    }

    method RecoveryLoop() returns (p: Progress)
      requires Inv()
      modifies this, queue
      ensures Inv() && (p.Running? ==> terminal) && Charge() == old(Charge())
    {
      while !terminal
        invariant Inv() && Charge() == old(Charge())
        decreases |queue.script|, if terminal then 0 else 1
      {
        :- DrainSignals();
        if terminal { break; }
        if queue.now >= input.deadline {
          :- ExpireAtDeadline();
          break;
        }
        :- PollA2aIfDue();
        if terminal { break; }
        :- WaitForSignalOrDeadline();
        :- DrainSignals();
      }
      return Running;
    }
  }
}
