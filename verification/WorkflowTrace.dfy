/** What a recovery workflow does to the outside, as a trace, and what every safe trace obeys. */
module WorkflowTrace {
  import opened Domain
  import opened Reconciliation

  datatype Intent = IntentOptOut | IntentWrongPerson | IntentDispute | IntentAlreadyPaid | IntentPromiseToPay | IntentOther

  datatype Body =
    | ApprovalBody(approved: bool)
    | PaymentBody
    | IntentBody(intent: Intent)
    | OptOutBody
    | CancellationBody(reason: string)
    | EscalationBody
    | UpdateBody(remoteTaskId: string, state: WorkStatus)
    | MandateBody

  datatype Signal = Signal(id: string, body: Body)

  // ------------------------------------------------------------ deduplication

  function Ids(signals: seq<Signal>): set<string> { set s | s in signals :: s.id }

  /** The delivery log with later repeats of an id removed. */
  function Dedup(log: seq<Signal>): seq<Signal> {
    if log == [] then []
    else
      var first := Dedup(log[..|log| - 1]);
      var last := log[|log| - 1];
      if last.id in Ids(first) then first else first + [last]
  }

  /** Each kept signal is the first delivery of its id, each id is kept once, and kept signals
      stay in delivery order. */
  ghost predicate FirstDeliveries(log: seq<Signal>, kept: seq<Signal>, at: seq<int>) {
    && |at| == |kept|
    && (forall k | 0 <= k < |at| :: 0 <= at[k] < |log| && log[at[k]] == kept[k])
    && (forall k, l | 0 <= k < l < |at| :: at[k] < at[l])
    && (forall k, i | 0 <= k < |at| && 0 <= i < at[k] :: log[i].id != kept[k].id)
    && Ids(kept) == Ids(log)
  }

  lemma KeepOne(rest: seq<Signal>, last: Signal, kept: seq<Signal>, at: seq<int>)
    requires FirstDeliveries(rest, kept, at) && last.id !in Ids(kept)
    ensures FirstDeliveries(rest + [last], kept + [last], at + [|rest|])
  {
    var log, at' := rest + [last], at + [|rest|];
    forall i | 0 <= i < |rest| ensures log[i].id != last.id { assert rest[i].id in Ids(rest); }
    IdsAppend(rest, last);
    IdsAppend(kept, last);
  }

  lemma IdsAppend(signals: seq<Signal>, last: Signal)
    ensures Ids(signals + [last]) == Ids(signals) + {last.id}
  {
    assert last in signals + [last];
    forall s | s in signals ensures s in signals + [last] {}
  }

  lemma {:induction false} DedupKeepsFirstDeliveries(log: seq<Signal>) returns (at: seq<int>)
    ensures FirstDeliveries(log, Dedup(log), at)
  {
    if log == [] {
      at := [];
    } else {
      var rest, last := log[..|log| - 1], log[|log| - 1];
      assert log == rest + [last];
      at := DedupKeepsFirstDeliveries(rest);
      if last.id in Ids(Dedup(rest)) {
        IdsAppend(rest, last);
      } else {
        KeepOne(rest, last, Dedup(rest), at);
        at := at + [|rest|];
      }
    }
  }

  lemma DropRepeat(rest: seq<Signal>, last: Signal, kept: seq<Signal>, at: seq<int>)
    requires FirstDeliveries(rest, kept, at) && last.id in Ids(kept)
    ensures FirstDeliveries(rest + [last], kept, at)
  {
    IdsAppend(rest, last);
  }

  /** Being the first deliveries in order determines the queue: it is the deduplicated log. */
  lemma {:induction false} FirstDeliveriesAreDedup(log: seq<Signal>, kept: seq<Signal>, at: seq<int>)
    requires FirstDeliveries(log, kept, at)
    ensures kept == Dedup(log)
  {
    if log == [] {
      assert Ids(kept) == {};
      assert forall s | s in kept :: s.id in Ids(kept);
    } else {
      var rest, last := log[..|log| - 1], log[|log| - 1];
      assert log == rest + [last];
      if last.id in Ids(rest) {
        WithoutRepeat(rest, last, kept, at);
        FirstDeliveriesAreDedup(rest, kept, at);
      } else {
        WithoutLast(rest, last, kept, at);
        FirstDeliveriesAreDedup(rest, kept[..|kept| - 1], at[..|at| - 1]);
      }
    }
  }

  lemma WithoutRepeat(rest: seq<Signal>, last: Signal, kept: seq<Signal>, at: seq<int>)
    requires FirstDeliveries(rest + [last], kept, at) && last.id in Ids(rest)
    ensures FirstDeliveries(rest, kept, at)
  {
    var log := rest + [last];
    IdsAppend(rest, last);
    assert Ids(log) == Ids(rest);
    var s :| s in rest && s.id == last.id;
    var i :| 0 <= i < |rest| && rest[i] == s;
    forall k | 0 <= k < |at| ensures at[k] < |rest| { assert log[i].id == last.id; }
    forall k, i | 0 <= k < |at| && 0 <= i < at[k] ensures rest[i].id != kept[k].id { assert log[i] == rest[i]; }
  }

  lemma WithoutLast(rest: seq<Signal>, last: Signal, kept: seq<Signal>, at: seq<int>)
    requires FirstDeliveries(rest + [last], kept, at) && last.id !in Ids(rest)
    ensures kept != [] && kept[|kept| - 1] == last
    ensures FirstDeliveries(rest, kept[..|kept| - 1], at[..|at| - 1])
  {
    var log := rest + [last];
    assert log[..|rest|] == rest;
    LastIsKept(log, kept, at);
    var m := |kept| - 1;
    forall k | 0 <= k < m ensures 0 <= at[k] < |rest| && rest[at[k]] == kept[k] { assert at[k] < at[m]; }
    IdsWithoutLast(rest, last, kept, at);
    forall k, i | 0 <= k < m && 0 <= i < at[k] ensures rest[i].id != kept[k].id { assert log[i] == rest[i]; }
  }

  lemma IdsWithoutLast(rest: seq<Signal>, last: Signal, kept: seq<Signal>, at: seq<int>)
    requires kept != [] && kept[|kept| - 1] == last && last.id !in Ids(rest) && Ids(kept) == Ids(rest + [last])
    requires |at| == |kept| && forall k | 0 <= k < |kept| - 1 :: 0 <= at[k] < |rest| && rest[at[k]] == kept[k]
    ensures Ids(kept[..|kept| - 1]) == Ids(rest)
  {
    var front := kept[..|kept| - 1];
    assert kept == front + [last];
    IdsAppend(front, last);
    IdsAppend(rest, last);
    forall s | s in front ensures s in rest {
      var k :| 0 <= k < |front| && front[k] == s;
      assert rest[at[k]] == s;
    }
    assert last.id !in Ids(front);
    assert Ids(front) == Ids(kept) - {last.id} && Ids(rest) == Ids(rest + [last]) - {last.id};
  }

  lemma Increasing(at: seq<int>, k: nat)
    requires k < |at| && forall i, j | 0 <= i < j < |at| :: at[i] < at[j]
    ensures k == |at| - 1 || at[k] < at[|at| - 1]
  {
  }

  lemma LastIsKept(log: seq<Signal>, kept: seq<Signal>, at: seq<int>)
    requires FirstDeliveries(log, kept, at) && log != []
    requires log[|log| - 1].id !in Ids(log[..|log| - 1])
    ensures kept != [] && at[|at| - 1] == |log| - 1
  {
    var n := |log| - 1;
    assert log[n] in log && log[n].id in Ids(kept);
    var s :| s in kept && s.id == log[n].id;
    var k :| 0 <= k < |kept| && kept[k] == s;
    Increasing(at, k);
    assert at[k] == n by {
      assert log[at[k]].id == log[n].id;
      assert forall i | 0 <= i < n :: log[..n][i] in log[..n] && log[i].id in Ids(log[..n]);
    }
  }

  lemma IdsCount(log: seq<Signal>, kept: seq<Signal>, at: seq<int>)
    requires FirstDeliveries(log, kept, at)
    ensures |Ids(kept)| == |kept|
  {
    forall k, l | 0 <= k < l < |kept| ensures kept[k].id != kept[l].id { assert log[at[k]] == kept[k]; }
    DistinctIds(kept);
  }

  lemma {:induction false} DistinctIds(kept: seq<Signal>)
    requires forall k, l | 0 <= k < l < |kept| :: kept[k].id != kept[l].id
    ensures |Ids(kept)| == |kept|
  {
    if kept != [] {
      var front, last := kept[..|kept| - 1], kept[|kept| - 1];
      DistinctIds(front);
      assert kept == front + [last];
      IdsAppend(front, last);
      assert last.id !in Ids(front);
    }
  }

  // ------------------------------------------------------------------ traces

  /** What a run does, recorded when it begins: an execution, a delegation or a receipt is on
      the trace before its activity answers. */
  datatype Ev =
    | Popped(signal: Signal)
    | PolicyDecided(disposition: Disposition)
    | ActionChosen(action: ActionType, notBefore: Option<int>)   // what the policy ordered
    | HeldBack(at: int)                                  // a DELAY starts to be waited out
    | Begun(at: int)                                     // the order is acted on
    | ApprovalRecorded(approved: bool)
    | Reconciled(result: ReconciliationResult)
    | AuthorizationStarted
    | Polled(verified: bool)
    | MandateAccepted(mandateId: string)
    | Executed(key: string, artifact: Option<string>)
    | ExecutionAnswered(answer: WorkStatus)
    | StatusSet(status: WorkStatus)                      // an action status from anywhere else
    | CancelSought(reason: CancelReason, asked: bool, waiting: nat)  // was the activity asked; signals still queued
    | OutreachSuppressed
    | ReceiptSent(amountPaise: int)
    | Finished(outcome: CaseOutcome, cause: Cause, at: int)

  /** The names an action or a delegated task can be under; `OtherStatus` is any other name. */
  datatype WorkStatus =
    | IsScheduled | IsExecuting | IsCancelled | IsFailed | IsRejected | IsWorking | IsCompleted | OtherStatus(text: string)

  /** Why a cancellation is sought; `Requested` carries a cancellation signal's own text. */
  datatype CancelReason =
    | PaymentArrived | DeadlineExpired | CustomerDisputed | OperatorEscalated
    | Suppressed(contact: ContactDisposition) | Requested(text: string)

  /** Why a run ends. */
  datatype Cause =
    | BlockedByPolicy | StoppedByPolicy | ApprovalRefused | CancellationHandled
    | EscalationHandled | PollRefused | ExecutionRefused | ScopeMissing
    | DisputeHandled | PaymentProved | DeadlinePassed

  /** What a run was started with: `scoped` is whether its durable payment scope is known. */
  datatype Terms = Terms(amountPaise: int, deadline: int, scoped: bool)

  /** What endings look back on. */
  datatype Grounds = Grounds(
    action: Option<ActionType>,
    notBefore: Option<int>,
    heldAt: Option<int>,
    begun: bool,
    status: Option<WorkStatus>,       // of the action
    sought: Option<CancelReason>,     // reason of a cancellation sought since the last signal was taken
    answer: Option<WorkStatus>,       // of the newest execution
    refused: bool,                    // the newest poll settled and was not accepted
    suppressed: bool)

  datatype Summary = Summary(
    policy: Option<Disposition>,
    current: Option<Signal>,                  // the signal being handled
    approval: Option<bool>,
    proof: Option<ReconciliationResult>,      // reconciled since the last signal was taken
    started: bool,
    verified: bool,                           // the newest poll was VERIFIED with mandate and artifact
    mandate: Option<string>,
    key: Option<string>,
    receipt: bool,
    arrears: int,
    reactivated: bool,
    grounds: Grounds,
    finish: Option<CaseOutcome>)

  const NoGrounds := Grounds(None, None, None, false, None, None, None, false, false)

  const Nothing := Summary(None, None, None, None, false, false, None, None, false, 0, false, NoGrounds, None)

  function Ground(g: Grounds, e: Ev): Grounds {
    match e
    case Popped(_) => g.(sought := None)
    case ActionChosen(a, notBefore) => g.(action := Some(a), notBefore := notBefore)
    case HeldBack(at) => g.(heldAt := Some(at))
    case Begun(_) => g.(begun := true)
    case Polled(v) => g.(refused := !v)
    case Executed(_, _) => g.(status := Some(IsExecuting))
    case ExecutionAnswered(x) => g.(answer := Some(x), status := Some(x))
    case StatusSet(x) => g.(status := Some(x))
    case CancelSought(reason, _, _) => g.(sought := Some(reason))
    case OutreachSuppressed => g.(suppressed := true)
    case _ => g
  }

  function Apply(sum: Summary, e: Ev): Summary {
    var s := sum.(grounds := Ground(sum.grounds, e));
    match e
    case Popped(signal) => s.(current := Some(signal), proof := None)
    case PolicyDecided(d) => s.(policy := Some(d))
    case ApprovalRecorded(b) => s.(approval := Some(b))
    case Reconciled(r) =>
      var t := s.(proof := Some(r));
      if r.authoritative then t.(arrears := r.arrearsCollectedPaise, reactivated := r.subscriptionReactivated) else t
    case AuthorizationStarted => s.(started := true)
    case Polled(v) => s.(verified := v)
    case MandateAccepted(id) => s.(mandate := Some(id))
    case Executed(key, _) => s.(key := Some(key))
    case ReceiptSent(_) => s.(receipt := true)
    case Finished(o, _, _) => s.(finish := Some(o))
    case _ => s
  }

  function Summarize(tr: seq<Ev>): Summary {
    if tr == [] then Nothing else Apply(Summarize(tr[..|tr| - 1]), tr[|tr| - 1])
  }

  /** The policy lets the run act: never under BLOCK, under manual approval only after a
      processed approval said yes, and only once its order was acted on. */
  predicate Cleared(s: Summary) {
    && s.policy.Some? && s.policy != Some(Block) && s.grounds.begun
    && (s.policy == Some(RequireManualApproval) ==> s.approval == Some(true))
  }

  predicate Proves(r: ReconciliationResult) { r.authoritative && r.caseRecovered }

  /** What the receipt demands of a reconciliation. */
  predicate ReceiptGuard(r: ReconciliationResult, amount: int) {
    Proves(r) && r.paymentState == Captured && r.arrearsCollectedPaise == amount && r.providerReference.Some?
  }

  predicate Allowed(s: Summary, e: Ev, terms: Terms) {
    match e
    case Popped(_) => s.finish.None?
    case PolicyDecided(_) => s.policy.None? && s.finish.None?
    case ApprovalRecorded(b) =>
      s.policy == Some(RequireManualApproval) && s.approval.None?
      && s.current.Some? && s.current.value.body == ApprovalBody(b)
    case Reconciled(_) => s.finish.None?
    case AuthorizationStarted => Cleared(s) && s.finish.None? && s.key.None?
    case Polled(_) => s.started && s.finish.None?
    case MandateAccepted(_) => s.verified && s.finish.None?
    case Executed(key, artifact) =>
      && Cleared(s) && s.finish.None?
      && (if s.started then artifact.Some? && s.verified && s.mandate.Some? else artifact.None?)
      && (s.key.Some? ==> s.key.value == key)
    case ReceiptSent(paise) =>
      s.started && s.mandate.Some? && s.proof.Some? && ReceiptGuard(s.proof.value, terms.amountPaise) && paise == terms.amountPaise
    case CancelSought(reason, asked, waiting) =>
      (asked <==> MustAsk(s.grounds.status, reason)) && (reason == DeadlineExpired && QueueFirst(s, terms) ==> waiting == 0)
    case ActionChosen(_, _) => s.grounds.action.None?
    case HeldBack(_) => s.grounds.heldAt.None? && s.finish.None?
    case Begun(at) =>
      s.grounds.action.Some? && s.finish.None? && (s.grounds.notBefore.Some? ==> s.grounds.notBefore.value <= at)
    case ExecutionAnswered(_) => s.key.Some? && s.finish.None?
    case StatusSet(_) => true
    case OutreachSuppressed => s.finish.None? && s.current.Some? && Suppresses(s.current.value.body)
    case Finished(o, cause, at) =>
      (s.finish.Some? ==> cause == DeadlinePassed) && Justified(s, o, cause, at, terms)
  }

  /** The payment reason's own text: a cancellation signal may carry it too. */
  const PAYMENT_TEXT := "AUTHORITATIVE_PAYMENT_SUCCESS"

  /** A settled action needs no cancellation, and neither does a missing one unless the payment
      arrived. */
  predicate MustAsk(status: Option<WorkStatus>, reason: CancelReason) {
    && status != Some(IsCancelled) && status != Some(IsFailed) && status != Some(IsRejected)
    && (status == None ==> reason in {PaymentArrived, Requested(PAYMENT_TEXT)})
  }

  /** Whether the deadline has to wait for an empty queue: only a wait for a DELAY that started
      at or past the deadline meets it first. */
  predicate QueueFirst(s: Summary, terms: Terms) {
    s.finish.None? && (s.grounds.heldAt.None? || s.grounds.heldAt.value < terms.deadline)
  }

  predicate Suppresses(b: Body) {
    b == OptOutBody || b == IntentBody(IntentOptOut) || b == IntentBody(IntentWrongPerson)
  }

  predicate Pays(b: Body) { b == PaymentBody || b == IntentBody(IntentAlreadyPaid) }

  predicate Handles(s: Summary, b: Body) { s.current.Some? && s.current.value.body == b }

  /** What each cause of an ending requires, and the outcome it gives. */
  predicate Justified(s: Summary, o: CaseOutcome, cause: Cause, at: int, terms: Terms) {
    match cause
    case BlockedByPolicy => o == Stopped && s.policy == Some(Block)
    case StoppedByPolicy => o == Stopped && s.grounds.action == Some(Stop) && Cleared(s)
    case ApprovalRefused => o == Stopped && s.policy == Some(RequireManualApproval) && s.approval == Some(false)
    case CancellationHandled =>
      o == Stopped && s.grounds.sought.Some? && s.grounds.sought.value.Requested? && Handles(s, CancellationBody(s.grounds.sought.value.text))
    case EscalationHandled =>
      o == Escalated && Handles(s, EscalationBody) && s.grounds.sought == Some(OperatorEscalated)
    case PollRefused => o == Escalated && s.started && s.grounds.refused
    case ExecutionRefused => o == Escalated && (s.grounds.answer == Some(IsFailed) || s.grounds.answer == Some(IsRejected))
    case ScopeMissing => o == Escalated && !terms.scoped
    case DisputeHandled =>
      o == Disputed && Handles(s, IntentBody(IntentDispute)) && s.grounds.sought == Some(CustomerDisputed)
    case PaymentProved =>
      && o == Recovered && s.proof.Some? && Proves(s.proof.value)
      && s.current.Some? && Pays(s.current.value.body) && s.grounds.sought == Some(PaymentArrived)
      && (s.started && s.mandate.Some? && ReceiptGuard(s.proof.value, terms.amountPaise) ==> s.receipt)
    case DeadlinePassed =>
      at >= terms.deadline && o == (if s.grounds.suppressed then Stopped else Expired)
      && s.grounds.sought == Some(DeadlineExpired)
  }

  predicate Safe(tr: seq<Ev>, terms: Terms) {
    tr == [] || (Safe(tr[..|tr| - 1], terms) && Allowed(Summarize(tr[..|tr| - 1]), tr[|tr| - 1], terms))
  }

  /** The summaries along a trace, every event allowed where it happened. */
  ghost predicate Steps(tr: seq<Ev>, sums: seq<Summary>, terms: Terms) {
    && |sums| == |tr| + 1
    && sums[0] == Nothing
    && (forall i {:trigger tr[i]} | 0 <= i < |tr| :: Allowed(sums[i], tr[i], terms) && sums[i + 1] == Apply(sums[i], tr[i]))
  }

  lemma ExtendSteps(tr: seq<Ev>, sums: seq<Summary>, e: Ev, terms: Terms)
    requires Steps(tr, sums, terms) && Allowed(sums[|tr|], e, terms)
    ensures Steps(tr + [e], sums + [Apply(sums[|tr|], e)], terms)
  {
    var tr', sums' := tr + [e], sums + [Apply(sums[|tr|], e)];
    forall i {:trigger tr'[i]} | 0 <= i < |tr'|
      ensures Allowed(sums'[i], tr'[i], terms) && sums'[i + 1] == Apply(sums'[i], tr'[i])
    {
      if i < |tr| { assert tr'[i] == tr[i]; }
    }
  }

  lemma {:induction false} StepsAreSafe(tr: seq<Ev>, sums: seq<Summary>, terms: Terms)
    requires Steps(tr, sums, terms)
    ensures Safe(tr, terms) && Summarize(tr) == sums[|tr|]
  {
    if tr != [] {
      var n := |tr| - 1;
      assert forall i | 0 <= i < n :: tr[..n][i] == tr[i];
      StepsAreSafe(tr[..n], sums[..|tr|], terms);
      assert tr[n] == tr[|tr| - 1];
    }
  }

  lemma {:induction false} SafeAt(tr: seq<Ev>, i: nat, terms: Terms)
    requires Safe(tr, terms) && i < |tr|
    ensures Safe(tr[..i], terms) && Allowed(Summarize(tr[..i]), tr[i], terms)
    decreases |tr|
  {
    if i < |tr| - 1 {
      SafeAt(tr[..|tr| - 1], i, terms);
      assert tr[..|tr| - 1][..i] == tr[..i];
    }
  }

  // -------------------------------------------------- what summaries remember

  /** What one event changes. */
  lemma EventEffects(s: Summary, e: Ev)
    ensures var t := Apply(s, e);
            && t.current == (if e.Popped? then Some(e.signal) else s.current)
            && t.proof == (if e.Popped? then None else if e.Reconciled? then Some(e.result) else s.proof)
            && t.arrears == (if e.Reconciled? && e.result.authoritative then e.result.arrearsCollectedPaise else s.arrears)
            && t.reactivated == (if e.Reconciled? && e.result.authoritative then e.result.subscriptionReactivated else s.reactivated)
            && t.started == (s.started || e.AuthorizationStarted?)
            && t.key == (if e.Executed? then Some(e.key) else s.key)
            && t.finish == (if e.Finished? then Some(e.outcome) else s.finish)
            && t.grounds.sought == (if e.CancelSought? then Some(e.reason) else if e.Popped? then None else s.grounds.sought)
            && t.grounds.refused == (if e.Polled? then !e.verified else s.grounds.refused)
            && t.grounds.suppressed == (s.grounds.suppressed || e.OutreachSuppressed?)
            && t.grounds.begun == (s.grounds.begun || e.Begun?)
            && t.grounds.heldAt == (if e.HeldBack? then Some(e.at) else s.grounds.heldAt)
  {
  }

  lemma InFrontOrLast(tr: seq<Ev>, e: Ev)
    requires tr != []
    ensures e in tr <==> e in tr[..|tr| - 1] || e == tr[|tr| - 1]
  {
    assert tr == tr[..|tr| - 1] + [tr[|tr| - 1]];
  }

  /** The recorded approval is the first one, and any later one is refused. */
  lemma {:induction false} ApprovalIsRecorded(tr: seq<Ev>, terms: Terms, b: bool)
    requires Safe(tr, terms)
    ensures Summarize(tr).approval == Some(b) <==> ApprovalRecorded(b) in tr
  {
    if tr != [] {
      InFrontOrLast(tr, ApprovalRecorded(b));
      ApprovalIsRecorded(tr[..|tr| - 1], terms, b);
    }
  }

  lemma {:induction false} PolicyIsRecorded(tr: seq<Ev>, terms: Terms, d: Disposition)
    requires Safe(tr, terms)
    ensures Summarize(tr).policy == Some(d) <==> PolicyDecided(d) in tr
  {
    if tr != [] {
      InFrontOrLast(tr, PolicyDecided(d));
      PolicyIsRecorded(tr[..|tr| - 1], terms, d);
    }
  }

  /** Under manual approval nothing is delegated or executed before an approval was processed,
      and the only decision recorded by then is a yes. */
  lemma ManualApprovalGatesEveryAction(tr: seq<Ev>, i: nat, terms: Terms)
    requires Safe(tr, terms) && i < |tr| && (tr[i].Executed? || tr[i].AuthorizationStarted?)
    requires PolicyDecided(RequireManualApproval) in tr[..i]
    ensures ApprovalRecorded(true) in tr[..i] && ApprovalRecorded(false) !in tr
  {
    SafeAt(tr, i, terms);
    PolicyIsRecorded(tr[..i], terms, RequireManualApproval);
    ApprovalIsRecorded(tr[..i], terms, true);
    ApprovalIsRecorded(tr, terms, true);
    ApprovalIsRecorded(tr, terms, false);
    assert ApprovalRecorded(true) in tr;
  }

  lemma FirstApprovalWins(tr: seq<Ev>, i: nat, j: nat, terms: Terms)
    requires Safe(tr, terms) && i < j < |tr| && tr[i].ApprovalRecorded?
    ensures !tr[j].ApprovalRecorded?
  {
    SafeAt(tr, j, terms);
    ApprovalIsRecorded(tr[..j], terms, tr[i].approved);
    assert tr[i] in tr[..j];
  }

  lemma BlockedRunsNeverAct(tr: seq<Ev>, i: nat, terms: Terms)
    requires Safe(tr, terms) && i < |tr| && PolicyDecided(Block) in tr[..i]
    ensures !tr[i].Executed? && !tr[i].AuthorizationStarted?
  {
    SafeAt(tr, i, terms);
    PolicyIsRecorded(tr[..i], terms, Block);
  }

  lemma {:induction false} StartedIsRecorded(tr: seq<Ev>)
    ensures Summarize(tr).started <==> AuthorizationStarted in tr
  {
    if tr != [] {
      EventEffects(Summarize(tr[..|tr| - 1]), tr[|tr| - 1]);
      InFrontOrLast(tr, AuthorizationStarted);
      StartedIsRecorded(tr[..|tr| - 1]);
    }
  }

  lemma {:induction false} MandateIsRecorded(tr: seq<Ev>)
    requires Summarize(tr).mandate.Some?
    ensures MandateAccepted(Summarize(tr).mandate.value) in tr
  {
    var e := MandateAccepted(Summarize(tr).mandate.value);
    InFrontOrLast(tr, e);
    if tr[|tr| - 1] != e { MandateIsRecorded(tr[..|tr| - 1]); }
  }

  /** The newest poll before position i. */
  lemma {:induction false} LastPoll(tr: seq<Ev>) returns (j: nat)
    requires Summarize(tr).verified
    ensures j < |tr| && tr[j] == Polled(true) && forall k | j < k < |tr| :: !tr[k].Polled?
  {
    var last := tr[|tr| - 1];
    if last == Polled(true) { j := |tr| - 1; } else { j := LastPoll(tr[..|tr| - 1]); }
  }

  /** Once a run delegated to a customer agent, every execution carries an artifact, and the
      newest poll before it was a VERIFIED one; a bare signal never executes anything. */
  lemma AgentExecutionsFollowVerifiedPolls(tr: seq<Ev>, i: nat, terms: Terms) returns (j: nat)
    requires Safe(tr, terms) && i < |tr| && tr[i].Executed? && AuthorizationStarted in tr[..i]
    ensures j < i && tr[j] == Polled(true) && forall k | j < k < i :: !tr[k].Polled?
    ensures tr[i].artifact.Some? && exists k | 0 <= k < i :: tr[k].MandateAccepted?
  {
    SafeAt(tr, i, terms);
    StartedIsRecorded(tr[..i]);
    j := LastPoll(tr[..i]);
    assert forall k | j < k < i :: tr[..i][k] == tr[k];
    MandateIsRecorded(tr[..i]);
    var m := MandateAccepted(Summarize(tr[..i]).mandate.value);
    assert m in tr[..i];
    var k :| 0 <= k < i && tr[..i][k] == m;
    assert tr[k] == m;
  }

  lemma {:induction false} KeyIsRecorded(tr: seq<Ev>, terms: Terms)
    requires Safe(tr, terms)
    ensures forall e | e in tr && e.Executed? :: Summarize(tr).key == Some(e.key)
  {
    if tr != [] {
      EventEffects(Summarize(tr[..|tr| - 1]), tr[|tr| - 1]);
      var rest := tr[..|tr| - 1];
      assert tr == rest + [tr[|tr| - 1]];
      KeyIsRecorded(rest, terms);
    }
  }

  lemma ExecutionsShareOneKey(tr: seq<Ev>, i: nat, j: nat, terms: Terms)
    requires Safe(tr, terms) && i < |tr| && j < |tr| && tr[i].Executed? && tr[j].Executed?
    ensures tr[i].key == tr[j].key
  {
    KeyIsRecorded(tr, terms);
    assert tr[i] in tr && tr[j] in tr;
  }

  lemma {:induction false} FinishIsRecorded(tr: seq<Ev>)
    ensures Summarize(tr).finish.Some? <==> exists e | e in tr :: e.Finished?
  {
    if tr != [] {
      EventEffects(Summarize(tr[..|tr| - 1]), tr[|tr| - 1]);
      var rest := tr[..|tr| - 1];
      assert tr == rest + [tr[|tr| - 1]];
      FinishIsRecorded(rest);
      assert tr[|tr| - 1] in tr;
    }
  }

  lemma {:induction false} FinishIsLast(tr: seq<Ev>)
    ensures Summarize(tr).finish.Some? ==> exists e | e in tr :: e.Finished? && Some(e.outcome) == Summarize(tr).finish
  {
    if tr != [] {
      EventEffects(Summarize(tr[..|tr| - 1]), tr[|tr| - 1]);
      assert tr == tr[..|tr| - 1] + [tr[|tr| - 1]];
      FinishIsLast(tr[..|tr| - 1]);
      assert tr[|tr| - 1] in tr;
    }
  }

  /** After a run finished it takes no signal, reconciles nothing, delegates nothing and
      executes nothing. */
  lemma NothingHappensAfterFinish(tr: seq<Ev>, i: nat, j: nat, terms: Terms)
    requires Safe(tr, terms) && i < j < |tr| && tr[i].Finished?
    ensures !tr[j].Popped? && !tr[j].Reconciled? && !tr[j].AuthorizationStarted? && !tr[j].Executed? && !tr[j].Polled?
  {
    SafeAt(tr, j, terms);
    FinishIsRecorded(tr[..j]);
    assert tr[i] in tr[..j];
  }

  /** The reconciliation behind a proof is newer than the signal being handled. */
  lemma {:induction false} ProofIsRecent(tr: seq<Ev>) returns (j: nat)
    requires Summarize(tr).proof.Some?
    ensures j < |tr| && tr[j] == Reconciled(Summarize(tr).proof.value)
    ensures forall k | j < k < |tr| :: !tr[k].Popped? && !tr[k].Reconciled?
  {
    EventEffects(Summarize(tr[..|tr| - 1]), tr[|tr| - 1]);
    var last := tr[|tr| - 1];
    if last.Reconciled? { j := |tr| - 1; } else { j := ProofIsRecent(tr[..|tr| - 1]); }
  }

  /** A run finishes as RECOVERED only on an authoritative, case-recovering reconciliation that
      was made for the very signal being handled. */
  lemma RecoveredOnlyOnProof(tr: seq<Ev>, i: nat, terms: Terms) returns (j: nat)
    requires Safe(tr, terms) && i < |tr| && tr[i].Finished? && tr[i].outcome == Recovered
    ensures j < i && tr[j].Reconciled? && tr[j].result.authoritative && tr[j].result.caseRecovered
    ensures forall k | j < k < i :: !tr[k].Popped? && !tr[k].Reconciled?
  {
    SafeAt(tr, i, terms);
    j := ProofIsRecent(tr[..i]);
    assert forall k | j < k < i :: tr[..i][k] == tr[k];
  }

  /** Reconciliations as reconcile_case returns them: a recovered one is exact. */
  predicate Exact(r: ReconciliationResult, amount: int) {
    r.caseRecovered ==>
      r.authoritative && r.paymentState == Captured && r.arrearsCollectedPaise == amount && r.providerReference.Some?
  }

  /** Every answer of reconcile_case about a case of this amount is exact, unless the mock
      provider was told of a capture and not of this amount. */
  lemma ReconcileCaseIsExact(mock: bool, scope: bool, trigger: Trigger, rows: Rows, s: Snapshot, amount: int)
    requires rows.recoveryCase.Some? && rows.recoveryCase.value.amountAtRiskPaise == amount
    requires rows.recognized.Some? ==> Accounts(rows.recoveryCase.value)
    ensures Exact(Reconcile(mock, scope, trigger, rows, s), amount) <==>
      !(mock && HintsCapture(trigger) && (if trigger.amountHint.Some? then trigger.amountHint.value else 0) != amount)
  {
    RecoveredResultIsExact(scope, trigger, rows, s);
  }

  ghost predicate ExactRun(tr: seq<Ev>, terms: Terms) {
    forall e | e in tr && e.Reconciled? :: Exact(e.result, terms.amountPaise)
  }

  predicate Recovery(e: Ev) { e.Finished? && e.outcome == Recovered }

  /** After an ending nothing is reconciled, so the reported arrears stay. */
  lemma {:induction false} RecoveredKeepsItsArrears(tr: seq<Ev>, i: nat, terms: Terms)
    requires Safe(tr, terms) && ExactRun(tr, terms) && i < |tr| && Recovery(tr[i])
    ensures Summarize(tr).arrears == terms.amountPaise && Summarize(tr).finish.Some?
    decreases |tr|
  {
    var rest, last := tr[..|tr| - 1], tr[|tr| - 1];
    FrontIsExact(tr, terms);
    assert Summarize(tr) == Apply(Summarize(rest), last) && Allowed(Summarize(rest), last, terms);
    if i < |rest| {
      assert rest[i] == tr[i];
      RecoveredKeepsItsArrears(rest, i, terms);
    } else {
      RecoveryIsExact(rest, last, terms);
    }
  }

  lemma FrontIsExact(tr: seq<Ev>, terms: Terms)
    requires tr != [] && ExactRun(tr, terms)
    ensures ExactRun(tr[..|tr| - 1], terms)
  {
    assert forall e | e in tr[..|tr| - 1] :: e in tr;
  }

  lemma RecoveryIsExact(tr: seq<Ev>, e: Ev, terms: Terms)
    requires ExactRun(tr, terms) && Recovery(e) && Allowed(Summarize(tr), e, terms)
    ensures Summarize(tr).arrears == terms.amountPaise
  {
    var j := ProofIsRecent(tr);
    assert tr[j] in tr;
    ProofSetsArrears(tr);
  }

  lemma {:induction false} ProofSetsArrears(tr: seq<Ev>)
    requires Summarize(tr).proof.Some? && Summarize(tr).proof.value.authoritative
    ensures Summarize(tr).arrears == Summarize(tr).proof.value.arrearsCollectedPaise
  {
    EventEffects(Summarize(tr[..|tr| - 1]), tr[|tr| - 1]);
    if !tr[|tr| - 1].Reconciled? { ProofSetsArrears(tr[..|tr| - 1]); }
  }

  /** With exact reconciliations a recovered run reports exactly the amount at risk, and a run
      that held a mandate sent its receipt for that amount before it finished. */
  lemma RecoveredRunCollectsTheAmountAtRisk(tr: seq<Ev>, i: nat, terms: Terms)
    requires Safe(tr, terms) && ExactRun(tr, terms) && i < |tr| && tr[i].Finished? && tr[i].outcome == Recovered
    ensures Summarize(tr).arrears == terms.amountPaise
    ensures Summarize(tr[..i]).started && Summarize(tr[..i]).mandate.Some? ==>
              exists k | 0 <= k < i :: tr[k] == ReceiptSent(terms.amountPaise)
  {
    RecoveredKeepsItsArrears(tr, i, terms);
    SafeAt(tr, i, terms);
    var j := ProofIsRecent(tr[..i]);
    assert tr[..i][j] in tr;
    if Summarize(tr[..i]).receipt {
      var k := ReceiptIsRecorded(tr[..i], terms);
      assert tr[k] == ReceiptSent(terms.amountPaise);
    }
  }

  lemma {:induction false} ReceiptIsRecorded(tr: seq<Ev>, terms: Terms) returns (k: nat)
    requires Safe(tr, terms) && Summarize(tr).receipt
    ensures k < |tr| && tr[k] == ReceiptSent(terms.amountPaise)
  {
    if tr[|tr| - 1].ReceiptSent? { k := |tr| - 1; } else { k := ReceiptIsRecorded(tr[..|tr| - 1], terms); }
  }

  /** A receipt reports exactly the amount at risk, after a reconciliation for the very signal
      being handled that is authoritative, captured, recovering, referenced and of that amount. */
  lemma ReceiptsAreExact(tr: seq<Ev>, i: nat, terms: Terms) returns (j: nat)
    requires Safe(tr, terms) && i < |tr| && tr[i].ReceiptSent?
    ensures tr[i].amountPaise == terms.amountPaise && j < i && tr[j].Reconciled?
    ensures tr[j].result.authoritative && tr[j].result.caseRecovered && tr[j].result.paymentState == Captured
    ensures tr[j].result.arrearsCollectedPaise == terms.amountPaise && tr[j].result.providerReference.Some?
    ensures forall k | j < k < i :: !tr[k].Popped? && !tr[k].Reconciled?
    ensures AuthorizationStarted in tr[..i] && exists k | 0 <= k < i :: tr[k].MandateAccepted?
  {
    SafeAt(tr, i, terms);
    j := ProofIsRecent(tr[..i]);
    assert forall k | j < k < i :: tr[..i][k] == tr[k];
    StartedIsRecorded(tr[..i]);
    MandateIsRecorded(tr[..i]);
    var m := MandateAccepted(Summarize(tr[..i]).mandate.value);
    var k :| 0 <= k < i && tr[..i][k] == m;
    assert tr[k] == m;
  }

  predicate IsAuthoritative(e: Ev) { e.Reconciled? && e.result.authoritative }

  /** The figures of the last authoritative reconciliation of a trace, or none. */
  ghost predicate LastAuthoritative(tr: seq<Ev>, arrears: int, reactivated: bool) {
    || ((forall i | 0 <= i < |tr| :: !IsAuthoritative(tr[i])) && arrears == 0 && !reactivated)
    || (exists i | 0 <= i < |tr| :: IsAuthoritative(tr[i])
          && (forall j | i < j < |tr| :: !IsAuthoritative(tr[j]))
          && tr[i].result.arrearsCollectedPaise == arrears && tr[i].result.subscriptionReactivated == reactivated)
  }

  /** Over every trace the reported arrears and reactivation are those of its last authoritative
      reconciliation, and zero and false if it has none: nothing else moves them. */
  lemma {:induction false} HintsNeverMoveMoney(tr: seq<Ev>)
    ensures LastAuthoritative(tr, Summarize(tr).arrears, Summarize(tr).reactivated)
  {
    if tr != [] {
      EventEffects(Summarize(tr[..|tr| - 1]), tr[|tr| - 1]);
      var front, last := tr[..|tr| - 1], tr[|tr| - 1];
      assert tr == front + [last];
      HintsNeverMoveMoney(front);
      if IsAuthoritative(last) {
        assert tr[|tr| - 1].result.arrearsCollectedPaise == Summarize(tr).arrears;
      } else {
        OtherEventsCarryOver(front, last, Summarize(front).arrears, Summarize(front).reactivated);
      }
    }
  }

  lemma OtherEventsCarryOver(tr: seq<Ev>, e: Ev, arrears: int, reactivated: bool)
    requires LastAuthoritative(tr, arrears, reactivated) && !IsAuthoritative(e)
    ensures LastAuthoritative(tr + [e], arrears, reactivated)
  {
    var longer := tr + [e];
    assert forall i | 0 <= i < |tr| :: longer[i] == tr[i];
    if exists i | 0 <= i < |tr| :: IsAuthoritative(tr[i]) {
      var i :| 0 <= i < |tr| && IsAuthoritative(tr[i]) && (forall j | i < j < |tr| :: !IsAuthoritative(tr[j]))
               && tr[i].result.arrearsCollectedPaise == arrears && tr[i].result.subscriptionReactivated == reactivated;
      assert IsAuthoritative(longer[i]);
    }
  }

  lemma {:induction false} BegunIsRecorded(tr: seq<Ev>) returns (j: nat)
    requires Summarize(tr).grounds.begun
    ensures j < |tr| && tr[j].Begun?
  {
    EventEffects(Summarize(tr[..|tr| - 1]), tr[|tr| - 1]);
    if tr[|tr| - 1].Begun? { j := |tr| - 1; } else { j := BegunIsRecorded(tr[..|tr| - 1]); }
  }

  /** Nothing is executed or delegated before the policy's order was acted on, which is never
      before the instant to which a DELAY holds it back. */
  lemma DelayedActionsWait(tr: seq<Ev>, i: nat, terms: Terms) returns (ordered: Ev, j: nat)
    requires Safe(tr, terms) && i < |tr| && (tr[i].Executed? || tr[i].AuthorizationStarted?)
    ensures j < i && tr[j].Begun? && ordered in tr[..j] && ordered.ActionChosen?
    ensures ordered.notBefore.Some? ==> ordered.notBefore.value <= tr[j].at
  {
    SafeAt(tr, i, terms);
    j := BegunIsRecorded(tr[..i]);
    SafeAt(tr, j, terms);
    ActionIsRecorded(tr[..j]);
    ordered := ActionChosen(Summarize(tr[..j]).grounds.action.value, Summarize(tr[..j]).grounds.notBefore);
  }

  // ------------------------------------------------------------- why runs end

  /** The signal taken at j is the one being handled at i. */
  ghost predicate HandledAt(tr: seq<Ev>, j: int, i: int, b: Body) {
    0 <= j < i <= |tr| && tr[j].Popped? && tr[j].signal.body == b && forall k | j < k < i :: !tr[k].Popped?
  }

  ghost predicate Handling(tr: seq<Ev>, i: int, b: Body) { exists j :: HandledAt(tr, j, i, b) }

  /** The active action's cancellation was sought for this reason while handling what was
      being handled at i. */
  ghost predicate Sought(tr: seq<Ev>, i: int, reason: CancelReason) {
    0 <= i <= |tr| && exists j | 0 <= j < i ::
      tr[j].CancelSought? && tr[j].reason == reason && forall k | j < k < i :: !tr[k].Popped?
  }

  ghost predicate LastPollRefused(tr: seq<Ev>, i: int) {
    0 <= i <= |tr| && exists j | 0 <= j < i :: tr[j] == Polled(false) && forall k | j < k < i :: !tr[k].Polled?
  }

  lemma {:induction false} CurrentIsHandled(tr: seq<Ev>)
    requires Summarize(tr).current.Some?
    ensures Handling(tr, |tr|, Summarize(tr).current.value.body)
  {
    EventEffects(Summarize(tr[..|tr| - 1]), tr[|tr| - 1]);
    var n, b := |tr| - 1, Summarize(tr).current.value.body;
    if tr[n].Popped? {
      assert HandledAt(tr, n, |tr|, b);
    } else {
      CurrentIsHandled(tr[..n]);
      var j :| HandledAt(tr[..n], j, n, b);
      assert forall k | 0 <= k < n :: tr[..n][k] == tr[k];
      assert HandledAt(tr, j, |tr|, b);
    }
  }

  lemma {:induction false} SoughtIsRecent(tr: seq<Ev>) returns (j: nat)
    requires Summarize(tr).grounds.sought.Some?
    ensures j < |tr| && tr[j].CancelSought? && tr[j].reason == Summarize(tr).grounds.sought.value
    ensures forall k | j < k < |tr| :: !tr[k].Popped?
  {
    var last := tr[|tr| - 1];
    EventEffects(Summarize(tr[..|tr| - 1]), last);
    if last.CancelSought? { j := |tr| - 1; } else { j := SoughtIsRecent(tr[..|tr| - 1]); }
  }

  lemma {:induction false} RefusedIsTheLastPoll(tr: seq<Ev>) returns (j: nat)
    requires Summarize(tr).grounds.refused
    ensures j < |tr| && tr[j] == Polled(false) && forall k | j < k < |tr| :: !tr[k].Polled?
  {
    var last := tr[|tr| - 1];
    EventEffects(Summarize(tr[..|tr| - 1]), last);
    if last.Polled? { j := |tr| - 1; } else { j := RefusedIsTheLastPoll(tr[..|tr| - 1]); }
  }

  lemma {:induction false} SuppressionIsRecorded(tr: seq<Ev>)
    ensures Summarize(tr).grounds.suppressed <==> OutreachSuppressed in tr
  {
    if tr != [] {
      var front, last := tr[..|tr| - 1], tr[|tr| - 1];
      SuppressionIsRecorded(front);
      InFrontOrLast(tr, OutreachSuppressed);
      EventEffects(Summarize(front), last);
      assert Summarize(tr) == Apply(Summarize(front), last);
    }
  }

  lemma {:induction false} ActionIsRecorded(tr: seq<Ev>)
    requires Summarize(tr).grounds.action.Some?
    ensures ActionChosen(Summarize(tr).grounds.action.value, Summarize(tr).grounds.notBefore) in tr
  {
    var e := ActionChosen(Summarize(tr).grounds.action.value, Summarize(tr).grounds.notBefore);
    InFrontOrLast(tr, e);
    if tr[|tr| - 1] != e { ActionIsRecorded(tr[..|tr| - 1]); }
  }

  lemma {:induction false} AnswerIsRecorded(tr: seq<Ev>)
    requires Summarize(tr).grounds.answer.Some?
    ensures ExecutionAnswered(Summarize(tr).grounds.answer.value) in tr
  {
    var e := ExecutionAnswered(Summarize(tr).grounds.answer.value);
    InFrontOrLast(tr, e);
    if tr[|tr| - 1] != e { AnswerIsRecorded(tr[..|tr| - 1]); }
  }

  /** What the trace before an ending must show for each outcome. */
  ghost predicate Caused(tr: seq<Ev>, i: nat, terms: Terms)
    requires i < |tr| && tr[i].Finished?
  {
    match tr[i].outcome
    case Open => false
    case PartiallyRecovered => false
    case Recovered =>
      (Handling(tr, i, PaymentBody) || Handling(tr, i, IntentBody(IntentAlreadyPaid))) && Sought(tr, i, PaymentArrived)
    case Disputed => Handling(tr, i, IntentBody(IntentDispute)) && Sought(tr, i, CustomerDisputed)
    case Expired =>
      tr[i].at >= terms.deadline && OutreachSuppressed !in tr[..i] && Sought(tr, i, DeadlineExpired)
    case Stopped =>
      || PolicyDecided(Block) in tr[..i]
      || (exists e | e in tr[..i] :: e.ActionChosen? && e.action == Stop)
      || (PolicyDecided(RequireManualApproval) in tr[..i] && ApprovalRecorded(false) in tr[..i])
      || (exists reason :: Handling(tr, i, CancellationBody(reason)) && Sought(tr, i, Requested(reason)))
      || (tr[i].at >= terms.deadline && OutreachSuppressed in tr[..i] && Sought(tr, i, DeadlineExpired))
    case Escalated =>
      || (Handling(tr, i, EscalationBody) && Sought(tr, i, OperatorEscalated))
      || (AuthorizationStarted in tr[..i] && LastPollRefused(tr, i))
      || ExecutionAnswered(IsFailed) in tr[..i] || ExecutionAnswered(IsRejected) in tr[..i]
      || !terms.scoped
  }

  /** Every ending of every run has its cause: EXPIRED only at or past the deadline with
      outreach never suppressed and the active action's cancellation sought, DISPUTED only for
      a dispute in hand, STOPPED and ESCALATED only for one of their grounds. */
  lemma EveryEndingHasItsCause(tr: seq<Ev>, i: nat, terms: Terms)
    requires Safe(tr, terms) && i < |tr| && tr[i].Finished?
    ensures Caused(tr, i, terms)
  {
    SafeAt(tr, i, terms);
    var front, s := tr[..i], Summarize(tr[..i]);
    SuppressionIsRecorded(front);
    StartedIsRecorded(front);
    if s.grounds.sought.Some? { SoughtInFront(tr, i); }
    if s.current.Some? { CurrentIsHandled(front); HandlingInFront(tr, i, s.current.value.body); }
    match tr[i].cause
    case BlockedByPolicy => PolicyIsRecorded(front, terms, Block);
    case StoppedByPolicy => ActionIsRecorded(front);
    case ApprovalRefused =>
      PolicyIsRecorded(front, terms, RequireManualApproval);
      ApprovalIsRecorded(front, terms, false);
    case PollRefused => RefusedInFront(tr, i);
    case ExecutionRefused => AnswerIsRecorded(front);
    case _ =>
  }

  lemma {:induction false} HoldIsRecorded(tr: seq<Ev>)
    requires Summarize(tr).grounds.heldAt.Some?
    ensures HeldBack(Summarize(tr).grounds.heldAt.value) in tr
  {
    var e := HeldBack(Summarize(tr).grounds.heldAt.value);
    InFrontOrLast(tr, e);
    EventEffects(Summarize(tr[..|tr| - 1]), tr[|tr| - 1]);
    if tr[|tr| - 1] != e { HoldIsRecorded(tr[..|tr| - 1]); }
  }

  /** Unless the run started to wait for a DELAY at or past its deadline, the deadline is met only
      after every queued signal was taken: a payment that already arrived is looked at first. */
  lemma DeadlineComesAfterTheQueue(tr: seq<Ev>, i: nat, terms: Terms)
    requires Safe(tr, terms) && i < |tr| && tr[i].CancelSought? && tr[i].reason == DeadlineExpired
    requires forall j | 0 <= j < i :: !tr[j].Finished? && !(tr[j].HeldBack? && tr[j].at >= terms.deadline)
    ensures tr[i].waiting == 0
  {
    SafeAt(tr, i, terms);
    FinishIsRecorded(tr[..i]);
    if Summarize(tr[..i]).grounds.heldAt.Some? {
      HoldIsRecorded(tr[..i]);
      var e := HeldBack(Summarize(tr[..i]).grounds.heldAt.value);
      assert e in tr[..i];
      var j :| 0 <= j < i && tr[..i][j] == e;
      assert tr[j] == e;
    }
  }

  /** The cancellation activity is asked unless the action has none of its life left, or there
      never was one and no payment arrived; and outreach is suppressed only on the customer's word. */
  lemma CancellationsAndSuppressionsAreFounded(tr: seq<Ev>, i: nat, terms: Terms)
    requires Safe(tr, terms) && i < |tr|
    ensures tr[i].CancelSought? ==>
      var status := Summarize(tr[..i]).grounds.status;
      (tr[i].asked <==> status !in {Some(IsCancelled), Some(IsFailed), Some(IsRejected)}
                        && (status.Some? || tr[i].reason in {PaymentArrived, Requested(PAYMENT_TEXT)}))
    ensures tr[i].OutreachSuppressed? ==>
      || Handling(tr, i, OptOutBody) || Handling(tr, i, IntentBody(IntentOptOut)) || Handling(tr, i, IntentBody(IntentWrongPerson))
  {
    SafeAt(tr, i, terms);
    if tr[i].OutreachSuppressed? {
      CurrentIsHandled(tr[..i]);
      HandlingInFront(tr, i, Summarize(tr[..i]).current.value.body);
    }
  }

  lemma SoughtInFront(tr: seq<Ev>, i: nat)
    requires i <= |tr| && Summarize(tr[..i]).grounds.sought.Some?
    ensures Sought(tr, i, Summarize(tr[..i]).grounds.sought.value)
  {
    var j := SoughtIsRecent(tr[..i]);
    assert tr[j].CancelSought? && tr[j].reason == Summarize(tr[..i]).grounds.sought.value;
    assert forall k | j < k < i :: tr[..i][k] == tr[k];
  }

  lemma HandlingInFront(tr: seq<Ev>, i: nat, b: Body)
    requires i <= |tr| && Handling(tr[..i], i, b)
    ensures Handling(tr, i, b)
  {
    var j :| HandledAt(tr[..i], j, i, b);
    assert forall k | j < k < i :: tr[..i][k] == tr[k];
    assert HandledAt(tr, j, i, b);
  }

  lemma RefusedInFront(tr: seq<Ev>, i: nat)
    requires i <= |tr| && Summarize(tr[..i]).grounds.refused
    ensures LastPollRefused(tr, i)
  {
    var j := RefusedIsTheLastPoll(tr[..i]);
    assert tr[j] == Polled(false);
    assert forall k | j < k < i :: tr[..i][k] == tr[k];
  }
}
