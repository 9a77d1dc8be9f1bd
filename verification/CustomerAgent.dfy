/** The customer agent's task protocol: concurrent approve, reject, cancel and receipt calls on
    one task, each reading a copy, deciding on it, and saving it under optimistic revisions. */
module CustomerAgent {
  import opened Domain
  import opened TaskStores

  datatype CallError = TaskNotFound | Unauthorized | Conflict | Expired | InvalidMandate

  datatype Choice = Approve | Reject

  datatype Decision = Decision(
    choice: Choice, merchantId: string, caseId: string, exactAmountPaise: int, surfaceReference: string)

  /** What a decide call draws from its surroundings; `capability` is None when no approval
      secret is configured. */
  datatype Draw = Draw(checkedAt: int, now: int, capability: Option<bool>, mandateId: string, nonce: string, ttl: int)

  function MandateFor(t: Task, x: Draw): Mandate {
    var r := t.request;
    Mandate(x.mandateId, x.nonce, t.id, r.merchantId, r.caseId, r.customerId, r.recoveryActionId,
            r.failedInvoiceId, r.exactAmountPaise, r.currency, r.surfaceType, r.surfaceReference,
            x.now, Min(r.expiresAt, x.now + x.ttl))
  }

  /** decide: the task copy it will try to save. */
  function Decided(t: Task, d: Decision, x: Draw): (decided: Result<Task, CallError>)
    ensures decided.Ok? ==>
      && t.state == AuthRequired && x.now < t.request.expiresAt && x.capability != Some(false)
      && d.exactAmountPaise == t.request.exactAmountPaise && d.surfaceReference == t.request.surfaceReference
      && (decided.value.state == Working <==> d.choice.Approve?)
      && (decided.value.state == Canceled <==> d.choice.Reject?)
  {
    var r := t.request;
    if x.capability == Some(false) then Err(Unauthorized)
    else if x.capability.Some? && r.expiresAt <= x.checkedAt then Err(Unauthorized)
    else if t.state != AuthRequired then Err(Conflict)
    else if (d.merchantId, d.caseId, d.exactAmountPaise, d.surfaceReference)
         != (r.merchantId, r.caseId, r.exactAmountPaise, r.surfaceReference) then Err(Conflict)
    else if r.expiresAt <= x.now then Err(CallError.Expired)
    else if d.choice == Reject then Ok(t.(state := Canceled, updatedAt := x.now))
    else
      var m := MandateFor(t, x);
      if m.expiresAt <= m.issuedAt then Err(InvalidMandate)
      else Ok(t.(state := Working, artifacts := [Authorization(m)], updatedAt := x.now))
  }

  /** A decision is admitted exactly on an open, unexpired request it names in full, under an
      unexpired capability where one is required; a rejection closes the task, and an approval
      issues one mandate for exactly the request, which lives for its ttl but never longer than
      the request. */
  lemma DecisionIsAdmittedIff(t: Task, d: Decision, x: Draw)
    ensures Decided(t, d, x) == Err(Unauthorized) <==>
      x.capability.Some? && (!x.capability.value || t.request.expiresAt <= x.checkedAt)
    ensures Decided(t, d, x).Ok? <==>
      && (x.capability.Some? ==> x.capability.value && x.checkedAt < t.request.expiresAt)
      && t.state == AuthRequired && x.now < t.request.expiresAt
      && d.merchantId == t.request.merchantId && d.caseId == t.request.caseId
      && d.exactAmountPaise == t.request.exactAmountPaise && d.surfaceReference == t.request.surfaceReference
      && (d.choice.Approve? ==> x.ttl > 0)
    ensures Decided(t, d, x).Ok? && d.choice.Reject? ==> Decided(t, d, x).value == t.(state := Canceled, updatedAt := x.now)
    ensures Decided(t, d, x).Ok? && d.choice.Approve? ==>
      var next := Decided(t, d, x).value;
      && |next.artifacts| == 1 && next.artifacts[0].Authorization?
      && next == t.(state := Working, artifacts := next.artifacts, updatedAt := x.now)
      && var m, r := next.artifacts[0].mandate, t.request;
      && m.issuedAt == x.now && m.expiresAt <= x.now + x.ttl && m.expiresAt <= r.expiresAt
      && (m.expiresAt == x.now + x.ttl || m.expiresAt == r.expiresAt)
      && m.mandateId == x.mandateId && m.nonce == x.nonce && m.taskId == t.id
      && m.merchantId == r.merchantId && m.caseId == r.caseId && m.customerId == r.customerId
      && m.recoveryActionId == r.recoveryActionId && m.failedInvoiceId == r.failedInvoiceId
      && m.exactAmountPaise == r.exactAmountPaise && m.currency == r.currency
      && m.surfaceType == r.surfaceType && m.surfaceReference == r.surfaceReference
  {
  }

  predicate Final(s: TaskState) { s == Completed || s == Canceled }

  function CancelledCopy(t: Task, now: int): Task { t.(state := Canceled, updatedAt := now) }

  /** A message that is already in the history: a repeat, or the id reused for other data. */
  datatype Repeat = NotSeen | Duplicate | Reused

  function Seen(history: seq<Message>, m: Message): Repeat {
    if history == [] then NotSeen
    else if history[0].id != m.id then Seen(history[1..], m)
    else if history[0] != m then Reused else Duplicate
  }

  function ReceiptScope(r: Receipt): (string, string, string, string, string, string, int, string) {
    (r.taskId, r.mandateId, r.merchantId, r.caseId, r.recoveryActionId, r.failedInvoiceId, r.exactAmountPaise, r.currency)
  }

  predicate ReceiptFits(r: Receipt, m: Mandate, t: Task) {
    ReceiptScope(r) == (t.id, m.mandateId, t.request.merchantId, t.request.caseId, m.recoveryActionId,
                        m.failedInvoiceId, t.request.exactAmountPaise, t.request.currency)
  }

  /** _complete_with_receipt up to its save; None means the copy itself is the answer. */
  function Completing(t: Task, message: Message, receipt: Receipt, now: int): Result<Option<Task>, CallError> {
    match Seen(t.history, message)
    case Reused => Err(Conflict)
    case Duplicate => Ok(None)
    case NotSeen =>
      if t.state != Working || message.id != receipt.receiptId then Err(Conflict)
      else if t.artifacts == [] || !t.artifacts[0].Authorization? then Err(Conflict)
      else if !ReceiptFits(receipt, t.artifacts[0].mandate, t) then Err(Conflict)
      else Ok(Some(t.(state := Completed, artifacts := t.artifacts + [Payment(receipt)],
                      history := t.history + [message], updatedAt := now)))
  }

  /** The history decides by the first message under the id. */
  lemma {:induction false} SeenIsTheFirstUnderTheId(history: seq<Message>, m: Message)
    ensures Seen(history, m) == NotSeen <==> forall i | 0 <= i < |history| :: history[i].id != m.id
    ensures Seen(history, m) == Duplicate <==>
      exists i | 0 <= i < |history| :: history[i] == m && forall j | 0 <= j < i :: history[j].id != m.id
  {
    if history != [] {
      SeenIsTheFirstUnderTheId(history[1..], m);
      assert forall i | 0 <= i < |history| - 1 :: history[1..][i] == history[i + 1];
      if history[0].id != m.id && Seen(history[1..], m) == Duplicate {
        var i :| 0 <= i < |history| - 1 && history[1..][i] == m && forall j | 0 <= j < i :: history[1..][j].id != m.id;
        assert history[i + 1] == m && forall j | 0 <= j < i + 1 :: history[j].id != m.id;
      }
      if history[0].id == m.id && history[0] == m { assert history[0] == m; }
      if i: int :| 0 < i < |history| && history[i] == m && forall j | 0 <= j < i :: history[j].id != m.id {
        assert history[1..][i - 1] == m && forall j | 0 <= j < i - 1 :: history[1..][j].id != m.id;
      }
    }
  }

  /** A receipt completes a task exactly when its message is new and named after it, the task is
      at work under a mandate, and receipt, mandate and request agree on everything paid for. */
  lemma ReceiptCompletesIff(t: Task, message: Message, receipt: Receipt, now: int)
    ensures Completing(t, message, receipt, now).Ok? && Completing(t, message, receipt, now).value.Some? <==>
      && (forall i | 0 <= i < |t.history| :: t.history[i].id != message.id)
      && t.state == Working && message.id == receipt.receiptId
      && t.artifacts != [] && t.artifacts[0].Authorization?
      && receipt.taskId == t.id && receipt.mandateId == t.artifacts[0].mandate.mandateId
      && receipt.merchantId == t.request.merchantId && receipt.caseId == t.request.caseId
      && receipt.recoveryActionId == t.artifacts[0].mandate.recoveryActionId
      && receipt.failedInvoiceId == t.artifacts[0].mandate.failedInvoiceId
      && receipt.exactAmountPaise == t.request.exactAmountPaise && receipt.currency == t.request.currency
    ensures Completing(t, message, receipt, now).Ok? && Completing(t, message, receipt, now).value.Some? ==>
      Completing(t, message, receipt, now).value.value ==
        t.(state := Completed, artifacts := t.artifacts + [Payment(receipt)], history := t.history + [message], updatedAt := now)
    ensures Completing(t, message, receipt, now) == Ok(None) <==>
      exists i | 0 <= i < |t.history| :: t.history[i] == message && forall j | 0 <= j < i :: t.history[j].id != message.id
  {
    SeenIsTheFirstUnderTheId(t.history, message);
  }

  // ----------------------------------------------------------- concurrent calls

  datatype Kind = Deciding | Cancelling(attempt: nat) | Receiving(message: Message)

  /** A call that waits for its save, or a cancellation that waits to read again. */
  datatype Call = SaveNext(kind: Kind, copy: Task, next: Task) | ReadNext(attempt: nat)

  datatype World = World(task: Task, calls: map<nat, Call>, decisions: nat, saves: nat, trail: seq<TaskState>)

  datatype Event =
    | Decide(p: nat, decision: Decision, draw: Draw)
    | Cancel(p: nat, now: int)
    | ReadAgain(p: nat, now: int)
    | Receive(p: nat, message: Message, receipt: Receipt, now: int)
    | Commit(p: nat)
    | Abandon(p: nat)

  function Begin(w: World, p: nat, kind: Kind, next: Task): World {
    w.(calls := w.calls[p := SaveNext(kind, w.task, next)])
  }

  function BeginCancel(w: World, p: nat, attempt: nat, now: int): World {
    if Final(w.task.state) then w.(calls := w.calls - {p})
    else Begin(w, p, Cancelling(attempt), CancelledCopy(w.task, now))
  }

  function Step(w: World, e: Event): World {
    match e
    case Decide(p, d, x) =>
      if p in w.calls then w
      else (match Decided(w.task, d, x) case Ok(next) => Begin(w, p, Deciding, next) case Err(_) => w)
    case Cancel(p, now) => if p in w.calls then w else BeginCancel(w, p, 0, now)
    case ReadAgain(p, now) =>
      if p in w.calls && w.calls[p].ReadNext? then BeginCancel(w, p, w.calls[p].attempt, now) else w
    case Receive(p, message, receipt, now) =>
      if p in w.calls then w
      else (match Completing(w.task, message, receipt, now)
            case Ok(Some(next)) => Begin(w, p, Receiving(message), next)
            case _ => w)
    case Commit(p) => if p in w.calls && w.calls[p].SaveNext? then CommitSave(w, p) else w
    case Abandon(p) => w.(calls := w.calls - {p})
  }

  /** store.save with the revision of the copy, and what each call does on a conflict. */
  function CommitSave(w: World, p: nat): World
    requires p in w.calls && w.calls[p].SaveNext?
  {
    var c := w.calls[p];
    if w.task.revision == c.copy.revision then
      World(c.next.(revision := w.task.revision + 1), w.calls - {p},
            w.decisions + (if c.kind.Deciding? then 1 else 0), w.saves + 1, w.trail + [c.next.state])
    else if c.kind.Cancelling? && c.kind.attempt < 2 then w.(calls := w.calls[p := ReadNext(c.kind.attempt + 1)])
    else w.(calls := w.calls - {p})
  }

  function Run(w: World, es: seq<Event>): World
    decreases |es|
  {
    if es == [] then w else Run(Step(w, es[0]), es[1..])
  }

  /** A task as create_once stores it. */
  predicate Fresh(t: Task) { t.state == AuthRequired && t.artifacts == [] && t.revision == 1 }

  function Start(t: Task): World { World(t, map[], 0, 0, [t.state]) }

  // ------------------------------------------------------------------ invariants

  predicate Legal(a: TaskState, b: TaskState) {
    (a == AuthRequired && (b == Working || b == Canceled)) || (a == Working && (b == Completed || b == Canceled))
  }

  /** A mandate covers exactly its task's request and lives no longer than it. */
  predicate Covers(m: Mandate, t: Task) {
    var r := t.request;
    && (m.taskId, m.merchantId, m.caseId, m.customerId, m.recoveryActionId, m.failedInvoiceId)
       == (t.id, r.merchantId, r.caseId, r.customerId, r.recoveryActionId, r.failedInvoiceId)
    && (m.exactAmountPaise, m.currency, m.surfaceType, m.surfaceReference)
       == (r.exactAmountPaise, r.currency, r.surfaceType, r.surfaceReference)
    && m.issuedAt < m.expiresAt <= r.expiresAt
  }

  /** Which artifacts a task holds in each state. */
  predicate Documented(t: Task) {
    var a := t.artifacts;
    match t.state
    case AuthRequired => a == []
    case Working => |a| == 1 && a[0].Authorization? && Covers(a[0].mandate, t)
    case Completed => |a| == 2 && a[0].Authorization? && a[1].Payment? && Covers(a[0].mandate, t)
                      && ReceiptFits(a[1].receipt, a[0].mandate, t)
    case Canceled => a == [] || (|a| == 1 && a[0].Authorization? && Covers(a[0].mandate, t))
    case TaskFailed => false
  }

  /** A pending call's copy is an older revision, or it is the task itself; every attempt a
      cancellation lost has cost the task a revision. */
  predicate CallInv(t: Task, c: Call) {
    match c
    case ReadNext(attempt) => attempt <= 2 && attempt < t.revision
    case SaveNext(kind, copy, next) =>
      && (kind.Cancelling? ==> kind.attempt < c.copy.revision && kind.attempt <= 2)
      && c.copy.revision <= t.revision
      && (c.copy.revision == t.revision ==> c.copy == t)
      && Legal(c.copy.state, c.next.state)
      && (c.kind.Deciding? ==> c.copy.state == AuthRequired)
      && Documented(c.next) && c.next.id == t.id && c.next.request == t.request
  }

  ghost predicate Inv(w: World) {
    && Documented(w.task)
    && (forall p | p in w.calls :: CallInv(w.task, w.calls[p]))
    && w.task.revision == 1 + w.saves == |w.trail|
    && (w.task.state == AuthRequired ==> w.decisions == 0)
    && w.decisions <= 1
    && LegalTrail(w.trail) && w.trail[|w.trail| - 1] == w.task.state
  }

  /** The states a task went through, oldest first, each step legal. */
  ghost predicate LegalTrail(trail: seq<TaskState>) {
    && trail != [] && trail[0] == AuthRequired
    && (forall i | 0 < i < |trail| :: Legal(trail[i - 1], trail[i]))
  }

  lemma CommitKeeps(w: World, p: nat)
    requires Inv(w) && p in w.calls && w.calls[p].SaveNext?
    ensures Inv(CommitSave(w, p))
  {
    var v := CommitSave(w, p);
    assert CallInv(w.task, w.calls[p]);
    if w.task.revision == w.calls[p].copy.revision {
      forall q | q in v.calls ensures CallInv(v.task, v.calls[q]) { assert CallInv(w.task, w.calls[q]); }
      assert Documented(v.task);
    }
  }

  lemma BeginKeeps(w: World, p: nat, kind: Kind, next: Task)
    requires Inv(w) && CallInv(w.task, SaveNext(kind, w.task, next))
    ensures Inv(Begin(w, p, kind, next))
  {
  }

  lemma DecidedIsSound(t: Task, d: Decision, x: Draw)
    requires Documented(t) && Decided(t, d, x).Ok?
    ensures CallInv(t, SaveNext(Deciding, t, Decided(t, d, x).value))
  {
  }

  lemma CompletingIsSound(t: Task, message: Message, receipt: Receipt, now: int)
    requires Documented(t) && Completing(t, message, receipt, now).Ok? && Completing(t, message, receipt, now).value.Some?
    ensures CallInv(t, SaveNext(Receiving(message), t, Completing(t, message, receipt, now).value.value))
  {
  }

  lemma StepKeeps(w: World, e: Event)
    requires Inv(w)
    ensures Inv(Step(w, e))
  {
    match e
    case Decide(p, d, x) => if p !in w.calls && Decided(w.task, d, x).Ok? {
      DecidedIsSound(w.task, d, x);
      BeginKeeps(w, p, Deciding, Decided(w.task, d, x).value);
    }
    case Cancel(p, now) => if p !in w.calls && !Final(w.task.state) { BeginKeeps(w, p, Cancelling(0), CancelledCopy(w.task, now)); }
    case ReadAgain(p, now) => if p in w.calls && w.calls[p].ReadNext? && !Final(w.task.state) {
      BeginKeeps(w, p, Cancelling(w.calls[p].attempt), CancelledCopy(w.task, now));
    }
    case Receive(p, message, receipt, now) =>
      if p !in w.calls {
        match Completing(w.task, message, receipt, now)
        case Ok(Some(next)) =>
          CompletingIsSound(w.task, message, receipt, now);
          BeginKeeps(w, p, Receiving(message), next);
        case _ =>
      }
    case Commit(p) => if p in w.calls && w.calls[p].SaveNext? { CommitKeeps(w, p); }
    case Abandon(p) =>
  }

  lemma {:induction false} RunKeeps(w: World, es: seq<Event>)
    requires Inv(w)
    ensures Inv(Run(w, es))
    decreases |es|
  {
    if es != [] {
      StepKeeps(w, es[0]);
      RunKeeps(Step(w, es[0]), es[1..]);
    }
  }

  // ----------------------------------------------------------------- the results

  /** Over every interleaving the task only ever moves AUTH_REQUIRED to WORKING or CANCELED and
      WORKING to COMPLETED or CANCELED, and its revision counts its successful saves. */
  lemma OnlyLegalTransitions(t: Task, es: seq<Event>)
    requires Fresh(t)
    ensures var w := Run(Start(t), es);
            && LegalTrail(w.trail) && w.trail[|w.trail| - 1] == w.task.state
            && w.task.revision == 1 + w.saves == |w.trail| <= 3
  {
    RunKeeps(Start(t), es);
    TrailIsShort(Run(Start(t), es).trail);
  }

  lemma TrailIsShort(trail: seq<TaskState>)
    requires LegalTrail(trail)
    ensures |trail| <= 3 && (|trail| == 3 ==> Final(trail[2])) && (|trail| == 2 ==> !(trail[1] == AuthRequired))
  {
    assert |trail| > 1 ==> Legal(trail[0], trail[1]);
    assert |trail| > 2 ==> Legal(trail[1], trail[2]);
    assert |trail| > 3 ==> Legal(trail[2], trail[3]);
  }

  /** COMPLETED and CANCELED absorb: no later event touches the task. */
  lemma {:induction false} FinalStatesAbsorb(w: World, es: seq<Event>)
    requires Inv(w) && Final(w.task.state)
    ensures Run(w, es).task == w.task
    decreases |es|
  {
    if es != [] {
      if es[0].Commit? && es[0].p in w.calls { assert CallInv(w.task, w.calls[es[0].p]); }
      StepKeeps(w, es[0]);
      FinalStatesAbsorb(Step(w, es[0]), es[1..]);
    }
  }

  /** A cancellation never gives up: a task has at most two saves in it, so the third attempt
      of a cancellation always finds it final and has nothing left to save. */
  lemma CancellationNeverGivesUp(t: Task, es: seq<Event>, p: nat)
    requires Fresh(t)
    ensures var w := Run(Start(t), es);
            (p in w.calls && w.calls[p].SaveNext? && w.calls[p].kind.Cancelling?) ==>
              w.calls[p].kind.attempt < 2 && (p in CommitSave(w, p).calls <==> w.task.revision != w.calls[p].copy.revision)
    ensures var w := Run(Start(t), es);
            p in w.calls && w.calls[p] == ReadNext(2) ==> Final(w.task.state)
  {
    RunKeeps(Start(t), es);
    var w := Run(Start(t), es);
    if p in w.calls { assert CallInv(w.task, w.calls[p]); }
    TrailIsShort(w.trail);
  }

  /** However approvals and rejections race, at most one of them is told it succeeded. */
  lemma AtMostOneDecision(t: Task, es: seq<Event>)
    requires Fresh(t)
    ensures Run(Start(t), es).decisions <= 1
  {
    RunKeeps(Start(t), es);
  }

  /** The task never holds more than one mandate, covering exactly its request, and never more
      than one receipt, whose scope is that mandate's. */
  lemma OneMandateOneReceipt(t: Task, es: seq<Event>)
    requires Fresh(t)
    ensures var w := Run(Start(t), es).task;
            && |w.artifacts| <= 2
            && (|w.artifacts| >= 1 ==> w.artifacts[0].Authorization? && Covers(w.artifacts[0].mandate, w))
            && (|w.artifacts| == 2 ==> w.artifacts[1].Payment? && w.state == Completed
                                       && ReceiptFits(w.artifacts[1].receipt, w.artifacts[0].mandate, w))
  {
    RunKeeps(Start(t), es);
  }

  /** The request a customer approved is the request that was created. */
  lemma {:induction false} RequestNeverChanges(w: World, es: seq<Event>)
    requires Inv(w)
    ensures Run(w, es).task.request == w.task.request && Run(w, es).task.id == w.task.id
    decreases |es|
  {
    if es != [] {
      if es[0].Commit? && es[0].p in w.calls { assert CallInv(w.task, w.calls[es[0].p]); }
      StepKeeps(w, es[0]);
      RequestNeverChanges(Step(w, es[0]), es[1..]);
    }
  }

  /** Completing again with the message that completed the task is recognized as a repeat, so
      a redelivered receipt changes nothing and fails nobody. */
  lemma RedeliveredReceiptIsADuplicate(t: Task, message: Message, receipt: Receipt, now: int, later: int)
    requires Completing(t, message, receipt, now).Ok? && Completing(t, message, receipt, now).value.Some?
    ensures Completing(Completing(t, message, receipt, now).value.value, message, receipt, later) == Ok(None)
  {
    SeenAfterAppend(t.history, message);
  }

  lemma {:induction false} SeenAfterAppend(history: seq<Message>, m: Message)
    requires Seen(history, m) == NotSeen
    ensures Seen(history + [m], m) == Duplicate
  {
    if history != [] {
      SeenAfterAppend(history[1..], m);
      assert (history + [m])[1..] == history[1..] + [m];
    }
  }

  // -------------------------------------------------- what the service saves

  /** The copies a call may save of a task it read. */
  ghost predicate SavedFrom(t: Task, next: Task) {
    || (exists d, x :: Decided(t, d, x) == Ok(next))
    || (exists now :: next == CancelledCopy(t, now))
    || (exists m, r, now :: Completing(t, m, r, now) == Ok(Some(next)))
  }

  ghost function Held(s: Store): set<Task> { set id | id in s.tasks :: s.tasks[id] }

  /** A history of the service's calls: creations, and saves made from a copy that was in the
      store at some time before, under the revision it had then. */
  ghost predicate FromService(s: Store, read: set<Task>, ops: seq<Op>)
    requires StoreInv(s)
    decreases |ops|
  {
    ops == [] ||
    (&& (ops[0].Saving? ==> exists t :: t in read && SavedFrom(t, ops[0].task) && ops[0].expected == t.revision)
     && (DoKeeps(s, ops[0]); FromService(Do(s, ops[0]), read + Held(Do(s, ops[0])), ops[1..])))
  }

  /** Whatever was read is a task of the store with the request it has now. */
  ghost predicate ReadsAgree(s: Store, read: set<Task>) {
    forall t | t in read :: t.id in s.tasks && t.request == s.tasks[t.id].request
  }

  lemma ServiceStepKeepsRequests(s: Store, read: set<Task>, op: Op)
    requires StoreInv(s) && ReadsAgree(s, read)
    requires op.Saving? ==> exists t :: t in read && SavedFrom(t, op.task) && op.expected == t.revision
    ensures op.Saving? ==> op.task.id in s.tasks && op.task.request == s.tasks[op.task.id].request
    ensures StoreInv(Do(s, op)) && ReadsAgree(Do(s, op), read + Held(Do(s, op)))
  {
    DoKeeps(s, op);
    if op.Saving? {
      var t :| t in read && SavedFrom(t, op.task) && op.expected == t.revision;
      SavedFromKeepsRequest(t, op.task);
      SaveKeepsReads(s, read, op.task, op.expected);
    } else {
      CreationKeepsReads(s, read, op.key, op.task);
    }
  }

  lemma SavedFromKeepsRequest(t: Task, next: Task)
    requires SavedFrom(t, next)
    ensures next.id == t.id && next.request == t.request
  {
  }

  lemma SaveKeepsReads(s: Store, read: set<Task>, task: Task, expected: nat)
    requires StoreInv(s) && ReadsAgree(s, read) && task.id in s.tasks && task.request == s.tasks[task.id].request
    ensures var t := Saved(s, task, expected).0; ReadsAgree(t, read + Held(t))
  {
  }

  lemma CreationKeepsReads(s: Store, read: set<Task>, key: string, task: Task)
    requires StoreInv(s) && ReadsAgree(s, read)
    ensures var t := Created(s, key, task).0; ReadsAgree(t, read + Held(t))
  {
  }

  /** The service's saves never rewrite a request. */
  lemma {:induction false} ServiceKeepsRequests(s: Store, read: set<Task>, ops: seq<Op>)
    requires StoreInv(s) && ReadsAgree(s, read) && FromService(s, read, ops)
    ensures KeepsRequests(s, ops)
    decreases |ops|
  {
    if ops != [] {
      ServiceStepKeepsRequests(s, read, ops[0]);
      ServiceKeepsRequests(Do(s, ops[0]), read + Held(Do(s, ops[0])), ops[1..]);
    }
  }

  /** So asking again under a key, after any history of the service's calls, returns the task
      the key opened for an equal request, and fails without a change for any other. */
  lemma AskingAgainReturnsTheTask(s: Store, key: string, first: Task, between: seq<Op>, again: Task)
    requires StoreInv(s) && key !in s.keys && first.id !in s.tasks
    requires StoreInv(Created(s, key, first).0)
    requires FromService(Created(s, key, first).0, Held(Created(s, key, first).0), between)
    ensures var later := DoAll(Created(s, key, first).0, between);
            var (after, r) := Created(later, key, again);
            && after == later
            && (again.request == first.request ==> first.id in later.tasks && r == Ok(later.tasks[first.id]))
            && (again.request != first.request ==> r == Err(IdempotencyConflict))
  {
    var created := Created(s, key, first).0;
    ServiceKeepsRequests(created, Held(created), between);
    RepeatedCreation(s, key, first, between, again);
  }

  // ------------------------------------------------------------------ the service

  /** What other callers do to the store while a call waits for it. */
  datatype Window = Window(others: seq<Op>, now: int)

  /** cancel_task: read, save, and read again after a lost save, at most once per window. */
  ghost function CancelAttempts(s: Store, id: string, windows: seq<Window>): (Store, Result<Task, CallError>)
    requires StoreInv(s)
    decreases |windows|
  {
    if id !in s.tasks then (s, Err(TaskNotFound))
    else if windows == [] then (s, Err(Conflict))
    else if Final(s.tasks[id].state) then (s, Ok(s.tasks[id]))
    else
      var t := DoAll(s, windows[0].others);
      var copy := CancelledCopy(s.tasks[id], windows[0].now);
      var (after, r) := Saved(t, copy, copy.revision);
      if r.Ok? then (after, Ok(r.value)) else CancelAttempts(t, id, windows[1..])
  }

  ghost predicate HarmlessWindows(s: Store, windows: seq<Window>)
    requires StoreInv(s)
    decreases |windows|
  {
    windows == [] ||
    (Harmless(s, windows[0].others) && HarmlessWindows(DoAll(s, windows[0].others), windows[1..]))
  }

  class CustomerAgentService {
    const store: InMemoryTaskStore

    constructor (tasks: InMemoryTaskStore)
      ensures store == tasks
    {
      store := tasks;
    }

    /** An unexpired request opens a task that awaits authorization; asking again under the
        same key returns the task already open. */
    method CreateAuthorizationTask(message: Message, request: Request, id: string, now: int)
      returns (r: Result<Task, CallError>)
      requires store.Valid() && id != "" && id !in store.tasks
      modifies store
      ensures store.Valid()
      ensures request.expiresAt <= now ==> r == Err(CallError.Expired) && store.Abs() == old(store.Abs())
      ensures now < request.expiresAt ==>
        var task := Task(id, AuthRequired, [], [message], request, now, 1);
        var (after, created) := Created(old(store.Abs()), request.idempotencyKey, task);
        store.Abs() == after && r == if created.Ok? then Ok(created.value) else Err(Conflict)
      ensures r.Ok? ==> r.value.request == request && (r.value.id !in old(store.tasks) ==> Fresh(r.value))
    {
      if request.expiresAt <= now { return Err(CallError.Expired); }
      var task := Task(id, AuthRequired, [], [message], request, now, 1);
      var created := store.CreateOnce(request.idempotencyKey, task);
      return if created.Ok? then Ok(created.value) else Err(Conflict);
    }

    /** A decision is accepted exactly when it is admissible on the task as read and no other
        save of the task came in between; otherwise this call changes nothing. */
    method Decide(id: string, d: Decision, x: Draw, others: seq<Op>) returns (r: Result<Task, CallError>)
      requires store.Valid() && Harmless(store.Abs(), others)
      modifies store
      ensures store.Valid()
      ensures id !in old(store.tasks) ==> r == Err(TaskNotFound) && store.Abs() == old(store.Abs())
      ensures id in old(store.tasks) ==> match Decided(old(store.tasks)[id], d, x)
        case Err(e) => r == Err(e) && store.Abs() == old(store.Abs())
        case Ok(next) =>
          && (r.Ok? <==> SavesOf(old(store.Abs()), others, id) == 0)
          && store.Abs() == Saved(DoAll(old(store.Abs()), others), next, next.revision).0
          && (r.Ok? ==> id in store.tasks && store.tasks[id] == r.value == next.(revision := next.revision + 1))
          && (r.Err? ==> r == Err(Conflict) && store.Abs() == DoAll(old(store.Abs()), others))
    {
      var found := store.Get(id);
      if found.None? { return Err(TaskNotFound); }
      var task := found.value;
      var decided := Decided(task, d, x);
      if decided.Err? { return Err(decided.error); }
      SaveSucceedsIffNothingIntervened(store.Abs(), others, decided.value);
      store.Interleave(others);
      var saved := store.Save(decided.value, task.revision);
      return if saved.Ok? then Ok(saved.value) else Err(Conflict);
    }

    /** Cancellation retries only lost saves, and an accepted one leaves the task final. */
    method CancelTask(id: string, windows: seq<Window>) returns (r: Result<Task, CallError>)
      requires store.Valid() && |windows| == 3
      requires HarmlessWindows(store.Abs(), windows)
      modifies store
      ensures store.Valid()
      ensures (store.Abs(), r) == CancelAttempts(old(store.Abs()), id, windows)
      ensures r.Ok? ==> id in store.tasks && store.tasks[id] == r.value && Final(r.value.state)
    {
      var attempt := 0;
      assert windows[0..] == windows;
      while attempt < 3
        invariant 0 <= attempt <= 3 && store.Valid()
        invariant HarmlessWindows(store.Abs(), windows[attempt..])
        invariant CancelAttempts(store.Abs(), id, windows[attempt..]) == CancelAttempts(old(store.Abs()), id, windows)
        invariant attempt > 0 ==> id in store.tasks
      {
        var found := store.Get(id);
        if found.None? { return Err(TaskNotFound); }
        var task := found.value;
        if Final(task.state) { return Ok(task); }
        var window := windows[attempt];
        assert windows[attempt..][1..] == windows[attempt + 1..];
        RevisionCountsSaves(store.Abs(), window.others, id);
        store.Interleave(window.others);
        var saved := store.Save(CancelledCopy(task, window.now), task.revision);
        if saved.Ok? { return Ok(saved.value); }
        attempt := attempt + 1;
      }
      return Err(Conflict);
    }

    /** A receipt completes the task once: a redelivery, seen before the save or after losing
        it, returns the task unchanged. */
    method CompleteWithReceipt(id: string, message: Message, receipt: Receipt, others: seq<Op>, now: int)
      returns (r: Result<Task, CallError>)
      requires store.Valid() && Harmless(store.Abs(), others)
      modifies store
      ensures store.Valid()
      ensures id !in old(store.tasks) ==> r == Err(TaskNotFound) && store.Abs() == old(store.Abs())
      ensures id in old(store.tasks) ==> match Completing(old(store.tasks)[id], message, receipt, now)
        case Err(e) => r == Err(e) && store.Abs() == old(store.Abs())
        case Ok(None) => r == Ok(old(store.tasks)[id]) && store.Abs() == old(store.Abs())
        case Ok(Some(next)) =>
          && store.Abs() == Saved(DoAll(old(store.Abs()), others), next, next.revision).0
          && id in store.tasks
          && (SavesOf(old(store.Abs()), others, id) == 0 ==> r == Ok(next.(revision := next.revision + 1)))
          && (SavesOf(old(store.Abs()), others, id) > 0 ==> r == match Seen(store.tasks[id].history, message)
               case Duplicate => Ok(store.tasks[id]) case _ => Err(Conflict))
    {
      var found := store.Get(id);
      if found.None? { return Err(TaskNotFound); }
      var task := found.value;
      var completing := Completing(task, message, receipt, now);
      if completing.Err? { return Err(completing.error); }
      if completing.value.None? { return Ok(task); }
      var next := completing.value.value;
      SaveSucceedsIffNothingIntervened(store.Abs(), others, next);
      RevisionCountsSaves(store.Abs(), others, id);
      store.Interleave(others);
      var saved := store.Save(next, task.revision);
      if saved.Ok? { return Ok(saved.value); }
      var latest := store.Get(id);
      if latest.None? { return Err(TaskNotFound); }
      return if Seen(latest.value.history, message) == Duplicate then Ok(latest.value) else Err(Conflict);
    }
  }
}
