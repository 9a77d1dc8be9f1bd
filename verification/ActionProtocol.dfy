/** The life of one durable action as a step system.

    Any number of activity deliveries, cancellations and operator commands act on the
    action row. Each of them stops at every await, where others may run, where it may die
    on its own (an exception or a timeout), and where the whole worker process may crash.
    `links` counts the provider's links under the action's reference, which is a hash of
    the row's unique idempotency key; a create may land at any moment while its call is
    under way and never after the call ends. */
module ActionProtocol {
  import opened Domain
  import opened ActionRecords

  /** Where one delivery is waiting. `own` marks the delivery whose finally block will
      still discard the in-flight mark. */
  datatype Pc =
    | Swapping(seen: ActionStatus, at: int)  // claim read done, compare-and-swap next
    | SwapLost                               // compare-and-swap lost, re-read next
    | Claimed                                // EXECUTING committed, mark not set yet
    | Creating(landed: bool)                 // first provider call under way
    | Persisting                             // provider result in hand
    | Reconciling(own: bool)                 // wants the row lock to look the reference up
    | LookingUp(own: bool)                   // holds the row lock, lookup under way
    | Resubmitting(own: bool, landed: bool)  // holds the row lock, second create under way
    | Settling(own: bool)                    // holds the row lock, about to commit SUCCEEDED
    | Cleaning                               // holds the row lock of a cleanup

  datatype World = World(
    row: ActionRow,
    auth: Option<AuthStatus>,
    inFlight: bool,             // the action's id is in the process's in-flight set
    lock: Option<nat>,          // the delivery that holds the row lock
    procs: map<nat, Pc>,
    links: nat,                 // links ever created under the reference
    calls: nat,                 // provider create calls ever begun
    claimedAt: Option<int>,     // clock of the claim that made the row EXECUTING
    grant: Option<MandateFacts> // what a mandate-backed claim had compared
  )

  datatype CallEnd = CallOk | CallUncertain | CallFailed

  /** What the operator API, the nonce store and the cancel activity do to the rows. */
  datatype Command = Approve | Reject | CloseCase | CancelActivity | ConsumeMandate

  datatype ClaimMove = Deliver(now: int) | Swap | Reread | DeliverMandate(m: MandateFacts, now: int)

  datatype CallMove =
    | Mark               // the in-flight mark is set and the first call begins
    | Land               // a create takes effect at the provider
    | Return(end: CallEnd)
    | Persist
    | Die                // the delivery ends by an exception or a timeout

  datatype LockMove =
    | LockRow | LookedUp(answer: Lookup) | Resubmitted(ok: bool) | Settle
    | BeginCleanup | EndCleanup(reply: Lookup, revocation: Revocation)

  datatype Event =
    | Operate(command: Command)
    | Claiming(p: nat, claim: ClaimMove)
    | Calling(p: nat, call: CallMove)
    | Locking(p: nat, move: LockMove)
    | Crash              // the worker process dies with every delivery in it

  predicate Owns(pc: Pc) {
    match pc
    case Creating(_) => true
    case Reconciling(own) => own
    case LookingUp(own) => own
    case Resubmitting(own, _) => own
    case Settling(own) => own
    case _ => false
  }

  predicate HoldsLock(pc: Pc) {
    pc.LookingUp? || pc.Resubmitting? || pc.Settling? || pc.Cleaning?
  }

  function To(w: World, p: nat, pc: Pc): World { w.(procs := w.procs[p := pc]) }

  /** Delivery p ends: its mark is discarded and its transaction is rolled back. */
  function Retire(w: World, p: nat): World
    requires p in w.procs
  {
    w.(procs := w.procs - {p},
       inFlight := w.inFlight && !Owns(w.procs[p]),
       lock := if w.lock == Some(p) then None else w.lock)
  }

  /** A claim won: with `atomic` the in-flight mark is set in the same step. */
  function Claim(w: World, p: nat, at: int, atomic: bool): World {
    var c := w.(row := w.row.(status := Executing), claimedAt := Some(at));
    if atomic then BeginCreate(c, p) else To(c, p, Claimed)
  }

  function BeginCreate(w: World, p: nat): World {
    To(w.(inFlight := true, calls := w.calls + 1), p, Creating(false))
  }

  function Outcome(w: World, p: nat, outcome: ClaimOutcome): World {
    if outcome.Reconcile? then To(w, p, Reconciling(false)) else w
  }

  function PcOf(w: World, p: nat): Option<Pc> { if p in w.procs then Some(w.procs[p]) else None }

  predicate Free(w: World) { w.lock.None? }

  /** One step of the whole system; an event that is not enabled changes nothing. */
  function Step(w: World, e: Event, atomic: bool): World {
    match e
    case Operate(c) => StepOperate(w, c)
    case Claiming(p, c) => StepClaim(w, p, c, atomic)
    case Calling(p, c) => StepCall(w, p, c)
    case Locking(p, c) => StepLock(w, p, c)
    case Crash => w.(procs := map[], inFlight := false, lock := None)
  }

  function StepOperate(w: World, c: Command): World {
    match c
    case Approve => if Free(w) && w.row.status == AwaitingApproval
      then w.(row := w.row.(status := Scheduled, approved := true)) else w
    case Reject => if Free(w) && Unclaimed(w.row.status) then w.(row := w.row.(status := Cancelled)) else w
    case CloseCase => if Free(w) then w.(row := CancelledByCase(w.row)) else w
    case CancelActivity => if Free(w) then w.(row := CancelledByActivity(w.row)) else w
    case ConsumeMandate => if w.row.actionType == SendToCustomerAgent && w.auth.None?
      then w.(auth := Some(AuthAuthorized)) else w
  }

  function StepClaim(w: World, p: nat, c: ClaimMove, atomic: bool): World {
    match c
    case Deliver(now) => StepDeliver(w, p, now)
    case Swap => StepSwap(w, p, atomic)
    case Reread => StepReread(w, p)
    case DeliverMandate(m, now) => StepDeliverMandate(w, p, m, now, atomic)
  }

  function StepCall(w: World, p: nat, c: CallMove): World {
    match c
    case Mark => if PcOf(w, p) == Some(Claimed) then BeginCreate(w, p) else w
    case Land => StepLand(w, p)
    case Return(end) => StepReturn(w, p, end)
    case Persist => if PcOf(w, p) == Some(Persisting) && Free(w) then Commit(w, p) else w
    case Die => if p in w.procs then Retire(w, p) else w
  }

  function StepLock(w: World, p: nat, c: LockMove): World {
    match c
    case LockRow => StepLockRow(w, p)
    case LookedUp(answer) => StepLookedUp(w, p, answer)
    case Resubmitted(ok) => StepResubmitted(w, p, ok)
    case Settle => if p in w.procs && w.procs[p].Settling? then Commit(w, p) else w
    case BeginCleanup => if p !in w.procs && Free(w) && NeedsCleanup(w.row)
      then To(w, p, Cleaning).(lock := Some(p)) else w
    case EndCleanup(answer, revocation) => StepEndCleanup(w, p, answer, revocation)
  }

  function StepDeliver(w: World, p: nat, now: int): World {
    if p in w.procs || w.row.actionType != OpenCustomerPaymentSurface then w
    else match ReadForClaim(Some(w.row), w.inFlight, now)
      case TrySwap(seen) => To(w, p, Swapping(seen, now))
      case Decided(o) => Outcome(w, p, o)
  }

  function StepSwap(w: World, p: nat, atomic: bool): World {
    match PcOf(w, p)
    case Some(Swapping(seen, at)) =>
      if !Free(w) then w
      else if SwapWins(w.row, seen, at) then Claim(w, p, at, atomic)
      else To(w, p, SwapLost)
    case _ => w
  }

  function StepReread(w: World, p: nat): World {
    if PcOf(w, p) == Some(SwapLost)
    then Outcome(Retire(w, p), p, RereadForClaim(w.row, w.inFlight)) else w
  }

  /** A2A authorizes invoice links only. */
  function StepDeliverMandate(w: World, p: nat, m: MandateFacts, now: int, atomic: bool): World {
    if p in w.procs || !Free(w) || m.commandScope.surface != InvoiceLink then w
    else match MandateClaim(w.row, w.auth, m, now)
      case Fresh => Claim(w.(auth := Some(AuthExecuting), grant := Some(m)), p, now, atomic)
      case o => Outcome(w, p, o)
  }

  function StepLand(w: World, p: nat): World {
    match PcOf(w, p)
    case Some(Creating(false)) => To(w.(links := w.links + 1), p, Creating(true))
    case Some(Resubmitting(own, false)) => To(w.(links := w.links + 1), p, Resubmitting(own, true))
    case _ => w
  }

  /** The first provider call ends. It answers with a surface only when it made one. */
  function StepReturn(w: World, p: nat, end: CallEnd): World {
    match PcOf(w, p)
    case Some(Creating(landed)) =>
      (match end
       case CallOk => if landed then To(Retire(w, p), p, Persisting) else w
       case CallUncertain => if IsStandard(w.row) then To(w, p, Reconciling(true)) else Retire(w, p)
       case CallFailed => Retire(w, p))
    case _ => w
  }

  /** Commit a provider result to the action and its authorization. */
  function Commit(w: World, p: nat): World
    requires p in w.procs
  {
    Retire(w, p).(row := Persisted(w.row, "provider"), auth := PersistedAuth(w.row, w.auth))
  }

  function StepLockRow(w: World, p: nat): World {
    match PcOf(w, p)
    case Some(Reconciling(own)) =>
      if !Free(w) then w
      else if w.row.status == Executing then To(w, p, LookingUp(own)).(lock := Some(p))
      else Retire(w, p)
    case _ => w
  }

  /** A lookup that answers tells the truth. */
  function StepLookedUp(w: World, p: nat, answer: Lookup): World {
    match PcOf(w, p)
    case Some(LookingUp(own)) =>
      (match answer
       case LookupError => Retire(w, p)
       case Present(_) => if w.links > 0 then To(w, p, Settling(own)) else w
       case Absent => if w.links == 0
         then To(w.(calls := w.calls + 1), p, Resubmitting(own, false)) else w)
    case _ => w
  }

  function StepResubmitted(w: World, p: nat, ok: bool): World {
    match PcOf(w, p)
    case Some(Resubmitting(own, landed)) =>
      if !ok then Retire(w, p)
      else if landed then To(w, p, Settling(own)) else w
    case _ => w
  }

  function StepEndCleanup(w: World, p: nat, answer: Lookup, revocation: Revocation): World {
    if PcOf(w, p) != Some(Cleaning) then w
    else match Cleaned(w.row, answer, revocation)
      case None => Retire(w, p)
      case Some(row) => Retire(w, p).(row := row)
  }

  function Run(w: World, es: seq<Event>, atomic: bool): World
    decreases |es|
  {
    if es == [] then w else Run(Step(w, es[0], atomic), es[1..], atomic)
  }

  /** A payment action as the recommendation transaction inserts it. */
  predicate Recommended(row: ActionRow) {
    && (row.actionType == OpenCustomerPaymentSurface || row.actionType == SendToCustomerAgent)
    && (row.actionType == OpenCustomerPaymentSurface <==> row.surface.Some?)
    && row.status == InitialStatus(row.policy)
    && row.scheduledFor == row.delayUntil
    && (row.delayUntil.Some? <==> row.policy == Delay)
    && row.externalReference.None?
    && !row.approved
  }

  function InitialStatus(policy: Disposition): ActionStatus {
    match policy
    case Allow => Proposed
    case Block => Cancelled
    case Delay => Scheduled
    case RequireManualApproval => AwaitingApproval
  }

  function Start(row: ActionRow): World {
    World(row, None, false, None, map[], 0, 0, None, None)
  }

  // ------------------------------------------------------------------ invariants

  predicate Unclaimed(s: ActionStatus) { s == Proposed || s == AwaitingApproval || s == Scheduled }

  predicate Waiting(pc: Pc) { pc.Swapping? || pc.SwapLost? }

  /** Facts of every reachable world, whether or not claim and mark are one step. */
  ghost predicate RowInv(w: World) {
    && w.row.status != ActionFailed && ReferenceSettled(w.row)
    && (w.row.actionType == OpenCustomerPaymentSurface || w.row.actionType == SendToCustomerAgent)
    && (w.row.actionType == OpenCustomerPaymentSurface <==> w.row.surface.Some?)
    && (w.row.policy == RequireManualApproval && w.row.status != AwaitingApproval && w.row.status != Cancelled
        ==> w.row.approved)
    && (w.row.policy == Block ==> w.row.status == Cancelled)
    && (w.claimedAt.Some? ==> Authorized(w))
    // before the first claim there is nothing but waiting claims
    && (Unclaimed(w.row.status) ==> w.claimedAt.None?)
    && (w.row.status == Executing || w.row.status == Succeeded ==> w.claimedAt.Some?)
    && (w.claimedAt.None? ==> w.calls == 0 && w.links == 0 && w.grant.None?)
    && (w.lock.Some? ==> w.lock.value in w.procs && HoldsLock(w.procs[w.lock.value]))
    && (forall p | p in w.procs :: PcInv(w, p, w.procs[p]))
  }

  predicate Authorized(w: World) {
    && w.claimedAt.Some?
    && w.row.policy != Block
    && Due(w.row, w.claimedAt.value)
    && (w.row.policy == RequireManualApproval ==> w.row.approved)
    && (w.row.actionType == SendToCustomerAgent ==>
          w.grant.Some? && MandateSafe(w.row, w.grant.value, w.claimedAt.value)
          && w.grant.value.signedScope == w.grant.value.commandScope)
  }

  predicate PcInv(w: World, p: nat, pc: Pc) {
    && (HoldsLock(pc) ==> w.lock == Some(p) && IsStandard(w.row))
    && (pc.Reconciling? ==> IsStandard(w.row))
    && (w.claimedAt.None? ==> Waiting(pc))
    && (pc.Swapping? ==> Due(w.row, pc.at) && Claimable(w.row.policy, pc.seen)
                         && w.row.actionType == OpenCustomerPaymentSurface)
    && (pc.LookingUp? || pc.Resubmitting? || pc.Settling? ==> w.row.status == Executing)
    && (pc.Cleaning? ==> NeedsCleanup(w.row))
  }

  // A step is built from four updates: a delivery moves, ends, claims, or commits a row.

  lemma MoveKeeps(w: World, p: nat, pc: Pc)
    requires RowInv(w) && PcInv(w, p, pc) && (w.lock == Some(p) ==> HoldsLock(pc))
    ensures RowInv(To(w, p, pc))
  {
  }

  lemma RetireKeeps(w: World, p: nat)
    requires RowInv(w) && p in w.procs
    ensures RowInv(Retire(w, p))
  {
  }

  lemma LockKeeps(w: World, p: nat, pc: Pc)
    requires RowInv(w) && Free(w) && HoldsLock(pc) && IsStandard(w.row) && w.claimedAt.Some?
    requires if pc.Cleaning? then NeedsCleanup(w.row) else w.row.status == Executing
    ensures RowInv(To(w, p, pc).(lock := Some(p)))
  {
  }

  /** With the lock free no delivery depends on the row's status. */
  lemma RowChangeKeeps(w: World, row: ActionRow, auth: Option<AuthStatus>)
    requires RowInv(w) && Free(w)
    requires row == w.row.(status := row.status, approved := row.approved, externalReference := row.externalReference)
    requires w.row.approved ==> row.approved
    requires row.status != ActionFailed && ReferenceSettled(row)
    requires row.policy == RequireManualApproval && row.status != AwaitingApproval && row.status != Cancelled ==> row.approved
    requires row.policy == Block ==> row.status == Cancelled
    requires Unclaimed(row.status) ==> w.claimedAt.None?
    requires row.status == Executing || row.status == Succeeded ==> w.claimedAt.Some?
    ensures RowInv(w.(row := row, auth := auth))
  {
    forall p | p in w.procs ensures PcInv(w.(row := row, auth := auth), p, w.procs[p]) {
      assert PcInv(w, p, w.procs[p]);
    }
  }

  lemma ClaimKeeps(w: World, p: nat, at: int, auth: Option<AuthStatus>, grant: Option<MandateFacts>, atomic: bool)
    requires RowInv(w) && Free(w) && Unclaimed(w.row.status) && w.row.policy != Block && Due(w.row, at)
    requires w.row.policy == RequireManualApproval ==> w.row.approved
    requires w.row.actionType == SendToCustomerAgent ==>
      grant.Some? && MandateSafe(w.row, grant.value, at) && grant.value.signedScope == grant.value.commandScope
    ensures RowInv(Claim(w.(auth := auth, grant := grant), p, at, atomic))
  {
    var c := w.(auth := auth, grant := grant, row := w.row.(status := Executing), claimedAt := Some(at));
    forall q | q in c.procs ensures PcInv(c, q, c.procs[q]) { assert PcInv(w, q, w.procs[q]); }
    assert RowInv(c);
    if atomic {
      MoveKeeps(c.(inFlight := true, calls := c.calls + 1), p, Creating(false));
    } else {
      MoveKeeps(c, p, Claimed);
    }
  }

  lemma CommitKeeps(w: World, p: nat)
    requires RowInv(w) && p in w.procs && w.claimedAt.Some? && (Free(w) || w.lock == Some(p))
    ensures RowInv(Commit(w, p))
  {
    RetireKeeps(w, p);
    RowChangeKeeps(Retire(w, p), Persisted(w.row, "provider"), PersistedAuth(w.row, w.auth));
  }

  lemma OutcomeKeeps(w: World, p: nat, outcome: ClaimOutcome)
    requires RowInv(w) && w.lock != Some(p)
    requires outcome.Reconcile? ==> w.row.status == Executing && IsStandard(w.row)
    ensures RowInv(Outcome(w, p, outcome))
  {
    if outcome.Reconcile? { MoveKeeps(w, p, Reconciling(false)); }
  }

  lemma OperateKeeps(w: World, c: Command)
    requires RowInv(w)
    ensures RowInv(StepOperate(w, c))
  {
    if Free(w) && !c.ConsumeMandate? { RowChangeKeeps(w, StepOperate(w, c).row, w.auth); }
  }

  lemma DeliverKeeps(w: World, p: nat, now: int)
    requires RowInv(w)
    ensures RowInv(StepDeliver(w, p, now))
  {
    if p !in w.procs && w.row.actionType == OpenCustomerPaymentSurface {
      match ReadForClaim(Some(w.row), w.inFlight, now)
      case TrySwap(seen) => MoveKeeps(w, p, Swapping(seen, now));
      case Decided(o) => OutcomeKeeps(w, p, o);
    }
  }

  lemma SwapKeeps(w: World, p: nat, atomic: bool)
    requires RowInv(w)
    ensures RowInv(StepSwap(w, p, atomic))
  {
    match PcOf(w, p)
    case Some(Swapping(seen, at)) =>
      assert PcInv(w, p, w.procs[p]);
      if Free(w) {
        if SwapWins(w.row, seen, at) { ClaimKeeps(w, p, at, w.auth, w.grant, atomic); }
        else { MoveKeeps(w, p, SwapLost); }
      }
    case _ =>
  }

  lemma DeliverMandateKeeps(w: World, p: nat, m: MandateFacts, now: int, atomic: bool)
    requires RowInv(w)
    ensures RowInv(StepDeliverMandate(w, p, m, now, atomic))
  {
    if p !in w.procs && Free(w) && m.commandScope.surface == InvoiceLink {
      FreshMandateIff(w.row, w.auth, m, now);
      if MandateClaim(w.row, w.auth, m, now).Fresh? {
        ClaimKeeps(w, p, now, Some(AuthExecuting), Some(m), atomic);
      }
    }
  }

  lemma CleanedKeeps(w: World, p: nat, row: ActionRow, answer: Lookup, revocation: Revocation)
    requires RowInv(w) && PcOf(w, p) == Some(Cleaning) && Cleaned(w.row, answer, revocation) == Some(row)
    ensures RowInv(Retire(w, p).(row := row))
  {
    RetireKeeps(w, p);
    assert PcInv(w, p, Cleaning);
    RowChangeKeeps(Retire(w, p), row, w.auth);
  }

  lemma LandKeeps(w: World, p: nat)
    requires RowInv(w)
    ensures RowInv(StepLand(w, p))
  {
    if p in w.procs {
      var pc := w.procs[p];
      assert PcInv(w, p, pc);
      if pc == Creating(false) { MoveKeeps(w.(links := w.links + 1), p, Creating(true)); }
      else if pc.Resubmitting? && !pc.landed { MoveKeeps(w.(links := w.links + 1), p, Resubmitting(pc.own, true)); }
    }
  }

  lemma ReturnKeeps(w: World, p: nat, end: CallEnd)
    requires RowInv(w)
    ensures RowInv(StepReturn(w, p, end))
  {
    if p in w.procs && w.procs[p].Creating? {
      assert PcInv(w, p, w.procs[p]);
      RetireKeeps(w, p);
      if end.CallOk? { MoveKeeps(Retire(w, p), p, Persisting); }
      else if end.CallUncertain? && IsStandard(w.row) { MoveKeeps(w, p, Reconciling(true)); }
    }
  }

  lemma ClaimMoveKeeps(w: World, p: nat, c: ClaimMove, atomic: bool)
    requires RowInv(w)
    ensures RowInv(StepClaim(w, p, c, atomic))
  {
    match c
    case Deliver(now) => DeliverKeeps(w, p, now);
    case Swap => SwapKeeps(w, p, atomic);
    case Reread => if PcOf(w, p) == Some(SwapLost) {
      RetireKeeps(w, p);
      OutcomeKeeps(Retire(w, p), p, RereadForClaim(w.row, w.inFlight));
    }
    case DeliverMandate(m, now) => DeliverMandateKeeps(w, p, m, now, atomic);
  }

  lemma CallMoveKeeps(w: World, p: nat, c: CallMove)
    requires RowInv(w)
    ensures RowInv(StepCall(w, p, c))
  {
    if p in w.procs { assert PcInv(w, p, w.procs[p]); }
    match c
    case Mark => if PcOf(w, p) == Some(Claimed) {
      MoveKeeps(w.(inFlight := true, calls := w.calls + 1), p, Creating(false));
    }
    case Land => LandKeeps(w, p);
    case Return(end) => ReturnKeeps(w, p, end);
    case Persist => if PcOf(w, p) == Some(Persisting) && Free(w) { CommitKeeps(w, p); }
    case Die => if p in w.procs { RetireKeeps(w, p); }
  }

  lemma LockMoveKeeps(w: World, p: nat, c: LockMove)
    requires RowInv(w)
    ensures RowInv(StepLock(w, p, c))
  {
    if p in w.procs {
      var pc := w.procs[p];
      assert PcInv(w, p, pc);
      RetireKeeps(w, p);
      match c
      case LockRow => if pc.Reconciling? && Free(w) && w.row.status == Executing { LockKeeps(w, p, LookingUp(pc.own)); }
      case LookedUp(answer) => if pc.LookingUp? {
        if answer.Present? { MoveKeeps(w, p, Settling(pc.own)); }
        else if answer.Absent? { MoveKeeps(w.(calls := w.calls + 1), p, Resubmitting(pc.own, false)); }
      }
      case Resubmitted(ok) => if pc.Resubmitting? { MoveKeeps(w, p, Settling(pc.own)); }
      case Settle => if pc.Settling? { CommitKeeps(w, p); }
      case EndCleanup(answer, revocation) => if pc.Cleaning? {
        var row := Cleaned(w.row, answer, revocation);
        if row.Some? { CleanedKeeps(w, p, row.value, answer, revocation); }
      }
      case BeginCleanup =>
    } else if c.BeginCleanup? && Free(w) && NeedsCleanup(w.row) {
      LockKeeps(w, p, Cleaning);
    }
  }

  lemma RowInvStep(w: World, e: Event, atomic: bool)
    requires RowInv(w)
    ensures RowInv(Step(w, e, atomic))
  {
    match e
    case Operate(c) => OperateKeeps(w, c);
    case Claiming(p, c) => ClaimMoveKeeps(w, p, c, atomic);
    case Calling(p, c) => CallMoveKeeps(w, p, c);
    case Locking(p, c) => LockMoveKeeps(w, p, c);
    case Crash =>
  }

  /** How far a row has come; nothing moves it back. */
  function Rank(s: ActionStatus): nat {
    match s
    case Proposed => 0
    case AwaitingApproval => 0
    case Scheduled => 1
    case Executing => 2
    case Succeeded => 3
    case ActionFailed => 3
    case Cancelled => 4
  }

  predicate Advances(w: World, v: World) {
    && Rank(w.row.status) <= Rank(v.row.status)
    && (!IsStandard(w.row) && w.row.status == Succeeded ==> v.row == w.row)
    && (w.row.status == Cancelled ==> v.row == w.row)
    && v.row == w.row.(status := v.row.status, approved := v.row.approved, externalReference := v.row.externalReference)
    && (w.row.approved ==> v.row.approved)
  }

  lemma SwapAdvances(w: World, p: nat, atomic: bool)
    requires RowInv(w)
    ensures Advances(w, StepSwap(w, p, atomic))
  {
    if p in w.procs { assert PcInv(w, p, w.procs[p]); }
  }

  lemma EndCleanupAdvances(w: World, p: nat, answer: Lookup, revocation: Revocation)
    requires RowInv(w)
    ensures Advances(w, StepEndCleanup(w, p, answer, revocation))
  {
    if p in w.procs { assert PcInv(w, p, w.procs[p]); }
  }

  lemma CommitAdvances(w: World, p: nat)
    requires RowInv(w) && p in w.procs
    ensures Advances(w, Commit(w, p))
  {
    assert PcInv(w, p, w.procs[p]);
  }

  lemma LockMoveAdvances(w: World, p: nat, c: LockMove)
    requires RowInv(w)
    ensures Advances(w, StepLock(w, p, c))
  {
    if c.Settle? && p in w.procs { CommitAdvances(w, p); }
    if c.EndCleanup? { EndCleanupAdvances(w, p, c.reply, c.revocation); }
  }

  lemma ClaimMoveAdvances(w: World, p: nat, c: ClaimMove, atomic: bool)
    requires RowInv(w)
    ensures Advances(w, StepClaim(w, p, c, atomic))
  {
    if c.Swap? { SwapAdvances(w, p, atomic); }
  }

  lemma CallMoveAdvances(w: World, p: nat, c: CallMove)
    requires RowInv(w)
    ensures Advances(w, StepCall(w, p, c))
  {
    if c.Persist? && p in w.procs { CommitAdvances(w, p); }
  }

  lemma AdvanceStep(w: World, e: Event, atomic: bool)
    requires RowInv(w)
    ensures Advances(w, Step(w, e, atomic))
  {
    match e
    case Operate(c) =>
    case Claiming(p, c) => ClaimMoveAdvances(w, p, c, atomic);
    case Calling(p, c) => CallMoveAdvances(w, p, c);
    case Locking(p, c) => LockMoveAdvances(w, p, c);
    case Crash =>
  }

  // ------------------------------------------------------------- whole runs

  lemma {:induction false} RunKeeps(w: World, es: seq<Event>, atomic: bool)
    requires RowInv(w)
    ensures RowInv(Run(w, es, atomic)) && Advances(w, Run(w, es, atomic))
    decreases |es|
  {
    if es != [] {
      RowInvStep(w, es[0], atomic);
      AdvanceStep(w, es[0], atomic);
      RunKeeps(Step(w, es[0], atomic), es[1..], atomic);
    }
  }

  lemma {:induction false} RunAppend(w: World, first: seq<Event>, rest: seq<Event>, atomic: bool)
    ensures Run(w, first + rest, atomic) == Run(Run(w, first, atomic), rest, atomic)
    decreases |first|
  {
    if first == [] {
      assert first + rest == rest;
    } else {
      assert (first + rest)[0] == first[0] && (first + rest)[1..] == first[1..] + rest;
      RunAppend(Step(w, first[0], atomic), first[1..], rest, atomic);
    }
  }

  /** Over every run the row only advances: its status never moves back, CANCELLED is
      final, and on every surface but the standard link SUCCEEDED is final too. */
  lemma StatusNeverRegresses(row: ActionRow, past: seq<Event>, future: seq<Event>, atomic: bool)
    requires Recommended(row)
    ensures var w, v := Run(Start(row), past, atomic), Run(Start(row), past + future, atomic);
            && Rank(w.row.status) <= Rank(v.row.status)
            && (w.row.status == Cancelled ==> v.row == w.row)
            && (w.row.status == Succeeded && !IsStandard(row) ==> v.row == w.row)
  {
    RunKeeps(Start(row), past, atomic);
    RunAppend(Start(row), past, future, atomic);
    RunKeeps(Run(Start(row), past, atomic), future, atomic);
  }

  /** Whatever the interleaving, the provider is called only for an action whose claim was
      authorized: not blocked, due, approved where approval is required, and for a customer
      agent covered by a mandate that matched every row while the claim held the locks. */
  lemma SubmissionsAreAuthorized(row: ActionRow, es: seq<Event>, atomic: bool)
    requires Recommended(row)
    ensures var w := Run(Start(row), es, atomic); w.calls > 0 || w.links > 0 ==>
      && w.claimedAt.Some? && row.policy != Block
      && (row.scheduledFor.Some? ==> row.scheduledFor.value <= w.claimedAt.value)
      && (row.delayUntil.Some? ==> row.delayUntil.value <= w.claimedAt.value)
      && (row.policy == RequireManualApproval ==> w.row.approved)
    ensures var w := Run(Start(row), es, atomic);
      (w.calls > 0 || w.links > 0) && row.actionType == SendToCustomerAgent ==>
        w.grant.Some? &&
        var m := w.grant.value;
        && m.commandScope == m.signedScope == m.persistedScope == m.currentScope
        && m.taskAndSignerMatch && m.authorizedAction == "OPEN_EXACT_PAYMENT_SURFACE"
        && m.persistedIssuedAt == m.issuedAt && m.persistedExpiresAt == m.expiresAt
        && w.claimedAt.value < m.expiresAt <= m.recoveryDeadline == m.commandDeadline
        && m.invoiceAmountPaise == m.invoicePaidPaise + m.signedScope.exactAmountPaise
        && m.caseOutcome == Open && m.paymentState != Captured && !m.caseRecovered
        && row.policy in {Allow, Delay}
  {
    RunKeeps(Start(row), es, atomic);
  }
}
