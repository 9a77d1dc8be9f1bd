/** What no run of the action protocol can do: call a subscription surface twice, let an
    authorization drift from its action, or create a second standard payment link. */
module ActionSafety {
  import opened Domain
  import opened ActionRecords
  import opened ActionProtocol

  // ------------------------------------------------------ what a claim can do

  /** The five results of a claim step: nothing, still waiting, ended, sent to reconcile an
      earlier submission, or won. */
  predicate ClaimShape(w: World, p: nat, c: ClaimMove, atomic: bool, v: World) {
    || v == w
    || (&& (p in w.procs ==> Waiting(w.procs[p]))
        && (|| (p in v.procs && Waiting(v.procs[p]) && v == To(w, p, v.procs[p]))
            || (p in w.procs && v == w.(procs := w.procs - {p}))
            || ((c.Deliver? || c.Reread?) && !w.inFlight && w.row.status == Executing && IsStandard(w.row)
                && v == To(w, p, Reconciling(false)))
            || (Free(w) && Unclaimed(w.row.status) && v.claimedAt.Some?
                && v == Claim(w.(auth := v.auth, grant := v.grant), p, v.claimedAt.value, atomic))))
  }

  lemma ClaimHasShape(w: World, p: nat, c: ClaimMove, atomic: bool)
    requires RowInv(w)
    ensures ClaimShape(w, p, c, atomic, StepClaim(w, p, c, atomic))
  {
    if p in w.procs { assert PcInv(w, p, w.procs[p]); }
    match c
    case Deliver(now) =>
    case Swap => SwapHasShape(w, p, atomic);
    case Reread =>
      if PcOf(w, p) == Some(SwapLost) {
        assert w.lock != Some(p);
        assert (w.procs - {p})[p := Reconciling(false)] == w.procs[p := Reconciling(false)];
      }
    case DeliverMandate(m, now) => MandateHasShape(w, p, m, now, atomic);
  }

  lemma SwapHasShape(w: World, p: nat, atomic: bool)
    requires RowInv(w) && (p in w.procs ==> PcInv(w, p, w.procs[p]))
    ensures ClaimShape(w, p, ClaimMove.Swap, atomic, StepSwap(w, p, atomic))
  {
  }

  lemma MandateHasShape(w: World, p: nat, m: MandateFacts, now: int, atomic: bool)
    requires RowInv(w)
    ensures ClaimShape(w, p, DeliverMandate(m, now), atomic, StepDeliverMandate(w, p, m, now, atomic))
  {
  }

  lemma NothingRunsBeforeTheClaim(w: World, q: nat)
    requires RowInv(w) && q in w.procs && Unclaimed(w.row.status)
    ensures Waiting(w.procs[q])
  {
    assert PcInv(w, q, w.procs[q]);
  }

  // -------------------------------------------- one call per subscription surface

  /** A non-standard action has one submission: pending at one delivery, or made. */
  ghost predicate CallInv(w: World) {
    !IsStandard(w.row) ==>
      && w.calls <= 1
      && (forall p | p in w.procs && w.procs[p].Claimed? :: w.calls == 0 && w.claimedAt.Some?)
      && (forall p, q | p in w.procs && q in w.procs && w.procs[p].Claimed? && w.procs[q].Claimed? :: p == q)
  }

  lemma CallInvClaim(w: World, p: nat, c: ClaimMove, atomic: bool)
    requires RowInv(w) && CallInv(w)
    ensures CallInv(StepClaim(w, p, c, atomic))
  {
    CallInvShape(w, p, c, atomic, ClaimStep(w, p, c, atomic));
  }

  /** A claim step by its shape alone. */
  ghost function ClaimStep(w: World, p: nat, c: ClaimMove, atomic: bool): (v: World)
    requires RowInv(w)
    ensures v == StepClaim(w, p, c, atomic) && ClaimShape(w, p, c, atomic, v)
  {
    ClaimHasShape(w, p, c, atomic);
    StepClaim(w, p, c, atomic)
  }

  lemma CallInvShape(w: World, p: nat, c: ClaimMove, atomic: bool, v: World)
    requires RowInv(w) && CallInv(w) && ClaimShape(w, p, c, atomic, v)
    ensures CallInv(v)
  {
    if Unclaimed(w.row.status) {
      forall q | q in w.procs ensures Waiting(w.procs[q]) { NothingRunsBeforeTheClaim(w, q); }
    }
  }

  lemma CallInvCall(w: World, p: nat, c: CallMove)
    requires RowInv(w) && CallInv(w)
    ensures CallInv(StepCall(w, p, c))
  {
    if p in w.procs { assert PcInv(w, p, w.procs[p]); }
  }

  lemma CallInvLock(w: World, p: nat, c: LockMove)
    requires RowInv(w) && CallInv(w)
    ensures CallInv(StepLock(w, p, c))
  {
    if p in w.procs { assert PcInv(w, p, w.procs[p]); }
  }

  lemma CallInvStep(w: World, e: Event, atomic: bool)
    requires RowInv(w) && CallInv(w)
    ensures CallInv(Step(w, e, atomic))
  {
    match e
    case Operate(c) =>
    case Claiming(p, c) => CallInvClaim(w, p, c, atomic);
    case Calling(p, c) => CallInvCall(w, p, c);
    case Locking(p, c) => CallInvLock(w, p, c);
    case Crash =>
  }

  lemma {:induction false} CallInvRun(w: World, es: seq<Event>, atomic: bool)
    requires RowInv(w) && CallInv(w)
    ensures CallInv(Run(w, es, atomic))
    decreases |es|
  {
    if es != [] {
      CallInvStep(w, es[0], atomic);
      RowInvStep(w, es[0], atomic);
      CallInvRun(Step(w, es[0], atomic), es[1..], atomic);
    }
  }

  /** A card-update, invoice-link or customer-agent action causes at most one provider call,
      however often it is delivered, cancelled, or interrupted. */
  lemma OneCallPerSubscriptionSurface(row: ActionRow, es: seq<Event>, atomic: bool)
    requires Recommended(row) && !IsStandard(row)
    ensures Run(Start(row), es, atomic).calls <= 1
  {
    CallInvRun(Start(row), es, atomic);
    RunKeeps(Start(row), es, atomic);
  }

  // ------------------------------------------ an authorization follows its action

  predicate AuthInv(w: World) {
    if w.row.actionType == SendToCustomerAgent then
      && (w.row.status == Executing ==> w.auth == Some(AuthExecuting))
      && (w.row.status == Succeeded <==> w.auth == Some(AuthSucceeded))
      && w.auth != Some(AuthUncertain) && w.auth != Some(AuthLegacy)
    else w.auth.None?
  }

  lemma AuthInvMandate(w: World, p: nat, m: MandateFacts, now: int, atomic: bool)
    requires AuthInv(w)
    ensures AuthInv(StepDeliverMandate(w, p, m, now, atomic))
  {
    var v := StepDeliverMandate(w, p, m, now, atomic);
    assert (v.row == w.row && v.auth == w.auth) ||
           (MandateSafe(w.row, m, now) && v.row == w.row.(status := Executing) && v.auth == Some(AuthExecuting));
  }

  lemma AuthInvSwap(w: World, p: nat, atomic: bool)
    requires RowInv(w) && AuthInv(w)
    ensures AuthInv(StepSwap(w, p, atomic))
  {
    if p in w.procs { assert PcInv(w, p, w.procs[p]); }
    var v := StepSwap(w, p, atomic);
    assert v.auth == w.auth && (v.row == w.row || (w.row.actionType == OpenCustomerPaymentSurface
                                                   && v.row == w.row.(status := Executing)));
  }

  lemma AuthInvClaim(w: World, p: nat, c: ClaimMove, atomic: bool)
    requires RowInv(w) && AuthInv(w)
    ensures AuthInv(StepClaim(w, p, c, atomic))
  {
    match c
    case Deliver(_) =>
    case Swap => AuthInvSwap(w, p, atomic);
    case Reread =>
    case DeliverMandate(m, now) => AuthInvMandate(w, p, m, now, atomic);
  }

  lemma AuthInvCommit(w: World, p: nat)
    requires RowInv(w) && AuthInv(w) && p in w.procs && w.claimedAt.Some?
    ensures AuthInv(Commit(w, p))
  {
  }

  lemma AuthInvCall(w: World, p: nat, c: CallMove)
    requires RowInv(w) && AuthInv(w)
    ensures AuthInv(StepCall(w, p, c))
  {
    if p in w.procs {
      assert PcInv(w, p, w.procs[p]);
      if c.Persist? && w.procs[p].Persisting? { AuthInvCommit(w, p); }
    }
  }

  lemma AuthInvLock(w: World, p: nat, c: LockMove)
    requires RowInv(w) && AuthInv(w)
    ensures AuthInv(StepLock(w, p, c))
  {
    if p in w.procs {
      assert PcInv(w, p, w.procs[p]);
      if c.Settle? && w.procs[p].Settling? { AuthInvCommit(w, p); }
    }
  }

  lemma AuthInvStep(w: World, e: Event, atomic: bool)
    requires RowInv(w) && AuthInv(w)
    ensures AuthInv(Step(w, e, atomic))
  {
    match e
    case Operate(c) =>
    case Claiming(p, c) => AuthInvClaim(w, p, c, atomic);
    case Calling(p, c) => AuthInvCall(w, p, c);
    case Locking(p, c) => AuthInvLock(w, p, c);
    case Crash =>
  }

  lemma {:induction false} AuthInvRun(w: World, es: seq<Event>, atomic: bool)
    requires RowInv(w) && AuthInv(w)
    ensures AuthInv(Run(w, es, atomic))
    decreases |es|
  {
    if es != [] {
      RowInvStep(w, es[0], atomic);
      AuthInvStep(w, es[0], atomic);
      AuthInvRun(Step(w, es[0], atomic), es[1..], atomic);
    }
  }

  lemma AuthorizationFollowsAction(row: ActionRow, es: seq<Event>, atomic: bool)
    requires Recommended(row) && row.actionType == SendToCustomerAgent
    ensures var w := Run(Start(row), es, atomic);
            && (w.row.status == Executing ==> w.auth == Some(AuthExecuting))
            && (w.row.status == Succeeded <==> w.auth == Some(AuthSucceeded))
  {
    AuthInvRun(Start(row), es, atomic);
    RunKeeps(Start(row), es, atomic);
  }

  // --------------------------------------------- one standard link per reference

  /** A create that has not landed yet may still make a link. */
  predicate MayLand(pc: Pc) { pc.Claimed? || pc == Creating(false) || (pc.Resubmitting? && !pc.landed) }

  /** While the first submission is under way nobody else can reach a create. */
  predicate Submitting(pc: Pc) { pc.Claimed? || pc.Creating? }

  ghost predicate LinkInv(w: World) {
    && w.links <= 1
    && (forall p | p in w.procs && MayLand(w.procs[p]) :: w.links == 0)
    && (forall p | p in w.procs && w.procs[p].Creating? :: w.inFlight)
    && (forall p, q | p in w.procs && q in w.procs && p != q && Submitting(w.procs[p]) ::
          Waiting(w.procs[q]) || w.procs[q].Cleaning?)
  }

  ghost predicate WindowOpen(w: World) { exists p :: p in w.procs && w.procs[p].Claimed? }

  /** No other delivery reads the row between a claim's commit and its in-flight mark. */
  ghost predicate Undisturbed(w: World, es: seq<Event>, atomic: bool)
    decreases |es|
  {
    es == [] ||
    (&& (WindowOpen(w) ==> !(es[0].Claiming? && (es[0].claim.Deliver? || es[0].claim.Reread?)))
     && Undisturbed(Step(w, es[0], atomic), es[1..], atomic))
  }

  lemma LinkInvRetire(w: World, p: nat)
    requires LinkInv(w) && p in w.procs
    ensures LinkInv(Retire(w, p))
  {
  }

  lemma LinkInvClaim(w: World, p: nat, c: ClaimMove, atomic: bool, v: World)
    requires RowInv(w) && LinkInv(w) && ClaimShape(w, p, c, atomic, v)
    requires WindowOpen(w) ==> !c.Deliver? && !c.Reread?
    ensures LinkInv(v)
  {
    if Unclaimed(w.row.status) {
      forall q | q in w.procs ensures Waiting(w.procs[q]) { NothingRunsBeforeTheClaim(w, q); }
    }
  }

  lemma LinkInvCall(w: World, p: nat, c: CallMove)
    requires RowInv(w) && LinkInv(w)
    ensures LinkInv(StepCall(w, p, c))
  {
    if p in w.procs {
      assert PcInv(w, p, w.procs[p]);
      LinkInvRetire(w, p);
      if c.Land? { LinkInvLand(w, p); }
    }
  }

  lemma LinkInvLand(w: World, p: nat)
    requires RowInv(w) && LinkInv(w)
    ensures LinkInv(StepLand(w, p))
  {
    if p in w.procs && MayLand(w.procs[p]) && !w.procs[p].Claimed? {
      forall q | q in w.procs && q != p ensures !MayLand(w.procs[q]) {
        assert PcInv(w, p, w.procs[p]) && PcInv(w, q, w.procs[q]);
      }
    }
  }

  lemma LinkInvLock(w: World, p: nat, c: LockMove)
    requires RowInv(w) && LinkInv(w)
    ensures LinkInv(StepLock(w, p, c))
  {
    if p in w.procs {
      assert PcInv(w, p, w.procs[p]);
      LinkInvRetire(w, p);
    }
  }

  lemma LinkInvStep(w: World, e: Event, atomic: bool)
    requires RowInv(w) && LinkInv(w)
    requires WindowOpen(w) ==> !(e.Claiming? && (e.claim.Deliver? || e.claim.Reread?))
    ensures LinkInv(Step(w, e, atomic))
  {
    match e
    case Operate(c) =>
    case Claiming(p, c) => LinkInvClaim(w, p, c, atomic, ClaimStep(w, p, c, atomic));
    case Calling(p, c) => LinkInvCall(w, p, c);
    case Locking(p, c) => LinkInvLock(w, p, c);
    case Crash =>
  }

  lemma {:induction false} LinkInvRun(w: World, es: seq<Event>, atomic: bool)
    requires RowInv(w) && LinkInv(w) && Undisturbed(w, es, atomic)
    ensures LinkInv(Run(w, es, atomic))
    decreases |es|
  {
    if es != [] {
      RowInvStep(w, es[0], atomic);
      LinkInvStep(w, es[0], atomic);
      LinkInvRun(Step(w, es[0], atomic), es[1..], atomic);
    }
  }

  /** Reconcile before resubmit: crashes, uncertain creates, redeliveries and cancellations
      never make a second link, provided no other delivery reads the row in the window
      between the claim's commit and the in-flight mark. */
  lemma OneLinkPerReference(row: ActionRow, es: seq<Event>, atomic: bool)
    requires Recommended(row) && Undisturbed(Start(row), es, atomic)
    ensures Run(Start(row), es, atomic).links <= 1
  {
    LinkInvRun(Start(row), es, atomic);
  }

  /** With claim and mark in one step there is no window. */
  lemma {:induction false} AtomicClaimsHaveNoWindow(w: World, es: seq<Event>)
    requires RowInv(w) && !WindowOpen(w)
    ensures Undisturbed(w, es, true)
    decreases |es|
  {
    if es != [] {
      RowInvStep(w, es[0], true);
      NoWindowStep(w, es[0]);
      AtomicClaimsHaveNoWindow(Step(w, es[0], true), es[1..]);
    }
  }

  lemma NoWindowStep(w: World, e: Event)
    requires !WindowOpen(w)
    ensures !WindowOpen(Step(w, e, true))
  {
    match e
    case Operate(c) => assert StepOperate(w, c).procs == w.procs;
    case Claiming(p, c) => NoWindowClaim(w, p, c);
    case Calling(p, c) => NoWindowCall(w, p, c);
    case Locking(p, c) => NoWindowLock(w, p, c);
    case Crash =>
  }

  lemma NoWindowClaim(w: World, p: nat, c: ClaimMove)
    requires !WindowOpen(w)
    ensures !WindowOpen(StepClaim(w, p, c, true))
  {
    var v := StepClaim(w, p, c, true);
    forall q | q in v.procs ensures !v.procs[q].Claimed? { assert q == p || (q in w.procs && v.procs[q] == w.procs[q]); }
  }

  lemma NoWindowCall(w: World, p: nat, c: CallMove)
    requires !WindowOpen(w)
    ensures !WindowOpen(StepCall(w, p, c))
  {
    var v := StepCall(w, p, c);
    forall q | q in v.procs ensures !v.procs[q].Claimed? { assert q == p || (q in w.procs && v.procs[q] == w.procs[q]); }
  }

  lemma NoWindowLock(w: World, p: nat, c: LockMove)
    requires !WindowOpen(w)
    ensures !WindowOpen(StepLock(w, p, c))
  {
    var v := StepLock(w, p, c);
    forall q | q in v.procs ensures !v.procs[q].Claimed? { assert q == p || (q in w.procs && v.procs[q] == w.procs[q]); }
  }

  function DueTime(row: ActionRow): int {
    match EffectiveDelay(row) case None => 0 case Some(at) => at
  }

  /** A redelivery inside the window looks the reference up before the first create lands. */
  function RaceThroughTheWindow(row: ActionRow): seq<Event> {
    var at := DueTime(row);
    (if row.policy == RequireManualApproval then [Operate(Approve)] else []) +
    ([Claiming(0, Deliver(at)), Claiming(0, ClaimMove.Swap), Claiming(1, Deliver(at))] +
     [Calling(0, Mark), Locking(1, LockRow), Locking(1, LookedUp(Absent)), Calling(1, Land), Calling(0, Land)])
  }

  lemma RunStep(w: World, e: Event, rest: seq<Event>, v: World)
    requires v == Step(w, e, false)
    ensures Run(w, [e] + rest, false) == Run(v, rest, false)
  {
    assert ([e] + rest)[1..] == rest;
  }

  lemma OpenTheWindow(w: World, at: int)
    requires w.row.actionType == OpenCustomerPaymentSurface && IsStandard(w.row) && w.procs == map[]
    requires Free(w) && !w.inFlight && Claimable(w.row.policy, w.row.status) && Due(w.row, at)
    ensures Run(w, [Claiming(0, Deliver(at)), Claiming(0, ClaimMove.Swap), Claiming(1, Deliver(at))], false)
         == w.(row := w.row.(status := Executing), claimedAt := Some(at), procs := map[0 := Claimed, 1 := Reconciling(false)])
  {
    var v1 := w.(procs := map[0 := Swapping(w.row.status, at)]);
    var v2 := w.(row := w.row.(status := Executing), claimedAt := Some(at), procs := map[0 := Claimed]);
    var v3 := v2.(procs := map[0 := Claimed, 1 := Reconciling(false)]);
    RunStep(w, Claiming(0, Deliver(at)), [Claiming(0, ClaimMove.Swap), Claiming(1, Deliver(at))], v1);
    RunStep(v1, Claiming(0, ClaimMove.Swap), [Claiming(1, Deliver(at))], v2);
    assert v3 == Step(v2, Claiming(1, Deliver(at)), false);
    RunStep(v2, Claiming(1, Deliver(at)), [], v3);
  }

  lemma RaceMarks(w: World)
    requires w.procs == map[0 := Claimed, 1 := Reconciling(false)]
    ensures var v := Step(w, Calling(0, Mark), false);
            v.procs == map[0 := Creating(false), 1 := Reconciling(false)] && (v.row, v.lock, v.links) == (w.row, w.lock, w.links)
  {
    assert PcOf(w, 0) == Some(Claimed);
    assert w.procs[0 := Creating(false)] == map[0 := Creating(false), 1 := Reconciling(false)];
  }

  lemma RaceLocks(w: World)
    requires w.row.status == Executing && Free(w) && w.procs == map[0 := Creating(false), 1 := Reconciling(false)]
    ensures var v := Step(w, Locking(1, LockRow), false);
            v.procs == map[0 := Creating(false), 1 := LookingUp(false)] && (v.row, v.links) == (w.row, w.links)
  {
    assert PcOf(w, 1) == Some(Reconciling(false));
    assert w.procs[1 := LookingUp(false)] == map[0 := Creating(false), 1 := LookingUp(false)];
  }

  lemma RaceLooksUp(w: World)
    requires w.links == 0 && w.procs == map[0 := Creating(false), 1 := LookingUp(false)]
    ensures var v := Step(w, Locking(1, LookedUp(Absent)), false);
            v.procs == map[0 := Creating(false), 1 := Resubmitting(false, false)] && v.links == 0
  {
    assert PcOf(w, 1) == Some(LookingUp(false));
    assert w.procs[1 := Resubmitting(false, false)] == map[0 := Creating(false), 1 := Resubmitting(false, false)];
  }

  lemma RaceInTheWindow(w: World)
    requires w.row.status == Executing && Free(w) && w.links == 0
    requires w.procs == map[0 := Claimed, 1 := Reconciling(false)]
    ensures Run(w, [Calling(0, Mark), Locking(1, LockRow), Locking(1, LookedUp(Absent)), Calling(1, Land), Calling(0, Land)], false).links == 2
  {
    RaceMarks(w);
    var w1 := Step(w, Calling(0, Mark), false);
    RunStep(w, Calling(0, Mark), [Locking(1, LockRow), Locking(1, LookedUp(Absent)), Calling(1, Land), Calling(0, Land)], w1);
    LockLookUpAndLand(w1);
  }

  lemma LockLookUpAndLand(w: World)
    requires w.row.status == Executing && Free(w) && w.links == 0
    requires w.procs == map[0 := Creating(false), 1 := Reconciling(false)]
    ensures Run(w, [Locking(1, LockRow), Locking(1, LookedUp(Absent)), Calling(1, Land), Calling(0, Land)], false).links == 2
  {
    RaceLocks(w);
    var v := Step(w, Locking(1, LockRow), false);
    RunStep(w, Locking(1, LockRow), [Locking(1, LookedUp(Absent)), Calling(1, Land), Calling(0, Land)], v);
    RaceLooksUp(v);
    var u := Step(v, Locking(1, LookedUp(Absent)), false);
    RunStep(v, Locking(1, LookedUp(Absent)), [Calling(1, Land), Calling(0, Land)], u);
    LandTwice(u);
  }

  lemma LandTwice(w: World)
    requires w.procs == map[0 := Creating(false), 1 := Resubmitting(false, false)] && w.links == 0
    ensures Run(w, [Calling(1, Land), Calling(0, Land)], false).links == 2
  {
    var v := StepLand(w, 1);
    assert v.procs == map[0 := Creating(false), 1 := Resubmitting(false, true)];
    RunStep(w, Calling(1, Land), [Calling(0, Land)], v);
    RunStep(v, Calling(0, Land), [], StepLand(v, 0));
  }

  lemma RaceMakesTwoLinks(row: ActionRow)
    requires Recommended(row) && IsStandard(row) && row.policy != Block
    ensures Run(Start(row), RaceThroughTheWindow(row), false).links == 2
  {
    var approve := if row.policy == RequireManualApproval then [Operate(Approve)] else [];
    var at := DueTime(row);
    var claim := [Claiming(0, Deliver(at)), Claiming(0, ClaimMove.Swap), Claiming(1, Deliver(at))];
    var race := [Calling(0, Mark), Locking(1, LockRow), Locking(1, LookedUp(Absent)), Calling(1, Land), Calling(0, Land)];
    RunAppend(Start(row), approve, claim + race, false);
    var w := Run(Start(row), approve, false);
    assert w == Start(row.(status := w.row.status, approved := w.row.approved));
    RunAppend(w, claim, race, false);
    OpenTheWindow(w, at);
    RaceInTheWindow(Run(w, claim, false));
  }

  /** At most one link on every run exactly when claim and mark are one step. */
  lemma AtMostOneLinkIffClaimMarksAtomically(row: ActionRow, atomic: bool)
    requires Recommended(row) && IsStandard(row) && row.policy != Block
    ensures (forall es: seq<Event> :: Run(Start(row), es, atomic).links <= 1) <==> atomic
  {
    if atomic {
      forall es: seq<Event> ensures Run(Start(row), es, atomic).links <= 1 {
        AtomicClaimsHaveNoWindow(Start(row), es);
        OneLinkPerReference(row, es, true);
      }
    } else {
      RaceMakesTwoLinks(row);
    }
  }

  // --------------------------------------------------------- the in-flight mark

  /** The delivery that won the claim, until its first submission is settled. */
  predicate Holds(pc: Pc) { pc.Claimed? || Owns(pc) }

  ghost predicate SomeoneOwns(w: World) { exists p :: p in w.procs && Owns(w.procs[p]) }

  ghost predicate MarkInv(w: World) {
    && (forall p, q | p in w.procs && q in w.procs && Holds(w.procs[p]) && Holds(w.procs[q]) :: p == q)
    && (w.inFlight <==> SomeoneOwns(w))
  }

  lemma MarkInvMove(w: World, p: nat, pc: Pc)
    requires MarkInv(w) && p in w.procs && Holds(w.procs[p]) == Holds(pc) && Owns(w.procs[p]) == Owns(pc)
    ensures MarkInv(To(w, p, pc))
  {
    var v := To(w, p, pc);
    if q :| q in w.procs && Owns(w.procs[q]) { assert q in v.procs && Owns(v.procs[q]); }
  }

  lemma MarkInvRetire(w: World, p: nat)
    requires MarkInv(w) && p in w.procs
    ensures MarkInv(Retire(w, p))
  {
    var v := Retire(w, p);
    if !Owns(w.procs[p]) {
      if q :| q in w.procs && Owns(w.procs[q]) { assert q in v.procs && Owns(v.procs[q]); }
    }
  }

  /** A delivery that owns nothing joins or waits. */
  lemma MarkInvJoin(w: World, p: nat, pc: Pc)
    requires MarkInv(w) && (p in w.procs ==> !Holds(w.procs[p])) && !Holds(pc)
    ensures MarkInv(To(w, p, pc))
  {
    var v := To(w, p, pc);
    if q :| q in w.procs && Owns(w.procs[q]) { assert q in v.procs && Owns(v.procs[q]); }
  }

  lemma MarkInvClaim(w: World, p: nat, c: ClaimMove, atomic: bool, v: World)
    requires RowInv(w) && MarkInv(w) && ClaimShape(w, p, c, atomic, v)
    ensures MarkInv(v)
  {
    if Unclaimed(w.row.status) {
      forall q | q in w.procs ensures Waiting(w.procs[q]) { NothingRunsBeforeTheClaim(w, q); }
    }
    if v != w {
      if v == To(w, p, Reconciling(false)) { MarkInvJoin(w, p, Reconciling(false)); }
      else if p in v.procs && Waiting(v.procs[p]) && v == To(w, p, v.procs[p]) { MarkInvJoin(w, p, v.procs[p]); }
      else if p in w.procs && v == w.(procs := w.procs - {p}) { MarkInvLeave(w, p); }
      else { MarkInvWon(w, p, atomic, v); }
    }
  }

  lemma MarkInvLeave(w: World, p: nat)
    requires MarkInv(w) && p in w.procs && !Holds(w.procs[p])
    ensures MarkInv(w.(procs := w.procs - {p}))
  {
    var v := w.(procs := w.procs - {p});
    if q :| q in w.procs && Owns(w.procs[q]) { assert q in v.procs && Owns(v.procs[q]); }
  }

  lemma MarkInvWon(w: World, p: nat, atomic: bool, v: World)
    requires MarkInv(w) && (forall q | q in w.procs :: Waiting(w.procs[q])) && v.claimedAt.Some?
    requires v == Claim(w.(auth := v.auth, grant := v.grant), p, v.claimedAt.value, atomic)
    ensures MarkInv(v)
  {
    assert p in v.procs && Holds(v.procs[p]);
    assert !w.inFlight;
  }

  lemma MarkInvCall(w: World, p: nat, c: CallMove)
    requires MarkInv(w) && RowInv(w)
    ensures MarkInv(StepCall(w, p, c))
  {
    if p in w.procs {
      var pc := w.procs[p];
      MarkInvRetire(w, p);
      match c
      case Mark => if pc.Claimed? { assert p in StepCall(w, p, c).procs && Owns(StepCall(w, p, c).procs[p]); }
      case Land =>
        if pc == Creating(false) { MarkInvMove(w.(links := w.links + 1), p, Creating(true)); }
        else if pc.Resubmitting? && !pc.landed { MarkInvMove(w.(links := w.links + 1), p, Resubmitting(pc.own, true)); }
      case Return(end) => if pc.Creating? {
        if end.CallOk? { MarkInvJoin(Retire(w, p), p, Persisting); }
        else if end.CallUncertain? && IsStandard(w.row) { MarkInvMove(w, p, Reconciling(true)); }
      }
      case Persist => MarkIgnoresRows(Retire(w, p), Persisted(w.row, "provider"), PersistedAuth(w.row, w.auth));
      case Die =>
    }
  }

  lemma MarkIgnoresRows(w: World, row: ActionRow, auth: Option<AuthStatus>)
    requires MarkInv(w)
    ensures MarkInv(w.(row := row, auth := auth)) && MarkInv(w.(row := row))
  {
  }

  lemma MarkInvLock(w: World, p: nat, c: LockMove)
    requires MarkInv(w) && RowInv(w)
    ensures MarkInv(StepLock(w, p, c))
  {
    if p in w.procs {
      var pc := w.procs[p];
      MarkInvRetire(w, p);
      match c
      case LockRow => if pc.Reconciling? && Free(w) && w.row.status == Executing { MarkInvMove(w, p, LookingUp(pc.own)); }
      case LookedUp(answer) => if pc.LookingUp? {
        if answer.Present? { MarkInvMove(w, p, Settling(pc.own)); }
        else if answer.Absent? { MarkInvMove(w.(calls := w.calls + 1), p, Resubmitting(pc.own, false)); }
      }
      case Resubmitted(ok) => if pc.Resubmitting? { MarkInvMove(w, p, Settling(pc.own)); }
      case Settle => MarkIgnoresRows(Retire(w, p), Persisted(w.row, "provider"), PersistedAuth(w.row, w.auth));
      case EndCleanup(answer, revocation) => if pc.Cleaning? {
        var row := Cleaned(w.row, answer, revocation);
        if row.Some? { MarkIgnoresRows(Retire(w, p), row.value, w.auth); }
      }
      case BeginCleanup =>
    } else if c.BeginCleanup? {
      MarkInvJoin(w, p, Cleaning);
    }
  }

  lemma MarkInvStep(w: World, e: Event, atomic: bool)
    requires RowInv(w) && MarkInv(w)
    ensures MarkInv(Step(w, e, atomic))
  {
    match e
    case Operate(c) => MarkIgnoresRows(w, StepOperate(w, c).row, StepOperate(w, c).auth);
    case Claiming(p, c) => MarkInvClaim(w, p, c, atomic, ClaimStep(w, p, c, atomic));
    case Calling(p, c) => MarkInvCall(w, p, c);
    case Locking(p, c) => MarkInvLock(w, p, c);
    case Crash =>
  }

  lemma {:induction false} MarkInvRun(w: World, es: seq<Event>, atomic: bool)
    requires RowInv(w) && MarkInv(w)
    ensures MarkInv(Run(w, es, atomic))
    decreases |es|
  {
    if es != [] {
      RowInvStep(w, es[0], atomic);
      MarkInvStep(w, es[0], atomic);
      MarkInvRun(Step(w, es[0], atomic), es[1..], atomic);
    }
  }

  /** No delivery leaves its action stuck: the in-flight mark is set exactly while a delivery
      that will discard it runs. So once nothing runs any more, whatever crashed or died, the
      row is unlocked and an EXECUTING standard link is sent to be looked up, not turned away. */
  lemma MarkIsHeldExactlyByItsDelivery(row: ActionRow, es: seq<Event>, atomic: bool, now: int)
    requires Recommended(row)
    ensures var w := Run(Start(row), es, atomic); w.inFlight <==> exists p :: p in w.procs && Owns(w.procs[p])
    ensures var w := Run(Start(row), es, atomic);
            w.procs == map[] ==>
              && !w.inFlight && w.lock.None?
              && (w.row.status == Executing && IsStandard(row) ==> ReadForClaim(Some(w.row), w.inFlight, now) == Decided(Reconcile))
  {
    MarkInvRun(Start(row), es, atomic);
    RunKeeps(Start(row), es, atomic);
  }
}
