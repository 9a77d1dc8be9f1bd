/** Customer and payment safety policy: strict precedence over frozen inputs, with the
    wall-clock arithmetic of merchant-local quiet hours.

    Instants and wall times are microseconds. A zone has at most one offset change, which
    covers every interval short enough to hold a quiet-hours decision. */
module Safety {
  import opened Domain

  const MINUTE := 60_000_000
  const DAY := 1440 * MINUTE

  /** UTC offset `before` until the instant `at`, `after` from then on. */
  datatype Zone = Zone(before: int, after: int, at: int)

  function OffsetAt(z: Zone, instant: int): int { if instant < z.at then z.before else z.after }

  function Wall(z: Zone, instant: int): int { instant + OffsetAt(z, instant) }

  predicate FixedOffset(z: Zone) { z.before == z.after }

  // --------------------------------------------------------------- local times

  /** The offset a wall time with a fold resolves to: around the change, fold 0 keeps the
      offset before it and fold 1 takes the offset after it. */
  function OffsetOfWall(z: Zone, wall: int, fold: nat): int {
    var change := z.at + if fold == 0 then Max(z.before, z.after) else Min(z.before, z.after);
    if wall < change then z.before else z.after
  }

  /** The instants that show a wall time, earlier first: none in a gap, two in an overlap. */
  method ValidLocalCandidates(wall: int, z: Zone) returns (candidates: seq<int>)
    ensures forall u :: u in candidates <==> Wall(z, u) == wall
    ensures |candidates| <= 2 && (|candidates| == 2 ==> candidates[0] < candidates[1])
  {
    candidates := [];
    var fold := 0;
    while fold <= 1
      invariant 0 <= fold <= 2 && |candidates| <= fold
      invariant forall u | u in candidates :: Wall(z, u) == wall
      invariant fold >= 1 && Wall(z, wall - OffsetOfWall(z, wall, 0)) == wall ==> wall - OffsetOfWall(z, wall, 0) in candidates
      invariant fold >= 2 && Wall(z, wall - OffsetOfWall(z, wall, 1)) == wall ==> wall - OffsetOfWall(z, wall, 1) in candidates
      invariant |candidates| == 2 ==> candidates[0] < candidates[1]
      invariant fold == 1 && |candidates| == 1 ==> candidates[0] == wall - OffsetOfWall(z, wall, 0)
    {
      var candidate := wall - OffsetOfWall(z, wall, fold);
      if Wall(z, candidate) == wall && candidate !in candidates { candidates := candidates + [candidate]; }
      fold := fold + 1;
    }
    forall u | Wall(z, u) == wall ensures u in candidates { FoldsFindEveryInstant(z, wall, u); }
  }

  lemma FoldsFindEveryInstant(z: Zone, wall: int, u: int)
    requires Wall(z, u) == wall
    ensures u == wall - OffsetOfWall(z, wall, 0) || u == wall - OffsetOfWall(z, wall, 1)
  {
  }

  /** The latest instant that shows a wall time. */
  function LatestAt(z: Zone, wall: int): (instant: Option<int>)
    ensures instant.None? <==> forall u :: Wall(z, u) != wall
    ensures instant.Some? ==> Wall(z, instant.value) == wall && forall u | Wall(z, u) == wall :: u <= instant.value
  {
    if wall - z.after >= z.at then
      assert Wall(z, wall - z.after) == wall;
      Some(wall - z.after)
    else if wall - z.before < z.at then
      assert Wall(z, wall - z.before) == wall;
      Some(wall - z.before)
    else None
  }

  const GAP_LIMIT := 180 * MINUTE

  /** The first whole minute from a wall time up to a last one that exists, at its latest instant. */
  function ResolvedFrom(z: Zone, wall: int, last: int): Option<int>
    decreases last - wall
  {
    if wall > last then None
    else if LatestAt(z, wall).Some? then LatestAt(z, wall)
    else ResolvedFrom(z, wall + MINUTE, last)
  }

  datatype QuietError = QuietEndUnresolved

  method ResolveQuietEnd(date: int, end: int, z: Zone) returns (r: Result<int, QuietError>)
    ensures r == match ResolvedFrom(z, date * DAY + end, date * DAY + end + GAP_LIMIT)
                 case Some(q) => Ok(q) case None => Err(QuietEndUnresolved)
  {
    var naive := date * DAY + end;
    var minuteOffset := 0;
    while minuteOffset <= 180
      invariant 0 <= minuteOffset <= 181
      invariant ResolvedFrom(z, naive + minuteOffset * MINUTE, naive + GAP_LIMIT) == ResolvedFrom(z, naive, naive + GAP_LIMIT)
    {
      var candidates := ValidLocalCandidates(naive + minuteOffset * MINUTE, z);
      LastCandidateIsLatest(z, naive + minuteOffset * MINUTE, candidates);
      if candidates != [] { return Ok(candidates[|candidates| - 1]); }
      minuteOffset := minuteOffset + 1;
    }
    return Err(QuietEndUnresolved);
  }

  lemma LastCandidateIsLatest(z: Zone, wall: int, candidates: seq<int>)
    requires forall u :: u in candidates <==> Wall(z, u) == wall
    requires |candidates| <= 2 && (|candidates| == 2 ==> candidates[0] < candidates[1])
    ensures LatestAt(z, wall) == if candidates == [] then None else Some(candidates[|candidates| - 1])
  {
    if candidates == [] {
      forall u ensures Wall(z, u) != wall { assert u !in candidates; }
    } else {
      var last := candidates[|candidates| - 1];
      assert last in candidates && Wall(z, last) == wall;
      assert LatestAt(z, wall).Some? && LatestAt(z, wall).value in candidates;
    }
  }

  /** A quiet end is unresolved exactly when its wall time and the three hours after it fall
      into one gap; otherwise it is at the first existing minute of that window. */
  lemma {:induction false} ResolvedFromMeaning(z: Zone, wall: int, last: int) returns (w: int)
    requires wall <= last && (last - wall) % MINUTE == 0
    ensures ResolvedFrom(z, wall, last).None? <==> z.at + z.before <= wall && last < z.at + z.after
    ensures ResolvedFrom(z, wall, last).Some? ==>
      && wall <= w <= last && (w - wall) % MINUTE == 0
      && ResolvedFrom(z, wall, last) == LatestAt(z, w)
      && forall v | wall <= v < w && (v - wall) % MINUTE == 0 :: LatestAt(z, v).None?
    decreases last - wall
  {
    w := wall;
    if LatestAt(z, wall).None? && wall < last {
      w := ResolvedFromMeaning(z, wall + MINUTE, last);
      forall v | ResolvedFrom(z, wall, last).Some? && wall < v < w && (v - wall) % MINUTE == 0
        ensures LatestAt(z, v).None?
      {
        assert wall + MINUTE <= v && (v - (wall + MINUTE)) % MINUTE == 0;
      }
    }
  }

  /** The wall times a clock that jumps forward leaves out. */
  predicate InGap(z: Zone, wall: int) { z.at + z.before <= wall < z.at + z.after }

  /** How many whole minutes lead from a wall time to the first one at or past the gap's end. */
  function MinutesSkipped(z: Zone, wall: int): int { (z.at + z.after - wall + MINUTE - 1) / MINUTE }

  // -------------------------------------------------------------- quiet hours

  datatype QuietHours = QuietHours(start: int, end: int)

  predicate ValidQuietHours(q: QuietHours) { 0 <= q.start < DAY && 0 <= q.end < DAY && q.start != q.end }

  predicate QuietTime(q: QuietHours, timeOfDay: int) {
    if q.start < q.end then q.start <= timeOfDay < q.end else timeOfDay >= q.start || timeOfDay < q.end
  }

  /** On the clock face, quiet is what lies from the start up to the end, over midnight or not. */
  lemma QuietIsFromStartToEnd(q: QuietHours, timeOfDay: int)
    requires ValidQuietHours(q) && 0 <= timeOfDay < DAY
    ensures QuietTime(q, timeOfDay) <==> (timeOfDay - q.start) % DAY < (q.end - q.start) % DAY
  {
    OnTheClockFace(timeOfDay - q.start);
    OnTheClockFace(q.end - q.start);
  }

  lemma OnTheClockFace(d: int)
    requires -DAY < d < DAY
    ensures d % DAY == if d < 0 then d + DAY else d
  {
  }

  predicate QuietAt(q: QuietHours, z: Zone, instant: int) { QuietTime(q, Wall(z, instant) % DAY) }

  /** The wall time at which the quiet interval around a wall time ends. */
  function QuietEndWall(q: QuietHours, wall: int): int {
    var date := wall / DAY;
    (if q.start > q.end && wall % DAY >= q.start then date + 1 else date) * DAY + q.end
  }

  function QuietEnd(z: Zone, wall: int): Option<int> { ResolvedFrom(z, wall, wall + GAP_LIMIT) }

  function QuietHoursDelayUntil(now: int, z: Zone, q: QuietHours): Result<Option<int>, QuietError> {
    if !QuietAt(q, z, now) then Ok(None)
    else match QuietEnd(z, QuietEndWall(q, Wall(z, now)))
      case Some(end) => Ok(Some(end))
      case None => Err(QuietEndUnresolved)
  }

  /** The branches of the service, which meets an end date before it resolves it. */
  method ComputeQuietHoursDelayUntil(now: int, z: Zone, start: int, end: int) returns (r: Result<Option<int>, QuietError>)
    requires ValidQuietHours(QuietHours(start, end))
    ensures r == QuietHoursDelayUntil(now, z, QuietHours(start, end))
    ensures r == Ok(None) <==>
      var local := Wall(z, now) % DAY;
      if start < end then local < start || end <= local else end <= local < start
  {
    var localNow := Wall(z, now);
    var localTime := localNow % DAY;
    var endDate: int;
    if start < end {
      if !(start <= localTime < end) { return Ok(None); }
      endDate := localNow / DAY;
    } else if localTime >= start {
      endDate := localNow / DAY + 1;
    } else if localTime < end {
      endDate := localNow / DAY;
    } else {
      return Ok(None);
    }
    var resolved := ResolveQuietEnd(endDate, end, z);
    return if resolved.Ok? then Ok(Some(resolved.value)) else Err(resolved.error);
  }

  lemma QuietEndIsAhead(q: QuietHours, wall: int)
    requires ValidQuietHours(q) && QuietTime(q, wall % DAY)
    ensures wall < QuietEndWall(q, wall) <= wall + DAY
    ensures QuietEndWall(q, wall) % DAY == q.end
    ensures forall w | wall <= w < QuietEndWall(q, wall) :: QuietTime(q, w % DAY)
  {
    var end := QuietEndWall(q, wall);
    forall w | wall <= w < end ensures QuietTime(q, w % DAY) {
      if w / DAY == wall / DAY { } else { assert w / DAY == wall / DAY + 1; }
    }
  }

  /** With any single offset change, gap or overlap, the quiet end lies strictly after now. */
  lemma QuietEndIsAfterNow(now: int, z: Zone, q: QuietHours)
    requires ValidQuietHours(q) && QuietHoursDelayUntil(now, z, q).Ok? && QuietHoursDelayUntil(now, z, q).value.Some?
    ensures now < QuietHoursDelayUntil(now, z, q).value.value
  {
    var wall := QuietEndWall(q, Wall(z, now));
    QuietEndIsAhead(q, Wall(z, now));
    var w := ResolvedFromMeaning(z, wall, wall + GAP_LIMIT);
    LaterWallIsReached(z, now, w);
  }

  /** The latest instant that shows a later wall time is a later instant. */
  lemma LaterWallIsReached(z: Zone, now: int, wall: int)
    requires Wall(z, now) < wall && LatestAt(z, wall).Some?
    ensures now < LatestAt(z, wall).value
  {
  }

  /** Without an offset change the quiet end is the earliest non-quiet instant from now on,
      and it is always found. */
  lemma FixedOffsetQuietEnd(now: int, z: Zone, q: QuietHours)
    requires ValidQuietHours(q) && FixedOffset(z) && QuietAt(q, z, now)
    ensures QuietHoursDelayUntil(now, z, q).Ok? && QuietHoursDelayUntil(now, z, q).value.Some?
    ensures var end := QuietHoursDelayUntil(now, z, q).value.value;
            && now < end && !QuietAt(q, z, end) && QuietHoursDelayUntil(end, z, q) == Ok(None)
            && forall u | now <= u < end :: QuietAt(q, z, u)
  {
    QuietEndIsAhead(q, Wall(z, now));
    assert LatestAt(z, QuietEndWall(q, Wall(z, now))) == Some(QuietEndWall(q, Wall(z, now)) - z.after);
  }

  /** Whenever the wanted wall time exists, the instant found is not quiet again. */
  lemma ExistingQuietEndIsNotQuiet(now: int, z: Zone, q: QuietHours)
    requires ValidQuietHours(q) && QuietAt(q, z, now) && LatestAt(z, QuietEndWall(q, Wall(z, now))).Some?
    ensures QuietHoursDelayUntil(now, z, q).Ok? && QuietHoursDelayUntil(now, z, q).value.Some?
    ensures QuietHoursDelayUntil(QuietHoursDelayUntil(now, z, q).value.value, z, q) == Ok(None)
  {
    QuietEndIsAhead(q, Wall(z, now));
  }

  /** It is quiet, and the end of quiet hours and the three hours after it fall into one gap. */
  predicate QuietEndInLongGap(now: int, z: Zone, q: QuietHours) {
    var wall := QuietEndWall(q, Wall(z, now));
    QuietAt(q, z, now) && z.at + z.before <= wall && wall + GAP_LIMIT < z.at + z.after
  }

  /** A delay computation fails exactly inside a gap of more than three hours. */
  lemma QuietEndFailsExactlyInLongGaps(now: int, z: Zone, q: QuietHours)
    requires ValidQuietHours(q)
    ensures QuietHoursDelayUntil(now, z, q).Err? <==> QuietEndInLongGap(now, z, q)
  {
    var _ := ResolvedFromMeaning(z, QuietEndWall(q, Wall(z, now)), QuietEndWall(q, Wall(z, now)) + GAP_LIMIT);
  }

  /** A quiet end that falls into a gap moves to the first minute past it. */
  lemma GapResolvesTo(z: Zone, wall: int)
    requires InGap(z, wall) && QuietEnd(z, wall).Some?
    ensures var skipped := MinutesSkipped(z, wall) * MINUTE;
            && 0 < skipped <= GAP_LIMIT
            && QuietEnd(z, wall) == LatestAt(z, wall + skipped)
  {
    var w := ResolvedFromMeaning(z, wall, wall + GAP_LIMIT);
    var minutes := (w - wall) / MINUTE;
    assert w == wall + minutes * MINUTE;
    assert LatestAt(z, w - MINUTE).None?;
    assert z.at + z.after <= w < z.at + z.after + MINUTE;
  }

  /** The length of the interval in which it is not quiet. */
  function AwakeSpan(q: QuietHours): int {
    if q.start > q.end then q.start - q.end else q.start - q.end + DAY
  }

  lemma QuietAfterTheEnd(q: QuietHours, wall: int, later: int)
    requires ValidQuietHours(q) && wall % DAY == q.end && 0 <= later < DAY
    ensures QuietTime(q, (wall + later) % DAY) <==> later >= AwakeSpan(q)
  {
    assert (wall + later) % DAY == if q.end + later < DAY then q.end + later else q.end + later - DAY;
  }

  /** The gap around the end of quiet hours is long enough to reach the next quiet interval. */
  predicate SkipsIntoQuiet(q: QuietHours, z: Zone, now: int) {
    var wall := QuietEndWall(q, Wall(z, now));
    InGap(z, wall) && MinutesSkipped(z, wall) * MINUTE >= AwakeSpan(q)
  }

  /** The instant a delay names is quiet again exactly when the end of quiet hours falls into
      a gap and the minutes skipped to leave it span the whole non-quiet interval. */
  lemma QuietAgainIff(now: int, z: Zone, q: QuietHours)
    requires ValidQuietHours(q) && QuietHoursDelayUntil(now, z, q).Ok? && QuietHoursDelayUntil(now, z, q).value.Some?
    ensures QuietAt(q, z, QuietHoursDelayUntil(now, z, q).value.value) <==> SkipsIntoQuiet(q, z, now)
  {
    var wall := QuietEndWall(q, Wall(z, now));
    QuietEndIsAhead(q, Wall(z, now));
    if InGap(z, wall) {
      GapResolvesTo(z, wall);
      QuietAfterTheEnd(q, wall, MinutesSkipped(z, wall) * MINUTE);
    } else {
      ExistingQuietEndIsNotQuiet(now, z, q);
    }
  }

  /** Quiet hours that leave more than three hours awake are never re-entered. */
  lemma LongAwakeSpansAreNeverSkipped(now: int, z: Zone, q: QuietHours)
    requires ValidQuietHours(q) && AwakeSpan(q) > GAP_LIMIT
    requires QuietHoursDelayUntil(now, z, q).Ok? && QuietHoursDelayUntil(now, z, q).value.Some?
    ensures !QuietAt(q, z, QuietHoursDelayUntil(now, z, q).value.value)
  {
    var wall := QuietEndWall(q, Wall(z, now));
    if InGap(z, wall) { GapResolvesTo(z, wall); }
    QuietAgainIff(now, z, q);
  }

  // ------------------------------------------------------------------- policy

  datatype Reason =
    | GlobalKillSwitch | MerchantKillSwitch | CaseTerminal | PaymentAlreadyCaptured
    | CustomerOptedOut | CustomerWrongPerson | CustomerDispute | CustomerReportsAlreadyPaid
    | RecoveryWindowExpired | GatewayRetryActive | WaitForProviderRetry
    | ContactLimitReached | QuietHoursActive
    | ActionRequiresApproval | AmountRequiresApproval | WithinRecoveryWindow | NoSuppression

  datatype Config = Config(
    zone: Zone, quietHours: Option<QuietHours>, maxContacts: Option<nat>,
    manualActions: set<ActionType>, manualAbovePaise: Option<nat>,
    globalKillSwitch: bool, merchantKillSwitch: bool, gatewayRetryDelay: int)

  predicate ValidConfig(c: Config) {
    && (c.quietHours.Some? ==> ValidQuietHours(c.quietHours.value))
    && (c.maxContacts.Some? ==> c.maxContacts.value >= 1)
    && c.gatewayRetryDelay > 0
  }

  datatype Context = Context(
    now: int, deadline: int, outcome: CaseOutcome, payment: PaymentState,
    subscription: SubscriptionState, contact: ContactDisposition,
    action: ActionType, surface: Option<Surface>, amountPaise: nat,
    gatewayRetries: bool, contactAttempts: nat, contactResetsAt: Option<int>)

  datatype PolicyDecision = PolicyDecision(disposition: Disposition, codes: seq<Reason>, delayUntil: Option<int>)

  predicate IsContact(a: ActionType) { a == OpenCustomerPaymentSurface || IsOutreach(a) }

  predicate IsOutreach(a: ActionType) { a == StartVoice || a == SendToCustomerAgent }

  predicate IsTerminalControl(a: ActionType) { a == Stop || a == EscalateToHuman }

  function Suppression(d: ContactDisposition): Option<Reason> {
    match d
    case OptedOut => Some(CustomerOptedOut)
    case WrongPerson => Some(CustomerWrongPerson)
    case Dispute => Some(CustomerDispute)
    case AlreadyPaid => Some(CustomerReportsAlreadyPaid)
    case _ => None
  }

  function Blocked(reason: Reason): Result<PolicyDecision, QuietError> { Ok(PolicyDecision(Block, [reason], None)) }

  function Delayed(reason: Reason, until: int): Result<PolicyDecision, QuietError> {
    Ok(PolicyDecision(Delay, [reason], Some(until)))
  }

  /** The configured quiet hours have an end that cannot be resolved now. */
  predicate QuietEndLost(now: int, c: Config) {
    c.quietHours.Some? && QuietEndInLongGap(now, c.zone, c.quietHours.value)
  }

  /** The quiet-hours flag of the decision engine's feature snapshot: it is computed for every
      case, whether or not an outreach action is among the candidates. */
  method QuietHoursFeature(now: int, c: Config) returns (isQuietHours: Result<bool, QuietError>)
    requires ValidConfig(c)
    ensures isQuietHours.Err? <==> QuietEndLost(now, c)
    ensures isQuietHours.Ok? ==> (isQuietHours.value <==> c.quietHours.Some? && QuietAt(c.quietHours.value, c.zone, now))
  {
    if c.quietHours.None? { return Ok(false); }
    var quiet := c.quietHours.value;
    var delay := ComputeQuietHoursDelayUntil(now, c.zone, quiet.start, quiet.end);
    QuietEndFailsExactlyInLongGaps(now, c.zone, quiet);
    return if delay.Ok? then Ok(delay.value.Some?) else Err(delay.error);
  }

  /** The gates that no action but STOP and ESCALATE passes. */
  function HardBlock(x: Context, c: Config): Option<Reason> {
    if IsTerminalControl(x.action) then None
    else if c.globalKillSwitch then Some(GlobalKillSwitch)
    else if c.merchantKillSwitch then Some(MerchantKillSwitch)
    else if x.outcome != Open then Some(CaseTerminal)
    else if x.payment == Captured then Some(PaymentAlreadyCaptured)
    else if IsContact(x.action) && Suppression(x.contact).Some? then Suppression(x.contact)
    else if x.now >= x.deadline then Some(RecoveryWindowExpired)
    else None
  }

  function Evaluate(x: Context, c: Config): Result<PolicyDecision, QuietError> {
    if HardBlock(x, c).Some? then Blocked(HardBlock(x, c).value)
    else if x.subscription == SubPending && x.gatewayRetries && x.surface == Some(StandardPaymentLink) then
      Blocked(GatewayRetryActive)
    else if x.subscription == SubPending && x.gatewayRetries && x.action == WaitForGatewayRetry
            && Min(x.now + c.gatewayRetryDelay, x.deadline) > x.now then
      Delayed(WaitForProviderRetry, Min(x.now + c.gatewayRetryDelay, x.deadline))
    else if IsOutreach(x.action) then Outreach(x, c)
    else Ok(Approval(x, c))
  }

  function Outreach(x: Context, c: Config): Result<PolicyDecision, QuietError> {
    if c.maxContacts.Some? && x.contactAttempts >= c.maxContacts.value then
      if x.contactResetsAt.Some? && x.now < x.contactResetsAt.value < x.deadline
      then Delayed(ContactLimitReached, x.contactResetsAt.value) else Blocked(ContactLimitReached)
    else if c.quietHours.None? then Ok(Approval(x, c))
    else match QuietHoursDelayUntil(x.now, c.zone, c.quietHours.value)
      case Err(e) => Err(e)
      case Ok(None) => Ok(Approval(x, c))
      case Ok(Some(end)) =>
        if end < x.deadline then Delayed(QuietHoursActive, end) else Blocked(QuietHoursActive)
  }

  function Approval(x: Context, c: Config): PolicyDecision {
    var manual := if !IsTerminalControl(x.action) && x.action in c.manualActions then [ActionRequiresApproval] else [];
    var large := if IsContact(x.action) && c.manualAbovePaise.Some? && x.amountPaise >= c.manualAbovePaise.value
                 then [AmountRequiresApproval] else [];
    if manual + large != [] then PolicyDecision(RequireManualApproval, manual + large, None)
    else PolicyDecision(Allow, [WithinRecoveryWindow, NoSuppression], None)
  }

  /** The service's early returns, in its order. */
  method EvaluateSafetyPolicy(x: Context, c: Config) returns (r: Result<PolicyDecision, QuietError>)
    requires ValidConfig(c) && (x.surface.Some? <==> x.action == OpenCustomerPaymentSurface)
    ensures r == Evaluate(x, c)
  {
    var control, contact := IsTerminalControl(x.action), IsContact(x.action);
    if c.globalKillSwitch && !control { return Blocked(GlobalKillSwitch); }
    if c.merchantKillSwitch && !control { return Blocked(MerchantKillSwitch); }
    if x.outcome != Open && !control { return Blocked(CaseTerminal); }
    if x.payment == Captured && !control { return Blocked(PaymentAlreadyCaptured); }
    var suppression := Suppression(x.contact);
    if contact && suppression.Some? { return Blocked(suppression.value); }
    if x.now >= x.deadline && !control { return Blocked(RecoveryWindowExpired); }
    if x.action == OpenCustomerPaymentSurface && x.surface == Some(StandardPaymentLink)
       && x.subscription == SubPending && x.gatewayRetries {
      return Blocked(GatewayRetryActive);
    }
    if x.action == WaitForGatewayRetry && x.subscription == SubPending && x.gatewayRetries {
      var delayUntil := Min(x.now + c.gatewayRetryDelay, x.deadline);
      if delayUntil > x.now { return Delayed(WaitForProviderRetry, delayUntil); }
    }
    if IsOutreach(x.action) && c.maxContacts.Some? && x.contactAttempts >= c.maxContacts.value {
      var resetAt := x.contactResetsAt;
      if resetAt.Some? && x.now < resetAt.value < x.deadline { return Delayed(ContactLimitReached, resetAt.value); }
      return Blocked(ContactLimitReached);
    }
    if IsOutreach(x.action) && c.quietHours.Some? {
      var quietEnd := ComputeQuietHoursDelayUntil(x.now, c.zone, c.quietHours.value.start, c.quietHours.value.end);
      if quietEnd.Err? { return Err(quietEnd.error); }
      if quietEnd.value.Some? {
        if quietEnd.value.value < x.deadline { return Delayed(QuietHoursActive, quietEnd.value.value); }
        return Blocked(QuietHoursActive);
      }
    }
    return Ok(Approval(x, c));
  }

  /** What an evaluation comes to, gate by gate: a shut case or an active retry blocks, a retry
      that is waited for, a used-up contact limit and quiet hours delay into the window or block,
      and whatever passes is sent for approval exactly when its action or its amount asks for it. */
  lemma EvaluationGateByGate(x: Context, c: Config)
    requires ValidConfig(c) && (x.surface.Some? <==> x.action == OpenCustomerPaymentSurface)
    ensures
      var r := Evaluate(x, c);
      var outreach := x.action in {StartVoice, SendToCustomerAgent};
      var contact := outreach || x.action == OpenCustomerPaymentSurface;
      var retrying := x.subscription == SubPending && x.gatewayRetries;
      if x.action !in {Stop, EscalateToHuman} &&
         (c.globalKillSwitch || c.merchantKillSwitch || x.outcome != Open || x.payment == Captured || x.now >= x.deadline
          || (contact && x.contact in {OptedOut, WrongPerson, Dispute, AlreadyPaid}))
      then r.Ok? && r.value.disposition == Block
      else if retrying && x.surface == Some(StandardPaymentLink) then r == Blocked(GatewayRetryActive)
      else if retrying && x.action == WaitForGatewayRetry then
        r == Delayed(WaitForProviderRetry,
                     if x.now + c.gatewayRetryDelay <= x.deadline then x.now + c.gatewayRetryDelay else x.deadline)
      else if outreach && c.maxContacts.Some? && x.contactAttempts >= c.maxContacts.value then
        r == if x.contactResetsAt.Some? && x.now < x.contactResetsAt.value < x.deadline
             then Delayed(ContactLimitReached, x.contactResetsAt.value) else Blocked(ContactLimitReached)
      else if outreach && c.quietHours.Some? && QuietAt(c.quietHours.value, c.zone, x.now) then
        match QuietHoursDelayUntil(x.now, c.zone, c.quietHours.value)
        case Err(e) => r == Err(e)
        case Ok(until) =>
          until.Some? &&
          (r == if until.value < x.deadline then Delayed(QuietHoursActive, until.value) else Blocked(QuietHoursActive))
      else
        && r.Ok? && r.value.disposition in {Allow, RequireManualApproval}
        && (r.value.disposition == RequireManualApproval <==>
              || (x.action in c.manualActions && x.action !in {Stop, EscalateToHuman})
              || (contact && c.manualAbovePaise.Some? && x.amountPaise >= c.manualAbovePaise.value))
  {
    if c.quietHours.Some? { QuietEndFailsExactlyInLongGaps(x.now, c.zone, c.quietHours.value); }
  }

  /** A policy evaluation fails only where the quiet end is lost. */
  lemma PolicyFailsOnlyInLongGaps(x: Context, c: Config)
    requires ValidConfig(c) && Evaluate(x, c).Err?
    ensures QuietEndLost(x.now, c) && IsOutreach(x.action)
  {
    QuietEndFailsExactlyInLongGaps(x.now, c.zone, c.quietHours.value);
  }

  /** Every DELAY names an instant strictly after now and no later than the deadline, and
      no other decision names one. */
  lemma DelayIsInsideTheWindow(x: Context, c: Config)
    requires ValidConfig(c) && Evaluate(x, c).Ok?
    ensures var d := Evaluate(x, c).value;
            && (d.disposition == Delay <==> d.delayUntil.Some?)
            && (d.disposition == Delay ==> x.now < d.delayUntil.value <= x.deadline)
  {
    if IsOutreach(x.action) && c.quietHours.Some? {
      var q := QuietHoursDelayUntil(x.now, c.zone, c.quietHours.value);
      if q.Ok? && q.value.Some? { QuietEndIsAfterNow(x.now, c.zone, c.quietHours.value); }
    }
  }

  /** STOP and ESCALATE are never blocked, delayed or sent for approval, and never fail. */
  lemma TerminalControlsAreAlwaysAllowed(x: Context, c: Config)
    requires IsTerminalControl(x.action) && (x.surface.Some? <==> x.action == OpenCustomerPaymentSurface)
    ensures Evaluate(x, c).Ok? && Evaluate(x, c).value.disposition == Allow
  {
  }

  /** Everything else is blocked outright on a closed or paid case, past the deadline, under
      a kill switch, and, if it contacts the customer, after any of the four suppressions. */
  lemma ClosedCasesAdmitOnlyTerminalControls(x: Context, c: Config)
    ensures (!IsTerminalControl(x.action) &&
             (c.globalKillSwitch || c.merchantKillSwitch || x.outcome != Open || x.payment == Captured
              || x.now >= x.deadline || (IsContact(x.action) && Suppression(x.contact).Some?)))
        <==> HardBlock(x, c).Some?
    ensures HardBlock(x, c).Some? ==> Evaluate(x, c).Ok? && Evaluate(x, c).value.disposition == Block
  {
  }

  /** One quiet-hours delay is enough: at the instant it names, with nothing else changed, the
      action is allowed or sent for approval, unless a gap skipped into the next quiet hours. */
  lemma OneQuietDelayIsEnough(x: Context, c: Config)
    requires ValidConfig(c) && Evaluate(x, c).Ok?
    requires x.surface.Some? <==> x.action == OpenCustomerPaymentSurface
    requires Evaluate(x, c).value.codes == [QuietHoursActive] && Evaluate(x, c).value.disposition == Delay
    ensures var again := Evaluate(x.(now := Evaluate(x, c).value.delayUntil.value), c);
            (again.Ok? && (again.value.disposition == Allow || again.value.disposition == RequireManualApproval))
              <==> !SkipsIntoQuiet(c.quietHours.value, c.zone, x.now)
  {
    QuietAgainIff(x.now, c.zone, c.quietHours.value);
    DelayIsInsideTheWindow(x, c);
  }

  /** With quiet hours from 02:10 to 02:05 and a clock that jumps from 02:00 to 03:00, the
      instant found is quiet again. */
  lemma AGapCanEndInQuietHours()
    ensures var z := Zone(0, 60 * MINUTE, 120 * MINUTE);
            var q := QuietHours(130 * MINUTE, 125 * MINUTE);
            && ValidQuietHours(q) && QuietAt(q, z, 0) && SkipsIntoQuiet(q, z, 0)
            && QuietHoursDelayUntil(0, z, q) == Ok(Some(120 * MINUTE)) && QuietAt(q, z, 120 * MINUTE)
  {
    var z := Zone(0, 60 * MINUTE, 120 * MINUTE);
    var q := QuietHours(130 * MINUTE, 125 * MINUTE);
    QuietEndFailsExactlyInLongGaps(0, z, q);
    GapResolvesTo(z, 125 * MINUTE);
  }
}
