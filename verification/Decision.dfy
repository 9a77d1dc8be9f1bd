/** Ranked recovery decisions: enumerate what the deployment can do, rank by utility, and let
    the safety policy gate the ranking. */
module Decision {
  import opened Domain
  import opened Safety

  datatype Candidate = Candidate(actionType: ActionType, surface: Option<Surface>, tiePriority: nat)

  datatype Score = Score(probability: real, recoveredPaise: int, utilityPaise: int)

  datatype Scored = Scored(candidate: Candidate, score: Score)

  datatype DecisionContext = DecisionContext(
    amountPaise: nat, diagnosis: Diagnosis, outcome: CaseOutcome, payment: PaymentState,
    subscription: SubscriptionState, contact: ContactDisposition, deadline: int, now: int,
    hasFailedInvoice: bool, gatewayRetries: bool, standardLinks: bool,
    voiceAvailable: bool, voiceConsent: bool, voiceDestination: bool,
    agentActionAvailable: bool, agentAvailable: bool)

  // --------------------------------------------------------------- enumeration

  predicate CustomerRemediable(d: Diagnosis) { d != MerchantError && d != RiskOrComplianceBlock }

  predicate GatewayRelevant(d: Diagnosis) {
    d == TransientRetryable || d == InsufficientFunds || d == DiagnosisUnknown
  }

  function PreferredSurface(d: Diagnosis): Surface {
    if d == AuthenticationRequired || d == InstrumentInvalid then CardUpdate else InvoiceLink
  }

  /** The surfaces' names in alphabetical order, behind the preferred one. */
  function SurfaceKey(d: Diagnosis, s: Surface): (bool, nat) {
    (s != PreferredSurface(d), match s case StandardPaymentLink => 0 case CardUpdate => 1 case InvoiceLink => 2)
  }

  function SurfaceOrder(d: Diagnosis, standardLinks: bool): (order: seq<Surface>)
    ensures CardUpdate in order && InvoiceLink in order && (StandardPaymentLink in order <==> standardLinks)
    ensures order[0] != StandardPaymentLink
    ensures order[0] == CardUpdate <==> d in {AuthenticationRequired, InstrumentInvalid}
    ensures forall i, j | 0 <= i < j < |order| ::
      var (p, m), (q, n) := SurfaceKey(d, order[i]), SurfaceKey(d, order[j]); (!p && q) || (p == q && m < n)
  {
    var preferred := PreferredSurface(d);
    [preferred] + (if standardLinks then [StandardPaymentLink] else [])
    + [if preferred == CardUpdate then InvoiceLink else CardUpdate]
  }

  const SURFACE_PRIORITY := 10

  function SurfaceCandidates(x: DecisionContext): (cs: seq<Candidate>)
    ensures cs != [] <==> x.hasFailedInvoice && CustomerRemediable(x.diagnosis)
                          && !(x.diagnosis == TransientRetryable && x.gatewayRetries)
    ensures |cs| <= 3
    ensures forall i | 0 <= i < |cs| ::
      cs[i].actionType == OpenCustomerPaymentSurface && cs[i].surface.Some? && cs[i].tiePriority == SURFACE_PRIORITY + i
    ensures forall i, j | 0 <= i < j < |cs| :: cs[i].surface != cs[j].surface
  {
    if !x.hasFailedInvoice || !CustomerRemediable(x.diagnosis) then []
    else if x.diagnosis == TransientRetryable && x.gatewayRetries then []
    else
      var surfaces := SurfaceOrder(x.diagnosis, x.standardLinks);
      seq(|surfaces|, i requires 0 <= i < |surfaces| =>
        Candidate(OpenCustomerPaymentSurface, Some(surfaces[i]), SURFACE_PRIORITY + i))
  }

  const Waiting := Candidate(WaitForGatewayRetry, None, 0)
  const Delegating := Candidate(SendToCustomerAgent, None, 20)
  const Calling := Candidate(StartVoice, None, 30)
  const Escalating := Candidate(EscalateToHuman, None, 40)
  const Stopping := Candidate(Stop, None, 50)

  predicate CanCall(x: DecisionContext) {
    CustomerRemediable(x.diagnosis) && x.voiceAvailable && x.voiceConsent && x.voiceDestination
  }

  predicate CanDelegate(x: DecisionContext) {
    CustomerRemediable(x.diagnosis) && x.agentActionAvailable && x.agentAvailable
  }

  function When(condition: bool, c: Candidate): seq<Candidate> { if condition then [c] else [] }

  function Eligible(x: DecisionContext): seq<Candidate> {
    When(x.gatewayRetries && GatewayRelevant(x.diagnosis), Waiting) + SurfaceCandidates(x)
    + When(CanCall(x), Calling) + When(CanDelegate(x), Delegating) + [Escalating, Stopping]
  }

  method GenerateTechnicallyEligibleActions(x: DecisionContext) returns (candidates: seq<Candidate>)
    ensures WellFormed(candidates)
    ensures Waiting in candidates <==>
      x.gatewayRetries && x.diagnosis in {TransientRetryable, InsufficientFunds, DiagnosisUnknown}
    ensures Calling in candidates <==>
      x.diagnosis !in {MerchantError, RiskOrComplianceBlock} && x.voiceAvailable && x.voiceConsent && x.voiceDestination
    ensures Delegating in candidates <==>
      x.diagnosis !in {MerchantError, RiskOrComplianceBlock} && x.agentActionAvailable && x.agentAvailable
    ensures forall s :: OffersSurface(candidates, s) <==>
      && x.hasFailedInvoice && x.diagnosis !in {MerchantError, RiskOrComplianceBlock}
      && !(x.diagnosis == TransientRetryable && x.gatewayRetries)
      && (s == StandardPaymentLink ==> x.standardLinks)
    ensures candidates == Eligible(x)
  {
    candidates := When(x.gatewayRetries && GatewayRelevant(x.diagnosis), Waiting);
    candidates := candidates + SurfaceCandidates(x);
    candidates := candidates + When(CanCall(x), Calling);
    candidates := candidates + When(CanDelegate(x), Delegating);
    candidates := candidates + [Escalating, Stopping];
    EligibleIsWellFormed(x);
    EligibleIsExactlyWhatIsPossible(x);
  }

  predicate OffersSurface(cs: seq<Candidate>, s: Surface) {
    exists c :: c in cs && c.actionType == OpenCustomerPaymentSurface && c.surface == Some(s)
  }

  /** A surface can be offered for a failed invoice the customer can remedy, outside an active
      retry of a transient failure; the standard link only where the provider has links. */
  predicate SurfaceOffered(x: DecisionContext, s: Surface) {
    && x.hasFailedInvoice && CustomerRemediable(x.diagnosis)
    && !(x.diagnosis == TransientRetryable && x.gatewayRetries)
    && (s == StandardPaymentLink ==> x.standardLinks)
  }

  /** Every action is a candidate exactly when the case and the deployment allow it. */
  lemma EligibleIsExactlyWhatIsPossible(x: DecisionContext)
    ensures Waiting in Eligible(x) <==>
      x.gatewayRetries && x.diagnosis in {TransientRetryable, InsufficientFunds, DiagnosisUnknown}
    ensures Calling in Eligible(x) <==>
      x.diagnosis !in {MerchantError, RiskOrComplianceBlock} && x.voiceAvailable && x.voiceConsent && x.voiceDestination
    ensures Delegating in Eligible(x) <==>
      x.diagnosis !in {MerchantError, RiskOrComplianceBlock} && x.agentActionAvailable && x.agentAvailable
    ensures forall s :: OffersSurface(Eligible(x), s) <==>
      && x.hasFailedInvoice && x.diagnosis !in {MerchantError, RiskOrComplianceBlock}
      && !(x.diagnosis == TransientRetryable && x.gatewayRetries)
      && (s == StandardPaymentLink ==> x.standardLinks)
  {
    var surfaces := SurfaceCandidates(x);
    forall c ensures c in Eligible(x) <==>
      c in When(x.gatewayRetries && GatewayRelevant(x.diagnosis), Waiting) || c in surfaces
      || c in When(CanCall(x), Calling) || c in When(CanDelegate(x), Delegating) || c == Escalating || c == Stopping {}
    forall s ensures OffersSurface(Eligible(x), s) <==> OffersSurface(surfaces, s) {}
    forall s ensures OffersSurface(surfaces, s) <==> SurfaceOffered(x, s) { SurfacesOfferedAreListed(x, s); }
  }

  lemma SurfacesOfferedAreListed(x: DecisionContext, s: Surface)
    ensures OffersSurface(SurfaceCandidates(x), s) <==> SurfaceOffered(x, s)
  {
    var surfaces := SurfaceCandidates(x);
    if surfaces != [] {
      var order := SurfaceOrder(x.diagnosis, x.standardLinks);
      assert forall i | 0 <= i < |order| :: surfaces[i].surface == Some(order[i]);
      if SurfaceOffered(x, s) {
        var i :| 0 <= i < |order| && order[i] == s;
        assert surfaces[i] in surfaces;
      }
    }
  }

  /** No two candidates of a case tie on priority, a surface is named exactly by the surface
      actions, and both terminal controls are there. */
  ghost predicate WellFormed(cs: seq<Candidate>) {
    DistinctTies(cs) && SurfacesNamed(cs) && Escalating in cs && Stopping in cs
  }

  ghost predicate DistinctTies(cs: seq<Candidate>) {
    forall i, j | 0 <= i < j < |cs| :: cs[i].tiePriority != cs[j].tiePriority
  }

  ghost predicate SurfacesNamed(cs: seq<Candidate>) {
    forall i | 0 <= i < |cs| :: cs[i].surface.Some? <==> cs[i].actionType == OpenCustomerPaymentSurface
  }

  ghost predicate Within(cs: seq<Candidate>, low: nat, high: nat) {
    forall i | 0 <= i < |cs| :: low <= cs[i].tiePriority <= high
  }

  lemma EligibleIsWellFormed(x: DecisionContext)
    ensures WellFormed(Eligible(x))
  {
    SurfacesApart(x);
    AtMostOne(x.gatewayRetries && GatewayRelevant(x.diagnosis), Waiting);
    AtMostOne(CanCall(x), Calling);
    AtMostOne(CanDelegate(x), Delegating);
    Assembled(When(x.gatewayRetries && GatewayRelevant(x.diagnosis), Waiting), SurfaceCandidates(x),
              When(CanCall(x), Calling), When(CanDelegate(x), Delegating));
  }

  lemma AtMostOne(condition: bool, c: Candidate)
    requires c.surface.Some? <==> c.actionType == OpenCustomerPaymentSurface
    ensures DistinctTies(When(condition, c)) && SurfacesNamed(When(condition, c))
            && Within(When(condition, c), c.tiePriority, c.tiePriority)
  {
  }

  lemma SurfacesApart(x: DecisionContext)
    ensures DistinctTies(SurfaceCandidates(x)) && SurfacesNamed(SurfaceCandidates(x)) && Within(SurfaceCandidates(x), 10, 12)
  {
  }

  lemma Assembled(waiting: seq<Candidate>, surfaces: seq<Candidate>, calling: seq<Candidate>, delegating: seq<Candidate>)
    requires DistinctTies(waiting) && SurfacesNamed(waiting) && Within(waiting, 0, 0)
    requires DistinctTies(surfaces) && SurfacesNamed(surfaces) && Within(surfaces, 10, 12)
    requires DistinctTies(calling) && SurfacesNamed(calling) && Within(calling, 30, 30)
    requires DistinctTies(delegating) && SurfacesNamed(delegating) && Within(delegating, 20, 20)
    ensures WellFormed(waiting + surfaces + calling + delegating + [Escalating, Stopping])
  {
    AppendApart(waiting, surfaces);
    AppendApart(waiting + surfaces, calling);
    AppendApart(waiting + surfaces + calling, delegating);
    EndsWithControls(waiting + surfaces + calling + delegating);
  }

  lemma AppendApart(a: seq<Candidate>, b: seq<Candidate>)
    requires DistinctTies(a) && DistinctTies(b) && SurfacesNamed(a) && SurfacesNamed(b)
    requires forall i, j | 0 <= i < |a| && 0 <= j < |b| :: a[i].tiePriority != b[j].tiePriority
    ensures DistinctTies(a + b) && SurfacesNamed(a + b)
  {
  }

  lemma EndsWithControls(a: seq<Candidate>)
    requires DistinctTies(a) && SurfacesNamed(a) && forall i | 0 <= i < |a| :: a[i].tiePriority < 40
    ensures WellFormed(a + [Escalating, Stopping])
  {
    AppendApart(a, [Escalating, Stopping]);
    assert (a + [Escalating, Stopping])[|a|] == Escalating && (a + [Escalating, Stopping])[|a| + 1] == Stopping;
  }

  // ------------------------------------------------------------------- ranking

  /** The strict order of the ranking key, smallest key first. Its last part, the candidate's
      name, is never reached because tie priorities are distinct. */
  predicate Before(a: Scored, b: Scored) {
    || a.score.utilityPaise > b.score.utilityPaise
    || (a.score.utilityPaise == b.score.utilityPaise &&
        (|| a.score.recoveredPaise > b.score.recoveredPaise
         || (a.score.recoveredPaise == b.score.recoveredPaise &&
             (|| a.score.probability > b.score.probability
              || (a.score.probability == b.score.probability && a.candidate.tiePriority < b.candidate.tiePriority)))))
  }

  lemma BeforeIsAStrictOrder(a: Scored, b: Scored, c: Scored)
    ensures !(Before(a, b) && Before(b, a))
    ensures Before(a, b) && Before(b, c) ==> Before(a, c)
    ensures !Before(a, b) && !Before(b, c) ==> !Before(a, c)
    ensures a.candidate.tiePriority != b.candidate.tiePriority ==> Before(a, b) || Before(b, a)
  {
  }

  ghost predicate Ordered(s: seq<Scored>) {
    forall i, j | 0 <= i < j < |s| :: !Before(s[j], s[i])
  }

  /** A stable insertion. */
  function InsertRanked(x: Scored, s: seq<Scored>): (t: seq<Scored>)
    ensures multiset(t) == multiset(s) + multiset{x}
    ensures Ordered(s) ==> Ordered(t)
  {
    if s == [] || !Before(s[0], x) then
      InsertInFront(x, s);
      [x] + s
    else
      var rest := InsertRanked(x, s[1..]);
      InsertBehind(x, s, rest);
      [s[0]] + rest
  }

  lemma InsertInFront(x: Scored, s: seq<Scored>)
    requires s == [] || !Before(s[0], x)
    ensures multiset([x] + s) == multiset(s) + multiset{x}
    ensures Ordered(s) ==> Ordered([x] + s)
  {
    if Ordered(s) {
      forall j | 0 <= j < |s| ensures !Before(s[j], x) {
        if j > 0 { BeforeIsAStrictOrder(s[j], s[0], x); }
      }
    }
  }

  lemma InsertBehind(x: Scored, s: seq<Scored>, rest: seq<Scored>)
    requires s != [] && Before(s[0], x) && multiset(rest) == multiset(s[1..]) + multiset{x}
    requires Ordered(s[1..]) ==> Ordered(rest)
    ensures multiset([s[0]] + rest) == multiset(s) + multiset{x}
    ensures Ordered(s) ==> Ordered([s[0]] + rest)
  {
    assert s == [s[0]] + s[1..];
    if Ordered(s) {
      forall y | y in rest ensures !Before(y, s[0]) {
        assert y in multiset(rest);
        BeforeIsAStrictOrder(s[0], x, x);
        if y != x { assert y in s[1..]; }
      }
    }
  }

  function Rank(s: seq<Scored>): (t: seq<Scored>)
    ensures multiset(t) == multiset(s) && Ordered(t)
  {
    if s == [] then [] else
      assert s == [s[0]] + s[1..];
      InsertRanked(s[0], Rank(s[1..]))
  }

  ghost predicate TiesTellApart(s: seq<Scored>) {
    forall a, b | a in s && b in s && a.candidate.tiePriority == b.candidate.tiePriority :: a == b
  }

  /** There is only one ordered arrangement of the same candidates. */
  lemma {:induction false} OrderedIsUnique(s: seq<Scored>, t: seq<Scored>)
    requires Ordered(s) && Ordered(t) && multiset(s) == multiset(t) && TiesTellApart(s)
    ensures s == t
  {
    assert |s| == |multiset(s)| == |multiset(t)| == |t|;
    if s != [] {
      HeadsAgree(s, t);
      WithoutHead(s);
      WithoutHead(t);
      OrderedIsUnique(s[1..], t[1..]);
    }
  }

  lemma WithoutHead(s: seq<Scored>)
    requires s != []
    ensures s == [s[0]] + s[1..] && multiset(s[1..]) == multiset(s) - multiset{s[0]}
    ensures Ordered(s) ==> Ordered(s[1..])
    ensures TiesTellApart(s) ==> TiesTellApart(s[1..])
  {
    assert s == [s[0]] + s[1..];
  }

  lemma HeadsAgree(s: seq<Scored>, t: seq<Scored>)
    requires Ordered(s) && Ordered(t) && multiset(s) == multiset(t) && TiesTellApart(s) && s != [] && t != []
    ensures s[0] == t[0]
  {
    assert s[0] in multiset(t) && t[0] in multiset(s);
    LeastIsFirst(s, t[0]);
    LeastIsFirst(t, s[0]);
    BeforeIsAStrictOrder(s[0], t[0], t[0]);
  }

  lemma LeastIsFirst(s: seq<Scored>, x: Scored)
    requires Ordered(s) && x in s
    ensures !Before(x, s[0])
  {
    var i :| 0 <= i < |s| && s[i] == x;
    if i == 0 { BeforeIsAStrictOrder(x, x, x); }
  }

  // ------------------------------------------------------------------- decision

  datatype Rejection = ByPolicy(reason: Reason) | StableTieBreak | LowerExpectedUtility(gapPaise: int)

  datatype Ranked = Ranked(
    rank: nat, candidate: Candidate, score: Score, policy: PolicyDecision,
    selected: bool, rejection: Option<Rejection>)

  datatype DecisionError = ScoreAboveAmount | QuietHoursUnresolved

  function PolicyInput(x: DecisionContext, c: Candidate): Context {
    Context(x.now, x.deadline, x.outcome, x.payment, x.subscription, x.contact, c.actionType, c.surface,
            x.amountPaise, x.gatewayRetries, 0, None)
  }

  function PolicyFor(x: DecisionContext, config: Config, c: Candidate): Result<PolicyDecision, QuietError> {
    Evaluate(PolicyInput(x, c), config)
  }

  function Pairs(cs: seq<Candidate>, scores: seq<Score>): (s: seq<Scored>)
    requires |cs| == |scores|
    ensures |s| == |cs| && forall i | 0 <= i < |s| :: s[i] == Scored(cs[i], scores[i])
  {
    seq(|cs|, i requires 0 <= i < |cs| => Scored(cs[i], scores[i]))
  }

  /** A ranking of all candidates with their scores, in any enumeration. */
  ghost predicate Ranks(cs: seq<Candidate>, scores: seq<Score>, ranking: seq<Scored>)
    requires |cs| == |scores|
  {
    Ordered(ranking) && multiset(ranking) == multiset(Pairs(cs, scores))
  }

  lemma RankedPairsAreCandidates(cs: seq<Candidate>, scores: seq<Score>, ranking: seq<Scored>)
    requires |scores| == |cs| && Ranks(cs, scores, ranking)
    ensures |ranking| == |cs|
    ensures forall p :: p in ranking <==> p in Pairs(cs, scores)
    ensures forall i | 0 <= i < |ranking| :: ranking[i].candidate in cs
    ensures forall c | c in cs :: exists i :: 0 <= i < |ranking| && ranking[i].candidate == c
  {
    var pairs := Pairs(cs, scores);
    assert |ranking| == |multiset(ranking)| == |multiset(pairs)|;
    forall p ensures p in ranking <==> p in pairs { assert p in ranking <==> p in multiset(pairs); }
    forall i | 0 <= i < |ranking| ensures ranking[i].candidate in cs { assert ranking[i] in pairs; }
    forall c | c in cs ensures exists i :: 0 <= i < |ranking| && ranking[i].candidate == c {
      var k :| 0 <= k < |cs| && cs[k] == c;
      assert pairs[k] in ranking;
    }
  }

  /** STOP is always among the candidates and never blocked, so a choice always exists. */
  lemma SomethingIsAlwaysUnblocked(x: DecisionContext, config: Config, cs: seq<Candidate>, scores: seq<Score>, ranking: seq<Scored>)
    requires |scores| == |cs| && WellFormed(cs) && Ranks(cs, scores, ranking)
    ensures exists i :: 0 <= i < |ranking| && PolicyFor(x, config, ranking[i].candidate).Ok?
                        && PolicyFor(x, config, ranking[i].candidate).value.disposition != Block
  {
    RankedPairsAreCandidates(cs, scores, ranking);
    var i :| 0 <= i < |ranking| && ranking[i].candidate == Stopping;
    assert PolicyFor(x, config, ranking[i].candidate).value.disposition == Allow;
  }

  function Rejected(pair: Scored, policy: PolicyDecision, selected: Score): Rejection
    requires policy.codes != []
  {
    if policy.disposition == Block then ByPolicy(policy.codes[0])
    else if pair.score.utilityPaise == selected.utilityPaise then StableTieBreak
    else LowerExpectedUtility(selected.utilityPaise - pair.score.utilityPaise)
  }

  /** What an audit list must say of a ranking: every candidate at its rank under its own
      policy, the first unblocked one selected, and a reason for each of the others. */
  ghost predicate Audits(x: DecisionContext, config: Config, ranking: seq<Scored>, audit: seq<Ranked>, chosen: nat) {
    && |audit| == |ranking| && chosen < |audit|
    && (forall i | 0 <= i < |audit| ::
          && audit[i].rank == i + 1
          && audit[i].candidate == ranking[i].candidate && audit[i].score == ranking[i].score
          && PolicyFor(x, config, audit[i].candidate) == Ok(audit[i].policy)
          && (audit[i].selected <==> i == chosen)
          && (i < chosen ==> audit[i].policy.disposition == Block)
          && audit[i].policy.codes != []
          && (i == chosen <==> audit[i].rejection.None?)
          && (i != chosen ==>
                if audit[i].policy.disposition == Block then audit[i].rejection == Some(ByPolicy(audit[i].policy.codes[0]))
                else
                  var gap := audit[chosen].score.utilityPaise - audit[i].score.utilityPaise;
                  audit[i].rejection == Some(if gap == 0 then StableTieBreak else LowerExpectedUtility(gap))))
    && audit[chosen].policy.disposition != Block
  }

  method EvaluatePolicies(x: DecisionContext, config: Config, ranking: seq<Scored>) returns (policies: seq<PolicyDecision>)
    requires ValidConfig(config) && !QuietEndLost(x.now, config)
    requires forall i | 0 <= i < |ranking| :: ranking[i].candidate.surface.Some? <==> ranking[i].candidate.actionType == OpenCustomerPaymentSurface
    ensures |policies| == |ranking| && forall i | 0 <= i < |ranking| ::
      PolicyFor(x, config, ranking[i].candidate) == Ok(policies[i]) && policies[i].codes != []
  {
    policies := [];
    var i := 0;
    while i < |ranking|
      invariant 0 <= i <= |ranking| && |policies| == i
      invariant forall k | 0 <= k < i :: PolicyFor(x, config, ranking[k].candidate) == Ok(policies[k]) && policies[k].codes != []
    {
      var input := PolicyInput(x, ranking[i].candidate);
      var policy := EvaluateSafetyPolicy(input, config);
      if policy.Err? {
        PolicyFailsOnlyInLongGaps(input, config);
        assert false;
      }
      policies := policies + [policy.value];
      i := i + 1;
    }
  }

  method FirstUnblocked(policies: seq<PolicyDecision>) returns (index: nat)
    requires exists i :: 0 <= i < |policies| && policies[i].disposition != Block
    ensures index < |policies| && policies[index].disposition != Block
    ensures forall i | 0 <= i < index :: policies[i].disposition == Block
  {
    index := 0;
    while policies[index].disposition == Block
      invariant index < |policies| && forall i | 0 <= i < index :: policies[i].disposition == Block
      decreases |policies| - index
    {
      index := index + 1;
    }
  }

  method CheckScores(amountPaise: nat, scores: seq<Score>) returns (ok: bool)
    ensures ok <==> forall i | 0 <= i < |scores| :: scores[i].recoveredPaise <= amountPaise
  {
    for k := 0 to |scores|
      invariant forall i | 0 <= i < k :: scores[i].recoveredPaise <= amountPaise
    {
      if scores[k].recoveredPaise > amountPaise { return false; }
    }
    return true;
  }

  /** Decides unless the quiet end is lost in a long gap, before any score is looked at, or the
      scorer overstates a recovery; and then audits the one ranking of its candidates. */
  method Decide(x: DecisionContext, config: Config, scores: seq<Score>)
    returns (r: Result<seq<Ranked>, DecisionError>, ghost ranking: seq<Scored>, ghost chosen: nat)
    requires ValidConfig(config) && |scores| == |Eligible(x)|
    ensures r == Err(QuietHoursUnresolved) <==> QuietEndLost(x.now, config)
    ensures r == Err(ScoreAboveAmount) <==>
      !QuietEndLost(x.now, config) && exists i :: 0 <= i < |scores| && scores[i].recoveredPaise > x.amountPaise
    ensures r.Err? ==> r == Err(ScoreAboveAmount) || r == Err(QuietHoursUnresolved)
    ensures r.Ok? ==> Ranks(Eligible(x), scores, ranking) && Audits(x, config, ranking, r.value, chosen)
  {
    var candidates := GenerateTechnicallyEligibleActions(x);
    EligibleIsWellFormed(x);
    var isQuietHours := QuietHoursFeature(x.now, config);
    if isQuietHours.Err? { return Err(QuietHoursUnresolved), [], 0; }
    r, ranking, chosen := DecideAmong(x, config, candidates, scores);
  }

  /** What follows the snapshot: no policy can fail any more. */
  method DecideAmong(x: DecisionContext, config: Config, candidates: seq<Candidate>, scores: seq<Score>)
    returns (r: Result<seq<Ranked>, DecisionError>, ghost ranking: seq<Scored>, ghost chosen: nat)
    requires ValidConfig(config) && !QuietEndLost(x.now, config)
    requires |scores| == |candidates| && WellFormed(candidates)
    ensures r == Err(ScoreAboveAmount) <==> exists i :: 0 <= i < |scores| && scores[i].recoveredPaise > x.amountPaise
    ensures r.Err? ==> r == Err(ScoreAboveAmount)
    ensures r.Ok? ==> Ranks(candidates, scores, ranking) && Audits(x, config, ranking, r.value, chosen)
  {
    ranking, chosen := [], 0;
    var within := CheckScores(x.amountPaise, scores);
    if !within { return Err(ScoreAboveAmount), [], 0; }
    var ranked := Rank(Pairs(candidates, scores));
    RankedPairsAreCandidates(candidates, scores, ranked);
    var policies := EvaluatePolicies(x, config, ranked);
    SomethingIsAlwaysUnblocked(x, config, candidates, scores, ranked);
    var index := FirstUnblocked(policies);
    var audit := BuildAudit(x, config, ranked, policies, index);
    return Ok(audit), ranked, index;
  }

  /** Without an outreach candidate no policy needs the quiet end, and yet a decision fails
      where it is lost. */
  lemma NoPolicyNeedsTheQuietEnd(x: DecisionContext, config: Config, c: Candidate)
    requires ValidConfig(config) && !CanCall(x) && !CanDelegate(x) && c in Eligible(x)
    ensures PolicyFor(x, config, c).Ok?
  {
    if PolicyFor(x, config, c).Err? {
      PolicyFailsOnlyInLongGaps(PolicyInput(x, c), config);
    }
  }

  /** A clock that leaves out a whole day, as one did that moved from ten hours behind UTC to
      fourteen ahead, loses the end of quiet hours from 20:00 to 09:00 two hours before it. */
  lemma ASkippedDayStopsDecisions(x: DecisionContext, config: Config)
    requires config.zone == Zone(-600 * MINUTE, 840 * MINUTE, 600 * MINUTE)
    requires config.quietHours == Some(QuietHours(1200 * MINUTE, 540 * MINUTE)) && x.now == 480 * MINUTE
    ensures QuietEndLost(x.now, config)
    ensures Wall(config.zone, x.now) % DAY == 1320 * MINUTE
  {
  }

  function Audited(ranking: seq<Scored>, policies: seq<PolicyDecision>, selectedIndex: nat, i: nat): Ranked
    requires i < |ranking| == |policies| && selectedIndex < |ranking| && policies[i].codes != []
  {
    Ranked(i + 1, ranking[i].candidate, ranking[i].score, policies[i], i == selectedIndex,
           if i == selectedIndex then None else Some(Rejected(ranking[i], policies[i], ranking[selectedIndex].score)))
  }

  method BuildAudit(x: DecisionContext, config: Config, ranking: seq<Scored>, policies: seq<PolicyDecision>, selectedIndex: nat)
    returns (audit: seq<Ranked>)
    requires |policies| == |ranking| && selectedIndex < |ranking| && policies[selectedIndex].disposition != Block
    requires forall i | 0 <= i < |ranking| :: PolicyFor(x, config, ranking[i].candidate) == Ok(policies[i]) && policies[i].codes != []
    requires forall i | 0 <= i < selectedIndex :: policies[i].disposition == Block
    ensures Audits(x, config, ranking, audit, selectedIndex)
  {
    audit := [];
    var index := 0;
    while index < |ranking|
      invariant 0 <= index <= |ranking| && |audit| == index
      invariant forall i | 0 <= i < index :: audit[i] == Audited(ranking, policies, selectedIndex, i)
    {
      var pair, policy := ranking[index], policies[index];
      var selected := index == selectedIndex;
      var rejection: Option<Rejection> := None;
      if !selected {
        if policy.disposition == Block { rejection := Some(ByPolicy(policy.codes[0])); }
        else if pair.score.utilityPaise == ranking[selectedIndex].score.utilityPaise { rejection := Some(StableTieBreak); }
        else { rejection := Some(LowerExpectedUtility(ranking[selectedIndex].score.utilityPaise - pair.score.utilityPaise)); }
      }
      audit := audit + [Ranked(index + 1, pair.candidate, pair.score, policy, selected, rejection)];
      index := index + 1;
    }
  }

  /** Among the unblocked candidates the selected one has the highest utility, then the highest
      recovery, then the highest probability, then the lowest tie priority; and every gap
      reported for a lower utility is positive. */
  lemma SelectedIsTheLeastUnblocked(x: DecisionContext, config: Config, cs: seq<Candidate>, scores: seq<Score>,
                                    ranking: seq<Scored>, audit: seq<Ranked>, chosen: nat)
    requires |scores| == |cs| && WellFormed(cs) && Ranks(cs, scores, ranking) && Audits(x, config, ranking, audit, chosen)
    ensures forall i | 0 <= i < |audit| && i != chosen && audit[i].policy.disposition != Block ::
      var best, other := audit[chosen], audit[i];
      && i > chosen && best.score.utilityPaise >= other.score.utilityPaise
      && (best.score.utilityPaise == other.score.utilityPaise ==>
            best.score.recoveredPaise > other.score.recoveredPaise
            || (best.score.recoveredPaise == other.score.recoveredPaise &&
                (best.score.probability > other.score.probability
                 || (best.score.probability == other.score.probability && best.candidate.tiePriority < other.candidate.tiePriority))))
    ensures forall i | 0 <= i < |audit| && audit[i].rejection.Some? && audit[i].rejection.value.LowerExpectedUtility? ::
      audit[i].rejection.value.gapPaise > 0
  {
    forall i | chosen < i < |audit| ensures Before(ranking[chosen], ranking[i]) {
      RankingHasNoTies(cs, scores, ranking, chosen, i);
      BeforeIsAStrictOrder(ranking[chosen], ranking[i], ranking[i]);
    }
  }

  /** What is selected fits the case: on a closed or paid case, past the deadline or under a kill
      switch only STOP or ESCALATE, after a suppression nothing that contacts the customer, beside
      an active retry no standard link; and it needs approval exactly for its action or amount. */
  lemma SelectionFitsTheCase(x: DecisionContext, config: Config, ranking: seq<Scored>, audit: seq<Ranked>, chosen: nat)
    requires ValidConfig(config) && Audits(x, config, ranking, audit, chosen)
    requires forall i | 0 <= i < |ranking| :: ranking[i].candidate.surface.Some? <==> ranking[i].candidate.actionType == OpenCustomerPaymentSurface
    ensures
      var a, d := audit[chosen].candidate, audit[chosen].policy;
      && (a.actionType !in {Stop, EscalateToHuman} ==>
            && x.outcome == Open && x.payment != Captured && x.now < x.deadline
            && !config.globalKillSwitch && !config.merchantKillSwitch)
      && (a.actionType in {OpenCustomerPaymentSurface, StartVoice, SendToCustomerAgent} ==>
            x.contact !in {OptedOut, WrongPerson, Dispute, AlreadyPaid})
      && (a.surface == Some(StandardPaymentLink) ==> !(x.subscription == SubPending && x.gatewayRetries))
      && (d.disposition == RequireManualApproval <==>
            d.disposition != Delay &&
            (|| (a.actionType in config.manualActions && a.actionType !in {Stop, EscalateToHuman})
             || (a.actionType in {OpenCustomerPaymentSurface, StartVoice, SendToCustomerAgent}
                 && config.manualAbovePaise.Some? && x.amountPaise >= config.manualAbovePaise.value)))
  {
    EvaluationGateByGate(PolicyInput(x, audit[chosen].candidate), config);
  }

  /** However the candidates are enumerated, the ranking, and with it the whole audit and the
      selected candidate, is the same. */
  lemma SelectionIgnoresEnumeration(x: DecisionContext, config: Config, cs: seq<Candidate>, scores: seq<Score>,
                                    ds: seq<Candidate>, others: seq<Score>, first: seq<Scored>, second: seq<Scored>,
                                    audit1: seq<Ranked>, audit2: seq<Ranked>, chosen1: nat, chosen2: nat)
    requires |scores| == |cs| && |others| == |ds| && WellFormed(cs)
    requires multiset(Pairs(cs, scores)) == multiset(Pairs(ds, others))
    requires Ranks(cs, scores, first) && Ranks(ds, others, second)
    requires Audits(x, config, first, audit1, chosen1) && Audits(x, config, second, audit2, chosen2)
    ensures first == second && chosen1 == chosen2 && audit1 == audit2
  {
    TiesTellCandidatesApart(cs, scores, first);
    OrderedIsUnique(first, second);
    assert audit1[chosen1].policy == audit2[chosen1].policy && audit1[chosen2].policy == audit2[chosen2].policy;
    forall i | 0 <= i < |audit1| ensures audit1[i] == audit2[i] { }
  }

  lemma TiesTellCandidatesApart(cs: seq<Candidate>, scores: seq<Score>, ranking: seq<Scored>)
    requires |scores| == |cs| && DistinctTies(cs) && Ranks(cs, scores, ranking)
    ensures TiesTellApart(ranking)
  {
    RankedPairsAreCandidates(cs, scores, ranking);
    var pairs := Pairs(cs, scores);
    forall a, b | a in ranking && b in ranking && a.candidate.tiePriority == b.candidate.tiePriority ensures a == b {
      var i :| 0 <= i < |pairs| && pairs[i] == a;
      var j :| 0 <= j < |pairs| && pairs[j] == b;
      assert cs[i].tiePriority == cs[j].tiePriority;
    }
  }

  lemma RankingHasNoTies(cs: seq<Candidate>, scores: seq<Score>, ranking: seq<Scored>, i: nat, j: nat)
    requires |scores| == |cs| && DistinctTies(cs) && Ranks(cs, scores, ranking) && i < j < |ranking|
    ensures ranking[i].candidate.tiePriority != ranking[j].candidate.tiePriority
  {
    TiesTellCandidatesApart(cs, scores, ranking);
    if ranking[i].candidate.tiePriority == ranking[j].candidate.tiePriority {
      assert ranking[i] == ranking[j];
      OccursTwice(ranking, i, j);
      OccursOnce(Pairs(cs, scores), ranking[i]);
      assert false;
    }
  }

  lemma OccursTwice(s: seq<Scored>, i: nat, j: nat)
    requires i < j < |s| && s[i] == s[j]
    ensures multiset(s)[s[i]] >= 2
  {
    assert s == s[..j] + [s[j]] + s[j + 1..];
    assert s[i] in s[..j];
  }

  lemma {:induction false} OccursOnce(s: seq<Scored>, x: Scored)
    requires forall i, j | 0 <= i < j < |s| :: s[i].candidate.tiePriority != s[j].candidate.tiePriority
    ensures multiset(s)[x] <= 1
  {
    if s != [] {
      assert s == [s[0]] + s[1..];
      OccursOnce(s[1..], x);
    }
  }

  // ------------------------------------------------------- the fallback scorer

  /** Python's round: to the nearest integer, halves to the even one. */
  function RoundHalfEven(x: real): (r: int)
    ensures -0.5 <= r as real - x <= 0.5
    ensures (r as real - x == 0.5 || x - r as real == 0.5) ==> r % 2 == 0
  {
    var f := x.Floor;
    if x - f as real < 0.5 then f
    else if x - f as real > 0.5 then f + 1
    else if f % 2 == 0 then f else f + 1
  }

  function BaseRate(d: Diagnosis): real {
    match d
    case TransientRetryable => 0.68
    case InsufficientFunds => 0.32
    case AuthenticationRequired => 0.48
    case InstrumentInvalid => 0.37
    case MerchantError => 0.11
    case RiskOrComplianceBlock => 0.06
    case DiagnosisUnknown => 0.19
  }

  function ActionAdjustment(a: ActionType): real {
    match a
    case WaitForGatewayRetry => 0.07
    case OpenCustomerPaymentSurface => 0.12
    case StartVoice => 0.03
    case SendToCustomerAgent => 0.08
    case EscalateToHuman => -0.01
    case Stop => -0.15
  }

  function ActionCostPaise(a: ActionType): nat {
    match a
    case WaitForGatewayRetry => 0
    case OpenCustomerPaymentSurface => 250
    case StartVoice => 1200
    case SendToCustomerAgent => 500
    case EscalateToHuman => 3500
    case Stop => 0
  }

  function DeterministicProbability(d: Diagnosis, a: ActionType, priorSuccesses: int): (p: real)
    ensures 0.01 <= p <= 0.95
  {
    var raw := BaseRate(d) + ActionAdjustment(a) + Min(priorSuccesses, 24) as real * 0.004;
    if raw < 0.01 then 0.01 else if raw > 0.95 then 0.95 else raw
  }

  function ExpectedRecovered(amount: nat, p: real): int { RoundHalfEven(amount as real * p) }

  function DeterministicScore(amount: nat, d: Diagnosis, a: ActionType, priorSuccesses: int): Score {
    var p := DeterministicProbability(d, a, priorSuccesses);
    var recovered := ExpectedRecovered(amount, p);
    Score(p, recovered, recovered - ActionCostPaise(a))
  }

  /** Rounding an expected recovery to the nearest paisa never leaves the amount, for any
      probability. */
  lemma ExpectedStaysWithinTheAmount(amount: nat, p: real)
    requires 0.0 <= p <= 1.0
    ensures 0 <= ExpectedRecovered(amount, p) <= amount
    ensures -0.5 <= ExpectedRecovered(amount, p) as real - amount as real * p <= 0.5
  {
    var x := ScaledDown(amount, p);
    RoundStaysBelow(x, amount);
  }

  lemma RoundStaysBelow(x: real, bound: nat)
    requires 0.0 <= x <= bound as real
    ensures 0 <= RoundHalfEven(x) <= bound && -0.5 <= RoundHalfEven(x) as real - x <= 0.5
  {
  }

  lemma ScaledDown(amount: nat, p: real) returns (x: real)
    requires 0.0 <= p <= 1.0
    ensures x == amount as real * p && 0.0 <= x <= amount as real
  {
    x := amount as real * p;
    assert x <= amount as real * 1.0;
  }

  /** The fallback scorer never breaks the amount bound, whatever the amount. */
  lemma FallbackStaysWithinTheAmount(amount: nat, d: Diagnosis, a: ActionType, priorSuccesses: int)
    ensures 0 <= DeterministicScore(amount, d, a, priorSuccesses).recoveredPaise <= amount
  {
    ExpectedStaysWithinTheAmount(amount, DeterministicProbability(d, a, priorSuccesses));
  }

  /** The fallback's utility is what is left of its expected recovery after the action's cost. */
  lemma FallbackScoreIsNetOfCost(amount: nat, d: Diagnosis, a: ActionType, priors: int)
    ensures var s := DeterministicScore(amount, d, a, priors);
            && s.recoveredPaise == ExpectedRecovered(amount, s.probability)
            && s.utilityPaise == s.recoveredPaise - ActionCostPaise(a) <= s.recoveredPaise
  {
  }

  /** A better history never lowers the fallback's probability, and stops raising it at 24 successes. */
  lemma BetterHistoryNeverHurts(d: Diagnosis, a: ActionType, priors: int, more: int)
    requires priors <= more
    ensures DeterministicProbability(d, a, priors) <= DeterministicProbability(d, a, more)
    ensures priors >= 24 ==> DeterministicProbability(d, a, priors) == DeterministicProbability(d, a, more)
  {
    HistoryHelps(Min(priors, 24), Min(more, 24));
  }

  lemma HistoryHelps(few: int, many: int)
    requires few <= many
    ensures few as real * 0.004 <= many as real * 0.004
  {
  }

  function FallbackScore(x: DecisionContext, c: Candidate, priorSuccesses: int): Score {
    DeterministicScore(x.amountPaise, x.diagnosis, c.actionType, priorSuccesses)
  }

  method FallbackScores(x: DecisionContext, candidates: seq<Candidate>, priorSuccesses: int) returns (scores: seq<Score>)
    ensures |scores| == |candidates|
    ensures forall k | 0 <= k < |scores| :: scores[k] == FallbackScore(x, candidates[k], priorSuccesses)
    ensures forall k | 0 <= k < |scores| :: scores[k].recoveredPaise <= x.amountPaise
  {
    scores := [];
    for i := 0 to |candidates|
      invariant |scores| == i
      invariant forall k | 0 <= k < i :: scores[k] == FallbackScore(x, candidates[k], priorSuccesses)
      invariant forall k | 0 <= k < i :: scores[k].recoveredPaise <= x.amountPaise
    {
      FallbackStaysWithinTheAmount(x.amountPaise, x.diagnosis, candidates[i].actionType, priorSuccesses);
      scores := scores + [FallbackScore(x, candidates[i], priorSuccesses)];
    }
  }

  /** With the fallback scorer a decision fails exactly where the quiet end is lost. */
  method DecideByFallback(x: DecisionContext, config: Config, priorSuccesses: int) returns (r: Result<seq<Ranked>, DecisionError>)
    requires ValidConfig(config)
    ensures r.Ok? <==> !QuietEndLost(x.now, config)
  {
    var scores := FallbackScores(x, Eligible(x), priorSuccesses);
    ghost var ranking, chosen;
    r, ranking, chosen := Decide(x, config, scores);
  }
}
