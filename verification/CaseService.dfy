/** The operator service: transactions that change case, action, invoice and ledger rows step
    by step, each proved to make the state change that CaseRecords gives it. */
module CaseService {
  import opened Domain
  import opened ActionRecords
  import opened Safety
  import opened CaseRecords

  /** The tables of one merchant. */
  class CaseRepository {
    var cases: map<string, CaseRow>
    var invoices: map<string, InvoiceRow>
    var actions: map<string, CaseAction>
    var keys: map<ActionKey, string>
    var newest: map<string, string>
    var ledger: seq<Recognition>
    var events: set<(string, SourceId)>

    constructor (s: State)
      ensures Abs() == s
    {
      cases, invoices, actions, keys, newest, ledger, events :=
        s.cases, s.invoices, s.actions, s.keys, s.newest, s.ledger, s.events;
    }

    function Abs(): State
      reads this
    {
      State(cases, invoices, actions, keys, newest, ledger, events)
    }

    /** An audit event is persisted once. */
    method AddEvent(caseId: string, source: SourceId) returns (inserted: bool)
      modifies this`events
      ensures inserted <==> (caseId, source) !in old(events)
      ensures Abs() == Audit(old(Abs()), caseId, source) && (!inserted ==> Abs() == old(Abs()))
    {
      inserted := (caseId, source) !in events;
      if inserted { events := events + {(caseId, source)}; } else { assert events == events + {(caseId, source)}; }
    }

    method AddActionWithPolicy(id: string, key: ActionKey, action: CaseAction)
      modifies this`actions, this`keys, this`newest
      ensures Abs() == old(Abs()).(actions := old(actions)[id := action], keys := old(keys)[key := id],
                                   newest := old(newest)[action.caseId := id])
    {
      actions := actions[id := action];
      keys := keys[key := id];
      newest := newest[action.caseId := id];
    }

    method CancelNonterminalActions(caseId: string)
      modifies this`actions
      ensures Abs() == old(Abs()).(actions := CancelNonterminal(old(actions), caseId))
      ensures actions.Keys == old(actions).Keys
      ensures forall id | id in actions ::
        if old(actions)[id].caseId == caseId && old(actions)[id].row.status in {Proposed, AwaitingApproval, Scheduled, Executing}
        then actions[id] == CaseAction(caseId, old(actions)[id].row.(status := Cancelled)) else actions[id] == old(actions)[id]
    {
      actions := map id | id in actions ::
        var a := actions[id];
        if a.caseId == caseId && a.row.status in {Proposed, AwaitingApproval, Scheduled, Executing}
        then a.(row := a.row.(status := Cancelled)) else a;
      assert actions == CancelNonterminal(old(actions), caseId);
    }

    method FindRevenueRecognition(eventId: string) returns (amount: Option<int>)
      ensures amount == Find(ledger, eventId)
      ensures amount.None? <==> forall i | 0 <= i < |ledger| :: ledger[i].eventId != eventId
      ensures amount.Some? ==> exists i | 0 <= i < |ledger| ::
        ledger[i].eventId == eventId && ledger[i].amountPaise == amount.value && forall j | 0 <= j < i :: ledger[j].eventId != eventId
    {
      var i := 0;
      while i < |ledger|
        invariant 0 <= i <= |ledger|
        invariant Find(ledger[i..], eventId) == Find(ledger, eventId)
        invariant forall j | 0 <= j < i :: ledger[j].eventId != eventId
      {
        if ledger[i].eventId == eventId { return Some(ledger[i].amountPaise); }
        assert ledger[i..][1..] == ledger[i + 1..];
        i := i + 1;
      }
      return None;
    }

    method RecognizeRevenueOnce(record: Recognition) returns (newly: bool)
      modifies this`ledger
      ensures newly <==> Find(old(ledger), record.eventId).None?
      ensures Abs() == old(Abs()).(ledger := if newly then old(ledger) + [record] else old(ledger))
    {
      var existing := FindRevenueRecognition(record.eventId);
      newly := existing.None?;
      if newly { ledger := ledger + [record]; }
    }

    method AddInvoiceCollection(invoiceId: string, amount: int) returns (found: bool)
      modifies this`invoices
      ensures found <==> invoiceId in old(invoices)
      ensures Abs() == old(Abs()).(invoices :=
        if found then old(invoices)[invoiceId := Collect(old(invoices)[invoiceId], amount)] else old(invoices))
      ensures found ==>
        var was, now := old(invoices)[invoiceId], invoices[invoiceId];
        && now.amountPaise == was.amountPaise
        && now.paidPaise == (if was.paidPaise + amount <= was.amountPaise then was.paidPaise + amount else was.amountPaise)
        && (now.settled <==> was.settled || now.paidPaise == now.amountPaise)
    {
      if invoiceId !in invoices { return false; }
      var invoice := invoices[invoiceId];
      var paid := Min(invoice.amountPaise, invoice.paidPaise + amount);
      invoice := invoice.(paidPaise := paid);
      if paid == invoice.amountPaise { invoice := invoice.(settled := true); }
      invoices := invoices[invoiceId := invoice];
      return true;
    }

    method SetCase(caseId: string, row: CaseRow)
      modifies this`cases
      ensures Abs() == old(Abs()).(cases := old(cases)[caseId := row])
    {
      cases := cases[caseId := row];
    }
  }

  class RecoveryCaseService {
    const repository: CaseRepository
    const config: Option<Config>

    constructor (r: CaseRepository, c: Option<Config>)
      ensures repository == r && config == c
    {
      repository, config := r, c;
    }

    method RecommendAction(caseId: string, requested: Option<Selection>, ranked: Selection, id: string, now: int)
      returns (r: Result<string, ServiceError>)
      requires (forall c | c in repository.cases :: repository.cases[c].atRiskPaise >= 0)
      requires config.Some? ==> ValidConfig(config.value)
      modifies repository
      ensures (repository.Abs(), r) == Recommend(old(repository.Abs()), config, caseId, requested, ranked, id, now)
      ensures repository.cases == old(repository.cases) && repository.ledger == old(repository.ledger)
      ensures requested.None? && caseId in old(repository.cases) && caseId in old(repository.newest) ==>
        r == Ok(old(repository.newest)[caseId]) && repository.Abs() == old(repository.Abs())
      ensures r == Err(NotFound) <==>
        caseId !in old(repository.cases) || (config.None? && (requested.Some? || caseId !in old(repository.newest)))
      ensures r.Ok? && (requested.Some? || caseId !in old(repository.newest)) ==>
        var selection := if requested.None? then ranked else requested.value;
        var key := RecommendationKey(caseId, selection.actionType, selection.surface);
        && (selection.surface.Some? <==> selection.actionType == OpenCustomerPaymentSurface)
        && (key in old(repository.keys) ==> r.value == old(repository.keys)[key] && repository.Abs() == old(repository.Abs()))
        && (key !in old(repository.keys) ==>
              && r.value == id && repository.keys == old(repository.keys)[key := id] && id in repository.actions
              && (caseId, RecommendationOf(id)) in repository.events)
      ensures r.Err? ==> repository.Abs() == old(repository.Abs())
    {
      if caseId !in repository.cases { return Err(NotFound); }
      var recoveryCase := repository.cases[caseId];
      if requested.None? && caseId in repository.newest { return Ok(repository.newest[caseId]); }
      if config.None? { return Err(NotFound); }
      var selection := if requested.None? then ranked else requested.value;
      if requested.None? {
        var feature := QuietHoursFeature(now, config.value);
        if feature.Err? { return Err(PolicyUnresolved); }
      }
      if (selection.actionType == OpenCustomerPaymentSurface) != selection.surface.Some? { return Err(CaseConflict); }
      var evaluated := EvaluateSafetyPolicy(PolicyContext(recoveryCase, selection, now), config.value);
      if evaluated.Err? { return Err(PolicyUnresolved); }
      var decision := evaluated.value;
      var key := RecommendationKey(caseId, selection.actionType, selection.surface);
      if key in repository.keys { return Ok(repository.keys[key]); }
      PersistRecommendation(caseId, selection, decision, id);
      return Ok(id);
    }

    method PersistRecommendation(caseId: string, selection: Selection, decision: PolicyDecision, id: string)
      modifies repository
      ensures repository.Abs() == Insert(old(repository.Abs()), caseId, selection, decision, id)
      ensures repository.cases == old(repository.cases) && id in repository.actions && repository.newest[caseId] == id
      ensures
        var row := repository.actions[id].row;
        && repository.actions[id].caseId == caseId && row.actionType == selection.actionType && row.surface == selection.surface
        && row.policy == decision.disposition
        && (row.status == Proposed <==> decision.disposition == Allow)
        && (row.status == Cancelled <==> decision.disposition == Block)
        && (row.status == Scheduled <==> decision.disposition == Delay)
        && (row.status == AwaitingApproval <==> decision.disposition == RequireManualApproval)
        && row.scheduledFor == row.delayUntil == decision.delayUntil
        && row.externalReference.None? && !row.approved
    {
      var status := match decision.disposition
        case Allow => Proposed
        case Block => Cancelled
        case Delay => Scheduled
        case RequireManualApproval => AwaitingApproval;
      var row := ActionRow(selection.actionType, selection.surface, status, decision.disposition,
                           decision.delayUntil, decision.delayUntil, None, false);
      var key := RecommendationKey(caseId, selection.actionType, selection.surface);
      repository.AddActionWithPolicy(id, key, CaseAction(caseId, row));
      var _ := repository.AddEvent(caseId, RecommendationOf(id));
    }

    method ApproveAction(caseId: string, id: string) returns (r: Result<(), ServiceError>)
      modifies repository
      ensures (repository.Abs(), r) == Approve(old(repository.Abs()), caseId, id)
      ensures r == Err(NotFound) <==>
        caseId !in old(repository.cases) || id !in old(repository.actions) || old(repository.actions)[id].caseId != caseId
      ensures r.Ok? <==> (r != Err(NotFound) &&
        var row, invoice := old(repository.actions)[id].row, old(repository.cases)[caseId].invoiceId;
        && row.status == AwaitingApproval
        && (row.actionType == OpenCustomerPaymentSurface ==>
              row.surface.Some? && invoice.Some? && invoice.value in old(repository.invoices)))
      ensures r.Ok? ==> repository.actions[id].row == old(repository.actions)[id].row.(status := Scheduled, approved := true)
                        && (caseId, ApprovalOf(id)) in repository.events
      ensures r.Err? ==> repository.Abs() == old(repository.Abs())
    {
      if caseId !in repository.cases { return Err(NotFound); }
      if id !in repository.actions || repository.actions[id].caseId != caseId { return Err(NotFound); }
      var action := repository.actions[id].row;
      if action.status != AwaitingApproval { return Err(CaseConflict); }
      var invoiceId := repository.cases[caseId].invoiceId;
      var payable := invoiceId.Some? && invoiceId.value in repository.invoices;
      if action.actionType == OpenCustomerPaymentSurface && (action.surface.None? || !payable) { return Err(CaseConflict); }
      action := action.(status := Scheduled, approved := true);
      repository.actions := repository.actions[id := repository.actions[id].(row := action)];
      var _ := repository.AddEvent(caseId, ApprovalOf(id));
      return Ok(());
    }

    method RejectAction(caseId: string, id: string) returns (r: Result<(), ServiceError>)
      modifies repository
      ensures (repository.Abs(), r) == Reject(old(repository.Abs()), caseId, id)
      ensures r == Err(NotFound) <==>
        caseId !in old(repository.cases) || id !in old(repository.actions) || old(repository.actions)[id].caseId != caseId
      ensures r.Ok? <==> r != Err(NotFound)
                         && old(repository.actions)[id].row.status in {Cancelled, Proposed, AwaitingApproval, Scheduled}
      ensures r.Ok? ==> repository.actions[id].row == old(repository.actions)[id].row.(status := Cancelled)
      ensures r.Ok? && old(repository.actions)[id].row.status != Cancelled ==> (caseId, RejectionOf(id)) in repository.events
      ensures r.Err? ==> repository.Abs() == old(repository.Abs())
    {
      if caseId !in repository.cases { return Err(NotFound); }
      if id !in repository.actions || repository.actions[id].caseId != caseId { return Err(NotFound); }
      var action := repository.actions[id].row;
      if action.status == Cancelled { return Ok(()); }
      if action.status !in {Proposed, AwaitingApproval, Scheduled} { return Err(CaseConflict); }
      repository.actions := repository.actions[id := repository.actions[id].(row := action.(status := Cancelled))];
      var _ := repository.AddEvent(caseId, RejectionOf(id));
      return Ok(());
    }

    /** What every closing command ends with: the new case row, no action left to run, the event. */
    method CloseCase(caseId: string, row: CaseRow, source: SourceId)
      modifies repository
      ensures repository.Abs() == Audit(Close(old(repository.Abs()), caseId, row), caseId, source)
      ensures repository.cases == old(repository.cases)[caseId := row] && (caseId, source) in repository.events
      ensures forall a | a in repository.actions && repository.actions[a].caseId == caseId ::
        repository.actions[a].row.status in {Cancelled, Succeeded, ActionFailed}
    {
      repository.SetCase(caseId, row);
      repository.CancelNonterminalActions(caseId);
      var _ := repository.AddEvent(caseId, source);
    }

    method Stop(caseId: string) returns (r: Result<(), ServiceError>)
      modifies repository
      ensures (repository.Abs(), r) == StopCase(old(repository.Abs()), caseId)
      ensures r == Err(NotFound) <==> caseId !in old(repository.cases)
      ensures r.Ok? <==> caseId in old(repository.cases) && old(repository.cases)[caseId].outcome in {Open, Stopped}
      ensures r.Ok? && old(repository.cases)[caseId].outcome == Open ==>
        var was := old(repository.cases)[caseId];
        && repository.cases[caseId] == was.(outcome := Stopped, version := was.version + 1)
        && (caseId, StopAt(was.version + 1)) in repository.events
        && forall a | a in repository.actions && repository.actions[a].caseId == caseId ::
             repository.actions[a].row.status in {Cancelled, Succeeded, ActionFailed}
      ensures r.Err? || old(repository.cases)[caseId].outcome == Stopped ==> repository.Abs() == old(repository.Abs())
    {
      if caseId !in repository.cases { return Err(NotFound); }
      var c := repository.cases[caseId];
      if c.outcome == Stopped { return Ok(()); }
      if c.outcome != Open { return Err(CaseConflict); }
      c := c.(outcome := Stopped);
      c := c.(version := c.version + 1);
      CloseCase(caseId, c, StopAt(c.version));
      return Ok(());
    }

    method EscalateCase(caseId: string, id: string) returns (r: Result<(), ServiceError>)
      modifies repository
      ensures (repository.Abs(), r) == Escalate(old(repository.Abs()), caseId, id)
      ensures r == Err(NotFound) <==> caseId !in old(repository.cases)
      ensures r.Ok? <==> caseId in old(repository.cases) && old(repository.cases)[caseId].outcome in {Open, Escalated}
      ensures r.Ok? && old(repository.cases)[caseId].outcome == Open ==>
        var was := old(repository.cases)[caseId];
        && repository.cases[caseId] == was.(outcome := Escalated, version := was.version + 1)
        && (caseId, EscalationOf(id)) in repository.events
        && id in repository.actions && repository.actions[id].caseId == caseId
        && repository.actions[id].row.actionType == EscalateToHuman && repository.actions[id].row.status == Succeeded
        && forall a | a in repository.actions && repository.actions[a].caseId == caseId ::
             repository.actions[a].row.status in {Cancelled, Succeeded, ActionFailed}
      ensures r.Err? || old(repository.cases)[caseId].outcome == Escalated ==> repository.Abs() == old(repository.Abs())
    {
      if caseId !in repository.cases { return Err(NotFound); }
      var c := repository.cases[caseId];
      if c.outcome == Escalated { return Ok(()); }
      if c.outcome != Open { return Err(CaseConflict); }
      c := c.(outcome := Escalated);
      c := c.(version := c.version + 1);
      repository.SetCase(caseId, c);
      repository.AddActionWithPolicy(id, EscalationKey(caseId, c.version), CaseAction(caseId, EscalationRow));
      repository.CancelNonterminalActions(caseId);
      var _ := repository.AddEvent(caseId, EscalationOf(id));
      return Ok(());
    }

    method RecordSafetyDisposition(caseId: string, disposition: ContactDisposition) returns (r: Result<(), ServiceError>)
      modifies repository
      ensures (repository.Abs(), r) == RecordSafety(old(repository.Abs()), caseId, disposition)
      ensures r == Err(NotFound) <==>
        disposition in {Dispute, OptedOut, WrongPerson, AlreadyPaid} && caseId !in old(repository.cases)
      ensures r.Ok? ==> disposition in {Dispute, OptedOut, WrongPerson, AlreadyPaid} && caseId in repository.cases
      ensures r.Ok? ==>
        var now := repository.cases[caseId];
        && now.contact == disposition
        && (now.outcome == Disputed <==> disposition == Dispute)
        && (now.outcome == Stopped <==> disposition in {OptedOut, WrongPerson})
        && (now.outcome == Escalated <==> disposition == AlreadyPaid)
      ensures disposition in {Dispute, OptedOut, WrongPerson, AlreadyPaid}
              && caseId in old(repository.cases) && old(repository.cases)[caseId].outcome == Open ==>
        && r.Ok? && repository.cases[caseId].version == old(repository.cases)[caseId].version + 1
        && (caseId, SafetyOf(disposition)) in repository.events
        && forall a | a in repository.actions && repository.actions[a].caseId == caseId ::
             repository.actions[a].row.status in {Cancelled, Succeeded, ActionFailed}
      ensures r.Err? || old(repository.cases)[caseId].outcome != Open ==> repository.Abs() == old(repository.Abs())
    {
      var terminalOutcomes := map[Dispute := Disputed, OptedOut := Stopped, WrongPerson := Stopped, AlreadyPaid := Escalated];
      if disposition !in terminalOutcomes { return Err(CaseConflict); }
      if caseId !in repository.cases { return Err(NotFound); }
      var c, target := repository.cases[caseId], terminalOutcomes[disposition];
      if c.outcome != Open {
        if c.outcome == target && c.contact == disposition { return Ok(()); }
        return Err(CaseConflict);
      }
      c := c.(contact := disposition);
      c := c.(outcome := target);
      c := c.(version := c.version + 1);
      CloseCase(caseId, c, SafetyOf(disposition));
      return Ok(());
    }

    method ApplyMockPaymentSuccess(caseId: string, eventId: string, amountPaise: Option<int>, at: int, reactivated: bool)
      returns (r: Result<Success, ServiceError>)
      modifies repository
      ensures (repository.Abs(), r) == ApplySuccess(old(repository.Abs()), caseId, eventId, amountPaise, at, reactivated)
      ensures r.Ok? && r.value.newlyRecognized <==> (caseId in old(repository.cases) &&
        var was := old(repository.cases)[caseId];
        && (forall i | 0 <= i < |old(repository.ledger)| :: old(repository.ledger)[i].eventId != eventId)
        && was.collectedPaise < was.atRiskPaise
        && (amountPaise.Some? ==> 0 < amountPaise.value <= was.atRiskPaise - was.collectedPaise)
        && was.invoiceId.Some? && was.invoiceId.value in old(repository.invoices))
      ensures r.Ok? && r.value.newlyRecognized ==>
        var was, now := old(repository.cases)[caseId], repository.cases[caseId];
        && r.value.amountPaise == (if amountPaise.Some? then amountPaise.value else was.atRiskPaise - was.collectedPaise)
        && now.collectedPaise == was.collectedPaise + r.value.amountPaise
        && (now.recovered <==> now.collectedPaise == now.atRiskPaise)
        && (now.outcome == Recovered <==> now.recovered) && now.outcome in {Recovered, PartiallyRecovered}
        && now.payment == Captured && now.reactivated == reactivated && now.recoveredAt == Some(at)
        && now.atRiskPaise == was.atRiskPaise && now.invoiceId == was.invoiceId && now.version == was.version + 1
        && repository.ledger == old(repository.ledger) + [Recognition(caseId, eventId, r.value.amountPaise)]
        && forall a | a in repository.actions && repository.actions[a].caseId == caseId ::
             repository.actions[a].row.status in {Cancelled, Succeeded, ActionFailed}
      ensures r.Err? || !r.value.newlyRecognized ==> repository.Abs() == old(repository.Abs())
    {
      if caseId !in repository.cases { return Err(NotFound); }
      var c := repository.cases[caseId];
      var existing := repository.FindRevenueRecognition(eventId);
      if existing.Some? { return Ok(Success(false, existing.value)); }
      var remaining := c.atRiskPaise - c.collectedPaise;
      if remaining <= 0 { return Err(AlreadyRecovered); }
      var amount := if amountPaise.None? then remaining else amountPaise.value;
      if amount <= 0 || amount > remaining { return Err(CaseConflict); }
      if c.invoiceId.None? { return Err(CaseConflict); }
      var found := repository.AddInvoiceCollection(c.invoiceId.value, amount);
      if !found { return Err(BrokenReference); }
      var newly := repository.RecognizeRevenueOnce(Recognition(caseId, eventId, amount));
      if newly { RecognizedSuccess(caseId, c, amount, at, reactivated, eventId); }
      return Ok(Success(newly, amount));
    }

    /** The case row after a new recognition, field by field. */
    method RecognizedSuccess(caseId: string, row: CaseRow, amount: int, at: int, reactivated: bool, eventId: string)
      modifies repository
      ensures repository.Abs() == Audit(Close(old(repository.Abs()), caseId, Credited(row, amount, at, reactivated)), caseId, ProviderEvent(eventId))
      ensures
        var now := repository.cases[caseId];
        && now.collectedPaise == row.collectedPaise + amount && (now.recovered <==> now.collectedPaise >= row.atRiskPaise)
        && now.outcome == (if now.recovered then Recovered else PartiallyRecovered)
        && now == row.(collectedPaise := now.collectedPaise, recovered := now.recovered, outcome := now.outcome,
                       attribution := SimulatedRevenue, payment := Captured, reactivated := reactivated,
                       recoveredAt := Some(at), version := row.version + 1)
      ensures forall a | a in repository.actions && repository.actions[a].caseId == caseId ::
        repository.actions[a].row.status in {Cancelled, Succeeded, ActionFailed}
    {
      var c := row.(collectedPaise := row.collectedPaise + amount);
      c := c.(attribution := SimulatedRevenue);
      c := c.(recovered := c.collectedPaise >= c.atRiskPaise);
      c := c.(payment := Captured, reactivated := reactivated);
      c := c.(outcome := if c.recovered then Recovered else PartiallyRecovered);
      c := c.(recoveredAt := Some(at), version := c.version + 1);
      CloseCase(caseId, c, ProviderEvent(eventId));
    }

    method ApplyLateFailureEvent(caseId: string, eventId: string) returns (r: Result<bool, ServiceError>)
      modifies repository
      ensures (repository.Abs(), r) == ApplyLateFailure(old(repository.Abs()), caseId, eventId)
      ensures r.Ok? <==> caseId in old(repository.cases)
      ensures r.Ok? ==> (caseId, ProviderEvent(eventId)) in repository.events
                        && (r.value <==> (caseId, ProviderEvent(eventId)) !in old(repository.events))
      ensures r == Ok(true) && old(repository.cases)[caseId].payment != Captured ==>
        var was := old(repository.cases)[caseId];
        repository.cases == old(repository.cases)[caseId := was.(payment := PaymentFailed, version := was.version + 1)]
      ensures r != Ok(true) || old(repository.cases)[caseId].payment == Captured ==> repository.cases == old(repository.cases)
    {
      if caseId !in repository.cases { return Err(NotFound); }
      var inserted := repository.AddEvent(caseId, ProviderEvent(eventId));
      var c := repository.cases[caseId];
      if inserted && c.payment != Captured {
        repository.SetCase(caseId, c.(payment := PaymentFailed, version := c.version + 1));
      }
      return Ok(inserted);
    }
  }
}
