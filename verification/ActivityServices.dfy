/** The worker's activity services over the action rows of one case: each transaction is a
    method that updates the rows in place. */
module ActivityServices {
  import opened Domain
  import opened ActionRecords

  datatype ProviderKind = MockProvider | LinkLifecycleProvider | PlainProvider

  /** What the provider answers about one link during a cleanup. */
  datatype LinkAnswer = LinkAnswer(lookup: Lookup, revocation: Revocation)

  class RecoveryActivities {
    var actions: map<string, ActionRow>
    var authorizations: map<string, AuthStatus>
    var submissionsInFlight: set<string>
    const provider: ProviderKind

    constructor (rows: map<string, ActionRow>, consumed: map<string, AuthStatus>, kind: ProviderKind)
      ensures actions == rows && authorizations == consumed && submissionsInFlight == {} && provider == kind
    {
      actions, authorizations, submissionsInFlight, provider := rows, consumed, {}, kind;
    }

    function Auth(id: string): Option<AuthStatus>
      reads this
    {
      if id in authorizations then Some(authorizations[id]) else None
    }

    /** The locked read of a claim: rejections in the order a caller sees them. */
    method ReadClaim(found: Option<string>, now: int) returns (read: ClaimRead)
      requires found.Some? ==> found.value in actions
      ensures read == ReadForClaim(if found.Some? then Some(actions[found.value]) else None,
                                   found.Some? && found.value in submissionsInFlight, now)
      ensures found.None? <==> read == Decided(Rejected("PERSISTED_POLICY_NOT_FOUND"))
      ensures read.TrySwap? <==> (found.Some? &&
        var row := actions[found.value];
        && (row.status == Scheduled || (row.status == Proposed && row.policy == Allow)) && row.policy != Block
        && (row.scheduledFor.Some? ==> row.scheduledFor.value <= now)
        && (row.delayUntil.Some? ==> row.delayUntil.value <= now))
      ensures read.TrySwap? ==> read.seen == actions[found.value].status
      ensures read.Decided? ==> !read.outcome.Fresh?
      ensures read == Decided(AlreadyExecuted()) <==> found.Some? && actions[found.value].status == Succeeded
      ensures read == Decided(Reconcile) <==>
        found.Some? && found.value !in submissionsInFlight
        && actions[found.value].status == Executing && actions[found.value].surface == Some(StandardPaymentLink)
      ensures read == Decided(Unresolved()) <==> found.Some? && actions[found.value].status == Executing && read != Decided(Reconcile)
      ensures read == Decided(Rejected("POLICY_BLOCKED")) <==>
        found.Some? && actions[found.value].policy == Block && actions[found.value].status !in {Succeeded, Executing}
      ensures read == Decided(Rejected("ACTION_CANCELLED")) <==>
        found.Some? && actions[found.value].policy != Block && actions[found.value].status == Cancelled
    {
      if found.None? { return Decided(Rejected("PERSISTED_POLICY_NOT_FOUND")); }
      var action := actions[found.value];
      if action.status == Succeeded { return Decided(AlreadyExecuted()); }
      if action.status == Executing {
        if found.value in submissionsInFlight { return Decided(Unresolved()); }
        if action.surface == Some(StandardPaymentLink) { return Decided(Reconcile); }
        return Decided(Unresolved());
      }
      if action.policy == Block { return Decided(Rejected("POLICY_BLOCKED")); }
      if action.status == Cancelled { return Decided(Rejected("ACTION_CANCELLED")); }
      var claimable := match action.policy
        case Allow => {Proposed, Scheduled}
        case Delay => {Scheduled}
        case RequireManualApproval => {Scheduled}
        case Block => {};
      if action.status !in claimable { return Decided(Rejected("ACTION_NOT_AUTHORIZED")); }
      var dueAt := EffectiveDelay(action);
      if dueAt.Some? && now < dueAt.value { return Decided(Rejected("ACTION_NOT_DUE")); }
      return TrySwap(action.status);
    }

    /** The conditional update: exactly one of two claims that saw the same status wins. */
    method CompareAndSwap(id: string, seen: ActionStatus, now: int) returns (won: bool)
      requires id in actions
      modifies this`actions
      ensures won == SwapWins(old(actions[id]), seen, now)
      ensures won <==> old(actions[id]).status == seen && (old(actions[id]).scheduledFor.Some? ==> old(actions[id]).scheduledFor.value <= now)
      ensures actions == if won then old(actions)[id := old(actions[id]).(status := Executing)] else old(actions)
    {
      var row := actions[id];
      won := row.status == seen && (row.scheduledFor.None? || row.scheduledFor.value <= now);
      if won { actions := actions[id := row.(status := Executing)]; }
    }

    /** A mandate-backed claim writes the action and its authorization together or not at all. */
    method ClaimWithMandate(id: string, m: MandateFacts, now: int) returns (outcome: ClaimOutcome)
      requires id in actions
      modifies this`actions, this`authorizations
      ensures outcome == MandateClaim(old(actions[id]), old(Auth(id)), m, now)
      ensures outcome.Fresh? <==>
        && m.commandScope == m.signedScope == m.persistedScope == m.currentScope
        && m.taskAndSignerMatch && m.authorizedAction == "OPEN_EXACT_PAYMENT_SURFACE"
        && m.persistedIssuedAt == m.issuedAt && m.persistedExpiresAt == m.expiresAt
        && now < m.expiresAt <= m.recoveryDeadline == m.commandDeadline
        && m.invoiceAmountPaise == m.invoicePaidPaise + m.signedScope.exactAmountPaise
        && m.caseOutcome == Open && m.paymentState != Captured && !m.caseRecovered
        && old(actions[id]).actionType == SendToCustomerAgent
        && old(actions[id]).policy in {Allow, Delay} && old(actions[id]).status in {Proposed, Scheduled}
        && (old(actions[id]).scheduledFor.Some? ==> old(actions[id]).scheduledFor.value <= now)
        && (old(actions[id]).delayUntil.Some? ==> old(actions[id]).delayUntil.value <= now)
        && old(Auth(id)) == Some(AuthAuthorized)
      ensures outcome == AlreadyExecuted() ==>
        old(actions[id]).status == Succeeded || old(Auth(id)) == Some(AuthSucceeded)
      ensures outcome.Reconcile? || outcome == Unresolved() ==>
        && old(Auth(id)) in {Some(AuthExecuting), Some(AuthUncertain)}
        && (outcome.Reconcile? <==> m.commandScope.surface == StandardPaymentLink)
      ensures outcome.Fresh? ==>
        && actions == old(actions)[id := old(actions[id]).(status := Executing)]
        && authorizations == old(authorizations)[id := AuthExecuting]
      ensures !outcome.Fresh? ==> actions == old(actions) && authorizations == old(authorizations)
    {
      if m.signedScope != m.commandScope { return Rejected("A2A_MANDATE_COMMAND_SCOPE_MISMATCH"); }
      if id !in authorizations { return Rejected("A2A_VERIFIED_AUTHORIZATION_NOT_FOUND"); }
      var action, execution := actions[id], authorizations[id];
      var outstandingPaise := m.invoiceAmountPaise - m.invoicePaidPaise;
      var unsafe :=
        || m.persistedScope != m.signedScope || m.currentScope != m.signedScope
        || !m.taskAndSignerMatch || m.authorizedAction != "OPEN_EXACT_PAYMENT_SURFACE"
        || m.persistedIssuedAt != m.issuedAt || m.persistedExpiresAt != m.expiresAt
        || m.expiresAt <= now || m.expiresAt > m.recoveryDeadline || m.commandDeadline != m.recoveryDeadline
        || outstandingPaise != m.signedScope.exactAmountPaise
        || m.caseOutcome != Open || m.paymentState == Captured || m.caseRecovered
        || action.actionType != SendToCustomerAgent || action.policy !in {Allow, Delay};
      if unsafe { return Rejected("A2A_AUTHORIZATION_STALE_OR_MISMATCHED"); }
      if action.status == Succeeded { return AlreadyExecuted(); }
      if action.status == Cancelled { return Rejected("ACTION_CANCELLED"); }
      if execution == AuthExecuting || execution == AuthUncertain {
        if m.commandScope.surface == StandardPaymentLink { return Reconcile; }
        return Unresolved();
      }
      if execution == AuthSucceeded { return AlreadyExecuted(); }
      if execution != AuthAuthorized { return Rejected("A2A_AUTHORIZATION_NOT_EXECUTABLE"); }
      if action.status != Proposed && action.status != Scheduled { return Rejected("ACTION_NOT_AUTHORIZED"); }
      var dueAt := EffectiveDelay(action);
      if dueAt.Some? && now < dueAt.value { return Rejected("ACTION_NOT_DUE"); }
      actions := actions[id := action.(status := Executing)];
      authorizations := authorizations[id := AuthExecuting];
      return Fresh;
    }

    /** Recording a submission's result never revives a cancelled row and never overwrites
        a settled one. */
    method PersistPaymentSurface(id: string, reference: string) returns (result: ExecutionResult)
      modifies this`actions, this`authorizations
      ensures id !in old(actions) ==> result == ExecutionResult(ResUncertain, "ACTION_RECORD_MISSING_AFTER_SUBMISSION")
                                      && actions == old(actions) && authorizations == old(authorizations)
      ensures id in old(actions) ==>
        && actions == old(actions)[id := Persisted(old(actions[id]), reference)]
        && Auth(id) == PersistedAuth(old(actions[id]), old(Auth(id)))
        && (old(actions[id]).status in {Cancelled, Succeeded} ==> actions == old(actions) && Auth(id) == old(Auth(id)))
        && (old(actions[id]).status !in {Cancelled, Succeeded} ==>
              && actions[id] == old(actions[id]).(status := Succeeded, externalReference := Some(reference))
              && Auth(id) == if old(Auth(id)).Some? then Some(AuthSucceeded) else None)
        && (result.status == ResRejected <==> actions[id].status == Cancelled)
        && (result.status == ResSucceeded <==> actions[id].status == Succeeded)
      ensures forall other | other != id :: Auth(other) == old(Auth(other))
    {
      if id !in actions { return ExecutionResult(ResUncertain, "ACTION_RECORD_MISSING_AFTER_SUBMISSION"); }
      var persisted := actions[id];
      assert actions[id := persisted] == actions;
      if persisted.status == Cancelled { return ExecutionResult(ResRejected, "ACTION_CANCELLED_AFTER_SUBMISSION"); }
      if persisted.status == Succeeded { return ExecutionResult(ResSucceeded, "ALREADY_EXECUTED"); }
      actions := actions[id := persisted.(status := Succeeded, externalReference := Some(reference))];
      if id in authorizations { authorizations := authorizations[id := AuthSucceeded]; }
      return ExecutionResult(ResSucceeded, "");
    }

    /** The locked transaction that looks a reference up and resubmits only what the provider
        confirms absent. `created` is the provider's answer to that second create. */
    method ReconcileOrResume(id: string, lookup: Lookup, created: Option<string>)
      returns (result: ExecutionResult, resubmitted: bool)
      modifies this`actions, this`authorizations
      ensures resubmitted <==> provider != PlainProvider && provider != MockProvider && id in old(actions)
                               && old(actions[id]).status == Executing && lookup == Absent
      ensures actions != old(actions) || authorizations != old(authorizations) ==>
        && id in old(actions) && old(actions[id]).status == Executing
        && actions == old(actions)[id := old(actions[id]).(status := Succeeded, externalReference :=
             if lookup.Present? then Some(lookup.reference) else created)]
        && Auth(id) == if old(Auth(id)).Some? then Some(AuthSucceeded) else None
      ensures result.status == ResSucceeded <==>
        provider == LinkLifecycleProvider && id in old(actions) &&
        (old(actions[id]).status == Succeeded ||
         (old(actions[id]).status == Executing && (lookup.Present? || (lookup == Absent && created.Some?))))
      ensures result.status == ResSucceeded ==> actions[id].status == Succeeded
    {
      resubmitted := false;
      if provider != LinkLifecycleProvider {
        return ExecutionResult(ResUncertain, "PAYMENT_LINK_RECONCILIATION_UNSUPPORTED"), false;
      }
      if id !in actions {
        return ExecutionResult(ResUncertain, "ACTION_RECORD_MISSING_DURING_RECONCILIATION"), false;
      }
      var persisted := actions[id];
      if persisted.status == Succeeded { return ExecutionResult(ResSucceeded, "ALREADY_EXECUTED"), false; }
      if persisted.status == Cancelled { return ExecutionResult(ResRejected, "ACTION_CANCELLED"), false; }
      if persisted.status != Executing {
        return ExecutionResult(ResUncertain, "ACTION_STATE_CHANGED_DURING_RECONCILIATION"), false;
      }
      var reference: string;
      var reason: string;
      match lookup {
        case LookupError => return ExecutionResult(ResUncertain, "PAYMENT_LINK_RECONCILIATION_UNRESOLVED"), false;
        case Absent =>
          resubmitted := true;
          if created.None? { return ExecutionResult(ResUncertain, "CONFIRMED_ABSENT_RESUBMISSION_UNCERTAIN"), true; }
          reference, reason := created.value, "CONFIRMED_ABSENT_RESUBMITTED";
        case Present(found) => reference, reason := found, "SUBMISSION_RECONCILED";
      }
      actions := actions[id := persisted.(status := Succeeded, externalReference := Some(reference))];
      if id in authorizations { authorizations := authorizations[id := AuthSucceeded]; }
      return ExecutionResult(ResSucceeded, reason), resubmitted;
    }

    /** The rows a cleanup selects, in any order, each once. */
    ghost predicate Selects(ids: seq<string>)
      reads this
    {
      && (forall i, j | 0 <= i < j < |ids| :: ids[i] != ids[j])
      && (forall id :: id in ids <==>
            id in actions && actions[id].surface == Some(StandardPaymentLink) && actions[id].status in {Executing, Succeeded})
    }

    /** Revoking every standard link of the case: all rows settle, or none changes. */
    method CleanupStandardPaymentLinks(selected: seq<string>, answers: map<string, LinkAnswer>) returns (ok: bool)
      requires Selects(selected) && (forall id | id in actions :: ReferenceSettled(actions[id]))
      requires forall id | id in selected :: id in answers
      modifies this`actions
      ensures !ok ==> actions == old(actions)
      ensures ok ==> actions.Keys == old(actions).Keys
      ensures ok ==> forall id | id in actions && id !in selected :: actions[id] == old(actions)[id]
      ensures ok <==> (selected == [] || provider == MockProvider ||
        (provider == LinkLifecycleProvider && forall id | id in selected ::
           || (old(actions)[id].externalReference.None? && answers[id].lookup == Absent)
           || ((old(actions)[id].externalReference.Some? || answers[id].lookup.Present?)
               && answers[id].revocation in {RevokedNow, AlreadyInactive, PaymentPresent})))
      ensures ok && provider == MockProvider ==> forall id | id in selected :: actions[id].status == Cancelled
      ensures ok && provider == LinkLifecycleProvider ==> forall id | id in selected ::
        && (actions[id].status == Cancelled <==>
              (old(actions)[id].externalReference.None? && answers[id].lookup == Absent)
              || answers[id].revocation in {RevokedNow, AlreadyInactive})
        && (actions[id].status == Succeeded <==>
              (old(actions)[id].externalReference.Some? || answers[id].lookup != Absent)
              && answers[id].revocation == PaymentPresent)
        && (actions[id].status == Succeeded ==>
              if old(actions)[id].externalReference.Some? then actions[id].externalReference == old(actions)[id].externalReference
              else actions[id].externalReference == Some(answers[id].lookup.reference))
    {
      if selected == [] { return true; }
      if provider == MockProvider {
        CancelAll(selected);
        return true;
      }
      if provider != LinkLifecycleProvider { return false; }
      ok := RevokeAll(selected, answers);
    }

    method CancelAll(selected: seq<string>)
      requires Selects(selected)
      modifies this`actions
      ensures actions.Keys == old(actions).Keys
      ensures forall id | id in actions ::
        if id in selected then actions[id] == old(actions)[id].(status := Cancelled) else actions[id] == old(actions)[id]
    {
      var i := 0;
      while i < |selected|
        invariant 0 <= i <= |selected| && actions.Keys == old(actions).Keys
        invariant forall id | id in actions ::
          actions[id] == if id in selected[..i] then old(actions)[id].(status := Cancelled) else old(actions)[id]
      {
        assert selected[i] in selected;
        actions := actions[selected[i] := actions[selected[i]].(status := Cancelled)];
        i := i + 1;
      }
      assert selected[..i] == selected;
    }

    /** One transaction over every selected link; a single unresolved answer rolls it back. */
    method RevokeAll(selected: seq<string>, answers: map<string, LinkAnswer>) returns (ok: bool)
      requires Selects(selected)
      requires forall id | id in selected :: id in answers
      modifies this`actions
      ensures ok <==> forall id | id in selected ::
        || (old(actions)[id].externalReference.None? && answers[id].lookup == Absent)
        || ((old(actions)[id].externalReference.Some? || answers[id].lookup.Present?)
            && answers[id].revocation in {RevokedNow, AlreadyInactive, PaymentPresent})
      ensures !ok ==> actions == old(actions)
      ensures ok ==> actions.Keys == old(actions).Keys && forall id | id in actions ::
        Some(actions[id]) == if id in selected then Cleaned(old(actions)[id], answers[id].lookup, answers[id].revocation)
                             else Some(old(actions)[id])
    {
      var rollback := actions;
      var i := 0;
      while i < |selected|
        invariant 0 <= i <= |selected| && actions.Keys == rollback.Keys
        invariant forall id | id in actions && id !in selected[..i] :: actions[id] == rollback[id]
        invariant forall id | id in selected[..i] ::
          id in actions && Some(actions[id]) == Cleaned(rollback[id], answers[id].lookup, answers[id].revocation)
      {
        var id := selected[i];
        assert id in selected && id !in selected[..i];
        var cleaned := CleanOne(actions[id], answers[id]);
        if cleaned.None? {
          assert rollback[id] == actions[id];
          actions := rollback;
          return false;
        }
        actions := actions[id := cleaned.value];
        i := i + 1;
      }
      assert selected[..i] == selected;
      return true;
    }

    method CleanOne(row: ActionRow, answer: LinkAnswer) returns (cleaned: Option<ActionRow>)
      ensures cleaned == Cleaned(row, answer.lookup, answer.revocation)
      ensures cleaned.Some? <==>
        || (row.externalReference.None? && answer.lookup == Absent)
        || ((row.externalReference.Some? || answer.lookup.Present?) && answer.revocation in {RevokedNow, AlreadyInactive, PaymentPresent})
      ensures cleaned.Some? ==>
        if row.externalReference.None? && answer.lookup == Absent then cleaned.value == row.(status := Cancelled)
        else
          var reference := if row.externalReference.Some? then row.externalReference else Some(answer.lookup.reference);
          if answer.revocation != PaymentPresent then cleaned.value == row.(status := Cancelled, externalReference := reference)
          else if row.externalReference.Some? then cleaned.value == row
          else cleaned.value == row.(status := Succeeded, externalReference := reference)
    {
      var action := row;
      if action.externalReference.None? {
        match answer.lookup {
          case LookupError => return None;
          case Absent => return Some(action.(status := Cancelled));
          case Present(found) => action := action.(status := Succeeded, externalReference := Some(found));
        }
      }
      if answer.revocation == PaymentPresent { return Some(action); }
      if answer.revocation != RevokedNow && answer.revocation != AlreadyInactive { return None; }
      return Some(action.(status := Cancelled));
    }

    /** Cancelling the case's actions. What survives with a nonterminal status is a standard
        link: one that was never claimed, or one whose cleanup stayed unresolved. */
    method CancelRecoveryAction(selected: seq<string>, answers: map<string, LinkAnswer>, ids: seq<string>)
      returns (cancelled: bool)
      requires Selects(selected) && (forall id | id in actions :: ReferenceSettled(actions[id]))
      requires forall id | id in selected :: id in answers
      requires forall id :: id in ids <==> id in actions
      modifies this`actions
      ensures actions.Keys == old(actions).Keys
      ensures forall id | id in actions && old(actions)[id].surface != Some(StandardPaymentLink) ::
        actions[id] == if old(actions)[id].status in {Proposed, AwaitingApproval, Scheduled, Executing}
                       then old(actions)[id].(status := Cancelled) else old(actions)[id]
      ensures forall id | id in actions && old(actions)[id].surface == Some(StandardPaymentLink)
                          && (!cancelled || old(actions)[id].status !in {Executing, Succeeded}) :: actions[id] == old(actions)[id]
      ensures cancelled ==> forall id | id in selected :: actions[id].status in {Cancelled, Succeeded}
      ensures cancelled <==> (selected == [] || provider == MockProvider ||
        (provider == LinkLifecycleProvider && forall id | id in selected ::
           || (old(actions)[id].externalReference.None? && answers[id].lookup == Absent)
           || ((old(actions)[id].externalReference.Some? || answers[id].lookup.Present?)
               && answers[id].revocation in {RevokedNow, AlreadyInactive, PaymentPresent})))
      ensures forall id | id in actions :: Nonterminal(actions[id].status) <==>
        IsStandard(old(actions)[id]) && Nonterminal(old(actions)[id].status)
        && (old(actions)[id].status == Executing ==> !cancelled)
    {
      cancelled := CleanupStandardPaymentLinks(selected, answers);
      CancelRemaining(ids);
    }

    /** The second transaction: every nonterminal action off the standard link. */
    method CancelRemaining(ids: seq<string>)
      requires forall id :: id in ids <==> id in actions
      modifies this`actions
      ensures actions.Keys == old(actions).Keys
      ensures forall id | id in actions ::
        if old(actions)[id].surface != Some(StandardPaymentLink)
           && old(actions)[id].status in {Proposed, AwaitingApproval, Scheduled, Executing}
        then actions[id] == old(actions)[id].(status := Cancelled) else actions[id] == old(actions)[id]
      ensures forall id | id in actions :: actions[id] == CancelledByActivity(old(actions)[id])
    {
      var i := 0;
      while i < |ids|
        invariant 0 <= i <= |ids|
        invariant actions.Keys == old(actions).Keys
        invariant forall id | id in actions ::
          actions[id] == if id in ids[..i] then CancelledByActivity(old(actions)[id]) else old(actions)[id]
      {
        var id := ids[i];
        assert id in ids;
        var action := actions[id];
        if action.surface != Some(StandardPaymentLink) && Nonterminal(action.status) {
          actions := actions[id := action.(status := Cancelled)];
        }
        i := i + 1;
      }
      assert ids[..i] == ids;
    }
  }
}
