/** The persisted vocabulary shared by the API, the worker and the simulator. */
module Domain {

  datatype Option<+T> = None | Some(value: T)

  datatype Result<+T, +E> = Ok(value: T) | Err(error: E)

  datatype CaseOutcome = Open | Recovered | PartiallyRecovered | Escalated | Disputed | Stopped | Expired

  datatype PaymentState = PaymentUnknown | PaymentFailed | PaymentPending | PaymentAuthorized | Captured | Refunded

  datatype SubscriptionState =
    | SubUnknown | SubCreated | SubAuthenticated | SubActive | SubPending
    | SubHalted | SubPaused | SubCancelled | SubCompleted

  datatype ContactDisposition =
    | NotContacted | ContactScheduled | NoAnswer | Busy | Engaged
    | PromiseToPay | OptedOut | WrongPerson | Dispute | AlreadyPaid

  datatype RevenueAttribution = NoAttribution | SimulatedRevenue | RazorpayTestVerified | VerifiedExternal

  datatype ActionType =
    | WaitForGatewayRetry | OpenCustomerPaymentSurface | StartVoice
    | SendToCustomerAgent | EscalateToHuman | Stop

  datatype Surface = CardUpdate | InvoiceLink | StandardPaymentLink

  datatype Diagnosis =
    | TransientRetryable | InsufficientFunds | AuthenticationRequired | InstrumentInvalid
    | MerchantError | RiskOrComplianceBlock | DiagnosisUnknown

  datatype Disposition = Allow | Block | Delay | RequireManualApproval

  datatype ActionStatus = Proposed | AwaitingApproval | Scheduled | Executing | Succeeded | ActionFailed | Cancelled

  function Min(a: int, b: int): int { if a <= b then a else b }

  function Max(a: int, b: int): int { if a >= b then a else b }
}
