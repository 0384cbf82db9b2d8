/** The enum-status budget request and negotiation (src/financial_request.py).

    The status enums are `BudgetSpec`'s; the classes store the members
    themselves, so `View` needs no parsing and no validity predicate. Amounts are integers. */
module FinancialRequest {
  import opened Errors
  import opened BudgetSpec

  class BudgetRequest {
    const requestId: int
    const eventId: int
    var amount: int
    const reason: string
    var status: BudgetRequestStatus

    constructor (requestId: int, eventId: int, amount: int, reason: string)
      ensures status == RequestPending
      ensures this.requestId == requestId && this.eventId == eventId
      ensures this.amount == amount && this.reason == reason
    {
      this.requestId := requestId;
      this.eventId := eventId;
      this.amount := amount;
      this.reason := reason;
      status := RequestPending;
    }

    /** Unguarded: approves from any status; only the status changes. */
    method Approve()
      modifies this`status
      ensures status == RequestApproved
    {
      status := RequestApproved;
    }

    /** Unguarded: rejects from any status; only the status changes. */
    method Reject()
      modifies this`status
      ensures status == RequestRejected
    {
      status := RequestRejected;
    }
  }

  class BudgetNegotiation {
    const negotiationId: int
    const request: BudgetRequest
    var status: BudgetNegotiationStatus

    /** The negotiation and its request, read as one deal. */
    function View(): Deal
      reads this, request
    {
      Deal(status, request.status, request.amount)
    }

    /** A new negotiation is PENDING; the request is not touched. */
    constructor (negotiationId: int, request: BudgetRequest)
      ensures status == Pending
      ensures this.negotiationId == negotiationId && this.request == request
    {
      this.negotiationId := negotiationId;
      this.request := request;
      status := Pending;
    }

    method Approve() returns (out: Outcome<Error>)
      modifies this, request
      ensures View() == AfterApprove(old(View())).GetOr(old(View()))
      ensures out == AfterApprove(old(View())).ToOutcome()
    {
      if status == Rejected {
        return Fail(ValueError(ApproveRejectedMessage));
      }
      status := Approved;
      request.Approve();
      return Pass;
    }

    method Reject() returns (out: Outcome<Error>)
      modifies this, request
      ensures View() == AfterReject(old(View())).GetOr(old(View()))
      ensures out == AfterReject(old(View())).ToOutcome()
    {
      if status == Approved {
        return Fail(ValueError(RejectApprovedMessage));
      }
      status := Rejected;
      request.Reject();
      return Pass;
    }

    method CounterOffer(newAmount: int) returns (out: Outcome<Error>)
      modifies this, request
      ensures View() == AfterCounterOffer(old(View()), newAmount).GetOr(old(View()))
      ensures out == AfterCounterOffer(old(View()), newAmount).ToOutcome()
    {
      if status !in [Pending, BudgetNegotiationStatus.CounterOffer] {
        return Fail(ValueError(CounterClosedMessage));
      }
      status := BudgetNegotiationStatus.CounterOffer;
      request.amount := newAmount;
      return Pass;
    }
  }

  /** A fresh request and negotiation, as each test starts from. */
  method Fresh() returns (request: BudgetRequest, negotiation: BudgetNegotiation)
    ensures fresh(request) && fresh(negotiation) && negotiation.request == request
    ensures negotiation.View() == Opened(50000)
  {
    request := new BudgetRequest(1, 1, 50000, "Decoration");
    negotiation := new BudgetNegotiation(1, request);
  }

  /** Both objects start PENDING; the request's own approve and reject set
      its status unconditionally. */
  method RequestScenario() returns (initial: BudgetRequestStatus, negotiation: BudgetNegotiationStatus,
                                    afterApprove: BudgetRequestStatus, afterReject: BudgetRequestStatus)
    ensures initial == RequestPending && negotiation == Pending
    ensures afterApprove == RequestApproved && afterReject == RequestRejected
  {
    var req, neg := Fresh();
    initial, negotiation := req.status, neg.status;
    req.Approve();
    afterApprove := req.status;
    req.Reject();
    afterReject := req.status;
  }

  /** A counter offer sets COUNTER_OFFER and the new amount; approving and
      rejecting carry the request along. */
  method NegotiationScenario() returns (countered: Deal, approved: Deal, rejected: Deal)
    ensures countered == Deal(BudgetNegotiationStatus.CounterOffer, RequestPending, 65000)
    ensures approved == Deal(Approved, RequestApproved, 50000)
    ensures rejected == Deal(Rejected, RequestRejected, 50000)
  {
    var req, neg := Fresh();
    var _ := neg.CounterOffer(65000);
    countered := neg.View();
    req, neg := Fresh();
    var _ := neg.Approve();
    approved := neg.View();
    req, neg := Fresh();
    var _ := neg.Reject();
    rejected := neg.View();
  }

  /** Approve after reject, reject after approve and a counter offer after
      approval all raise ValueError. */
  method ClosedScenario() returns (approveRejected: Outcome<Error>, rejectApproved: Outcome<Error>,
                                   counterApproved: Outcome<Error>)
    ensures approveRejected == Fail(ValueError("Cannot approve a rejected negotiation"))
    ensures rejectApproved == Fail(ValueError("Cannot reject an already approved negotiation"))
    ensures counterApproved == Fail(ValueError("Cannot counter offer after approval/rejection"))
  {
    var req, neg := Fresh();
    var _ := neg.Reject();
    approveRejected := neg.Approve();
    req, neg := Fresh();
    var _ := neg.Approve();
    rejectApproved := neg.Reject();
    req, neg := Fresh();
    var _ := neg.Approve();
    counterApproved := neg.CounterOffer(70000);
  }
}
