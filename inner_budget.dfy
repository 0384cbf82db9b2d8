/** The string-status budget request and negotiation
    (Inner_system/budget/budget_request.py, Inner_system/budget/negotiation.py).

    Statuses are the strings the classes store; `Valid` says each is one of
    the spellings the classes ever assign, and `View` reads the pair of
    objects as a `BudgetSpec.Deal`, so that every negotiation method is tied
    to the rule it follows. Amounts are integers. */
module InnerBudget {
  import opened Errors
  import opened BudgetSpec

  function NegotiationSpelling(s: BudgetNegotiationStatus): string {
    match s
    case Pending => "Pending"
    case Approved => "Approved"
    case Rejected => "Rejected"
    case CounterOffer => "CounterOffer"
  }

  function RequestSpelling(s: BudgetRequestStatus): string {
    match s
    case RequestPending => "Pending"
    case RequestApproved => "Approved"
    case RequestRejected => "Rejected"
  }

  function ParseNegotiation(s: string): Option<BudgetNegotiationStatus> {
    if s == "Pending" then Some(Pending)
    else if s == "Approved" then Some(Approved)
    else if s == "Rejected" then Some(Rejected)
    else if s == "CounterOffer" then Some(CounterOffer)
    else None
  }

  function ParseRequest(s: string): Option<BudgetRequestStatus> {
    if s == "Pending" then Some(RequestPending)
    else if s == "Approved" then Some(RequestApproved)
    else if s == "Rejected" then Some(RequestRejected)
    else None
  }

  /** Parsing is the inverse of spelling, so a valid status string and the
      status it stands for determine each other. */
  lemma SpellingsRoundTrip(n: BudgetNegotiationStatus, r: BudgetRequestStatus, s: string)
    ensures ParseNegotiation(NegotiationSpelling(n)) == Some(n)
    ensures ParseRequest(RequestSpelling(r)) == Some(r)
    ensures ParseNegotiation(s).Some? ==> NegotiationSpelling(ParseNegotiation(s).value) == s
    ensures ParseRequest(s).Some? ==> RequestSpelling(ParseRequest(s).value) == s
  {
  }

  class BudgetRequest {
    const requestId: string
    const eventId: string
    var amount: int
    const reason: string
    var status: string

    ghost predicate Valid()
      reads this
    {
      ParseRequest(status).Some?
    }

    constructor (requestId: string, eventId: string, amount: int, reason: string)
      ensures Valid() && status == "Pending"
      ensures this.requestId == requestId && this.eventId == eventId
      ensures this.amount == amount && this.reason == reason
    {
      this.requestId := requestId;
      this.eventId := eventId;
      this.amount := amount;
      this.reason := reason;
      status := "Pending";
    }

    /** Unguarded: approves from any status; only the status changes. */
    method Approve()
      modifies this`status
      ensures Valid() && status == "Approved"
    {
      status := "Approved";
    }

    /** Unguarded: rejects from any status; only the status changes. */
    method Reject()
      modifies this`status
      ensures Valid() && status == "Rejected"
    {
      status := "Rejected";
    }
  }

  class BudgetNegotiation {
    const negotiationId: string
    const request: BudgetRequest
    var status: string

    ghost predicate Valid()
      reads this, request
    {
      ParseNegotiation(status).Some? && request.Valid()
    }

    /** The negotiation and its request, read as one deal. */
    ghost function View(): Deal
      requires Valid()
      reads this, request
    {
      Deal(ParseNegotiation(status).value, ParseRequest(request.status).value, request.amount)
    }

    /** A new negotiation is Pending; the request is not touched. */
    constructor (negotiationId: string, request: BudgetRequest)
      requires request.Valid()
      ensures Valid() && status == "Pending"
      ensures this.negotiationId == negotiationId && this.request == request
    {
      this.negotiationId := negotiationId;
      this.request := request;
      status := "Pending";
    }

    method Approve() returns (out: Outcome<Error>)
      requires Valid()
      modifies this, request
      ensures Valid()
      ensures View() == AfterApprove(old(View())).GetOr(old(View()))
      ensures out == AfterApprove(old(View())).ToOutcome()
    {
      if status == "Rejected" {
        return Fail(ValueError(ApproveRejectedMessage));
      }
      status := "Approved";
      request.Approve();
      return Pass;
    }

    method Reject() returns (out: Outcome<Error>)
      requires Valid()
      modifies this, request
      ensures Valid()
      ensures View() == AfterReject(old(View())).GetOr(old(View()))
      ensures out == AfterReject(old(View())).ToOutcome()
    {
      if status == "Approved" {
        return Fail(ValueError(RejectApprovedMessage));
      }
      status := "Rejected";
      request.Reject();
      return Pass;
    }

    method CounterOffer(newAmount: int) returns (out: Outcome<Error>)
      requires Valid()
      modifies this, request
      ensures Valid()
      ensures View() == AfterCounterOffer(old(View()), newAmount).GetOr(old(View()))
      ensures out == AfterCounterOffer(old(View()), newAmount).ToOutcome()
    {
      if status !in ["Pending", "CounterOffer"] {
        return Fail(ValueError(CounterClosedMessage));
      }
      status := "CounterOffer";
      request.amount := newAmount;
      return Pass;
    }
  }

  /** A new request is Pending; approving a negotiation on it approves the
      request too. */
  method ApprovalScenario() returns (initial: string, negotiation: string, request: string)
    ensures initial == "Pending" && negotiation == "Approved" && request == "Approved"
  {
    var req := new BudgetRequest("B01", "E01", 5000, "Decoration");
    initial := req.status;
    var neg := new BudgetNegotiation("N01", req);
    var _ := neg.Approve();
    return initial, neg.status, req.status;
  }

  /** A counter offer of 9000 on an 8000 request replaces the amount and
      leaves the negotiation in CounterOffer, the request still Pending. */
  method CounterOfferScenario() returns (amount: int, negotiation: string, request: string)
    ensures amount == 9000 && negotiation == "CounterOffer" && request == "Pending"
  {
    var req := new BudgetRequest("B02", "E01", 8000, "Food");
    var neg := new BudgetNegotiation("N02", req);
    var _ := neg.CounterOffer(9000);
    return req.amount, neg.status, req.status;
  }

  /** Approving a rejected negotiation raises, and both objects stay rejected. */
  method InvalidTransitionScenario() returns (refused: Outcome<Error>, negotiation: string, request: string)
    ensures refused == Fail(ValueError("Cannot approve a rejected negotiation"))
    ensures negotiation == "Rejected" && request == "Rejected"
  {
    var req := new BudgetRequest("B03", "E02", 3000, "Music");
    var neg := new BudgetNegotiation("N03", req);
    var _ := neg.Reject();
    refused := neg.Approve();
    return refused, neg.status, req.status;
  }
}
