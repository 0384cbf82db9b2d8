/** The budget-negotiation rules shared by the string-status classes
    (Inner_system/budget) and the enum-status classes
    (src/financial_request.py).

    A negotiation holds a reference to one budget request and is the only
    code that changes it: `Deal` is what the two objects show together, and
    each negotiation operation is a function from the old `Deal` to the new
    one or to the ValueError it raises. */
module BudgetSpec {
  import opened Errors

  datatype BudgetNegotiationStatus = Pending | Approved | Rejected | CounterOffer

  datatype BudgetRequestStatus = RequestPending | RequestApproved | RequestRejected

  /** The negotiation's status, its request's status and the request's amount. */
  datatype Deal = Deal(negotiation: BudgetNegotiationStatus, request: BudgetRequestStatus, amount: int)

  /** The three negotiation operations. */
  datatype Op = ApproveOp | RejectOp | CounterOfferOp(newAmount: int)

  const ApproveRejectedMessage := "Cannot approve a rejected negotiation"
  const RejectApprovedMessage := "Cannot reject an already approved negotiation"
  const CounterClosedMessage := "Cannot counter offer after approval/rejection"

  /** A new request with the given amount, and a new negotiation on it. */
  function Opened(amount: int): Deal {
    Deal(Pending, RequestPending, amount)
  }

  /** `approve`: refused only from Rejected; otherwise both sides become approved. */
  function AfterApprove(d: Deal): Result<Deal, Error> {
    if d.negotiation == Rejected then Err(ValueError(ApproveRejectedMessage))
    else Ok(Deal(Approved, RequestApproved, d.amount))
  }

  /** `reject`: refused only from Approved; otherwise both sides become rejected. */
  function AfterReject(d: Deal): Result<Deal, Error> {
    if d.negotiation == Approved then Err(ValueError(RejectApprovedMessage))
    else Ok(Deal(Rejected, RequestRejected, d.amount))
  }

  /** `counter_offer`: allowed only from Pending or CounterOffer; it
      overwrites the amount, with no bound, and leaves the request's status. */
  function AfterCounterOffer(d: Deal, newAmount: int): Result<Deal, Error> {
    if d.negotiation !in [Pending, CounterOffer] then Err(ValueError(CounterClosedMessage))
    else Ok(Deal(CounterOffer, d.request, newAmount))
  }

  function Step(d: Deal, op: Op): Result<Deal, Error> {
    match op
    case ApproveOp => AfterApprove(d)
    case RejectOp => AfterReject(d)
    case CounterOfferOp(a) => AfterCounterOffer(d, a)
  }

  /** The deal after a sequence of calls; a refused call raises and changes
      nothing, so the caller goes on from the same deal. */
  function Run(d: Deal, ops: seq<Op>): Deal
    decreases |ops|
  {
    if ops == [] then d else Run(Step(d, ops[0]).GetOr(d), ops[1..])
  }

  /** The request's status follows the negotiation's: approved with it,
      rejected with it, and pending while the negotiation is open. */
  ghost predicate Coupled(d: Deal) {
    match d.negotiation
    case Approved => d.request == RequestApproved
    case Rejected => d.request == RequestRejected
    case _ => d.request == RequestPending
  }

  /** A negotiation is closed once approved or rejected. */
  predicate Closed(d: Deal) {
    d.negotiation == Approved || d.negotiation == Rejected
  }

  /** Exactly which calls raise, and with which message. */
  lemma StepRefusedIff(d: Deal, op: Op)
    ensures Step(d, op).Err? <==>
      || (op == ApproveOp && d.negotiation == Rejected)
      || (op == RejectOp && d.negotiation == Approved)
      || (op.CounterOfferOp? && Closed(d))
    ensures Step(d, op).Err? ==> Step(d, op).error == ValueError(
      match op
      case ApproveOp => ApproveRejectedMessage
      case RejectOp => RejectApprovedMessage
      case CounterOfferOp(_) => CounterClosedMessage)
  {
  }

  /** An accepted call sets the negotiation's status to the one the
      operation names; approve and reject carry the request along and keep
      the amount, a counter offer sets the amount and keeps the request's
      status. */
  lemma StepEffect(d: Deal, op: Op)
    requires Step(d, op).Ok?
    ensures var e := Step(d, op).value;
      match op
      case ApproveOp => e == Deal(Approved, RequestApproved, d.amount)
      case RejectOp => e == Deal(Rejected, RequestRejected, d.amount)
      case CounterOfferOp(a) => e.negotiation == CounterOffer && e.amount == a && e.request == d.request
  {
  }

  /** Approving an approved negotiation is accepted and changes nothing. */
  lemma ApproveTwiceAccepted(d: Deal)
    requires d.negotiation != Rejected
    ensures AfterApprove(d).Ok? && AfterApprove(AfterApprove(d).value) == AfterApprove(d)
  {
  }

  /** Every accepted call keeps the request coupled to the negotiation. */
  lemma StepKeepsCoupled(d: Deal, op: Op)
    requires Coupled(d)
    ensures Coupled(Step(d, op).GetOr(d))
  {
  }

  /** From a new negotiation, any sequence of calls keeps the request's
      status coupled to the negotiation's. */
  lemma {:induction false} RunKeepsCoupled(d: Deal, ops: seq<Op>)
    requires Coupled(d)
    ensures Coupled(Run(d, ops))
    decreases |ops|
  {
    if ops != [] {
      StepKeepsCoupled(d, ops[0]);
      RunKeepsCoupled(Step(d, ops[0]).GetOr(d), ops[1..]);
    }
  }

  /** Once approved, a negotiation stays approved, with the same request
      status and amount, whatever is called afterwards. */
  lemma {:induction false} ApprovedIsFinal(d: Deal, ops: seq<Op>)
    requires d.negotiation == Approved
    ensures Run(d, ops).negotiation == Approved
    ensures Run(d, ops).amount == d.amount
    decreases |ops|
  {
    if ops != [] {
      var e := Step(d, ops[0]).GetOr(d);
      assert e.negotiation == Approved && e.amount == d.amount;
      ApprovedIsFinal(e, ops[1..]);
    }
  }

  /** Once rejected, a negotiation stays rejected with the same amount:
      it can be rejected again, but never approved or countered. */
  lemma {:induction false} RejectedIsFinal(d: Deal, ops: seq<Op>)
    requires d.negotiation == Rejected
    ensures Run(d, ops).negotiation == Rejected
    ensures Run(d, ops).amount == d.amount
    decreases |ops|
  {
    if ops != [] {
      var e := Step(d, ops[0]).GetOr(d);
      assert e.negotiation == Rejected && e.amount == d.amount;
      RejectedIsFinal(e, ops[1..]);
    }
  }

  /** The amount at the end is the starting amount or the amount of one of
      the counter offers made. */
  lemma {:induction false} AmountOnlyFromOffers(d: Deal, ops: seq<Op>)
    ensures var a := Run(d, ops).amount;
      a == d.amount || exists k :: 0 <= k < |ops| && ops[k] == CounterOfferOp(a)
    decreases |ops|
  {
    if ops != [] {
      var e := Step(d, ops[0]).GetOr(d);
      AmountOnlyFromOffers(e, ops[1..]);
      var a := Run(d, ops).amount;
      assert Run(d, ops) == Run(e, ops[1..]);
      if a != d.amount {
        if a == e.amount {
          assert ops[0] == CounterOfferOp(a);
        } else {
          var k :| 0 <= k < |ops[1..]| && ops[1..][k] == CounterOfferOp(a);
          assert ops[k + 1] == CounterOfferOp(a);
        }
      }
    }
  }

  /** The request-level test traces: approving a new negotiation approves
      its request; a counter offer of 9000 replaces the amount; approving
      after a rejection is refused and the deal stays rejected. */
  lemma NegotiationTraces()
    ensures Run(Opened(5000), [ApproveOp]) == Deal(Approved, RequestApproved, 5000)
    ensures Run(Opened(8000), [CounterOfferOp(9000)]) == Deal(CounterOffer, RequestPending, 9000)
    ensures AfterApprove(Run(Opened(3000), [RejectOp])) == Err(ValueError(ApproveRejectedMessage))
    ensures Run(Opened(3000), [RejectOp, ApproveOp]) == Deal(Rejected, RequestRejected, 3000)
  {
  }
}
