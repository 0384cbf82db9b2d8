/** The role-guarded service facade (Inner_system/app/service.py).

    Each method runs the permission check named after it and, only when the
    check passes, delegates to the HR request, budget request or negotiation
    it is given. A refused call changes nothing. */
module Service {
  import opened Errors
  import Auth
  import HrSpec
  import BudgetSpec
  import InnerHr
  import InnerBudget

  class UserService {
    const role: Option<string>

    constructor (role: Option<string>)
      ensures this.role == role
    {
      this.role := role;
    }

    /** Creates a Pending HR request for the production manager. */
    method CreateHrRequest(requestId: string, reqType: string) returns (r: Result<InnerHr.HRRequest, Error>)
      ensures r.Err? <==> Auth.Check(role, "create_hr_request").Fail?
      ensures r.Err? ==> r == Err(Auth.Check(role, "create_hr_request").error)
      ensures r.Ok? ==> fresh(r.value) && r.value.Valid() && r.value.View() == HrSpec.Opened()
      ensures r.Ok? ==> r.value.requestId == requestId && r.value.reqType == reqType
    {
      var c := Auth.Check(role, "create_hr_request");
      if c.Fail? {
        return Err(c.error);
      }
      var request := new InnerHr.HRRequest(requestId, reqType);
      return Ok(request);
    }

    method ApproveHrRequest(request: InnerHr.HRRequest) returns (out: Outcome<Error>)
      requires request.Valid()
      modifies request
      ensures request.Valid()
      ensures var c := Auth.Check(role, "approve_hr_request");
        var t := HrSpec.AfterApprove(old(request.View()));
        if c.Fail? then out == c && request.View() == old(request.View())
        else (request.View() == t.GetOr(old(request.View()))
          && out == (if t.Ok? then Pass else Fail(InnerHr.Render(t.error))))
    {
      var c := Auth.Check(role, "approve_hr_request");
      if c.Fail? {
        return c;
      }
      out := request.Approve();
    }

    method RejectHrRequest(request: InnerHr.HRRequest) returns (out: Outcome<Error>)
      requires request.Valid()
      modifies request
      ensures request.Valid()
      ensures var c := Auth.Check(role, "reject_hr_request");
        var t := HrSpec.AfterReject(old(request.View()));
        if c.Fail? then out == c && request.View() == old(request.View())
        else (request.View() == t.GetOr(old(request.View()))
          && out == (if t.Ok? then Pass else Fail(InnerHr.Render(t.error))))
    {
      var c := Auth.Check(role, "reject_hr_request");
      if c.Fail? {
        return c;
      }
      out := request.Reject();
    }

    method AssignStaff(request: InnerHr.HRRequest, staff: InnerHr.StaffMember) returns (out: Outcome<Error>)
      requires request.Valid()
      modifies request, staff
      ensures request.Valid()
      ensures var c := Auth.Check(role, "assign_staff");
        var t := HrSpec.AfterStaff(old(request.View()), staff);
        if c.Fail? then out == c && request.View() == old(request.View()) && staff.status == old(staff.status)
        else (request.View() == t.GetOr(old(request.View()))
          && out == (if t.Ok? then Pass else Fail(InnerHr.Render(t.error)))
          && staff.status == (if t.Ok? then "Hired" else old(staff.status)))
    {
      var c := Auth.Check(role, "assign_staff");
      if c.Fail? {
        return c;
      }
      out := request.AssignStaff(staff);
    }

    /** Creates a Pending budget request for the production manager. */
    method CreateBudgetRequest(requestId: string, eventId: string, amount: int, reason: string)
      returns (r: Result<InnerBudget.BudgetRequest, Error>)
      ensures r.Err? <==> Auth.Check(role, "create_budget_request").Fail?
      ensures r.Err? ==> r == Err(Auth.Check(role, "create_budget_request").error)
      ensures r.Ok? ==> fresh(r.value) && r.value.Valid() && r.value.status == "Pending"
      ensures r.Ok? ==> r.value.requestId == requestId && r.value.eventId == eventId
      ensures r.Ok? ==> r.value.amount == amount && r.value.reason == reason
    {
      var c := Auth.Check(role, "create_budget_request");
      if c.Fail? {
        return Err(c.error);
      }
      var request := new InnerBudget.BudgetRequest(requestId, eventId, amount, reason);
      return Ok(request);
    }

    method ApproveBudget(negotiation: InnerBudget.BudgetNegotiation) returns (out: Outcome<Error>)
      requires negotiation.Valid()
      modifies negotiation, negotiation.request
      ensures negotiation.Valid()
      ensures var c := Auth.Check(role, "approve_budget");
        var t := BudgetSpec.AfterApprove(old(negotiation.View()));
        if c.Fail? then out == c && negotiation.View() == old(negotiation.View())
        else negotiation.View() == t.GetOr(old(negotiation.View())) && out == t.ToOutcome()
    {
      var c := Auth.Check(role, "approve_budget");
      if c.Fail? {
        return c;
      }
      out := negotiation.Approve();
    }

    method RejectBudget(negotiation: InnerBudget.BudgetNegotiation) returns (out: Outcome<Error>)
      requires negotiation.Valid()
      modifies negotiation, negotiation.request
      ensures negotiation.Valid()
      ensures var c := Auth.Check(role, "reject_budget");
        var t := BudgetSpec.AfterReject(old(negotiation.View()));
        if c.Fail? then out == c && negotiation.View() == old(negotiation.View())
        else negotiation.View() == t.GetOr(old(negotiation.View())) && out == t.ToOutcome()
    {
      var c := Auth.Check(role, "reject_budget");
      if c.Fail? {
        return c;
      }
      out := negotiation.Reject();
    }

    method CounterOffer(negotiation: InnerBudget.BudgetNegotiation, amount: int) returns (out: Outcome<Error>)
      requires negotiation.Valid()
      modifies negotiation, negotiation.request
      ensures negotiation.Valid()
      ensures var c := Auth.Check(role, "counter_offer");
        var t := BudgetSpec.AfterCounterOffer(old(negotiation.View()), amount);
        if c.Fail? then out == c && negotiation.View() == old(negotiation.View())
        else negotiation.View() == t.GetOr(old(negotiation.View())) && out == t.ToOutcome()
    {
      var c := Auth.Check(role, "counter_offer");
      if c.Fail? {
        return c;
      }
      out := negotiation.CounterOffer(amount);
    }
  }

  /** HR approves a Pending HR request: it becomes Approved. */
  method HrApprovesScenario() returns (out: Outcome<Error>, status: string)
    ensures out == Pass && status == "Approved"
  {
    var hr := new UserService(Some(Auth.HR));
    var req := new InnerHr.HRRequest("HR10", "Recruitment");
    out := hr.ApproveHrRequest(req);
    InnerHr.SpellingRoundTrip(HrSpec.Approved, req.status);
    return out, req.status;
  }

  /** The production manager may not approve an HR request: PermissionError,
      and the request stays Pending. */
  method ProductionManagerRefusedScenario() returns (out: Outcome<Error>, status: string)
    ensures out == Fail(PermissionError(Auth.DeniedMessage("ProductionManager", "approve_hr_request")))
    ensures status == "Pending"
  {
    var pm := new UserService(Some(Auth.PM));
    var req := new InnerHr.HRRequest("HR11", "Recruitment");
    out := pm.ApproveHrRequest(req);
    assert "approve_hr_request" !in Auth.Granted(Auth.PM);
    InnerHr.SpellingRoundTrip(HrSpec.Pending, req.status);
    return out, req.status;
  }

  /** The financial manager counters with 7500 and then approves: the
      budget request is Approved at 7500. */
  method FinancialManagerScenario() returns (status: string, amount: int)
    ensures status == "Approved" && amount == 7500
  {
    var fm := new UserService(Some(Auth.FM));
    var req := new InnerBudget.BudgetRequest("B10", "E10", 7000, "Audio");
    var neg := new InnerBudget.BudgetNegotiation("N10", req);
    var _ := fm.CounterOffer(neg, 7500);
    var _ := fm.ApproveBudget(neg);
    InnerBudget.SpellingsRoundTrip(BudgetSpec.Approved, BudgetSpec.RequestApproved, req.status);
    return req.status, req.amount;
  }

  /** HR may not approve a budget: PermissionError, and the negotiation and
      its request are unchanged. */
  method HrRefusedBudgetScenario() returns (out: Outcome<Error>, negotiation: string, request: string)
    ensures out == Fail(PermissionError(Auth.DeniedMessage(Auth.HR, "approve_budget")))
    ensures negotiation == "Pending" && request == "Pending"
  {
    var hr := new UserService(Some(Auth.HR));
    var req := new InnerBudget.BudgetRequest("B11", "E11", 9000, "Food");
    var neg := new InnerBudget.BudgetNegotiation("N11", req);
    out := hr.ApproveBudget(neg);
    InnerBudget.SpellingsRoundTrip(BudgetSpec.Pending, BudgetSpec.RequestPending, neg.status);
    InnerBudget.SpellingsRoundTrip(BudgetSpec.Pending, BudgetSpec.RequestPending, req.status);
    return out, neg.status, req.status;
  }
}
