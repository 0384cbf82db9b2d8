/** The string-status HR request (Inner_system/hr/hr_request.py).

    The request stores its status as a string; `View` reads it as an
    `HrSpec.HrState` over the staff objects it lists, "Fulfilled" being the
    staffed status. Assigning staff also marks the staff member "Hired". */
module InnerHr {
  import opened Errors
  import opened HrSpec

  /** A staff member, reduced to what the HR request touches: identity
      fields and a mutable status. hr/staff_member.py is not part of this
      model, so the initial status is whatever the caller passes. */
  class StaffMember {
    const name: string
    const staffId: string
    const position: string
    const department: string
    var status: string

    constructor (name: string, staffId: string, position: string, department: string, status: string)
      ensures this.name == name && this.staffId == staffId && this.position == position
      ensures this.department == department && this.status == status
    {
      this.name := name;
      this.staffId := staffId;
      this.position := position;
      this.department := department;
      this.status := status;
    }
  }

  function Spelling(s: HrStatus): string {
    match s
    case Pending => "Pending"
    case Approved => "Approved"
    case Rejected => "Rejected"
    case Staffed => "Fulfilled"
  }

  function Parse(s: string): Option<HrStatus> {
    if s == "Pending" then Some(Pending)
    else if s == "Approved" then Some(Approved)
    else if s == "Rejected" then Some(Rejected)
    else if s == "Fulfilled" then Some(Staffed)
    else None
  }

  /** Parsing is the inverse of spelling. */
  lemma SpellingRoundTrip(h: HrStatus, s: string)
    ensures Parse(Spelling(h)) == Some(h)
    ensures Parse(s).Some? ==> Spelling(Parse(s).value) == s
  {
  }

  /** The ValueError each refusal raises. */
  function Render(e: HrError): Error {
    match e
    case ApproveNotPending => ValueError("Only Pending requests can be approved")
    case RejectNotPending => ValueError("Only Pending requests can be rejected")
    case StaffBeforeApproval => ValueError("Request must be approved before staff assignment")
  }

  class HRRequest {
    const requestId: string
    const reqType: string
    var status: string
    var assignedStaff: seq<StaffMember>

    ghost predicate Valid()
      reads this
    {
      Parse(status).Some?
    }

    ghost function View(): HrState<StaffMember>
      requires Valid()
      reads this
    {
      HrState(Parse(status).value, assignedStaff)
    }

    constructor (requestId: string, reqType: string)
      ensures Valid() && View() == Opened()
      ensures this.requestId == requestId && this.reqType == reqType
    {
      this.requestId := requestId;
      this.reqType := reqType;
      status := "Pending";
      assignedStaff := [];
    }

    method Approve() returns (out: Outcome<Error>)
      requires Valid()
      modifies this
      ensures Valid()
      ensures var r := AfterApprove(old(View()));
        View() == r.GetOr(old(View())) && out == (if r.Ok? then Pass else Fail(Render(r.error)))
    {
      if status != "Pending" {
        return Fail(ValueError("Only Pending requests can be approved"));
      }
      status := "Approved";
      return Pass;
    }

    method Reject() returns (out: Outcome<Error>)
      requires Valid()
      modifies this
      ensures Valid()
      ensures var r := AfterReject(old(View()));
        View() == r.GetOr(old(View())) && out == (if r.Ok? then Pass else Fail(Render(r.error)))
    {
      if status != "Pending" {
        return Fail(ValueError("Only Pending requests can be rejected"));
      }
      status := "Rejected";
      return Pass;
    }

    /** Takes the staff member on: marks them "Hired", lists them and
        fulfils the request; refused, it changes neither object. */
    method AssignStaff(staff: StaffMember) returns (out: Outcome<Error>)
      requires Valid()
      modifies this, staff
      ensures Valid()
      ensures var r := AfterStaff(old(View()), staff);
        && View() == r.GetOr(old(View()))
        && out == (if r.Ok? then Pass else Fail(Render(r.error)))
        && staff.status == (if r.Ok? then "Hired" else old(staff.status))
    {
      if status != "Approved" {
        return Fail(ValueError("Request must be approved before staff assignment"));
      }
      staff.status := "Hired";
      assignedStaff := assignedStaff + [staff];
      status := "Fulfilled";
      return Pass;
    }
  }

  /** Approve, then assign a staff member: the request is Fulfilled and
      lists that member, who is now Hired. */
  method FulfilmentScenario() returns (approved: string, fulfilled: string, staffStatus: string, listed: nat)
    ensures approved == "Approved" && fulfilled == "Fulfilled" && staffStatus == "Hired" && listed == 1
  {
    var req := new HRRequest("HR02", "Recruitment");
    var _ := req.Approve();
    approved := req.status;
    var staff := new StaffMember("Bob", "S101", "Waiter", "Services", "Available");
    var _ := req.AssignStaff(staff);
    return approved, req.status, staff.status, |req.assignedStaff|;
  }

  /** Assigning staff to a Pending request raises and changes neither the
      request nor the staff member. */
  method AssignWhilePendingScenario() returns (refused: Outcome<Error>, status: string, staffStatus: string)
    ensures refused == Fail(ValueError("Request must be approved before staff assignment"))
    ensures status == "Pending" && staffStatus == "Available"
  {
    var req := new HRRequest("HR03", "Recruitment");
    var staff := new StaffMember("Leo", "S102", "Chef", "Services", "Available");
    refused := req.AssignStaff(staff);
    return refused, req.status, staff.status;
  }
}
