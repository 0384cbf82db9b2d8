/** The enum-status HR request (src/staff_recruitment.py).

    The status enum is `HrSpec.HrStatus`, HIRED being the staffed status;
    the request lists the task-distribution workers it hires. Hiring does
    not touch the worker. The source imports `Worker` from a sibling
    `task_distribution` module; here that is `TaskDistribution.Worker`
    (src/app/task_distribution.py). */
module StaffRecruitment {
  import opened Errors
  import opened HrSpec
  import TaskDistribution

  /** The ValueError each refusal raises. */
  function Render(e: HrError): Error {
    match e
    case ApproveNotPending => ValueError("Only Pending requests can be approved")
    case RejectNotPending => ValueError("Only Pending requests can be rejected")
    case StaffBeforeApproval => ValueError("Request must be approved before staff hiring")
  }

  class HRRequest {
    const requestId: int
    const reqType: string
    var status: HrStatus
    var hiredStaff: seq<TaskDistribution.Worker>

    function View(): HrState<TaskDistribution.Worker>
      reads this
    {
      HrState(status, hiredStaff)
    }

    constructor (requestId: int, reqType: string)
      ensures View() == Opened()
      ensures this.requestId == requestId && this.reqType == reqType
    {
      this.requestId := requestId;
      this.reqType := reqType;
      status := Pending;
      hiredStaff := [];
    }

    method Approve() returns (out: Outcome<Error>)
      modifies this
      ensures var r := AfterApprove(old(View()));
        View() == r.GetOr(old(View())) && out == (if r.Ok? then Pass else Fail(Render(r.error)))
    {
      if status != Pending {
        return Fail(ValueError("Only Pending requests can be approved"));
      }
      status := Approved;
      return Pass;
    }

    method Reject() returns (out: Outcome<Error>)
      modifies this
      ensures var r := AfterReject(old(View()));
        View() == r.GetOr(old(View())) && out == (if r.Ok? then Pass else Fail(Render(r.error)))
    {
      if status != Pending {
        return Fail(ValueError("Only Pending requests can be rejected"));
      }
      status := Rejected;
      return Pass;
    }

    /** Lists the worker and marks the request HIRED; the worker itself is
        not modified. */
    method HireStaff(staff: TaskDistribution.Worker) returns (out: Outcome<Error>)
      modifies this
      ensures var r := AfterStaff(old(View()), staff);
        View() == r.GetOr(old(View())) && out == (if r.Ok? then Pass else Fail(Render(r.error)))
    {
      if status != Approved {
        return Fail(ValueError("Request must be approved before staff hiring"));
      }
      hiredStaff := hiredStaff + [staff];
      status := Staffed;
      return Pass;
    }
  }

  /** Approve then hire: the worker is listed and the request is HIRED,
      and the worker's own tasks are untouched. */
  method HireScenario() returns (status: HrStatus, listed: bool, workerTasks: nat)
    ensures status == Staffed && listed && workerTasks == 0
  {
    var request := new HRRequest(1, "Hire Production Staff");
    var worker := new TaskDistribution.Worker("John", TaskDistribution.Production, "Technician");
    var _ := request.Approve();
    var _ := request.HireStaff(worker);
    return request.status, worker in request.hiredStaff, |worker.tasks|;
  }

  /** Approve after reject, reject after approve and hiring before approval
      all raise ValueError. */
  method RefusalScenario() returns (approveRejected: Outcome<Error>, rejectApproved: Outcome<Error>,
                                    hireEarly: Outcome<Error>, hired: nat)
    ensures approveRejected == Fail(ValueError("Only Pending requests can be approved"))
    ensures rejectApproved == Fail(ValueError("Only Pending requests can be rejected"))
    ensures hireEarly == Fail(ValueError("Request must be approved before staff hiring")) && hired == 0
  {
    var worker := new TaskDistribution.Worker("John", TaskDistribution.Production, "Technician");
    var r1 := new HRRequest(1, "Hire Production Staff");
    var _ := r1.Reject();
    approveRejected := r1.Approve();
    var r2 := new HRRequest(1, "Hire Production Staff");
    var _ := r2.Approve();
    rejectApproved := r2.Reject();
    var r3 := new HRRequest(1, "Hire Production Staff");
    hireEarly := r3.HireStaff(worker);
    hired := |r3.hiredStaff|;
  }
}
