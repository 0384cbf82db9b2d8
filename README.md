# Event-company workflows, modelled in Dafny

This project models the business core of an event-management company's
back office. All of its parts are role-gated state machines over
in-memory objects:

- **Event-application approval chain**: two engines. One is string based
  (`event_workflow/workflow/event_workflow.py`, module `EventWorkflow`).
  The other is enum based (`src/app/event_request.py`, module
  `EventRequest`). Customer service creates an application. The senior
  customer-service officer forwards it. The financial manager ("FM") may
  act only on a Forwarded application. The administration manager ("AM")
  may act only once the FM appears in the history. Every accepted review
  appends an audit record. The rules are stated once, as pure functions
  generic in the role type, in `ChainSpec`. Both engines are proved to
  follow them.
- **Budget negotiation**: a string-status twin
  (`Inner_system/budget/*.py`, module `InnerBudget`) and an enum-status
  twin (`src/financial_request.py`, module `FinancialRequest`). A
  negotiation approves, rejects or counter-offers a budget request and
  carries the request's status and amount along. The shared rules are in
  `BudgetSpec`.
- **HR requests**: a string-status twin (`Inner_system/hr/hr_request.py`,
  module `InnerHr`) and an enum-status twin (`src/staff_recruitment.py`,
  module `StaffRecruitment`). Pending leads to Approved or Rejected. An
  approved request takes one staff member and becomes Fulfilled or Hired.
  The shared rules are in `HrSpec`.
- **Permissions**: the role-to-action table and the check every service
  call runs first (`Inner_system/app/auth.py`, module `Auth`), and the
  service facade that composes the check with the HR and budget objects
  (`Inner_system/app/service.py`, module `Service`).
- **Task distribution**: three variants. The full one
  (`src/app/task_distribution.py`, module `TaskDistribution`) has
  departments, task status, comments and budget requests. A reduced one
  (`src/workflow/task_distribution.py`, module `WorkflowTasks`) has string
  departments and comments only. The first script (`main.py`, module
  `MainTasks`) has assignment only. The role enum and employee record
  (`src/app/models.py`) are in `Models`.

Objects whose fields the source updates in place are Dafny classes. Their
methods `modify` exactly those objects. In the event, budget and HR
classes, each method's `ensures` ties the new state, read through
`View()` or `State()`, to the spec function of the old state, and ties
the raised exception to the spec's error. The task classes have no spec
module: their methods state the new fields and the error directly.
Exceptions are values: `Errors.Outcome` or `Errors.Result`, carrying
`ValueError(message)` or `PermissionError(message)` with the source's
messages. Every operation except `assign_task` raises before it changes
anything, so a refused call leaves the state as it was. `assign_task`
links every worker before the first one from another department and only
then raises ValueError. Its contracts state that partial update. The
spec modules' `Run`/`Replay` functions fold a sequence of calls in which
the caller catches each error and goes on. The invariants and finality properties are proved about
those folds.

Where the project's own design description and its code differ, the
model follows the code:

- A new application's status is "Pending Review", but its only history
  record has the status "Created". So "the status is that of the newest
  record" holds only once a review has been made. `ChainSpec.Mirrors`
  states the form that holds.
- The engines do not stop reviews of Approved or Rejected applications.
  Roles other than FM and AM are not gated at all
  (`ChainSpec.UngatedRoles`). The AM check looks for an FM record anywhere
  in the history, not at the current status. The stricter guards exist
  only in the GUI, which is not modelled.
- Approving an approved negotiation is accepted
  (`BudgetSpec.ApproveTwiceAccepted`). Rejecting a rejected one is
  accepted too.
- A budget request's own `approve`/`reject` are unguarded.

## Model

| member | source | states |
|---|---|---|
| ChainSpec.InRoles | event_workflow/workflow/event_workflow.py:57-59 | the AM gate's list of history authors contains a role exactly when some record was written by it |
| ChainSpec.ReviewAccepted | event_workflow/workflow/event_workflow.py:50-64 | a review is accepted iff (FM ⇒ status is Forwarded) and (AM ⇒ some FM record exists) and the decision is Forwarded, Approved or Rejected |
| ChainSpec.ReviewEffect | event_workflow/workflow/event_workflow.py:66-70 | an accepted review sets the status to the decision, appends exactly the record (role, decision, comment), and replaces the live comment only for a non-empty FM comment |
| ChainSpec.OrderCheckedFirst | event_workflow/workflow/event_workflow.py:54-64 | the role checks precede the decision check: an FM review of an application that is not Forwarded fails with the FM error whatever the decision |
| ChainSpec.AmNeedsFmAnywhere | event_workflow/workflow/event_workflow.py:57-60 | AM is refused for its order exactly when no history record is by FM, whatever the status |
| ChainSpec.UngatedRoles | event_workflow/workflow/event_workflow.py:54-64 | any role other than FM and AM with a valid decision is accepted in every status, Approved and Rejected included |
| ChainSpec.UpdateStatusAccepted | event_workflow/workflow/event_workflow.py:17-24 | update_status fails exactly for a status outside the four valid ones, and otherwise appends exactly one record |
| ChainSpec.CreatedIsWellFormed | event_workflow/workflow/event_workflow.py:13-14 | a new application satisfies the status/history agreement and the chain order |
| ChainSpec.UpdateStatusKeepsMirror | event_workflow/workflow/event_workflow.py:17-24 | an accepted update_status keeps the status equal to the newest record's status |
| ChainSpec.ReviewKeepsInvariants | event_workflow/workflow/event_workflow.py:50-72 | an accepted review keeps the status/history agreement and the order: every FM record follows a Forwarded record, every AM record has an earlier FM record |
| ChainSpec.ReplayKeepsInvariants | event_workflow/workflow/event_workflow.py:50-72 | any sequence of reviews, refused ones included, keeps both invariants of the whole history |
| ChainSpec.ReplayAppends | event_workflow/workflow/event_workflow.py:24 | the history is append-only: the old history is a prefix of the new one, and at most one record is added per review |
| ChainSpec.FmActedStaysActed | event_workflow/workflow/event_workflow.py:57-60 | once FM has a record, AM is never again refused for its order, whatever reviews follow |
| ChainSpec.ApprovalChainScenario | event_workflow/workflow/event_workflow.py:50-72 | SCS forwards, FM forwards with "Budget OK", AM approves: Approved, live comment "Budget OK", four records |
| EventWorkflow.EventApplication.constructor | event_workflow/workflow/event_workflow.py:4-15 | a new application keeps its fields, is "Pending Review" with an empty comment and one "Created" record by its creator |
| EventWorkflow.EventApplication.UpdateStatus | event_workflow/workflow/event_workflow.py:17-24 | the new state is `ChainSpec.UpdatedStatus` of the old one; an invalid status raises ValueError quoting it and changes nothing |
| EventWorkflow.WorkflowSystem.constructor | event_workflow/workflow/event_workflow.py:31-33 | no applications, next id 1 |
| EventWorkflow.WorkflowSystem.CreateEventApplication | event_workflow/workflow/event_workflow.py:35-48 | the new application gets the next id, is registered last, and starts as `Created(createdBy)`; the default creator is "CustomerService"; the listing gains its summary at the end and every earlier line is unchanged |
| EventWorkflow.WorkflowSystem.GetApplicationById | event_workflow/workflow/event_workflow.py:74-78 | found iff some application has the id, and it is that application; otherwise ValueError "No application found with ID n" |
| EventWorkflow.WorkflowSystem.ReviewApplication | event_workflow/workflow/event_workflow.py:50-72 | lookup error for an unknown id; otherwise the application's new state is `ChainSpec.Reviewed` of its old state, each refusal raises its message, and no other application changes |
| EventWorkflow.WorkflowSystem.ListApplications | event_workflow/workflow/event_workflow.py:80-81 | one line per application and one per id handed out; line i is the "[#i+1] client - type (status)" summary of the application with id i+1 |
| EventWorkflow.EarlyFinalApprovalScenario | event_workflow/workflow/event_workflow.py:57-60 | AM on a new application raises "AM cannot act before FM ..." and writes no record |
| EventWorkflow.ApprovalChainScenario | event_workflow/workflow/event_workflow.py:50-72 | the full chain through the engine ends Approved with comment "Budget OK" and four records |
| EventWorkflow.LookupScenario | event_workflow/workflow/event_workflow.py:74-78 | ids are handed out 1, 2, 3, and lookup finds an application by its id |
| EventWorkflow.MissingIdScenario | event_workflow/workflow/event_workflow.py:74-78 | an unknown id 999 raises "No application found with ID 999" |
| EventWorkflow.ListingScenario | event_workflow/workflow/event_workflow.py:80-81 | two created applications are listed in creation order as "[#1] ..." then "[#2] ...", each "Pending Review" |
| EventRequest.EveryStatusIsValid | src/app/event_request.py:7-11 | every enum member's value is one of the four valid statuses, so the intended validity test never refuses a member |
| EventRequest.AsWrittenRefusesEveryStatus | src/app/event_request.py:29-31 | as written, the membership test (a member among the name keys) is false for every member, so update_status always raises "Invalid status"; the member's name is among the keys |
| EventRequest.ForwardingRaisesAsWritten | src/app/event_request.py:65-80 | the forwarding review of a new application passes the role and decision checks, yet as written it raises in update_status, while the intended review accepts it |
| EventRequest.EventApplication.constructor | src/app/event_request.py:14-27 | fields kept, status PENDING_REVIEW, one "Created" record by the creator role |
| EventRequest.EventApplication.UpdateStatus | src/app/event_request.py:29-36 | with the intended test: the status becomes the member, and the state is `ChainSpec.UpdatedStatus` with the member's value recorded |
| EventRequest.WorkflowSystem.constructor | src/app/event_request.py:43-45 | no applications, next id 1 |
| EventRequest.WorkflowSystem.CreateEventApplication | src/app/event_request.py:47-63 | next id, registered last, PENDING_REVIEW, default creator CS_WORKER; the listing gains its summary at the end and every earlier line is unchanged |
| EventRequest.WorkflowSystem.GetApplicationById | src/app/event_request.py:87-91 | found iff some application has the id; otherwise ValueError "No application found with ID n" |
| EventRequest.WorkflowSystem.ReviewApplication | src/app/event_request.py:65-85 | the new state is `ChainSpec.Reviewed` with FIN_MANAGER/ADM_MANAGER as the gated roles; an accepted review sets the status to the decision; refusals raise their messages; no other application changes |
| EventRequest.WorkflowSystem.ListApplications | src/app/event_request.py:93-94 | one line per application and one per id handed out; line i is the summary of the application with id i+1, its status printed as "EventApplicationStatus.NAME" |
| EventRequest.CreationScenario | src/app/event_request.py:47-63 | the first application gets id 1, PENDING_REVIEW, and a creation record by CS_WORKER |
| EventRequest.FinancialReviewScenario | src/app/event_request.py:65-85 | FIN_MANAGER is refused before forwarding; after CS_MANAGER forwards, FIN_MANAGER approves and "Budget OK" becomes the live comment |
| EventRequest.ListingScenario | src/app/event_request.py:93-94 | two created applications are listed in creation order, ids 1 then 2, each "EventApplicationStatus.PENDING_REVIEW" |
| EventRequest.AdministrationBeforeFinanceScenario | src/app/event_request.py:72-75 | after forwarding, ADM_MANAGER is refused with the source's message while FIN_MANAGER has not acted, and the status stays FORWARDED (under the intended `update_status`, see Left out) |
| BudgetSpec.StepRefusedIff | Inner_system/budget/negotiation.py:7-23 | a call raises iff approve on Rejected, reject on Approved, or a counter offer on Approved/Rejected, each with its message |
| BudgetSpec.StepEffect | Inner_system/budget/negotiation.py:7-23 | approve and reject set both statuses and keep the amount; a counter offer sets CounterOffer and the amount and keeps the request's status |
| BudgetSpec.ApproveTwiceAccepted | Inner_system/budget/negotiation.py:7-11 | approving an approved negotiation is accepted and changes nothing |
| BudgetSpec.StepKeepsCoupled | Inner_system/budget/negotiation.py:7-17 | each call keeps the request's status coupled to the negotiation's (approved with it, rejected with it, pending while open) |
| BudgetSpec.RunKeepsCoupled | Inner_system/budget/negotiation.py:7-23 | any sequence of calls keeps the coupling |
| BudgetSpec.ApprovedIsFinal | Inner_system/budget/negotiation.py:7-23 | once approved, a negotiation stays approved with the same amount whatever is called |
| BudgetSpec.RejectedIsFinal | Inner_system/budget/negotiation.py:7-23 | once rejected, a negotiation stays rejected with the same amount whatever is called |
| BudgetSpec.AmountOnlyFromOffers | Inner_system/budget/negotiation.py:19-23 | the final amount is the starting amount or the amount of one of the counter offers made |
| BudgetSpec.NegotiationTraces | Inner_system/budget/negotiation.py:7-23 | approve approves the request; counter offer 9000 replaces 8000 and leaves the request Pending; approve after reject raises and the deal stays rejected |
| InnerBudget.SpellingsRoundTrip | Inner_system/budget/negotiation.py:5-22 | each status string the classes assign parses back to its status and vice versa |
| InnerBudget.BudgetRequest.constructor | Inner_system/budget/budget_request.py:2-7 | fields kept, status "Pending" |
| InnerBudget.BudgetRequest.Approve | Inner_system/budget/budget_request.py:9-10 | status "Approved" from any status; nothing else changes |
| InnerBudget.BudgetRequest.Reject | Inner_system/budget/budget_request.py:12-13 | status "Rejected" from any status; nothing else changes |
| InnerBudget.BudgetNegotiation.constructor | Inner_system/budget/negotiation.py:2-5 | status "Pending", bound to its request |
| InnerBudget.BudgetNegotiation.Approve | Inner_system/budget/negotiation.py:7-11 | the new deal is `BudgetSpec.AfterApprove` of the old one, and the outcome its error |
| InnerBudget.BudgetNegotiation.Reject | Inner_system/budget/negotiation.py:13-17 | the new deal is `BudgetSpec.AfterReject` of the old one, and the outcome its error |
| InnerBudget.BudgetNegotiation.CounterOffer | Inner_system/budget/negotiation.py:19-23 | the new deal is `BudgetSpec.AfterCounterOffer` of the old one, and the outcome its error |
| InnerBudget.ApprovalScenario | Inner_system/budget/negotiation.py:7-11 | a new request is "Pending"; approving its negotiation makes both "Approved" |
| InnerBudget.CounterOfferScenario | Inner_system/budget/negotiation.py:19-23 | counter offer 9000: amount 9000, negotiation "CounterOffer", request still "Pending" |
| InnerBudget.InvalidTransitionScenario | Inner_system/budget/negotiation.py:7-17 | approve after reject raises "Cannot approve a rejected negotiation" and both stay "Rejected" |
| FinancialRequest.BudgetRequest.constructor | src/financial_request.py:15-20 | fields kept, status PENDING |
| FinancialRequest.BudgetRequest.Approve | src/financial_request.py:22-23 | status APPROVED from any status |
| FinancialRequest.BudgetRequest.Reject | src/financial_request.py:25-26 | status REJECTED from any status |
| FinancialRequest.BudgetNegotiation.constructor | src/financial_request.py:29-32 | status PENDING, bound to its request |
| FinancialRequest.BudgetNegotiation.Approve | src/financial_request.py:34-38 | the new deal is `BudgetSpec.AfterApprove` of the old one |
| FinancialRequest.BudgetNegotiation.Reject | src/financial_request.py:40-44 | the new deal is `BudgetSpec.AfterReject` of the old one |
| FinancialRequest.BudgetNegotiation.CounterOffer | src/financial_request.py:46-50 | the new deal is `BudgetSpec.AfterCounterOffer` of the old one |
| FinancialRequest.RequestScenario | src/financial_request.py:14-32 | both objects start PENDING; the request's approve and reject set its status unconditionally |
| FinancialRequest.NegotiationScenario | src/financial_request.py:34-50 | counter offer sets COUNTER_OFFER and 65000; approve and reject carry the request along |
| FinancialRequest.ClosedScenario | src/financial_request.py:34-48 | approve after reject, reject after approve and counter offer after approval each raise ValueError with the source's message |
| HrSpec.StepRefusedIff | Inner_system/hr/hr_request.py:8-24 | approve and reject raise iff not Pending; staffing raises iff not Approved; each with its error |
| HrSpec.FinalRefusesAll | Inner_system/hr/hr_request.py:8-24 | a Rejected or staffed request refuses every call |
| HrSpec.StepKeepsConsistent | Inner_system/hr/hr_request.py:18-24 | each call keeps "at most one staff member, listed exactly when staffed" |
| HrSpec.RunKeepsConsistent | Inner_system/hr/hr_request.py:8-24 | any sequence of calls from a new request keeps that invariant |
| HrSpec.FinalIsFinal | src/staff_recruitment.py:19-33 | no sequence of calls changes a Rejected or Hired request |
| HrSpec.StaffFromCalls | Inner_system/hr/hr_request.py:18-24 | every listed staff member was listed before or passed to one of the staff calls |
| HrSpec.StaffedOnlyFromApproved | Inner_system/hr/hr_request.py:18-24 | a request becomes staffed only from Approved and only through a staff call |
| HrSpec.HrTraces | Inner_system/hr/hr_request.py:8-24 | approve then staff gives staffed with one member; approve after reject, reject after approve and staffing while Pending raise |
| InnerHr.SpellingRoundTrip | Inner_system/hr/hr_request.py:5-24 | each status string the request assigns parses back to its status and vice versa |
| InnerHr.HRRequest.constructor | Inner_system/hr/hr_request.py:2-6 | "Pending" with no staff |
| InnerHr.HRRequest.Approve | Inner_system/hr/hr_request.py:8-11 | the new state is `HrSpec.AfterApprove` of the old one, the error its message |
| InnerHr.HRRequest.Reject | Inner_system/hr/hr_request.py:13-16 | the new state is `HrSpec.AfterReject` of the old one, the error its message |
| InnerHr.HRRequest.AssignStaff | Inner_system/hr/hr_request.py:18-24 | the new state is `HrSpec.AfterStaff`; on success the member is marked "Hired", on refusal the member is untouched |
| InnerHr.FulfilmentScenario | Inner_system/hr/hr_request.py:18-24 | approve then assign: "Fulfilled", one member listed, the member "Hired" |
| InnerHr.AssignWhilePendingScenario | Inner_system/hr/hr_request.py:18-20 | assigning to a Pending request raises and changes neither object |
| StaffRecruitment.HRRequest.constructor | src/staff_recruitment.py:13-17 | PENDING with no hired staff |
| StaffRecruitment.HRRequest.Approve | src/staff_recruitment.py:19-22 | the new state is `HrSpec.AfterApprove` of the old one |
| StaffRecruitment.HRRequest.Reject | src/staff_recruitment.py:24-27 | the new state is `HrSpec.AfterReject` of the old one |
| StaffRecruitment.HRRequest.HireStaff | src/staff_recruitment.py:29-33 | the new state is `HrSpec.AfterStaff`: the worker appended and HIRED, only from APPROVED |
| StaffRecruitment.HireScenario | src/staff_recruitment.py:29-33 | approve then hire: HIRED, the worker listed, the worker's own tasks untouched |
| StaffRecruitment.RefusalScenario | src/staff_recruitment.py:19-31 | approve after reject, reject after approve and hiring before approval raise their messages |
| Auth.Check | Inner_system/app/auth.py:26-37 | passes iff a role is set and the table grants it the action; no role raises "No role assigned", otherwise "Role 'r' is not allowed to perform 'a'" |
| Auth.Guarded | Inner_system/app/auth.py:26-42 | the decorated call returns the wrapped result unchanged iff the check passes, and otherwise the check's PermissionError, with the message "Role '<role>' is not allowed to perform '<action>'" for a role that lacks the action |
| Auth.TableContents | Inner_system/app/auth.py:9-24 | the exact action set of each of the three roles |
| Auth.AllowedIffOwner | Inner_system/app/auth.py:9-24 | a role may perform an action iff it is the action's owner in an independent per-action table |
| Auth.UniqueOwner | Inner_system/app/auth.py:9-24 | no action is granted to two roles |
| Auth.UnknownRoleDenied | Inner_system/app/auth.py:34-37 | a role missing from the table is refused every action |
| Service.UserService.constructor | Inner_system/app/service.py:9-10 | the service holds the given role, or none |
| Service.UserService.CreateHrRequest | Inner_system/app/service.py:13-16 | refused iff the check fails; otherwise a new Pending HR request |
| Service.UserService.ApproveHrRequest | Inner_system/app/service.py:18-20 | refused by the check with no change; otherwise exactly `HRRequest.approve` |
| Service.UserService.RejectHrRequest | Inner_system/app/service.py:22-24 | refused by the check with no change; otherwise exactly `HRRequest.reject` |
| Service.UserService.AssignStaff | Inner_system/app/service.py:26-28 | refused by the check with neither object changed; otherwise exactly `HRRequest.assign_staff` |
| Service.UserService.CreateBudgetRequest | Inner_system/app/service.py:31-33 | refused iff the check fails; otherwise a new Pending budget request with the given fields |
| Service.UserService.ApproveBudget | Inner_system/app/service.py:35-37 | refused by the check with no change; otherwise exactly `BudgetNegotiation.approve` |
| Service.UserService.RejectBudget | Inner_system/app/service.py:39-41 | refused by the check with no change; otherwise exactly `BudgetNegotiation.reject` |
| Service.UserService.CounterOffer | Inner_system/app/service.py:43-45 | refused by the check with no change; otherwise exactly `BudgetNegotiation.counter_offer` |
| Service.HrApprovesScenario | Inner_system/app/service.py:18-20 | HR approves a Pending request: "Approved" |
| Service.ProductionManagerRefusedScenario | Inner_system/app/service.py:18-20 | the production manager's approval raises PermissionError naming role and action; the request stays "Pending" |
| Service.FinancialManagerScenario | Inner_system/app/service.py:35-45 | the financial manager counters 7500 and approves: request "Approved" at 7500 |
| Service.HrRefusedBudgetScenario | Inner_system/app/service.py:35-37 | HR's budget approval raises PermissionError with the decorator's message for HR and "approve_budget"; both objects stay "Pending" |
| TaskDistribution.Task.constructor | src/app/task_distribution.py:28-37 | fields kept, OPEN, no workers, comments or budget requests |
| TaskDistribution.Task.AddComment | src/app/task_distribution.py:39-44 | appends exactly one (worker, comment) record |
| TaskDistribution.Task.AddBudgetRequest | src/app/task_distribution.py:46-52 | appends exactly one (worker, amount, reason) record |
| TaskDistribution.Worker.constructor | src/app/task_distribution.py:58-62 | role WORKER, fields kept, no tasks |
| TaskDistribution.Worker.CommentOnTask | src/app/task_distribution.py:67-71 | comments iff assigned to the task, otherwise PermissionError and no change |
| TaskDistribution.Worker.RequestMoreBudget | src/app/task_distribution.py:73-77 | records a budget request iff assigned to the task, otherwise PermissionError and no change |
| TaskDistribution.Manager.constructor | src/app/task_distribution.py:80-83 | role MANAGER, fields kept, no tasks |
| TaskDistribution.Manager.CreateTask | src/app/task_distribution.py:85-88 | a fresh OPEN task in the manager's department, appended to the manager's tasks |
| TaskDistribution.Manager.AssignTask | src/app/task_distribution.py:90-98 | foreign task: PermissionError, nothing changes; otherwise the workers before the first outsider are linked both ways in order and the outsider raises ValueError; link counts agree on both sides |
| TaskDistribution.Manager.ChangeTaskStatus | src/app/task_distribution.py:103-110 | foreign task: PermissionError; the current status: ValueError; otherwise the new status |
| TaskDistribution.Manager.ReviewFeedback | src/app/task_distribution.py:112-116 | the task's comments iff the task is in the manager's department, otherwise PermissionError |
| TaskDistribution.Manager.ReviewBudgetRequests | src/app/task_distribution.py:118-122 | the task's budget requests iff the task is in the manager's department, otherwise PermissionError |
| TaskDistribution.CreateTaskScenario | src/app/task_distribution.py:85-88 | a created task is listed, in Production, OPEN; a new worker has no tasks |
| TaskDistribution.AssignScenario | src/app/task_distribution.py:90-98 | three Production workers are each linked with the task both ways |
| TaskDistribution.OutsiderScenario | src/app/task_distribution.py:94-98 | [w1, outsider, w3]: ValueError naming the outsider, w1 linked, w3 never reached |
| TaskDistribution.StatusScenario | src/app/task_distribution.py:103-110 | OPEN to IN_PROGRESS to CLOSED is accepted; setting the moved task to CLOSED again raises the same-status ValueError |
| TaskDistribution.FeedbackScenario | src/app/task_distribution.py:112-116 | an assigned worker's comment is what the manager reviews |
| TaskDistribution.BudgetRequestScenario | src/app/task_distribution.py:118-122 | an assigned worker's budget request is what the manager reviews |
| TaskDistribution.UnassignedWorkerScenario | src/app/task_distribution.py:67-77 | an unassigned worker may neither comment nor request budget, and nothing is recorded |
| WorkflowTasks.Task.constructor | src/workflow/task_distribution.py:9-15 | fields kept, "Open", no workers or comments |
| WorkflowTasks.Task.AddComment | src/workflow/task_distribution.py:17-18 | appends exactly one (worker, comment) record |
| WorkflowTasks.Worker.constructor | src/workflow/task_distribution.py:24-27 | fields kept, no tasks |
| WorkflowTasks.Worker.CommentOnTask | src/workflow/task_distribution.py:32-36 | comments iff assigned to the task, otherwise PermissionError and no change |
| WorkflowTasks.Manager.constructor | src/workflow/task_distribution.py:39-41 | fields kept, no tasks |
| WorkflowTasks.Manager.CreateTask | src/workflow/task_distribution.py:43-46 | a fresh "Open" task in the manager's department, appended to the manager's tasks |
| WorkflowTasks.Manager.AssignTask | src/workflow/task_distribution.py:48-56 | as in the full variant: links up to the first outsider, PermissionError for a foreign task, link counts agree |
| WorkflowTasks.Manager.ReviewFeedback | src/workflow/task_distribution.py:61-65 | the task's comments iff the task is in the manager's department, otherwise PermissionError |
| WorkflowTasks.CommentScenario | src/workflow/task_distribution.py:32-65 | an assigned worker's comment is what the manager reviews; an outsider cannot be assigned |
| MainTasks.Task.constructor | main.py:4-9 | fields kept, "Open", no workers |
| MainTasks.Worker.constructor | main.py:15-19 | fields kept, view_tasks empty |
| MainTasks.Manager.constructor | main.py:25-28 | fields kept, view_tasks empty |
| MainTasks.Manager.CreateTask | main.py:30-33 | a fresh "Open" task in the manager's department, appended to view_tasks |
| MainTasks.Manager.AssignTask | main.py:35-43 | links up to the first outsider, PermissionError for a foreign task, link counts agree on both sides |
| MainTasks.AssignScenario | main.py:30-43 | a created task is "Open" and listed; three workers each see it in view_tasks |
| MainTasks.OutsiderScenario | main.py:39-41 | a worker of another department raises ValueError naming them, and no link is made |

## Left out

- Timestamps: the `datetime.now()` stamps in history records, comments and budget requests, and a task's `created_at`, come from the clock. They are dropped from the records.
- Budgets and amounts are Python floats. They are modelled as integers, and nothing in the core does arithmetic on them.
- Application dates are `datetime` values in src/app/event_request.py. They are modelled as strings, because the engine only stores them.
- Output: the `print` calls in Inner_system/app/service.py:15 and Inner_system/app/auth.py:39 are console output only.
- Display: the tasks' `__repr__` (src/app/task_distribution.py:54-55, src/workflow/task_distribution.py:20-21, main.py:11-12) is display only.
- `view_tasks`, `review_feedback` and `review_budget_requests` (src/app/task_distribution.py:64-65, 100-101, 112-122; src/workflow/task_distribution.py:29-30, 58-65; main.py:21-22, 45-46) return the object's live list. The model returns the sequence as a value, so a caller mutating the returned list, and so the task or worker itself, is not modelled (aliasing).
- TaskDistribution.Manager.AssignTask, WorkflowTasks.Manager.AssignTask, MainTasks.Manager.AssignTask: `workers` is a sequence value, so the model does not capture a caller passing the task's own `assigned_workers` list as `workers`. In the source (src/app/task_distribution.py:94-98, src/workflow/task_distribution.py:52-56, main.py:39-43) the loop then appends to the list it is iterating over, so with a non-empty list of same-department workers the call never ends. The model instead makes one pass over the list as it was on entry and returns (aliasing).
- The `HRRequestStatus` member values of src/staff_recruitment.py:6-10 and the `BudgetRequestStatus`/`BudgetNegotiationStatus` member values of src/financial_request.py:3-12 are not modelled: the classes only compare members.
- The `Employee` base class of src/workflow/task_distribution.py:3-6 is folded into the `Worker` and `Manager` fields.
- `Models.Employee` is a value record. The src/app `Worker` and `Manager` hold its name and role directly.
- `Inner_system/hr/staff_member.py` is not part of this model. `InnerHr.StaffMember` keeps the fields the HR request touches, and its constructor takes the initial status.
- src/staff_recruitment.py imports `Worker` from a sibling `task_distribution` module. Here that module is src/app/task_distribution.py.
- The decorator machinery (`functools.wraps`, `*args`) is not modelled. `require_permission` is modelled as `Auth.Check` followed by the call.
- A service with no `role` attribute and one whose role is `None` are both `None` here. A role is otherwise a string.
- Python's dynamic typing: a call with an argument of the wrong type (a string decision passed to the enum engine, say) is not modelled.
- The GUI (`event_workflow/app`), the CLI (`Inner_system/app/cli.py`), `Inner_system/main.py`, `main()` in main.py and the test files are outside the core. The GUI's extra guards are therefore not part of the engines.
- Concurrency: the engines are single-threaded objects, and interleaved calls are not modelled.
- EventWorkflow.WorkflowSystem.ReviewApplication: requires `Valid()` (the ids are 1, 2, 3, ... and `next_id` follows them). Every system built by the constructor and `create_event_application` satisfies it. A caller that rewrites `applications` or `next_id` directly is not modelled. The same holds for the other `WorkflowSystem` methods of both engines.
- InnerBudget.BudgetNegotiation.constructor: requires the request's status to be one of the strings the classes assign. Every request built and changed through its methods has one. A status written from outside is not modelled. The same `Valid()` requirement holds for the negotiation methods, the `InnerHr.HRRequest` methods and the `Service` methods.
- EventRequest.EventApplication.UpdateStatus: models the membership test as evidently intended, which accepts every member. As written, the test refuses every member (see Findings).
- EventRequest.WorkflowSystem.ReviewApplication, EventRequest.FinancialReviewScenario, EventRequest.AdministrationBeforeFinanceScenario: these describe accepted reviews under the intended `update_status`. As written, every review that passes the role and decision checks raises "Invalid status" inside `update_status`, after which the application is unchanged (see Findings, `EventRequest.ForwardingRaisesAsWritten`). In `AdministrationBeforeFinanceScenario` the AM refusal holds as written too, since the order check comes first, but the status after the CS_MANAGER forward stays PENDING_REVIEW as written, not FORWARDED.

## Findings

| source | as written | input that shows it | evidently intended | confidence | as-written member | corrected member |
|---|---|---|---|---|---|---|
| src/app/event_request.py:30 | `update_status` tests an enum member for membership among `__members__`, whose keys are the member names (strings), so the test is false for every member and the method always raises "Invalid status"; consequently `review_application` can never change an application | `update_status(Role.CS_MANAGER, EventApplicationStatus.FORWARDED)` on a new application, or `review_application(1, Role.CS_MANAGER, EventApplicationStatus.FORWARDED, "...")` | accept every `EventApplicationStatus` member (test the member's name, or drop the test) and record the member's value | not executed | EventRequest.AsWrittenRefusesEveryStatus | EventRequest.EveryStatusIsValid |
