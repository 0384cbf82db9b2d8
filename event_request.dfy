/** The enum-based event-application engine (src/app/event_request.py).

    Statuses are `EventApplicationStatus` members and roles are
    `Models.Role` members; the approval chain's rules are those of
    `ChainSpec` with FinManager as the budget-approval role and AdmManager as
    the final-approval role. History records keep the role member and the
    status's display value, as the source's tuples do. */
module EventRequest {
  import opened Errors
  import opened ChainSpec
  import opened Models

  datatype EventApplicationStatus = PendingReview | Forwarded | Approved | Rejected {

    /** The member's value, the string a history record stores. */
    function Value(): string {
      match this
      case PendingReview => ChainSpec.PendingReview
      case Forwarded => ChainSpec.Forwarded
      case Approved => ChainSpec.Approved
      case Rejected => ChainSpec.Rejected
    }

    /** The member's name, a key of `EventApplicationStatus.__members__`. */
    function Name(): string {
      match this
      case PendingReview => "PENDING_REVIEW"
      case Forwarded => "FORWARDED"
      case Approved => "APPROVED"
      case Rejected => "REJECTED"
    }

    /** `str(member)`, as error messages and summaries print it. */
    function Str(): string {
      "EventApplicationStatus." + Name()
    }
  }

  /** The ValueError each refusal raises; `text` is the printed decision. */
  function Render(e: ChainError, text: string): Error {
    match e
    case FmBeforeForward => ValueError("FM can only act after SCS has forwarded the application.")
    case AmBeforeFm => ValueError("AM cannot act before FM has reviewed the application.")
    case InvalidDecision => ValueError("Invalid decision: " + text)
    case InvalidStatus => ValueError("Invalid status: " + text)
  }

  /** Every member's value is one `update_status` accepts, so the intended
      validity test of `update_status` never refuses a member. */
  lemma EveryStatusIsValid(st: EventApplicationStatus)
    ensures st.Value() in ValidStatuses
    ensures forall s: AppState<Role>, role: Role, comment: string ::
      UpdatedStatus(s, FinManager, role, st.Value(), comment).Ok?
  {
  }

  // ---------------------------------------------------------------------
  // The membership test of update_status, as written
  // ---------------------------------------------------------------------

  /** The Python values the membership test compares: the keys of
      `__members__` are member names, and the value tested is a member. An
      enum member and a string are never equal. */
  datatype PyValue = NameKey(name: string) | MemberValue(status: EventApplicationStatus)

  /** The keys of `EventApplicationStatus.__members__`. */
  const MemberKeys: seq<PyValue> :=
    [NameKey("PENDING_REVIEW"), NameKey("FORWARDED"), NameKey("APPROVED"), NameKey("REJECTED")]

  /** `new_status in EventApplicationStatus.__members__`, as written: a
      member looked up among the name keys. */
  predicate InMembersAsWritten(st: EventApplicationStatus) {
    MemberValue(st) in MemberKeys
  }

  /** `update_status` as written: the membership test refuses every member. */
  function UpdatedStatusAsWritten(s: AppState<Role>, role: Role, newStatus: EventApplicationStatus, comment: string)
    : Result<AppState<Role>, ChainError>
  {
    if !InMembersAsWritten(newStatus) then Err(InvalidStatus)
    else UpdatedStatus(s, FinManager, role, newStatus.Value(), comment)
  }

  /** As written, `update_status` raises "Invalid status" for every member,
      while the intended test (the member's name among the keys) holds for
      every member. */
  lemma AsWrittenRefusesEveryStatus(s: AppState<Role>, role: Role, st: EventApplicationStatus, comment: string)
    ensures !InMembersAsWritten(st) && NameKey(st.Name()) in MemberKeys
    ensures UpdatedStatusAsWritten(s, role, st, comment) == Err(InvalidStatus)
    ensures UpdatedStatus(s, FinManager, role, st.Value(), comment).Ok?
  {
  }

  /** The forwarding review of a new application passes the role checks and
      the decision check, yet as written it raises in `update_status`, so
      the application can never be forwarded. */
  lemma ForwardingRaisesAsWritten()
    ensures OrderCheck(Created(CsWorker), FinManager, AdmManager, CsManager) == Pass
    ensures EventApplicationStatus.Forwarded.Value() in Decisions
    ensures UpdatedStatusAsWritten(Created(CsWorker), CsManager, Forwarded, "Forwarding to financial manager")
      == Err(InvalidStatus)
    ensures Reviewed(Created(CsWorker), FinManager, AdmManager, CsManager, EventApplicationStatus.Forwarded.Value(),
                     "Forwarding to financial manager").Ok?
  {
  }

  // ---------------------------------------------------------------------
  // The engine
  // ---------------------------------------------------------------------

  /** The one-line summary "[#id] client - type (EventApplicationStatus.NAME)". */
  function Summary(appId: int, clientName: string, eventType: string, status: EventApplicationStatus): string {
    "[#" + IntToString(appId) + "] " + clientName + " - " + eventType + " (" + status.Str() + ")"
  }

  class EventApplication {
    const appId: int
    const clientName: string
    const eventType: string
    const startDate: string
    const endDate: string
    const budget: int
    const preferences: string
    const createdBy: Role
    var status: EventApplicationStatus
    var history: seq<Record<Role>>
    var comment: string

    /** The part of the application that reviews read and write. */
    function State(): AppState<Role>
      reads this
    {
      AppState(status.Value(), comment, history)
    }

    /** `str(app)`, the status printed as `str(member)`. */
    function Describe(): string
      reads this
    {
      Summary(appId, clientName, eventType, status)
    }

    constructor (appId: int, clientName: string, eventType: string, startDate: string, endDate: string,
                 budget: int, preferences: string, createdBy: Role)
      ensures this.appId == appId && this.clientName == clientName && this.eventType == eventType
      ensures this.startDate == startDate && this.endDate == endDate && this.budget == budget
      ensures this.preferences == preferences && this.createdBy == createdBy
      ensures status == PendingReview && State() == Created(createdBy)
    {
      this.appId := appId;
      this.clientName := clientName;
      this.eventType := eventType;
      this.startDate := startDate;
      this.endDate := endDate;
      this.budget := budget;
      this.preferences := preferences;
      this.createdBy := createdBy;
      status := PendingReview;
      history := [Record(createdBy, "Created", "Initial submission")];
      comment := "";
    }

    /** Sets the status, stores a non-empty FinManager comment as the live
        comment and appends (role, value, comment). The membership test is
        modelled as intended: it holds of every member, so this never
        raises (see `AsWrittenRefusesEveryStatus`). */
    method UpdateStatus(userRole: Role, newStatus: EventApplicationStatus, comment: string := "")
      modifies this
      ensures status == newStatus
      ensures State() == UpdatedStatus(old(State()), FinManager, userRole, newStatus.Value(), comment).value
    {
      status := newStatus;
      if userRole == FinManager && comment != "" {
        this.comment := comment;
      }
      history := history + [Record(userRole, newStatus.Value(), comment)];
    }
  }

  class WorkflowSystem {
    var applications: seq<EventApplication>
    var nextId: int

    /** Ids are 1, 2, 3, ... in creation order, and `nextId` is the next one. */
    ghost predicate Valid()
      reads this
    {
      && nextId == |applications| + 1
      && forall i :: 0 <= i < |applications| ==> applications[i].appId == i + 1
    }

    constructor ()
      ensures Valid() && applications == [] && nextId == 1
    {
      applications := [];
      nextId := 1;
    }

    /** Creates an application under the next id and registers it; the
        creator defaults to the customer-service officer. */
    method CreateEventApplication(clientName: string, eventType: string, startDate: string, endDate: string,
                                  budget: int, preferences: string, createdBy: Role := CsWorker)
      returns (app: EventApplication)
      requires Valid()
      modifies this
      ensures Valid() && fresh(app)
      ensures applications == old(applications) + [app] && nextId == old(nextId) + 1
      ensures app.appId == old(nextId) && app.status == PendingReview && app.State() == Created(createdBy)
      ensures app.clientName == clientName && app.eventType == eventType && app.budget == budget
      ensures app.startDate == startDate && app.endDate == endDate && app.preferences == preferences
      ensures app.createdBy == createdBy
      ensures ListApplications() == old(ListApplications()) + [app.Describe()]
    {
      app := new EventApplication(nextId, clientName, eventType, startDate, endDate, budget, preferences, createdBy);
      applications := applications + [app];
      nextId := nextId + 1;
    }

    /** Linear search by id: the application with that id, or ValueError
        when there is none. */
    method GetApplicationById(appId: int) returns (r: Result<EventApplication, Error>)
      requires Valid()
      ensures r.Ok? <==> 1 <= appId <= |applications|
      ensures r.Ok? ==> r.value == applications[appId - 1] && r.value.appId == appId
      ensures r.Err? ==> r.error == ValueError("No application found with ID " + IntToString(appId))
    {
      for i := 0 to |applications|
        invariant appId < 1 || i < appId
      {
        if applications[i].appId == appId {
          return Ok(applications[i]);
        }
      }
      return Err(ValueError("No application found with ID " + IntToString(appId)));
    }

    /** Reviews the application with the given id: lookup, then the role
        order, then the decision (PendingReview is not one), then the update.
        Every refusal raises before anything changes; no other application
        changes. */
    method ReviewApplication(appId: int, role: Role, decision: EventApplicationStatus, comment: string)
      returns (r: Result<EventApplication, Error>)
      requires Valid()
      modifies applications
      ensures Valid()
      ensures !(1 <= appId <= |applications|) ==>
        r == Err(ValueError("No application found with ID " + IntToString(appId)))
      ensures 1 <= appId <= |applications| ==>
        var app := applications[appId - 1];
        var t := Reviewed(old(app.State()), FinManager, AdmManager, role, decision.Value(), comment);
        && app.State() == t.GetOr(old(app.State()))
        && (t.Ok? ==> app.status == decision)
        && r == (if t.Ok? then Ok(app) else Err(Render(t.error, decision.Str())))
      ensures forall i :: 0 <= i < |applications| && i != appId - 1 ==>
        applications[i].State() == old(applications[i].State())
    {
      var found := GetApplicationById(appId);
      if found.Err? {
        return Err(found.error);
      }
      var app := found.value;
      if role == FinManager {
        if app.status != Forwarded {
          return Err(ValueError("FM can only act after SCS has forwarded the application."));
        }
      } else if role == AdmManager {
        var lastRoles := Roles(app.history);
        if FinManager !in lastRoles {
          return Err(ValueError("AM cannot act before FM has reviewed the application."));
        }
      }
      if decision !in [Forwarded, Approved, Rejected] {
        return Err(ValueError("Invalid decision: " + decision.Str()));
      }
      app.UpdateStatus(role, decision, comment);
      if role == FinManager && comment != "" {
        app.comment := comment;
      }
      return Ok(app);
    }

    /** The summaries of all applications, in creation order: line `i`
        is the summary of the application with id `i + 1`. */
    function ListApplications(): (r: seq<string>)
      requires Valid()
      reads this, applications
      ensures |r| == |applications| == nextId - 1
      ensures forall i :: 0 <= i < |r| ==>
        r[i] == Summary(i + 1, applications[i].clientName, applications[i].eventType, applications[i].status)
    {
      seq(|applications|, i reads this, applications requires 0 <= i < |applications| => applications[i].Describe())
    }
  }

  /** A new application gets id 1, status PendingReview and a creation
      record by the customer-service officer. */
  method CreationScenario() returns (id: int, status: EventApplicationStatus, creator: Role)
    ensures id == 1 && status == PendingReview && creator == CsWorker
  {
    var system := new WorkflowSystem();
    var app := system.CreateEventApplication("TestCorp", "Workshop", "2025-12-01", "2025-12-02", 5000,
                                             "Jazz music and modern decoration");
    return app.appId, app.status, app.history[0].role;
  }

  /** The financial manager is refused before the application is
      forwarded; after the senior customer-service officer forwards it, the
      financial manager approves with "Budget OK", which becomes the live
      comment. */
  method FinancialReviewScenario() returns (early: Outcome<Error>, status: EventApplicationStatus, comment: string)
    ensures early == Fail(ValueError("FM can only act after SCS has forwarded the application."))
    ensures status == Approved && comment == "Budget OK"
  {
    var system := new WorkflowSystem();
    var app := system.CreateEventApplication("TestCorp", "Workshop", "2025-12-01", "2025-12-02", 5000,
                                             "Jazz music and modern decoration");
    var r := system.ReviewApplication(app.appId, FinManager, Approved, "Looks good");
    early := r.ToOutcome();
    r := system.ReviewApplication(app.appId, CsManager, Forwarded, "Ready for FM review");
    r := system.ReviewApplication(app.appId, FinManager, Approved, "Budget OK");
    return early, app.status, app.comment;
  }

  /** After forwarding, the administration manager is refused while the
      financial manager has not acted. */
  method AdministrationBeforeFinanceScenario() returns (refused: Outcome<Error>, status: EventApplicationStatus)
    ensures refused == Fail(ValueError("AM cannot act before FM has reviewed the application."))
    ensures status == Forwarded
  {
    var system := new WorkflowSystem();
    var app := system.CreateEventApplication("TestCorp", "Workshop", "2025-12-01", "2025-12-02", 5000,
                                             "Jazz music and modern decoration");
    var r := system.ReviewApplication(app.appId, CsManager, Forwarded, "Forward to FM");
    assert FinManager !in Roles(app.history);
    r := system.ReviewApplication(app.appId, AdmManager, Approved, "All good");
    return r.ToOutcome(), app.status;
  }

  /** The listing shows the applications in creation order, each status
      printed as its enum member. */
  method ListingScenario() returns (listing: seq<string>)
    ensures listing == [Summary(1, "XCorp", "Seminar", PendingReview), Summary(2, "Client1", "TypeA", PendingReview)]
  {
    var system := new WorkflowSystem();
    var a1 := system.CreateEventApplication("XCorp", "Seminar", "2025-11-01", "2025-11-03", 3000, "None");
    var a2 := system.CreateEventApplication("Client1", "TypeA", "2025-11-01", "2025-11-02", 2000, "Decor");
    listing := system.ListApplications();
  }
}
