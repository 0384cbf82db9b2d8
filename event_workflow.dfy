/** The string-based event-application engine (event_workflow/workflow).

    Roles and statuses are plain strings; the approval chain's rules are
    those of `ChainSpec` with "FM" as the budget-approval role and "AM" as
    the final-approval role. Dates are kept as the strings the front end
    passes in, and the budget as an integer. */
module EventWorkflow {
  import opened Errors
  import opened ChainSpec

  const FM := "FM"
  const AM := "AM"

  /** The ValueError each refusal raises; `text` is the rejected decision or
      status, quoted in the message. */
  function Render(e: ChainError, text: string): Error {
    match e
    case FmBeforeForward => ValueError("FM can only act after SCS has forwarded the application.")
    case AmBeforeFm => ValueError("AM cannot act before FM has reviewed the application.")
    case InvalidDecision => ValueError("Invalid decision: " + text)
    case InvalidStatus => ValueError("Invalid status: " + text)
  }

  /** The one-line summary "[#id] client - type (status)". */
  function Summary(appId: int, clientName: string, eventType: string, status: string): string {
    "[#" + IntToString(appId) + "] " + clientName + " - " + eventType + " (" + status + ")"
  }

  class EventApplication {
    const appId: int
    const clientName: string
    const eventType: string
    const startDate: string
    const endDate: string
    const budget: int
    const preferences: string
    const createdBy: string
    var status: string
    var history: seq<Record<string>>
    var comment: string

    /** The part of the application that reviews read and write. */
    function State(): AppState<string>
      reads this
    {
      AppState(status, comment, history)
    }

    /** `str(app)`. */
    function Describe(): string
      reads this
    {
      Summary(appId, clientName, eventType, status)
    }

    constructor (appId: int, clientName: string, eventType: string, startDate: string, endDate: string,
                 budget: int, preferences: string, createdBy: string)
      ensures this.appId == appId && this.clientName == clientName && this.eventType == eventType
      ensures this.startDate == startDate && this.endDate == endDate && this.budget == budget
      ensures this.preferences == preferences && this.createdBy == createdBy
      ensures State() == Created(createdBy)
    {
      this.appId := appId;
      this.clientName := clientName;
      this.eventType := eventType;
      this.startDate := startDate;
      this.endDate := endDate;
      this.budget := budget;
      this.preferences := preferences;
      this.createdBy := createdBy;
      status := PendingReview;
      history := [Record(createdBy, "Created", "Initial submission")];
      comment := "";
    }

    /** Sets the status, stores a non-empty FM comment as the live comment
        and appends one record; a status outside the four valid ones raises
        ValueError and changes nothing. */
    method UpdateStatus(userRole: string, newStatus: string, comment: string := "") returns (out: Outcome<Error>)
      modifies this
      ensures var r := UpdatedStatus(old(State()), FM, userRole, newStatus, comment);
        && State() == r.GetOr(old(State()))
        && out == (if r.Ok? then Pass else Fail(Render(r.error, newStatus)))
    {
      if newStatus !in ValidStatuses {
        return Fail(ValueError("Invalid status: " + newStatus));
      }
      status := newStatus;
      if userRole == FM && comment != "" {
        this.comment := comment;
      }
      history := history + [Record(userRole, newStatus, comment)];
      return Pass;
    }
  }

  class WorkflowSystem {
    var applications: seq<EventApplication>
    var nextId: int

    /** Ids are 1, 2, 3, ... in creation order, and `nextId` is the next one. */
    ghost predicate Valid()
      reads this
    {
      && nextId == |applications| + 1
      && forall i :: 0 <= i < |applications| ==> applications[i].appId == i + 1
    }

    constructor ()
      ensures Valid() && applications == [] && nextId == 1
    {
      applications := [];
      nextId := 1;
    }

    /** Creates an application under the next id and registers it. */
    method CreateEventApplication(clientName: string, eventType: string, startDate: string, endDate: string,
                                  budget: int, preferences: string, createdBy: string := "CustomerService")
      returns (app: EventApplication)
      requires Valid()
      modifies this
      ensures Valid() && fresh(app)
      ensures applications == old(applications) + [app] && nextId == old(nextId) + 1
      ensures app.appId == old(nextId) && app.State() == Created(createdBy)
      ensures app.clientName == clientName && app.eventType == eventType && app.budget == budget
      ensures app.startDate == startDate && app.endDate == endDate && app.preferences == preferences
      ensures app.createdBy == createdBy
      ensures ListApplications() == old(ListApplications()) + [app.Describe()]
    {
      app := new EventApplication(nextId, clientName, eventType, startDate, endDate, budget, preferences, createdBy);
      applications := applications + [app];
      nextId := nextId + 1;
    }

    /** Linear search by id: the application with that id, or ValueError
        when there is none. */
    method GetApplicationById(appId: int) returns (r: Result<EventApplication, Error>)
      requires Valid()
      ensures r.Ok? <==> 1 <= appId <= |applications|
      ensures r.Ok? ==> r.value == applications[appId - 1] && r.value.appId == appId
      ensures r.Err? ==> r.error == ValueError("No application found with ID " + IntToString(appId))
    {
      for i := 0 to |applications|
        invariant appId < 1 || i < appId
      {
        if applications[i].appId == appId {
          return Ok(applications[i]);
        }
      }
      return Err(ValueError("No application found with ID " + IntToString(appId)));
    }

    /** Reviews the application with the given id: lookup, then the role
        order, then the decision, then the update. Every refusal raises
        before anything changes; no other application changes. */
    method ReviewApplication(appId: int, role: string, decision: string, comment: string)
      returns (r: Result<EventApplication, Error>)
      requires Valid()
      modifies applications
      ensures Valid()
      ensures !(1 <= appId <= |applications|) ==>
        r == Err(ValueError("No application found with ID " + IntToString(appId)))
      ensures 1 <= appId <= |applications| ==>
        var app := applications[appId - 1];
        var t := Reviewed(old(app.State()), FM, AM, role, decision, comment);
        && app.State() == t.GetOr(old(app.State()))
        && r == (if t.Ok? then Ok(app) else Err(Render(t.error, decision)))
      ensures forall i :: 0 <= i < |applications| && i != appId - 1 ==>
        applications[i].State() == old(applications[i].State())
    {
      var found := GetApplicationById(appId);
      if found.Err? {
        return Err(found.error);
      }
      var app := found.value;
      if role == FM {
        if app.status != Forwarded {
          return Err(ValueError("FM can only act after SCS has forwarded the application."));
        }
      } else if role == AM {
        var lastRoles := Roles(app.history);
        if FM !in lastRoles {
          return Err(ValueError("AM cannot act before FM has reviewed the application."));
        }
      }
      if decision !in Decisions {
        return Err(ValueError("Invalid decision: " + decision));
      }
      var _ := app.UpdateStatus(role, decision, comment);
      if role == FM && comment != "" {
        app.comment := comment;
      }
      return Ok(app);
    }

    /** The summaries of all applications, in creation order: line `i`
        is the summary of the application with id `i + 1`. */
    function ListApplications(): (r: seq<string>)
      requires Valid()
      reads this, applications
      ensures |r| == |applications| == nextId - 1
      ensures forall i :: 0 <= i < |r| ==>
        r[i] == Summary(i + 1, applications[i].clientName, applications[i].eventType, applications[i].status)
    {
      seq(|applications|, i reads this, applications requires 0 <= i < |applications| => applications[i].Describe())
    }
  }

  /** The final-approval role is refused on a new application, before the
      budget-approval role has acted, and the refused call writes nothing. */
  method EarlyFinalApprovalScenario() returns (early: Outcome<Error>, records: nat)
    ensures early == Fail(ValueError("AM cannot act before FM has reviewed the application."))
    ensures records == 1
  {
    var system := new WorkflowSystem();
    var app := system.CreateEventApplication("ClientA", "Conference", "2025-11-10", "2025-11-12", 8000, "Decor");
    assert FM !in Roles(app.history);
    var r := system.ReviewApplication(app.appId, AM, Approved, "Looks fine");
    return r.ToOutcome(), |app.history|;
  }

  /** The chain in order: SCS forwards, FM forwards with "Budget OK", AM
      approves. The application ends Approved with FM's comment as its live
      comment and four records. */
  method ApprovalChainScenario() returns (status: string, comment: string, records: nat)
    ensures status == Approved && comment == "Budget OK" && records == 4
  {
    var system := new WorkflowSystem();
    var app := system.CreateEventApplication("ClientA", "Conference", "2025-11-10", "2025-11-12", 8000, "Decor");
    ghost var s0 := Created("CustomerService");
    ghost var s1 := AppState(Forwarded, "", s0.history + [Record("SCS", Forwarded, "Sent to FM")]);
    assert Reviewed(s0, FM, AM, "SCS", Forwarded, "Sent to FM") == Ok(s1);
    ghost var s2 := AppState(Forwarded, "Budget OK", s1.history + [Record(FM, Forwarded, "Budget OK")]);
    assert Reviewed(s1, FM, AM, FM, Forwarded, "Budget OK") == Ok(s2);
    assert Roles(s2.history)[2] == FM;
    ghost var s3 := AppState(Approved, "Budget OK", s2.history + [Record(AM, Approved, "All good")]);
    assert Reviewed(s2, FM, AM, AM, Approved, "All good") == Ok(s3);

    var r := system.ReviewApplication(app.appId, "SCS", Forwarded, "Sent to FM");
    assert app.State() == s1;
    r := system.ReviewApplication(app.appId, FM, Forwarded, "Budget OK");
    assert app.State() == s2;
    r := system.ReviewApplication(app.appId, AM, Approved, "All good");
    assert app.State() == s3;
    return app.status, app.comment, |app.history|;
  }

  /** Ids are handed out 1, 2, 3 in creation order, and a lookup finds
      the application by its id. */
  method LookupScenario() returns (ids: seq<int>, found: bool)
    ensures ids == [1, 2, 3] && found
  {
    var system := new WorkflowSystem();
    var a1 := system.CreateEventApplication("XCorp", "Seminar", "2025-11-01", "2025-11-03", 3000, "None");
    var a2 := system.CreateEventApplication("Client1", "TypeA", "2025-11-01", "2025-11-02", 2000, "Decor");
    var a3 := system.CreateEventApplication("Client2", "TypeB", "2025-11-03", "2025-11-04", 4000, "Food");
    var r := system.GetApplicationById(a3.appId);
    found := r == Ok(a3);
    ids := [a1.appId, a2.appId, a3.appId];
  }

  /** An unknown id raises ValueError naming it. */
  method MissingIdScenario() returns (missing: Result<EventApplication, Error>)
    ensures missing == Err(ValueError("No application found with ID 999"))
  {
    var system := new WorkflowSystem();
    var _ := system.CreateEventApplication("XCorp", "Seminar", "2025-11-01", "2025-11-03", 3000, "None");
    missing := system.GetApplicationById(999);
    assert IntToString(999) == "999" by {
      assert NatToString(9) == "9";
      assert NatToString(99) == NatToString(9) + [Digit(9)] == "99";
      assert NatToString(999) == NatToString(99) + [Digit(9)] == "999";
    }
    assert "No application found with ID " + "999" == "No application found with ID 999";
  }

  /** The listing shows the applications in creation order, each with its
      id, client, type and status. */
  method ListingScenario() returns (listing: seq<string>)
    ensures listing == [Summary(1, "XCorp", "Seminar", PendingReview), Summary(2, "Client1", "TypeA", PendingReview)]
  {
    var system := new WorkflowSystem();
    var a1 := system.CreateEventApplication("XCorp", "Seminar", "2025-11-01", "2025-11-03", 3000, "None");
    var a2 := system.CreateEventApplication("Client1", "TypeA", "2025-11-01", "2025-11-02", 2000, "Decor");
    listing := system.ListApplications();
  }
}
