/** Task distribution between a department's manager and its workers
    (src/app/task_distribution.py).

    A manager creates tasks in their own department and assigns them to
    workers of that department, linking task and worker both ways; the
    manager changes a task's status and reads its comments and budget
    requests; an assigned worker comments on the task and asks for more
    budget. Timestamps are left out of the comment and budget-request
    records, and amounts are integers. */
module TaskDistribution {
  import opened Errors
  import opened Models
  import opened SeqUtil

  datatype Department = Production | Services {
    function Value(): string {
      match this
      case Production => "Production"
      case Services => "Services"
    }

    /** `str(member)`, as the assignment error message prints it. */
    function Str(): string {
      match this
      case Production => "Department.PRODUCTION"
      case Services => "Department.SERVICES"
    }
  }

  datatype TaskStatus = Open | InProgress | Closed

  datatype Comment = Comment(worker: string, comment: string)

  datatype BudgetRequest = BudgetRequest(worker: string, amount: int, reason: string)

  const NotAssignedMessage := "You are not assigned to this task."
  const AssignOutsideMessage := "Cannot assign tasks outside your department."
  const ReviewOutsideMessage := "Cannot review tasks outside your department."
  const SameStatusMessage := "Cannot update task to same status."

  /** The ValueError for a worker from another department. */
  function OutsiderMessage(name: string, department: Department): string {
    name + " is not in " + department.Str() + " department."
  }

  class Task {
    const eventId: int
    const title: string
    const description: string
    const department: Department
    var assignedWorkers: seq<Worker>
    var status: TaskStatus
    var comments: seq<Comment>
    var budgetRequests: seq<BudgetRequest>

    constructor (eventId: int, title: string, description: string, department: Department)
      ensures this.eventId == eventId && this.title == title && this.description == description
      ensures this.department == department && status == Open
      ensures assignedWorkers == [] && comments == [] && budgetRequests == []
    {
      this.eventId := eventId;
      this.title := title;
      this.description := description;
      this.department := department;
      assignedWorkers := [];
      status := Open;
      comments := [];
      budgetRequests := [];
    }

    method AddComment(workerName: string, comment: string)
      modifies this`comments
      ensures comments == old(comments) + [Comment(workerName, comment)]
    {
      comments := comments + [Comment(workerName, comment)];
    }

    method AddBudgetRequest(workerName: string, amount: int, reason: string)
      modifies this`budgetRequests
      ensures budgetRequests == old(budgetRequests) + [BudgetRequest(workerName, amount, reason)]
    {
      budgetRequests := budgetRequests + [BudgetRequest(workerName, amount, reason)];
    }
  }

  class Worker {
    const name: string
    const role: Role
    const department: Department
    const duty: string
    var tasks: seq<Task>

    constructor (name: string, department: Department, duty: string)
      ensures this.name == name && role == Role.Worker && this.department == department && this.duty == duty
      ensures tasks == []
    {
      this.name := name;
      role := Role.Worker;
      this.department := department;
      this.duty := duty;
      tasks := [];
    }

    /** The tasks assigned to this worker, in assignment order. */
    function ViewTasks(): seq<Task>
      reads this
    {
      tasks
    }

    /** Appends one comment under this worker's name to a task the worker
        is assigned to; any other task raises PermissionError. */
    method CommentOnTask(task: Task, comment: string) returns (out: Outcome<Error>)
      modifies task`comments
      ensures out == (if task in tasks then Pass else Fail(PermissionError(NotAssignedMessage)))
      ensures task.comments == old(task.comments) + (if task in tasks then [Comment(name, comment)] else [])
    {
      if task !in tasks {
        return Fail(PermissionError(NotAssignedMessage));
      }
      task.AddComment(name, comment);
      return Pass;
    }

    /** Appends one budget request under this worker's name to a task the
        worker is assigned to; any other task raises PermissionError. */
    method RequestMoreBudget(task: Task, amount: int, reason: string) returns (out: Outcome<Error>)
      modifies task`budgetRequests
      ensures out == (if task in tasks then Pass else Fail(PermissionError(NotAssignedMessage)))
      ensures task.budgetRequests ==
        old(task.budgetRequests) + (if task in tasks then [BudgetRequest(name, amount, reason)] else [])
    {
      if task !in tasks {
        return Fail(PermissionError(NotAssignedMessage));
      }
      task.AddBudgetRequest(name, amount, reason);
      return Pass;
    }
  }

  /** The department of a worker, as the assignment loop tests it. */
  function DepartmentOf(w: Worker): Department {
    w.department
  }

  class Manager {
    const name: string
    const role: Role
    const department: Department
    var tasks: seq<Task>

    constructor (name: string, department: Department)
      ensures this.name == name && role == Role.Manager && this.department == department && tasks == []
    {
      this.name := name;
      role := Role.Manager;
      this.department := department;
      tasks := [];
    }

    /** The tasks this manager created, in creation order. */
    function ViewTasks(): seq<Task>
      reads this
    {
      tasks
    }

    /** A new Open task in the manager's department, with no workers,
        comments or budget requests, appended to the manager's tasks. */
    method CreateTask(eventId: int, title: string, description: string) returns (task: Task)
      modifies this`tasks
      ensures fresh(task) && tasks == old(tasks) + [task]
      ensures task.eventId == eventId && task.title == title && task.description == description
      ensures task.department == department && task.status == Open
      ensures task.assignedWorkers == [] && task.comments == [] && task.budgetRequests == []
    {
      task := new Task(eventId, title, description, department);
      tasks := tasks + [task];
    }

    /** Links the task and each worker both ways, in order. A task of
        another department raises PermissionError before anything changes;
        a worker of another department raises ValueError, and the workers
        before it stay linked. A worker listed twice is linked twice, and
        for every given worker the task lists the worker as often as the
        worker lists the task, if that held before. */
    method AssignTask(task: Task, workers: seq<Worker>) returns (out: Outcome<Error>)
      modifies task`assignedWorkers, workers
      ensures task.department != department ==>
        && out == Fail(PermissionError(AssignOutsideMessage))
        && task.assignedWorkers == old(task.assignedWorkers)
        && forall w :: w in workers ==> w.tasks == old(w.tasks)
      ensures task.department == department ==>
        var k := FirstMismatch(workers, DepartmentOf, department);
        && out == (if k == |workers| then Pass else Fail(ValueError(OutsiderMessage(workers[k].name, department))))
        && task.assignedWorkers == old(task.assignedWorkers) + workers[..k]
        && forall w :: w in workers ==> w.tasks == old(w.tasks) + Repeat(task, multiset(workers[..k])[w])
      ensures forall w :: w in workers && multiset(old(task.assignedWorkers))[w] == multiset(old(w.tasks))[task] ==>
        multiset(task.assignedWorkers)[w] == multiset(w.tasks)[task]
      ensures out == Pass ==> forall w :: w in workers ==> w in task.assignedWorkers && task in w.tasks
    {
      if task.department != department {
        return Fail(PermissionError(AssignOutsideMessage));
      }
      out := Pass;
      var i := 0;
      while i < |workers|
        invariant 0 <= i <= |workers|
        invariant forall j :: 0 <= j < i ==> workers[j].department == department
        invariant task.assignedWorkers == old(task.assignedWorkers) + workers[..i]
        invariant forall w :: w in workers ==> w.tasks == old(w.tasks) + Repeat(task, multiset(workers[..i])[w])
      {
        var worker := workers[i];
        if worker.department != department {
          out := Fail(ValueError(OutsiderMessage(worker.name, department)));
          break;
        }
        task.assignedWorkers := task.assignedWorkers + [worker];
        worker.tasks := worker.tasks + [task];
        assert workers[..i + 1] == workers[..i] + [worker];
        i := i + 1;
      }
      assert i == |workers| ==> workers[..i] == workers;
      forall w | w in workers && multiset(old(task.assignedWorkers))[w] == multiset(old(w.tasks))[task]
        ensures multiset(task.assignedWorkers)[w] == multiset(w.tasks)[task]
      {
        LinksAgree(old(task.assignedWorkers), workers[..i], w, old(w.tasks), task);
      }
      if out == Pass {
        forall w | w in workers
          ensures w in task.assignedWorkers && task in w.tasks
        {
          ListedMeansLinked(workers, w, task, old(task.assignedWorkers), old(w.tasks));
        }
      }
    }

    /** Sets any status other than the current one; a task of another
        department raises PermissionError, the current status ValueError. */
    method ChangeTaskStatus(task: Task, newStatus: TaskStatus) returns (out: Outcome<Error>)
      modifies task`status
      ensures out == (if task.department != department then Fail(PermissionError(ReviewOutsideMessage))
                      else if newStatus == old(task.status) then Fail(ValueError(SameStatusMessage))
                      else Pass)
      ensures task.status == (if out == Pass then newStatus else old(task.status))
    {
      if task.department != department {
        return Fail(PermissionError(ReviewOutsideMessage));
      }
      if newStatus == task.status {
        return Fail(ValueError(SameStatusMessage));
      }
      task.status := newStatus;
      return Pass;
    }

    /** The task's comments, for a task of the manager's department. */
    function ReviewFeedback(task: Task): (r: Result<seq<Comment>, Error>)
      reads task
      ensures r.Ok? <==> task.department == department
      ensures r.Ok? ==> r.value == task.comments
      ensures r.Err? ==> r.error == PermissionError(ReviewOutsideMessage)
    {
      if task.department != department then Err(PermissionError(ReviewOutsideMessage))
      else Ok(task.comments)
    }

    /** The task's budget requests, for a task of the manager's department. */
    function ReviewBudgetRequests(task: Task): (r: Result<seq<BudgetRequest>, Error>)
      reads task
      ensures r.Ok? <==> task.department == department
      ensures r.Ok? ==> r.value == task.budgetRequests
      ensures r.Err? ==> r.error == PermissionError(ReviewOutsideMessage)
    {
      if task.department != department then Err(PermissionError(ReviewOutsideMessage))
      else Ok(task.budgetRequests)
    }
  }

  /** A created task is in the manager's list, in the manager's
      department and Open; a new worker has no tasks. */
  method CreateTaskScenario() returns (listed: bool, department: Department, status: TaskStatus, workerTasks: nat)
    ensures listed && department == Production && status == Open && workerTasks == 0
  {
    var manager := new Manager("Jack", Production);
    var task := manager.CreateTask(1, "Prepare Stage", "Set up stage lightning and decorations.");
    var worker := new Worker("Parache", Production, "IT Specialist");
    return task in manager.tasks, task.department, task.status, |worker.tasks|;
  }

  /** Assigning three workers of the department links each of them with
      the task both ways. */
  method AssignScenario() returns (out: Outcome<Error>, linked: bool)
    ensures out == Pass && linked
  {
    var manager := new Manager("Jack", Production);
    var w1 := new Worker("Tobias", Production, "Photographer");
    var w2 := new Worker("Antony", Production, "Audio Specialist");
    var w3 := new Worker("Adam", Production, "Audio Specialist");
    var task := manager.CreateTask(1, "Prepare Stage", "Set up stage lightning and decorations.");
    out := manager.AssignTask(task, [w1, w2, w3]);
    linked := w1 in task.assignedWorkers && task in w1.tasks && w2 in task.assignedWorkers && task in w2.tasks
      && w3 in task.assignedWorkers && task in w3.tasks;
  }

  /** An outsider in the list raises ValueError; the worker before it stays
      linked and the one after it is never reached. */
  method OutsiderScenario() returns (out: Outcome<Error>, before: nat, after: nat)
    ensures out == Fail(ValueError(OutsiderMessage("Helen", Production)))
    ensures before == 1 && after == 0
  {
    var manager := new Manager("Jack", Production);
    var w1 := new Worker("Tobias", Production, "Photographer");
    var outsider := new Worker("Helen", Services, "Top Chef");
    var w3 := new Worker("Adam", Production, "Audio Specialist");
    var task := manager.CreateTask(1, "Prepare Stage", "Set up stage lightning and decorations.");
    var workers := [w1, outsider, w3];
    assert FirstMismatch(workers, DepartmentOf, Production) == 1;
    assert workers[..1] == [w1];
    out := manager.AssignTask(task, workers);
    return out, |w1.tasks|, |w3.tasks|;
  }

  /** Open -> InProgress -> Closed is accepted; setting the current status
      again raises ValueError. */
  method StatusScenario() returns (first: TaskStatus, second: TaskStatus, same: Outcome<Error>)
    ensures first == InProgress && second == Closed
    ensures same == Fail(ValueError(SameStatusMessage))
  {
    var manager := new Manager("Jack", Production);
    var task := manager.CreateTask(1, "Prepare Stage", "Set up stage lightning and decorations.");
    var _ := manager.ChangeTaskStatus(task, InProgress);
    first := task.status;
    var _ := manager.ChangeTaskStatus(task, Closed);
    second := task.status;
    same := manager.ChangeTaskStatus(task, Closed);
  }

  /** An assigned worker's comment is recorded under the worker's name,
      and it is what the manager reviews. */
  method FeedbackScenario() returns (feedback: Result<seq<Comment>, Error>)
    ensures feedback == Ok([Comment("Tobias", "We'll use neon lights.")])
  {
    var manager := new Manager("Jack", Production);
    var w1 := new Worker("Tobias", Production, "Photographer");
    var task := manager.CreateTask(1, "Prepare Stage", "Set up stage lightning and decorations.");
    assert FirstMismatch([w1], DepartmentOf, Production) == 1;
    var _ := manager.AssignTask(task, [w1]);
    assert task in w1.tasks;
    assert task.comments == [];
    var _ := w1.CommentOnTask(task, "We'll use neon lights.");
    assert task.comments == [Comment("Tobias", "We'll use neon lights.")];
    assert task.department == manager.department;
    feedback := manager.ReviewFeedback(task);
  }

  /** An assigned worker's budget request is recorded under the worker's
      name, and it is what the manager reviews. */
  method BudgetRequestScenario() returns (budget: Result<seq<BudgetRequest>, Error>)
    ensures budget == Ok([BudgetRequest("Tobias", 25000, "We'll have to rent a roof and lightning grid.")])
  {
    var manager := new Manager("Jack", Production);
    var w1 := new Worker("Tobias", Production, "Photographer");
    var task := manager.CreateTask(1, "Prepare Stage", "Set up stage lightning and decorations.");
    assert FirstMismatch([w1], DepartmentOf, Production) == 1;
    var _ := manager.AssignTask(task, [w1]);
    assert task in w1.tasks;
    assert task.budgetRequests == [];
    var _ := w1.RequestMoreBudget(task, 25000, "We'll have to rent a roof and lightning grid.");
    assert task.budgetRequests == [BudgetRequest("Tobias", 25000, "We'll have to rent a roof and lightning grid.")];
    assert task.department == manager.department;
    budget := manager.ReviewBudgetRequests(task);
  }

  /** A worker not assigned to the task may neither comment nor ask for
      budget, and the task records nothing. */
  method UnassignedWorkerScenario() returns (comment: Outcome<Error>, budget: Outcome<Error>, records: nat)
    ensures comment == Fail(PermissionError(NotAssignedMessage))
    ensures budget == Fail(PermissionError(NotAssignedMessage))
    ensures records == 0
  {
    var manager := new Manager("Jack", Production);
    var w1 := new Worker("Tobias", Production, "Photographer");
    var w2 := new Worker("Antony", Production, "Audio Specialist");
    var task := manager.CreateTask(1, "Prepare Stage", "Set up stage lightning and decorations.");
    var _ := manager.AssignTask(task, [w1]);
    comment := w2.CommentOnTask(task, "We'll use neon lights.");
    budget := w2.RequestMoreBudget(task, 25000, "We'll have to rent a roof and lightning grid.");
    records := |task.comments| + |task.budgetRequests|;
  }
}
