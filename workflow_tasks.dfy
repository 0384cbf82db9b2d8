/** Task distribution with string departments (src/workflow/task_distribution.py).

    A reduced form of `TaskDistribution`: tasks carry comments but no
    budget requests, the status is the string "Open" and is never changed,
    and departments are plain strings. */
module WorkflowTasks {
  import opened Errors
  import opened SeqUtil

  datatype Comment = Comment(worker: string, comment: string)

  const NotAssignedMessage := "You are not assigned to this task."
  const AssignOutsideMessage := "Cannot assign tasks outside your department."
  const ReviewOutsideMessage := "Cannot review tasks outside your department."

  /** The ValueError for a worker from another department. */
  function OutsiderMessage(name: string, department: string): string {
    name + " is not in " + department + " department."
  }

  class Task {
    const title: string
    const description: string
    const department: string
    var assignedWorkers: seq<Worker>
    var status: string
    var comments: seq<Comment>

    constructor (title: string, description: string, department: string)
      ensures this.title == title && this.description == description && this.department == department
      ensures status == "Open" && assignedWorkers == [] && comments == []
    {
      this.title := title;
      this.description := description;
      this.department := department;
      assignedWorkers := [];
      status := "Open";
      comments := [];
    }

    method AddComment(workerName: string, comment: string)
      modifies this`comments
      ensures comments == old(comments) + [Comment(workerName, comment)]
    {
      comments := comments + [Comment(workerName, comment)];
    }
  }

  class Worker {
    const name: string
    const department: string
    const duty: string
    var tasks: seq<Task>

    constructor (name: string, department: string, duty: string)
      ensures this.name == name && this.department == department && this.duty == duty && tasks == []
    {
      this.name := name;
      this.department := department;
      this.duty := duty;
      tasks := [];
    }

    /** The tasks assigned to this worker, in assignment order. */
    function ViewTasks(): seq<Task>
      reads this
    {
      tasks
    }

    /** Appends one comment under this worker's name to a task the worker
        is assigned to; any other task raises PermissionError. */
    method CommentOnTask(task: Task, comment: string) returns (out: Outcome<Error>)
      modifies task`comments
      ensures out == (if task in tasks then Pass else Fail(PermissionError(NotAssignedMessage)))
      ensures task.comments == old(task.comments) + (if task in tasks then [Comment(name, comment)] else [])
    {
      if task !in tasks {
        return Fail(PermissionError(NotAssignedMessage));
      }
      task.AddComment(name, comment);
      return Pass;
    }
  }

  /** The department of a worker, as the assignment loop tests it. */
  function DepartmentOf(w: Worker): string {
    w.department
  }

  class Manager {
    const name: string
    const department: string
    var tasks: seq<Task>

    constructor (name: string, department: string)
      ensures this.name == name && this.department == department && tasks == []
    {
      this.name := name;
      this.department := department;
      tasks := [];
    }

    /** The tasks this manager created, in creation order. */
    function ViewTasks(): seq<Task>
      reads this
    {
      tasks
    }

    /** A new Open task in the manager's department, with no workers or
        comments, appended to the manager's tasks. */
    method CreateTask(title: string, description: string) returns (task: Task)
      modifies this`tasks
      ensures fresh(task) && tasks == old(tasks) + [task]
      ensures task.title == title && task.description == description
      ensures task.department == department && task.status == "Open"
      ensures task.assignedWorkers == [] && task.comments == []
    {
      task := new Task(title, description, department);
      tasks := tasks + [task];
    }

    /** Links the task and each worker both ways, in order. A task of
        another department raises PermissionError before anything changes;
        a worker of another department raises ValueError, and the workers
        before it stay linked. For every given worker the task lists the
        worker as often as the worker lists the task, if that held before. */
    method AssignTask(task: Task, workers: seq<Worker>) returns (out: Outcome<Error>)
      modifies task`assignedWorkers, workers
      ensures task.department != department ==>
        && out == Fail(PermissionError(AssignOutsideMessage))
        && task.assignedWorkers == old(task.assignedWorkers)
        && forall w :: w in workers ==> w.tasks == old(w.tasks)
      ensures task.department == department ==>
        var k := FirstMismatch(workers, DepartmentOf, department);
        && out == (if k == |workers| then Pass else Fail(ValueError(OutsiderMessage(workers[k].name, department))))
        && task.assignedWorkers == old(task.assignedWorkers) + workers[..k]
        && forall w :: w in workers ==> w.tasks == old(w.tasks) + Repeat(task, multiset(workers[..k])[w])
      ensures forall w :: w in workers && multiset(old(task.assignedWorkers))[w] == multiset(old(w.tasks))[task] ==>
        multiset(task.assignedWorkers)[w] == multiset(w.tasks)[task]
      ensures out == Pass ==> forall w :: w in workers ==> w in task.assignedWorkers && task in w.tasks
    {
      if task.department != department {
        return Fail(PermissionError(AssignOutsideMessage));
      }
      out := Pass;
      var i := 0;
      while i < |workers|
        invariant 0 <= i <= |workers|
        invariant forall j :: 0 <= j < i ==> workers[j].department == department
        invariant task.assignedWorkers == old(task.assignedWorkers) + workers[..i]
        invariant forall w :: w in workers ==> w.tasks == old(w.tasks) + Repeat(task, multiset(workers[..i])[w])
      {
        var worker := workers[i];
        if worker.department != department {
          out := Fail(ValueError(OutsiderMessage(worker.name, department)));
          break;
        }
        task.assignedWorkers := task.assignedWorkers + [worker];
        worker.tasks := worker.tasks + [task];
        assert workers[..i + 1] == workers[..i] + [worker];
        i := i + 1;
      }
      assert i == |workers| ==> workers[..i] == workers;
      forall w | w in workers && multiset(old(task.assignedWorkers))[w] == multiset(old(w.tasks))[task]
        ensures multiset(task.assignedWorkers)[w] == multiset(w.tasks)[task]
      {
        LinksAgree(old(task.assignedWorkers), workers[..i], w, old(w.tasks), task);
      }
      if out == Pass {
        forall w | w in workers
          ensures w in task.assignedWorkers && task in w.tasks
        {
          ListedMeansLinked(workers, w, task, old(task.assignedWorkers), old(w.tasks));
        }
      }
    }

    /** The task's comments, for a task of the manager's department. */
    function ReviewFeedback(task: Task): (r: Result<seq<Comment>, Error>)
      reads task
      ensures r.Ok? <==> task.department == department
      ensures r.Ok? ==> r.value == task.comments
      ensures r.Err? ==> r.error == PermissionError(ReviewOutsideMessage)
    {
      if task.department != department then Err(PermissionError(ReviewOutsideMessage))
      else Ok(task.comments)
    }
  }

  /** An assigned worker's comment is what the manager reviews; a worker
      of another department cannot be assigned. */
  method CommentScenario() returns (feedback: Result<seq<Comment>, Error>, outsider: Outcome<Error>)
    ensures feedback == Ok([Comment("Tobias", "We'll use neon lights.")])
    ensures outsider == Fail(ValueError(OutsiderMessage("Helen", "Production")))
  {
    var manager := new Manager("Jack", "Production");
    var w1 := new Worker("Tobias", "Production", "Photographer");
    var helen := new Worker("Helen", "Services", "Top Chef");
    var task := manager.CreateTask("Prepare Stage", "Set up stage lightning and decorations.");
    assert FirstMismatch([w1], DepartmentOf, "Production") == 1;
    var _ := manager.AssignTask(task, [w1]);
    assert task in w1.tasks && task.comments == [];
    var _ := w1.CommentOnTask(task, "We'll use neon lights.");
    assert task.comments == [Comment("Tobias", "We'll use neon lights.")];
    feedback := manager.ReviewFeedback(task);
    assert FirstMismatch([helen], DepartmentOf, "Production") == 0;
    outsider := manager.AssignTask(task, [helen]);
  }
}
