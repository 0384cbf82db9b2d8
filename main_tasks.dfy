/** The first task-distribution script (main.py, without `main`).

    Tasks, workers and managers with string departments; a task has no
    comments, and assignment links tasks and workers both ways. */
module MainTasks {
  import opened Errors
  import opened SeqUtil

  const AssignOutsideMessage := "Cannot assign tasks outside your department."

  /** The ValueError for a worker from another department. */
  function OutsiderMessage(name: string, department: string): string {
    name + " is not in " + department + " department."
  }

  class Task {
    const title: string
    const description: string
    const department: string
    var assignedWorkers: seq<Worker>
    var status: string

    constructor (title: string, description: string, department: string)
      ensures this.title == title && this.description == description && this.department == department
      ensures status == "Open" && assignedWorkers == []
    {
      this.title := title;
      this.description := description;
      this.department := department;
      assignedWorkers := [];
      status := "Open";
    }
  }

  class Worker {
    const name: string
    const department: string
    const duty: string
    var tasks: seq<Task>

    /** A new worker's `view_tasks` is empty. */
    constructor (name: string, department: string, duty: string)
      ensures this.name == name && this.department == department && this.duty == duty
      ensures ViewTasks() == []
    {
      this.name := name;
      this.department := department;
      this.duty := duty;
      tasks := [];
    }

    /** The tasks assigned to this worker, in assignment order. */
    function ViewTasks(): seq<Task>
      reads this
    {
      tasks
    }
  }

  /** The department of a worker, as the assignment loop tests it. */
  function DepartmentOf(w: Worker): string {
    w.department
  }

  class Manager {
    const name: string
    const department: string
    var tasks: seq<Task>

    constructor (name: string, department: string)
      ensures this.name == name && this.department == department && ViewTasks() == []
    {
      this.name := name;
      this.department := department;
      tasks := [];
    }

    /** The tasks this manager created, in creation order. */
    function ViewTasks(): seq<Task>
      reads this
    {
      tasks
    }

    /** A new Open task in the manager's department, appended to the
        manager's tasks. */
    method CreateTask(title: string, description: string) returns (task: Task)
      modifies this`tasks
      ensures fresh(task) && ViewTasks() == old(ViewTasks()) + [task]
      ensures task.title == title && task.description == description
      ensures task.department == department && task.status == "Open" && task.assignedWorkers == []
    {
      task := new Task(title, description, department);
      tasks := tasks + [task];
    }

    /** Links the task and each worker both ways, in order. A task of
        another department raises PermissionError before anything changes;
        a worker of another department raises ValueError, and the workers
        before it stay linked. For every given worker the task lists the
        worker as often as the worker lists the task, if that held before. */
    method AssignTask(task: Task, workers: seq<Worker>) returns (out: Outcome<Error>)
      modifies task`assignedWorkers, workers
      ensures task.department != department ==>
        && out == Fail(PermissionError(AssignOutsideMessage))
        && task.assignedWorkers == old(task.assignedWorkers)
        && forall w :: w in workers ==> w.tasks == old(w.tasks)
      ensures task.department == department ==>
        var k := FirstMismatch(workers, DepartmentOf, department);
        && out == (if k == |workers| then Pass else Fail(ValueError(OutsiderMessage(workers[k].name, department))))
        && task.assignedWorkers == old(task.assignedWorkers) + workers[..k]
        && forall w :: w in workers ==> w.tasks == old(w.tasks) + Repeat(task, multiset(workers[..k])[w])
      ensures forall w :: w in workers && multiset(old(task.assignedWorkers))[w] == multiset(old(w.tasks))[task] ==>
        multiset(task.assignedWorkers)[w] == multiset(w.tasks)[task]
      ensures out == Pass ==> forall w :: w in workers ==> w in task.assignedWorkers && task in w.ViewTasks()
    {
      if task.department != department {
        return Fail(PermissionError(AssignOutsideMessage));
      }
      out := Pass;
      var i := 0;
      while i < |workers|
        invariant 0 <= i <= |workers|
        invariant forall j :: 0 <= j < i ==> workers[j].department == department
        invariant task.assignedWorkers == old(task.assignedWorkers) + workers[..i]
        invariant forall w :: w in workers ==> w.tasks == old(w.tasks) + Repeat(task, multiset(workers[..i])[w])
      {
        var worker := workers[i];
        if worker.department != department {
          out := Fail(ValueError(OutsiderMessage(worker.name, department)));
          break;
        }
        task.assignedWorkers := task.assignedWorkers + [worker];
        worker.tasks := worker.tasks + [task];
        assert workers[..i + 1] == workers[..i] + [worker];
        i := i + 1;
      }
      assert i == |workers| ==> workers[..i] == workers;
      forall w | w in workers && multiset(old(task.assignedWorkers))[w] == multiset(old(w.tasks))[task]
        ensures multiset(task.assignedWorkers)[w] == multiset(w.tasks)[task]
      {
        LinksAgree(old(task.assignedWorkers), workers[..i], w, old(w.tasks), task);
      }
      if out == Pass {
        forall w | w in workers
          ensures w in task.assignedWorkers && task in w.tasks
        {
          ListedMeansLinked(workers, w, task, old(task.assignedWorkers), old(w.tasks));
        }
      }
    }
  }

  /** A created task is Open, in the manager's department and listed; after
      assigning three workers each lists the task. */
  method AssignScenario() returns (status: string, listed: bool, linked: bool)
    ensures status == "Open" && listed && linked
  {
    var manager := new Manager("Jack", "Production");
    var w1 := new Worker("Tobias", "Production", "Photographer");
    var w2 := new Worker("Antony", "Production", "Audio Specialist");
    var w3 := new Worker("Adam", "Production", "Audio Specialist");
    var task := manager.CreateTask("Prepare Stage", "Set up stage lightning and decorations.");
    status, listed := task.status, task in manager.ViewTasks() && task.department == manager.department;
    var out := manager.AssignTask(task, [w1, w2, w3]);
    linked := out == Pass && task in w1.ViewTasks() && task in w2.ViewTasks() && task in w3.ViewTasks();
  }

  /** A worker of another department cannot be assigned, and no link is made. */
  method OutsiderScenario() returns (out: Outcome<Error>, links: nat)
    ensures out == Fail(ValueError(OutsiderMessage("Helen", "Production"))) && links == 0
  {
    var manager := new Manager("Jack", "Production");
    var outsider := new Worker("Helen", "Services", "Top Chef");
    var task := manager.CreateTask("Prepare Stage", "Set up stage lightning and decorations.");
    assert FirstMismatch([outsider], DepartmentOf, "Production") == 0;
    out := manager.AssignTask(task, [outsider]);
    return out, |task.assignedWorkers| + |outsider.ViewTasks()|;
  }
}
