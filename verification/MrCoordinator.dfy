/** The coordinator object, proved to do what MrTasks says. */
module MrCoordinator {
  import T = MrTasks
  import opened MrTasks

  class Coordinator {
    const files: seq<string>
    const nReduce: nat
    const mapTasks: array<Status>
    const reduceTasks: array<Status>
    var phase: Phase
    var done: bool

    ghost predicate Valid()
      reads this, mapTasks, reduceTasks
    {
      mapTasks != reduceTasks && mapTasks.Length == |files| && reduceTasks.Length == nReduce
    }

    ghost function View(): Board
      reads this, mapTasks, reduceTasks
    {
      Board(files, nReduce, mapTasks[..], reduceTasks[..], phase, done)
    }

    constructor (files: seq<string>, nReduce: nat)
      ensures Valid() && View() == T.Fresh(files, nReduce)
      ensures fresh(mapTasks) && fresh(reduceTasks)
    {
      this.files, this.nReduce := files, nReduce;
      mapTasks := new Status[|files|](_ => Idle);
      reduceTasks := new Status[nReduce](_ => Idle);
      phase, done := Mapping, false;
    }

    method FindIdleTask(tasks: array<Status>) returns (id: int)
      ensures id == FirstIdle(tasks[..], 0)
    {
      for i := 0 to tasks.Length
        invariant FirstIdle(tasks[..], 0) == FirstIdle(tasks[..], i)
      {
        if tasks[i] == Idle {
          return i;
        }
      }
      return -1;
    }

    method AnyInProgress(tasks: array<Status>) returns (any: bool)
      ensures any <==> InProgress in tasks[..]
    {
      for i := 0 to tasks.Length
        invariant forall j :: 0 <= j < i ==> tasks[j] != InProgress
      {
        if tasks[i] == InProgress {
          assert tasks[..][i] == InProgress;
          return true;
        }
      }
      return false;
    }

    method GetTask() returns (task: Task)
      requires Valid()
      modifies this, mapTasks, reduceTasks
      ensures Valid() && (View(), task) == T.GetTask(old(View()))
    {
      if phase == Mapping {
        var id := FindIdleTask(mapTasks);
        if id != -1 {
          mapTasks[id] := InProgress;
          return MapTask(id, files[id], nReduce, |files|);
        }
        var busy := AnyInProgress(mapTasks);
        if busy {
          return WaitTask;
        }
        phase := Reducing;
      }
      var id := FindIdleTask(reduceTasks);
      if id != -1 {
        reduceTasks[id] := InProgress;
        return ReduceTask(id, nReduce, |files|);
      }
      var busy := AnyInProgress(reduceTasks);
      if busy {
        return WaitTask;
      }
      done := true;
      return DoneTask;
    }

    method ReportTask(kind: Kind, id: nat)
      requires Valid() && id < (if kind == Map then |files| else nReduce)
      modifies mapTasks, reduceTasks
      ensures Valid() && View() == T.ReportTask(old(View()), kind, id)
    {
      if kind == Map && phase == Mapping {
        if mapTasks[id] == InProgress {
          mapTasks[id] := Completed;
        }
      } else if kind == Reduce && phase == Reducing {
        if reduceTasks[id] == InProgress {
          reduceTasks[id] := Completed;
        }
      }
    }

    method ExpireTasks(tasks: array<Status>, expired: set<nat>)
      modifies tasks
      ensures tasks[..] == Expire(old(tasks[..]), expired)
    {
      for i := 0 to tasks.Length
        invariant forall j :: 0 <= j < i ==> tasks[j] == Expire(old(tasks[..]), expired)[j]
        invariant forall j :: i <= j < tasks.Length ==> tasks[j] == old(tasks[..])[j]
      {
        if tasks[i] == InProgress {
          if i in expired {
            tasks[i] := Idle;
          }
        }
      }
    }

    method CheckTimeout(expired: set<nat>)
      requires Valid()
      modifies mapTasks, reduceTasks
      ensures Valid() && View() == T.CheckTimeout(old(View()), expired)
    {
      if phase == Mapping {
        ExpireTasks(mapTasks, expired);
      } else {
        ExpireTasks(reduceTasks, expired);
      }
    }

    method Done() returns (d: bool)
      ensures d == View().done
    {
      d := done;
    }
  }
}
