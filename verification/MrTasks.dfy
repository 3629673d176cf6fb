/** The coordinator's tasks, as a value, and what each of its calls does to them. */
module MrTasks {

  datatype Status = Idle | InProgress | Completed
  datatype Phase = Mapping | Reducing
  datatype Kind = Map | Reduce

  datatype Task =
    | MapTask(id: nat, inputFile: string, nReduce: nat, nMap: nat)
    | ReduceTask(id: nat, nReduce: nat, nMap: nat)
    | WaitTask
    | DoneTask

  datatype Board = Board(files: seq<string>, nReduce: nat, mapTasks: seq<Status>, reduceTasks: seq<Status>,
                         phase: Phase, done: bool)

  ghost predicate Shaped(b: Board) {
    |b.mapTasks| == |b.files| && |b.reduceTasks| == b.nReduce
  }

  function Fresh(files: seq<string>, nReduce: nat): Board {
    Board(files, nReduce, seq(|files|, _ => Idle), seq(nReduce, _ => Idle), Mapping, false)
  }

  /** The first idle task, or -1. */
  function FirstIdle(tasks: seq<Status>, from: nat): (id: int)
    requires from <= |tasks|
    ensures id == -1 || (from <= id < |tasks| && tasks[id] == Idle)
    ensures forall i :: from <= i < (if id == -1 then |tasks| else id) ==> tasks[i] != Idle
    decreases |tasks| - from
  {
    if from == |tasks| then -1 else if tasks[from] == Idle then from else FirstIdle(tasks, from + 1)
  }

  function GetTask(b: Board): (Board, Task)
    requires Shaped(b)
  {
    if b.phase == Mapping then
      var id := FirstIdle(b.mapTasks, 0);
      if id != -1 then
        (b.(mapTasks := b.mapTasks[id := InProgress]), MapTask(id, b.files[id], b.nReduce, |b.files|))
      else if InProgress in b.mapTasks then (b, WaitTask)
      else GetReduceTask(b.(phase := Reducing))
    else GetReduceTask(b)
  }

  function GetReduceTask(b: Board): (Board, Task)
    requires Shaped(b)
  {
    var id := FirstIdle(b.reduceTasks, 0);
    if id != -1 then (b.(reduceTasks := b.reduceTasks[id := InProgress]), ReduceTask(id, b.nReduce, |b.files|))
    else if InProgress in b.reduceTasks then (b, WaitTask)
    else (b.(done := true), DoneTask)
  }

  /** Only a task that is in progress, in the phase it belongs to, becomes completed. */
  function ReportTask(b: Board, kind: Kind, id: nat): Board
    requires id < (if kind == Map then |b.mapTasks| else |b.reduceTasks|)
  {
    if kind == Map && b.phase == Mapping && b.mapTasks[id] == InProgress then
      b.(mapTasks := b.mapTasks[id := Completed])
    else if kind == Reduce && b.phase == Reducing && b.reduceTasks[id] == InProgress then
      b.(reduceTasks := b.reduceTasks[id := Completed])
    else b
  }

  function Expire(tasks: seq<Status>, expired: set<nat>): (r: seq<Status>)
    ensures |r| == |tasks|
  {
    seq(|tasks|, i requires 0 <= i < |tasks| => if tasks[i] == InProgress && i in expired then Idle else tasks[i])
  }

  /** `expired` are the tasks that were started too long ago. */
  function CheckTimeout(b: Board, expired: set<nat>): Board {
    if b.phase == Mapping then b.(mapTasks := Expire(b.mapTasks, expired))
    else b.(reduceTasks := Expire(b.reduceTasks, expired))
  }

  // ----- what the calls achieve

  ghost predicate LeastIdle(tasks: seq<Status>, id: nat) {
    id < |tasks| && tasks[id] == Idle && forall i :: 0 <= i < id ==> tasks[i] != Idle
  }

  ghost predicate AllCompleted(tasks: seq<Status>) {
    forall i :: 0 <= i < |tasks| ==> tasks[i] == Completed
  }

  /** Some task is in progress and none is idle. */
  ghost predicate Pending(tasks: seq<Status>) {
    Idle !in tasks && !AllCompleted(tasks)
  }

  /** Mapping is over. */
  ghost predicate Mapped(b: Board) {
    b.phase == Reducing || AllCompleted(b.mapTasks)
  }

  /** Which task is handed out is decided by the first of these that holds: there is an idle map task to do, a map task
      is in progress, there is an idle reduce task, a reduce task is in progress.  The task is the least idle one, it
      names that task's file, the number of reduce tasks and the number of files, and becomes the only one with
      another status.  The phase changes as soon as all map tasks are completed, and the coordinator is done as soon as
      all reduce tasks are, too. */
  lemma HandsOut(b: Board)
    requires Shaped(b)
    ensures var (c, task) := GetTask(b);
            match task
            case MapTask(id, inputFile, nReduce, nMap) =>
              && b.phase == Mapping && LeastIdle(b.mapTasks, id)
              && inputFile == b.files[id] && nReduce == b.nReduce && nMap == |b.files|
              && c == b.(mapTasks := b.mapTasks[id := InProgress])
            case ReduceTask(id, nReduce, nMap) =>
              && Mapped(b) && LeastIdle(b.reduceTasks, id)
              && nReduce == b.nReduce && nMap == |b.files|
              && c == b.(phase := Reducing, reduceTasks := b.reduceTasks[id := InProgress])
            case WaitTask =>
              if Mapped(b) then Pending(b.reduceTasks) && c == b.(phase := Reducing)
              else Pending(b.mapTasks) && c == b
            case DoneTask =>
              Mapped(b) && AllCompleted(b.reduceTasks) && c == b.(phase := Reducing, done := true)
  {
    if b.phase == Mapping && InProgress in b.mapTasks {
      var i :| 0 <= i < |b.mapTasks| && b.mapTasks[i] == InProgress;
      assert b.mapTasks[i] != Completed;
    }
    if InProgress in b.reduceTasks {
      var i :| 0 <= i < |b.reduceTasks| && b.reduceTasks[i] == InProgress;
      assert b.reduceTasks[i] != Completed;
    }
  }

  /** Exactly the reported task, and only if it is in progress in its own phase, becomes completed. */
  lemma ReportCompletes(b: Board, kind: Kind, id: nat)
    requires id < (if kind == Map then |b.mapTasks| else |b.reduceTasks|)
    ensures var c := ReportTask(b, kind, id);
            && c == b.(mapTasks := c.mapTasks, reduceTasks := c.reduceTasks)
            && |c.mapTasks| == |b.mapTasks| && |c.reduceTasks| == |b.reduceTasks|
            && (forall i :: 0 <= i < |b.mapTasks| ==>
                  c.mapTasks[i] ==
                    if kind == Map && i == id && b.phase == Mapping && b.mapTasks[i] == InProgress then Completed
                    else b.mapTasks[i])
            && forall i :: 0 <= i < |b.reduceTasks| ==>
                 c.reduceTasks[i] ==
                   if kind == Reduce && i == id && b.phase == Reducing && b.reduceTasks[i] == InProgress then Completed
                   else b.reduceTasks[i]
  {
  }

  /** Exactly the late tasks in progress, of the present phase, become idle. */
  lemma TimeoutTakesBack(b: Board, late: set<nat>)
    ensures var c := CheckTimeout(b, late);
            && c == b.(mapTasks := c.mapTasks, reduceTasks := c.reduceTasks)
            && |c.mapTasks| == |b.mapTasks| && |c.reduceTasks| == |b.reduceTasks|
            && (forall i :: 0 <= i < |b.mapTasks| ==>
                  c.mapTasks[i] ==
                    if b.phase == Mapping && i in late && b.mapTasks[i] == InProgress then Idle else b.mapTasks[i])
            && forall i :: 0 <= i < |b.reduceTasks| ==>
                 c.reduceTasks[i] ==
                   if b.phase == Reducing && i in late && b.reduceTasks[i] == InProgress then Idle else b.reduceTasks[i]
  {
  }
}
