/** Any number of workers and the coordinator, as a step system: workers come and go, answers and reports get
    lost, tasks time out and are executed again, and old executions go on writing.  When the coordinator is
    done, the output files hold exactly what the sequential program writes. */
module MrRuns {
  import opened MrData
  import opened MrWorker
  import opened MrTasks
  import opened Traces

  datatype Job = Job(kind: Kind, id: nat)

  /** Where a worker is: asking, about to read its input, writing intermediate file `next`, reading intermediate
      file `next`, or about to report.  All it knows of the job is what its task says. */
  datatype Worker =
    | Free
    | HasMap(id: nat, inputFile: string, nReduce: nat)
    | Writing(id: nat, nReduce: nat, kva: seq<KeyValue>, next: nat)
    | Reading(id: nat, nMap: nat, next: nat, kva: seq<KeyValue>)
    | Finished(job: Job)

  /** The names of the input files, and what is in the file of a name. */
  datatype Setting = Setting(files: seq<string>, contents: string -> string, nReduce: nat,
                             mapf: Mapper, reducef: Reducer, hash: Hash)

  /** `handed` and `expired` count how often a task was handed out and timed out; `finished` are the tasks
      that some worker has carried out to the end. */
  datatype System = System(board: Board, files: Intermediate, outputs: map<nat, seq<Line>>, workers: map<nat, Worker>,
                           handed: map<Job, nat>, expired: map<Job, nat>, finished: set<Job>)

  datatype Step =
    | Join(w: nat)
    | Ask(w: nat)
    | AnswerLost
    | ReadInput(w: nat, kva: seq<KeyValue>)
    | WriteFile(w: nat)
    | MapEnds(w: nat)
    | ReadFile(w: nat)
    | WriteOutput(w: nat, lines: seq<Line>)
    | Report(w: nat)
    | ReportLost(w: nat)
    | Timeout(late: set<nat>)
    | Crash(w: nat)

  /** The reduce function does not look at the order of the values. */
  ghost predicate Sound(cfg: Setting) {
    Insensitive(cfg.reducef)
  }

  function Inputs(cfg: Setting): seq<Input> {
    seq(|cfg.files|, i requires 0 <= i < |cfg.files| => Input(cfg.files[i], cfg.contents(cfg.files[i])))
  }

  function Start(cfg: Setting): System {
    System(Fresh(cfg.files, cfg.nReduce), map[], map[], map[], map[], map[], {})
  }

  /** What the map function makes of a file. */
  function PairsOf(cfg: Setting, file: string): seq<KeyValue> {
    cfg.mapf(file, cfg.contents(file))
  }

  function Pairs(cfg: Setting, i: nat): seq<KeyValue>
    requires i < |cfg.files|
  {
    PairsOf(cfg, cfg.files[i])
  }

  /** The map function may return its pairs in any order; the library's sort may order equal keys in any way.
      Without reduce tasks a worker fails on the first pair, because it divides by their number. */
  ghost predicate Enabled(cfg: Setting, s: System, step: Step) {
    Shaped(s.board) &&
    match step
    case Join(w) => w !in s.workers
    case Ask(w) => w in s.workers && s.workers[w].Free?
    case AnswerLost => true
    case ReadInput(w, kva) =>
      w in s.workers && s.workers[w].HasMap? &&
          multiset(kva) == multiset(PairsOf(cfg, s.workers[w].inputFile)) && (s.workers[w].nReduce == 0 ==> kva == [])
    case WriteFile(w) => w in s.workers && s.workers[w].Writing? && s.workers[w].next < s.workers[w].nReduce
    case MapEnds(w) => w in s.workers && s.workers[w].Writing? && s.workers[w].next >= s.workers[w].nReduce
    case ReadFile(w) => w in s.workers && s.workers[w].Reading? && s.workers[w].next < s.workers[w].nMap
    case WriteOutput(w, lines) =>
      w in s.workers && s.workers[w].Reading? && s.workers[w].next >= s.workers[w].nMap &&
          Produced(lines, s.workers[w].kva, cfg.reducef)
    case Report(w) => w in s.workers && s.workers[w].Finished? && Known(s.board, s.workers[w].job)
    case ReportLost(w) => w in s.workers && s.workers[w].Finished?
    case Timeout(_) => true
    case Crash(w) => w in s.workers
  }

  predicate Known(b: Board, job: Job) {
    job.id < (if job.kind == Map then |b.mapTasks| else |b.reduceTasks|)
  }

  function StatusOf(b: Board, job: Job): Status
    requires Known(b, job)
  {
    if job.kind == Map then b.mapTasks[job.id] else b.reduceTasks[job.id]
  }

  function CountOf(m: map<Job, nat>, job: Job): nat {
    if job in m then m[job] else 0
  }

  function Handed(m: map<Job, nat>, task: Task): map<Job, nat> {
    match task
    case MapTask(id, _, _, _) => m[Job(Map, id) := CountOf(m, Job(Map, id)) + 1]
    case ReduceTask(id, _, _) => m[Job(Reduce, id) := CountOf(m, Job(Reduce, id)) + 1]
    case _ => m
  }

  /** The tasks that a timeout check takes back. */
  function TakenBack(b: Board, late: set<nat>): set<Job> {
    if b.phase == Mapping then set i | i in late && i < |b.mapTasks| && b.mapTasks[i] == InProgress :: Job(Map, i)
    else set i | i in late && i < |b.reduceTasks| && b.reduceTasks[i] == InProgress :: Job(Reduce, i)
  }

  function Bumped(m: map<Job, nat>, jobs: set<Job>): map<Job, nat> {
    map job | job in m.Keys + jobs :: CountOf(m, job) + if job in jobs then 1 else 0
  }

  function Put(s: System, w: nat, worker: Worker): System {
    s.(workers := s.workers[w := worker])
  }

  ghost function Next(cfg: Setting, s: System, step: Step): System
    requires Sound(cfg) && Enabled(cfg, s, step)
  {
    match step
    case Join(w) => Put(s, w, Free)
    case Ask(w) =>
      var (b, task) := GetTask(s.board);
      var t := s.(board := b, handed := Handed(s.handed, task));
      (match task
       case MapTask(id, inputFile, nReduce, _) => Put(t, w, HasMap(id, inputFile, nReduce))
       case ReduceTask(id, _, nMap) => Put(t, w, Reading(id, nMap, 0, []))
       case WaitTask => t
       case DoneTask => t.(workers := t.workers - {w}))
    case AnswerLost =>
      var (b, task) := GetTask(s.board);
      s.(board := b, handed := Handed(s.handed, task))
    case ReadInput(w, kva) => Put(s, w, Writing(s.workers[w].id, s.workers[w].nReduce, kva, 0))
    case WriteFile(w) =>
      var Writing(id, nReduce, kva, next) := s.workers[w];
      Put(s.(files := s.files[Name(id, next) := Part(kva, cfg.hash, nReduce, next)]), w,
          Writing(id, nReduce, kva, next + 1))
    case MapEnds(w) =>
      var job := Job(Map, s.workers[w].id);
      Put(s.(finished := s.finished + {job}), w, Finished(job))
    case ReadFile(w) =>
      var Reading(id, nMap, next, kva) := s.workers[w];
      Put(s, w, Reading(id, nMap, next + 1, kva + if Name(next, id) in s.files then s.files[Name(next, id)] else []))
    case WriteOutput(w, lines) =>
      var job := Job(Reduce, s.workers[w].id);
      Put(s.(outputs := s.outputs[s.workers[w].id := lines], finished := s.finished + {job}), w, Finished(job))
    case Report(w) =>
      var job := s.workers[w].job;
      Put(s.(board := ReportTask(s.board, job.kind, job.id)), w, Free)
    case ReportLost(w) => Put(s, w, Free)
    case Timeout(late) =>
      s.(board := CheckTimeout(s.board, late), expired := Bumped(s.expired, TakenBack(s.board, late)))
    case Crash(w) => s.(workers := s.workers - {w})
  }

  datatype Run = Run(states: seq<System>, steps: seq<Step>)

  ghost predicate IsRun(cfg: Setting, r: Run) {
    && Sound(cfg) && |r.states| == |r.steps| + 1 && r.states[0] == Start(cfg)
    && forall i :: 0 <= i < |r.steps| ==>
         Enabled(cfg, r.states[i], r.steps[i]) && r.states[i + 1] == Next(cfg, r.states[i], r.steps[i])
  }

  lemma Extended(cfg: Setting, r: Run, step: Step) returns (q: Run)
    requires IsRun(cfg, r) && Enabled(cfg, Last(r.states), step)
    ensures IsRun(cfg, q) && q.states == r.states + [Next(cfg, Last(r.states), step)]
  {
    var next := Next(cfg, Last(r.states), step);
    LinkedOn(r.states, r.steps, (s, e, t) => Sound(cfg) && Enabled(cfg, s, e) && t == Next(cfg, s, e), step, next);
    q := Run(r.states + [next], r.steps + [step]);
  }

  // ----- what every run keeps

  ghost predicate BoardOk(cfg: Setting, b: Board, finished: set<Job>) {
    && Shaped(b) && b.files == cfg.files && b.nReduce == cfg.nReduce
    && (b.phase == Reducing ==> AllCompleted(b.mapTasks))
    && (b.phase == Mapping ==> forall i :: 0 <= i < |b.reduceTasks| ==> b.reduceTasks[i] == Idle)
    && (b.done ==> b.phase == Reducing && AllCompleted(b.reduceTasks))
    && forall job :: Known(b, job) && StatusOf(b, job) == Completed ==> job in finished
  }

  /** Every intermediate file holds its share of the pairs of its input, in some order. */
  ghost predicate FileOk(cfg: Setting, name: Name, kva: seq<KeyValue>)
  {
    && name.mapTask < |cfg.files| && name.reduceTask < cfg.nReduce
    && multiset(kva) == multiset(Part(Pairs(cfg, name.mapTask), cfg.hash, cfg.nReduce, name.reduceTask))
  }

  ghost predicate FilesOk(cfg: Setting, files: Intermediate, finished: set<Job>)
  {
    && (forall name <- files :: FileOk(cfg, name, files[name]))
    && (cfg.nReduce == 0 ==> forall i :: 0 <= i < |cfg.files| && Job(Map, i) in finished ==> Pairs(cfg, i) == [])
    && forall i: nat, r: nat :: Job(Map, i) in finished && r < cfg.nReduce ==> Name(i, r) in files
  }

  function Share(cfg: Setting, upTo: nat, r: nat): seq<KeyValue>
    requires upTo <= |cfg.files| && cfg.nReduce > 0
  {
    Part(AllPairs(Inputs(cfg)[..upTo], cfg.mapf), cfg.hash, cfg.nReduce, r)
  }

  ghost predicate OutputsOk(cfg: Setting, outputs: map<nat, seq<Line>>, finished: set<Job>)
  {
    && (forall r <- outputs :: r < cfg.nReduce && Reports(outputs[r], Share(cfg, |cfg.files|, r), cfg.reducef))
    && forall r: nat :: Job(Reduce, r) in finished ==> r in outputs
  }

  ghost predicate WorkerOk(cfg: Setting, b: Board, files: Intermediate, finished: set<Job>, worker: Worker)
  {
    match worker
    case Free => true
    case HasMap(id, inputFile, nReduce) => id < |cfg.files| && inputFile == cfg.files[id] && nReduce == cfg.nReduce
    case Writing(id, nReduce, kva, next) =>
      && id < |cfg.files| && nReduce == cfg.nReduce && next <= nReduce && multiset(kva) == multiset(Pairs(cfg, id))
      && (cfg.nReduce == 0 ==> kva == [])
      && forall r: nat :: r < next ==> Name(id, r) in files
    case Reading(id, nMap, next, kva) =>
      && b.phase == Reducing && id < cfg.nReduce && nMap == |cfg.files| && next <= nMap
      && multiset(kva) == multiset(Share(cfg, next, id))
    case Finished(job) => job in finished && Known(b, job)
  }

  /** A task was handed out once more than it timed out exactly when it is not idle. */
  ghost predicate CountsOk(b: Board, handed: map<Job, nat>, expired: map<Job, nat>) {
    forall job {:trigger StatusOf(b, job)} :: Known(b, job) ==>
      CountOf(handed, job) == CountOf(expired, job) + if StatusOf(b, job) == Idle then 0 else 1
  }

  ghost predicate WorkersOk(cfg: Setting, b: Board, files: Intermediate, finished: set<Job>, workers: map<nat, Worker>)
  {
    forall w <- workers :: WorkerOk(cfg, b, files, finished, workers[w])
  }

  ghost predicate Ok(cfg: Setting, s: System)
  {
    && BoardOk(cfg, s.board, s.finished)
    && FilesOk(cfg, s.files, s.finished)
    && OutputsOk(cfg, s.outputs, s.finished)
    && WorkersOk(cfg, s.board, s.files, s.finished, s.workers)
    && CountsOk(s.board, s.handed, s.expired)
  }

  // ----- the coordinator's calls

  /** What a later board keeps for the workers. */
  ghost predicate Later(b: Board, c: Board) {
    && |c.mapTasks| == |b.mapTasks| && |c.reduceTasks| == |b.reduceTasks|
    && (b.phase == Reducing ==> c.phase == Reducing) && (b.done ==> c.done)
    && forall job :: Known(b, job) && StatusOf(b, job) == Completed ==> StatusOf(c, job) == Completed
  }

  lemma ReduceTaskOk(cfg: Setting, b: Board, finished: set<Job>)
    requires BoardOk(cfg, b, finished) && b.phase == Reducing
    ensures BoardOk(cfg, GetReduceTask(b).0, finished) && Later(b, GetReduceTask(b).0)
  {
  }

  lemma PhaseEnds(cfg: Setting, b: Board, finished: set<Job>)
    requires BoardOk(cfg, b, finished) && FirstIdle(b.mapTasks, 0) == -1 && InProgress !in b.mapTasks
    ensures BoardOk(cfg, b.(phase := Reducing), finished) && Later(b, b.(phase := Reducing))
  {
    forall i | 0 <= i < |b.mapTasks| ensures b.mapTasks[i] == Completed {
      assert b.mapTasks[i] in b.mapTasks;
    }
    forall job | Known(b, job) ensures StatusOf(b.(phase := Reducing), job) == StatusOf(b, job) {}
  }

  lemma GetTaskOk(cfg: Setting, b: Board, finished: set<Job>)
    requires BoardOk(cfg, b, finished)
    ensures var (c, task) := GetTask(b);
            && BoardOk(cfg, c, finished) && Later(b, c)
            && (task.MapTask? ==> WorkerOk(cfg, c, map[], {}, HasMap(task.id, task.inputFile, task.nReduce)))
            && (task.ReduceTask? ==> task.id < cfg.nReduce && task.nMap == |cfg.files| && c.phase == Reducing)
  {
    if b.phase == Reducing {
      ReduceTaskOk(cfg, b, finished);
    } else if FirstIdle(b.mapTasks, 0) == -1 && InProgress !in b.mapTasks {
      PhaseEnds(cfg, b, finished);
      ReduceTaskOk(cfg, b.(phase := Reducing), finished);
    }
  }

  /** Handing out a task makes that task, and no other, busy. */
  lemma GetTaskCounts(b: Board, handed: map<Job, nat>, expired: map<Job, nat>)
    requires Shaped(b) && CountsOk(b, handed, expired)
    ensures CountsOk(GetTask(b).0, Handed(handed, GetTask(b).1), expired)
  {
    var (c, task) := GetTask(b);
    forall job | Known(c, job)
      ensures CountOf(Handed(handed, task), job) == CountOf(expired, job) + if StatusOf(c, job) == Idle then 0 else 1
    {
      assert Known(b, job);
      assert StatusOf(b, job) == StatusOf(b, job);
    }
  }

  lemma ReportOk(cfg: Setting, b: Board, finished: set<Job>, job: Job)
    requires BoardOk(cfg, b, finished) && Known(b, job) && job in finished
    ensures var c := ReportTask(b, job.kind, job.id); BoardOk(cfg, c, finished) && Later(b, c)
  {
  }

  lemma ReportCounts(b: Board, handed: map<Job, nat>, expired: map<Job, nat>, job: Job)
    requires Known(b, job) && CountsOk(b, handed, expired)
    ensures CountsOk(ReportTask(b, job.kind, job.id), handed, expired)
  {
    var c := ReportTask(b, job.kind, job.id);
    forall j | Known(c, j)
      ensures CountOf(handed, j) == CountOf(expired, j) + if StatusOf(c, j) == Idle then 0 else 1
    {
      assert Known(b, j) && StatusOf(b, j) == StatusOf(b, j);
    }
  }

  lemma TimeoutOk(cfg: Setting, b: Board, finished: set<Job>, late: set<nat>)
    requires BoardOk(cfg, b, finished)
    ensures BoardOk(cfg, CheckTimeout(b, late), finished) && Later(b, CheckTimeout(b, late))
  {
  }

  lemma TimeoutCounts(b: Board, handed: map<Job, nat>, expired: map<Job, nat>, late: set<nat>)
    requires CountsOk(b, handed, expired)
    ensures CountsOk(CheckTimeout(b, late), handed, Bumped(expired, TakenBack(b, late)))
  {
    var c, back := CheckTimeout(b, late), TakenBack(b, late);
    forall job | Known(c, job)
      ensures CountOf(handed, job) == CountOf(Bumped(expired, back), job) + if StatusOf(c, job) == Idle then 0 else 1
    {
      assert Known(b, job) && StatusOf(b, job) == StatusOf(b, job);
      assert CountOf(Bumped(expired, back), job) == CountOf(expired, job) + if job in back then 1 else 0;
      TakenBackIs(b, late, job);
    }
  }

  lemma TakenBackIs(b: Board, late: set<nat>, job: Job)
    requires Known(b, job)
    ensures Known(CheckTimeout(b, late), job)
    ensures job in TakenBack(b, late) <==> StatusOf(b, job) != StatusOf(CheckTimeout(b, late), job)
    ensures job in TakenBack(b, late) ==> StatusOf(b, job) == InProgress && StatusOf(CheckTimeout(b, late), job) == Idle
  {
    var now := b.phase == Mapping;
    assert job in TakenBack(b, late) <==>
          job.kind == (if now then Map else Reduce) && job.id in late && StatusOf(b, job) == InProgress;
  }

  // ----- the workers

  lemma WorkerLater(cfg: Setting, b: Board, c: Board, files: Intermediate, after: Intermediate, finished: set<Job>,
                    more: set<Job>, worker: Worker)
    requires WorkerOk(cfg, b, files, finished, worker)
    requires Later(b, c) && files.Keys <= after.Keys && finished <= more
    ensures WorkerOk(cfg, c, after, more, worker)
  {
  }

  /** Everybody who is left is where he was. */
  lemma WorkersStay(cfg: Setting, b: Board, c: Board, files: Intermediate, finished: set<Job>,
                    workers: map<nat, Worker>, left: map<nat, Worker>)
    requires WorkersOk(cfg, b, files, finished, workers) && Later(b, c)
    requires forall x <- left :: x in workers && left[x] == workers[x]
    ensures WorkersOk(cfg, c, files, finished, left)
  {
    forall x | x in left
      ensures WorkerOk(cfg, c, files, finished, left[x])
    {
      WorkerLater(cfg, b, c, files, files, finished, finished, workers[x]);
    }
  }

  /** Everybody else is where he was. */
  lemma WorkersPut(cfg: Setting, b: Board, c: Board, files: Intermediate, after: Intermediate,
                   finished: set<Job>, more: set<Job>, workers: map<nat, Worker>, w: nat, worker: Worker)
    requires WorkersOk(cfg, b, files, finished, workers)
    requires Later(b, c) && files.Keys <= after.Keys && finished <= more && WorkerOk(cfg, c, after, more, worker)
    ensures WorkersOk(cfg, c, after, more, workers[w := worker])
  {
    forall x: nat
      ensures x in workers && x != w ==> WorkerOk(cfg, c, after, more, workers[x])
    {
      if x in workers && x != w {
        WorkerLater(cfg, b, c, files, after, finished, more, workers[x]);
      }
    }
  }

  lemma NothingLater(b: Board)
    ensures Later(b, b)
  {
  }

  lemma NothingRead(cfg: Setting, r: nat)
    requires cfg.nReduce > 0
    ensures Share(cfg, 0, r) == []
  {
  }

  /** The worker with the task it was given. */
  lemma WorkersAsked(cfg: Setting, s: System, w: nat, c: Board, task: Task)
    requires Sound(cfg) && Ok(cfg, s) && w in s.workers && (c, task) == GetTask(s.board)
    ensures WorkersOk(cfg, c, s.files, s.finished, s.workers)
    ensures task.MapTask? ==>
              WorkersOk(cfg, c, s.files, s.finished, s.workers[w := HasMap(task.id, task.inputFile, task.nReduce)])
    ensures task.ReduceTask? ==>
              WorkersOk(cfg, c, s.files, s.finished, s.workers[w := Reading(task.id, task.nMap, 0, [])])
    ensures WorkersOk(cfg, c, s.files, s.finished, s.workers - {w})
  {
    GetTaskOk(cfg, s.board, s.finished);
    WorkersStay(cfg, s.board, c, s.files, s.finished, s.workers, s.workers);
    WorkersStay(cfg, s.board, c, s.files, s.finished, s.workers, s.workers - {w});
    if task.MapTask? {
      WorkersPut(cfg, s.board, c, s.files, s.files, s.finished, s.finished, s.workers, w,
                 HasMap(task.id, task.inputFile, task.nReduce));
    }
    if task.ReduceTask? {
      NothingRead(cfg, task.id);
      WorkersPut(cfg, s.board, c, s.files, s.files, s.finished, s.finished, s.workers, w,
                 Reading(task.id, task.nMap, 0, []));
    }
  }

  /** Only the board, the workers and the count of hand-outs are new. */
  lemma BoardMoved(cfg: Setting, s: System, b: Board, workers: map<nat, Worker>, handed: map<Job, nat>,
                   expired: map<Job, nat>)
    requires Ok(cfg, s)
    requires BoardOk(cfg, b, s.finished) && CountsOk(b, handed, expired)
    requires WorkersOk(cfg, b, s.files, s.finished, workers)
    ensures Ok(cfg, s.(board := b, workers := workers, handed := handed, expired := expired))
  {
  }

  lemma AskOk(cfg: Setting, s: System, w: nat)
    requires Sound(cfg) && Ok(cfg, s) && Enabled(cfg, s, Ask(w))
    ensures Ok(cfg, Next(cfg, s, Ask(w)))
  {
    var (c, task) := GetTask(s.board);
    GetTaskOk(cfg, s.board, s.finished);
    GetTaskCounts(s.board, s.handed, s.expired);
    WorkersAsked(cfg, s, w, c, task);
    var workers := Answered(s.workers, w, task);
    BoardMoved(cfg, s, c, workers, Handed(s.handed, task), s.expired);
    AskAnswered(cfg, s, w, c, task);
  }

  /** The workers after worker w was given the answer. */
  function Answered(workers: map<nat, Worker>, w: nat, task: Task): map<nat, Worker> {
    match task
    case MapTask(id, inputFile, nReduce, _) => workers[w := HasMap(id, inputFile, nReduce)]
    case ReduceTask(id, _, nMap) => workers[w := Reading(id, nMap, 0, [])]
    case WaitTask => workers
    case DoneTask => workers - {w}
  }

  lemma AskAnswered(cfg: Setting, s: System, w: nat, c: Board, task: Task)
    requires Sound(cfg) && Enabled(cfg, s, Ask(w)) && (c, task) == GetTask(s.board)
    ensures Next(cfg, s, Ask(w)) ==
            s.(board := c, workers := Answered(s.workers, w, task), handed := Handed(s.handed, task),
               expired := s.expired)
  {
  }

  lemma AnswerLostOk(cfg: Setting, s: System)
    requires Sound(cfg) && Ok(cfg, s) && Enabled(cfg, s, AnswerLost)
    ensures Ok(cfg, Next(cfg, s, AnswerLost))
  {
    var (c, task) := GetTask(s.board);
    GetTaskOk(cfg, s.board, s.finished);
    GetTaskCounts(s.board, s.handed, s.expired);
    WorkersStay(cfg, s.board, c, s.files, s.finished, s.workers, s.workers);
    BoardMoved(cfg, s, c, s.workers, Handed(s.handed, task), s.expired);
  }

  lemma FilesWritten(cfg: Setting, files: Intermediate, finished: set<Job>, name: Name, kva: seq<KeyValue>)
    requires FilesOk(cfg, files, finished) && FileOk(cfg, name, kva)
    ensures FilesOk(cfg, files[name := kva], finished)
  {
  }

  lemma WritesOn(cfg: Setting, b: Board, files: Intermediate, finished: set<Job>, id: nat, nReduce: nat,
                 kva: seq<KeyValue>, next: nat)
    requires WorkerOk(cfg, b, files, finished, Writing(id, nReduce, kva, next)) && next < nReduce
    ensures FileOk(cfg, Name(id, next), Part(kva, cfg.hash, nReduce, next))
    ensures WorkerOk(cfg, b, files[Name(id, next) := Part(kva, cfg.hash, nReduce, next)], finished,
            Writing(id, nReduce, kva, next + 1))
  {
    PartReordered(kva, Pairs(cfg, id), cfg.hash, cfg.nReduce, next);
  }

  lemma WriteFileOk(cfg: Setting, s: System, w: nat)
    requires Sound(cfg) && Ok(cfg, s) && Enabled(cfg, s, WriteFile(w))
    ensures Ok(cfg, Next(cfg, s, WriteFile(w)))
  {
    assert WorkerOk(cfg, s.board, s.files, s.finished, s.workers[w]);
    var Writing(id, nReduce, kva, next) := s.workers[w];
    var part := Part(kva, cfg.hash, nReduce, next);
    var files, worker := s.files[Name(id, next) := part], Writing(id, nReduce, kva, next + 1);
    assert Next(cfg, s, WriteFile(w)) == s.(files := files, workers := s.workers[w := worker]);
    WritesOn(cfg, s.board, s.files, s.finished, id, nReduce, kva, next);
    FilesWritten(cfg, s.files, s.finished, Name(id, next), part);
    NothingLater(s.board);
    WorkersPut(cfg, s.board, s.board, s.files, files, s.finished, s.finished, s.workers, w, worker);
    FilesMoved(cfg, s, files, s.workers[w := worker]);
  }

  lemma FilesMoved(cfg: Setting, s: System, files: Intermediate, workers: map<nat, Worker>)
    requires Ok(cfg, s) && FilesOk(cfg, files, s.finished)
    requires WorkersOk(cfg, s.board, files, s.finished, workers)
    ensures Ok(cfg, s.(files := files, workers := workers))
  {
  }

  /** Some task was carried out to the end. */
  lemma FinishedMoved(cfg: Setting, s: System, outputs: map<nat, seq<Line>>, finished: set<Job>,
                      workers: map<nat, Worker>)
    requires Ok(cfg, s) && s.finished <= finished
    requires FilesOk(cfg, s.files, finished) && OutputsOk(cfg, outputs, finished)
    requires WorkersOk(cfg, s.board, s.files, finished, workers)
    ensures Ok(cfg, s.(outputs := outputs, finished := finished, workers := workers))
  {
  }

  lemma MapEndsOk(cfg: Setting, s: System, w: nat)
    requires Sound(cfg) && Ok(cfg, s) && Enabled(cfg, s, MapEnds(w))
    ensures Ok(cfg, Next(cfg, s, MapEnds(w)))
  {
    assert WorkerOk(cfg, s.board, s.files, s.finished, s.workers[w]);
    var job := Job(Map, s.workers[w].id);
    var finished, worker := s.finished + {job}, Finished(job);
    NothingLater(s.board);
    WorkersPut(cfg, s.board, s.board, s.files, s.files, s.finished, finished, s.workers, w, worker);
    FinishedMoved(cfg, s, s.outputs, finished, s.workers[w := worker]);
    assert Next(cfg, s, MapEnds(w)) ==
        s.(outputs := s.outputs, finished := finished, workers := s.workers[w := worker]);
  }

  /** Reading one more file adds the share of one more input. */
  lemma ShareGrows(cfg: Setting, files: Intermediate, finished: set<Job>, next: nat, id: nat)
    requires FilesOk(cfg, files, finished) && next < |cfg.files|
    requires id < cfg.nReduce && Job(Map, next) in finished
    ensures Name(next, id) in files
    ensures multiset(Share(cfg, next + 1, id)) == multiset(Share(cfg, next, id)) + multiset(files[Name(next, id)])
  {
    var before, now := Inputs(cfg)[..next], Inputs(cfg)[..next + 1];
    assert now[..|now| - 1] == before && now[|now| - 1] == Inputs(cfg)[next];
    PartConcat(AllPairs(before, cfg.mapf), Pairs(cfg, next), cfg.hash, cfg.nReduce, id);
    assert FileOk(cfg, Name(next, id), files[Name(next, id)]);
  }

  lemma ReadsOn(cfg: Setting, b: Board, files: Intermediate, finished: set<Job>, id: nat, nMap: nat, next: nat,
                kva: seq<KeyValue>)
    requires FilesOk(cfg, files, finished) && BoardOk(cfg, b, finished)
    requires WorkerOk(cfg, b, files, finished, Reading(id, nMap, next, kva)) && next < nMap
    ensures Name(next, id) in files
    ensures WorkerOk(cfg, b, files, finished, Reading(id, nMap, next + 1, kva + files[Name(next, id)]))
  {
    assert StatusOf(b, Job(Map, next)) == Completed;
    ShareGrows(cfg, files, finished, next, id);
  }

  lemma ReadFileOk(cfg: Setting, s: System, w: nat)
    requires Sound(cfg) && Ok(cfg, s) && Enabled(cfg, s, ReadFile(w))
    ensures Ok(cfg, Next(cfg, s, ReadFile(w)))
  {
    assert WorkerOk(cfg, s.board, s.files, s.finished, s.workers[w]);
    var Reading(id, nMap, next, kva) := s.workers[w];
    ReadsOn(cfg, s.board, s.files, s.finished, id, nMap, next, kva);
    var worker := Reading(id, nMap, next + 1, kva + s.files[Name(next, id)]);
    WorkerMoved(cfg, s, w, worker);
    FoundFile(cfg, s, w, worker);
  }

  lemma FoundFile(cfg: Setting, s: System, w: nat, worker: Worker)
    requires Sound(cfg) && Enabled(cfg, s, ReadFile(w)) && Name(s.workers[w].next, s.workers[w].id) in s.files
    requires var Reading(id, nMap, next, kva) := s.workers[w];
             worker == Reading(id, nMap, next + 1, kva + s.files[Name(next, id)])
    ensures Next(cfg, s, ReadFile(w)) == Put(s, w, worker)
  {
  }

  /** Only one worker is somewhere else. */
  lemma WorkerMoved(cfg: Setting, s: System, w: nat, worker: Worker)
    requires Ok(cfg, s) && WorkerOk(cfg, s.board, s.files, s.finished, worker)
    ensures Ok(cfg, Put(s, w, worker))
  {
    NothingLater(s.board);
    WorkersPut(cfg, s.board, s.board, s.files, s.files, s.finished, s.finished, s.workers, w, worker);
  }

  lemma OutputWritten(cfg: Setting, outputs: map<nat, seq<Line>>, finished: set<Job>, r: nat, lines: seq<Line>,
                      kva: seq<KeyValue>)
    requires Sound(cfg) && OutputsOk(cfg, outputs, finished) && Produced(lines, kva, cfg.reducef)
    requires r < cfg.nReduce && multiset(kva) == multiset(Share(cfg, |cfg.files|, r))
    ensures OutputsOk(cfg, outputs[r := lines], finished + {Job(Reduce, r)})
  {
    ProducedReports(lines, kva, cfg.reducef);
    ReportsReordered(lines, kva, Share(cfg, |cfg.files|, r), cfg.reducef);
  }

  lemma WriteOutputOk(cfg: Setting, s: System, w: nat, lines: seq<Line>)
    requires Sound(cfg) && Ok(cfg, s) && Enabled(cfg, s, WriteOutput(w, lines))
    ensures Ok(cfg, Next(cfg, s, WriteOutput(w, lines)))
  {
    var id := s.workers[w].id;
    ReaderOk(cfg, s, w);
    OutputOk(cfg, s, w, lines, id, s.workers[w].kva);
    OutputStep(cfg, s, w, lines, id, Finished(Job(Reduce, id)));
  }

  lemma ReaderOk(cfg: Setting, s: System, w: nat)
    requires Ok(cfg, s) && w in s.workers && s.workers[w].Reading?
    ensures var Reading(id, nMap, next, kva) := s.workers[w];
            && id < cfg.nReduce && nMap == |cfg.files| && next <= nMap
            && multiset(kva) == multiset(Share(cfg, next, id))
  {
    assert WorkerOk(cfg, s.board, s.files, s.finished, s.workers[w]);
  }

  lemma OutputOk(cfg: Setting, s: System, w: nat, lines: seq<Line>, id: nat, kva: seq<KeyValue>)
    requires Sound(cfg) && Ok(cfg, s) && Produced(lines, kva, cfg.reducef)
    requires id < cfg.nReduce && multiset(kva) == multiset(Share(cfg, |cfg.files|, id))
    ensures var job := Job(Reduce, id);
            Ok(cfg, s.(outputs := s.outputs[id := lines], finished := s.finished + {job},
                       workers := s.workers[w := Finished(job)]))
  {
    var job := Job(Reduce, id);
    var outputs, finished := s.outputs[id := lines], s.finished + {job};
    OutputWritten(cfg, s.outputs, s.finished, id, lines, kva);
    NothingLater(s.board);
    WorkersPut(cfg, s.board, s.board, s.files, s.files, s.finished, finished, s.workers, w, Finished(job));
    FinishedMoved(cfg, s, outputs, finished, s.workers[w := Finished(job)]);
  }

  lemma OutputStep(cfg: Setting, s: System, w: nat, lines: seq<Line>, id: nat, worker: Worker)
    requires Sound(cfg) && Enabled(cfg, s, WriteOutput(w, lines)) && id == s.workers[w].id
    requires worker == Finished(Job(Reduce, id))
    ensures Next(cfg, s, WriteOutput(w, lines)) ==
            s.(outputs := s.outputs[id := lines], finished := s.finished + {Job(Reduce, id)},
               workers := s.workers[w := worker])
  {
  }

  lemma ReportStepOk(cfg: Setting, s: System, w: nat)
    requires Sound(cfg) && Ok(cfg, s) && Enabled(cfg, s, Report(w))
    ensures Ok(cfg, Next(cfg, s, Report(w)))
  {
    assert WorkerOk(cfg, s.board, s.files, s.finished, s.workers[w]);
    var job := s.workers[w].job;
    var c := ReportTask(s.board, job.kind, job.id);
    ReportOk(cfg, s.board, s.finished, job);
    ReportCounts(s.board, s.handed, s.expired, job);
    WorkersPut(cfg, s.board, c, s.files, s.files, s.finished, s.finished, s.workers, w, Free);
    BoardMoved(cfg, s, c, s.workers[w := Free], s.handed, s.expired);
    assert Next(cfg, s, Report(w)) ==
        s.(board := c, workers := s.workers[w := Free], handed := s.handed, expired := s.expired);
  }

  lemma TimeoutStepOk(cfg: Setting, s: System, late: set<nat>)
    requires Sound(cfg) && Ok(cfg, s) && Enabled(cfg, s, Timeout(late))
    ensures Ok(cfg, Next(cfg, s, Timeout(late)))
  {
    var c, expired := CheckTimeout(s.board, late), Bumped(s.expired, TakenBack(s.board, late));
    TimeoutOk(cfg, s.board, s.finished, late);
    TimeoutCounts(s.board, s.handed, s.expired, late);
    WorkersStay(cfg, s.board, c, s.files, s.finished, s.workers, s.workers);
    BoardMoved(cfg, s, c, s.workers, s.handed, expired);
    assert Next(cfg, s, Timeout(late)) == s.(board := c, workers := s.workers, handed := s.handed, expired := expired);
  }

  lemma LocalStepOk(cfg: Setting, s: System, step: Step)
    requires Sound(cfg) && Ok(cfg, s) && Enabled(cfg, s, step)
    requires step.Join? || step.ReadInput? || step.ReportLost? || step.Crash?
    ensures Ok(cfg, Next(cfg, s, step))
  {
    match step {
      case Join(w) => WorkerMoved(cfg, s, w, Free);
      case ReportLost(w) => WorkerMoved(cfg, s, w, Free);
      case ReadInput(w, kva) =>
        assert WorkerOk(cfg, s.board, s.files, s.finished, s.workers[w]);
        WorkerMoved(cfg, s, w, Writing(s.workers[w].id, s.workers[w].nReduce, kva, 0));
      case Crash(w) =>
        NothingLater(s.board);
        WorkersStay(cfg, s.board, s.board, s.files, s.finished, s.workers, s.workers - {w});
        BoardMoved(cfg, s, s.board, s.workers - {w}, s.handed, s.expired);
    }
  }

  lemma StepOk(cfg: Setting, s: System, step: Step)
    requires Sound(cfg) && Ok(cfg, s) && Enabled(cfg, s, step)
    ensures Ok(cfg, Next(cfg, s, step))
  {
    match step {
      case Ask(w) => AskOk(cfg, s, w);
      case AnswerLost => AnswerLostOk(cfg, s);
      case WriteFile(w) => WriteFileOk(cfg, s, w);
      case MapEnds(w) => MapEndsOk(cfg, s, w);
      case ReadFile(w) => ReadFileOk(cfg, s, w);
      case WriteOutput(w, lines) => WriteOutputOk(cfg, s, w, lines);
      case Report(w) => ReportStepOk(cfg, s, w);
      case Timeout(late) => TimeoutStepOk(cfg, s, late);
      case _ => LocalStepOk(cfg, s, step);
    }
  }

  lemma {:induction false} RunOk(cfg: Setting, r: Run, i: nat)
    requires IsRun(cfg, r) && i < |r.states|
    ensures Ok(cfg, r.states[i])
    decreases i
  {
    if i > 0 {
      RunOk(cfg, r, i - 1);
      StepOk(cfg, r.states[i - 1], r.steps[i - 1]);
    }
  }

  // ----- what follows

  /** Reducing begins only when every map task was carried out to the end and reported; the coordinator is done
      only when every reduce task was, too. */
  lemma PhasesAreEarned(cfg: Setting, r: Run, i: nat, job: Job)
    requires IsRun(cfg, r) && i < |r.states| && Known(r.states[i].board, job)
    ensures var s := r.states[i];
            && (s.board.phase == Reducing && job.kind == Map ==> StatusOf(s.board, job) == Completed)
            && (s.board.done ==> StatusOf(s.board, job) == Completed)
            && (StatusOf(s.board, job) == Completed ==> job in s.finished)
  {
    RunOk(cfg, r, i);
  }

  lemma StepLater(cfg: Setting, s: System, step: Step)
    requires Sound(cfg) && Ok(cfg, s) && Enabled(cfg, s, step)
    ensures Later(s.board, Next(cfg, s, step).board)
  {
    match step {
      case Ask(w) => GetTaskOk(cfg, s.board, s.finished);
      case AnswerLost => GetTaskOk(cfg, s.board, s.finished);
      case Report(w) =>
        assert WorkerOk(cfg, s.board, s.files, s.finished, s.workers[w]);
        ReportOk(cfg, s.board, s.finished, s.workers[w].job);
      case Timeout(late) => TimeoutOk(cfg, s.board, s.finished, late);
      case _ => NothingLater(s.board);
    }
  }

  lemma LaterTrans(a: Board, b: Board, c: Board)
    requires Later(a, b) && Later(b, c)
    ensures Later(a, c)
  {
    forall job | Known(a, job) && StatusOf(a, job) == Completed
      ensures StatusOf(c, job) == Completed
    {
      assert Known(b, job) && StatusOf(b, job) == Completed;
    }
  }

  /** A completed task stays completed, reducing never goes back to mapping, and done stays done. */
  lemma {:induction false} CompletedForGood(cfg: Setting, r: Run, i: nat, j: nat)
    requires IsRun(cfg, r) && i <= j < |r.states|
    ensures Later(r.states[i].board, r.states[j].board)
    decreases j - i
  {
    if i == j {
      NothingLater(r.states[i].board);
    } else {
      CompletedForGood(cfg, r, i, j - 1);
      RunOk(cfg, r, j - 1);
      StepLater(cfg, r.states[j - 1], r.steps[j - 1]);
      LaterTrans(r.states[i].board, r.states[j - 1].board, r.states[j].board);
    }
  }

  /** A task was handed out as often as it timed out, and once more exactly when it is in progress or
      completed. */
  lemma HandOutsAreCounted(cfg: Setting, r: Run, i: nat, job: Job)
    requires IsRun(cfg, r) && i < |r.states| && Known(r.states[i].board, job)
    ensures var s := r.states[i];
            CountOf(s.handed, job) == CountOf(s.expired, job) + if StatusOf(s.board, job) == Idle then 0 else 1
  {
    RunOk(cfg, r, i);
    assert StatusOf(r.states[i].board, job) == StatusOf(r.states[i].board, job);
  }

  function Outputs(s: System, n: nat): seq<seq<Line>> {
    seq(n, r requires 0 <= r < n => if r in s.outputs then s.outputs[r] else [])
  }

  lemma {:induction false} NoPairs(inputs: seq<Input>, mapf: Mapper)
    requires forall i :: 0 <= i < |inputs| ==> mapf(inputs[i].name, inputs[i].content) == []
    ensures AllPairs(inputs, mapf) == []
  {
    if inputs != [] {
      NoPairs(inputs[..|inputs| - 1], mapf);
    }
  }

  /** Without reduce tasks the coordinator is done only if there are no pairs. */
  lemma NothingAtAll(cfg: Setting, r: Run, i: nat)
    requires IsRun(cfg, r) && i < |r.states| && r.states[i].board.done && cfg.nReduce == 0
    ensures AllPairs(Inputs(cfg), cfg.mapf) == []
  {
    RunOk(cfg, r, i);
    forall x | 0 <= x < |cfg.files|
      ensures cfg.mapf(Inputs(cfg)[x].name, Inputs(cfg)[x].content) == []
    {
      PhasesAreEarned(cfg, r, i, Job(Map, x));
      assert Pairs(cfg, x) == [];
    }
    NoPairs(Inputs(cfg), cfg.mapf);
  }

  lemma NothingReported(lines: seq<Line>, reducef: Reducer)
    requires Reports(lines, [], reducef)
    ensures lines == []
  {
    NoLines(lines);
  }

  /** Whatever the schedule was: once the coordinator is done, there is an output file for every reduce task,
      no two of them have a key in common, and together they hold exactly the lines that the sequential
      program writes. */
  lemma DistributedIsSequential(cfg: Setting, r: Run, i: nat, pairs: seq<KeyValue>, lines: seq<Line>)
    requires IsRun(cfg, r) && i < |r.states| && r.states[i].board.done
    requires multiset(pairs) == multiset(AllPairs(Inputs(cfg), cfg.mapf)) && Produced(lines, pairs, cfg.reducef)
    ensures forall q :: 0 <= q < cfg.nReduce ==> q in r.states[i].outputs
    ensures var outs := Outputs(r.states[i], cfg.nReduce);
            && (forall p, q :: 0 <= p < q < |outs| ==> LineKeys(outs[p]) !! LineKeys(outs[q]))
            && (forall line :: line in lines <==> exists q :: 0 <= q < |outs| && line in outs[q])
            && (forall q, j, k :: 0 <= q < |outs| && 0 <= j < k < |outs[q]| ==> Less(outs[q][j].key, outs[q][k].key))
  {
    var s := r.states[i];
    RunOk(cfg, r, i);
    OutputsThere(cfg, r, i);
    var all := AllPairs(Inputs(cfg), cfg.mapf);
    ProducedReports(lines, pairs, cfg.reducef);
    ReportsReordered(lines, pairs, all, cfg.reducef);
    if cfg.nReduce > 0 {
      SharesAreParts(cfg, s);
      PartsMakeWhole(lines, Outputs(s, cfg.nReduce), all, cfg.hash, cfg.reducef);
    } else {
      NothingAtAll(cfg, r, i);
      NothingReported(lines, cfg.reducef);
    }
  }

  lemma OutputsThere(cfg: Setting, r: Run, i: nat)
    requires IsRun(cfg, r) && i < |r.states| && r.states[i].board.done
    ensures forall q :: 0 <= q < cfg.nReduce ==> q in r.states[i].outputs
  {
    RunOk(cfg, r, i);
    forall q | 0 <= q < cfg.nReduce
      ensures q in r.states[i].outputs
    {
      PhasesAreEarned(cfg, r, i, Job(Reduce, q));
    }
  }

  lemma SharesAreParts(cfg: Setting, s: System)
    requires cfg.nReduce > 0 && OutputsOk(cfg, s.outputs, s.finished)
    requires forall q :: 0 <= q < cfg.nReduce ==> q in s.outputs
    ensures var all := AllPairs(Inputs(cfg), cfg.mapf);
            forall q :: 0 <= q < cfg.nReduce ==>
              Reports(Outputs(s, cfg.nReduce)[q], Part(all, cfg.hash, cfg.nReduce, q), cfg.reducef)
  {
    assert Inputs(cfg)[..|cfg.files|] == Inputs(cfg);
  }
}
