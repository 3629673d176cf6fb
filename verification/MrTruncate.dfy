/** Files are created before they are written, and written bit by bit: creating truncates in place what an
    earlier execution of the task left there.  A course in which no reduce task reads such a file is a run of
    MrRuns. */
module MrTruncate {
  import opened MrData
  import opened MrWorker
  import opened MrTasks
  import opened MrRuns
  import opened Traces

  /** `torn` and `tornOutputs` are the files that were created and have not been written to the end since;
      `started` are the workers that have created the file they write next. */
  datatype Shop = Shop(system: System, torn: set<Name>, tornOutputs: set<nat>, started: set<nat>)

  /** WriteSome and PrintSome leave the first n pairs or lines in the file; the last one is written by the
      step of MrRuns. */
  datatype Action =
    | CreateFile(w: nat)
    | WriteSome(w: nat, n: nat)
    | CreateOutput(w: nat)
    | PrintSome(w: nat, lines: seq<Line>, n: nat)
    | Other(step: Step)

  /** The share of the pairs that goes into the file a worker writes next. */
  function NextPart(cfg: Setting, worker: Worker): seq<KeyValue>
    requires worker.Writing? && worker.next < worker.nReduce
  {
    Part(worker.kva, cfg.hash, worker.nReduce, worker.next)
  }

  ghost predicate Possible(cfg: Setting, c: Shop, action: Action) {
    var workers := c.system.workers;
    match action
    case CreateFile(w) =>
      w in workers && workers[w].Writing? && workers[w].next < workers[w].nReduce && w !in c.started
    case WriteSome(w, n) =>
      w in workers && workers[w].Writing? && workers[w].next < workers[w].nReduce && w in c.started
      && n < |NextPart(cfg, workers[w])|
    case CreateOutput(w) =>
      w in workers && workers[w].Reading? && workers[w].next >= workers[w].nMap && w !in c.started
    case PrintSome(w, lines, n) =>
      w in workers && workers[w].Reading? && workers[w].next >= workers[w].nMap && w in c.started
      && Produced(lines, workers[w].kva, cfg.reducef) && n < |lines|
    case Other(step) =>
      Enabled(cfg, c.system, step) && (step.WriteFile? || step.WriteOutput? ==> step.w in c.started)
  }

  function Tear(c: Shop, name: Name, kva: seq<KeyValue>): Shop {
    c.(system := c.system.(files := c.system.files[name := kva]), torn := c.torn + {name})
  }

  function TearOutput(c: Shop, r: nat, lines: seq<Line>): Shop {
    c.(system := c.system.(outputs := c.system.outputs[r := lines]), tornOutputs := c.tornOutputs + {r})
  }

  ghost function After(cfg: Setting, c: Shop, action: Action): Shop
    requires Sound(cfg) && Possible(cfg, c, action)
  {
    var workers := c.system.workers;
    match action
    case CreateFile(w) => Tear(c, Name(workers[w].id, workers[w].next), []).(started := c.started + {w})
    case WriteSome(w, n) => Tear(c, Name(workers[w].id, workers[w].next), NextPart(cfg, workers[w])[..n])
    case CreateOutput(w) => TearOutput(c, workers[w].id, []).(started := c.started + {w})
    case PrintSome(w, lines, n) => TearOutput(c, workers[w].id, lines[..n])
    case Other(step) =>
      var d := c.(system := Next(cfg, c.system, step));
      match step
      case WriteFile(w) => d.(torn := c.torn - {Name(workers[w].id, workers[w].next)}, started := c.started - {w})
      case WriteOutput(w, _) => d.(tornOutputs := c.tornOutputs - {workers[w].id}, started := c.started - {w})
      case Crash(w) => d.(started := c.started - {w})
      case _ => d
  }

  datatype Course = Course(states: seq<Shop>, actions: seq<Action>)

  function Opening(cfg: Setting): Shop {
    Shop(Start(cfg), {}, {}, {})
  }

  ghost predicate IsCourse(cfg: Setting, b: Course) {
    && Sound(cfg) && |b.states| == |b.actions| + 1 && b.states[0] == Opening(cfg)
    && forall i :: 0 <= i < |b.actions| ==>
         Possible(cfg, b.states[i], b.actions[i]) && b.states[i + 1] == After(cfg, b.states[i], b.actions[i])
  }

  /** The pairs that map task i makes for reduce task r. */
  function Due(cfg: Setting, i: nat, r: nat): seq<KeyValue>
    requires i < |cfg.files| && cfg.nReduce > 0
  {
    Part(Pairs(cfg, i), cfg.hash, cfg.nReduce, r)
  }

  /** A reduce task does not read a file that is not written to the end, unless it has to be empty. */
  ghost predicate Guarded(cfg: Setting, c: Shop, action: Action) {
    var workers := c.system.workers;
    action.Other? && action.step.ReadFile? && action.step.w in workers && workers[action.step.w].Reading?
    && workers[action.step.w].next < |cfg.files| && cfg.nReduce > 0 ==>
      var Reading(id, _, next, _) := workers[action.step.w];
      Name(next, id) in c.torn ==> Due(cfg, next, id) == []
  }

  ghost predicate GuardedUpTo(cfg: Setting, b: Course, k: nat) {
    k <= |b.actions| && k < |b.states| && forall i :: 0 <= i < k ==> Guarded(cfg, b.states[i], b.actions[i])
  }

  // ----- the run behind it

  /** A file that is not written to the end: empty, or shorter than it has to be. */
  ghost predicate CutFile(cfg: Setting, name: Name, kva: seq<KeyValue>) {
    kva == [] ||
    (name.mapTask < |cfg.files| && name.reduceTask < cfg.nReduce &&
     |kva| < |Due(cfg, name.mapTask, name.reduceTask)|)
  }

  /** The pairs of all inputs that belong to reduce task q. */
  function AllDue(cfg: Setting, q: nat): seq<KeyValue>
    requires cfg.nReduce > 0
  {
    Part(AllPairs(Inputs(cfg), cfg.mapf), cfg.hash, cfg.nReduce, q)
  }

  /** An output that is not written to the end: empty, or the beginning of what it has to be. */
  ghost predicate CutOutput(cfg: Setting, r: nat, lines: seq<Line>) {
    lines == [] ||
    (r < cfg.nReduce && exists full :: Reports(full, AllDue(cfg, r), cfg.reducef) && lines < full)
  }

  /** The file is as it would be if files were written at once, or cut. */
  ghost predicate SameFiles(cfg: Setting, now: Intermediate, whole: Intermediate, torn: set<Name>) {
    forall name :: if name in torn then name in now && CutFile(cfg, name, now[name])
                   else (name in now <==> name in whole) && (name in now ==> now[name] == whole[name])
  }

  ghost predicate SameOutputs(cfg: Setting, now: map<nat, seq<Line>>, whole: map<nat, seq<Line>>, torn: set<nat>) {
    forall r: nat :: if r in torn then r in now && CutOutput(cfg, r, now[r])
                     else (r in now <==> r in whole) && (r in now ==> now[r] == whole[r])
  }

  ghost predicate Mirrors(cfg: Setting, c: Shop, s: System) {
    && c.system == s.(files := c.system.files, outputs := c.system.outputs)
    && SameFiles(cfg, c.system.files, s.files, c.torn) && SameOutputs(cfg, c.system.outputs, s.outputs, c.tornOutputs)
  }

  lemma Acted(cfg: Setting, b: Course, action: Action) returns (d: Course)
    requires IsCourse(cfg, b) && Possible(cfg, Last(b.states), action)
    ensures IsCourse(cfg, d) && d.actions == b.actions + [action]
    ensures d.states == b.states + [After(cfg, Last(b.states), action)]
  {
    var next := After(cfg, Last(b.states), action);
    LinkedOn(b.states, b.actions,
             (s, e, t) => Sound(cfg) && Possible(cfg, s, e) && t == After(cfg, s, e), action, next);
    d := Course(b.states + [next], b.actions + [action]);
  }

  /** What is in the file for a reduce task now. */
  function Contents(files: Intermediate, name: Name): seq<KeyValue> {
    if name in files then files[name] else []
  }

  lemma SameSize(a: seq<KeyValue>, b: seq<KeyValue>)
    requires multiset(a) == multiset(b)
    ensures |a| == |b|
  {
    assert |a| == |multiset(a)| && |b| == |multiset(b)|;
  }

  /** What a reader gets is what it would get if files were written at once. */
  lemma GetsSame(cfg: Setting, c: Shop, s: System, w: nat)
    requires Sound(cfg) && Mirrors(cfg, c, s) && Ok(cfg, s) && Enabled(cfg, c.system, ReadFile(w))
    requires Guarded(cfg, c, Other(ReadFile(w)))
    ensures var worker := s.workers[w];
            Contents(c.system.files, Name(worker.next, worker.id)) == Contents(s.files, Name(worker.next, worker.id))
  {
    var Reading(id, nMap, next, kva) := s.workers[w];
    assert WorkerOk(cfg, s.board, s.files, s.finished, s.workers[w]);
    if Name(next, id) in c.torn && Name(next, id) in s.files {
      assert FileOk(cfg, Name(next, id), s.files[Name(next, id)]);
      SameSize(s.files[Name(next, id)], Due(cfg, next, id));
    }
  }

  lemma ReadsSame(cfg: Setting, c: Shop, s: System, w: nat)
    requires Sound(cfg) && Mirrors(cfg, c, s) && Ok(cfg, s) && Enabled(cfg, c.system, ReadFile(w))
    requires Guarded(cfg, c, Other(ReadFile(w)))
    ensures Enabled(cfg, s, ReadFile(w))
    ensures Mirrors(cfg, After(cfg, c, Other(ReadFile(w))), Next(cfg, s, ReadFile(w)))
  {
    GetsSame(cfg, c, s, w);
    ReadStep(cfg, s, w);
    ReadStep(cfg, c.system, w);
    AfterOther(cfg, c, ReadFile(w));
  }

  lemma ReadStep(cfg: Setting, s: System, w: nat)
    requires Sound(cfg) && Enabled(cfg, s, ReadFile(w))
    ensures var Reading(id, nMap, next, kva) := s.workers[w];
            Next(cfg, s, ReadFile(w)) == Put(s, w, Reading(id, nMap, next + 1, kva + Contents(s.files, Name(next, id))))
  {
  }

  lemma WritesSame(cfg: Setting, c: Shop, s: System, step: Step)
    requires Sound(cfg) && Mirrors(cfg, c, s) && Possible(cfg, c, Other(step)) && (step.WriteFile? || step.WriteOutput?)
    ensures Enabled(cfg, s, step) && Mirrors(cfg, After(cfg, c, Other(step)), Next(cfg, s, step))
  {
  }

  /** What is in the files matters to no other step. */
  lemma Unread(cfg: Setting, s: System, files: Intermediate, outputs: map<nat, seq<Line>>, step: Step)
    requires Sound(cfg) && Enabled(cfg, s, step) && !step.ReadFile? && !step.WriteFile? && !step.WriteOutput?
    ensures var now := s.(files := files, outputs := outputs);
            Enabled(cfg, now, step) && Next(cfg, now, step) == Next(cfg, s, step).(files := files, outputs := outputs)
    ensures Next(cfg, s, step).files == s.files && Next(cfg, s, step).outputs == s.outputs
  {
    if step.Ask? || step.AnswerLost? {
      UnreadAsk(cfg, s, files, outputs, step);
    }
  }

  lemma UnreadAsk(cfg: Setting, s: System, files: Intermediate, outputs: map<nat, seq<Line>>, step: Step)
    requires Sound(cfg) && Enabled(cfg, s, step) && (step.Ask? || step.AnswerLost?)
    ensures var now := s.(files := files, outputs := outputs);
            Enabled(cfg, now, step) && Next(cfg, now, step) == Next(cfg, s, step).(files := files, outputs := outputs)
    ensures Next(cfg, s, step).files == s.files && Next(cfg, s, step).outputs == s.outputs
  {
    var (b, task) := GetTask(s.board);
    match step {
      case AnswerLost => assert Next(cfg, s, step) == s.(board := b, handed := Handed(s.handed, task));
      case Ask(w) =>
        AskAnswered(cfg, s, w, b, task);
        AskAnswered(cfg, s.(files := files, outputs := outputs), w, b, task);
    }
  }

  lemma OthersSame(cfg: Setting, c: Shop, s: System, step: Step)
    requires Sound(cfg) && Mirrors(cfg, c, s) && Possible(cfg, c, Other(step))
    requires !step.ReadFile? && !step.WriteFile? && !step.WriteOutput?
    ensures Enabled(cfg, s, step) && Mirrors(cfg, After(cfg, c, Other(step)), Next(cfg, s, step))
  {
    assert s == c.system.(files := s.files, outputs := s.outputs);
    Unread(cfg, c.system, s.files, s.outputs, step);
    Unread(cfg, s, c.system.files, c.system.outputs, step);
    AfterOther(cfg, c, step);
  }

  lemma AfterOther(cfg: Setting, c: Shop, step: Step)
    requires Sound(cfg) && Possible(cfg, c, Other(step)) && !step.WriteFile? && !step.WriteOutput?
    ensures var d := After(cfg, c, Other(step));
            d.system == Next(cfg, c.system, step) && d.torn == c.torn && d.tornOutputs == c.tornOutputs
  {
  }

  /** Before it is written to the end, a file is shorter than it has to be. */
  lemma PartIsCut(cfg: Setting, s: System, w: nat, n: nat)
    requires Ok(cfg, s) && w in s.workers && s.workers[w].Writing? && s.workers[w].next < s.workers[w].nReduce
    requires n < |NextPart(cfg, s.workers[w])|
    ensures CutFile(cfg, Name(s.workers[w].id, s.workers[w].next), NextPart(cfg, s.workers[w])[..n])
  {
    assert WorkerOk(cfg, s.board, s.files, s.finished, s.workers[w]);
    var Writing(id, nReduce, kva, next) := s.workers[w];
    PartReordered(kva, Pairs(cfg, id), cfg.hash, cfg.nReduce, next);
    SameSize(NextPart(cfg, s.workers[w]), Due(cfg, id, next));
  }

  /** Before it is written to the end, an output is the beginning of what it has to be. */
  lemma LinesAreCut(cfg: Setting, s: System, w: nat, lines: seq<Line>, n: nat)
    requires Sound(cfg) && Ok(cfg, s) && w in s.workers && s.workers[w].Reading?
    requires s.workers[w].next >= s.workers[w].nMap && Produced(lines, s.workers[w].kva, cfg.reducef) && n < |lines|
    ensures CutOutput(cfg, s.workers[w].id, lines[..n])
  {
    assert WorkerOk(cfg, s.board, s.files, s.finished, s.workers[w]);
    var Reading(id, nMap, next, kva) := s.workers[w];
    assert Inputs(cfg)[..|cfg.files|] == Inputs(cfg);
    ProducedReports(lines, kva, cfg.reducef);
    ReportsReordered(lines, kva, AllDue(cfg, id), cfg.reducef);
    assert lines[..n] < lines;
  }

  /** Creating a file, or writing some of it, leaves no trace in the run. */
  lemma TearsSame(cfg: Setting, c: Shop, s: System, action: Action)
    requires Sound(cfg) && Mirrors(cfg, c, s) && Ok(cfg, s) && Possible(cfg, c, action) && !action.Other?
    ensures Mirrors(cfg, After(cfg, c, action), s)
  {
    match action {
      case WriteSome(w, n) => PartIsCut(cfg, s, w, n);
      case PrintSome(w, lines, n) => LinesAreCut(cfg, s, w, lines, n);
      case _ =>
    }
  }

  /** As long as no reduce task reads a file that is not written to the end, there is a run of MrRuns whose
      state is the same but for the files that are torn now. */
  lemma {:induction false} GuardedIsRun(cfg: Setting, b: Course, k: nat) returns (r: Run)
    requires IsCourse(cfg, b) && GuardedUpTo(cfg, b, k)
    ensures IsRun(cfg, r) && Mirrors(cfg, b.states[k], Last(r.states))
    decreases k
  {
    if k == 0 {
      r := Run([Start(cfg)], []);
    } else {
      r := GuardedIsRun(cfg, b, k - 1);
      var c, action := b.states[k - 1], b.actions[k - 1];
      assert Possible(cfg, c, action) && b.states[k] == After(cfg, c, action) && Guarded(cfg, c, action);
      RunOk(cfg, r, |r.states| - 1);
      if action.Other? {
        StepSame(cfg, c, Last(r.states), action.step);
        r := Extended(cfg, r, action.step);
      } else {
        TearsSame(cfg, c, Last(r.states), action);
      }
    }
  }

  lemma StepSame(cfg: Setting, c: Shop, s: System, step: Step)
    requires Sound(cfg) && Mirrors(cfg, c, s) && Ok(cfg, s)
    requires Possible(cfg, c, Other(step)) && Guarded(cfg, c, Other(step))
    ensures Enabled(cfg, s, step) && Mirrors(cfg, After(cfg, c, Other(step)), Next(cfg, s, step))
  {
    if step.ReadFile? {
      ReadsSame(cfg, c, s, step.w);
    } else if step.WriteFile? || step.WriteOutput? {
      WritesSame(cfg, c, s, step);
    } else {
      OthersSame(cfg, c, s, step);
    }
  }

  // ----- what a reduce task reads

  /** As long as all reads before were guarded, a reduce task gets the pairs that the map task made for it
      exactly if this one is guarded, too. */
  lemma GetsItsDue(cfg: Setting, b: Course, k: nat, w: nat)
    requires IsCourse(cfg, b) && GuardedUpTo(cfg, b, k) && k < |b.actions| && b.actions[k] == Other(ReadFile(w))
    ensures var c := b.states[k];
            && cfg.nReduce > 0 && w in c.system.workers && c.system.workers[w].Reading?
            && var Reading(id, _, next, _) := c.system.workers[w];
               && next < |cfg.files|
               && (multiset(Contents(c.system.files, Name(next, id))) == multiset(Due(cfg, next, id)) <==>
                   Guarded(cfg, c, b.actions[k]))
  {
    var r := GuardedIsRun(cfg, b, k);
    RunOk(cfg, r, |r.states| - 1);
    assert Possible(cfg, b.states[k], b.actions[k]);
    GetsDue(cfg, b.states[k], Last(r.states), w);
  }

  lemma GetsDue(cfg: Setting, c: Shop, s: System, w: nat)
    requires Sound(cfg) && Mirrors(cfg, c, s) && Ok(cfg, s) && Enabled(cfg, c.system, ReadFile(w))
    ensures var Reading(id, _, next, _) := c.system.workers[w];
            && cfg.nReduce > 0
            && (multiset(Contents(c.system.files, Name(next, id))) == multiset(Due(cfg, next, id)) <==>
                Guarded(cfg, c, Other(ReadFile(w))))
  {
    var Reading(id, nMap, next, kva) := s.workers[w];
    assert WorkerOk(cfg, s.board, s.files, s.finished, s.workers[w]);
    ReadsOn(cfg, s.board, s.files, s.finished, id, nMap, next, kva);
    assert FileOk(cfg, Name(next, id), s.files[Name(next, id)]);
    if Guarded(cfg, c, Other(ReadFile(w))) {
      GetsSame(cfg, c, s, w);
    } else if multiset(Contents(c.system.files, Name(next, id))) == multiset(Due(cfg, next, id)) {
      SameSize(Contents(c.system.files, Name(next, id)), Due(cfg, next, id));
    }
  }

  // ----- what is in the output files

  lemma NothingDue(lines: seq<Line>, kva: seq<KeyValue>, reducef: Reducer)
    requires Reports(lines, kva, reducef)
    ensures lines == [] <==> kva == []
  {
    NoLines(lines);
    if kva != [] {
      assert kva[0].key in Keys(kva);
    }
  }

  lemma OnlyThere(a: seq<Line>, b: seq<Line>, line: Line)
    requires LineKeys(a) !! LineKeys(b) && line in a
    ensures line !in b
  {
    assert line.key in LineKeys(a);
    assert line in b ==> line.key in LineKeys(b);
  }

  ghost predicate Apart(outs: seq<seq<Line>>) {
    forall p, q :: 0 <= p < q < |outs| ==> LineKeys(outs[p]) !! LineKeys(outs[q])
  }

  ghost predicate Together(lines: seq<Line>, outs: seq<seq<Line>>) {
    forall line :: line in lines <==> exists q :: 0 <= q < |outs| && line in outs[q]
  }

  ghost predicate Ascending(lines: seq<Line>) {
    forall j, k :: 0 <= j < k < |lines| ==> Less(lines[j].key, lines[k].key)
  }

  /** The output is whole, or the beginning of it, and less if there is anything. */
  ghost predicate CutFrom(now: seq<Line>, whole: seq<Line>) {
    now <= whole && (now == whole ==> whole == [])
  }

  lemma FewerKeys(now: seq<Line>, whole: seq<Line>)
    requires now <= whole
    ensures LineKeys(now) <= LineKeys(whole)
  {
    assert forall line :: line in now ==> line in whole;
  }

  lemma FirstMissing(now: seq<Line>, whole: seq<Line>)
    requires now < whole && Ascending(whole)
    ensures whole[|now|] !in now
  {
    if whole[|now|] in now {
      var j :| 0 <= j < |now| && now[j] == whole[|now|];
      assert whole[j] == whole[|now|];
      LessTotal(whole[j].key, whole[j].key);
    }
  }

  lemma CutsApart(whole: seq<seq<Line>>, outs: seq<seq<Line>>)
    requires |outs| == |whole| && Apart(whole) && forall q :: 0 <= q < |outs| ==> outs[q] <= whole[q]
    ensures Apart(outs)
  {
    forall p, q | 0 <= p < q < |outs|
      ensures LineKeys(outs[p]) !! LineKeys(outs[q])
    {
      FewerKeys(outs[p], whole[p]);
      FewerKeys(outs[q], whole[q]);
    }
  }

  /** A line that is cut off in one output is in none. */
  lemma LineMissing(whole: seq<seq<Line>>, outs: seq<seq<Line>>, q: nat)
    requires |outs| == |whole| && Apart(whole) && forall p :: 0 <= p < |outs| ==> outs[p] <= whole[p]
    requires q < |outs| && outs[q] < whole[q] && Ascending(whole[q])
    ensures forall p :: 0 <= p < |outs| ==> whole[q][|outs[q]|] !in outs[p]
  {
    var line := whole[q][|outs[q]|];
    FirstMissing(outs[q], whole[q]);
    forall p | 0 <= p < |outs|
      ensures line !in outs[p]
    {
      if p < q || q < p {
        OnlyThere(whole[q], whole[p], line);
        assert forall x :: x in outs[p] ==> x in whole[p];
      }
    }
  }

  /** Cutting some of the outputs loses a line exactly if one of them had any. */
  lemma CutOutputs(lines: seq<Line>, whole: seq<seq<Line>>, outs: seq<seq<Line>>, torn: set<nat>)
    requires |outs| == |whole| && Apart(whole) && Together(lines, whole)
    requires forall q :: 0 <= q < |whole| ==> Ascending(whole[q])
    requires forall q :: 0 <= q < |outs| ==> if q in torn then CutFrom(outs[q], whole[q]) else outs[q] == whole[q]
    ensures Apart(outs)
    ensures Together(lines, outs) <==> forall q :: 0 <= q < |whole| && q in torn ==> whole[q] == []
  {
    assert forall q :: 0 <= q < |outs| ==> outs[q] <= whole[q];
    CutsApart(whole, outs);
    if q: nat :| q < |whole| && q in torn && whole[q] != [] {
      assert CutFrom(outs[q], whole[q]);
      LineMissing(whole, outs, q);
      var line := whole[q][|outs[q]|];
      assert line in whole[q] && line in lines;
    } else {
      assert outs == whole;
    }
  }

  /** If every read was guarded, then once the coordinator is done every output file exists, no two have a key
      in common, and together they hold exactly the lines of the sequential program, if and only if every
      output file that is not written to the end belongs to a reduce task that has no pairs. */
  lemma GuardedIsSequential(cfg: Setting, b: Course, k: nat, pairs: seq<KeyValue>, lines: seq<Line>)
    requires IsCourse(cfg, b) && GuardedUpTo(cfg, b, k) && b.states[k].system.board.done
    requires multiset(pairs) == multiset(AllPairs(Inputs(cfg), cfg.mapf)) && Produced(lines, pairs, cfg.reducef)
    ensures forall q :: 0 <= q < cfg.nReduce ==> q in b.states[k].system.outputs
    ensures Apart(Outputs(b.states[k].system, cfg.nReduce))
    ensures Together(lines, Outputs(b.states[k].system, cfg.nReduce)) <==>
            forall q :: 0 <= q < cfg.nReduce && q in b.states[k].tornOutputs ==> AllDue(cfg, q) == []
  {
    var r := GuardedIsRun(cfg, b, k);
    var c, s, i := b.states[k], Last(r.states), |r.states| - 1;
    DistributedIsSequential(cfg, r, i, pairs, lines);
    RunOk(cfg, r, i);
    WholeOutputs(cfg, s);
    NowOutputs(cfg, c, s);
    CutOutputs(lines, Outputs(s, cfg.nReduce), Outputs(c.system, cfg.nReduce), c.tornOutputs);
  }

  lemma WholeOutputs(cfg: Setting, s: System)
    requires OutputsOk(cfg, s.outputs, s.finished) && forall q :: 0 <= q < cfg.nReduce ==> q in s.outputs
    ensures forall q :: 0 <= q < cfg.nReduce ==>
              && Reports(Outputs(s, cfg.nReduce)[q], AllDue(cfg, q), cfg.reducef)
              && (Outputs(s, cfg.nReduce)[q] == [] <==> AllDue(cfg, q) == [])
  {
    assert Inputs(cfg)[..|cfg.files|] == Inputs(cfg);
    forall q | 0 <= q < cfg.nReduce
      ensures Reports(Outputs(s, cfg.nReduce)[q], AllDue(cfg, q), cfg.reducef)
      ensures Outputs(s, cfg.nReduce)[q] == [] <==> AllDue(cfg, q) == []
    {
      NothingDue(s.outputs[q], AllDue(cfg, q), cfg.reducef);
    }
  }

  lemma NowOutputs(cfg: Setting, c: Shop, s: System)
    requires SameOutputs(cfg, c.system.outputs, s.outputs, c.tornOutputs)
    requires forall q :: 0 <= q < cfg.nReduce ==> q in s.outputs
    requires forall q :: 0 <= q < cfg.nReduce ==> Reports(Outputs(s, cfg.nReduce)[q], AllDue(cfg, q), cfg.reducef)
    ensures forall q :: 0 <= q < cfg.nReduce ==> q in c.system.outputs
    ensures var whole, outs := Outputs(s, cfg.nReduce), Outputs(c.system, cfg.nReduce);
            forall q :: 0 <= q < cfg.nReduce ==>
              if q in c.tornOutputs then CutFrom(outs[q], whole[q]) else outs[q] == whole[q]
  {
    forall q | 0 <= q < cfg.nReduce && q in c.tornOutputs && c.system.outputs[q] != []
      ensures CutFrom(c.system.outputs[q], Outputs(s, cfg.nReduce)[q])
    {
      assert CutOutput(cfg, q, c.system.outputs[q]);
      var full :| Reports(full, AllDue(cfg, q), cfg.reducef) && c.system.outputs[q] < full;
      ReportsUnique(full, Outputs(s, cfg.nReduce)[q], AllDue(cfg, q), cfg.reducef);
    }
  }
}
