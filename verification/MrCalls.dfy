/** The worker's two calls as steps: what DoMap and DoReduce do to the files is what a worker of MrRuns does in the
    steps of a task, when nothing happens in between. */
module MrCalls {
  import opened MrData
  import opened MrWorker
  import opened MrTasks
  import opened MrRuns
  import opened Traces

  lemma RunShaped(cfg: Setting, r: Run)
    requires IsRun(cfg, r)
    ensures Shaped(Last(r.states).board)
  {
    RunOk(cfg, r, |r.states| - 1);
  }

  lemma WriteStep(cfg: Setting, s: System, w: nat, id: nat, nReduce: nat, kva: seq<KeyValue>, k: nat, t: System)
    requires Sound(cfg) && Shaped(t.board) && k < nReduce
    requires t == s.(files := s.files + MapFiles(kva, cfg.hash, nReduce, id, k),
                     workers := s.workers[w := Writing(id, nReduce, kva, k)])
    ensures Enabled(cfg, t, WriteFile(w))
    ensures Next(cfg, t, WriteFile(w)) ==
            s.(files := s.files + MapFiles(kva, cfg.hash, nReduce, id, k + 1),
               workers := s.workers[w := Writing(id, nReduce, kva, k + 1)])
  {
    MapFilesNext(s.files, kva, cfg.hash, nReduce, id, k);
    assert s.workers[w := Writing(id, nReduce, kva, k)][w := Writing(id, nReduce, kva, k + 1)] ==
        s.workers[w := Writing(id, nReduce, kva, k + 1)];
  }

  lemma {:induction false} WritesAlone(cfg: Setting, r: Run, w: nat, id: nat, nReduce: nat, kva: seq<KeyValue>, k: nat)
    returns (q: Run)
    requires IsRun(cfg, r) && w in Last(r.states).workers
    requires Last(r.states).workers[w] == Writing(id, nReduce, kva, 0) && k <= nReduce && nReduce > 0
    ensures IsRun(cfg, q) && r.states <= q.states
    ensures var s := Last(r.states);
            Last(q.states) == s.(files := s.files + MapFiles(kva, cfg.hash, nReduce, id, k),
                                 workers := s.workers[w := Writing(id, nReduce, kva, k)])
  {
    var s := Last(r.states);
    if k == 0 {
      q := r;
      assert s.files + MapFiles(kva, cfg.hash, nReduce, id, 0) == s.files;
      assert s.workers[w := Writing(id, nReduce, kva, 0)] == s.workers;
    } else {
      var p := WritesAlone(cfg, r, w, id, nReduce, kva, k - 1);
      RunShaped(cfg, p);
      WriteStep(cfg, s, w, id, nReduce, kva, k - 1, Last(p.states));
      q := Extended(cfg, p, WriteFile(w));
    }
  }

  lemma ReadStep(cfg: Setting, s: System, w: nat, id: nat, nMap: nat, k: nat, t: System)
    requires Sound(cfg) && Shaped(t.board) && k < nMap
    requires t == s.(workers := s.workers[w := Reading(id, nMap, k, Collected(s.files, k, id))])
    ensures Enabled(cfg, t, ReadFile(w))
    ensures Next(cfg, t, ReadFile(w)) ==
            s.(workers := s.workers[w := Reading(id, nMap, k + 1, Collected(s.files, k + 1, id))])
  {
    var now := Reading(id, nMap, k, Collected(s.files, k, id));
    var next := Reading(id, nMap, k + 1, Collected(s.files, k + 1, id));
    assert s.workers[w := now][w := next] == s.workers[w := next];
  }

  lemma {:induction false} ReadsAlone(cfg: Setting, r: Run, w: nat, id: nat, nMap: nat, k: nat) returns (q: Run)
    requires IsRun(cfg, r) && w in Last(r.states).workers
    requires Last(r.states).workers[w] == Reading(id, nMap, 0, []) && k <= nMap
    ensures IsRun(cfg, q) && r.states <= q.states
    ensures var s := Last(r.states);
            Last(q.states) == s.(workers := s.workers[w := Reading(id, nMap, k, Collected(s.files, k, id))])
  {
    var s := Last(r.states);
    if k == 0 {
      q := r;
      assert s.workers[w := Reading(id, nMap, 0, [])] == s.workers;
    } else {
      var p := ReadsAlone(cfg, r, w, id, nMap, k - 1);
      RunShaped(cfg, p);
      ReadStep(cfg, s, w, id, nMap, k - 1, Last(p.states));
      q := Extended(cfg, p, ReadFile(w));
    }
  }

  /** A map task that is carried out at once leaves exactly the files that DoMap leaves. */
  lemma MapsAlone(cfg: Setting, r: Run, w: nat, id: nat, file: string, nReduce: nat, kva: seq<KeyValue>)
    returns (q: Run)
    requires IsRun(cfg, r) && w in Last(r.states).workers
    requires Last(r.states).workers[w] == HasMap(id, file, nReduce) && nReduce > 0
    requires multiset(kva) == multiset(PairsOf(cfg, file))
    ensures IsRun(cfg, q) && r.states <= q.states
    ensures var s, t := Last(r.states), Last(q.states);
            && t.files == s.files + MapFiles(kva, cfg.hash, nReduce, id, nReduce) && t.outputs == s.outputs
            && w in t.workers && t.workers[w] == Finished(Job(Map, id)) && Job(Map, id) in t.finished
  {
    RunOk(cfg, r, |r.states| - 1);
    q := Extended(cfg, r, ReadInput(w, kva));
    q := WritesAlone(cfg, q, w, id, nReduce, kva, nReduce);
    RunOk(cfg, q, |q.states| - 1);
    q := Extended(cfg, q, MapEnds(w));
  }

  /** A reduce task that is carried out at once leaves exactly the output that DoReduce leaves. */
  lemma ReducesAlone(cfg: Setting, r: Run, w: nat, id: nat, nMap: nat, lines: seq<Line>) returns (q: Run)
    requires IsRun(cfg, r) && w in Last(r.states).workers
    requires Last(r.states).workers[w] == Reading(id, nMap, 0, [])
    requires Produced(lines, Collected(Last(r.states).files, nMap, id), cfg.reducef)
    ensures IsRun(cfg, q) && r.states <= q.states
    ensures var s, t := Last(r.states), Last(q.states);
            && t.files == s.files && t.outputs == s.outputs[id := lines]
            && w in t.workers && t.workers[w] == Finished(Job(Reduce, id)) && Job(Reduce, id) in t.finished
  {
    q := ReadsAlone(cfg, r, w, id, nMap, nMap);
    RunOk(cfg, q, |q.states| - 1);
    q := Extended(cfg, q, WriteOutput(w, lines));
  }
}
