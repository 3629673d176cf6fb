/** What a worker does with one task, and the sequential program. */
module MrWorker {
  import opened MrData

  datatype Name = Name(mapTask: nat, reduceTask: nat)

  type Intermediate = map<Name, seq<KeyValue>>
  type Mapper = (string, string) -> seq<KeyValue>

  /** The directory that all workers share.  A file of pairs is the list it encodes. */
  class Files {
    var intermediate: Intermediate
    var outputs: map<nat, seq<Line>>

    constructor ()
      ensures intermediate == map[] && outputs == map[]
    {
      intermediate, outputs := map[], map[];
    }
  }

  /** The files of one map task with these pairs. */
  function MapFiles(kva: seq<KeyValue>, hash: Hash, n: nat, task: nat, upTo: nat): Intermediate
    requires n > 0
  {
    map r: nat | r < upTo :: Name(task, r) := Part(kva, hash, n, r)
  }

  /** What a reduce task finds: the pairs of its files, in the order of the map tasks; a missing file counts
      as empty. */
  function Collected(files: Intermediate, nMap: nat, task: nat): seq<KeyValue> {
    if nMap == 0 then []
    else Collected(files, nMap - 1, task) + if Name(nMap - 1, task) in files then files[Name(nMap - 1, task)] else []
  }

  // ----- map

  lemma MapFilesNext(files: Intermediate, kva: seq<KeyValue>, hash: Hash, n: nat, task: nat, i: nat)
    requires n > 0
    ensures files + MapFiles(kva, hash, n, task, i + 1) ==
            (files + MapFiles(kva, hash, n, task, i))[Name(task, i) := Part(kva, hash, n, i)]
  {
    var now, next := MapFiles(kva, hash, n, task, i), MapFiles(kva, hash, n, task, i + 1);
    forall x: Name ensures x in next <==> x in now || x == Name(task, i) {
      if x in next {
        var r: nat :| r < i + 1 && x == Name(task, r);
      }
      if x in now {
        var r: nat :| r < i && x == Name(task, r);
      }
    }
  }

  method PartitionPairs(kva: seq<KeyValue>, hash: Hash, nReduce: nat) returns (partitions: array<seq<KeyValue>>)
    requires nReduce > 0
    ensures fresh(partitions) && partitions.Length == nReduce
    ensures forall r :: 0 <= r < nReduce ==> partitions[r] == Part(kva, hash, nReduce, r)
  {
    partitions := new seq<KeyValue>[nReduce](_ => []);
    for k := 0 to |kva|
      invariant forall r :: 0 <= r < nReduce ==> partitions[r] == Part(kva[..k], hash, nReduce, r)
    {
      assert kva[..k + 1][..k] == kva[..k];
      var idx := hash(kva[k].key) % nReduce;
      partitions[idx] := partitions[idx] + [kva[k]];
    }
    assert kva[..|kva|] == kva;
  }

  method DoMap(files: Files, task: nat, nReduce: nat, kva: seq<KeyValue>, hash: Hash)
    requires nReduce > 0
    modifies files
    ensures files.intermediate == old(files.intermediate) + MapFiles(kva, hash, nReduce, task, nReduce)
    ensures files.outputs == old(files.outputs)
  {
    var partitions := PartitionPairs(kva, hash, nReduce);
    for i := 0 to nReduce
      invariant files.outputs == old(files.outputs)
      invariant files.intermediate == old(files.intermediate) + MapFiles(kva, hash, nReduce, task, i)
      invariant forall r :: 0 <= r < nReduce ==> partitions[r] == Part(kva, hash, nReduce, r)
    {
      MapFilesNext(old(files.intermediate), kva, hash, nReduce, task, i);
      files.intermediate := files.intermediate[Name(task, i) := partitions[i]];
    }
  }

  // ----- reduce

  lemma NotLessTrans(a: string, b: string, c: string)
    requires !Less(b, a) && !Less(c, b)
    ensures !Less(c, a)
  {
    if Less(c, a) {
      LessTotal(a, b);
      LessTotal(b, c);
      if a != b {
        LessTrans(c, a, b);
      }
    }
  }

  /** All pairs of positions up to i are in order, but for position j and those before it. */
  ghost predicate SortedBut(kva: seq<KeyValue>, i: int, j: int) {
    forall p, q :: 0 <= p < q <= i && q < |kva| && q != j ==> !Less(kva[q].key, kva[p].key)
  }

  lemma SwapStep(kva: seq<KeyValue>, i: nat, j: nat)
    requires 0 < j <= i < |kva| && SortedBut(kva, i, j) && Less(kva[j].key, kva[j - 1].key)
    ensures SortedBut(kva[j - 1 := kva[j]][j := kva[j - 1]], i, j - 1)
    ensures multiset(kva[j - 1 := kva[j]][j := kva[j - 1]]) == multiset(kva)
  {
    LessTotal(kva[j].key, kva[j - 1].key);
  }

  lemma Placed(kva: seq<KeyValue>, i: nat, j: nat)
    requires j <= i < |kva| && SortedBut(kva, i, j) && (j > 0 ==> !Less(kva[j].key, kva[j - 1].key))
    ensures SortedByKey(kva[..i + 1])
  {
    forall p, q | 0 <= p < q <= i
      ensures !Less(kva[q].key, kva[p].key)
    {
      if q == j && p < j - 1 {
        NotLessTrans(kva[p].key, kva[j - 1].key, kva[j].key);
      }
    }
  }

  /** Element i sinks to its place among the sorted ones before it. */
  method Sink(kva: array<KeyValue>, i: nat)
    requires i < kva.Length && SortedByKey(kva[..i])
    modifies kva
    ensures SortedByKey(kva[..i + 1]) && multiset(kva[..]) == multiset(old(kva[..]))
  {
    var j := i;
    while j > 0 && Less(kva[j].key, kva[j - 1].key)
      invariant 0 <= j <= i && SortedBut(kva[..], i, j) && multiset(kva[..]) == multiset(old(kva[..]))
    {
      SwapDown(kva, i, j);
      j := j - 1;
    }
    Placed(kva[..], i, j);
    assert kva[..i + 1] == kva[..][..i + 1];
  }

  method SwapDown(kva: array<KeyValue>, i: nat, j: nat)
    requires 0 < j <= i < kva.Length && SortedBut(kva[..], i, j) && Less(kva[j].key, kva[j - 1].key)
    modifies kva
    ensures SortedBut(kva[..], i, j - 1) && multiset(kva[..]) == multiset(old(kva[..]))
  {
    SwapStep(kva[..], i, j);
    ghost var swapped := kva[..][j - 1 := kva[j]][j := kva[j - 1]];
    kva[j], kva[j - 1] := kva[j - 1], kva[j];
    assert kva[..] == swapped;
  }

  /** Stands for the library's sort: nothing is said about the order of pairs with equal keys. */
  method SortByKey(kva: array<KeyValue>)
    modifies kva
    ensures SortedByKey(kva[..]) && multiset(kva[..]) == multiset(old(kva[..]))
  {
    for i := 0 to kva.Length
      invariant SortedByKey(kva[..i]) && multiset(kva[..]) == multiset(old(kva[..]))
    {
      Sink(kva, i);
    }
    assert kva[..kva.Length] == kva[..];
  }

  /** The end of the run of equal keys that begins at i. */
  method EndOfRun(kva: array<KeyValue>, i: nat) returns (j: nat)
    requires i < kva.Length
    ensures i < j <= kva.Length && j - i == RunEnd(kva[i..], 1)
  {
    j := i + 1;
    while j < kva.Length && kva[j].key == kva[i].key
      invariant i < j <= kva.Length
      invariant RunEnd(kva[i..], 1) == RunEnd(kva[i..], j - i)
    {
      j := j + 1;
    }
  }

  method ValuesBetween(kva: array<KeyValue>, i: nat, j: nat) returns (values: seq<string>)
    requires i <= j <= kva.Length
    ensures values == AllValues(kva[i..j])
  {
    values := [];
    for k := i to j
      invariant values == AllValues(kva[i..k])
    {
      values := values + [kva[k].value];
    }
  }

  lemma LinesUnfold(kva: seq<KeyValue>, j: nat, reducef: Reducer)
    requires kva != [] && j == RunEnd(kva, 1)
    ensures Lines(kva, reducef) ==
            [Line(kva[0].key, reducef(kva[0].key, AllValues(kva[..j])))] + Lines(kva[j..], reducef)
  {
  }

  lemma NextRun(all: seq<KeyValue>, i: nat, j: nat, lines: seq<Line>, reducef: Reducer)
    requires i < j <= |all| && j - i == RunEnd(all[i..], 1)
    requires lines + Lines(all[i..], reducef) == Lines(all, reducef)
    ensures lines + [Line(all[i].key, reducef(all[i].key, AllValues(all[i..j])))] + Lines(all[j..], reducef) ==
            Lines(all, reducef)
  {
    var rest, k := all[i..], j - i;
    assert rest[..k] == all[i..j] && rest[k..] == all[j..] && rest[0] == all[i];
    var line := Line(all[i].key, reducef(all[i].key, AllValues(all[i..j])));
    LinesUnfold(rest, k, reducef);
    assert lines + [line] + Lines(all[j..], reducef) == lines + ([line] + Lines(all[j..], reducef));
  }

  /** The walk over the runs of equal keys. */
  method ReduceRuns(kva: array<KeyValue>, reducef: Reducer) returns (lines: seq<Line>)
    ensures lines == Lines(kva[..], reducef)
  {
    ghost var all := kva[..];
    lines := [];
    var i := 0;
    while i < kva.Length
      invariant i <= kva.Length
      invariant lines + Lines(all[i..], reducef) == Lines(all, reducef)
    {
      var j := EndOfRun(kva, i);
      var values := ValuesBetween(kva, i, j);
      assert all[i..] == kva[i..] && all[i..j] == kva[i..j];
      NextRun(all, i, j, lines, reducef);
      lines := lines + [Line(kva[i].key, reducef(kva[i].key, values))];
      i := j;
    }
    assert all[|all|..] == [];
  }

  /** The lines come from some sorted arrangement of the pairs. */
  ghost predicate Produced(lines: seq<Line>, kva: seq<KeyValue>, reducef: Reducer) {
    exists sorted :: SortedByKey(sorted) && multiset(sorted) == multiset(kva) && lines == Lines(sorted, reducef)
  }

  /** If the reduce function does not care about order, the lines are determined by the pairs. */
  lemma ProducedReports(lines: seq<Line>, kva: seq<KeyValue>, reducef: Reducer)
    requires Produced(lines, kva, reducef) && Insensitive(reducef)
    ensures Reports(lines, kva, reducef)
  {
    var sorted :| SortedByKey(sorted) && multiset(sorted) == multiset(kva) && lines == Lines(sorted, reducef);
    LinesReport(sorted, reducef);
    ReportsReordered(lines, sorted, kva, reducef);
  }

  method DoReduce(files: Files, task: nat, nMap: nat, reducef: Reducer)
    modifies files
    ensures files.intermediate == old(files.intermediate)
    ensures exists lines :: Produced(lines, Collected(files.intermediate, nMap, task), reducef)
                            && files.outputs == old(files.outputs)[task := lines]
  {
    var kva := [];
    for i := 0 to nMap
      invariant kva == Collected(files.intermediate, i, task)
    {
      if Name(i, task) !in files.intermediate {
        continue;
      }
      kva := kva + files.intermediate[Name(i, task)];
    }
    var lines := SortAndReduce(kva, reducef);
    files.outputs := files.outputs[task := lines];
  }

  method SortAndReduce(kva: seq<KeyValue>, reducef: Reducer) returns (lines: seq<Line>)
    ensures Produced(lines, kva, reducef)
  {
    var a := new KeyValue[|kva|](i requires 0 <= i < |kva| => kva[i]);
    assert a[..] == kva;
    SortByKey(a);
    lines := ReduceRuns(a, reducef);
  }

  // ----- the sequential program

  datatype Input = Input(name: string, content: string)

  /** Everything the map function makes of the inputs. */
  function AllPairs(inputs: seq<Input>, mapf: Mapper): seq<KeyValue> {
    if inputs == [] then []
    else AllPairs(inputs[..|inputs| - 1], mapf) + mapf(inputs[|inputs| - 1].name, inputs[|inputs| - 1].content)
  }

  method Sequential(inputs: seq<Input>, mapf: Mapper, reducef: Reducer) returns (lines: seq<Line>)
    ensures Produced(lines, AllPairs(inputs, mapf), reducef)
  {
    var intermediate := [];
    for i := 0 to |inputs|
      invariant intermediate == AllPairs(inputs[..i], mapf)
    {
      assert inputs[..i + 1][..i] == inputs[..i];
      intermediate := intermediate + mapf(inputs[i].name, inputs[i].content);
    }
    assert inputs[..|inputs|] == inputs;
    lines := SortAndReduce(intermediate, reducef);
  }
}
