/** A run of two workers in which a late execution of a map task empties a file before it is read, and a line
    of the output is lost. */
module MrTornRun {
  import opened MrData
  import opened MrWorker
  import opened MrTasks
  import opened MrRuns
  import opened MrTruncate
  import opened Traces

  /** One input, one pair, one reduce task. */
  const PAIR: KeyValue := KeyValue("k", "v")
  const LINE: Line := Line("k", "")
  const ONE: Setting := Setting(["a"], file => "", 1, (name, content) => [PAIR], (key, values) => "", key => 0)
  const FILE: Name := Name(0, 0)

  lemma OneIsSound()
    ensures Sound(ONE) && ONE.files == ["a"] && Pairs(ONE, 0) == [PAIR]
    ensures Part([PAIR], ONE.hash, 1, 0) == [PAIR]
    ensures Due(ONE, 0, 0) == [PAIR] && AllPairs(Inputs(ONE), ONE.mapf) == [PAIR]
  {
  }

  // ----- its states

  function Jobs(mapTask: Status, reduceTask: Status, phase: Phase): Board {
    Board(["a"], 1, [mapTask], [reduceTask], phase, false)
  }

  ghost predicate At(c: Shop, board: Board, one: Worker, two: Worker) {
    c.system.board == board && c.system.workers == map[1 := one, 2 := two]
  }

  ghost predicate Stored(c: Shop, files: Intermediate, torn: set<Name>, started: set<nat>) {
    && c.system.files == files && c.torn == torn && c.started == started
    && c.system.outputs == map[] && c.tornOutputs == {}
  }

  const LATE: Worker := Writing(0, 1, [PAIR], 0)

  // ----- its steps

  lemma Joins(c: Shop)
    requires c == Opening(ONE)
    ensures Sound(ONE) && Possible(ONE, c, Other(MrRuns.Join(1)))
    ensures var d := After(ONE, c, Other(MrRuns.Join(1)));
            && Possible(ONE, d, Other(MrRuns.Join(2)))
            && At(After(ONE, d, Other(MrRuns.Join(2))), Jobs(Idle, Idle, Mapping), Free, Free)
            && Stored(After(ONE, d, Other(MrRuns.Join(2))), map[], {}, {})
  {
    OneIsSound();
  }

  lemma AsksMap(c: Shop, w: nat, one: Worker, two: Worker)
    requires Sound(ONE) && At(c, Jobs(Idle, Idle, Mapping), one, two) && Stored(c, map[], {}, {})
    requires (w == 1 && one.Free?) || (w == 2 && two.Free?)
    ensures Possible(ONE, c, Other(Ask(w)))
    ensures var d := After(ONE, c, Other(Ask(w)));
            && Stored(d, map[], {}, {})
            && At(d, Jobs(InProgress, Idle, Mapping),
                  if w == 1 then HasMap(0, "a", 1) else one, if w == 2 then HasMap(0, "a", 1) else two)
  {
    assert FirstIdle([Idle], 0) == 0 && [Idle][0 := InProgress] == [InProgress];
    assert GetTask(c.system.board) == (Jobs(InProgress, Idle, Mapping), MapTask(0, "a", 1, 1));
  }

  lemma Maps(c: Shop, w: nat, one: Worker, two: Worker)
    requires Sound(ONE) && At(c, Jobs(InProgress, Idle, Mapping), one, two) && Stored(c, map[], {}, {})
    requires (w == 1 && one == HasMap(0, "a", 1)) || (w == 2 && two == HasMap(0, "a", 1))
    ensures Possible(ONE, c, Other(ReadInput(w, [PAIR])))
    ensures var d := After(ONE, c, Other(ReadInput(w, [PAIR])));
            && Stored(d, map[], {}, {})
            && At(d, Jobs(InProgress, Idle, Mapping), if w == 1 then LATE else one, if w == 2 then LATE else two)
  {
    OneIsSound();
  }

  lemma TimesOut(c: Shop)
    requires Sound(ONE) && At(c, Jobs(InProgress, Idle, Mapping), LATE, Free) && Stored(c, map[], {}, {})
    ensures Possible(ONE, c, Other(Timeout({0})))
    ensures var d := After(ONE, c, Other(Timeout({0})));
            At(d, Jobs(Idle, Idle, Mapping), LATE, Free) && Stored(d, map[], {}, {})
  {
    assert Expire([InProgress], {0}) == [Idle];
  }

  lemma Creates(c: Shop)
    requires Sound(ONE) && At(c, Jobs(InProgress, Idle, Mapping), LATE, LATE) && Stored(c, map[], {}, {})
    ensures Possible(ONE, c, CreateFile(2))
    ensures var d := After(ONE, c, CreateFile(2));
            At(d, Jobs(InProgress, Idle, Mapping), LATE, LATE) && Stored(d, map[FILE := []], {FILE}, {2})
  {
  }

  lemma Writes(c: Shop)
    requires Sound(ONE) && At(c, Jobs(InProgress, Idle, Mapping), LATE, LATE) && Stored(c, map[FILE := []], {FILE}, {2})
    ensures Possible(ONE, c, Other(WriteFile(2)))
    ensures var d := After(ONE, c, Other(WriteFile(2)));
            && At(d, Jobs(InProgress, Idle, Mapping), LATE, Writing(0, 1, [PAIR], 1))
            && Stored(d, map[FILE := [PAIR]], {}, {})
  {
    OneIsSound();
  }

  lemma Ends(c: Shop)
    requires Sound(ONE) && At(c, Jobs(InProgress, Idle, Mapping), LATE, Writing(0, 1, [PAIR], 1))
    requires Stored(c, map[FILE := [PAIR]], {}, {})
    ensures Possible(ONE, c, Other(MapEnds(2)))
    ensures var d := After(ONE, c, Other(MapEnds(2)));
            && At(d, Jobs(InProgress, Idle, Mapping), LATE, Finished(Job(Map, 0)))
            && Stored(d, map[FILE := [PAIR]], {}, {})
  {
  }

  lemma ReportsMap(c: Shop)
    requires Sound(ONE) && At(c, Jobs(InProgress, Idle, Mapping), LATE, Finished(Job(Map, 0)))
    requires Stored(c, map[FILE := [PAIR]], {}, {})
    ensures Possible(ONE, c, Other(Report(2)))
    ensures var d := After(ONE, c, Other(Report(2)));
            At(d, Jobs(Completed, Idle, Mapping), LATE, Free) && Stored(d, map[FILE := [PAIR]], {}, {})
  {
    assert [InProgress][0 := Completed] == [Completed];
  }

  lemma AsksReduce(c: Shop)
    requires Sound(ONE) && At(c, Jobs(Completed, Idle, Mapping), LATE, Free) && Stored(c, map[FILE := [PAIR]], {}, {})
    ensures Possible(ONE, c, Other(Ask(2)))
    ensures var d := After(ONE, c, Other(Ask(2)));
            && At(d, Jobs(Completed, InProgress, Reducing), LATE, Reading(0, 1, 0, []))
            && Stored(d, map[FILE := [PAIR]], {}, {})
  {
    assert FirstIdle([Completed], 0) == -1 && InProgress !in [Completed];
    assert FirstIdle([Idle], 0) == 0 && [Idle][0 := InProgress] == [InProgress];
    assert GetTask(c.system.board) == (Jobs(Completed, InProgress, Reducing), ReduceTask(0, 1, 1));
  }

  lemma CreatesAgain(c: Shop)
    requires Sound(ONE) && At(c, Jobs(Completed, InProgress, Reducing), LATE, Reading(0, 1, 0, []))
    requires Stored(c, map[FILE := [PAIR]], {}, {})
    ensures Possible(ONE, c, CreateFile(1))
    ensures var d := After(ONE, c, CreateFile(1));
            && At(d, Jobs(Completed, InProgress, Reducing), LATE, Reading(0, 1, 0, []))
            && Stored(d, map[FILE := []], {FILE}, {1})
  {
  }

  lemma ReadsNothing(c: Shop)
    requires Sound(ONE) && At(c, Jobs(Completed, InProgress, Reducing), LATE, Reading(0, 1, 0, []))
    requires Stored(c, map[FILE := []], {FILE}, {1})
    ensures Possible(ONE, c, Other(ReadFile(2))) && !Guarded(ONE, c, Other(ReadFile(2)))
    ensures var d := After(ONE, c, Other(ReadFile(2)));
            && At(d, Jobs(Completed, InProgress, Reducing), LATE, Reading(0, 1, 1, []))
            && Stored(d, map[FILE := []], {FILE}, {1})
  {
    OneIsSound();
    var none: seq<KeyValue> := [];
    assert none + none == none;
  }

  lemma CreatesOutput(c: Shop)
    requires Sound(ONE) && At(c, Jobs(Completed, InProgress, Reducing), LATE, Reading(0, 1, 1, []))
    requires Stored(c, map[FILE := []], {FILE}, {1})
    ensures Possible(ONE, c, CreateOutput(2))
    ensures var d := After(ONE, c, CreateOutput(2));
            && At(d, Jobs(Completed, InProgress, Reducing), LATE, Reading(0, 1, 1, [])) && d.started == {1, 2}
            && d.system.outputs == map[0 := []] && d.tornOutputs == {0}
  {
  }

  lemma WritesNothing(c: Shop)
    requires Sound(ONE) && At(c, Jobs(Completed, InProgress, Reducing), LATE, Reading(0, 1, 1, []))
    requires c.started == {1, 2} && c.system.outputs == map[0 := []] && c.tornOutputs == {0}
    ensures Possible(ONE, c, Other(WriteOutput(2, [])))
    ensures var d := After(ONE, c, Other(WriteOutput(2, [])));
            && At(d, Jobs(Completed, InProgress, Reducing), LATE, Finished(Job(Reduce, 0)))
            && d.system.outputs == map[0 := []] && d.tornOutputs == {}
  {
    var none: seq<KeyValue> := [];
    assert SortedByKey(none) && Lines(none, ONE.reducef) == [];
  }

  lemma ReportsReduce(c: Shop)
    requires Sound(ONE) && At(c, Jobs(Completed, InProgress, Reducing), LATE, Finished(Job(Reduce, 0)))
    requires c.system.outputs == map[0 := []] && c.tornOutputs == {}
    ensures Possible(ONE, c, Other(Report(2)))
    ensures var d := After(ONE, c, Other(Report(2)));
            && At(d, Jobs(Completed, Completed, Reducing), LATE, Free)
            && d.system.outputs == map[0 := []] && d.tornOutputs == {}
  {
    assert [InProgress][0 := Completed] == [Completed];
  }

  lemma AsksLast(c: Shop)
    requires Sound(ONE) && At(c, Jobs(Completed, Completed, Reducing), LATE, Free)
    requires c.system.outputs == map[0 := []] && c.tornOutputs == {}
    ensures Possible(ONE, c, Other(Ask(2)))
    ensures var d := After(ONE, c, Other(Ask(2)));
            d.system.board.done && d.system.outputs == map[0 := []] && d.tornOutputs == {}
  {
    assert FirstIdle([Completed], 0) == -1 && InProgress !in [Completed];
    assert GetTask(c.system.board).1 == DoneTask;
  }

  // ----- the course

  /** Every action so far is guarded, but for the one at k. */
  ghost predicate Tidy(b: Course, k: int) {
    IsCourse(ONE, b) &&
    forall i :: 0 <= i < |b.actions| ==> (Guarded(ONE, b.states[i], b.actions[i]) <==> i != k)
  }

  lemma Did(b: Course, k: int, action: Action) returns (d: Course)
    requires Tidy(b, k) && Possible(ONE, Last(b.states), action)
    requires Guarded(ONE, Last(b.states), action) <==> |b.actions| != k
    ensures Tidy(d, k) && Last(d.states) == After(ONE, Last(b.states), action) && |d.actions| == |b.actions| + 1
    ensures 0 <= k < |b.actions| ==> d.actions[k] == b.actions[k]
    ensures |b.actions| == k ==> d.actions[k] == action
  {
    d := Acted(ONE, b, action);
    forall i | 0 <= i < |d.actions|
      ensures Guarded(ONE, d.states[i], d.actions[i]) <==> i != k
    {
      if i < |b.actions| {
        assert d.states[i] == b.states[i] && d.actions[i] == b.actions[i];
      }
    }
  }

  /** Worker 1 is given the map task, calls the map function and is late. */
  lemma IsLate() returns (b: Course)
    ensures Tidy(b, 13) && |b.actions| == 5
    ensures At(Last(b.states), Jobs(Idle, Idle, Mapping), LATE, Free) && Stored(Last(b.states), map[], {}, {})
  {
    OneIsSound();
    b := Course([Opening(ONE)], []);
    Joins(Last(b.states));
    b := Did(b, 13, Other(MrRuns.Join(1)));
    b := Did(b, 13, Other(MrRuns.Join(2)));
    AsksMap(Last(b.states), 1, Free, Free);
    b := Did(b, 13, Other(Ask(1)));
    Maps(Last(b.states), 1, HasMap(0, "a", 1), Free);
    b := Did(b, 13, Other(ReadInput(1, [PAIR])));
    TimesOut(Last(b.states));
    b := Did(b, 13, Other(Timeout({0})));
  }

  /** Worker 2 carries out the map task. */
  lemma Mapped() returns (b: Course)
    ensures Tidy(b, 13) && |b.actions| == 9
    ensures At(Last(b.states), Jobs(InProgress, Idle, Mapping), LATE, Writing(0, 1, [PAIR], 1))
    ensures Stored(Last(b.states), map[FILE := [PAIR]], {}, {})
  {
    b := IsLate();
    AsksMap(Last(b.states), 2, LATE, Free);
    b := Did(b, 13, Other(Ask(2)));
    Maps(Last(b.states), 2, LATE, HasMap(0, "a", 1));
    b := Did(b, 13, Other(ReadInput(2, [PAIR])));
    Creates(Last(b.states));
    b := Did(b, 13, CreateFile(2));
    Writes(Last(b.states));
    b := Did(b, 13, Other(WriteFile(2)));
  }

  /** It reports and reducing begins; worker 1 goes on, and creates the file again before it is read. */
  lemma Emptied() returns (b: Course)
    ensures Tidy(b, 13) && |b.actions| == 13
    ensures At(Last(b.states), Jobs(Completed, InProgress, Reducing), LATE, Reading(0, 1, 0, []))
    ensures Stored(Last(b.states), map[FILE := []], {FILE}, {1})
  {
    b := Mapped();
    Ends(Last(b.states));
    b := Did(b, 13, Other(MapEnds(2)));
    ReportsMap(Last(b.states));
    b := Did(b, 13, Other(Report(2)));
    AsksReduce(Last(b.states));
    b := Did(b, 13, Other(Ask(2)));
    CreatesAgain(Last(b.states));
    b := Did(b, 13, CreateFile(1));
  }

  /** Worker 2 finds the file empty, and writes and reports an empty output. */
  lemma Reduced() returns (b: Course)
    ensures Tidy(b, 13) && |b.actions| == 18 && b.actions[13] == Other(ReadFile(2))
    ensures Last(b.states).system.board.done && Last(b.states).tornOutputs == {}
    ensures Last(b.states).system.outputs == map[0 := []]
  {
    b := Emptied();
    ReadsNothing(Last(b.states));
    b := Did(b, 13, Other(ReadFile(2)));
    CreatesOutput(Last(b.states));
    b := Did(b, 13, CreateOutput(2));
    WritesNothing(Last(b.states));
    b := Did(b, 13, Other(WriteOutput(2, [])));
    ReportsReduce(Last(b.states));
    b := Did(b, 13, Other(Report(2)));
    AsksLast(Last(b.states));
    b := Did(b, 13, Other(Ask(2)));
  }

  /** A worker is late with a map task, another one carries it out, reducing begins, and then the late worker
      creates the file that the reduce task reads next.  That read is the only action of the course that is
      not guarded.  The coordinator is done and no output is torn, but the one line of the sequential program
      is in none of them. */
  lemma LineIsLost() returns (b: Course, k: nat)
    ensures IsCourse(ONE, b) && k < |b.actions| && b.actions[k] == Other(ReadFile(2))
    ensures forall i :: 0 <= i < |b.actions| ==> (Guarded(ONE, b.states[i], b.actions[i]) <==> i != k)
    ensures Last(b.states).system.board.done && Last(b.states).tornOutputs == {}
    ensures Outputs(Last(b.states).system, 1) == [[]]
    ensures Produced([LINE], AllPairs(Inputs(ONE), ONE.mapf), ONE.reducef)
    ensures !Together([LINE], Outputs(Last(b.states).system, 1))
  {
    OneIsSound();
    b := Reduced();
    k := 13;
    assert SortedByKey([PAIR]) && Lines([PAIR], ONE.reducef) == [LINE];
    assert LINE in [LINE];
  }
}
