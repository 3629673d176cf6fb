/** A run of three servers in which the commit index of a server falls below what it has applied. */
module RaftFallRun {
  import opened RaftNode
  import opened RaftSystem
  import opened RaftHeartbeat
  import opened RaftScene
  import opened Traces

  // ----- its states

  const ONE: Entry := Entry(1, Op(1))
  const TWO: Entry := Entry(1, Op(2))

  const FIRST: Note := Note(Reading(1, 0, 0, []), 0)
  const SECOND: Note := Note(Reading(1, 1, 0, []), 0)
  const STALE: Note := Note(Reading(1, 2, 0, []), 0)
  const FRESH: Note := Note(Reading(1, 2, 2, [Op(1), Op(2)]), 1)
  const NOTES: set<Note> := {FIRST, SECOND, STALE, FRESH}

  const DONE: AppendReply := AppendReply(1, true, 0, 0, 0)
  const CALL1: AppendCall := AppendCall(1, AppendArgs(1, 0, 0, 0, [ONE], 0))
  const LATE: AppendCall := AppendCall(2, AppendArgs(1, 0, 0, 0, [ONE], 1))
  const CALL2: AppendCall := AppendCall(1, AppendArgs(1, 0, 1, 1, [TWO], 1))
  const HIGH: AppendCall := AppendCall(2, AppendArgs(1, 0, 2, 1, [], 2))
  const OVER: AppendCall := AppendCall(2, AppendArgs(1, 0, 0, 0, [], 2))
  const ANSWER1: AppendAnswer := AppendAnswer(1, CALL1.args, DONE)
  const ANSWER2: AppendAnswer := AppendAnswer(1, CALL2.args, DONE)
  const REFUSAL: AppendAnswer := AppendAnswer(2, HIGH.args, AppendReply(0, false, -1, -1, 1))
  const LATE_ANSWER: AppendAnswer := AppendAnswer(2, LATE.args, DONE)
  const OVER_ANSWER: AppendAnswer := AppendAnswer(2, OVER.args, DONE)

  const BLANK: seq<seq<Command>> := [[], [], []]
  const AHEAD: seq<seq<Command>> := [[Op(1), Op(2)], [], []]
  const BOTH: seq<seq<Command>> := [[Op(1), Op(2)], [], [Op(1)]]
  const GIVEN: set<Delivery> := {Delivery(0, 1, Op(1)), Delivery(0, 2, Op(2))}
  const GIVEN_BOTH: set<Delivery> := GIVEN + {Delivery(2, 1, Op(1))}

  /** Server 0 brings Op(1) to server 1 and commits it; its message to server 2 is delayed. */
  const L1: Node := Leads([DUMMY, ONE], 0, 0, [1, 1, 1], [0, 0, 0], 0, [])
  const L2: Node := Leads([DUMMY, ONE], 0, 0, [1, 2, 1], [0, 1, 0], 0, [])
  const L3: Node := Leads([DUMMY, ONE], 1, 0, [1, 2, 1], [0, 1, 0], 0, [])
  const V1: Node := Obeys(0, [DUMMY, ONE], 0, 0, 0, [])

  const T1: System := State([L1, VOTER, NEW], {}, {}, {}, {}, BLANK, {})
  const T2: System := State([L1, VOTER, NEW], {CALL1}, {}, {}, {}, BLANK, {})
  const T3: System := State([L1, V1, NEW], {CALL1}, {ANSWER1}, {}, {}, BLANK, {})
  const T4: System := State([L2, V1, NEW], {CALL1}, {ANSWER1}, {}, {}, BLANK, {})
  const T5: System := State([L3, V1, NEW], {CALL1}, {ANSWER1}, {}, {}, BLANK, {})
  const T6: System := State([L3, V1, NEW], {CALL1, LATE}, {ANSWER1}, {}, {}, BLANK, {})

  /** It does the same with Op(2), applies both and takes a snapshot of both. */
  const L4: Node := Leads([DUMMY, ONE, TWO], 1, 0, [1, 2, 1], [0, 1, 0], 0, [])
  const L5: Node := Leads([DUMMY, ONE, TWO], 1, 0, [1, 3, 1], [0, 2, 0], 0, [])
  const L6: Node := Leads([DUMMY, ONE, TWO], 2, 0, [1, 3, 1], [0, 2, 0], 0, [])
  const L7: Node := Leads([DUMMY, ONE, TWO], 2, 2, [1, 3, 1], [0, 2, 0], 0, [])
  const L8: Node := Leads([Entry(1, Nil)], 2, 2, [1, 3, 3], [2, 2, 2], 2, [Op(1), Op(2)])
  const V2: Node := Obeys(0, [DUMMY, ONE, TWO], 1, 0, 0, [])

  const CALLS: set<AppendCall> := {CALL1, LATE, CALL2}
  const ANSWERS: set<AppendAnswer> := {ANSWER1, ANSWER2}
  const T7: System := State([L4, V1, NEW], {CALL1, LATE}, {ANSWER1}, {}, {}, BLANK, {})
  const T8: System := State([L4, V1, NEW], CALLS, {ANSWER1}, {}, {}, BLANK, {})
  const T9: System := State([L4, V2, NEW], CALLS, ANSWERS, {}, {}, BLANK, {})
  const T10: System := State([L5, V2, NEW], CALLS, ANSWERS, {}, {}, BLANK, {})
  const T11: System := State([L6, V2, NEW], CALLS, ANSWERS, {}, {}, BLANK, {})
  const T12: System := State([L7, V2, NEW], CALLS, ANSWERS, {}, {}, AHEAD, GIVEN)
  const T13: System := State([L8, V2, NEW], CALLS, ANSWERS, {}, {}, AHEAD, GIVEN)

  /** Server 2 refuses what lies above the snapshot; then the delayed message arrives and it applies Op(1). */
  const L9: Node := Leads([Entry(1, Nil)], 2, 2, [1, 3, 1], [2, 2, 2], 2, [Op(1), Op(2)])
  const G1: Node := Obeys(NOBODY, [DUMMY, ONE], 1, 0, 0, [])
  const G2: Node := Obeys(NOBODY, [DUMMY, ONE], 1, 1, 0, [])

  const ALL_CALLS: set<AppendCall> := CALLS + {HIGH}
  const MORE: set<AppendAnswer> := ANSWERS + {REFUSAL}
  const T14: System := State([L8, V2, NEW], ALL_CALLS, ANSWERS, {}, {}, AHEAD, GIVEN)
  const T15: System := State([L8, V2, REFUSER], ALL_CALLS, MORE, {}, {}, AHEAD, GIVEN)
  const T16: System := State([L9, V2, REFUSER], ALL_CALLS, MORE, {}, {}, AHEAD, GIVEN)
  const T17: System := State([L9, V2, G1], ALL_CALLS, MORE + {LATE_ANSWER}, {}, {}, AHEAD, GIVEN)
  const T18: System := State([L9, V2, G2], ALL_CALLS, MORE + {LATE_ANSWER}, {}, {}, BOTH, GIVEN_BOTH)

  /** Now a message is built from what was read before the snapshot. */
  const G3: Node := Obeys(NOBODY, [DUMMY, ONE], 0, 1, 0, [])
  const T19: System := State([L9, V2, G2], ALL_CALLS + {OVER}, MORE + {LATE_ANSWER}, {}, {}, BOTH, GIVEN_BOTH)
  const T20: System :=
    State([L9, V2, G3], ALL_CALLS + {OVER}, MORE + {LATE_ANSWER} + {OVER_ANSWER}, {}, {}, BOTH, GIVEN_BOTH)

  lemma Proposed()
    ensures Goes(ELECTED, Propose(0, Op(1)), T1) && Goes(T6, Propose(0, Op(2)), T7)
  {
    assert [DUMMY] + [ONE] == [DUMMY, ONE] && [DUMMY, ONE] + [TWO] == [DUMMY, ONE, TWO];
  }

  lemma MergeOne()
    ensures Merge([DUMMY], 1, [ONE]) == [DUMMY, ONE] && Merge([DUMMY, ONE], 2, [TWO]) == [DUMMY, ONE, TWO]
  {
    assert [ONE][1..] == [] && [DUMMY] + [ONE] == [DUMMY, ONE];
    assert [TWO][1..] == [] && [DUMMY, ONE] + [TWO] == [DUMMY, ONE, TWO];
  }

  lemma BroughtOne()
    ensures Goes(T2, AppendArrives(CALL1), T3)
  {
    MergeOne();
    assert AppendEntries(VOTER, CALL1.args) == (V1, DONE);
    assert T2.nodes[1 := V1] == T3.nodes;
  }

  lemma LearnedOne()
    ensures Goes(T3, AppendAnswered(ANSWER1), T4)
  {
    assert [0, 0, 0][1 := 1] == [0, 1, 0] && [1, 1, 1][1 := 2] == [1, 2, 1];
    assert T3.nodes[0 := L2] == T4.nodes;
  }

  lemma CommittedOne()
    ensures Goes(T4, Commit(0), T5)
  {
    assert CountMatches([0, 1, 0], 0, 1, 1) == 0;
    assert CountMatches([0, 1, 0], 0, 1, 2) == 1;
    assert CountMatches([0, 1, 0], 0, 1, 3) == 1;
    assert ScanCommit(L2, 0, 3, 1) == 1;
    assert T4.nodes[0 := L3] == T5.nodes;
  }

  lemma BroughtTwo()
    ensures Goes(T8, AppendArrives(CALL2), T9)
  {
    MergeOne();
    assert AppendEntries(V1, CALL2.args) == (V2, DONE);
    assert T8.nodes[1 := V2] == T9.nodes;
  }

  lemma LearnedTwo()
    ensures Goes(T9, AppendAnswered(ANSWER2), T10)
  {
    assert [0, 1, 0][1 := 2] == [0, 2, 0] && [1, 2, 1][1 := 3] == [1, 3, 1];
    assert T9.nodes[0 := L5] == T10.nodes;
  }

  lemma CommittedTwo()
    ensures Goes(T10, Commit(0), T11)
  {
    assert CountMatches([0, 2, 0], 0, 2, 1) == 0;
    assert CountMatches([0, 2, 0], 0, 2, 2) == 1;
    assert CountMatches([0, 2, 0], 0, 2, 3) == 1;
    assert ScanCommit(L5, 0, 3, 2) == 2;
    assert T10.nodes[0 := L6] == T11.nodes;
  }

  lemma AppliedTwo()
    ensures Goes(T11, Apply(0), T12)
  {
    assert Deliveries(L6, 2, 2) == [];
    assert Deliveries(L6, 1, 2) == [ApplyCommand(2, Op(2))];
    assert Deliveries(L6, 0, 2) == [ApplyCommand(1, Op(1)), ApplyCommand(2, Op(2))];
    FeedTwo([], Op(1), Op(2));
    assert [] + [Op(1), Op(2)] == [Op(1), Op(2)];
    ReceivedTwo(0, Op(1), Op(2));
    assert ApplyCommitted(L6).0 == L7 && T11.delivered + GIVEN == T12.delivered;
    assert T11.nodes[0 := L7] == T12.nodes && T11.apps[0 := [Op(1), Op(2)]] == T12.apps;
  }

  lemma CutShort()
    ensures Goes(T12, Compact(0, 2, [Op(1), Op(2)]), T13)
  {
    assert L7.log[3..] == [] && [Entry(1, Nil)] + [] == [Entry(1, Nil)];
    assert RaiseNext([1, 3, 1], 0, 3) == [1, 3, 3] && RaiseMatch([0, 2, 0], 2) == [2, 2, 2];
    assert Snapshot(L7, 0, 2, [Op(1), Op(2)]) == L8;
    assert T12.nodes[0 := L8] == T13.nodes;
  }

  lemma Refused()
    ensures Goes(T14, AppendArrives(HIGH), T15)
  {
    assert AppendEntries(NEW, HIGH.args) == (REFUSER, REFUSAL.reply);
    assert T14.nodes[2 := REFUSER] == T15.nodes;
  }

  lemma BackedOff()
    ensures Goes(T15, AppendAnswered(REFUSAL), T16)
  {
    assert [1, 3, 3][2 := 1] == [1, 3, 1];
    assert T15.nodes[0 := L9] == T16.nodes;
  }

  lemma Arrived()
    ensures Goes(T16, AppendArrives(LATE), T17)
  {
    MergeOne();
    assert AppendEntries(REFUSER, LATE.args) == (G1, DONE);
    assert T16.nodes[2 := G1] == T17.nodes;
  }

  lemma AppliedOne()
    ensures Goes(T17, Apply(2), T18)
  {
    assert Deliveries(G1, 1, 1) == [];
    assert Deliveries(G1, 0, 1) == [ApplyCommand(1, Op(1))];
    FeedOne([], 1, Op(1));
    assert [] + [Op(1)] == [Op(1)];
    ReceivedOne(2, 1, Op(1));
    assert ApplyCommitted(G1) == (G2, [ApplyCommand(1, Op(1))]);
    assert T17.nodes[2 := G2] == T18.nodes && T17.apps[2 := [Op(1)]] == T18.apps;
  }

  lemma Fell()
    ensures Goes(T19, AppendArrives(OVER), T20)
  {
    assert AppendEntries(G2, OVER.args) == (G3, DONE);
    assert T19.nodes[2 := G3] == T20.nodes;
  }

  // ----- the run

  lemma Opened() returns (b: Course)
    ensures Clear(b, T5, {FIRST})
  {
    b := Started();
    Proposed();
    b := Did(b, ELECTED, {}, Propose(0, Op(1)), T1);
    b := DidRead(b, T1, {});
    assert {} + {NoteOf(L1)} == {FIRST} && [DUMMY, ONE][1..] == [ONE];
    b := DidSend(b, T1, {FIRST}, 1, FIRST, T2);
    BroughtOne();
    LearnedOne();
    CommittedOne();
    b := Did(b, T2, {FIRST}, AppendArrives(CALL1), T3);
    b := Did(b, T3, {FIRST}, AppendAnswered(ANSWER1), T4);
    b := Did(b, T4, {FIRST}, Commit(0), T5);
  }

  lemma Held() returns (b: Course)
    ensures Clear(b, T6, {FIRST, SECOND})
  {
    b := Opened();
    b := DidRead(b, T5, {FIRST});
    assert {FIRST} + {NoteOf(L3)} == {FIRST, SECOND} && [DUMMY, ONE][1..] == [ONE];
    b := DidSend(b, T5, {FIRST, SECOND}, 2, SECOND, T6);
  }

  lemma Delayed() returns (b: Course)
    ensures Clear(b, T8, {FIRST, SECOND})
  {
    b := Held();
    Proposed();
    b := Did(b, T6, {FIRST, SECOND}, Propose(0, Op(2)), T7);
    assert [DUMMY, ONE, TWO][2..] == [TWO];
    b := DidSend(b, T7, {FIRST, SECOND}, 1, SECOND, T8);
  }

  lemma Committed() returns (b: Course)
    ensures Clear(b, T11, {FIRST, SECOND, STALE})
  {
    b := Delayed();
    BroughtTwo();
    LearnedTwo();
    CommittedTwo();
    b := Did(b, T8, {FIRST, SECOND}, AppendArrives(CALL2), T9);
    b := Did(b, T9, {FIRST, SECOND}, AppendAnswered(ANSWER2), T10);
    b := Did(b, T10, {FIRST, SECOND}, Commit(0), T11);
    b := DidRead(b, T11, {FIRST, SECOND});
    assert {FIRST, SECOND} + {NoteOf(L6)} == {FIRST, SECOND, STALE};
  }

  lemma Compacted() returns (b: Course)
    ensures Clear(b, T14, NOTES)
  {
    b := Committed();
    AppliedTwo();
    CutShort();
    b := Did(b, T11, {FIRST, SECOND, STALE}, Apply(0), T12);
    b := Did(b, T12, {FIRST, SECOND, STALE}, Compact(0, 2, [Op(1), Op(2)]), T13);
    b := DidRead(b, T13, {FIRST, SECOND, STALE});
    assert {FIRST, SECOND, STALE} + {NoteOf(L8)} == NOTES && [Entry(1, Nil)][1..] == [];
    b := DidSend(b, T13, NOTES, 2, FRESH, T14);
  }

  lemma CaughtUp() returns (b: Course)
    ensures Clear(b, T18, NOTES)
  {
    b := Compacted();
    Refused();
    BackedOff();
    Arrived();
    AppliedOne();
    b := Did(b, T14, NOTES, AppendArrives(HIGH), T15);
    b := Did(b, T15, NOTES, AppendAnswered(REFUSAL), T16);
    b := Did(b, T16, NOTES, AppendArrives(LATE), T17);
    b := Did(b, T17, NOTES, Apply(2), T18);
  }

  /** A heartbeat reads commitIndex 2; the server takes a snapshot of index 2, and a refusal sends nextIndex of
      server 2 back to 1; server 2 applies Op(1) from a delayed message; then the first heartbeat builds its
      message for server 2: no entries from index 1 on, and leaderCommit 2.  It is the only harmful message of
      the course.  Server 2 accepts it and its commitIndex falls from 1 to 0, below lastApplied. */
  lemma CommitFalls() returns (b: Course, k: nat)
    ensures IsCourse(b, 3) && |b.actions| == k + 2 && b.actions[k] == SendRead(0, 2, STALE)
    ensures forall i :: 0 <= i < |b.actions| ==> (DoesNoHarm(b.states[i], b.actions[i]) <==> i != k)
    ensures b.states[k + 1].system == T19 && b.actions[k + 1] == Other(AppendArrives(OVER))
    ensures T19.nodes[2].commitIndex == T19.nodes[2].lastApplied == 1
    ensures Last(b.states).system == T20 && T20.nodes[2].commitIndex == 0 < T20.nodes[2].lastApplied
  {
    b := CaughtUp();
    k := |b.actions|;
    assert BuildFrom(L9, 0, 2, STALE.seen) == SendAppend(OVER.args);
    b := Acted(b, 3, SendRead(0, 2, STALE));
    Fell();
    b := Did(b, T19, NOTES, AppendArrives(OVER), T20);
  }
}
