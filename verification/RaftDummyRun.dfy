/** A run of three servers in which the dummy entry of a compacted log is sent, accepted and applied. */
module RaftDummyRun {
  import opened RaftNode
  import opened RaftSystem
  import opened RaftHeartbeat
  import opened RaftScene
  import opened Traces

  // ----- its states

  const FIVE: Entry := Entry(1, Op(5))
  const TRUE_CALL: AppendCall := AppendCall(1, AppendArgs(1, 0, 0, 0, [FIVE], 0))
  const TRUE_ANSWER: AppendAnswer := AppendAnswer(1, TRUE_CALL.args, AppendReply(1, true, 0, 0, 0))
  const EMPTY_CALL: AppendCall := AppendCall(2, AppendArgs(1, 0, 1, 1, [], 1))
  const EMPTY_ANSWER: AppendAnswer := AppendAnswer(2, EMPTY_CALL.args, AppendReply(0, false, -1, -1, 1))
  const DUMMY_CALL: AppendCall := AppendCall(2, AppendArgs(1, 0, 0, 0, [Entry(1, Nil)], 1))
  const DUMMY_ANSWER: AppendAnswer := AppendAnswer(2, DUMMY_CALL.args, AppendReply(1, true, 0, 0, 0))

  const FIRST: Note := Note(Reading(1, 0, 0, []), 0)
  const STALE: Note := Note(Reading(1, 1, 0, []), 0)
  const FRESH: Note := Note(Reading(1, 1, 1, [Op(5)]), 1)

  const HOLDER: Node := Obeys(0, [DUMMY, FIVE], 0, 0, 0, [])
  const FOOLED: Node := Obeys(NOBODY, [DUMMY, Entry(1, Nil)], 1, 0, 0, [])
  const SERVED: Node := Obeys(NOBODY, [DUMMY, Entry(1, Nil)], 1, 1, 0, [])

  const FED: seq<seq<Command>> := [[Op(5)], [], []]
  const TOLD: set<Delivery> := {Delivery(0, 1, Op(5))}

  /** Server 0 takes Op(5), brings it to server 1, commits and applies it. */
  const L1: Node := Leads([DUMMY, FIVE], 0, 0, [1, 1, 1], [0, 0, 0], 0, [])
  const L2: Node := Leads([DUMMY, FIVE], 0, 0, [1, 2, 1], [0, 1, 0], 0, [])
  const L3: Node := Leads([DUMMY, FIVE], 1, 0, [1, 2, 1], [0, 1, 0], 0, [])
  const L4: Node := Leads([DUMMY, FIVE], 1, 1, [1, 2, 1], [0, 1, 0], 0, [])

  const BLANK: seq<seq<Command>> := [[], [], []]
  const D1: System := State([L1, VOTER, NEW], {}, {}, {}, {}, BLANK, {})
  const D2: System := State([L1, VOTER, NEW], {TRUE_CALL}, {}, {}, {}, BLANK, {})
  const D3: System := State([L1, HOLDER, NEW], {TRUE_CALL}, {TRUE_ANSWER}, {}, {}, BLANK, {})
  const D4: System := State([L2, HOLDER, NEW], {TRUE_CALL}, {TRUE_ANSWER}, {}, {}, BLANK, {})
  const D5: System := State([L3, HOLDER, NEW], {TRUE_CALL}, {TRUE_ANSWER}, {}, {}, BLANK, {})
  const D6: System := State([L4, HOLDER, NEW], {TRUE_CALL}, {TRUE_ANSWER}, {}, {}, FED, TOLD)

  /** Then it takes a snapshot; server 2 refuses what lies above it. */
  const L5: Node := Leads([Entry(1, Nil)], 1, 1, [1, 2, 2], [1, 1, 1], 1, [Op(5)])
  const L6: Node := Leads([Entry(1, Nil)], 1, 1, [1, 2, 1], [1, 1, 1], 1, [Op(5)])

  const CALLS: set<AppendCall> := {TRUE_CALL, EMPTY_CALL}
  const ANSWERS: set<AppendAnswer> := {TRUE_ANSWER, EMPTY_ANSWER}
  const D7: System := State([L5, HOLDER, NEW], {TRUE_CALL}, {TRUE_ANSWER}, {}, {}, FED, TOLD)
  const D8: System := State([L5, HOLDER, NEW], CALLS, {TRUE_ANSWER}, {}, {}, FED, TOLD)
  const D9: System := State([L5, HOLDER, REFUSER], CALLS, ANSWERS, {}, {}, FED, TOLD)
  const D10: System := State([L6, HOLDER, REFUSER], CALLS, ANSWERS, {}, {}, FED, TOLD)

  /** Now a message is built from what was read before the snapshot. */
  const D11: System := State([L6, HOLDER, REFUSER], CALLS + {DUMMY_CALL}, ANSWERS, {}, {}, FED, TOLD)
  const D12: System := State([L6, HOLDER, FOOLED], CALLS + {DUMMY_CALL}, ANSWERS + {DUMMY_ANSWER}, {}, {}, FED, TOLD)
  const D13: System :=
    State([L6, HOLDER, SERVED], CALLS + {DUMMY_CALL}, ANSWERS + {DUMMY_ANSWER}, {}, {}, [[Op(5)], [], [Nil]],
          TOLD + {Delivery(2, 1, Nil)})

  lemma Taken()
    ensures Goes(ELECTED, Propose(0, Op(5)), D1)
  {
    assert [DUMMY] + [FIVE] == [DUMMY, FIVE];
  }

  lemma Brought()
    ensures Goes(D2, AppendArrives(TRUE_CALL), D3)
  {
    BroughtEntry();
    assert D2.nodes[1 := HOLDER] == D3.nodes;
  }

  lemma Acknowledged()
    ensures Goes(D3, AppendAnswered(TRUE_ANSWER), D4)
  {
    assert [0, 0, 0][1 := 1] == [0, 1, 0] && [1, 1, 1][1 := 2] == [1, 2, 1];
    assert D3.nodes[0 := L2] == D4.nodes;
  }

  lemma BroughtEntry()
    ensures AppendEntries(VOTER, TRUE_CALL.args) == (HOLDER, AppendReply(1, true, 0, 0, 0))
  {
    assert Merge([DUMMY], 1, [FIVE]) == [DUMMY, FIVE] by {
      assert [FIVE][1..] == [] && [DUMMY] + [FIVE] == [DUMMY, FIVE];
    }
  }

  lemma CommittedOne()
    ensures Goes(D4, Commit(0), D5)
  {
    assert CountMatches([0, 1, 0], 0, 1, 1) == 0;
    assert CountMatches([0, 1, 0], 0, 1, 2) == 1;
    assert CountMatches([0, 1, 0], 0, 1, 3) == 1;
    assert ScanCommit(L2, 0, 3, 1) == 1;
    assert D4.nodes[0 := L3] == D5.nodes;
  }

  lemma AppliedOne()
    ensures Goes(D5, Apply(0), D6)
  {
    assert Deliveries(L3, 1, 1) == [];
    assert Deliveries(L3, 0, 1) == [ApplyCommand(1, Op(5))];
    FeedOne([], 1, Op(5));
    assert [] + [Op(5)] == [Op(5)];
    ReceivedOne(0, 1, Op(5));
    assert FED == D5.apps[0 := [Op(5)]] && D5.delivered + {Delivery(0, 1, Op(5))} == TOLD;
    assert ApplyCommitted(L3) == (L4, [ApplyCommand(1, Op(5))]);
    assert D5.nodes[0 := L4] == D6.nodes;
  }

  lemma Compacted()
    ensures Goes(D6, Compact(0, 1, [Op(5)]), D7)
  {
    assert [DUMMY, FIVE][2..] == [];
    assert RaiseNext([1, 2, 1], 0, 2) == [1, 2, 2] && RaiseMatch([0, 1, 0], 1) == [1, 1, 1];
    assert Snapshot(L4, 0, 1, [Op(5)]) == L5;
    assert D6.nodes[0 := L5] == D7.nodes;
  }

  lemma RefusedEmpty()
    ensures Goes(D8, AppendArrives(EMPTY_CALL), D9) && Goes(D9, AppendAnswered(EMPTY_ANSWER), D10)
  {
    assert AppendEntries(NEW, EMPTY_CALL.args) == (REFUSER, AppendReply(0, false, -1, -1, 1));
    assert [1, 2, 2][2 := 1] == [1, 2, 1];
  }

  lemma TookDummy()
    ensures Goes(D11, AppendArrives(DUMMY_CALL), D12)
  {
    assert Merge([DUMMY], 1, [Entry(1, Nil)]) == [DUMMY, Entry(1, Nil)] by {
      assert [Entry(1, Nil)][1..] == [] && [DUMMY] + [Entry(1, Nil)] == [DUMMY, Entry(1, Nil)];
    }
    assert AppendEntries(REFUSER, DUMMY_CALL.args) == (FOOLED, AppendReply(1, true, 0, 0, 0));
  }

  lemma AppliedNil()
    ensures Goes(D12, Apply(2), D13)
  {
    assert Deliveries(FOOLED, 1, 1) == [];
    assert Deliveries(FOOLED, 0, 1) == [ApplyCommand(1, Nil)];
    FeedOne([], 1, Nil);
    assert [] + [Nil] == [Nil];
    ReceivedOne(2, 1, Nil);
    assert ApplyCommitted(FOOLED) == (SERVED, [ApplyCommand(1, Nil)]);
    assert D12.nodes[2 := SERVED] == D13.nodes && D12.apps[2 := [Nil]] == D13.apps;
  }

  // ----- the run

  lemma Replicated() returns (b: Course)
    ensures Clear(b, D6, {FIRST})
  {
    b := Started();
    Taken();
    b := Did(b, ELECTED, {}, Propose(0, Op(5)), D1);
    b := DidRead(b, D1, {});
    assert {} + {NoteOf(L1)} == {FIRST};
    assert [DUMMY, FIVE][1..] == [FIVE];
    b := DidSend(b, D1, {FIRST}, 1, FIRST, D2);
    Brought();
    Acknowledged();
    CommittedOne();
    AppliedOne();
    b := Did(b, D2, {FIRST}, AppendArrives(TRUE_CALL), D3);
    b := Did(b, D3, {FIRST}, AppendAnswered(TRUE_ANSWER), D4);
    b := Did(b, D4, {FIRST}, Commit(0), D5);
    b := Did(b, D5, {FIRST}, Apply(0), D6);
  }

  lemma Overtaken() returns (b: Course)
    ensures Clear(b, D10, {FIRST, STALE, FRESH})
  {
    b := Replicated();
    b := DidRead(b, D6, {FIRST});
    assert {FIRST} + {NoteOf(L4)} == {FIRST, STALE};
    Compacted();
    b := Did(b, D6, {FIRST, STALE}, Compact(0, 1, [Op(5)]), D7);
    b := DidRead(b, D7, {FIRST, STALE});
    assert {FIRST, STALE} + {NoteOf(L5)} == {FIRST, STALE, FRESH};
    assert [Entry(1, Nil)][1..] == [];
    b := DidSend(b, D7, {FIRST, STALE, FRESH}, 2, FRESH, D8);
    RefusedEmpty();
    b := Did(b, D8, {FIRST, STALE, FRESH}, AppendArrives(EMPTY_CALL), D9);
    b := Did(b, D9, {FIRST, STALE, FRESH}, AppendAnswered(EMPTY_ANSWER), D10);
  }

  lemma Fooled(b: Course) returns (c: Course)
    requires Reached(b, D11, {FIRST, STALE, FRESH})
    ensures IsCourse(c, 3) && b.states <= c.states && Last(c.states).system == D13
    ensures c.actions == b.actions + [Other(AppendArrives(DUMMY_CALL)), Other(Apply(2))]
  {
    TookDummy();
    AppliedNil();
    c := Did(b, D11, {FIRST, STALE, FRESH}, AppendArrives(DUMMY_CALL), D12);
    c := Did(c, D12, {FIRST, STALE, FRESH}, Apply(2), D13);
  }

  /** A heartbeat reads; the server takes a snapshot; the next heartbeat's message is refused, which sends
      nextIndex of server 2 back to 1; then the first heartbeat builds its message for server 2, and ships the
      dummy entry.  It is the only message of the course that is not guarded, and the only harmful one.  Server 2
      takes the dummy for the entry at index 1, where server 1 holds Op(5) of the same term, and its service is
      given Nil where the service of server 0 was given Op(5). */
  lemma DummyIsShipped() returns (b: Course, k: nat, r: Run)
    ensures IsCourse(b, 3) && k < |b.actions| && b.actions[k] == SendRead(0, 2, STALE)
    ensures IsRun(r, 3) && Last(r.states) == b.states[k].system
    ensures |Last(r.states).nodes| == 3 && Last(r.states).nodes[0].nextIndex == [1, 2, 1]
    ensures BuildFrom(Last(r.states).nodes[0], 0, 2, STALE.seen) ==
            SendAppend(AppendArgs(1, 0, 0, 0, [Entry(1, Nil)], 1))
    ensures forall i :: 0 <= i < |b.actions| ==> (Guarded(b.states[i], b.actions[i]) <==> i != k)
    ensures forall i :: 0 <= i < |b.actions| ==> (DoesNoHarm(b.states[i], b.actions[i]) <==> i != k)
    ensures Last(b.states).system == D13
    ensures D13.nodes[1].log == [DUMMY, Entry(1, Op(5))] && D13.nodes[2].log == [DUMMY, Entry(1, Nil)]
    ensures Delivery(0, 1, Op(5)) in D13.delivered && Delivery(2, 1, Nil) in D13.delivered
  {
    b := Overtaken();
    k := |b.actions|;
    var at;
    r, at := GuardedIsRun(b, 3, k);
    assert [Entry(1, Nil)][0..] == [Entry(1, Nil)];
    assert BuildFrom(L6, 0, 2, STALE.seen) == SendAppend(DUMMY_CALL.args);
    b := Acted(b, 3, SendRead(0, 2, STALE));
    b := Fooled(b);
  }
}
