/** A run of three servers in which a late snapshot throws a service back and a command is skipped. */
module RaftSkippedRun {
  import opened RaftNode
  import opened RaftSystem
  import opened RaftHeartbeat
  import opened RaftScene
  import opened Traces
  import RaftService

  // ----- its states

  const ONE: Entry := Entry(1, Op(1))
  const TWO: Entry := Entry(1, Op(2))
  const THREE: Entry := Entry(1, Op(3))
  const CUT: seq<Entry> := [Entry(1, Nil), TWO, THREE]

  const CALL: AppendCall := AppendCall(1, AppendArgs(1, 0, 0, 0, [ONE, TWO], 0))
  const ANSWER: AppendAnswer := AppendAnswer(1, CALL.args, AppendReply(1, true, 0, 0, 0))
  const LATE_CALL: AppendCall := AppendCall(2, AppendArgs(1, 0, 0, 0, [ONE, TWO, THREE], 2))
  const LATE_ANSWER: AppendAnswer := AppendAnswer(2, LATE_CALL.args, AppendReply(1, true, 0, 0, 0))
  const HIGH_CALL: AppendCall := AppendCall(2, AppendArgs(1, 0, 1, 1, [TWO, THREE], 2))
  const HIGH_ANSWER: AppendAnswer := AppendAnswer(2, HIGH_CALL.args, AppendReply(0, false, -1, -1, 1))
  const INSTALL: InstallCall := InstallCall(2, InstallArgs(1, 0, 1, 1, [Op(1)]))
  const LAST_CALL: AppendCall := AppendCall(2, AppendArgs(1, 0, 3, 1, [], 3))

  const KEEPER: Node := Obeys(0, [DUMMY, ONE, TWO], 0, 0, 0, [])

  const LONG: seq<Entry> := [DUMMY, ONE, TWO, THREE]
  const ANSWERS: set<AppendAnswer> := {ANSWER, HIGH_ANSWER, LATE_ANSWER}
  const CALLS: set<AppendCall> := {CALL, LATE_CALL, HIGH_CALL}
  const LAST_ANSWER: AppendAnswer := AppendAnswer(2, LAST_CALL.args, AppendReply(1, true, 0, 0, 0))
  const INSTALLED: InstallAnswer := InstallAnswer(2, INSTALL.args, InstallReply(1))
  const GIVEN: set<Delivery> := {Delivery(0, 1, Op(1)), Delivery(0, 2, Op(2))}
  const GIVEN_BOTH: set<Delivery> := GIVEN + {Delivery(2, 1, Op(1)), Delivery(2, 2, Op(2))}

  /** Server 0 takes Op(1) and Op(2), brings them to server 1, commits and applies them, and takes Op(3). */
  const L1: Node := Leads([DUMMY, ONE], 0, 0, [1, 1, 1], [0, 0, 0], 0, [])
  const L2: Node := Leads([DUMMY, ONE, TWO], 0, 0, [1, 1, 1], [0, 0, 0], 0, [])
  const L3: Node := Leads([DUMMY, ONE, TWO], 0, 0, [1, 3, 1], [0, 2, 0], 0, [])
  const L4: Node := Leads([DUMMY, ONE, TWO], 2, 0, [1, 3, 1], [0, 2, 0], 0, [])
  const L5: Node := Leads([DUMMY, ONE, TWO], 2, 2, [1, 3, 1], [0, 2, 0], 0, [])
  const L6: Node := Leads(LONG, 2, 2, [1, 3, 1], [0, 2, 0], 0, [])

  const BLANK: seq<seq<Command>> := [[], [], []]
  const AHEAD: seq<seq<Command>> := [[Op(1), Op(2)], [], []]

  const S1: System := State([L1, VOTER, NEW], {}, {}, {}, {}, BLANK, {})
  const S2: System := State([L2, VOTER, NEW], {}, {}, {}, {}, BLANK, {})
  const S3: System := State([L2, VOTER, NEW], {CALL}, {}, {}, {}, BLANK, {})
  const S4: System := State([L2, KEEPER, NEW], {CALL}, {ANSWER}, {}, {}, BLANK, {})
  const S5: System := State([L3, KEEPER, NEW], {CALL}, {ANSWER}, {}, {}, BLANK, {})
  const S6: System := State([L4, KEEPER, NEW], {CALL}, {ANSWER}, {}, {}, BLANK, {})
  const S7: System := State([L5, KEEPER, NEW], {CALL}, {ANSWER}, {}, {}, AHEAD, GIVEN)
  const S8: System := State([L6, KEEPER, NEW], {CALL}, {ANSWER}, {}, {}, AHEAD, GIVEN)

  /** A message to server 2 is delayed.  Server 0 takes a snapshot of index 1, server 2 refuses what lies
      above it, and the snapshot is sent and delayed, too. */
  const L7: Node := Leads(CUT, 2, 2, [1, 3, 2], [1, 2, 1], 1, [Op(1)])
  const L8: Node := Leads(CUT, 2, 2, [1, 3, 1], [1, 2, 1], 1, [Op(1)])

  const S9: System := State([L6, KEEPER, NEW], {CALL, LATE_CALL}, {ANSWER}, {}, {}, AHEAD, GIVEN)
  const S10: System := State([L7, KEEPER, NEW], {CALL, LATE_CALL}, {ANSWER}, {}, {}, AHEAD, GIVEN)
  const S11: System := State([L7, KEEPER, NEW], CALLS, {ANSWER}, {}, {}, AHEAD, GIVEN)
  const S12: System := State([L7, KEEPER, REFUSER], CALLS, {ANSWER, HIGH_ANSWER}, {}, {}, AHEAD, GIVEN)
  const S13: System := State([L8, KEEPER, REFUSER], CALLS, {ANSWER, HIGH_ANSWER}, {}, {}, AHEAD, GIVEN)
  const S14: System := State([L8, KEEPER, REFUSER], CALLS, {ANSWER, HIGH_ANSWER}, {INSTALL}, {}, AHEAD, GIVEN)

  /** The message arrives and server 2 applies Op(1) and Op(2); then the snapshot arrives. */
  const F1: Node := Obeys(NOBODY, LONG, 2, 0, 0, [])
  const F2: Node := Obeys(NOBODY, LONG, 2, 2, 0, [])
  const F3: Node := Obeys(NOBODY, CUT, 2, 2, 1, [Op(1)])
  const EVEN: seq<seq<Command>> := [[Op(1), Op(2)], [], [Op(1), Op(2)]]
  const BACK: seq<seq<Command>> := [[Op(1), Op(2)], [], [Op(1)]]

  const S15: System := State([L8, KEEPER, F1], CALLS, ANSWERS, {INSTALL}, {}, AHEAD, GIVEN)
  const S16: System := State([L8, KEEPER, F2], CALLS, ANSWERS, {INSTALL}, {}, EVEN, GIVEN_BOTH)
  const S17: System := State([L8, KEEPER, F3], CALLS, ANSWERS, {INSTALL}, {INSTALLED}, BACK, GIVEN_BOTH)

  /** Server 0 learns that server 2 holds Op(3), commits it and says so. */
  const L9: Node := Leads(CUT, 2, 2, [1, 3, 4], [1, 2, 3], 1, [Op(1)])
  const L10: Node := Leads(CUT, 3, 2, [1, 3, 4], [1, 2, 3], 1, [Op(1)])
  const F4: Node := Obeys(NOBODY, CUT, 3, 2, 1, [Op(1)])
  const F5: Node := Obeys(NOBODY, CUT, 3, 3, 1, [Op(1)])
  const SKIPPED: seq<seq<Command>> := [[Op(1), Op(2)], [], [Op(1), Op(3)]]

  const S18: System := State([L9, KEEPER, F3], CALLS, ANSWERS, {INSTALL}, {INSTALLED}, BACK, GIVEN_BOTH)
  const S19: System := State([L10, KEEPER, F3], CALLS, ANSWERS, {INSTALL}, {INSTALLED}, BACK, GIVEN_BOTH)
  const S20: System := S19.(appendCalls := CALLS + {LAST_CALL})
  const S21: System :=
    State([L10, KEEPER, F4], CALLS + {LAST_CALL}, ANSWERS + {LAST_ANSWER}, {INSTALL}, {INSTALLED}, BACK, GIVEN_BOTH)
  const S22: System :=
    State([L10, KEEPER, F5], CALLS + {LAST_CALL}, ANSWERS + {LAST_ANSWER}, {INSTALL}, {INSTALLED}, SKIPPED,
          GIVEN_BOTH + {Delivery(2, 3, Op(3))})

  lemma Proposed()
    ensures Goes(ELECTED, Propose(0, Op(1)), S1) && Goes(S1, Propose(0, Op(2)), S2)
    ensures Goes(S2, Send(0, 1, 0), S3)
  {
    assert [DUMMY] + [ONE] == [DUMMY, ONE] && [DUMMY, ONE] + [TWO] == [DUMMY, ONE, TWO];
    assert [DUMMY, ONE, TWO][1..] == [ONE, TWO];
  }

  lemma KeptTwo()
    ensures Goes(S3, AppendArrives(CALL), S4) && Goes(S4, AppendAnswered(ANSWER), S5)
  {
    MergeTwo();
    assert AppendEntries(VOTER, CALL.args) == (KEEPER, AppendReply(1, true, 0, 0, 0));
    assert S3.nodes[1 := KEEPER] == S4.nodes;
    assert [0, 0, 0][1 := 2] == [0, 2, 0] && [1, 1, 1][1 := 3] == [1, 3, 1];
  }

  lemma MergeTwo()
    ensures Merge([DUMMY], 1, [ONE, TWO]) == [DUMMY, ONE, TWO]
  {
    assert [ONE, TWO][1..] == [TWO] && [TWO][1..] == [];
    assert [DUMMY] + [ONE] == [DUMMY, ONE] && [DUMMY, ONE] + [TWO] == [DUMMY, ONE, TWO];
    assert Merge([DUMMY, ONE], 2, [TWO]) == [DUMMY, ONE, TWO];
  }

  lemma MergeThree()
    ensures Merge([DUMMY], 1, [ONE, TWO, THREE]) == [DUMMY, ONE, TWO, THREE]
  {
    assert [ONE, TWO, THREE][1..] == [TWO, THREE] && [TWO, THREE][1..] == [THREE] && [THREE][1..] == [];
    assert [DUMMY] + [ONE] == [DUMMY, ONE] && [DUMMY, ONE] + [TWO] == [DUMMY, ONE, TWO];
    assert [DUMMY, ONE, TWO] + [THREE] == [DUMMY, ONE, TWO, THREE];
    assert Merge([DUMMY, ONE, TWO], 3, [THREE]) == [DUMMY, ONE, TWO, THREE];
    assert Merge([DUMMY, ONE], 2, [TWO, THREE]) == [DUMMY, ONE, TWO, THREE];
  }

  lemma CommittedTwo()
    ensures Goes(S5, Commit(0), S6)
  {
    assert CountMatches([0, 2, 0], 0, 2, 1) == 0;
    assert CountMatches([0, 2, 0], 0, 2, 2) == 1;
    assert CountMatches([0, 2, 0], 0, 2, 3) == 1;
    assert ScanCommit(L3, 0, 3, 2) == 2;
  }

  lemma DeliverTwo(n: Node)
    requires n.snapshotIndex == 0 && [DUMMY, ONE, TWO] <= n.log
    ensures Deliveries(n, 0, 2) == [ApplyCommand(1, Op(1)), ApplyCommand(2, Op(2))]
  {
    assert n.log[1] == ONE && n.log[2] == TWO;
    assert Deliveries(n, 2, 2) == [];
    assert Deliveries(n, 1, 2) == [ApplyCommand(2, Op(2))];
  }

  lemma AppliedTwo()
    ensures Goes(S6, Apply(0), S7) && Goes(S7, Propose(0, Op(3)), S8)
  {
    DeliverTwo(L4);
    FeedTwo([], Op(1), Op(2));
    assert [] + [Op(1), Op(2)] == [Op(1), Op(2)];
    ReceivedTwo(0, Op(1), Op(2));
    assert S6.delivered + {Delivery(0, 1, Op(1)), Delivery(0, 2, Op(2))} == S7.delivered;
    assert S6.nodes[0 := L5] == S7.nodes && S6.apps[0 := [Op(1), Op(2)]] == S7.apps;
    assert [DUMMY, ONE, TWO] + [THREE] == [DUMMY, ONE, TWO, THREE];
  }

  lemma DelayedCall()
    ensures Goes(S8, Send(0, 2, 2), S9)
  {
    assert [DUMMY, ONE, TWO, THREE][1..] == [ONE, TWO, THREE];
    assert BuildMessage(L6, 0, 2, 2) == SendAppend(LATE_CALL.args);
  }

  lemma CutShort()
    ensures Goes(S9, Compact(0, 1, [Op(1)]), S10)
  {
    var n := L6;
    assert n.log[2..] == [TWO, THREE] && [Entry(1, Nil)] + [TWO, THREE] == CUT;
    assert RaiseNext([1, 3, 1], 0, 2) == [1, 3, 2] && RaiseMatch([0, 2, 0], 1) == [1, 2, 1];
    assert Snapshot(n, 0, 1, [Op(1)]) == L7;
    assert S9.nodes[0 := L7] == S10.nodes;
  }

  lemma SentHigh()
    ensures Goes(S10, Send(0, 2, 2), S11)
  {
    assert CUT[1..] == [TWO, THREE];
    assert BuildMessage(L7, 0, 2, 2) == SendAppend(HIGH_CALL.args);
  }

  lemma RefusedHigh()
    ensures Goes(S11, AppendArrives(HIGH_CALL), S12) && Goes(S12, AppendAnswered(HIGH_ANSWER), S13)
  {
    assert AppendEntries(NEW, HIGH_CALL.args) == (REFUSER, HIGH_ANSWER.reply);
    assert S11.nodes[2 := REFUSER] == S12.nodes;
    assert [1, 3, 2][2 := 1] == [1, 3, 1];
    assert S12.nodes[0 := L8] == S13.nodes;
  }

  lemma SentSnapshot()
    ensures Goes(S13, Send(0, 2, 2), S14)
  {
    assert BuildMessage(L8, 0, 2, 2) == SendInstall(INSTALL.args);
  }

  lemma CaughtUp()
    ensures Goes(S14, AppendArrives(LATE_CALL), S15)
  {
    MergeThree();
    assert AppendEntries(REFUSER, LATE_CALL.args) == (F1, AppendReply(1, true, 0, 0, 0));
    assert S14.nodes[2 := F1] == S15.nodes;
  }

  lemma AppliedBoth()
    ensures Goes(S15, Apply(2), S16)
  {
    DeliverTwo(F1);
    FeedTwo([], Op(1), Op(2));
    assert [] + [Op(1), Op(2)] == [Op(1), Op(2)];
    ReceivedTwo(2, Op(1), Op(2));
    assert ApplyCommitted(F1).0 == F2;
    assert S15.nodes[2 := F2] == S16.nodes && S15.apps[2 := [Op(1), Op(2)]] == S16.apps;
  }

  lemma ThrownBack()
    ensures Goes(S16, InstallArrives(INSTALL), S17)
  {
    var msgs := [ApplySnapshot(1, 1, [Op(1)])];
    assert msgs[1..] == [];
    assert Feed([Op(1), Op(2)], msgs) == Feed([Op(1)], msgs[1..]);
    assert [DUMMY, ONE, TWO, THREE][2..] == [TWO, THREE] && [Entry(1, Nil)] + [TWO, THREE] == CUT;
    var r := InstallSnapshot(F2, INSTALL.args);
    assert r == InstallResult(F3, InstallReply(1), msgs);
    assert Received(2, msgs) == {};
    assert S16.nodes[2 := F3] == S17.nodes && S16.apps[2 := [Op(1)]] == S17.apps;
  }

  lemma LearnedThree()
    ensures Goes(S17, AppendAnswered(LATE_ANSWER), S18)
  {
    assert [1, 2, 1][2 := 3] == [1, 2, 3] && [1, 3, 1][2 := 4] == [1, 3, 4];
    assert HandleAppendReply(L8, 2, LATE_CALL.args, LATE_ANSWER.reply) == L9;
    assert S17.nodes[0 := L9] == S18.nodes;
  }

  lemma CommittedThree()
    ensures Goes(S18, Commit(0), S19)
  {
    assert CountMatches([1, 2, 3], 0, 3, 1) == 0;
    assert CountMatches([1, 2, 3], 0, 3, 2) == 0;
    assert CountMatches([1, 2, 3], 0, 3, 3) == 1;
    assert ScanCommit(L9, 0, 3, 3) == 3;
    assert S18.nodes[0 := L10] == S19.nodes;
  }

  lemma HeardThree()
    ensures Goes(S19, Send(0, 2, 3), S20) && Goes(S20, AppendArrives(LAST_CALL), S21)
  {
    assert AppendEntries(F3, LAST_CALL.args) == (F4, AppendReply(1, true, 0, 0, 0));
    assert S20.nodes[2 := F4] == S21.nodes;
  }

  lemma SkippedTwo()
    ensures Goes(S21, Apply(2), S22)
  {
    var n := F4;
    assert Deliveries(n, 3, 3) == [];
    assert Deliveries(n, 2, 3) == [ApplyCommand(3, Op(3))];
    FeedOne([Op(1)], 3, Op(3));
    ReceivedOne(2, 3, Op(3));
    assert [Op(1)] + [Op(3)] == [Op(1), Op(3)];
    assert ApplyCommitted(n) == (F5, [ApplyCommand(3, Op(3))]);
    assert S21.nodes[2 := F5] == S22.nodes && S21.apps[2 := [Op(1), Op(3)]] == S22.apps;
  }

  /** A run whose steps so far are all orderly, but for the one at k. */
  ghost predicate Tidy(r: Run, s: System, k: int) {
    && IsRun(r, 3) && Last(r.states) == s
    && forall i :: 0 <= i < |r.steps| ==> (RaftService.Orderly(r.states[i], r.steps[i]) <==> i != k)
  }

  lemma Went(r: Run, s: System, k: int, step: Step, t: System) returns (q: Run)
    requires Tidy(r, s, k) && Goes(s, step, t) && (RaftService.Orderly(s, step) <==> |r.steps| != k)
    ensures Tidy(q, t, k) && |q.steps| == |r.steps| + 1 && (|r.steps| == k ==> q.steps[k] == step)
    ensures 0 <= k < |r.steps| ==> q.steps[k] == r.steps[k]
  {
    q := Extended(r, 3, step);
    forall i | 0 <= i < |q.steps|
      ensures RaftService.Orderly(q.states[i], q.steps[i]) <==> i != k
    {
      if i < |r.steps| {
        assert q.states[i] == r.states[i] && q.steps[i] == r.steps[i];
      }
    }
  }

  lemma WentToPoll() returns (r: Run)
    ensures Tidy(r, ELECTED, -1) && |r.steps| == 3
  {
    Election();
    r := Run([Init(3)], []);
    r := Went(r, Init(3), -1, Timeout(0), STOOD);
    r := Went(r, STOOD, -1, VoteArrives(KEY), VOTED);
    r := Went(r, VOTED, -1, VoteAnswered(KEY), ELECTED);
  }

  lemma Opened() returns (r: Run)
    ensures Tidy(r, S5, -1) && |r.steps| == 8
  {
    r := WentToPoll();
    Proposed();
    KeptTwo();
    r := Went(r, ELECTED, -1, Propose(0, Op(1)), S1);
    r := Went(r, S1, -1, Propose(0, Op(2)), S2);
    r := Went(r, S2, -1, Send(0, 1, 0), S3);
    r := Went(r, S3, -1, AppendArrives(CALL), S4);
    r := Went(r, S4, -1, AppendAnswered(ANSWER), S5);
  }

  lemma Crossed() returns (r: Run)
    ensures Tidy(r, S14, -1) && |r.steps| == 17
  {
    r := Opened();
    CommittedTwo();
    AppliedTwo();
    DelayedCall();
    CutShort();
    SentHigh();
    RefusedHigh();
    SentSnapshot();
    r := Went(r, S5, -1, Commit(0), S6);
    r := Went(r, S6, -1, Apply(0), S7);
    r := Went(r, S7, -1, Propose(0, Op(3)), S8);
    r := Went(r, S8, -1, Send(0, 2, 2), S9);
    assert [Op(1), Op(2)][..1] == [Op(1)];
    r := Went(r, S9, -1, Compact(0, 1, [Op(1)]), S10);
    r := Went(r, S10, -1, Send(0, 2, 2), S11);
    r := Went(r, S11, -1, AppendArrives(HIGH_CALL), S12);
    r := Went(r, S12, -1, AppendAnswered(HIGH_ANSWER), S13);
    r := Went(r, S13, -1, Send(0, 2, 2), S14);
  }

  lemma Overwritten() returns (r: Run)
    ensures Tidy(r, S17, 19) && |r.steps| == 20 && r.steps[19] == InstallArrives(INSTALL)
  {
    r := Crossed();
    CaughtUp();
    AppliedBoth();
    ThrownBack();
    r := Went(r, S14, 19, AppendArrives(LATE_CALL), S15);
    r := Went(r, S15, 19, Apply(2), S16);
    assert F2.lastApplied == 2;
    r := Went(r, S16, 19, InstallArrives(INSTALL), S17);
  }

  lemma Relearned() returns (r: Run)
    ensures Tidy(r, S19, 19) && |r.steps| == 22 && r.steps[19] == InstallArrives(INSTALL)
  {
    r := Overwritten();
    LearnedThree();
    CommittedThree();
    r := Went(r, S17, 19, AppendAnswered(LATE_ANSWER), S18);
    r := Went(r, S18, 19, Commit(0), S19);
  }

  lemma Closed() returns (r: Run)
    ensures Tidy(r, S22, 19) && |r.steps| == 25 && r.steps[19] == InstallArrives(INSTALL)
  {
    r := Relearned();
    HeardThree();
    SkippedTwo();
    r := Went(r, S19, 19, Send(0, 2, 3), S20);
    r := Went(r, S20, 19, AppendArrives(LAST_CALL), S21);
    r := Went(r, S21, 19, Apply(2), S22);
  }

  /** A leader's message and, after it, its snapshot of index 1 are delayed.  The message lets server 2 apply
      Op(1) and Op(2); then the snapshot arrives and throws its service back to Op(1), while lastApplied stays
      2.  What the service is given next is Op(3); Op(2) is missing for good.  The arrival of the snapshot is
      the only step of the run that is not orderly. */
  lemma CommandIsSkipped() returns (r: Run, k: nat)
    ensures IsRun(r, 3) && k < |r.steps| && r.steps[k] == InstallArrives(INSTALL)
    ensures forall i :: 0 <= i < |r.steps| ==> (RaftService.Orderly(r.states[i], r.steps[i]) <==> i != k)
    ensures Last(r.states).apps == [[Op(1), Op(2)], [], [Op(1), Op(3)]]
    ensures |Last(r.states).nodes| == 3 && Last(r.states).nodes[2].lastApplied == 3
  {
    r := Closed();
    k := 19;
  }
}
