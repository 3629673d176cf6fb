/** A run of three servers in which a snapshot is installed over a conflicting log. */
module RaftConflictRun {
  import opened RaftNode
  import opened RaftSystem
  import opened RaftHeartbeat
  import opened RaftScene
  import opened Traces

  // ----- its states

  const A: Entry := Entry(1, Op(1))
  const B: Entry := Entry(1, Op(2))
  const C: Entry := Entry(2, Op(3))
  const TOP: Entry := Entry(2, Nil)

  /** A server that has saved everything. */
  function Saved(term: nat, votedFor: int, log: seq<Entry>, index: nat, nextIndex: seq<nat>, matchIndex: seq<nat>,
                 role: Role, snapshotIndex: nat, votes: nat): Node
  {
    var snapshotTerm, snapshot := if snapshotIndex == 0 then 0 else 2, if snapshotIndex == 0 then [] else [Op(3)];
    Node(term, votedFor, log, index, index, nextIndex, matchIndex, role, snapshotIndex, snapshotTerm,
         votes, votes > 1, Disk(term, votedFor, log, snapshotIndex, snapshotTerm, snapshot))
  }

  function Stage(nodes: seq<Node>, voteCalls: map<VoteKey, VoteArgs>, calls: set<AppendCall>,
                 answers: set<AppendAnswer>, apps: seq<seq<Command>>): System
  {
    System(nodes, voteCalls, map[], calls, answers, {}, {}, apps,
           if apps == BLANK then {} else {Delivery(0, 1, Op(3))})
  }

  const BLANK: seq<seq<Command>> := [[], [], []]
  const FED: seq<seq<Command>> := [[Op(3)], [], []]
  const YES: VoteReply := VoteReply(0, true)
  const FIRST: VoteArgs := VoteArgs(1, 2, 0, 0)
  const SECOND: VoteArgs := VoteArgs(2, 0, 0, 0)
  const LEFT: map<VoteKey, VoteArgs> := map[VoteKey(1, 2, 1) := FIRST]
  const OPEN: map<VoteKey, VoteArgs> := LEFT + map[VoteKey(2, 0, 2) := SECOND]

  /** Server 2 leads term 1 and keeps two entries to itself. */
  const P1: Node := Saved(1, 2, [DUMMY], 0, [], [], Candidate, 0, 1)
  const P2: Node := Saved(1, 2, [DUMMY], 0, [1, 1, 1], [0, 0, 0], Leader, 0, 2)
  const P3: Node := Saved(1, 2, [DUMMY, A], 0, [1, 1, 1], [0, 0, 0], Leader, 0, 2)
  const P4: Node := Saved(1, 2, [DUMMY, A, B], 0, [1, 1, 1], [0, 0, 0], Leader, 0, 2)
  const Z1: Node := Saved(1, 2, [DUMMY], 0, [], [], Follower, 0, 0)

  const C1: System := Stage([NEW, NEW, P1], LEFT + map[VoteKey(1, 2, 0) := FIRST], {}, {}, BLANK)
  const C2: System := Stage([Z1, NEW, P1], LEFT, {}, {}, BLANK).(voteAnswers := map[VoteKey(1, 2, 0) := YES])
  const C3: System := Stage([Z1, NEW, P2], LEFT, {}, {}, BLANK)
  const C4: System := Stage([Z1, NEW, P3], LEFT, {}, {}, BLANK)
  const C5: System := Stage([Z1, NEW, P4], LEFT, {}, {}, BLANK)

  /** Server 0 is elected in term 2 by server 1, which has not heard of them. */
  const Z2: Node := Saved(2, 0, [DUMMY], 0, [], [], Candidate, 0, 1)
  const Z3: Node := Saved(2, 0, [DUMMY], 0, [1, 1, 1], [0, 0, 0], Leader, 0, 2)
  const Z4: Node := Saved(2, 0, [DUMMY, C], 0, [1, 1, 1], [0, 0, 0], Leader, 0, 2)
  const V1: Node := Saved(2, 0, [DUMMY], 0, [], [], Follower, 0, 0)

  const C6: System := Stage([Z2, NEW, P4], OPEN + map[VoteKey(2, 0, 1) := SECOND], {}, {}, BLANK)
  const C7: System := Stage([Z2, V1, P4], OPEN, {}, {}, BLANK).(voteAnswers := map[VoteKey(2, 0, 1) := YES])
  const C8: System := Stage([Z3, V1, P4], OPEN, {}, {}, BLANK)
  const C9: System := Stage([Z4, V1, P4], OPEN, {}, {}, BLANK)

  /** It commits Op(3) at index 1 with server 1, applies it and takes a snapshot. */
  const CALL: AppendCall := AppendCall(1, AppendArgs(2, 0, 0, 0, [C], 0))
  const ANSWER: AppendAnswer := AppendAnswer(1, CALL.args, AppendReply(2, true, 0, 0, 0))
  const V2: Node := Saved(2, 0, [DUMMY, C], 0, [], [], Follower, 0, 0)
  const Z5: Node := Saved(2, 0, [DUMMY, C], 0, [1, 2, 1], [0, 1, 0], Leader, 0, 2)
  const Z6: Node := Z5.(commitIndex := 1)
  const Z7: Node := Saved(2, 0, [DUMMY, C], 1, [1, 2, 1], [0, 1, 0], Leader, 0, 2)
  const Z8: Node := Saved(2, 0, [TOP], 1, [1, 2, 2], [1, 1, 1], Leader, 1, 2)

  const C10: System := Stage([Z4, V1, P4], OPEN, {CALL}, {}, BLANK)
  const C11: System := Stage([Z4, V2, P4], OPEN, {CALL}, {ANSWER}, BLANK)
  const C12: System := Stage([Z5, V2, P4], OPEN, {CALL}, {ANSWER}, BLANK)
  const C13: System := Stage([Z6, V2, P4], OPEN, {CALL}, {ANSWER}, BLANK)
  const C14: System := Stage([Z7, V2, P4], OPEN, {CALL}, {ANSWER}, FED)
  const C15: System := Stage([Z8, V2, P4], OPEN, {CALL}, {ANSWER}, FED)

  /** Server 2 refuses what lies above the snapshot, and is sent the snapshot. */
  const HIGH: AppendCall := AppendCall(2, AppendArgs(2, 0, 1, 2, [], 1))
  const REFUSAL: AppendAnswer := AppendAnswer(2, HIGH.args, AppendReply(1, false, 1, 1, 3))
  const INSTALL: InstallCall := InstallCall(2, InstallArgs(2, 0, 1, 2, [Op(3)]))
  const P5: Node := Saved(2, NOBODY, [DUMMY, A, B], 0, [1, 1, 1], [0, 0, 0], Follower, 0, 2)
  const P6: Node := Saved(2, NOBODY, [TOP, B], 1, [1, 1, 1], [0, 0, 0], Follower, 1, 2)
  const Z9: Node := Saved(2, 0, [TOP], 1, [1, 2, 1], [1, 1, 1], Leader, 1, 2)

  const C16: System := Stage([Z8, V2, P4], OPEN, {CALL, HIGH}, {ANSWER}, FED)
  const C17: System := Stage([Z8, V2, P5], OPEN, {CALL, HIGH}, {ANSWER, REFUSAL}, FED)
  const C18: System := Stage([Z9, V2, P5], OPEN, {CALL, HIGH}, {ANSWER, REFUSAL}, FED)
  const C19: System := C18.(installCalls := {INSTALL})
  const C20: System := C19.(nodes := [Z9, V2, P6], installAnswers := {InstallAnswer(2, INSTALL.args, InstallReply(2))},
                            apps := [[Op(3)], [], [Op(3)]])

  // ----- its steps

  lemma Stands()
    ensures Goes(Init(3), Timeout(2), C1)
  {
    var s := Init(3);
    assert s.nodes == [NEW, NEW, NEW] && s.apps == BLANK;
    assert StartElection(NEW, 2) == P1;
    assert BallotCalls(3, P1, 2) == LEFT + map[VoteKey(1, 2, 0) := FIRST];
    assert s.nodes[2 := P1] == [NEW, NEW, P1];
  }

  lemma Votes()
    ensures Goes(C1, VoteArrives(VoteKey(1, 2, 0)), C2)
  {
    assert RequestVote(NEW, FIRST) == (Z1, YES);
    assert C1.voteCalls - {VoteKey(1, 2, 0)} == LEFT;
    assert C1.nodes[0 := Z1] == C2.nodes;
  }

  lemma Wins()
    ensures Goes(C2, VoteAnswered(VoteKey(1, 2, 0)), C3)
  {
    assert HandleVoteReply(P1, 2, 3, 1, YES) == P2 by {
      assert seq(3, _ => 1) == [1, 1, 1] && seq(3, _ => 0)[2 := 0] == [0, 0, 0];
    }
    assert C2.voteAnswers - {VoteKey(1, 2, 0)} == map[];
    assert C2.nodes[2 := P2] == C3.nodes;
  }

  lemma Keeps()
    ensures Goes(C3, Propose(2, Op(1)), C4) && Goes(C4, Propose(2, Op(2)), C5)
  {
    assert [DUMMY] + [A] == [DUMMY, A] && [DUMMY, A] + [B] == [DUMMY, A, B];
    assert C3.nodes[2 := P3] == C4.nodes && C4.nodes[2 := P4] == C5.nodes;
  }

  lemma StandsAgain()
    ensures Goes(C5, Timeout(0), C6)
  {
    assert StartElection(Z1, 0) == Z2;
    assert BallotCalls(3, Z2, 0) == map[VoteKey(2, 0, 1) := SECOND, VoteKey(2, 0, 2) := SECOND];
    assert LEFT + map[VoteKey(2, 0, 1) := SECOND, VoteKey(2, 0, 2) := SECOND] == C6.voteCalls;
    assert C5.nodes[0 := Z2] == C6.nodes;
  }

  lemma VotesAgain()
    ensures Goes(C6, VoteArrives(VoteKey(2, 0, 1)), C7)
  {
    assert RequestVote(NEW, SECOND) == (V1, YES);
    assert C6.voteCalls - {VoteKey(2, 0, 1)} == OPEN;
    assert C6.nodes[1 := V1] == C7.nodes;
  }

  lemma WinsAgain()
    ensures Goes(C7, VoteAnswered(VoteKey(2, 0, 1)), C8) && Goes(C8, Propose(0, Op(3)), C9)
  {
    assert HandleVoteReply(Z2, 0, 3, 2, YES) == Z3 by {
      assert seq(3, _ => 1) == [1, 1, 1] && seq(3, _ => 0)[0 := 0] == [0, 0, 0];
    }
    assert C7.voteAnswers - {VoteKey(2, 0, 1)} == map[];
    assert C7.nodes[0 := Z3] == C8.nodes;
    assert [DUMMY] + [C] == [DUMMY, C] && C8.nodes[0 := Z4] == C9.nodes;
  }

  lemma Sends()
    ensures Goes(C9, Send(0, 1, 0), C10)
  {
    assert [DUMMY, C][1..] == [C];
    assert BuildMessage(Z4, 0, 1, 0) == SendAppend(CALL.args);
  }

  lemma Brings()
    ensures Goes(C10, AppendArrives(CALL), C11)
  {
    assert [C][1..] == [] && [DUMMY] + [C] == [DUMMY, C];
    assert Merge([DUMMY], 1, [C]) == [DUMMY, C];
    assert AppendEntries(V1, CALL.args) == (V2, ANSWER.reply);
    assert C10.nodes[1 := V2] == C11.nodes;
  }

  lemma Learns()
    ensures Goes(C11, AppendAnswered(ANSWER), C12)
  {
    assert [0, 0, 0][1 := 1] == [0, 1, 0] && [1, 1, 1][1 := 2] == [1, 2, 1];
    assert C11.nodes[0 := Z5] == C12.nodes;
  }

  lemma Commits()
    ensures Goes(C12, Commit(0), C13)
  {
    assert CountMatches([0, 1, 0], 0, 1, 1) == 0;
    assert CountMatches([0, 1, 0], 0, 1, 2) == 1;
    assert CountMatches([0, 1, 0], 0, 1, 3) == 1;
    assert ScanCommit(Z5, 0, 3, 1) == 1;
    assert C12.nodes[0 := Z6] == C13.nodes;
  }

  lemma Applies()
    ensures Goes(C13, Apply(0), C14)
  {
    assert Deliveries(Z6, 1, 1) == [];
    assert Deliveries(Z6, 0, 1) == [ApplyCommand(1, Op(3))];
    FeedOne([], 1, Op(3));
    assert [] + [Op(3)] == [Op(3)];
    ReceivedOne(0, 1, Op(3));
    assert ApplyCommitted(Z6) == (Z7, [ApplyCommand(1, Op(3))]);
    assert FED[0] != BLANK[0];
    assert C13.nodes[0 := Z7] == C14.nodes && C13.apps[0 := [Op(3)]] == FED;
    assert C13.delivered + {Delivery(0, 1, Op(3))} == C14.delivered;
  }

  lemma CutShort()
    ensures Goes(C14, Compact(0, 1, [Op(3)]), C15)
  {
    assert [DUMMY, C][2..] == [] && [TOP] + [] == [TOP];
    assert RaiseNext([1, 2, 1], 0, 2) == [1, 2, 2] && RaiseMatch([0, 1, 0], 1) == [1, 1, 1];
    assert Snapshot(Z7, 0, 1, [Op(3)]) == Z8;
    assert C14.nodes[0 := Z8] == C15.nodes;
  }

  lemma Refuses()
    ensures Goes(C15, Send(0, 2, 1), C16) && Goes(C16, AppendArrives(HIGH), C17)
  {
    assert [TOP][1..] == [];
    assert BuildMessage(Z8, 0, 2, 1) == SendAppend(HIGH.args);
    assert RunStart([DUMMY, A, B], 1) == 1;
    assert AppendEntries(P4, HIGH.args) == (P5, REFUSAL.reply);
    assert C16.nodes[2 := P5] == C17.nodes;
  }

  lemma BacksOff()
    ensures Goes(C17, AppendAnswered(REFUSAL), C18) && Goes(C18, Send(0, 2, 1), C19)
  {
    assert [1, 2, 2][2 := 1] == [1, 2, 1];
    assert C17.nodes[0 := Z9] == C18.nodes;
    assert BuildMessage(Z9, 0, 2, 1) == SendInstall(INSTALL.args);
  }

  lemma Installs()
    ensures Goes(C19, InstallArrives(INSTALL), C20)
  {
    var msgs := [ApplySnapshot(1, 2, [Op(3)])];
    assert msgs[1..] == [];
    assert Feed([], msgs) == Feed([Op(3)], msgs[1..]);
    assert [DUMMY, A, B][2..] == [B] && [TOP] + [B] == [TOP, B];
    assert InstallSnapshot(P5, INSTALL.args) == InstallResult(P6, InstallReply(2), msgs);
    assert Received(2, msgs) == {};
    assert C19.nodes[2 := P6] == C20.nodes && C19.apps[2 := [Op(3)]] == C20.apps;
  }

  // ----- the run

  lemma LeadsAlone() returns (r: Run)
    ensures Reached3(r, C5)
  {
    Stands();
    Votes();
    Wins();
    Keeps();
    r := Run([Init(3)], []);
    r := Went(r, Init(3), Timeout(2), C1);
    r := Went(r, C1, VoteArrives(VoteKey(1, 2, 0)), C2);
    r := Went(r, C2, VoteAnswered(VoteKey(1, 2, 0)), C3);
    r := Went(r, C3, Propose(2, Op(1)), C4);
    r := Went(r, C4, Propose(2, Op(2)), C5);
  }

  lemma Overtakes() returns (r: Run)
    ensures Reached3(r, C9)
  {
    StandsAgain();
    VotesAgain();
    WinsAgain();
    r := LeadsAlone();
    r := Went(r, C5, Timeout(0), C6);
    r := Went(r, C6, VoteArrives(VoteKey(2, 0, 1)), C7);
    r := Went(r, C7, VoteAnswered(VoteKey(2, 0, 1)), C8);
    r := Went(r, C8, Propose(0, Op(3)), C9);
  }

  lemma TakesSnapshot() returns (r: Run)
    ensures Reached3(r, C15)
  {
    Sends();
    Brings();
    Learns();
    Commits();
    Applies();
    CutShort();
    r := Overtakes();
    r := Went(r, C9, Send(0, 1, 0), C10);
    r := Went(r, C10, AppendArrives(CALL), C11);
    r := Went(r, C11, AppendAnswered(ANSWER), C12);
    r := Went(r, C12, Commit(0), C13);
    r := Went(r, C13, Apply(0), C14);
    r := Went(r, C14, Compact(0, 1, [Op(3)]), C15);
  }

  /** Server 2 has two entries of term 1 that nobody else has; the leader of term 2 commits another entry at
      index 1 and takes a snapshot of it.  When server 2 installs that snapshot it keeps its entry of term 1 at
      index 2, above a snapshot that ends in term 2. */
  lemma ConflictIsKept() returns (r: Run)
    ensures IsRun(r, 3) && Last(r.states) == C20
    ensures C20.nodes[2].snapshotIndex == 1 && C20.nodes[2].snapshotTerm == 2
    ensures C20.nodes[2].log == [Entry(2, Nil), Entry(1, Op(2))]
  {
    Refuses();
    BacksOff();
    Installs();
    r := TakesSnapshot();
    r := Went(r, C15, Send(0, 2, 1), C16);
    r := Went(r, C16, AppendArrives(HIGH), C17);
    r := Went(r, C17, AppendAnswered(REFUSAL), C18);
    r := Went(r, C18, Send(0, 2, 1), C19);
    r := Went(r, C19, InstallArrives(INSTALL), C20);
  }
}
