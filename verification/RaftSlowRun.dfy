/** Runs of three servers in which the back-off is slow: a follower has a snapshot and n entries of the snapshot's term
    above it, and refuses once for each of them. */
module RaftSlowRun {
  import opened RaftNode
  import opened RaftSystem
  import opened RaftScene
  import opened RaftBackoff
  import opened Sets
  import opened Traces

  // ----- its states

  const FIRST: Entry := Entry(1, Op(1))
  const TOP: Entry := Entry(1, Nil)

  function Many(term: nat, n: nat): seq<Entry> {
    seq(n, _ => Entry(term, Op(0)))
  }

  lemma OneMoreEntry(log: seq<Entry>, term: nat, n: nat)
    ensures log + Many(term, n) + [Entry(term, Op(0))] == log + Many(term, n + 1)
  {
  }

  /** Server 0 commits one entry in term 1, takes a snapshot of it, and keeps n more to itself. */
  function Lone(n: nat): Node {
    Leads([TOP] + Many(1, n), 1, 1, [1, 2, 2], [1, 1, 1], 1, [Op(1)])
  }

  /** Server 1 has the committed entry; it is elected twice by server 2 and gets n other entries in between. */
  function Rival(term: nat, n: nat, nextIndex: seq<nat>, matchIndex: seq<nat>, role: Role, votes: nat): Node {
    var log := [DUMMY, FIRST] + Many(2, n);
    Node(term, 1, log, 0, 0, nextIndex, matchIndex, role, 0, 0, votes, votes > 1, Disk(term, 1, log, 0, 0, []))
  }

  /** Server 2 has nothing. */
  function Elector(term: nat): Node {
    Node(term, 1, [DUMMY], 0, 0, [], [], Follower, 0, 0, 0, false, Disk(term, 1, [DUMMY], 0, 0, []))
  }

  const CALL: AppendCall := AppendCall(1, AppendArgs(1, 0, 0, 0, [FIRST], 0))
  const ANSWER: AppendAnswer := AppendAnswer(1, CALL.args, AppendReply(1, true, 0, 0, 0))
  const TAKER: Node := Obeys(0, [DUMMY, FIRST], 0, 0, 0, [])
  const NONE: seq<seq<Command>> := [[], [], []]
  const FED: seq<seq<Command>> := [[Op(1)], [], []]
  const GIVEN: set<Delivery> := {Delivery(0, 1, Op(1))}

  const B1: System := State([Leads([DUMMY, FIRST], 0, 0, [1, 1, 1], [0, 0, 0], 0, []), VOTER, NEW],
                            {}, {}, {}, {}, NONE, {})
  const B2: System := B1.(appendCalls := {CALL})
  const B3: System := State([B1.nodes[0], TAKER, NEW], {CALL}, {ANSWER}, {}, {}, NONE, {})
  const B4: System := State([Leads([DUMMY, FIRST], 0, 0, [1, 2, 1], [0, 1, 0], 0, []), TAKER, NEW],
                            {CALL}, {ANSWER}, {}, {}, NONE, {})
  const B5: System := State([Leads([DUMMY, FIRST], 1, 0, [1, 2, 1], [0, 1, 0], 0, []), TAKER, NEW],
                            {CALL}, {ANSWER}, {}, {}, NONE, {})
  const B6: System := State([Leads([DUMMY, FIRST], 1, 1, [1, 2, 1], [0, 1, 0], 0, []), TAKER, NEW],
                            {CALL}, {ANSWER}, {}, {}, FED, GIVEN)

  /** The rest, with n entries of server 0 alone and m of server 1 alone. */
  function Stage(nodes: seq<Node>, voteCalls: map<VoteKey, VoteArgs>, voteAnswers: map<VoteKey, VoteReply>): System {
    System(nodes, voteCalls, voteAnswers, {CALL}, {ANSWER}, {}, {}, FED, GIVEN)
  }

  const OLD: map<VoteKey, VoteArgs> := map[VoteKey(1, 0, 2) := VoteArgs(1, 0, 0, 0)]
  const SECOND: VoteArgs := VoteArgs(2, 1, 1, 1)

  function Third(n: nat): VoteArgs {
    VoteArgs(3, 1, 1 + n, if n == 0 then 1 else 2)
  }

  const LATER: map<VoteKey, VoteArgs> := OLD + map[VoteKey(2, 1, 0) := SECOND]

  function Last3(n: nat): map<VoteKey, VoteArgs> {
    LATER + map[VoteKey(3, 1, 0) := Third(n)]
  }

  function D0(n: nat): System { Stage([Lone(n), TAKER, NEW], OLD, map[]) }

  function D1(n: nat): System {
    Stage([Lone(n), Rival(2, 0, [], [], Candidate, 1), NEW], LATER + map[VoteKey(2, 1, 2) := SECOND], map[])
  }

  function D2(n: nat): System {
    Stage([Lone(n), Rival(2, 0, [], [], Candidate, 1), Elector(2)], LATER,
          map[VoteKey(2, 1, 2) := VoteReply(0, true)])
  }

  function D3(n: nat, m: nat): System {
    Stage([Lone(n), Rival(2, m, [2, 2, 2], [0, 1, 0], Leader, 2), Elector(2)], LATER, map[])
  }

  function D4(n: nat, m: nat): System {
    Stage([Lone(n), Rival(3, m, [2, 2, 2], [0, 1, 0], Candidate, 1), Elector(2)],
          Last3(m) + map[VoteKey(3, 1, 2) := Third(m)], map[])
  }

  function D5(n: nat, m: nat): System {
    Stage([Lone(n), Rival(3, m, [2, 2, 2], [0, 1, 0], Candidate, 1), Elector(3)], Last3(m),
          map[VoteKey(3, 1, 2) := VoteReply(2, true)])
  }

  function D6(n: nat, m: nat): System {
    Stage([Lone(n), Rival(3, m, [m + 2, m + 2, m + 2], [0, m + 1, 0], Leader, 2), Elector(3)], Last3(m), map[])
  }

  // ----- server 0 in term 1

  lemma Proposes()
    ensures Goes(ELECTED, Propose(0, Op(1)), B1) && Goes(B1, Send(0, 1, 0), B2)
  {
    assert [DUMMY] + [FIRST] == [DUMMY, FIRST];
    assert ELECTED.nodes[0 := B1.nodes[0]] == B1.nodes;
    assert [DUMMY, FIRST][1..] == [FIRST];
    assert BuildMessage(B1.nodes[0], 0, 1, 0) == SendAppend(CALL.args);
  }

  lemma Brings()
    ensures Goes(B2, AppendArrives(CALL), B3)
  {
    assert [FIRST][1..] == [] && [DUMMY] + [FIRST] == [DUMMY, FIRST];
    assert Merge([DUMMY], 1, [FIRST]) == [DUMMY, FIRST];
    assert AppendEntries(VOTER, CALL.args) == (TAKER, ANSWER.reply);
    assert B2.nodes[1 := TAKER] == B3.nodes;
  }

  lemma Learns()
    ensures Goes(B3, AppendAnswered(ANSWER), B4)
  {
    assert [0, 0, 0][1 := 1] == [0, 1, 0] && [1, 1, 1][1 := 2] == [1, 2, 1];
    assert B3.nodes[0 := B4.nodes[0]] == B4.nodes;
  }

  lemma Commits()
    ensures Goes(B4, Commit(0), B5)
  {
    assert CountMatches([0, 1, 0], 0, 1, 1) == 0;
    assert CountMatches([0, 1, 0], 0, 1, 2) == 1;
    assert CountMatches([0, 1, 0], 0, 1, 3) == 1;
    assert ScanCommit(B4.nodes[0], 0, 3, 1) == 1;
    assert B4.nodes[0 := B5.nodes[0]] == B5.nodes;
  }

  lemma Applies()
    ensures Goes(B5, Apply(0), B6)
  {
    var n := B5.nodes[0];
    assert Deliveries(n, 1, 1) == [];
    assert Deliveries(n, 0, 1) == [ApplyCommand(1, Op(1))];
    FeedOne([], 1, Op(1));
    assert [] + [Op(1)] == [Op(1)];
    ReceivedOne(0, 1, Op(1));
    assert ApplyCommitted(n) == (B6.nodes[0], [ApplyCommand(1, Op(1))]);
    assert B5.nodes[0 := B6.nodes[0]] == B6.nodes && B5.apps[0 := [Op(1)]] == FED;
    assert B5.delivered + GIVEN == GIVEN;
  }

  lemma CutShort()
    ensures Goes(B6, Compact(0, 1, [Op(1)]), D0(0))
  {
    assert [DUMMY, FIRST][2..] == [] && [TOP] + [] == [TOP] == [TOP] + Many(1, 0);
    assert RaiseNext([1, 2, 1], 0, 2) == [1, 2, 2] && RaiseMatch([0, 1, 0], 1) == [1, 1, 1];
    assert Snapshot(B6.nodes[0], 0, 1, [Op(1)]) == Lone(0);
    assert B6.nodes[0 := Lone(0)] == D0(0).nodes;
  }

  lemma KeepsOne(n: nat)
    ensures Goes(D0(n), Propose(0, Op(0)), D0(n + 1))
  {
    OneMoreEntry([TOP], 1, n);
    assert Start(Lone(n), Op(0)) == Lone(n + 1);
    assert D0(n).nodes[0 := Lone(n + 1)] == D0(n + 1).nodes;
  }

  lemma Replicated() returns (r: Run)
    ensures Reached3(r, B3)
  {
    Election();
    Proposes();
    Brings();
    r := Run([Init(3)], []);
    r := Went(r, Init(3), Timeout(0), STOOD);
    r := Went(r, STOOD, VoteArrives(KEY), VOTED);
    r := Went(r, VOTED, VoteAnswered(KEY), ELECTED);
    r := Went(r, ELECTED, Propose(0, Op(1)), B1);
    r := Went(r, B1, Send(0, 1, 0), B2);
    r := Went(r, B2, AppendArrives(CALL), B3);
  }

  lemma Compacted() returns (r: Run)
    ensures Reached3(r, D0(0))
  {
    Learns();
    Commits();
    Applies();
    CutShort();
    r := Replicated();
    r := Went(r, B3, AppendAnswered(ANSWER), B4);
    r := Went(r, B4, Commit(0), B5);
    r := Went(r, B5, Apply(0), B6);
    r := Went(r, B6, Compact(0, 1, [Op(1)]), D0(0));
  }

  lemma {:induction false} Hoards(n: nat) returns (r: Run)
    ensures Reached3(r, D0(n))
  {
    if n == 0 {
      r := Compacted();
    } else {
      r := Hoards(n - 1);
      KeepsOne(n - 1);
      r := Went(r, D0(n - 1), Propose(0, Op(0)), D0(n));
    }
  }

  // ----- server 1 in terms 2 and 3

  lemma BothCalls(calls: map<VoteKey, VoteArgs>, one: VoteKey, two: VoteKey, a: VoteArgs)
    ensures calls + map[one := a, two := a] == calls + map[one := a] + map[two := a]
  {
  }

  lemma Asks()
    ensures var k := Rival(2, 0, [], [], Candidate, 1);
            && StartElection(TAKER, 1) == k
            && BallotCalls(3, k, 1) == map[VoteKey(2, 1, 0) := SECOND, VoteKey(2, 1, 2) := SECOND]
  {
    assert [DUMMY, FIRST] + Many(2, 0) == [DUMMY, FIRST];
  }

  lemma Stands(n: nat)
    ensures Goes(D0(n), Timeout(1), D1(n))
  {
    var k := Rival(2, 0, [], [], Candidate, 1);
    Asks();
    BothCalls(OLD, VoteKey(2, 1, 0), VoteKey(2, 1, 2), SECOND);
    assert D0(n).nodes[1 := k] == D1(n).nodes;
  }

  lemma Votes(n: nat)
    ensures Goes(D1(n), VoteArrives(VoteKey(2, 1, 2)), D2(n))
  {
    assert RequestVote(NEW, SECOND) == (Elector(2), VoteReply(0, true));
    assert D1(n).voteCalls - {VoteKey(2, 1, 2)} == LATER;
    assert D1(n).nodes[2 := Elector(2)] == D2(n).nodes;
  }

  lemma Wins(n: nat)
    ensures Goes(D2(n), VoteAnswered(VoteKey(2, 1, 2)), D3(n, 0))
  {
    var k := Rival(2, 0, [2, 2, 2], [0, 1, 0], Leader, 2);
    assert HandleVoteReply(Rival(2, 0, [], [], Candidate, 1), 1, 3, 2, VoteReply(0, true)) == k by {
      assert seq(3, _ => 2) == [2, 2, 2] && seq(3, _ => 0)[1 := 1] == [0, 1, 0];
    }
    assert D2(n).voteAnswers - {VoteKey(2, 1, 2)} == map[];
    assert D2(n).nodes[1 := k] == D3(n, 0).nodes;
  }

  lemma KeepsAnother(n: nat, m: nat)
    ensures Goes(D3(n, m), Propose(1, Op(0)), D3(n, m + 1))
  {
    var k := Rival(2, m + 1, [2, 2, 2], [0, 1, 0], Leader, 2);
    OneMoreEntry([DUMMY, FIRST], 2, m);
    assert Start(Rival(2, m, [2, 2, 2], [0, 1, 0], Leader, 2), Op(0)) == k;
    assert D3(n, m).nodes[1 := k] == D3(n, m + 1).nodes;
  }

  lemma AsksAgain(m: nat)
    ensures var k := Rival(3, m, [2, 2, 2], [0, 1, 0], Candidate, 1);
            && StartElection(Rival(2, m, [2, 2, 2], [0, 1, 0], Leader, 2), 1) == k
            && BallotCalls(3, k, 1) == map[VoteKey(3, 1, 0) := Third(m), VoteKey(3, 1, 2) := Third(m)]
  {
    var k := Rival(3, m, [2, 2, 2], [0, 1, 0], Candidate, 1);
    assert BallotRequest(k, 1) == Third(m);
  }

  lemma ShapedThen(n: nat, m: nat)
    ensures Shaped(D3(n, m))
  {
  }

  lemma StandsAgain(n: nat, m: nat)
    ensures Goes(D3(n, m), Timeout(1), D4(n, m))
  {
    var s, k := D3(n, m), Rival(3, m, [2, 2, 2], [0, 1, 0], Candidate, 1);
    ShapedThen(n, m);
    AsksAgain(m);
    BothCalls(LATER, VoteKey(3, 1, 0), VoteKey(3, 1, 2), Third(m));
    assert s.nodes[1 := k] == D4(n, m).nodes;
    assert Next(s, Timeout(1)) == s.(nodes := s.nodes[1 := k], voteCalls := D4(n, m).voteCalls);
  }

  lemma VotesAgain(n: nat, m: nat)
    ensures Goes(D4(n, m), VoteArrives(VoteKey(3, 1, 2)), D5(n, m))
  {
    assert RequestVote(Elector(2), Third(m)) == (Elector(3), VoteReply(2, true));
    assert D4(n, m).voteCalls - {VoteKey(3, 1, 2)} == Last3(m);
    assert D4(n, m).nodes[2 := Elector(3)] == D5(n, m).nodes;
  }

  lemma CountsAgain(m: nat)
    ensures HandleVoteReply(Rival(3, m, [2, 2, 2], [0, 1, 0], Candidate, 1), 1, 3, 3, VoteReply(2, true)) ==
            Rival(3, m, [m + 2, m + 2, m + 2], [0, m + 1, 0], Leader, 2)
  {
    assert seq(3, _ => m + 2) == [m + 2, m + 2, m + 2] && seq(3, _ => 0)[1 := m + 1] == [0, m + 1, 0];
  }

  lemma WinsAgain(n: nat, m: nat)
    ensures Goes(D5(n, m), VoteAnswered(VoteKey(3, 1, 2)), D6(n, m))
  {
    CountsAgain(m);
    assert D5(n, m).voteAnswers - {VoteKey(3, 1, 2)} == map[];
    assert D5(n, m).nodes[1 := Rival(3, m, [m + 2, m + 2, m + 2], [0, m + 1, 0], Leader, 2)] == D6(n, m).nodes;
  }

  lemma {:induction false} Overtakes(n: nat, m: nat) returns (r: Run)
    ensures Reached3(r, D3(n, m))
  {
    if m == 0 {
      Stands(n);
      Votes(n);
      Wins(n);
      r := Hoards(n);
      r := Went(r, D0(n), Timeout(1), D1(n));
      r := Went(r, D1(n), VoteArrives(VoteKey(2, 1, 2)), D2(n));
      r := Went(r, D2(n), VoteAnswered(VoteKey(2, 1, 2)), D3(n, 0));
    } else {
      KeepsAnother(n, m - 1);
      r := Overtakes(n, m - 1);
      r := Went(r, D3(n, m - 1), Propose(1, Op(0)), D3(n, m));
    }
  }

  lemma LeadsAgain(n: nat) returns (r: Run)
    ensures Reached3(r, D6(n, n))
  {
    StandsAgain(n, n);
    VotesAgain(n, n);
    WinsAgain(n, n);
    r := Overtakes(n, n);
    r := Went(r, D3(n, n), Timeout(1), D4(n, n));
    r := Went(r, D4(n, n), VoteArrives(VoteKey(3, 1, 2)), D5(n, n));
    r := Went(r, D5(n, n), VoteAnswered(VoteKey(3, 1, 2)), D6(n, n));
  }

  // ----- the exchange

  lemma IsLongConflict(n: nat)
    ensures LongConflict(D6(n, n).nodes[1], D6(n, n).nodes[0], n + 2)
  {
    var l, f := D6(n, n).nodes[1], D6(n, n).nodes[0];
    forall i | 0 <= i <= n ensures f.log[i].term == 1 {}
    forall x | 1 < x < n + 2 ensures EntryAt(l, x).term == 2 && EntryAt(f, x).term == 1 {}
  }

  lemma OnlyOneTerm(n: nat)
    ensures |Terms(Lone(n).log, n)| <= 1
  {
    var log := Lone(n).log;
    assert forall i :: 0 <= i < |log| ==> log[i].term == 1;
    SubsetSize(Terms(log, n), {1});
  }

  /** For every n there is a run that leads to a leader and a follower with one term only in its log, which refuses n
      times before it takes what the leader has. */
  lemma GoesBackSlowly(n: nat) returns (r: Run, k: nat)
    ensures IsRun(r, 3) && Last(r.states) == D6(n, n) && k == n
    ensures var l, f := D6(n, n).nodes[1], D6(n, n).nodes[0];
            && l.role.Leader? && |f.log| == n + 1 && |Terms(f.log, n)| <= 1
            && (forall i: nat {:trigger After(l, f, 1, 0, 0, i)} :: i <= k ==>
                  Waiting(l, f, After(l, f, 1, 0, 0, i), 0))
            && Done(l, After(l, f, 1, 0, 0, k + 1), 0)
  {
    r := LeadsAgain(n);
    var s := Last(r.states);
    BackoffInRun(r, 3, |r.states| - 1, 1, 0, 0);
    IsLongConflict(n);
    OnlyOneTerm(n);
    k := GoesBackOneByOne(s.nodes[1], s.nodes[0], 1, 0, 0);
  }
}
