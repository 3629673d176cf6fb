/** Three servers, one of which is elected in term 1: where the runs in which something goes wrong begin. */
module RaftScene {
  import opened RaftNode
  import opened RaftSystem
  import opened RaftHeartbeat
  import opened Traces

  // ----- servers and states

  /** Server 0, leading in term 1. */
  function Leads(log: seq<Entry>, commitIndex: nat, lastApplied: nat, nextIndex: seq<nat>, matchIndex: seq<nat>,
                 snapshotIndex: nat, snapshot: seq<Command>): Node
  {
    var snapshotTerm := if snapshotIndex == 0 then 0 else 1;
    Node(1, 0, log, commitIndex, lastApplied, nextIndex, matchIndex, Leader, snapshotIndex, snapshotTerm, 2, true,
         Disk(1, 0, log, snapshotIndex, snapshotTerm, snapshot))
  }

  /** A follower in term 1. */
  function Obeys(votedFor: int, log: seq<Entry>, commitIndex: nat, lastApplied: nat,
                 snapshotIndex: nat, snapshot: seq<Command>): Node
  {
    var snapshotTerm := if snapshotIndex == 0 then 0 else 1;
    Node(1, votedFor, log, commitIndex, lastApplied, [], [], Follower, snapshotIndex, snapshotTerm, 0, false,
         Disk(1, votedFor, log, snapshotIndex, snapshotTerm, snapshot))
  }

  /** The call for server 2's vote stays on its way for ever. */
  function State(nodes: seq<Node>, calls: set<AppendCall>, answers: set<AppendAnswer>,
                 installs: set<InstallCall>, installed: set<InstallAnswer>,
                 apps: seq<seq<Command>>, delivered: set<Delivery>): System
  {
    System(nodes, map[VoteKey(1, 0, 2) := VoteArgs(1, 0, 0, 0)], map[],
           calls, answers, installs, installed, apps, delivered)
  }

  ghost predicate Goes(s: System, step: Step, t: System) {
    Enabled(s, step) && Next(s, step) == t
  }

  // ----- an election

  const STANDS: Node := Node(1, 0, [DUMMY], 0, 0, [], [], Candidate, 0, 0, 1, false, Disk(1, 0, [DUMMY], 0, 0, []))
  const LEADER: Node := Leads([DUMMY], 0, 0, [1, 1, 1], [0, 0, 0], 0, [])
  const VOTER: Node := Obeys(0, [DUMMY], 0, 0, 0, [])
  const NEW: Node := Boot(EMPTY_DISK)
  const REFUSER: Node := Obeys(NOBODY, [DUMMY], 0, 0, 0, [])

  const ASKED: VoteArgs := VoteArgs(1, 0, 0, 0)
  const KEY: VoteKey := VoteKey(1, 0, 1)

  const STOOD: System :=
    System([STANDS, NEW, NEW], map[KEY := ASKED, VoteKey(1, 0, 2) := ASKED], map[],
           {}, {}, {}, {}, [[], [], []], {})
  const VOTED: System :=
    System([STANDS, VOTER, NEW], map[VoteKey(1, 0, 2) := ASKED], map[KEY := VoteReply(0, true)],
           {}, {}, {}, {}, [[], [], []], {})
  const ELECTED: System := State([LEADER, VOTER, NEW], {}, {}, {}, {}, [[], [], []], {})

  lemma Election()
    ensures Goes(Init(3), Timeout(0), STOOD)
    ensures Goes(STOOD, VoteArrives(KEY), VOTED)
    ensures Goes(VOTED, VoteAnswered(KEY), ELECTED)
  {
    Stands();
    Votes();
    Wins();
  }

  lemma Stands()
    ensures Goes(Init(3), Timeout(0), STOOD)
  {
    var s := Init(3);
    assert s.nodes == [NEW, NEW, NEW] && s.apps == [[], [], []];
    assert StartElection(NEW, 0) == STANDS;
    assert BallotCalls(3, STANDS, 0) == map[KEY := ASKED, VoteKey(1, 0, 2) := ASKED];
    assert Put(s, 0, STANDS).nodes == [STANDS, NEW, NEW];
  }

  lemma Votes()
    ensures Goes(STOOD, VoteArrives(KEY), VOTED)
  {
    assert RequestVote(NEW, ASKED) == (VOTER, VoteReply(0, true));
    assert STOOD.voteCalls - {KEY} == map[VoteKey(1, 0, 2) := ASKED];
  }

  lemma Wins()
    ensures Goes(VOTED, VoteAnswered(KEY), ELECTED)
  {
    assert HandleVoteReply(STANDS, 0, 3, 1, VoteReply(0, true)) == LEADER by {
      assert seq(3, _ => 1) == [1, 1, 1] && seq(3, _ => 0)[0 := 0] == [0, 0, 0];
    }
    assert VOTED.voteAnswers - {KEY} == map[];
  }

  // ----- what a service is given

  lemma FeedOne(app: seq<Command>, index: nat, c: Command)
    ensures Feed(app, [ApplyCommand(index, c)]) == app + [c]
  {
    assert [ApplyCommand(index, c)][1..] == [];
  }

  lemma ReceivedOne(i: nat, index: nat, c: Command)
    ensures Received(i, [ApplyCommand(index, c)]) == {Delivery(i, index, c)}
  {
    assert [ApplyCommand(index, c)][0].ApplyCommand?;
  }

  lemma FeedTwo(app: seq<Command>, c: Command, e: Command)
    ensures Feed(app, [ApplyCommand(1, c), ApplyCommand(2, e)]) == app + [c, e]
  {
    var msgs := [ApplyCommand(1, c), ApplyCommand(2, e)];
    assert msgs[1..] == [ApplyCommand(2, e)];
    FeedOne(app + [c], 2, e);
  }

  lemma ReceivedTwo(i: nat, c: Command, e: Command)
    ensures Received(i, [ApplyCommand(1, c), ApplyCommand(2, e)]) == {Delivery(i, 1, c), Delivery(i, 2, e)}
  {
    var msgs := [ApplyCommand(1, c), ApplyCommand(2, e)];
    assert msgs[0].ApplyCommand? && msgs[1].ApplyCommand?;
  }

  // ----- runs

  ghost predicate Reached3(r: Run, s: System) {
    IsRun(r, 3) && Last(r.states) == s
  }

  lemma Went(r: Run, s: System, step: Step, t: System) returns (q: Run)
    requires Reached3(r, s) && Goes(s, step, t)
    ensures Reached3(q, t)
  {
    q := Extended(r, 3, step);
  }

  // ----- courses of server 0's heartbeats

  ghost predicate Reached(b: Course, s: System, notes: set<Note>) {
    IsCourse(b, 3) && Last(b.states) == Cluster(s, [notes, {}, {}])
  }

  /** A course in which every message so far is guarded and harmless. */
  ghost predicate Clear(b: Course, s: System, notes: set<Note>) {
    Reached(b, s, notes) && GuardedUpTo(b, |b.actions|) && HarmlessUpTo(b, |b.actions|)
  }

  lemma Did(b: Course, s: System, notes: set<Note>, step: Step, t: System) returns (c: Course)
    requires Reached(b, s, notes) && Goes(s, step, t) && |s.nodes| == 3
    requires !step.Send? && !step.Crash? && !step.CrashMidway?
    ensures Reached(c, t, notes)
    ensures c.states == b.states + [Last(c.states)] && c.actions == b.actions + [Other(step)]
    ensures Clear(b, s, notes) ==> Clear(c, t, notes)
  {
    c := Acted(b, 3, Other(step));
  }

  lemma DidRead(b: Course, s: System, notes: set<Note>) returns (c: Course)
    requires Clear(b, s, notes) && Shaped(s) && |s.nodes| == 3 && s.nodes[0].role.Leader?
    ensures Clear(c, s, notes + {NoteOf(s.nodes[0])})
  {
    c := Acted(b, 3, Read(0));
  }

  lemma DidSend(b: Course, s: System, notes: set<Note>, server: nat, note: Note, t: System) returns (c: Course)
    requires Clear(b, s, notes) && Shaped(s) && |s.nodes| == 3 && note in notes && 1 <= server < 3
    requires s.nodes[0].role.Leader? && s.nodes[0].currentTerm == note.seen.term
    requires Guard(s.nodes[0], server, note.seen) && Harmless(s.nodes[0], server, note)
    requires t == Posted(s, server, BuildFrom(s.nodes[0], 0, server, note.seen))
    ensures Clear(c, t, notes)
  {
    c := Acted(b, 3, SendRead(0, server, note));
  }

  lemma Started() returns (b: Course)
    ensures Clear(b, ELECTED, {})
  {
    b := Course([Begin(3)], []);
    Election();
    assert Begin(3).notes == [{}, {}, {}];
    b := Did(b, Init(3), {}, Timeout(0), STOOD);
    b := Did(b, STOOD, {}, VoteArrives(KEY), VOTED);
    b := Did(b, VOTED, {}, VoteAnswered(KEY), ELECTED);
  }
}
