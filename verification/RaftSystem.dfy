/** A cluster of Raft servers, their services and the network, as a step system.  One step is one
    lock-protected region of one server.  Calls may be delayed, reordered or lost for ever.  A vote
    request is executed at most once and answered at most once; the other calls may even be executed
    and answered any number of times. */
module RaftSystem {
  import opened RaftNode

  datatype VoteKey = VoteKey(term: nat, candidate: nat, voter: nat)
  datatype AppendCall = AppendCall(server: nat, args: AppendArgs)
  datatype AppendAnswer = AppendAnswer(server: nat, args: AppendArgs, reply: AppendReply)
  datatype InstallCall = InstallCall(server: nat, args: InstallArgs)
  datatype InstallAnswer = InstallAnswer(server: nat, args: InstallArgs, reply: InstallReply)
  datatype Delivery = Delivery(server: nat, index: nat, command: Command)

  /** `apps[i]` is the service on server i: the commands it has applied, in order.  `delivered`
      remembers every command ever handed to any service, over all boots. */
  datatype System = System(
    nodes: seq<Node>,
    voteCalls: map<VoteKey, VoteArgs>, voteAnswers: map<VoteKey, VoteReply>,
    appendCalls: set<AppendCall>, appendAnswers: set<AppendAnswer>,
    installCalls: set<InstallCall>, installAnswers: set<InstallAnswer>,
    apps: seq<seq<Command>>, delivered: set<Delivery>)

  datatype Step =
    | Timeout(i: nat)
    | VoteArrives(key: VoteKey)
    | VoteAnswered(key: VoteKey)
    | VoteCallLost(key: VoteKey)
    | VoteAnswerLost(key: VoteKey)
    | Propose(i: nat, command: Command)
    | Send(i: nat, server: nat, leaderCommit: nat)
    | AppendArrives(appendCall: AppendCall)
    | AppendAnswered(appendAnswer: AppendAnswer)
    | InstallArrives(installCall: InstallCall)
    | InstallAnswered(installAnswer: InstallAnswer)
    | Commit(i: nat)
    | Apply(i: nat)
    | Compact(i: nat, index: nat, data: seq<Command>)
    | Crash(i: nat)
    | CrashMidway(i: nat, term: nat)

  function Init(peers: nat): System {
    System(seq(peers, _ => Boot(EMPTY_DISK)), map[], map[], {}, {}, {}, {}, seq(peers, _ => []), {})
  }

  /** What the types cannot say: identities are in range and every log keeps its dummy. */
  ghost predicate Shaped(s: System) {
    && |s.apps| == |s.nodes|
    && (forall i :: 0 <= i < |s.nodes| ==> WellFormed(s.nodes[i], |s.nodes|))
    && (forall k <- s.voteCalls :: k.candidate < |s.nodes| && k.voter < |s.nodes|)
    && (forall k <- s.voteAnswers :: k.candidate < |s.nodes| && k.voter < |s.nodes|)
    && (forall m <- s.appendCalls :: m.server < |s.nodes| && m.args.leader < |s.nodes|)
    && (forall m <- s.appendAnswers :: m.server < |s.nodes| && m.args.leader < |s.nodes|)
    && (forall m <- s.installCalls :: m.server < |s.nodes| && m.args.leader < |s.nodes|)
    && (forall m <- s.installAnswers :: m.server < |s.nodes| && m.args.leader < |s.nodes|)
  }

  /** When the environment may take the step.  A message is built in the term in which leaderCommit was
      read, so leaderCommit is at most the present commitIndex.  The service takes a snapshot only up
      to an index that was delivered, and its snapshot is not empty. */
  ghost predicate Enabled(s: System, step: Step) {
    Shaped(s) && match step
    case Timeout(i) => i < |s.nodes|
    case VoteArrives(k) => k in s.voteCalls
    case VoteAnswered(k) => k in s.voteAnswers
    case VoteCallLost(k) => k in s.voteCalls
    case VoteAnswerLost(k) => k in s.voteAnswers
    case Propose(i, _) => i < |s.nodes|
    case Send(i, server, leaderCommit) =>
      && i < |s.nodes| && server < |s.nodes| && server != i
      && s.nodes[i].role.Leader? && leaderCommit <= s.nodes[i].commitIndex
    case AppendArrives(m) => m in s.appendCalls
    case AppendAnswered(m) => m in s.appendAnswers
    case InstallArrives(m) => m in s.installCalls
    case InstallAnswered(m) => m in s.installAnswers
    case Commit(i) => i < |s.nodes|
    case Apply(i) => i < |s.nodes|
    case Compact(i, index, data) => i < |s.nodes| && index <= s.nodes[i].lastApplied && |data| > 0
    case Crash(i) => i < |s.nodes|
    case CrashMidway(i, term) => i < |s.nodes| && term > s.nodes[i].currentTerm
  }

  /** A run: the states it goes through and the steps between them. */
  datatype Run = Run(states: seq<System>, steps: seq<Step>)

  ghost predicate IsRun(r: Run, peers: nat) {
    && |r.states| == |r.steps| + 1 && r.states[0] == Init(peers)
    && forall i :: 0 <= i < |r.steps| ==>
           Enabled(r.states[i], r.steps[i]) && r.states[i + 1] == Next(r.states[i], r.steps[i])
  }

  function BallotCalls(peers: nat, n: Node, me: nat): map<VoteKey, VoteArgs>
    requires |n.log| > 0
  {
    map v | 0 <= v < peers && v != me :: VoteKey(n.currentTerm, me, v) := BallotRequest(n, me)
  }

  /** The service applies what it is sent. */
  function Feed(app: seq<Command>, msgs: seq<ApplyMsg>): seq<Command>
    decreases |msgs|
  {
    if msgs == [] then app
    else
      Feed(match msgs[0] case ApplyCommand(_, c) => app + [c] case ApplySnapshot(_, _, data) => data, msgs[1..])
  }

  function Received(i: nat, msgs: seq<ApplyMsg>): set<Delivery> {
    set k | 0 <= k < |msgs| && msgs[k].ApplyCommand? :: Delivery(i, msgs[k].index, msgs[k].command)
  }

  /** The system after server i has become n. */
  function Put(s: System, i: nat, n: Node): System
    requires i < |s.nodes|
  {
    s.(nodes := s.nodes[i := n])
  }

  function PutFed(s: System, i: nat, n: Node, msgs: seq<ApplyMsg>): System
    requires i < |s.nodes| == |s.apps|
  {
    Put(s, i, n).(apps := s.apps[i := Feed(s.apps[i], msgs)], delivered := s.delivered + Received(i, msgs))
  }

  function Restart(s: System, i: nat, disk: Disk): System
    requires i < |s.nodes| == |s.apps|
  {
    Put(s, i, Boot(disk)).(apps := s.apps[i := disk.snapshot])
  }

  function AfterSend(s: System, i: nat, server: nat, leaderCommit: nat): System
    requires i < |s.nodes| && server < |s.nodes[i].nextIndex|
  {
    match BuildMessage(s.nodes[i], i, server, leaderCommit)
    case SendAppend(a) => s.(appendCalls := s.appendCalls + {AppendCall(server, a)})
    case SendInstall(a) => s.(installCalls := s.installCalls + {InstallCall(server, a)})
  }

  ghost function Next(s: System, step: Step): System
    requires Enabled(s, step)
  {
    var peers := |s.nodes|;
    match step
    case Timeout(i) =>
      var n := StartElection(s.nodes[i], i);
      Put(s, i, n).(voteCalls := s.voteCalls + BallotCalls(peers, n, i))
    case VoteArrives(k) =>
      var (n, reply) := RequestVote(s.nodes[k.voter], s.voteCalls[k]);
      Put(s, k.voter, n).(voteCalls := s.voteCalls - {k}, voteAnswers := s.voteAnswers[k := reply])
    case VoteAnswered(k) =>
      var n := HandleVoteReply(s.nodes[k.candidate], k.candidate, peers, k.term, s.voteAnswers[k]);
      Put(s, k.candidate, n).(voteAnswers := s.voteAnswers - {k})
    case VoteCallLost(k) => s.(voteCalls := s.voteCalls - {k})
    case VoteAnswerLost(k) => s.(voteAnswers := s.voteAnswers - {k})
    case Propose(i, command) => Put(s, i, Start(s.nodes[i], command))
    case Send(i, server, leaderCommit) => AfterSend(s, i, server, leaderCommit)
    case AppendArrives(m) =>
      var (n, reply) := AppendEntries(s.nodes[m.server], m.args);
      Put(s, m.server, n).(appendAnswers := s.appendAnswers + {AppendAnswer(m.server, m.args, reply)})
    case AppendAnswered(m) =>
      Put(s, m.args.leader, HandleAppendReply(s.nodes[m.args.leader], m.server, m.args, m.reply))
    case InstallArrives(m) =>
      var r := InstallSnapshot(s.nodes[m.server], m.args);
      PutFed(s, m.server, r.node, r.delivered).(installAnswers :=
        s.installAnswers + {InstallAnswer(m.server, m.args, r.reply)})
    case InstallAnswered(m) =>
      Put(s, m.args.leader, HandleInstallReply(s.nodes[m.args.leader], m.server, m.args, m.reply))
    case Commit(i) => Put(s, i, UpdateCommitIndex(s.nodes[i], i, peers))
    case Apply(i) =>
      var (n, msgs) := ApplyCommitted(s.nodes[i]);
      PutFed(s, i, n, msgs)
    case Compact(i, index, data) => Put(s, i, Snapshot(s.nodes[i], i, index, data))
    case Crash(i) => Restart(s, i, s.nodes[i].disk)
    case CrashMidway(i, term) => Restart(s, i, StepDown(s.nodes[i], term).disk)
  }
}
