/** Every step of the cluster keeps everything in order, and what follows for whole runs. */
module RaftSafety {
  import opened RaftNode
  import opened RaftSystem
  import opened RaftHistory
  import opened RaftEvents
  import opened RaftInvariant
  import opened RaftElection
  import opened RaftReplication
  import opened RaftLeadership
  import opened RaftSnapshot

  datatype Ghost = Ghost(h: History, ds: seq<Shadow>)

  // ----- the invariant

  ghost predicate NodesOk(nodes: seq<Node>, g: Ghost) {
    && |nodes| == |g.ds| == g.h.peers
    && forall i {:trigger NodeOk(g.h, i, nodes[i], g.ds[i])} :: 0 <= i < |nodes| ==> NodeOk(g.h, i, nodes[i], g.ds[i])
  }

  ghost predicate NetOk(s: System, h: History) {
    && (forall m <- s.appendCalls :: AppendOk(h, m.args))
    && (forall m <- s.appendAnswers :: AppendAnswerOk(h, m.server, m.args, m.reply))
    && (forall m <- s.installCalls :: InstallOk(h, m.args))
    && (forall m <- s.installAnswers :: InstallOk(h, m.args))
    && (forall d <- s.delivered :: DeliveredOk(h, d.index, d.command))
  }

  /** The voter of this call or answer has not been counted by its candidate. */
  ghost predicate Uncounted(nodes: seq<Node>, ds: seq<Shadow>, k: VoteKey) {
    && k.candidate < |nodes| == |ds| && k.voter < |nodes| && k.voter != k.candidate
    && k.term <= nodes[k.candidate].currentTerm
    && (nodes[k.candidate].role.Candidate? && nodes[k.candidate].currentTerm == k.term ==>
           k.voter !in ds[k.candidate].tally)
  }

  ghost predicate PollOk(s: System, g: Ghost) {
    && (forall k <- s.voteCalls :: Uncounted(s.nodes, g.ds, k))
    && (forall k <- s.voteAnswers :: Uncounted(s.nodes, g.ds, k))
    && (forall k <- s.voteCalls :: k !in s.voteAnswers)
    && (forall k <- s.voteCalls ::
           s.voteCalls[k].term == k.term && s.voteCalls[k].candidate == k.candidate && RequestOk(g.h, s.voteCalls[k]))
    && (forall k <- s.voteAnswers :: AnswerOk(g.h, k, s.voteAnswers[k]))
  }

  ghost predicate SystemOk(s: System, g: Ghost) {
    Shaped(s) && HistoryOk(g.h) && NodesOk(s.nodes, g) && NetOk(s, g.h) && PollOk(s, g)
  }

  // ----- what a step leaves alone

  lemma NodesStay(nodes: seq<Node>, g: Ghost, i: nat, m: Node, e: Shadow, k: History)
    requires NodesOk(nodes, g) && i < |nodes| && AcksInLogs(g.h)
    requires Extends(g.h, k) && OnlyAbout(g.h, k, i) && NodeOk(k, i, m, e)
    ensures NodesOk(nodes[i := m], Ghost(k, g.ds[i := e]))
  {
    var after, ds := nodes[i := m], g.ds[i := e];
    forall j {:trigger NodeOk(k, j, after[j], ds[j])} | 0 <= j < |nodes|
      ensures NodeOk(k, j, after[j], ds[j])
    {
      if j != i {
        assert NodeOk(g.h, j, nodes[j], g.ds[j]);
        assert Quiet(g.h, k, j);
        NodeStays(g.h, k, j, nodes[j], g.ds[j]);
      }
    }
  }

  lemma AnswerStays(h: History, k: History, s: nat, a: AppendArgs, r: AppendReply)
    requires Extends(h, k) && AppendAnswerOk(h, s, a, r)
    ensures AppendAnswerOk(k, s, a, r)
  {
    if r.success {
      MatchStays(h, k, a.term, s, a.prevLogIndex + |a.entries|);
    }
  }

  lemma NetStays(s: System, h: History, k: History)
    requires NetOk(s, h) && Extends(h, k)
    ensures NetOk(s, k)
  {
    forall m | m in s.appendCalls ensures AppendOk(k, m.args) { AppendStays(h, k, m.args); }
    forall m | m in s.appendAnswers
      ensures AppendAnswerOk(k, m.server, m.args, m.reply)
    {
      AnswerStays(h, k, m.server, m.args, m.reply);
    }
    forall m | m in s.installCalls ensures InstallOk(k, m.args) { InstallStays(h, k, m.args); }
    forall m | m in s.installAnswers ensures InstallOk(k, m.args) { InstallStays(h, k, m.args); }
    forall d | d in s.delivered ensures DeliveredOk(k, d.index, d.command) { DeliveredStays(h, k, d.index, d.command); }
  }

  /** The server is not in a new candidacy and has counted nobody. */
  ghost predicate SameCandidacy(n: Node, m: Node, d: Shadow, e: Shadow) {
    && n.currentTerm <= m.currentTerm
    && (m.role.Candidate? && m.currentTerm == n.currentTerm ==> n.role.Candidate? && e.tally == d.tally)
  }

  lemma UncountedStays(nodes: seq<Node>, ds: seq<Shadow>, i: nat, m: Node, e: Shadow, k: VoteKey)
    requires Uncounted(nodes, ds, k) && i < |nodes| == |ds| && SameCandidacy(nodes[i], m, ds[i], e)
    ensures Uncounted(nodes[i := m], ds[i := e], k)
  {
  }

  lemma PollStays(s: System, g: Ghost, i: nat, m: Node, e: Shadow, k: History)
    requires PollOk(s, g) && i < |s.nodes| == |g.ds| && SameCandidacy(s.nodes[i], m, g.ds[i], e) && Extends(g.h, k)
    ensures PollOk(Put(s, i, m), Ghost(k, g.ds[i := e]))
  {
    forall x | x in s.voteCalls || x in s.voteAnswers
      ensures Uncounted(s.nodes[i := m], g.ds[i := e], x)
    {
      UncountedStays(s.nodes, g.ds, i, m, e, x);
    }
  }

  lemma ShapedPut(s: System, i: nat, m: Node, h: History, e: Shadow)
    requires Shaped(s) && i < |s.nodes| == h.peers && NodeOk(h, i, m, e)
    ensures Shaped(Put(s, i, m))
  {
  }

  /** Only the pending vote calls and answers differ. */
  ghost predicate SamePlace(s: System, t: System) {
    t == s.(voteCalls := t.voteCalls, voteAnswers := t.voteAnswers)
  }

  lemma ShapedPolled(s: System, t: System, g: Ghost)
    requires Shaped(s) && SamePlace(s, t) && PollOk(t, g)
    ensures Shaped(t)
  {
    assert forall k <- t.voteCalls :: Uncounted(t.nodes, g.ds, k);
    assert forall k <- t.voteAnswers :: Uncounted(t.nodes, g.ds, k);
  }

  lemma PollOnly(s: System, t: System, g: Ghost)
    requires SystemOk(s, g) && SamePlace(s, t) && PollOk(t, g)
    ensures SystemOk(t, g)
  {
    ShapedPolled(s, t, g);
  }

  /** Server i becomes m, and the history grows by what that means. */
  ghost predicate Changes(h: History, k: History, i: nat, m: Node, e: Shadow) {
    HistoryOk(k) && Extends(h, k) && OnlyAbout(h, k, i) && NodeOk(k, i, m, e)
  }

  lemma PutPolled(s: System, t: System, g: Ghost, i: nat, m: Node, e: Shadow, k: History)
    requires SystemOk(s, g) && i < |s.nodes| && Changes(g.h, k, i, m, e)
    requires SamePlace(Put(s, i, m), t) && PollOk(t, Ghost(k, g.ds[i := e]))
    ensures SystemOk(t, Ghost(k, g.ds[i := e]))
  {
    ShapedPut(s, i, m, k, e);
    ShapedPolled(Put(s, i, m), t, Ghost(k, g.ds[i := e]));
    NodesStay(s.nodes, g, i, m, e, k);
    NetStays(s, g.h, k);
  }

  /** The part of a step that changes one server. */
  lemma PutOk(s: System, g: Ghost, i: nat, m: Node, e: Shadow, k: History)
    requires SystemOk(s, g) && i < |s.nodes| && Changes(g.h, k, i, m, e)
    requires SameCandidacy(s.nodes[i], m, g.ds[i], e)
    ensures SystemOk(Put(s, i, m), Ghost(k, g.ds[i := e]))
  {
    PollStays(s, g, i, m, e, k);
    PutPolled(s, Put(s, i, m), g, i, m, e, k);
  }

  /** The part of a step that changes one server but not the history. */
  lemma PutQuietly(s: System, g: Ghost, i: nat, m: Node, e: Shadow) returns (after: Ghost)
    requires SystemOk(s, g) && i < |s.nodes| && NodeOk(g.h, i, m, e) && SameCandidacy(s.nodes[i], m, g.ds[i], e)
    ensures SystemOk(Put(s, i, m), after) && Extends(g.h, after.h)
    ensures after == Ghost(g.h, g.ds[i := e])
  {
    NothingNew(g.h, i);
    PutOk(s, g, i, m, e, g.h);
    after := Ghost(g.h, g.ds[i := e]);
  }

  // ----- elections

  lemma NewBallotCalls(s: System, g: Ghost, i: nat, n: Node, log: Log)
    requires PollOk(s, g) && i < |s.nodes| == |g.ds| && n == s.nodes[i] && n.role.Candidate? && g.ds[i].tally == {i}
    requires |n.log| > 0 && At(n.currentTerm, i) in g.h.stands && g.h.stands[At(n.currentTerm, i)] == log && |log| > 0
    requires LastIndex(n) == |log| - 1 && n.log[|n.log| - 1].term == log[|log| - 1].term
    requires forall k <- s.voteCalls :: k.candidate == i ==> k.term < n.currentTerm
    requires forall k <- s.voteAnswers :: k.candidate == i ==> k.term < n.currentTerm
    ensures PollOk(s.(voteCalls := s.voteCalls + BallotCalls(|s.nodes|, n, i)), g)
  {
  }

  /** Every pending call and answer of server i is of a term it has left. */
  lemma BallotsBelow(s: System, g: Ghost, i: nat, t: nat)
    requires PollOk(s, g) && i < |s.nodes| == |g.ds| && s.nodes[i].currentTerm < t
    ensures forall k <- s.voteCalls :: k.candidate == i ==> k.term < t
    ensures forall k <- s.voteAnswers :: k.candidate == i ==> k.term < t
  {
    forall k | k in s.voteCalls || k in s.voteAnswers
      ensures k.candidate == i ==> k.term < t
    {
      assert Uncounted(s.nodes, g.ds, k);
    }
  }

  lemma StandsChange(h: History, me: nat, n: Node, d: Shadow) returns (k: History)
    requires HistoryOk(h) && NodeOk(h, me, n, d)
    ensures Changes(h, k, me, StartElection(n, me), d.(tally := {me}))
    ensures At(n.currentTerm + 1, me) in k.stands && k.stands[At(n.currentTerm + 1, me)] == d.full
  {
    TimeoutHistory(h, me, n, d);
    TimeoutOk(h, me, n, d);
    k := Stood(h, n.currentTerm + 1, me, d.full);
  }

  lemma TimeoutPut(s: System, g: Ghost, i: nat, m: Node) returns (after: Ghost)
    requires SystemOk(s, g) && i < |s.nodes| && m == StartElection(s.nodes[i], i)
    ensures SystemOk(Put(s, i, m), after) && Extends(g.h, after.h)
    ensures i < |after.ds| && after.ds[i].tally == {i} && after.ds[i].full == g.ds[i].full
    ensures At(m.currentTerm, i) in after.h.stands && after.h.stands[At(m.currentTerm, i)] == g.ds[i].full
  {
    assert NodeOk(g.h, i, s.nodes[i], g.ds[i]);
    var e := g.ds[i].(tally := {i});
    var k := StandsChange(g.h, i, s.nodes[i], g.ds[i]);
    PutOk(s, g, i, m, e, k);
    after := Ghost(k, g.ds[i := e]);
  }

  lemma TimeoutStep(s: System, g: Ghost, i: nat) returns (after: Ghost)
    requires SystemOk(s, g) && i < |s.nodes|
    ensures SystemOk(Next(s, Timeout(i)), after) && Extends(g.h, after.h)
  {
    var m := StartElection(s.nodes[i], i);
    after := TimeoutPut(s, g, i, m);
    BallotsBelow(s, g, i, m.currentTerm);
    TimeoutLog(s, g, i, m);
    TimeoutCalls(s, Put(s, i, m), after, i, m, g.ds[i].full);
  }

  lemma TimeoutLog(s: System, g: Ghost, i: nat, m: Node)
    requires SystemOk(s, g) && i < |s.nodes| && m == StartElection(s.nodes[i], i)
    ensures var log := g.ds[i].full;
            |log| > 0 && |m.log| > 0 && LastIndex(m) == |log| - 1 && m.log[|m.log| - 1].term == log[|log| - 1].term
  {
    assert NodeOk(g.h, i, s.nodes[i], g.ds[i]);
    LastEntry(g.h, s.nodes[i], g.ds[i]);
  }

  lemma TimeoutCalls(s: System, t: System, after: Ghost, i: nat, m: Node, log: Log)
    requires Enabled(s, Timeout(i)) && m == StartElection(s.nodes[i], i) && t == Put(s, i, m) && SystemOk(t, after)
    requires i < |after.ds| && after.ds[i].tally == {i} && |log| > 0
    requires At(m.currentTerm, i) in after.h.stands && after.h.stands[At(m.currentTerm, i)] == log
    requires |m.log| > 0 && LastIndex(m) == |log| - 1 && m.log[|m.log| - 1].term == log[|log| - 1].term
    requires forall k <- s.voteCalls :: k.candidate == i ==> k.term < m.currentTerm
    requires forall k <- s.voteAnswers :: k.candidate == i ==> k.term < m.currentTerm
    ensures SystemOk(Next(s, Timeout(i)), after)
  {
    NewBallotCalls(t, after, i, m, log);
    assert Next(s, Timeout(i)) == t.(voteCalls := t.voteCalls + BallotCalls(|t.nodes|, m, i));
    PollOnly(t, Next(s, Timeout(i)), after);
  }

  lemma CallBecomesAnswer(s: System, g: Ghost, k: VoteKey, r: VoteReply)
    requires PollOk(s, g) && k in s.voteCalls && AnswerOk(g.h, k, r)
    ensures PollOk(s.(voteCalls := s.voteCalls - {k}, voteAnswers := s.voteAnswers[k := r]), g)
  {
  }

  lemma VoteCandidacy(n: Node, d: Shadow, a: VoteArgs)
    requires |n.log| > 0
    ensures SameCandidacy(n, RequestVote(n, a).0, d, d)
  {
  }

  lemma VoteChange(h: History, me: nat, n: Node, d: Shadow, a: VoteArgs, key: VoteKey) returns (k: History)
    requires HistoryOk(h) && NodeOk(h, me, n, d) && RequestOk(h, a)
    requires key.term == a.term && key.candidate == a.candidate && key.voter == me
    ensures Changes(h, k, me, RequestVote(n, a).0, d) && SameCandidacy(n, RequestVote(n, a).0, d, d)
    ensures AnswerOk(k, key, RequestVote(n, a).1)
  {
    VoteCandidacy(n, d, a);
    VoteHistory(h, me, n, d, a);
    VoteOk(h, me, n, d, a);
    k := AfterVote(h, me, n, d, a);
  }

  lemma VoteArrivesStep(s: System, g: Ghost, k: VoteKey) returns (after: Ghost)
    requires SystemOk(s, g) && k in s.voteCalls
    ensures SystemOk(Next(s, VoteArrives(k)), after) && Extends(g.h, after.h)
  {
    var i, a := k.voter, s.voteCalls[k];
    assert NodeOk(g.h, i, s.nodes[i], g.ds[i]);
    var h := VoteChange(g.h, i, s.nodes[i], g.ds[i], a, k);
    var (m, r) := RequestVote(s.nodes[i], a);
    after := Ghost(h, g.ds[i := g.ds[i]]);
    PutOk(s, g, i, m, g.ds[i], h);
    VoteMoved(s, Put(s, i, m), after, k, r);
  }

  lemma VoteMoved(s: System, t: System, after: Ghost, k: VoteKey, r: VoteReply)
    requires Enabled(s, VoteArrives(k)) && SystemOk(t, after) && AnswerOk(after.h, k, r)
    requires t == Put(s, k.voter, RequestVote(s.nodes[k.voter], s.voteCalls[k]).0)
    requires r == RequestVote(s.nodes[k.voter], s.voteCalls[k]).1
    ensures SystemOk(Next(s, VoteArrives(k)), after)
  {
    CallBecomesAnswer(t, after, k, r);
    assert Next(s, VoteArrives(k)) == t.(voteCalls := t.voteCalls - {k}, voteAnswers := t.voteAnswers[k := r]);
    PollOnly(t, Next(s, VoteArrives(k)), after);
  }

  lemma Dropped(s: System, g: Ghost, k: VoteKey)
    requires SystemOk(s, g)
    ensures SystemOk(s.(voteAnswers := s.voteAnswers - {k}), g)
    ensures SystemOk(s.(voteCalls := s.voteCalls - {k}), g)
  {
    assert PollOk(s.(voteAnswers := s.voteAnswers - {k}), g);
    PollOnly(s, s.(voteAnswers := s.voteAnswers - {k}), g);
    assert PollOk(s.(voteCalls := s.voteCalls - {k}), g);
    PollOnly(s, s.(voteCalls := s.voteCalls - {k}), g);
  }

  /** Counting one answer leaves the voters of all other answers uncounted. */
  lemma CountedPoll(s: System, g: Ghost, k: VoteKey, m: Node, e: Shadow, after: History)
    requires PollOk(s, g) && k in s.voteAnswers && |s.nodes| == |g.ds| && Extends(g.h, after)
    requires CountsOnly(s.nodes[k.candidate], m, g.ds[k.candidate], e, k)
    ensures PollOk(Put(s, k.candidate, m).(voteAnswers := s.voteAnswers - {k}), Ghost(after, g.ds[k.candidate := e]))
  {
    var i := k.candidate;
    forall x | (x in s.voteCalls || x in s.voteAnswers) && x != k
      ensures Uncounted(s.nodes[i := m], g.ds[i := e], x)
    {
      assert Uncounted(s.nodes, g.ds, x);
      assert x.candidate == i && x.term == k.term ==> x.voter != k.voter;
    }
  }

  /** A candidacy that goes on has counted nobody, or this voter. */
  ghost predicate CountsOnly(n: Node, m: Node, d: Shadow, e: Shadow, k: VoteKey) {
    && n.currentTerm <= m.currentTerm
    && (m.role.Candidate? && m.currentTerm == n.currentTerm ==>
          n.role.Candidate? && (e.tally == d.tally || (e.tally == d.tally + {k.voter} && n.currentTerm == k.term)))
  }

  lemma CountChange(h: History, me: nat, n: Node, d: Shadow, key: VoteKey, r: VoteReply) returns (k: History, e: Shadow)
    requires HistoryOk(h) && NodeOk(h, me, n, d) && AnswerOk(h, key, r)
    requires key.candidate == me && key.voter < h.peers
    requires n.role.Candidate? && n.currentTerm == key.term ==> key.voter !in d.tally
    ensures Changes(h, k, me, HandleVoteReply(n, me, h.peers, key.term, r), e)
    ensures CountsOnly(n, HandleVoteReply(n, me, h.peers, key.term, r), d, e, key)
  {
    k := CountOk(h, me, n, d, key, r);
    e := AfterCount(d, n, key.term, key.voter, r);
  }

  lemma VoteAnsweredStep(s: System, g: Ghost, k: VoteKey) returns (after: Ghost)
    requires SystemOk(s, g) && k in s.voteAnswers
    ensures SystemOk(Next(s, VoteAnswered(k)), after) && Extends(g.h, after.h)
  {
    var i, r := k.candidate, s.voteAnswers[k];
    assert NodeOk(g.h, i, s.nodes[i], g.ds[i]);
    assert Uncounted(s.nodes, g.ds, k);
    var h, e := CountChange(g.h, i, s.nodes[i], g.ds[i], k, r);
    var m := HandleVoteReply(s.nodes[i], i, |s.nodes|, k.term, r);
    after := Ghost(h, g.ds[i := e]);
    CountedPoll(s, g, k, m, e, h);
    PutPolled(s, Next(s, VoteAnswered(k)), g, i, m, e, h);
  }

  // ----- replication

  lemma ProposeChange(h: History, me: nat, n: Node, d: Shadow, command: Command) returns (k: History, e: Shadow)
    requires HistoryOk(h) && NodeOk(h, me, n, d)
    ensures Changes(h, k, me, Start(n, command), e) && SameCandidacy(n, Start(n, command), d, e)
  {
    StartHistory(h, me, n, d, command);
    StartOk(h, me, n, d, command);
    k, e := AfterStart(h, me, n, d, command), ShadowAfterStart(n, d, command);
  }

  lemma ProposeStep(s: System, g: Ghost, i: nat, command: Command) returns (after: Ghost)
    requires SystemOk(s, g) && i < |s.nodes|
    ensures SystemOk(Next(s, Propose(i, command)), after) && Extends(g.h, after.h)
  {
    assert NodeOk(g.h, i, s.nodes[i], g.ds[i]);
    var k, e := ProposeChange(g.h, i, s.nodes[i], g.ds[i], command);
    after := Ghost(k, g.ds[i := e]);
    PutOk(s, g, i, Start(s.nodes[i], command), e, k);
    assert Next(s, Propose(i, command)) == Put(s, i, Start(s.nodes[i], command));
  }

  lemma CallAdded(s: System, g: Ghost, m: AppendCall)
    requires SystemOk(s, g) && AppendOk(g.h, m.args) && m.server < |s.nodes| && m.args.leader < |s.nodes|
    ensures SystemOk(s.(appendCalls := s.appendCalls + {m}), g)
  {
  }

  lemma InstallAdded(s: System, g: Ghost, m: InstallCall)
    requires SystemOk(s, g) && InstallOk(g.h, m.args) && m.server < |s.nodes| && m.args.leader < |s.nodes|
    ensures SystemOk(s.(installCalls := s.installCalls + {m}), g)
  {
  }

  lemma SendStep(s: System, g: Ghost, i: nat, server: nat, leaderCommit: nat)
    requires SystemOk(s, g) && Enabled(s, Send(i, server, leaderCommit))
    ensures SystemOk(Next(s, Send(i, server, leaderCommit)), g)
  {
    assert NodeOk(g.h, i, s.nodes[i], g.ds[i]);
    match BuildMessage(s.nodes[i], i, server, leaderCommit) {
      case SendAppend(a) =>
        SentAppendOk(g.h, i, s.nodes[i], g.ds[i], server, leaderCommit);
        CallAdded(s, g, AppendCall(server, a));
      case SendInstall(a) =>
        SentInstallOk(g.h, i, s.nodes[i], g.ds[i], server, leaderCommit);
        InstallAdded(s, g, InstallCall(server, a));
    }
  }

  lemma AnswerAdded(s: System, g: Ghost, m: AppendAnswer)
    requires SystemOk(s, g) && AppendAnswerOk(g.h, m.server, m.args, m.reply)
    requires m.server < |s.nodes| && m.args.leader < |s.nodes|
    ensures SystemOk(s.(appendAnswers := s.appendAnswers + {m}), g)
  {
  }

  /** The role of a server that has heard a message is Follower or what it was in a higher term. */
  lemma AppendCandidacy(n: Node, d: Shadow, e: Shadow, a: AppendArgs)
    requires |n.log| > 0 && e.tally == d.tally
    ensures SameCandidacy(n, AppendEntries(n, a).0, d, e)
  {
    AppendCases(n, a);
  }

  lemma AppendChange(h: History, me: nat, n: Node, d: Shadow, a: AppendArgs) returns (k: History, e: Shadow)
    requires HistoryOk(h) && NodeOk(h, me, n, d) && AppendOk(h, a)
    ensures Changes(h, k, me, AppendEntries(n, a).0, e) && e.tally == d.tally
    ensures AppendAnswerOk(k, me, a, AppendEntries(n, a).1)
  {
    AppendHistory(h, me, n, d, a);
    AppendNodeOk(h, me, n, d, a);
    AppendAnswerIsOk(h, me, n, d, a);
    k, e := AfterAppend(h, me, n, d, a), ShadowAfterAppend(n, d, a);
  }

  lemma AppendArrivesStep(s: System, g: Ghost, m: AppendCall) returns (after: Ghost)
    requires SystemOk(s, g) && m in s.appendCalls
    ensures SystemOk(Next(s, AppendArrives(m)), after) && Extends(g.h, after.h)
  {
    var i := m.server;
    assert NodeOk(g.h, i, s.nodes[i], g.ds[i]);
    var k, e := AppendChange(g.h, i, s.nodes[i], g.ds[i], m.args);
    var (n, r) := AppendEntries(s.nodes[i], m.args);
    AppendCandidacy(s.nodes[i], g.ds[i], e, m.args);
    after := Ghost(k, g.ds[i := e]);
    PutOk(s, g, i, n, e, k);
    var t, answer := Put(s, i, n), AppendAnswer(i, m.args, r);
    AnswerAdded(t, after, answer);
    assert Next(s, AppendArrives(m)) == t.(appendAnswers := t.appendAnswers + {answer});
  }

  lemma AppendAnsweredStep(s: System, g: Ghost, m: AppendAnswer) returns (after: Ghost)
    requires SystemOk(s, g) && m in s.appendAnswers
    ensures SystemOk(Next(s, AppendAnswered(m)), after) && Extends(g.h, after.h)
  {
    var i := m.args.leader;
    assert NodeOk(g.h, i, s.nodes[i], g.ds[i]);
    var n := HandleAppendReply(s.nodes[i], m.server, m.args, m.reply);
    AppendAnswerTaken(g.h, i, s.nodes[i], g.ds[i], m.server, m.args, m.reply);
    after := PutQuietly(s, g, i, n, g.ds[i]);
    assert Next(s, AppendAnswered(m)) == Put(s, i, n);
  }

  lemma CommitStep(s: System, g: Ghost, i: nat) returns (after: Ghost)
    requires SystemOk(s, g) && i < |s.nodes|
    ensures SystemOk(Next(s, Commit(i)), after) && Extends(g.h, after.h)
  {
    assert NodeOk(g.h, i, s.nodes[i], g.ds[i]);
    var n := UpdateCommitIndex(s.nodes[i], i, |s.nodes|);
    CommitStepOk(g.h, i, s.nodes[i], g.ds[i]);
    after := PutQuietly(s, g, i, n, g.ds[i]);
    assert Next(s, Commit(i)) == Put(s, i, n);
  }

  lemma DeliveredAdded(s: System, g: Ghost, i: nat, app: seq<Command>, given: set<Delivery>)
    requires SystemOk(s, g) && i < |s.nodes| && forall d <- given :: DeliveredOk(g.h, d.index, d.command)
    ensures SystemOk(s.(apps := s.apps[i := app], delivered := s.delivered + given), g)
  {
  }

  lemma ReceivedOk(h: History, i: nat, n: Node, d: Shadow)
    requires NodeOk(h, i, n, d)
    ensures forall x <- Received(i, ApplyCommitted(n).1) :: DeliveredOk(h, x.index, x.command)
  {
    var msgs := ApplyCommitted(n).1;
    DeliveriesAre(n, n.lastApplied, n.commitIndex);
    forall x | x in Received(i, msgs)
      ensures DeliveredOk(h, x.index, x.command)
    {
      var k :| 0 <= k < |msgs| && msgs[k].ApplyCommand? && x == Delivery(i, msgs[k].index, msgs[k].command);
      assert x.index == n.lastApplied + 1 + k;
      DeliveriesOk(h, i, n, d, x.index);
    }
  }

  lemma ApplyStep(s: System, g: Ghost, i: nat) returns (after: Ghost)
    requires SystemOk(s, g) && i < |s.nodes|
    ensures SystemOk(Next(s, Apply(i)), after) && Extends(g.h, after.h)
  {
    var (n, msgs) := ApplyCommitted(s.nodes[i]);
    assert NodeOk(g.h, i, s.nodes[i], g.ds[i]);
    ReceivedOk(g.h, i, s.nodes[i], g.ds[i]);
    ApplyOk(g.h, i, s.nodes[i], g.ds[i]);
    after := PutQuietly(s, g, i, n, g.ds[i]);
    var t := Put(s, i, n);
    DeliveredAdded(t, after, i, Feed(s.apps[i], msgs), Received(i, msgs));
    assert Next(s, Apply(i)) ==
        t.(apps := t.apps[i := Feed(s.apps[i], msgs)], delivered := t.delivered + Received(i, msgs));
  }

  // ----- snapshots and crashes

  lemma SnapshotCandidacy(n: Node, me: nat, d: Shadow, index: nat, data: seq<Command>)
    requires |n.log| > 0
    ensures SameCandidacy(n, Snapshot(n, me, index, data), d, ShadowAfterSnapshot(n, d, index))
  {
  }

  lemma CompactStep(s: System, g: Ghost, i: nat, index: nat, data: seq<Command>) returns (after: Ghost)
    requires SystemOk(s, g) && Enabled(s, Compact(i, index, data))
    ensures SystemOk(Next(s, Compact(i, index, data)), after) && Extends(g.h, after.h)
  {
    assert NodeOk(g.h, i, s.nodes[i], g.ds[i]);
    var n, e := Snapshot(s.nodes[i], i, index, data), ShadowAfterSnapshot(s.nodes[i], g.ds[i], index);
    SnapshotTaken(g.h, i, s.nodes[i], g.ds[i], index, data);
    SnapshotCandidacy(s.nodes[i], i, g.ds[i], index, data);
    after := PutQuietly(s, g, i, n, e);
    assert Next(s, Compact(i, index, data)) == Put(s, i, n);
  }

  lemma InstallAnswerAdded(s: System, g: Ghost, m: InstallAnswer)
    requires SystemOk(s, g) && InstallOk(g.h, m.args) && m.server < |s.nodes| && m.args.leader < |s.nodes|
    ensures SystemOk(s.(installAnswers := s.installAnswers + {m}), g)
  {
  }

  lemma InstallCandidacy(n: Node, d: Shadow, e: Shadow, a: InstallArgs)
    requires |n.log| > 0 && e.tally == d.tally
    ensures SameCandidacy(n, InstallSnapshot(n, a).node, d, e)
  {
    InstallCases(n, a);
  }

  lemma InstallArrivesStep(s: System, g: Ghost, m: InstallCall) returns (after: Ghost)
    requires SystemOk(s, g) && m in s.installCalls
    ensures SystemOk(Next(s, InstallArrives(m)), after) && Extends(g.h, after.h)
  {
    var i, a := m.server, m.args;
    assert NodeOk(g.h, i, s.nodes[i], g.ds[i]);
    var r := InstallSnapshot(s.nodes[i], a);
    var e := ShadowAfterInstall(g.h, s.nodes[i], g.ds[i], a);
    SnapshotInstalled(g.h, i, s.nodes[i], g.ds[i], a);
    InstallCandidacy(s.nodes[i], g.ds[i], e, a);
    after := PutQuietly(s, g, i, r.node, e);
    InstallNews(s, g.h, Put(s, i, r.node), after, m);
  }

  lemma InstallNews(s: System, h: History, t: System, after: Ghost, m: InstallCall)
    requires Enabled(s, InstallArrives(m)) && SystemOk(t, after) && InstallOk(after.h, m.args)
    requires t == Put(s, m.server, InstallSnapshot(s.nodes[m.server], m.args).node)
    ensures SystemOk(Next(s, InstallArrives(m)), after)
  {
    var i, r := m.server, InstallSnapshot(s.nodes[m.server], m.args);
    InstallCases(s.nodes[i], m.args);
    DeliveredAdded(t, after, i, Feed(s.apps[i], r.delivered), Received(i, r.delivered));
    var fed, answer := PutFed(s, i, r.node, r.delivered), InstallAnswer(i, m.args, r.reply);
    InstallAnswerAdded(fed, after, answer);
    assert Next(s, InstallArrives(m)) == fed.(installAnswers := fed.installAnswers + {answer});
  }

  lemma InstallAnsweredStep(s: System, g: Ghost, m: InstallAnswer) returns (after: Ghost)
    requires SystemOk(s, g) && m in s.installAnswers
    ensures SystemOk(Next(s, InstallAnswered(m)), after) && Extends(g.h, after.h)
  {
    var i := m.args.leader;
    assert NodeOk(g.h, i, s.nodes[i], g.ds[i]);
    var n := HandleInstallReply(s.nodes[i], m.server, m.args, m.reply);
    InstallAnswerTaken(g.h, i, s.nodes[i], g.ds[i], m.server, m.args, m.reply);
    after := PutQuietly(s, g, i, n, g.ds[i]);
    assert Next(s, InstallAnswered(m)) == Put(s, i, n);
  }

  lemma RestartStep(s: System, g: Ghost, i: nat, n: Node) returns (after: Ghost)
    requires SystemOk(s, g) && i < |s.nodes| && NodeOk(g.h, i, n, g.ds[i]) && s.nodes[i].currentTerm <= n.currentTerm
    ensures SystemOk(Restart(s, i, n.disk), after) && Extends(g.h, after.h)
  {
    BootOk(g.h, i, n, g.ds[i]);
    after := PutQuietly(s, g, i, Boot(n.disk), g.ds[i]);
    AppReplaced(Put(s, i, Boot(n.disk)), after, i, n.disk.snapshot);
  }

  lemma AppReplaced(s: System, g: Ghost, i: nat, app: seq<Command>)
    requires SystemOk(s, g) && i < |s.nodes|
    ensures SystemOk(s.(apps := s.apps[i := app]), g)
  {
    DeliveredAdded(s, g, i, app, {});
    assert s.delivered + {} == s.delivered;
    assert s.(apps := s.apps[i := app]) == s.(apps := s.apps[i := app], delivered := s.delivered + {});
  }

  lemma CrashStep(s: System, g: Ghost, i: nat) returns (after: Ghost)
    requires SystemOk(s, g) && i < |s.nodes|
    ensures SystemOk(Next(s, Crash(i)), after) && Extends(g.h, after.h)
  {
    assert NodeOk(g.h, i, s.nodes[i], g.ds[i]);
    after := RestartStep(s, g, i, s.nodes[i]);
    assert Next(s, Crash(i)) == Restart(s, i, s.nodes[i].disk);
  }

  lemma CrashMidwayStep(s: System, g: Ghost, i: nat, term: nat) returns (after: Ghost)
    requires SystemOk(s, g) && i < |s.nodes| && term > s.nodes[i].currentTerm
    ensures SystemOk(Next(s, CrashMidway(i, term)), after) && Extends(g.h, after.h)
  {
    assert NodeOk(g.h, i, s.nodes[i], g.ds[i]);
    var n := StepDown(s.nodes[i], term);
    StepDownOk(g.h, i, s.nodes[i], g.ds[i], term);
    after := RestartStep(s, g, i, n);
    assert Next(s, CrashMidway(i, term)) == Restart(s, i, n.disk);
  }
}
