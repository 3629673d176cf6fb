/** Where the server does less than Raft promises, and exactly when. */
module RaftEdges {
  import opened RaftNode
  import opened RaftSystem
  import opened RaftReplication
  import opened RaftSnapshot

  // ----- a snapshot that is older than what the service has applied

  /** A service that has applied lastApplied commands still has after a snapshot arrives, exactly when the
      snapshot is ignored or reaches at least as far as lastApplied. */
  lemma InStepExactlyWhen(n: Node, a: InstallArgs, app: seq<Command>)
    requires |n.log| > 0 && |app| == n.lastApplied && |a.data| == a.lastIncludedIndex
    ensures var r := InstallSnapshot(n, a);
            |Feed(app, r.delivered)| == r.node.lastApplied <==>
                  (Installs(n, a) ==> n.lastApplied <= a.lastIncludedIndex)
  {
    InstallCases(n, a);
    if Installs(n, a) {
      var msgs := [ApplySnapshot(a.lastIncludedIndex, a.lastIncludedTerm, a.data)];
      assert Feed(app, msgs) == Feed(a.data, msgs[1..]);
    }
  }

  // ----- the handler's commit index

  /** Taken by itself, the handler lowers commitIndex exactly when a message that it accepts claims more than
      is committed here but ends below that; no such message is sent where every message is harmless, and
      RaftFallRun is a run where one is sent. */
  lemma CommitDropsExactlyWhen(n: Node, a: AppendArgs)
    requires |n.log| > 0
    ensures AppendEntries(n, a).0.commitIndex < n.commitIndex <==>
            Takes(n, a) && a.leaderCommit > n.commitIndex && a.prevLogIndex + |a.entries| < n.commitIndex
  {
    AppendCases(n, a);
  }

  // ----- a cluster of one

  ghost predicate Lonely(s: System) {
    |s.nodes| == 1 && s.voteCalls == map[] && s.voteAnswers == map[] && !s.nodes[0].role.Leader?
  }

  lemma LonelyStep(s: System, step: Step)
    requires Lonely(s) && Enabled(s, step)
    ensures Lonely(Next(s, step))
  {
    if step.Timeout? {
      assert BallotCalls(1, StartElection(s.nodes[0], 0), 0) == map[];
    }
  }

  /** Votes are counted only when an answer arrives, so a cluster of one server never has a leader. */
  lemma {:induction false} AloneNeverLeads(r: Run, i: nat)
    requires IsRun(r, 1) && i < |r.states|
    ensures Lonely(r.states[i])
    decreases i
  {
    if i > 0 {
      AloneNeverLeads(r, i - 1);
      LonelyStep(r.states[i - 1], r.steps[i - 1]);
    }
  }
}
