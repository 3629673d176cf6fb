/** What every server, every message and every service keeps, relative to the history. */
module RaftInvariant {
  import opened RaftNode
  import opened RaftHistory
  import opened RaftEvents

  /** The uncompacted side of one server.  `full` is a log made by leaders; the server's log shows its
      entries above snapshotIndex.  `base` is the committed prefix its snapshot stands for.  The two
      differ below snapshotIndex only after a snapshot was installed over a conflicting log.
      `tally` is the set of servers whose votes have been counted. */
  datatype Shadow = Shadow(full: Log, base: Log, tally: set<nat>)

  ghost predicate Clean(n: Node, d: Shadow) {
    Agree(d.base, d.full, n.snapshotIndex + 1)
  }

  ghost predicate LogShown(n: Node, d: Shadow) {
    && |d.base| == n.snapshotIndex + 1 && |d.full| > n.snapshotIndex
    && |n.log| == |d.full| - n.snapshotIndex
    && n.log[0] == Entry(n.snapshotTerm, Nil) && n.snapshotTerm == d.base[n.snapshotIndex].term
    && n.log[1..] == d.full[n.snapshotIndex + 1..]
    && (|n.log| == 1 ==> Clean(n, d))
  }

  ghost predicate LogsOk(h: History, n: Node, d: Shadow) {
    && LogShown(n, d)
    && Good(h, d.full) && TermsUpTo(d.full, n.currentTerm)
    && Settled(h, n.currentTerm, d.base, n.snapshotIndex + 1)
  }

  ghost predicate CommitOk(h: History, n: Node, d: Shadow) {
    && n.snapshotIndex <= n.lastApplied <= n.commitIndex < |d.full|
    && (n.commitIndex > n.snapshotIndex ==> Clean(n, d) && Settled(h, n.currentTerm, d.full, n.commitIndex + 1))
  }

  ghost predicate VotesOk(h: History, me: nat, n: Node) {
    && NoLaterVote(h, me, n.currentTerm)
    && (forall t: nat :: At(t, me) in h.stands ==> t <= n.currentTerm)
    && (At(n.currentTerm, me) in h.votes <==> n.votedFor != NOBODY)
    && (n.votedFor != NOBODY ==> n.votedFor == h.votes[At(n.currentTerm, me)])
    && (forall t <- h.leaders :: h.leaders[t] == me ==>
           t <= n.currentTerm && (t == n.currentTerm ==> !n.role.Candidate?))
  }

  ghost predicate CandidateOk(h: History, me: nat, n: Node, d: Shadow) {
    n.role.Candidate? ==>
      && n.currentTerm >= 1 && n.votedFor == me
      && At(n.currentTerm, me) in h.stands && h.stands[At(n.currentTerm, me)] == d.full
      && |d.tally| == n.votes
      && forall s <- d.tally :: s < h.peers && At(n.currentTerm, s) in h.votes && h.votes[At(n.currentTerm, s)] == me
  }

  /** A leader of term t may count server s as holding index m: it has accepted that far, or that
      far is committed already. */
  ghost predicate MatchOk(h: History, t: nat, s: nat, m: int) {
    && t in h.logs && 0 <= m < |h.logs[t]|
    && ((At(t, s) in h.acked && m <= h.acked[At(t, s)]) || Settled(h, t, h.logs[t], m + 1))
  }

  ghost predicate LeaderOk(h: History, me: nat, n: Node, d: Shadow) {
    n.role.Leader? ==>
      && n.currentTerm in h.logs && h.logs[n.currentTerm] == d.full && Clean(n, d)
      && n.currentTerm in h.leaders && h.leaders[n.currentTerm] == me
      && At(n.currentTerm, me) in h.acked && h.acked[At(n.currentTerm, me)] == |d.full| - 1
      && |n.nextIndex| == |n.matchIndex| == h.peers
      && (forall s :: 0 <= s < h.peers ==> n.nextIndex[s] >= 1)
      && (forall s :: 0 <= s < h.peers && s != me ==> MatchOk(h, n.currentTerm, s, n.matchIndex[s]))
  }

  /** A server whose log is compacted has a snapshot to send. */
  ghost predicate SnapshotOk(n: Node) {
    n.snapshotIndex > 0 ==> |n.disk.snapshot| > 0
  }

  /** What does not depend on the server's role or vote. */
  ghost predicate CoreOk(h: History, me: nat, n: Node, d: Shadow) {
    && LogsOk(h, n, d) && CommitOk(h, n, d)
    && Remembers(h, me, d.full, n.currentTerm)
    && Persisted(n)
    && SnapshotOk(n)
  }

  ghost predicate NodeOk(h: History, me: nat, n: Node, d: Shadow) {
    && me < h.peers
    && CoreOk(h, me, n, d)
    && VotesOk(h, me, n) && CandidateOk(h, me, n, d) && LeaderOk(h, me, n, d)
  }

  // ----- messages

  /** A slice of the sender's log, with a commit index that the sender may claim; or a message without a
      previous term, as a leader builds it when nextIndex is past the end of its log or not above its
      snapshot, which every server refuses. */
  ghost predicate AppendOk(h: History, a: AppendArgs) {
    && a.term in h.logs
    && (AppendSlice(h, a, h.logs[a.term]) || (a.prevLogIndex >= 1 && a.prevLogTerm == 0))
  }

  ghost predicate AppendSlice(h: History, a: AppendArgs, log: Log) {
    && 0 <= a.prevLogIndex < |log| && a.prevLogTerm == log[a.prevLogIndex].term
    && a.prevLogIndex + |a.entries| < |log|
    && (forall i :: 0 <= i < |a.entries| ==> a.entries[i] == log[a.prevLogIndex + 1 + i])
    && a.leaderCommit <= a.prevLogIndex + |a.entries|
    && Settled(h, a.term, log, a.leaderCommit + 1)
  }

  /** An answer vouches for what it acknowledges. */
  ghost predicate AppendAnswerOk(h: History, s: nat, a: AppendArgs, r: AppendReply) {
    r.success ==> MatchOk(h, a.term, s, a.prevLogIndex + |a.entries|)
  }

  /** A snapshot message carries a committed prefix of the sender's log. */
  ghost predicate InstallOk(h: History, a: InstallArgs) {
    a.term in h.logs && a.lastIncludedIndex < |h.logs[a.term]| &&
    var log := h.logs[a.term];
    && log[a.lastIncludedIndex].term == a.lastIncludedTerm
    && Settled(h, a.term, log, a.lastIncludedIndex + 1)
    && |a.data| > 0
  }

  /** What was delivered at an index is what is committed there. */
  ghost predicate DeliveredOk(h: History, i: nat, c: Command) {
    exists v: nat, n: nat :: DeliveredBy(h, i, c, v, n)
  }

  ghost predicate DeliveredBy(h: History, i: nat, c: Command, v: nat, n: nat) {
    Committed(h, v, n) && 1 <= i <= n && h.logs[v][i].command == c
  }

  // ----- what survives when the history grows

  lemma RemembersStays(h: History, k: History, me: nat, log: Log, upTo: nat)
    requires AcksInLogs(h) && Extends(h, k) && SameAcks(h, k, me) && Remembers(h, me, log, upTo)
    ensures Remembers(k, me, log, upTo)
  {
    forall r: nat, n: nat {:trigger Kept(k, log, r, n, upTo)} | At(r, me) in k.acked && n <= k.acked[At(r, me)]
      ensures Kept(k, log, r, n, upTo)
    {
      assert Kept(h, log, r, n, upTo);
      KeptStays(h, k, log, r, n, upTo);
    }
  }

  lemma MatchStays(h: History, k: History, t: nat, s: nat, m: int)
    requires Extends(h, k) && MatchOk(h, t, s, m)
    ensures MatchOk(k, t, s, m)
  {
    if !(At(t, s) in h.acked && m <= h.acked[At(t, s)]) {
      SettledStays(h, k, t, h.logs[t], m + 1);
      SettledLess(k, t, h.logs[t], m + 1, t, k.logs[t], m + 1);
    }
  }

  lemma LeaderStays(h: History, k: History, me: nat, n: Node, d: Shadow)
    requires Extends(h, k) && Quiet(h, k, me) && LeaderOk(h, me, n, d)
    ensures LeaderOk(k, me, n, d)
  {
    if n.role.Leader? {
      forall s | 0 <= s < k.peers && s != me
        ensures MatchOk(k, n.currentTerm, s, n.matchIndex[s])
      {
        MatchStays(h, k, n.currentTerm, s, n.matchIndex[s]);
      }
    }
  }

  lemma LogsStay(h: History, k: History, n: Node, d: Shadow)
    requires Extends(h, k) && LogsOk(h, n, d) && CommitOk(h, n, d)
    ensures LogsOk(k, n, d) && CommitOk(k, n, d)
  {
    GoodStays(h, k, d.full);
    SettledStays(h, k, n.currentTerm, d.base, n.snapshotIndex + 1);
    if n.commitIndex > n.snapshotIndex {
      SettledStays(h, k, n.currentTerm, d.full, n.commitIndex + 1);
    }
  }

  lemma CoreStays(h: History, k: History, me: nat, n: Node, d: Shadow)
    requires AcksInLogs(h) && Extends(h, k) && SameAcks(h, k, me) && CoreOk(h, me, n, d)
    ensures CoreOk(k, me, n, d)
  {
    LogsStay(h, k, n, d);
    RemembersStays(h, k, me, d.full, n.currentTerm);
  }

  lemma CoreFrom(h: History, k: History, me: nat, n: Node, d: Shadow)
    requires Extends(h, k) && LogsOk(h, n, d) && CommitOk(h, n, d) && Persisted(n) && SnapshotOk(n)
    requires Remembers(k, me, d.full, n.currentTerm)
    ensures CoreOk(k, me, n, d)
  {
    LogsStay(h, k, n, d);
  }

  lemma FollowerFrom(k: History, me: nat, n: Node, d: Shadow)
    requires me < k.peers && CoreOk(k, me, n, d) && VotesOk(k, me, n) && n.role.Follower?
    ensures NodeOk(k, me, n, d)
  {
  }

  lemma NodeStays(h: History, k: History, me: nat, n: Node, d: Shadow)
    requires AcksInLogs(h) && Extends(h, k) && Quiet(h, k, me) && NodeOk(h, me, n, d)
    ensures NodeOk(k, me, n, d)
  {
    CoreStays(h, k, me, n, d);
    LeaderStays(h, k, me, n, d);
    assert VotesOk(k, me, n);
    assert CandidateOk(k, me, n, d);
  }

  lemma AppendStays(h: History, k: History, a: AppendArgs)
    requires Extends(h, k) && AppendOk(h, a)
    ensures AppendOk(k, a)
  {
    var log := h.logs[a.term];
    if AppendSlice(h, a, log) {
      SettledStays(h, k, a.term, log, a.leaderCommit + 1);
      SettledLess(k, a.term, log, a.leaderCommit + 1, a.term, k.logs[a.term], a.leaderCommit + 1);
    }
  }

  lemma InstallStays(h: History, k: History, a: InstallArgs)
    requires Extends(h, k) && InstallOk(h, a)
    ensures InstallOk(k, a)
  {
    var log := h.logs[a.term];
    SettledStays(h, k, a.term, log, a.lastIncludedIndex + 1);
    SettledLess(k, a.term, log, a.lastIncludedIndex + 1, a.term, k.logs[a.term], a.lastIncludedIndex + 1);
  }

  lemma DeliveredStays(h: History, k: History, i: nat, c: Command)
    requires Extends(h, k) && DeliveredOk(h, i, c)
    ensures DeliveredOk(k, i, c)
  {
    var v: nat, n: nat :| DeliveredBy(h, i, c, v, n);
    CommittedStays(h, k, v, n);
    assert DeliveredBy(k, i, c, v, n);
  }
}
