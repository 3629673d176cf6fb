/** Taking a snapshot and installing one keep a server in order, even when the installed snapshot is
    laid over a log that disagrees with it. */
module RaftSnapshot {
  import opened RaftNode
  import opened RaftHistory
  import opened RaftEvents
  import opened RaftInvariant
  import opened RaftReplication
  import opened RaftLeadership

  // ----- taking

  ghost predicate Compacts(n: Node, index: nat) {
    index > n.snapshotIndex && index - n.snapshotIndex < |n.log|
  }

  ghost function ShadowAfterSnapshot(n: Node, d: Shadow, index: nat): Shadow {
    if Compacts(n, index) && index < |d.full| then d.(base := d.full[..index + 1]) else d
  }

  lemma CompactedShown(n: Node, m: Node, d: Shadow, e: Shadow, index: nat, me: nat, data: seq<Command>)
    requires LogShown(n, d) && Clean(n, d) && Compacts(n, index) && index <= n.lastApplied && index <= n.commitIndex
    requires m == Snapshot(n, me, index, data) && e == d.(base := d.full[..index + 1])
    ensures LogShown(m, e) && Clean(m, e) && m.snapshotIndex == index && m.currentTerm == n.currentTerm
    ensures m.commitIndex == n.commitIndex && m.lastApplied == n.lastApplied
  {
    CleanEntry(n, d, index);
    assert m.log[1..] == e.full[index + 1..];
  }

  lemma CompactedLogs(h: History, n: Node, m: Node, d: Shadow, e: Shadow, index: nat, me: nat, data: seq<Command>)
    requires LogsOk(h, n, d) && CommitOk(h, n, d) && Compacts(n, index) && index <= n.lastApplied
    requires m == Snapshot(n, me, index, data) && e == d.(base := d.full[..index + 1])
    ensures LogsOk(h, m, e) && CommitOk(h, m, e) && m.commitIndex == n.commitIndex && m.lastApplied == n.lastApplied
  {
    CompactedShown(n, m, d, e, index, me, data);
    SettledLess(h, n.currentTerm, d.full, n.commitIndex + 1, n.currentTerm, e.base, index + 1);
  }

  lemma CompactedLeader(h: History, me: nat, n: Node, m: Node, d: Shadow, e: Shadow, index: nat, data: seq<Command>)
    requires LogsOk(h, n, d) && CommitOk(h, n, d) && LeaderOk(h, me, n, d)
    requires Compacts(n, index) && index <= n.lastApplied
    requires m == Snapshot(n, me, index, data) && e == d.(base := d.full[..index + 1])
    ensures LeaderOk(h, me, m, e)
  {
    if n.role.Leader? {
      SettledLess(h, n.currentTerm, d.full, n.commitIndex + 1, n.currentTerm, d.full, index + 1);
      forall s | 0 <= s < h.peers && s != me
        ensures MatchOk(h, m.currentTerm, s, m.matchIndex[s])
      {
        assert MatchOk(h, n.currentTerm, s, n.matchIndex[s]);
        assert m.matchIndex[s] == Max(n.matchIndex[s], index);
      }
    }
  }

  lemma SnapshotTaken(h: History, me: nat, n: Node, d: Shadow, index: nat, data: seq<Command>)
    requires NodeOk(h, me, n, d) && index <= n.lastApplied && |data| > 0
    ensures NodeOk(h, me, Snapshot(n, me, index, data), ShadowAfterSnapshot(n, d, index))
    ensures Snapshot(n, me, index, data).commitIndex == n.commitIndex
  {
    if Compacts(n, index) {
      var m := Snapshot(n, me, index, data);
      var e := ShadowAfterSnapshot(n, d, index);
      CompactedLogs(h, n, m, d, e, index, me, data);
      CompactedLeader(h, me, n, m, d, e, index, data);
      SnapshotFields(n, me, index, data);
      assert Remembers(h, me, e.full, m.currentTerm);
      assert VotesOk(h, me, m);
    }
  }

  lemma SnapshotFields(n: Node, me: nat, index: nat, data: seq<Command>)
    requires |n.log| > 0 && Compacts(n, index)
    ensures var m := Snapshot(n, me, index, data);
            && m.currentTerm == n.currentTerm && m.votedFor == n.votedFor && m.role == n.role && m.votes == n.votes
            && Persisted(m) && m.disk.snapshot == data && m.snapshotIndex == index
  {
  }

  // ----- installing

  ghost predicate Installs(n: Node, a: InstallArgs) {
    n.currentTerm <= a.term && a.lastIncludedIndex > n.snapshotIndex
  }

  lemma InstallCases(n: Node, a: InstallArgs)
    requires |n.log| > 0
    ensures InstallSnapshot(n, a).node == if a.term < n.currentTerm then n
                                          else if Installs(n, a) then Install(Heard(n, a.term), a)
                                          else Heard(n, a.term)
    ensures InstallSnapshot(n, a).delivered ==
            if Installs(n, a) then [ApplySnapshot(a.lastIncludedIndex, a.lastIncludedTerm, a.data)] else []
    ensures Installs(n, a) ==> Heard(n, a.term).currentTerm == a.term && Installs(Heard(n, a.term), a)
  {
  }

  /** The full log behind the kept suffix, or the installed prefix if nothing is kept. */
  ghost function ShadowAfterInstall(h: History, n: Node, d: Shadow, a: InstallArgs): Shadow {
    if Installs(n, a) && a.term in h.logs && a.lastIncludedIndex < |h.logs[a.term]| then
      var prefix := h.logs[a.term][..a.lastIncludedIndex + 1];
      d.(base := prefix, full := if |prefix| < |d.full| then d.full else prefix)
    else d
  }

  lemma InstalledShown(n: Node, m: Node, d: Shadow, e: Shadow, a: InstallArgs, prefix: Log)
    requires LogShown(n, d) && Installs(n, a) && m == Install(n, a)
    requires |prefix| == a.lastIncludedIndex + 1 && prefix[a.lastIncludedIndex].term == a.lastIncludedTerm
    requires e.base == prefix && e.full == if |prefix| < |d.full| then d.full else prefix
    ensures LogShown(m, e)
  {
    if |prefix| < |d.full| {
      assert n.log[1..][a.lastIncludedIndex - n.snapshotIndex..] == n.log[a.lastIncludedIndex + 1 - n.snapshotIndex..];
      assert d.full[n.snapshotIndex + 1..][a.lastIncludedIndex - n.snapshotIndex..] ==
          d.full[a.lastIncludedIndex + 1..];
      assert m.log[1..] == e.full[a.lastIncludedIndex + 1..];
    }
  }

  lemma InstalledLog(full: Log, prefix: Log, source: Log)
    requires |prefix| <= |source| && prefix == source[..|prefix|]
    ensures var next := if |prefix| < |full| then full else prefix; next == full || Replaced(full, next, source)
  {
    if |prefix| >= |full| && Agree(full, source, |prefix|) {
      assert full == prefix;
    }
  }

  lemma InstalledLogs(h: History, n: Node, m: Node, d: Shadow, e: Shadow, a: InstallArgs)
    requires HistoryOk(h) && LogsOk(h, n, d) && Installs(n, a) && n.currentTerm == a.term && InstallOk(h, a)
    requires m == Install(n, a) && e == ShadowAfterInstall(h, n, d, a)
    ensures LogsOk(h, m, e)
  {
    var source := h.logs[a.term];
    InstalledShown(n, m, d, e, a, e.base);
    InstalledLog(d.full, e.base, source);
    NewLogGood(h, a.term, d.full, e.full);
    SettledLess(h, a.term, source, a.lastIncludedIndex + 1, a.term, e.base, a.lastIncludedIndex + 1);
  }

  lemma InstalledCommit(h: History, n: Node, m: Node, d: Shadow, e: Shadow, a: InstallArgs)
    requires HistoryOk(h) && CommitOk(h, n, d) && Installs(n, a) && n.currentTerm == a.term && InstallOk(h, a)
    requires m == Install(n, a) && e == ShadowAfterInstall(h, n, d, a)
    ensures CommitOk(h, m, e)
  {
    if n.commitIndex > a.lastIncludedIndex {
      SettledInLeader(h, n.currentTerm, d.full, n.commitIndex + 1, a.term);
    }
  }

  lemma InstalledRemembers(h: History, me: nat, n: Node, d: Shadow, e: Shadow, a: InstallArgs)
    requires HistoryOk(h) && Remembers(h, me, d.full, a.term) && Installs(n, a) && InstallOk(h, a)
    requires e == ShadowAfterInstall(h, n, d, a)
    ensures Remembers(h, me, e.full, a.term)
  {
    InstalledLog(d.full, e.base, h.logs[a.term]);
    NewLogRemembers(h, me, a.term, d.full, e.full);
  }

  lemma InstalledNode(h: History, me: nat, n: Node, m: Node, d: Shadow, e: Shadow, a: InstallArgs)
    requires HistoryOk(h) && NodeOk(h, me, n, d) && n.role.Follower? && n.currentTerm == a.term
    requires Installs(n, a) && InstallOk(h, a) && m == Install(n, a) && e == ShadowAfterInstall(h, n, d, a)
    ensures NodeOk(h, me, m, e)
  {
    InstalledLogs(h, n, m, d, e, a);
    InstalledCommit(h, n, m, d, e, a);
    InstalledRemembers(h, me, n, d, e, a);
    assert VotesOk(h, me, m);
    FollowerFrom(h, me, m, e);
  }

  lemma SnapshotInstalled(h: History, me: nat, n: Node, d: Shadow, a: InstallArgs)
    requires HistoryOk(h) && NodeOk(h, me, n, d) && InstallOk(h, a)
    ensures NodeOk(h, me, InstallSnapshot(n, a).node, ShadowAfterInstall(h, n, d, a))
  {
    InstallCases(n, a);
    HeardOk(h, me, n, d, a.term);
    if Installs(n, a) {
      InstalledNode(h, me, Heard(n, a.term), Install(Heard(n, a.term), a), d, ShadowAfterInstall(h, n, d, a), a);
    }
  }
}
