/** What a leader does keeps it in order: it proposes, builds messages, learns from answers and commits. */
module RaftLeadership {
  import opened RaftNode
  import opened RaftHistory
  import opened Sets
  import opened RaftEvents
  import opened RaftInvariant
  import opened RaftElection

  // ----- proposing

  ghost function AfterStart(h: History, me: nat, n: Node, d: Shadow, command: Command): History {
    if n.role.Leader? then Grown(h, n.currentTerm, me, d.full + [Entry(n.currentTerm, command)]) else h
  }

  ghost function ShadowAfterStart(n: Node, d: Shadow, command: Command): Shadow {
    if n.role.Leader? then d.(full := d.full + [Entry(n.currentTerm, command)]) else d
  }

  lemma StartHistory(h: History, me: nat, n: Node, d: Shadow, command: Command)
    requires HistoryOk(h) && NodeOk(h, me, n, d)
    ensures var k := AfterStart(h, me, n, d, command);
            HistoryOk(k) && Extends(h, k) && OnlyAbout(h, k, me)
  {
    if n.role.Leader? {
      var e := Entry(n.currentTerm, command);
      GrownQuiet(h, n.currentTerm, me, d.full + [e]);
      GrownOk(h, n.currentTerm, me, e);
    }
  }

  lemma LongerRemembers(h: History, k: History, me: nat, t: nat, log: Log, longer: Log)
    requires AcksInLogs(h) && Extends(h, k) && Remembers(h, me, log, t) && Agree(log, longer, |log|)
    requires |longer| > 0 && k == Grown(h, t, me, longer)
    ensures Remembers(k, me, longer, t)
  {
    forall r: nat, n: nat {:trigger Kept(k, longer, r, n, t)} | At(r, me) in k.acked && n <= k.acked[At(r, me)]
      ensures Kept(k, longer, r, n, t)
    {
      if r != t {
        assert Kept(h, log, r, n, t);
        KeptStays(h, k, log, r, n, t);
      }
    }
  }

  lemma StartLogs(h: History, k: History, n: Node, m: Node, d: Shadow, e: Shadow, command: Command)
    requires HistoryOk(k) && LogsOk(h, n, d) && CommitOk(h, n, d) && Extends(h, k)
    requires m == Persist(n.(log := n.log + [Entry(n.currentTerm, command)]))
    requires e == d.(full := d.full + [Entry(n.currentTerm, command)])
    requires n.currentTerm in k.logs && k.logs[n.currentTerm] == e.full
    ensures LogsOk(k, m, e) && CommitOk(k, m, e)
  {
    LogsStay(h, k, n, d);
    assert TermOk(k, n.currentTerm);
    StartShown(n, m, d, e);
    StartCommit(k, n, m, d, e);
  }

  lemma StartCommit(k: History, n: Node, m: Node, d: Shadow, e: Shadow)
    requires CommitOk(k, n, d) && Agree(d.full, e.full, |d.full|) && (Clean(n, d) ==> Clean(m, e))
    requires m.snapshotIndex == n.snapshotIndex && m.currentTerm == n.currentTerm
    requires m.commitIndex == n.commitIndex && m.lastApplied == n.lastApplied
    ensures CommitOk(k, m, e)
  {
    if n.commitIndex > n.snapshotIndex {
      SettledLess(k, n.currentTerm, d.full, n.commitIndex + 1, n.currentTerm, e.full, n.commitIndex + 1);
    }
  }

  lemma StartShown(n: Node, m: Node, d: Shadow, e: Shadow)
    requires LogShown(n, d) && e == d.(full := e.full) && |e.full| == |d.full| + 1 && d.full == e.full[..|d.full|]
    requires m.log == n.log + [e.full[|d.full|]] && m.snapshotIndex == n.snapshotIndex
    requires m.snapshotTerm == n.snapshotTerm
    ensures LogShown(m, e) && (Clean(n, d) ==> Clean(m, e))
  {
    assert e.full == d.full + [e.full[|d.full|]];
    assert m.log[1..] == e.full[n.snapshotIndex + 1..];
  }

  lemma StartLeader(h: History, k: History, me: nat, n: Node, m: Node, d: Shadow, e: Shadow, command: Command)
    requires LeaderOk(h, me, n, d) && n.role.Leader? && Extends(h, k)
    requires m == Persist(n.(log := n.log + [Entry(n.currentTerm, command)]))
    requires e == d.(full := d.full + [Entry(n.currentTerm, command)]) && k == Grown(h, n.currentTerm, me, e.full)
    ensures LeaderOk(k, me, m, e)
  {
    forall s | 0 <= s < k.peers && s != me
      ensures MatchOk(k, m.currentTerm, s, m.matchIndex[s])
    {
      MatchStays(h, k, n.currentTerm, s, n.matchIndex[s]);
    }
  }

  lemma StartVotes(h: History, k: History, me: nat, n: Node, m: Node)
    requires VotesOk(h, me, n) && k.votes == h.votes && k.stands == h.stands && k.leaders == h.leaders
    requires m.currentTerm == n.currentTerm && m.votedFor == n.votedFor && m.role == n.role
    ensures VotesOk(k, me, m)
  {
  }

  lemma StartNode(h: History, k: History, me: nat, n: Node, m: Node, d: Shadow, e: Shadow, command: Command)
    requires HistoryOk(h) && NodeOk(h, me, n, d) && n.role.Leader? && HistoryOk(k) && Extends(h, k)
    requires m == Persist(n.(log := n.log + [Entry(n.currentTerm, command)]))
    requires e == d.(full := d.full + [Entry(n.currentTerm, command)]) && k == Grown(h, n.currentTerm, me, e.full)
    ensures NodeOk(k, me, m, e)
  {
    StartLogs(h, k, n, m, d, e, command);
    LongerRemembers(h, k, me, n.currentTerm, d.full, e.full);
    StartLeader(h, k, me, n, m, d, e, command);
    StartVotes(h, k, me, n, m);
  }

  lemma StartOk(h: History, me: nat, n: Node, d: Shadow, command: Command)
    requires HistoryOk(h) && NodeOk(h, me, n, d)
    ensures NodeOk(AfterStart(h, me, n, d, command), me, Start(n, command), ShadowAfterStart(n, d, command))
  {
    if n.role.Leader? {
      StartHistory(h, me, n, d, command);
      StartNode(h, AfterStart(h, me, n, d, command), me, n, Start(n, command), d, ShadowAfterStart(n, d, command),
          command);
    }
  }

  // ----- building messages

  lemma CommitSettled(h: History, n: Node, d: Shadow)
    requires LogsOk(h, n, d) && CommitOk(h, n, d) && Clean(n, d)
    ensures Settled(h, n.currentTerm, d.full, n.commitIndex + 1)
  {
    if n.commitIndex == n.snapshotIndex {
      SettledLess(h, n.currentTerm, d.base, n.snapshotIndex + 1, n.currentTerm, d.full, n.snapshotIndex + 1);
    }
  }

  lemma CleanEntry(n: Node, d: Shadow, i: nat)
    requires LogShown(n, d) && Clean(n, d) && n.snapshotIndex <= i < |d.full|
    ensures n.log[i - n.snapshotIndex].term == d.full[i].term
    ensures n.log[i - n.snapshotIndex + 1..] == d.full[i + 1..]
  {
    if i > n.snapshotIndex {
      assert n.log[1..][i - n.snapshotIndex - 1] == d.full[n.snapshotIndex + 1..][i - n.snapshotIndex - 1];
    }
    assert n.log[1..][i - n.snapshotIndex..] == d.full[n.snapshotIndex + 1..][i - n.snapshotIndex..];
    assert n.log[1..][i - n.snapshotIndex..] == n.log[i - n.snapshotIndex + 1..];
    assert d.full[n.snapshotIndex + 1..][i - n.snapshotIndex..] == d.full[i + 1..];
  }

  /** What BuildMessage makes of a peer that needs nothing of the snapshot; p is where its next entry is. */
  lemma BuiltParts(n: Node, me: nat, srv: nat, leaderCommit: nat, p: nat)
    requires srv < |n.nextIndex| && n.nextIndex[srv] == n.snapshotIndex + p && 1 <= p
    ensures BuildMessage(n, me, srv, leaderCommit) ==
            SendAppend(AppendArgs(n.currentTerm, me, n.nextIndex[srv] - 1,
                                  if p - 1 < |n.log| then n.log[p - 1].term else 0,
                                  if p < |n.log| then n.log[p..] else [], leaderCommit))
  {
  }

  lemma NeedsNothing(n: Node, me: nat, srv: nat, leaderCommit: nat)
    requires srv < |n.nextIndex| && n.nextIndex[srv] >= 1 && SnapshotOk(n)
    requires BuildMessage(n, me, srv, leaderCommit).SendAppend?
    ensures n.nextIndex[srv] > n.snapshotIndex
  {
  }

  /** An AppendEntries message carries the log from some index on, or nothing from beyond its end. */
  ghost predicate CarriesSuffix(a: AppendArgs, log: Log, i: nat) {
    && a.prevLogIndex == i
    && if i < |log| then a.prevLogTerm == log[i].term && a.entries == log[i + 1..]
       else a.prevLogTerm == 0 && a.entries == []
  }

  lemma BuiltAppend(n: Node, d: Shadow, me: nat, srv: nat, leaderCommit: nat, i: nat, p: nat)
    requires LogShown(n, d) && Clean(n, d) && srv < |n.nextIndex|
    requires n.nextIndex[srv] == i + 1 == n.snapshotIndex + p && 1 <= p
    ensures BuildMessage(n, me, srv, leaderCommit).SendAppend?
    ensures var a := BuildMessage(n, me, srv, leaderCommit).append;
            && a.term == n.currentTerm && a.leader == me && a.leaderCommit == leaderCommit
            && CarriesSuffix(a, d.full, i)
  {
    BuiltParts(n, me, srv, leaderCommit, p);
    if i < |d.full| {
      CleanTail(n, d, i, p);
    } else {
      assert p - 1 >= |n.log|;
    }
  }

  lemma CleanTail(n: Node, d: Shadow, i: nat, p: nat)
    requires LogShown(n, d) && Clean(n, d) && i < |d.full| && 1 <= p && i + 1 == n.snapshotIndex + p
    ensures p - 1 < |n.log| && n.log[p - 1].term == d.full[i].term
    ensures (if p < |n.log| then n.log[p..] else []) == d.full[i + 1..]
  {
    CleanEntry(n, d, i);
    assert i - n.snapshotIndex == p - 1;
  }

  /** An AppendEntries message is a true slice of the leader's log. */
  lemma SentAppendOk(h: History, me: nat, n: Node, d: Shadow, srv: nat, leaderCommit: nat)
    requires NodeOk(h, me, n, d) && n.role.Leader? && srv < h.peers && leaderCommit <= n.commitIndex
    requires BuildMessage(n, me, srv, leaderCommit).SendAppend?
    ensures AppendOk(h, BuildMessage(n, me, srv, leaderCommit).append)
  {
    NeedsNothing(n, me, srv, leaderCommit);
    var i, p := n.nextIndex[srv] - 1, n.nextIndex[srv] - n.snapshotIndex;
    BuiltAppend(n, d, me, srv, leaderCommit, i, p);
    SentSuffix(h, n, d, BuildMessage(n, me, srv, leaderCommit).append, i);
  }

  lemma SentSuffix(h: History, n: Node, d: Shadow, a: AppendArgs, i: nat)
    requires LogsOk(h, n, d) && CommitOk(h, n, d) && Clean(n, d) && a.leaderCommit <= n.commitIndex
    requires a.term == n.currentTerm && a.term in h.logs && h.logs[a.term] == d.full && CarriesSuffix(a, d.full, i)
    ensures AppendOk(h, a)
  {
    SentCommit(h, n, d, a.leaderCommit);
    SuffixIsSlice(h, a, d.full, i);
  }

  lemma SentCommit(h: History, n: Node, d: Shadow, leaderCommit: nat)
    requires LogsOk(h, n, d) && CommitOk(h, n, d) && Clean(n, d) && leaderCommit <= n.commitIndex
    ensures leaderCommit < |d.full| && Settled(h, n.currentTerm, d.full, leaderCommit + 1)
  {
    CommitSettled(h, n, d);
    SettledLess(h, n.currentTerm, d.full, n.commitIndex + 1, n.currentTerm, d.full, leaderCommit + 1);
  }

  lemma SuffixIsSlice(h: History, a: AppendArgs, log: Log, i: nat)
    requires a.term in h.logs && h.logs[a.term] == log && CarriesSuffix(a, log, i) && a.leaderCommit < |log|
    requires Settled(h, a.term, log, a.leaderCommit + 1)
    ensures AppendOk(h, a)
  {
    if i < |log| {
      assert AppendSlice(h, a, log);
    }
  }

  lemma SentInstallOk(h: History, me: nat, n: Node, d: Shadow, srv: nat, leaderCommit: nat)
    requires HistoryOk(h) && NodeOk(h, me, n, d) && n.role.Leader? && srv < h.peers
    requires BuildMessage(n, me, srv, leaderCommit).SendInstall?
    ensures InstallOk(h, BuildMessage(n, me, srv, leaderCommit).install)
  {
    SettledLess(h, n.currentTerm, d.base, n.snapshotIndex + 1, n.currentTerm, d.full, n.snapshotIndex + 1);
  }

  // ----- answers

  lemma AppendAnswerTaken(h: History, me: nat, n: Node, d: Shadow, srv: nat, a: AppendArgs, r: AppendReply)
    requires NodeOk(h, me, n, d) && srv < h.peers && AppendAnswerOk(h, srv, a, r)
    ensures NodeOk(h, me, HandleAppendReply(n, srv, a, r), d)
  {
    if n.role == Leader && n.currentTerm == a.term {
      if !r.success && r.term > n.currentTerm {
        StepDownOk(h, me, n, d, r.term);
      } else {
        LeaderOnly(h, me, n, HandleAppendReply(n, srv, a, r), d);
      }
    }
  }

  /** A change of nextIndex and matchIndex alone. */
  lemma LeaderOnly(h: History, me: nat, n: Node, m: Node, d: Shadow)
    requires NodeOk(h, me, n, d) && n.role.Leader? && m == n.(nextIndex := m.nextIndex, matchIndex := m.matchIndex)
    requires LeaderOk(h, me, m, d)
    ensures NodeOk(h, me, m, d)
  {
    CoreLater(h, me, n, m, d, d);
  }

  lemma InstallAnswerTaken(h: History, me: nat, n: Node, d: Shadow, srv: nat, a: InstallArgs, r: InstallReply)
    requires NodeOk(h, me, n, d) && srv < h.peers && InstallOk(h, a)
    ensures NodeOk(h, me, HandleInstallReply(n, srv, a, r), d)
  {
    if n.role == Leader && n.currentTerm == a.term {
      if r.term > n.currentTerm {
        StepDownOk(h, me, n, d, r.term);
      } else {
        LeaderOnly(h, me, n, HandleInstallReply(n, srv, a, r), d);
      }
    }
  }

  // ----- committing

  function Matched(matchIndex: seq<nat>, me: nat, k: nat, upTo: nat): set<nat>
    requires upTo <= |matchIndex|
  {
    set s | 0 <= s < upTo && s != me && matchIndex[s] >= k
  }

  lemma {:induction false} CountIsSize(matchIndex: seq<nat>, me: nat, k: nat, upTo: nat)
    requires upTo <= |matchIndex|
    ensures CountMatches(matchIndex, me, k, upTo) == |Matched(matchIndex, me, k, upTo)|
  {
    if upTo > 0 {
      CountIsSize(matchIndex, me, k, upTo - 1);
      var rest := Matched(matchIndex, me, k, upTo - 1);
      if upTo - 1 != me && matchIndex[upTo - 1] >= k {
        assert Matched(matchIndex, me, k, upTo) == rest + {upTo - 1};
      } else {
        assert Matched(matchIndex, me, k, upTo) == rest;
      }
    }
  }

  lemma AckedByMajority(h: History, me: nat, t: nat, matched: set<nat>, c: nat)
    requires At(t, me) in h.acked && h.acked[At(t, me)] >= c && me < h.peers && me !in matched
    requires forall s <- matched :: s < h.peers && At(t, s) in h.acked && h.acked[At(t, s)] >= c
    requires 1 + |matched| > h.peers / 2
    ensures Majority(Ackers(h, t, c), h.peers)
  {
    SubsetSize(matched + {me}, Ackers(h, t, c));
  }

  /** An index counted by a leader in its own term is settled: either a majority has accepted it, or
      one of those counted stands for a commit made before. */
  lemma CountedIsSettled(h: History, me: nat, n: Node, d: Shadow, c: nat)
    requires LogsOk(h, n, d) && LeaderOk(h, me, n, d) && n.role.Leader? && me < h.peers
    requires n.snapshotIndex < c < |d.full| && MayCommit(n, me, h.peers, c)
    ensures Settled(h, n.currentTerm, d.full, c + 1)
  {
    CleanEntry(n, d, c);
    CountIsSize(n.matchIndex, me, c, h.peers);
    MatchedIsSettled(h, me, n.currentTerm, n.matchIndex, Matched(n.matchIndex, me, c, h.peers), d.full, c);
  }

  lemma MatchedIsSettled(h: History, me: nat, t: nat, matchIndex: seq<nat>, matched: set<nat>, log: Log, c: nat)
    requires t in h.logs && h.logs[t] == log && c < |log| && log[c].term == t && log[0] == DUMMY
    requires |matchIndex| == h.peers && me < h.peers && At(t, me) in h.acked && h.acked[At(t, me)] == |log| - 1
    requires matched == Matched(matchIndex, me, c, h.peers) && 1 + |matched| > h.peers / 2
    requires forall s :: 0 <= s < h.peers && s != me ==> MatchOk(h, t, s, matchIndex[s])
    ensures Settled(h, t, log, c + 1)
  {
    if s :| s in matched && !(At(t, s) in h.acked && matchIndex[s] <= h.acked[At(t, s)]) {
      assert MatchOk(h, t, s, matchIndex[s]);
      SettledLess(h, t, log, matchIndex[s] + 1, t, log, c + 1);
    } else {
      AckedByMajority(h, me, t, matched, c);
      assert SettledBy(h, t, log, c + 1, t, c);
    }
  }

  lemma {:induction false} ScanFinds(n: Node, me: nat, peers: nat, k: int)
    requires |n.matchIndex| == peers && k < n.snapshotIndex + |n.log| && n.snapshotIndex <= n.commitIndex
    ensures var c := ScanCommit(n, me, peers, k);
            c == n.commitIndex || (n.commitIndex < c <= k && MayCommit(n, me, peers, c))
    decreases k
  {
    if k > n.commitIndex && !(k >= n.snapshotIndex && MayCommit(n, me, peers, k)) {
      ScanFinds(n, me, peers, k - 1);
    }
  }

  lemma CommitMoved(h: History, me: nat, n: Node, m: Node, d: Shadow)
    requires NodeOk(h, me, n, d) && n.role.Leader? && m == n.(commitIndex := m.commitIndex)
    requires n.commitIndex < m.commitIndex < |d.full| && Settled(h, n.currentTerm, d.full, m.commitIndex + 1)
    ensures NodeOk(h, me, m, d)
  {
  }

  lemma CommitStepOk(h: History, me: nat, n: Node, d: Shadow)
    requires NodeOk(h, me, n, d)
    ensures NodeOk(h, me, UpdateCommitIndex(n, me, h.peers), d)
    ensures UpdateCommitIndex(n, me, h.peers).commitIndex >= n.commitIndex
  {
    if n.role == Leader {
      var m := UpdateCommitIndex(n, me, h.peers);
      ScanFinds(n, me, h.peers, LastIndex(n));
      if m.commitIndex > n.commitIndex {
        CountedIsSettled(h, me, n, d, m.commitIndex);
        CommitMoved(h, me, n, m, d);
      }
    }
  }

  // ----- applying

  lemma ApplyOk(h: History, me: nat, n: Node, d: Shadow)
    requires NodeOk(h, me, n, d)
    ensures NodeOk(h, me, ApplyCommitted(n).0, d)
  {
  }

  /** Exactly the indices above lastApplied up to commitIndex are delivered, in order, none skipped. */
  lemma {:induction false} DeliveriesAre(n: Node, applied: nat, upTo: nat)
    requires n.snapshotIndex <= applied <= upTo < n.snapshotIndex + |n.log|
    ensures var msgs := Deliveries(n, applied, upTo);
            && |msgs| == upTo - applied
            && forall i :: 0 <= i < |msgs| ==>
                   msgs[i] == ApplyCommand(applied + 1 + i, n.log[applied + 1 + i - n.snapshotIndex].command)
    decreases upTo - applied
  {
    if applied < upTo {
      DeliveriesAre(n, applied + 1, upTo);
    }
  }

  lemma DeliveriesOk(h: History, me: nat, n: Node, d: Shadow, i: nat)
    requires NodeOk(h, me, n, d) && n.snapshotIndex < i <= n.commitIndex
    ensures DeliveredOk(h, i, n.log[i - n.snapshotIndex].command)
  {
    assert n.log[1..][i - n.snapshotIndex - 1] == d.full[n.snapshotIndex + 1..][i - n.snapshotIndex - 1];
    var v: nat, m: nat :| SettledBy(h, n.currentTerm, d.full, n.commitIndex + 1, v, m);
    assert DeliveredBy(h, i, n.log[i - n.snapshotIndex].command, v, m);
  }
}
