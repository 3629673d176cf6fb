/** A follower that accepts entries stays in order: nothing committed is cut, nothing accepted from the
    current leader is lost, and what is lost of earlier leaders has an excuse. */
module RaftReplication {
  import opened RaftNode
  import opened RaftHistory
  import opened RaftEvents
  import opened RaftInvariant
  import opened RaftElection

  // ----- the loop over the entries

  /** The loop works on the compacted log as it would on the whole one. */
  lemma {:induction false} MergeCompacted(short: seq<Entry>, log: Log, from: nat, at: nat, k: nat, entries: seq<Entry>)
    requires |short| > 0 && 1 <= at && k == from + at <= |log| && short == [short[0]] + log[from + 1..]
    ensures Merge(short, at, entries) == [short[0]] + Merge(log, k, entries)[from + 1..]
    decreases |entries|
  {
    if entries != [] {
      var e := entries[0];
      if k >= |log| {
        assert short + [e] == [short[0]] + (log + [e])[from + 1..];
        MergeCompacted(short + [e], log + [e], from, at + 1, k + 1, entries[1..]);
      } else if log[k].term != e.term {
        assert short[..at] + [e] == [short[0]] + (log[..k] + [e])[from + 1..];
        MergeCompacted(short[..at] + [e], log[..k] + [e], from, at + 1, k + 1, entries[1..]);
      } else {
        MergeCompacted(short, log, from, at + 1, k + 1, entries[1..]);
      }
    }
  }

  ghost predicate Slice(entries: seq<Entry>, source: Log, k: nat) {
    && k + |entries| <= |source|
    && forall i :: 0 <= i < |entries| ==> entries[i] == source[k + i]
  }

  ghost predicate SameTermSameEntry(a: Log, b: Log) {
    forall i :: 0 <= i < |a| && i < |b| && a[i].term == b[i].term ==> a[i] == b[i]
  }

  /** Conflict-only truncation: the log is left alone if it already holds the entries; otherwise it
      ends with them. */
  lemma {:induction false} MergeMeaning(log: Log, source: Log, k: nat, entries: seq<Entry>)
    requires Agree(log, source, k) && SameTermSameEntry(log, source) && Slice(entries, source, k)
    ensures var merged := Merge(log, k, entries);
            && Agree(merged, source, k + |entries|)
            && (if Agree(log, source, k + |entries|) then merged == log else |merged| == k + |entries|)
    decreases |entries|
  {
    if entries != [] {
      var e := entries[0];
      assert e == source[k + 0];
      var next := if k >= |log| then log + [e] else if log[k].term != e.term then log[..k] + [e] else log;
      assert forall i :: 0 <= i < |entries[1..]| ==> entries[1..][i] == entries[i + 1];
      MergeMeaning(next, source, k + 1, entries[1..]);
    }
  }

  // ----- where the message meets the log

  /** The server's log, its snapshot put back in front. */
  ghost function Whole(n: Node, d: Shadow): Log
    requires LogShown(n, d)
  {
    d.base + d.full[n.snapshotIndex + 1..]
  }

  lemma ShownEntry(n: Node, d: Shadow, i: nat)
    requires LogShown(n, d) && n.snapshotIndex < i < |d.full|
    ensures n.log[i - n.snapshotIndex] == d.full[i] == Whole(n, d)[i]
  {
    assert n.log[1..][i - n.snapshotIndex - 1] == d.full[n.snapshotIndex + 1..][i - n.snapshotIndex - 1];
  }

  ghost predicate Meets(n: Node, a: AppendArgs) {
    n.snapshotIndex <= a.prevLogIndex < n.snapshotIndex + |n.log| &&
        n.log[a.prevLogIndex - n.snapshotIndex].term == a.prevLogTerm
  }

  lemma AgreeBoth(a: Log, b: Log, source: Log, j: nat, k: nat)
    requires Agree(a, source, j) && Agree(b, source, k) && j <= k
    ensures Agree(a, b, j)
  {
  }

  lemma CleanWhole(n: Node, d: Shadow)
    requires LogShown(n, d) && Clean(n, d)
    ensures Whole(n, d) == d.full
  {
  }

  lemma PrevAgrees(h: History, n: Node, d: Shadow, a: AppendArgs, source: Log, p: nat, k: nat)
    requires HistoryOk(h) && LogsOk(h, n, d) && n.currentTerm <= a.term && p == a.prevLogIndex && k == p + 1
    requires a.term in h.logs && source == h.logs[a.term] && AppendSlice(h, a, source) && Meets(n, a)
    ensures Agree(d.base, source, n.snapshotIndex + 1)
    ensures Agree(Whole(n, d), source, k)
    ensures p > n.snapshotIndex ==> Clean(n, d)
  {
    SettledInLeader(h, n.currentTerm, d.base, n.snapshotIndex + 1, a.term);
    assert TermOk(h, a.term);
    if p > n.snapshotIndex {
      ShownEntry(n, d, p);
      SameTermSamePrefix(h, d.full, source, p);
      AgreeBoth(d.base, d.full, source, n.snapshotIndex + 1, k);
      CleanWhole(n, d);
    }
  }

  lemma WholeMatches(h: History, n: Node, d: Shadow, source: Log)
    requires HistoryOk(h) && LogsOk(h, n, d) && Good(h, source) && Agree(d.base, source, n.snapshotIndex + 1)
    ensures SameTermSameEntry(Whole(n, d), source)
  {
    var whole := Whole(n, d);
    forall i | 0 <= i < |whole| && i < |source| && whole[i].term == source[i].term
      ensures whole[i] == source[i]
    {
      if i > n.snapshotIndex {
        SameTermSamePrefix(h, d.full, source, i);
      }
    }
  }

  /** The full log after the entries of the message have been taken in. */
  ghost function Absorbed(n: Node, d: Shadow, a: AppendArgs): Log
    requires LogShown(n, d) && Meets(n, a)
  {
    if a.entries == [] then d.full else Merge(Whole(n, d), a.prevLogIndex + 1, a.entries)
  }

  /** Either nothing changes, or the log becomes exactly the leader's log up to the last entry sent,
      and it was not that before. */
  ghost predicate Replaced(log: Log, next: Log, source: Log) {
    Agree(next, source, |next|) && !Agree(log, source, |next|)
  }

  lemma MergeReplaces(log: Log, source: Log, k: nat, entries: seq<Entry>)
    requires Agree(log, source, k) && SameTermSameEntry(log, source) && Slice(entries, source, k)
    ensures var merged := Merge(log, k, entries);
            && Agree(merged, source, k + |entries|)
            && (merged == log || (Replaced(log, merged, source) && |merged| == k + |entries|))
  {
    MergeMeaning(log, source, k, entries);
  }

  lemma MergeOverStale(whole: Log, full: Log, source: Log, k: nat, entries: seq<Entry>)
    requires Agree(whole, source, k) && SameTermSameEntry(whole, source) && Slice(entries, source, k)
    requires entries != [] && !Agree(whole, source, k + |entries|) && !Agree(full, source, k + |entries|)
    ensures var merged := Merge(whole, k, entries);
            Agree(merged, source, k + |entries|) && Replaced(full, merged, source) && |merged| == k + |entries|
  {
    MergeMeaning(whole, source, k, entries);
  }

  /** After a snapshot over a conflicting log, the kept suffix conflicts with every later leader at
      its very first entry. */
  lemma StaleConflicts(h: History, n: Node, d: Shadow, source: Log)
    requires HistoryOk(h) && LogsOk(h, n, d) && Good(h, source)
    requires Agree(d.base, source, n.snapshotIndex + 1) && !Clean(n, d)
    ensures |d.full| > n.snapshotIndex + 1
    ensures forall k :: k > n.snapshotIndex + 1 ==> !Agree(Whole(n, d), source, k)
    ensures forall k :: k > n.snapshotIndex ==> !Agree(d.full, source, k)
  {
    var i := n.snapshotIndex + 1;
    if i < |source| && Whole(n, d)[i] == source[i] {
      SameTermSamePrefix(h, d.full, source, i);
    }
  }

  /** How a message that meets the log lies on it. */
  ghost predicate Met(n: Node, d: Shadow, a: AppendArgs, source: Log) {
    && LogShown(n, d) && Meets(n, a)
    && Agree(d.base, source, n.snapshotIndex + 1)
    && Agree(Whole(n, d), source, a.prevLogIndex + 1)
    && SameTermSameEntry(Whole(n, d), source)
    && Slice(a.entries, source, a.prevLogIndex + 1)
    && (!Clean(n, d) ==>
          && a.prevLogIndex == n.snapshotIndex
          && !Agree(Whole(n, d), source, n.snapshotIndex + 2)
          && !Agree(d.full, source, n.snapshotIndex + 1))
  }

  lemma Meeting(h: History, n: Node, d: Shadow, a: AppendArgs, source: Log)
    requires HistoryOk(h) && LogsOk(h, n, d) && n.currentTerm <= a.term
    requires a.term in h.logs && source == h.logs[a.term] && AppendSlice(h, a, source) && Meets(n, a)
    ensures Met(n, d, a, source)
  {
    PrevAgrees(h, n, d, a, source, a.prevLogIndex, a.prevLogIndex + 1);
    assert TermOk(h, a.term);
    WholeMatches(h, n, d, source);
    if !Clean(n, d) {
      StaleConflicts(h, n, d, source);
    }
  }

  ghost predicate AbsorbedWell(n: Node, d: Shadow, a: AppendArgs, source: Log, log: Log, upTo: int) {
    && (log == d.full || (Replaced(d.full, log, source) && |log| == upTo))
    && (a.entries != [] || Clean(n, d) ==>
           0 <= upTo && Agree(log, source, upTo) && Agree(d.base, log, n.snapshotIndex + 1))
  }

  lemma AbsorbedClean(n: Node, d: Shadow, a: AppendArgs, source: Log, k: nat, upTo: nat)
    requires Met(n, d, a, source) && Clean(n, d) && k == a.prevLogIndex + 1 && upTo == k + |a.entries|
    ensures AbsorbedWell(n, d, a, source, Absorbed(n, d, a), upTo)
  {
    CleanWhole(n, d);
    MergeReplaces(d.full, source, k, a.entries);
  }

  lemma AbsorbedStale(n: Node, d: Shadow, a: AppendArgs, source: Log, k: nat, upTo: nat)
    requires Met(n, d, a, source) && !Clean(n, d) && k == a.prevLogIndex + 1 && upTo == k + |a.entries|
    ensures AbsorbedWell(n, d, a, source, Absorbed(n, d, a), upTo)
  {
    if a.entries != [] {
      MergeOverStale(Whole(n, d), d.full, source, k, a.entries);
    }
  }

  lemma AbsorbedMeaning(n: Node, d: Shadow, a: AppendArgs, source: Log)
    requires Met(n, d, a, source)
    ensures AbsorbedWell(n, d, a, source, Absorbed(n, d, a), a.prevLogIndex + 1 + |a.entries|)
  {
    var k := a.prevLogIndex + 1;
    if Clean(n, d) {
      AbsorbedClean(n, d, a, source, k, k + |a.entries|);
    } else {
      AbsorbedStale(n, d, a, source, k, k + |a.entries|);
    }
  }

  // ----- what the new log keeps

  lemma PrefixIsGood(h: History, log: Log, source: Log)
    requires Good(h, source) && Agree(log, source, |log|) && |log| > 0
    ensures Good(h, log)
  {
    forall i | 1 <= i < |log|
      ensures GoodAt(h, log, i)
    {
      assert GoodAt(h, source, i);
    }
  }

  lemma LeaderTerms(h: History, t: nat)
    requires t in h.logs && TermOk(h, t)
    ensures TermsUpTo(h.logs[t], t)
  {
    forall i | 0 <= i < |h.logs[t]|
      ensures h.logs[t][i].term <= t
    {
      if i < |h.starts[t]| {
        assert h.starts[t][i] == h.logs[t][i];
      }
    }
  }

  lemma NewLogGood(h: History, t: nat, log: Log, next: Log)
    requires HistoryOk(h) && t in h.logs && Good(h, log) && TermsUpTo(log, t)
    requires next == log || (Replaced(log, next, h.logs[t]) && |next| > 0)
    ensures Good(h, next) && TermsUpTo(next, t)
  {
    assert TermOk(h, t);
    LeaderTerms(h, t);
    if next != log {
      PrefixIsGood(h, next, h.logs[t]);
    }
  }

  /** An entry accepted from an earlier leader is lost only if the present leader started without it;
      an entry accepted from the present leader is not lost. */
  lemma ReplacedKeeps(h: History, t: nat, log: Log, next: Log, r: nat, n: nat)
    requires t in h.logs && TermOk(h, t) && Replaced(log, next, h.logs[t])
    requires r <= t && Kept(h, log, r, n, t)
    ensures Kept(h, next, r, n, t)
  {
    if Agree(log, h.logs[r], n + 1) && !Agree(next, h.logs[r], n + 1) {
      assert r < t;
      assert !Agree(h.starts[t], h.logs[r], n + 1);
    }
  }

  lemma NewLogRemembers(h: History, me: nat, t: nat, log: Log, next: Log)
    requires HistoryOk(h) && t in h.logs && Remembers(h, me, log, t)
    requires next == log || Replaced(log, next, h.logs[t])
    ensures Remembers(h, me, next, t)
  {
    assert TermOk(h, t);
    forall r: nat, n: nat {:trigger Kept(h, next, r, n, t)} | At(r, me) in h.acked && n <= h.acked[At(r, me)]
      ensures Kept(h, next, r, n, t)
    {
      assert Kept(h, log, r, n, t);
      if next != log {
        ReplacedKeeps(h, t, log, next, r, n);
      }
    }
  }

  lemma AckKept(h: History, k: History, me: nat, t: nat, log: Log, m: nat, r: nat, n: nat)
    requires AcksInLogs(h) && t in h.logs && Remembers(h, me, log, t) && Agree(log, h.logs[t], m + 1)
    requires k == h.(acked := h.acked[At(t, me) := m]) && Extends(h, k)
    requires At(r, me) in k.acked && n <= k.acked[At(r, me)]
    ensures Kept(k, log, r, n, t)
  {
    if r != t {
      assert Kept(h, log, r, n, t);
      KeptStays(h, k, log, r, n, t);
    }
  }

  lemma AckRemembered(h: History, me: nat, t: nat, log: Log, m: nat)
    requires AcksInLogs(h) && t in h.logs && Remembers(h, me, log, t) && Agree(log, h.logs[t], m + 1)
    ensures Remembers(Accepted(h, t, me, m), me, log, t)
  {
    var k := Accepted(h, t, me, m);
    AcceptedExtends(h, t, me, m);
    if k != h {
      forall r: nat, n: nat {:trigger Kept(k, log, r, n, t)} | At(r, me) in k.acked && n <= k.acked[At(r, me)]
        ensures Kept(k, log, r, n, t)
      {
        AckKept(h, k, me, t, log, m, r, n);
      }
    }
  }

  /** Nothing that is committed is cut. */
  lemma CommittedIsKept(h: History, u: nat, t: nat, log: Log, next: Log, c: nat)
    requires HistoryOk(h) && t in h.logs && u <= t && Settled(h, u, log, c + 1)
    requires next == log || Replaced(log, next, h.logs[t])
    ensures Agree(log, next, c + 1)
  {
    SettledInLeader(h, u, log, c + 1, t);
  }

  // ----- the follower after the message

  lemma AcceptLogIs(n: Node, a: AppendArgs, at: nat)
    requires Meets(n, a) && at == a.prevLogIndex - n.snapshotIndex + 1
    ensures Accept(n, a).log == Merge(n.log, at, a.entries)
    ensures Accept(n, a).snapshotIndex == n.snapshotIndex && Accept(n, a).snapshotTerm == n.snapshotTerm
  {
  }

  lemma AcceptedLog(n: Node, a: AppendArgs, whole: Log, at: nat, k: nat)
    requires Meets(n, a) && at == a.prevLogIndex - n.snapshotIndex + 1 && k == n.snapshotIndex + at
    requires |whole| == n.snapshotIndex + |n.log| && n.log == [n.log[0]] + whole[n.snapshotIndex + 1..]
    ensures Accept(n, a).log == [n.log[0]] + Merge(whole, k, a.entries)[n.snapshotIndex + 1..]
    ensures Accept(n, a).snapshotIndex == n.snapshotIndex && Accept(n, a).snapshotTerm == n.snapshotTerm
  {
    MergeCompacted(n.log, whole, n.snapshotIndex, at, k, a.entries);
    AcceptLogIs(n, a, at);
  }

  lemma WholeShown(n: Node, d: Shadow)
    requires LogShown(n, d)
    ensures var whole := Whole(n, d);
            |whole| == n.snapshotIndex + |n.log| && n.log == [n.log[0]] + whole[n.snapshotIndex + 1..]
  {
    assert Whole(n, d)[n.snapshotIndex + 1..] == d.full[n.snapshotIndex + 1..];
  }

  lemma ShownAgain(n: Node, m: Node, d: Shadow, log: Log)
    requires LogShown(n, d) && |log| > n.snapshotIndex && Agree(d.base, log, n.snapshotIndex + 1)
    requires m.snapshotIndex == n.snapshotIndex && m.snapshotTerm == n.snapshotTerm
    requires m.log == [n.log[0]] + log[n.snapshotIndex + 1..]
    ensures LogShown(m, d.(full := log))
  {
  }

  lemma AcceptShown(n: Node, d: Shadow, a: AppendArgs)
    requires LogShown(n, d) && Meets(n, a) && |Absorbed(n, d, a)| > n.snapshotIndex
    requires a.entries != [] ==> Agree(d.base, Absorbed(n, d, a), n.snapshotIndex + 1)
    ensures LogShown(Accept(n, a), d.(full := Absorbed(n, d, a)))
  {
    if a.entries != [] {
      WholeShown(n, d);
      AcceptedLog(n, a, Whole(n, d), a.prevLogIndex - n.snapshotIndex + 1, a.prevLogIndex + 1);
      ShownAgain(n, Accept(n, a), d, Absorbed(n, d, a));
    }
  }

  lemma AcceptLogs(h: History, n: Node, d: Shadow, a: AppendArgs)
    requires HistoryOk(h) && LogsOk(h, n, d) && n.currentTerm == a.term
    requires a.term in h.logs && Met(n, d, a, h.logs[a.term])
    ensures LogsOk(h, Accept(n, a), d.(full := Absorbed(n, d, a)))
  {
    AbsorbedMeaning(n, d, a, h.logs[a.term]);
    AcceptShown(n, d, a);
    NewLogGood(h, a.term, d.full, Absorbed(n, d, a));
  }

  lemma OldCommitStands(h: History, n: Node, d: Shadow, a: AppendArgs, source: Log, log: Log)
    requires HistoryOk(h) && CommitOk(h, n, d) && n.currentTerm == a.term && n.commitIndex > n.snapshotIndex
    requires a.term in h.logs && source == h.logs[a.term] && Met(n, d, a, source) && log == Absorbed(n, d, a)
    ensures Agree(d.full, log, n.commitIndex + 1) && Settled(h, a.term, log, n.commitIndex + 1)
    ensures Agree(d.base, log, n.snapshotIndex + 1)
  {
    AbsorbedMeaning(n, d, a, source);
    CommittedIsKept(h, n.currentTerm, a.term, d.full, log, n.commitIndex);
    SettledLess(h, n.currentTerm, d.full, n.commitIndex + 1, a.term, log, n.commitIndex + 1);
  }

  lemma NewCommitStands(h: History, n: Node, d: Shadow, a: AppendArgs, source: Log, log: Log)
    requires a.leaderCommit > n.commitIndex >= n.snapshotIndex
    requires a.term in h.logs && source == h.logs[a.term] && Met(n, d, a, source) && log == Absorbed(n, d, a)
    requires AppendSlice(h, a, source)
    ensures Settled(h, a.term, log, a.leaderCommit + 1) && Agree(d.base, log, n.snapshotIndex + 1)
  {
    AbsorbedMeaning(n, d, a, source);
    SettledLess(h, a.term, source, a.leaderCommit + 1, a.term, log, a.leaderCommit + 1);
  }

  lemma CommitRaised(h: History, n: Node, m: Node, d: Shadow, log: Log)
    requires CommitOk(h, n, d) && |log| > n.snapshotIndex
    requires m.snapshotIndex == n.snapshotIndex && m.currentTerm == n.currentTerm && m.lastApplied == n.lastApplied
    requires n.commitIndex <= m.commitIndex
    requires m.commitIndex > n.snapshotIndex ==>
               Agree(d.base, log, n.snapshotIndex + 1) && Settled(h, n.currentTerm, log, m.commitIndex + 1)
    ensures CommitOk(h, m, d.(full := log))
  {
  }

  lemma AcceptFields(n: Node, a: AppendArgs)
    requires Meets(n, a) && a.leaderCommit <= a.prevLogIndex + |a.entries|
    ensures var m := Accept(n, a);
            && m.snapshotIndex == n.snapshotIndex && m.currentTerm == n.currentTerm && m.lastApplied == n.lastApplied
            && m.commitIndex == if a.leaderCommit > n.commitIndex then a.leaderCommit else n.commitIndex
  {
  }

  lemma AcceptCommit(h: History, n: Node, m: Node, d: Shadow, a: AppendArgs, log: Log)
    requires HistoryOk(h) && CommitOk(h, n, d) && n.currentTerm == a.term && Meets(n, a)
    requires a.term in h.logs && Met(n, d, a, h.logs[a.term]) && AppendSlice(h, a, h.logs[a.term])
    requires m == Accept(n, a) && log == Absorbed(n, d, a)
    ensures CommitOk(h, m, d.(full := log)) && n.commitIndex <= m.commitIndex
    ensures n.commitIndex > n.snapshotIndex ==> Agree(d.full, log, n.commitIndex + 1)
  {
    AcceptFields(n, a);
    AbsorbedLength(h, n, d, a, log);
    if n.commitIndex > n.snapshotIndex {
      OldCommitStands(h, n, d, a, h.logs[a.term], log);
    }
    if a.leaderCommit > n.commitIndex {
      NewCommitStands(h, n, d, a, h.logs[a.term], log);
    }
    CommitRaised(h, n, m, d, log);
  }

  lemma AbsorbedLength(h: History, n: Node, d: Shadow, a: AppendArgs, log: Log)
    requires a.term in h.logs && Met(n, d, a, h.logs[a.term]) && log == Absorbed(n, d, a)
    ensures n.snapshotIndex < |log|
  {
    AbsorbedMeaning(n, d, a, h.logs[a.term]);
  }

  function Heard(n: Node, term: nat): Node {
    Observe(n, term).(role := Follower)
  }

  ghost predicate Takes(n: Node, a: AppendArgs) {
    n.currentTerm <= a.term && Meets(Heard(n, a.term), a)
  }

  lemma AppendCases(n: Node, a: AppendArgs)
    requires |n.log| > 0
    ensures AppendEntries(n, a).1.success <==> Takes(n, a)
    ensures AppendEntries(n, a).0 == if a.term < n.currentTerm then n
                                     else if Takes(n, a) then Accept(Heard(n, a.term), a)
                                     else Heard(n, a.term)
    ensures Takes(n, a) ==> Heard(n, a.term).currentTerm == a.term && Heard(n, a.term).snapshotIndex == n.snapshotIndex
  {
  }

  /** Every entry above index 0 has a positive term, so a message without a previous term is refused. */
  lemma NoTermNoMatch(h: History, n: Node, d: Shadow, a: AppendArgs)
    requires HistoryOk(h) && LogsOk(h, n, d) && Meets(n, a) && a.prevLogIndex >= 1
    ensures a.prevLogTerm >= 1
  {
    if a.prevLogIndex > n.snapshotIndex {
      ShownEntry(n, d, a.prevLogIndex);
      assert GoodAt(h, d.full, a.prevLogIndex);
    } else {
      var v: nat, m: nat :| SettledBy(h, n.currentTerm, d.base, n.snapshotIndex + 1, v, m);
      assert TermOk(h, v);
      assert GoodAt(h, h.logs[v], n.snapshotIndex);
    }
  }

  lemma HeardOk(h: History, me: nat, n: Node, d: Shadow, term: nat)
    requires NodeOk(h, me, n, d)
    ensures NodeOk(h, me, Heard(n, term), d)
  {
    ObserveOk(h, me, n, d, term);
    FollowerOk(h, me, Observe(n, term), d);
  }

  lemma TakenMet(h: History, me: nat, n: Node, d: Shadow, a: AppendArgs)
    requires HistoryOk(h) && NodeOk(h, me, n, d) && AppendOk(h, a) && Takes(n, a)
    ensures AppendSlice(h, a, h.logs[a.term]) && Met(Heard(n, a.term), d, a, h.logs[a.term])
  {
    HeardOk(h, me, n, d, a.term);
    var o := Heard(n, a.term);
    if !AppendSlice(h, a, h.logs[a.term]) {
      NoTermNoMatch(h, o, d, a);
      assert false;
    }
    Meeting(h, o, d, a, h.logs[a.term]);
  }

  /** What the follower now holds of the present leader's log. */
  ghost function AfterAppend(h: History, me: nat, n: Node, d: Shadow, a: AppendArgs): History {
    if Takes(n, a) then AfterAccept(h, me, n, d, a) else h
  }

  ghost function AfterAccept(h: History, me: nat, n: Node, d: Shadow, a: AppendArgs): History
    requires a.prevLogIndex >= 0
  {
    if a.entries != [] || Clean(n, d) then Accepted(h, a.term, me, a.prevLogIndex + |a.entries|) else h
  }

  ghost function ShadowAfterAppend(n: Node, d: Shadow, a: AppendArgs): Shadow
    requires LogShown(n, d)
  {
    if Takes(n, a) then d.(full := Absorbed(Heard(n, a.term), d, a)) else d
  }

  lemma AcceptHistory(h: History, me: nat, o: Node, d: Shadow, a: AppendArgs)
    requires HistoryOk(h) && NoLaterVote(h, me, a.term)
    requires a.term in h.logs && 0 <= a.prevLogIndex && a.prevLogIndex + |a.entries| < |h.logs[a.term]|
    ensures var k := AfterAccept(h, me, o, d, a);
            HistoryOk(k) && Extends(h, k) && OnlyAbout(h, k, me)
  {
    var m := a.prevLogIndex + |a.entries|;
    if a.entries != [] || Clean(o, d) {
      AcceptedQuiet(h, a.term, me, m);
      AcceptedOk(h, a.term, me, m);
    } else {
      NothingNew(h, me);
    }
  }

  lemma AppendHistory(h: History, me: nat, n: Node, d: Shadow, a: AppendArgs)
    requires HistoryOk(h) && NodeOk(h, me, n, d) && AppendOk(h, a)
    ensures var k := AfterAppend(h, me, n, d, a);
            HistoryOk(k) && Extends(h, k) && OnlyAbout(h, k, me)
  {
    if Takes(n, a) {
      TakenMet(h, me, n, d, a);
      AcceptHistory(h, me, n, d, a);
    }
  }

  lemma AcceptAnswer(h: History, me: nat, o: Node, d: Shadow, a: AppendArgs, source: Log)
    requires a.term in h.logs && source == h.logs[a.term] && AppendSlice(h, a, source) && Met(o, d, a, source)
    requires Settled(h, a.term, d.base, o.snapshotIndex + 1)
    ensures MatchOk(AfterAccept(h, me, o, d, a), a.term, me, a.prevLogIndex + |a.entries|)
  {
    if a.entries == [] && !Clean(o, d) {
      SettledLess(h, a.term, d.base, o.snapshotIndex + 1, a.term, source, o.snapshotIndex + 1);
    }
  }

  lemma AcceptedAnswer(h: History, me: nat, n: Node, o: Node, d: Shadow, a: AppendArgs)
    requires HistoryOk(h) && NodeOk(h, me, o, d) && o == Heard(n, a.term) && Takes(n, a)
    requires a.term in h.logs && AppendSlice(h, a, h.logs[a.term]) && Met(o, d, a, h.logs[a.term])
    ensures MatchOk(AfterAppend(h, me, n, d, a), a.term, me, a.prevLogIndex + |a.entries|)
  {
    AcceptAnswer(h, me, o, d, a, h.logs[a.term]);
    assert Clean(n, d) <==> Clean(o, d);
  }

  lemma AppendAnswerIsOk(h: History, me: nat, n: Node, d: Shadow, a: AppendArgs)
    requires HistoryOk(h) && NodeOk(h, me, n, d) && AppendOk(h, a)
    ensures AppendAnswerOk(AfterAppend(h, me, n, d, a), me, a, AppendEntries(n, a).1)
  {
    AppendCases(n, a);
    if Takes(n, a) {
      TakenMet(h, me, n, d, a);
      HeardOk(h, me, n, d, a.term);
      AcceptedAnswer(h, me, n, Heard(n, a.term), d, a);
    }
  }

  // ----- the follower is in order

  lemma AcceptRemembers(h: History, me: nat, o: Node, d: Shadow, a: AppendArgs, log: Log)
    requires HistoryOk(h) && Remembers(h, me, d.full, a.term)
    requires a.term in h.logs && Met(o, d, a, h.logs[a.term]) && log == Absorbed(o, d, a)
    ensures Remembers(AfterAccept(h, me, o, d, a), me, log, a.term)
  {
    AbsorbedMeaning(o, d, a, h.logs[a.term]);
    NewLogRemembers(h, me, a.term, d.full, log);
    if a.entries != [] || Clean(o, d) {
      AckRemembered(h, me, a.term, log, a.prevLogIndex + |a.entries|);
    }
  }

  lemma AcceptPersists(o: Node, a: AppendArgs)
    requires Meets(o, a) && Persisted(o)
    ensures Persisted(Accept(o, a)) && Accept(o, a).disk.snapshot == o.disk.snapshot
    ensures Accept(o, a).currentTerm == o.currentTerm
    ensures Accept(o, a).role == o.role && Accept(o, a).votedFor == o.votedFor
  {
  }

  lemma AcceptLocal(h: History, me: nat, o: Node, m: Node, d: Shadow, a: AppendArgs, log: Log)
    requires HistoryOk(h) && CoreOk(h, me, o, d) && o.currentTerm == a.term
    requires a.term in h.logs && Met(o, d, a, h.logs[a.term]) && AppendSlice(h, a, h.logs[a.term])
    requires m == Accept(o, a) && log == Absorbed(o, d, a)
    ensures LogsOk(h, m, d.(full := log)) && CommitOk(h, m, d.(full := log))
    ensures Persisted(m) && SnapshotOk(m)
  {
    AcceptLogs(h, o, d, a);
    AcceptCommit(h, o, m, d, a, log);
    AcceptFields(o, a);
    AcceptPersists(o, a);
  }

  lemma AcceptCore(h: History, k: History, me: nat, o: Node, m: Node, d: Shadow, e: Shadow, a: AppendArgs)
    requires HistoryOk(h) && CoreOk(h, me, o, d) && o.currentTerm == a.term && Extends(h, k)
    requires a.term in h.logs && Met(o, d, a, h.logs[a.term]) && AppendSlice(h, a, h.logs[a.term])
    requires k == AfterAccept(h, me, o, d, a) && m == Accept(o, a) && e == d.(full := Absorbed(o, d, a))
    ensures CoreOk(k, me, m, e)
  {
    AcceptRemembers(h, me, o, d, a, e.full);
    AcceptLocal(h, me, o, m, d, a, e.full);
    AcceptPersists(o, a);
    CoreFrom(h, k, me, m, e);
  }

  lemma AcceptVotes(h: History, k: History, me: nat, o: Node, m: Node)
    requires VotesOk(h, me, o) && m.currentTerm == o.currentTerm && m.role == o.role && m.votedFor == o.votedFor
    requires k.votes == h.votes && k.stands == h.stands && k.leaders == h.leaders
    ensures VotesOk(k, me, m)
  {
  }

  lemma AcceptNode(h: History, k: History, me: nat, o: Node, m: Node, e: Shadow)
    requires me < k.peers && VotesOk(h, me, o) && o.role.Follower? && CoreOk(k, me, m, e)
    requires m.currentTerm == o.currentTerm && m.role == o.role && m.votedFor == o.votedFor
    requires k.votes == h.votes && k.stands == h.stands && k.leaders == h.leaders
    ensures NodeOk(k, me, m, e)
  {
    AcceptVotes(h, k, me, o, m);
    FollowerFrom(k, me, m, e);
  }

  /** Accepting entries is no vote. */
  lemma OnlyAccepted(h: History, me: nat, o: Node, d: Shadow, a: AppendArgs)
    requires a.prevLogIndex >= 0
    ensures var k := AfterAccept(h, me, o, d, a);
            k.votes == h.votes && k.stands == h.stands && k.leaders == h.leaders && k.peers == h.peers
  {
  }

  lemma TakenOk(h: History, me: nat, o: Node, d: Shadow, a: AppendArgs)
    requires HistoryOk(h) && NodeOk(h, me, o, d) && o.role.Follower? && o.currentTerm == a.term && a.term in h.logs
    requires AppendSlice(h, a, h.logs[a.term]) && Met(o, d, a, h.logs[a.term])
    ensures NodeOk(AfterAccept(h, me, o, d, a), me, Accept(o, a), d.(full := Absorbed(o, d, a)))
  {
    var k, m, e := AfterAccept(h, me, o, d, a), Accept(o, a), d.(full := Absorbed(o, d, a));
    AcceptHistory(h, me, o, d, a);
    AcceptCore(h, k, me, o, m, d, e, a);
    AcceptPersists(o, a);
    OnlyAccepted(h, me, o, d, a);
    AcceptNode(h, k, me, o, m, e);
  }

  lemma TakenParts(h: History, me: nat, n: Node, d: Shadow, a: AppendArgs)
    requires |n.log| > 0 && LogShown(n, d) && Takes(n, a)
    ensures AfterAppend(h, me, n, d, a) == AfterAccept(h, me, Heard(n, a.term), d, a)
    ensures AppendEntries(n, a).0 == Accept(Heard(n, a.term), a)
    ensures ShadowAfterAppend(n, d, a) == d.(full := Absorbed(Heard(n, a.term), d, a))
  {
    AppendCases(n, a);
  }

  /** The handler keeps the invariant of the server. */
  lemma AppendNodeOk(h: History, me: nat, n: Node, d: Shadow, a: AppendArgs)
    requires HistoryOk(h) && NodeOk(h, me, n, d) && AppendOk(h, a)
    ensures NodeOk(AfterAppend(h, me, n, d, a), me, AppendEntries(n, a).0, ShadowAfterAppend(n, d, a))
  {
    AppendCases(n, a);
    HeardOk(h, me, n, d, a.term);
    if Takes(n, a) {
      TakenMet(h, me, n, d, a);
      TakenOk(h, me, Heard(n, a.term), d, a);
      TakenParts(h, me, n, d, a);
    }
  }
}
