/** What each region of a server has to achieve, said of the servers' own fields and independently of the
    functions that compute it: exactly when votes and entries are taken, what the answers say, what a leader
    learns from them, and what stays as it was. */
module RaftRules {
  import opened RaftNode
  import opened RaftLeadership

  // ----- what stays

  /** Nothing unsaved came in, and the service's snapshot is the same. */
  ghost predicate SavedAs(n: Node, m: Node) {
    m.disk.snapshot == n.disk.snapshot && (Persisted(n) ==> Persisted(m))
  }

  /** m differs from n at most in its log, term, vote, role and commitIndex, and in what it has saved. */
  ghost predicate SameRest(n: Node, m: Node) {
    && m.snapshotIndex == n.snapshotIndex && m.snapshotTerm == n.snapshotTerm && m.lastApplied == n.lastApplied
    && m.nextIndex == n.nextIndex && m.matchIndex == n.matchIndex
    && m.votes == n.votes && m.electionWon == n.electionWon
  }

  /** A higher term was seen: a follower without a vote in that term. */
  ghost predicate SteppedDown(n: Node, m: Node, term: nat) {
    && m.currentTerm == term && m.votedFor == NOBODY && m.role.Follower?
    && SameRest(n, m) && m.log == n.log && m.commitIndex == n.commitIndex && SavedAs(n, m)
  }

  /** m leads where n did, and knows something else of peer srv only. */
  ghost predicate OnlyPeer(n: Node, m: Node, srv: nat) {
    && m == n.(nextIndex := m.nextIndex, matchIndex := m.matchIndex)
    && |m.nextIndex| == |n.nextIndex| && |m.matchIndex| == |n.matchIndex|
    && (forall s :: 0 <= s < |n.nextIndex| && s != srv ==> m.nextIndex[s] == n.nextIndex[s])
    && (forall s :: 0 <= s < |n.matchIndex| && s != srv ==> m.matchIndex[s] == n.matchIndex[s])
  }

  // ----- elections

  /** The pair of a log's last term and last index is at least that of the server's log. */
  ghost predicate AtLeast(lastTerm: nat, lastIndex: int, n: Node)
    requires |n.log| > 0
  {
    var own := n.log[|n.log| - 1].term;
    lastTerm > own || (lastTerm == own && lastIndex >= n.snapshotIndex + |n.log| - 1)
  }

  /** A vote is granted exactly if the request's term is not old, the server is free to vote for this candidate in
      that term, and the candidate's log is at least as up to date. */
  lemma VotesExactlyWhen(n: Node, a: VoteArgs)
    requires |n.log| > 0
    ensures var (m, r) := RequestVote(n, a);
            && r.term == n.currentTerm
            && (r.granted <==> a.term >= n.currentTerm && AtLeast(a.lastLogTerm, a.lastLogIndex, n) &&
                               (a.term > n.currentTerm || n.votedFor == NOBODY || n.votedFor == a.candidate))
            && m.currentTerm == Max(n.currentTerm, a.term)
            && m.votedFor == (if r.granted then a.candidate else if a.term > n.currentTerm then NOBODY else n.votedFor)
            && (r.granted || a.term > n.currentTerm ==> m.role.Follower?)
            && (!r.granted && a.term <= n.currentTerm ==> m == n)
            && SameRest(n, m) && m.log == n.log && m.commitIndex == n.commitIndex && SavedAs(n, m)
  {
  }

  /** A server stands in the next term with its own vote, and asks with the end of its log. */
  lemma StandsForNextTerm(n: Node, me: nat)
    requires |n.log| > 0
    ensures var m := StartElection(n, me);
            && m.currentTerm == n.currentTerm + 1 && m.votedFor == me && m.role.Candidate?
            && m.votes == 1 && !m.electionWon && SavedAs(n, m)
            && m == n.(currentTerm := m.currentTerm, votedFor := m.votedFor, role := m.role, votes := m.votes,
                       electionWon := m.electionWon, disk := m.disk)
            && var a := BallotRequest(m, me);
               && a.term == m.currentTerm && a.candidate == me
               && AtLeast(a.lastLogTerm, a.lastLogIndex, n)
               && (forall term: nat, index: int :: AtLeast(term, index, n) ==>
                     term > a.lastLogTerm || (term == a.lastLogTerm && index >= a.lastLogIndex))
  {
  }

  /** A leader that knows nothing of its peers but that they have what it has a snapshot of. */
  ghost predicate NewLeader(n: Node, m: Node, me: nat, peers: nat) {
    && m.role.Leader? && m.electionWon
    && |m.nextIndex| == |m.matchIndex| == peers
    && (forall s :: 0 <= s < peers ==> m.nextIndex[s] == LastIndex(n) + 1)
    && (forall s :: 0 <= s < peers ==> m.matchIndex[s] == if s == me then LastIndex(n) else n.snapshotIndex)
    && m == n.(role := m.role, electionWon := m.electionWon, votes := m.votes, nextIndex := m.nextIndex,
               matchIndex := m.matchIndex)
  }

  /** One answer: it counts only for the candidacy that asked; a higher term ends it; a granted vote is counted, and
      makes a leader exactly if it is the one that completes the majority. */
  lemma AnswerCounts(n: Node, me: nat, peers: nat, askedIn: nat, r: VoteReply)
    requires me < peers && |n.log| > 0
    ensures var m, counts := HandleVoteReply(n, me, peers, askedIn, r), n.role.Candidate? && n.currentTerm == askedIn;
            && (!counts ==> m == n)
            && (counts && r.term > n.currentTerm ==> SteppedDown(n, m, r.term))
            && (counts && r.term <= n.currentTerm && !r.granted ==> m == n)
            && (counts && r.term <= n.currentTerm && r.granted ==>
                  if n.votes + 1 > peers / 2 && !n.electionWon
                  then m.votes == n.votes + 1 && NewLeader(n, m, me, peers)
                  else m == n.(votes := n.votes + 1))
  {
  }

  ghost function Yes(replies: seq<VoteReply>): set<nat> {
    set i: nat | i < |replies| && replies[i].granted
  }

  /** The candidate after the answers, in this order. */
  ghost function Polled(n: Node, me: nat, peers: nat, askedIn: nat, replies: seq<VoteReply>): (m: Node)
    requires me < peers && |n.log| > 0
    ensures |m.log| > 0
  {
    if replies == [] then n
    else
      var k := |replies| - 1;
      HandleVoteReply(Polled(n, me, peers, askedIn, replies[..k]), me, peers, askedIn, replies[k])
  }

  lemma YesGrows(replies: seq<VoteReply>)
    requires replies != []
    ensures var k := |replies| - 1;
            |Yes(replies)| == |Yes(replies[..k])| + if replies[k].granted then 1 else 0
  {
    var k: nat := |replies| - 1;
    assert Yes(replies) == Yes(replies[..k]) + if replies[k].granted then {k} else {};
  }

  /** A candidacy whose answers carry no higher term ends in leadership exactly if the granted votes and its own are a
      majority of the cluster, in whatever order they arrive and however many arrive after; until then it goes on.
      (Its own vote alone is never looked at.) */
  lemma {:induction false} MajorityElects(n: Node, me: nat, peers: nat, replies: seq<VoteReply>)
    requires me < peers && |n.log| > 0
    requires forall i :: 0 <= i < |replies| ==> replies[i].term <= n.currentTerm + 1
    ensures var c := StartElection(n, me);
            var m := Polled(c, me, peers, c.currentTerm, replies);
            if |Yes(replies)| > 0 && 1 + |Yes(replies)| > peers / 2 then NewLeader(c, m, me, peers)
            else m == c.(votes := 1 + |Yes(replies)|)
    decreases |replies|
  {
    var c := StartElection(n, me);
    if replies == [] {
      assert Yes(replies) == {};
    } else {
      var k := |replies| - 1;
      MajorityElects(n, me, peers, replies[..k]);
      YesGrows(replies);
      AnswerCounts(Polled(c, me, peers, c.currentTerm, replies[..k]), me, peers, c.currentTerm, replies[k]);
    }
  }

  // ----- proposals and messages

  /** A leader appends the command right after its log, in its own term, and saves it; nobody else does anything. */
  lemma AppendsOnlyAsLeader(n: Node, command: Command)
    ensures var m := Start(n, command);
            && (!n.role.Leader? ==> m == n)
            && (n.role.Leader? ==>
                  && LastIndex(m) == LastIndex(n) + 1 && n.log < m.log
                  && m.log[|n.log|].term == n.currentTerm && m.log[|n.log|].command == command
                  && m == n.(log := m.log, disk := m.disk) && SavedAs(n, m))
  {
  }

  /** The message starts right after nextIndex - 1 and carries every entry from there to the end of the log, the term
      of the entry before them, and the commit index read; or, if nextIndex is not above the snapshot that was read,
      that snapshot. */
  lemma MessageSays(n: Node, me: nat, srv: nat, seen: Reading)
    requires srv < |n.nextIndex|
    ensures var next := n.nextIndex[srv];
            match BuildFrom(n, me, srv, seen)
            case SendInstall(a) =>
              && next <= seen.snapshotIndex && seen.snapshot != []
              && a.term == n.currentTerm && a.leader == me && a.data == seen.snapshot
              && a.lastIncludedIndex == seen.snapshotIndex && a.lastIncludedTerm == n.snapshotTerm
            case SendAppend(a) =>
              && (next > seen.snapshotIndex || seen.snapshot == [])
              && a.term == n.currentTerm && a.leader == me && a.leaderCommit == seen.commitIndex
              && a.prevLogIndex == next - 1
              && (forall x :: x == next - 1 && n.snapshotIndex <= x <= LastIndex(n) ==>
                    a.prevLogTerm == EntryAt(n, x).term)
              && (next - 1 < n.snapshotIndex || next - 1 > LastIndex(n) ==> a.prevLogTerm == 0)
              && (next < n.snapshotIndex || next > LastIndex(n) ==> a.entries == [])
              && (n.snapshotIndex <= next <= LastIndex(n) ==> next + |a.entries| == LastIndex(n) + 1)
              && forall i :: 0 <= i < |a.entries| ==> a.entries[i] == EntryAt(n, next + i)
  {
  }

  /** The first lock of a heartbeat reads the present commit index, term and snapshot. */
  lemma ReadingSays(n: Node)
    ensures var seen := ReadingOf(n);
            && seen.term == n.currentTerm && seen.commitIndex == n.commitIndex
            && (Persisted(n) ==> seen.snapshotIndex == n.disk.snapshotIndex) && seen.snapshot == n.disk.snapshot
  {
  }

  // ----- the follower

  /** The message starts at an index that the server's log covers, with the term that the log has there. */
  ghost predicate Fits(n: Node, a: AppendArgs) {
    n.snapshotIndex <= a.prevLogIndex <= LastIndex(n) && EntryAt(n, a.prevLogIndex).term == a.prevLogTerm
  }

  /** Entry i of the message is in the log, as far as its term tells. */
  ghost predicate Held(log: seq<Entry>, at: nat, entries: seq<Entry>, i: nat)
    requires i < |entries|
  {
    at + i < |log| && log[at + i].term == entries[i].term
  }

  /** Entry i is the first that is not. */
  ghost predicate FirstMissing(log: seq<Entry>, at: nat, entries: seq<Entry>, i: nat) {
    i < |entries| && !Held(log, at, entries, i) && forall j: nat :: j < i ==> Held(log, at, entries, j)
  }

  /** The log is left alone if it holds all entries; otherwise it is cut where the first one is missing, and that one
      and all after it are appended. */
  ghost predicate Spliced(log: seq<Entry>, merged: seq<Entry>, at: nat, entries: seq<Entry>)
  {
    && ((forall i: nat :: i < |entries| ==> Held(log, at, entries, i)) ==> merged == log)
    && forall i: nat :: FirstMissing(log, at, entries, i) ==> at + i <= |log| && merged == log[..at + i] + entries[i..]
  }

  lemma {:induction false} AppendsAll(log: seq<Entry>, entries: seq<Entry>)
    ensures Merge(log, |log|, entries) == log + entries
    decreases |entries|
  {
    if entries == [] {
      assert log + entries == log;
    } else {
      AppendsAll(log + [entries[0]], entries[1..]);
      assert log + [entries[0]] + entries[1..] == log + entries;
    }
  }

  lemma {:induction false} MergeSplices(log: seq<Entry>, at: nat, entries: seq<Entry>)
    requires at <= |log|
    ensures Spliced(log, Merge(log, at, entries), at, entries)
    decreases |entries|
  {
    if entries == [] {
    } else if !Held(log, at, entries, 0) {
      AppendsAll(log[..at] + [entries[0]], entries[1..]);
      assert log[..at] + [entries[0]] + entries[1..] == log[..at] + entries[0..];
      assert at == |log| ==> log[..at] == log;
      forall i: nat | FirstMissing(log, at, entries, i) ensures i == 0 {}
    } else {
      var rest := entries[1..];
      MergeSplices(log, at + 1, rest);
      forall i: nat {:trigger Held(log, at + 1, rest, i)} | i < |rest|
        ensures Held(log, at + 1, rest, i) <==> Held(log, at, entries, i + 1) {}
      forall i: nat | FirstMissing(log, at, entries, i)
        ensures at + i <= |log| && Merge(log, at, entries) == log[..at + i] + entries[i..]
      {
        assert i > 0 && rest[i - 1..] == entries[i..];
        forall j: nat {:trigger Held(log, at + 1, rest, j)} | j < i - 1
          ensures Held(log, at + 1, rest, j)
        {
          assert Held(log, at, entries, j + 1);
        }
        assert FirstMissing(log, at + 1, rest, i - 1);
      }
    }
  }

  /** Entries are taken exactly if the message's term is not old and it fits the log.  A message whose term is not old
      makes the server a follower in that term, taken or not; an old one does nothing.  What is taken is put after the
      index where it fits, and commitIndex goes to what the message claims, but not past its last entry. */
  lemma TakesExactlyWhen(n: Node, a: AppendArgs)
    requires |n.log| > 0
    ensures var (m, r) := AppendEntries(n, a);
            && r.term == n.currentTerm && (r.success <==> n.currentTerm <= a.term && Fits(n, a))
            && (a.term < n.currentTerm ==> m == n)
            && (a.term >= n.currentTerm ==>
                  && m.currentTerm == a.term && m.role.Follower?
                  && m.votedFor == if a.term > n.currentTerm then NOBODY else n.votedFor)
            && SameRest(n, m) && SavedAs(n, m)
            && (!r.success ==> m.log == n.log && m.commitIndex == n.commitIndex)
            && (r.success ==>
                  && Spliced(n.log, m.log, a.prevLogIndex - n.snapshotIndex + 1, a.entries)
                  && m.commitIndex == if a.leaderCommit <= n.commitIndex then n.commitIndex
                                      else if a.prevLogIndex + |a.entries| < a.leaderCommit
                                      then a.prevLogIndex + |a.entries| else a.leaderCommit)
  {
    if n.currentTerm <= a.term && Fits(n, a) {
      MergeSplices(n.log, a.prevLogIndex - n.snapshotIndex + 1, a.entries);
    }
  }

  /** All entries from the bottom up to position k carry one term. */
  ghost predicate OneTerm(log: seq<Entry>, k: nat) {
    k < |log| && forall i :: 0 <= i <= k ==> log[i].term == log[k].term
  }

  /** A run of equal terms that ends at k begins at s. */
  ghost predicate Begins(log: seq<Entry>, k: nat, s: nat) {
    && 1 <= s <= k < |log| && log[s - 1].term != log[k].term
    && forall i :: s <= i <= k ==> log[i].term == log[k].term
  }

  /** What the scan finds: where the run begins, or k itself if there is only one term. */
  lemma {:induction false} RunFinds(log: seq<Entry>, k: nat, i: nat)
    requires i <= k < |log| && forall j :: i <= j <= k ==> log[j].term == log[k].term
    ensures if OneTerm(log, k) then RunStartFrom(log, k, i) == k else Begins(log, k, RunStartFrom(log, k, i))
  {
    if i > 0 && log[i - 1].term == log[k].term {
      RunFinds(log, k, i - 1);
    }
  }

  /** A refusal for an index that the log does not cover says how far the log goes; one over a conflict names the term
      found there and an index down to which the log has that term.  That is where the run of the term begins, or the
      index itself if everything down to the snapshot has it. */
  lemma RefusalSays(n: Node, a: AppendArgs)
    requires |n.log| > 0 && n.currentTerm <= a.term && !Fits(n, a)
    ensures var r, p := AppendEntries(n, a).1, a.prevLogIndex;
            && r.xLen == LastIndex(n) + 1
            && if p < n.snapshotIndex || p > LastIndex(n) then r.xTerm == r.xIndex == -1
               else
                 && r.xTerm == EntryAt(n, p).term && n.snapshotIndex <= r.xIndex <= p
                 && (forall x :: r.xIndex <= x <= p ==> EntryAt(n, x).term == r.xTerm)
                 && if exists x :: n.snapshotIndex <= x <= p && EntryAt(n, x).term != r.xTerm
                    then r.xIndex > n.snapshotIndex && EntryAt(n, r.xIndex - 1).term != r.xTerm
                    else r.xIndex == p
  {
    var p := a.prevLogIndex;
    if n.snapshotIndex <= p <= LastIndex(n) {
      RunFinds(n.log, p - n.snapshotIndex, p - n.snapshotIndex);
      if x :| n.snapshotIndex <= x <= p && EntryAt(n, x).term != EntryAt(n, p).term {
        assert n.log[x - n.snapshotIndex].term != n.log[p - n.snapshotIndex].term;
      }
    }
  }

  // ----- what a leader learns

  /** An answer counts only for a leader that still leads in the term of its message.  Success never lowers what the
      leader knows of that peer and goes to the last entry sent; a refusal moves nextIndex to the hint, but not below
      1; a higher term ends the leadership.  Nothing else changes. */
  lemma AnswerTeaches(n: Node, srv: nat, a: AppendArgs, r: AppendReply)
    requires srv < |n.nextIndex| && srv < |n.matchIndex|
    ensures var m, counts := HandleAppendReply(n, srv, a, r), n.role.Leader? && n.currentTerm == a.term;
            var last, hint := a.prevLogIndex + |a.entries|, if r.xTerm == -1 then r.xLen else r.xIndex;
            && (!counts ==> m == n)
            && (counts && !r.success && r.term > n.currentTerm ==> SteppedDown(n, m, r.term))
            && (counts && (r.success || r.term <= n.currentTerm) ==> OnlyPeer(n, m, srv))
            && (counts && r.success && last > n.matchIndex[srv] ==>
                  m.matchIndex[srv] == last && m.nextIndex[srv] == last + 1)
            && (counts && r.success && last <= n.matchIndex[srv] ==> m == n)
            && (counts && !r.success && r.term <= n.currentTerm ==>
                  m.matchIndex == n.matchIndex && m.nextIndex[srv] >= 1 && m.nextIndex[srv] >= hint &&
                  (m.nextIndex[srv] == hint || m.nextIndex[srv] == 1))
  {
  }

  /** The leader's log has an entry of its own term at index k, and it and the peers known to hold index k are a
      majority. */
  ghost predicate Countable(n: Node, me: nat, peers: nat, k: nat)
    requires |n.matchIndex| == peers
  {
    && n.snapshotIndex <= k <= LastIndex(n) && EntryAt(n, k).term == n.currentTerm
    && 1 + |set s: nat | s < peers && s != me && n.matchIndex[s] >= k| > peers / 2
  }

  lemma CountableIs(n: Node, me: nat, peers: nat, k: nat)
    requires |n.matchIndex| == peers && n.snapshotIndex <= k <= LastIndex(n)
    ensures MayCommit(n, me, peers, k) <==> Countable(n, me, peers, k)
  {
    CountIsSize(n.matchIndex, me, k, peers);
    assert Matched(n.matchIndex, me, k, peers) == set s: nat | s < peers && s != me && n.matchIndex[s] >= k;
  }

  lemma {:induction false} ScanIsHighest(n: Node, me: nat, peers: nat, from: int)
    requires |n.matchIndex| == peers && from <= LastIndex(n)
    ensures var c := ScanCommit(n, me, peers, from);
            && (c == n.commitIndex || (n.commitIndex < c && Countable(n, me, peers, c)))
            && forall k: nat :: n.commitIndex < k <= from && Countable(n, me, peers, k) ==> k <= c
    decreases from
  {
    if from > n.commitIndex {
      if from >= n.snapshotIndex {
        CountableIs(n, me, peers, from);
      }
      if !(from >= n.snapshotIndex && MayCommit(n, me, peers, from)) {
        ScanIsHighest(n, me, peers, from - 1);
      }
    }
  }

  /** A leader's commitIndex goes to the highest index that can be counted, and stays if there is none above it. */
  lemma CommitsHighest(n: Node, me: nat, peers: nat)
    requires n.role.Leader? ==> |n.matchIndex| == peers
    ensures var m := UpdateCommitIndex(n, me, peers);
            && m == n.(commitIndex := m.commitIndex)
            && (!n.role.Leader? ==> m == n)
            && (n.role.Leader? ==>
                  && (m.commitIndex == n.commitIndex ||
                      (n.commitIndex < m.commitIndex && Countable(n, me, peers, m.commitIndex)))
                  && forall k: nat :: Countable(n, me, peers, k) ==> k <= m.commitIndex)
  {
    if n.role.Leader? {
      ScanIsHighest(n, me, peers, LastIndex(n));
    }
  }

  // ----- snapshots

  /** m shows what n shows above its own snapshot, which ends at `index` in `term`. */
  ghost predicate CutTo(n: Node, m: Node, index: nat, term: nat) {
    && m.snapshotIndex == index && m.snapshotTerm == term && |m.log| > 0 && m.log[0] == Entry(term, Nil)
    && LastIndex(m) == Max(index, if LastIndex(n) < 0 then 0 else LastIndex(n))
    && (forall x :: index < x <= LastIndex(n) && n.snapshotIndex <= x ==> EntryAt(m, x) == EntryAt(n, x))
    && m.commitIndex == Max(n.commitIndex, index) && m.lastApplied == Max(n.lastApplied, index)
  }

  /** A snapshot is taken exactly if it is newer than the last one and within the log.  Then everything up to its index
      is dropped, the rest is kept, the service's data is saved with it, and a leader takes every peer to be past it. */
  lemma SnapshotCuts(n: Node, me: nat, index: int, data: seq<Command>)
    requires |n.log| > 0 && (n.role.Leader? ==> me < |n.nextIndex| == |n.matchIndex|)
    ensures var m, taken := Snapshot(n, me, index, data), n.snapshotIndex < index <= LastIndex(n);
            && (!taken ==> m == n)
            && (taken ==>
                  && CutTo(n, m, index, EntryAt(n, index).term) && Persisted(m) && m.disk.snapshot == data
                  && m.currentTerm == n.currentTerm && m.votedFor == n.votedFor && m.role == n.role
                  && m.votes == n.votes && m.electionWon == n.electionWon
                  && |m.nextIndex| == |n.nextIndex| && |m.matchIndex| == |n.matchIndex|
                  && (!n.role.Leader? ==> m.nextIndex == n.nextIndex && m.matchIndex == n.matchIndex)
                  && (n.role.Leader? ==> forall s :: 0 <= s < |n.nextIndex| ==>
                        && m.nextIndex[s] == (if s == me then n.nextIndex[s] else Max(n.nextIndex[s], index + 1))
                        && m.matchIndex[s] == Max(n.matchIndex[s], index)))
  {
  }

  /** An arriving snapshot is installed exactly if its term is not old and it is newer than the server's own; then it is
      what the server holds and hands to its service, and the entries above it stay. */
  lemma InstallsExactlyWhen(n: Node, a: InstallArgs)
    requires |n.log| > 0
    ensures var InstallResult(m, r, delivered) := InstallSnapshot(n, a);
            var installed := n.currentTerm <= a.term && n.snapshotIndex < a.lastIncludedIndex;
            && r.term == n.currentTerm && (Persisted(n) ==> Persisted(m))
            && (a.term < n.currentTerm ==> m == n)
            && (a.term >= n.currentTerm ==>
                  && m.currentTerm == a.term && m.role.Follower?
                  && m.votedFor == if a.term > n.currentTerm then NOBODY else n.votedFor)
            && m.nextIndex == n.nextIndex && m.matchIndex == n.matchIndex
            && m.votes == n.votes && m.electionWon == n.electionWon
            && (!installed ==> SameRest(n, m) && m.log == n.log && m.commitIndex == n.commitIndex && SavedAs(n, m))
            && (!installed ==> delivered == [])
            && (installed ==>
                  && CutTo(n, m, a.lastIncludedIndex, a.lastIncludedTerm) && m.disk.snapshot == a.data
                  && delivered == [ApplySnapshot(a.lastIncludedIndex, a.lastIncludedTerm, a.data)])
  {
  }

  /** A server that restarts has its term, vote, log and snapshot back, takes what is in the snapshot to be committed
      and applied, and follows. */
  lemma RestartKeeps(n: Node)
    requires Persisted(n)
    ensures var m := Boot(n.disk);
            && m.currentTerm == n.currentTerm && m.votedFor == n.votedFor && m.log == n.log
            && m.snapshotIndex == n.snapshotIndex && m.snapshotTerm == n.snapshotTerm && m.disk == n.disk
            && m.commitIndex == m.lastApplied == n.snapshotIndex && m.role.Follower?
  {
  }
}
