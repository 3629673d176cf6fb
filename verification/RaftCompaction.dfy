/** A server that takes snapshots behaves as if it had kept its whole log: whatever else happens to it, it
    answers, votes, commits and delivers the same, as long as no message starts below its snapshot. */
module RaftCompaction {
  import opened RaftNode
  import opened RaftReplication
  import opened RaftRules

  /** The log from position `from` on, with a dummy for the entry there. */
  function CutAt(log: seq<Entry>, from: nat): seq<Entry>
    requires from < |log|
  {
    [Entry(log[from].term, Nil)] + log[from + 1..]
  }

  ghost predicate SamePeers(f: Node, c: Node, peers: nat) {
    && |f.nextIndex| == |c.nextIndex| == |f.matchIndex| == |c.matchIndex| == peers
    && forall i :: 0 <= i < peers ==> Max(f.matchIndex[i], c.snapshotIndex) == Max(c.matchIndex[i], c.snapshotIndex)
  }

  /** c is f, but for the part of the log that c has in its snapshot.  What c knows of its peers may be
      higher than what f knows, up to the snapshot. */
  ghost predicate Compacted(f: Node, c: Node, peers: nat) {
    && f.snapshotIndex <= c.snapshotIndex < f.snapshotIndex + |f.log|
    && c.snapshotIndex <= f.lastApplied && c.snapshotIndex <= f.commitIndex
    && c.log == CutAt(f.log, c.snapshotIndex - f.snapshotIndex) && c.snapshotTerm == c.log[0].term
    && c == f.(log := c.log, snapshotIndex := c.snapshotIndex, snapshotTerm := c.snapshotTerm,
               nextIndex := c.nextIndex, matchIndex := c.matchIndex, disk := c.disk)
    && (c.role.Leader? ==> SamePeers(f, c, peers))
  }

  // ----- what can happen to a server

  datatype Event =
    | Stand
    | Vote(vote: VoteArgs)
    | Count(askedIn: nat, answer: VoteReply)
    | Propose(command: Command)
    | Append(append: AppendArgs)
    | Acknowledge(peer: nat, sent: AppendArgs, reply: AppendReply)
    | Commit
    | Apply
    | Compact(index: nat, data: seq<Command>)

  /** What can be seen from outside.  The back-off hint xIndex is not part of it. */
  datatype Output =
    | Asks(VoteArgs)
    | Votes(VoteReply)
    | Proposed(index: int)
    | Appended(term: nat, success: bool, xTerm: int, xLen: int)
    | Delivers(seq<ApplyMsg>)
    | Silent

  ghost predicate Possible(n: Node, me: nat, peers: nat, e: Event) {
    && me < peers && |n.log| > 0 && (n.role.Leader? ==> |n.nextIndex| == |n.matchIndex| == peers)
    && match e
       case Append(a) => a.prevLogIndex >= n.snapshotIndex
       case Acknowledge(peer, _, _) => peer < peers
       case Compact(index, _) => index <= n.lastApplied && index <= n.commitIndex
       case _ => true
  }

  ghost function Do(n: Node, me: nat, peers: nat, e: Event): (Node, Output)
    requires Possible(n, me, peers, e)
  {
    match e
    case Stand => (StartElection(n, me), Asks(BallotRequest(StartElection(n, me), me)))
    case Vote(a) => var (m, r) := RequestVote(n, a); (m, Votes(r))
    case Count(askedIn, r) => (HandleVoteReply(n, me, peers, askedIn, r), Silent)
    case Propose(command) => (Start(n, command), Proposed(if n.role.Leader? then LastIndex(n) + 1 else -1))
    case Append(a) => var (m, r) := AppendEntries(n, a); (m, Appended(r.term, r.success, r.xTerm, r.xLen))
    case Acknowledge(peer, a, r) => (HandleAppendReply(n, peer, a, r), Silent)
    case Commit => (UpdateCommitIndex(n, me, peers), Silent)
    case Apply => var (m, msgs) := ApplyCommitted(n); (m, Delivers(msgs))
    case Compact(index, data) => (Snapshot(n, me, index, data), Silent)
  }

  /** The same server when it ignores requests for snapshots. */
  ghost function DoWhole(n: Node, me: nat, peers: nat, e: Event): (Node, Output)
    requires !e.Compact? ==> Possible(n, me, peers, e)
  {
    if e.Compact? then (n, Silent) else Do(n, me, peers, e)
  }

  // ----- one event at a time

  lemma LastTermSame(f: Node, c: Node, peers: nat)
    requires Compacted(f, c, peers)
    ensures LastIndex(f) == LastIndex(c) && f.log[|f.log| - 1].term == c.log[|c.log| - 1].term
  {
  }

  lemma ObserveSame(f: Node, c: Node, peers: nat, term: nat)
    requires Compacted(f, c, peers)
    ensures Compacted(Observe(f, term), Observe(c, term), peers) && Compacted(Heard(f, term), Heard(c, term), peers)
  {
  }

  lemma GrantSame(f: Node, c: Node, peers: nat, candidate: nat)
    requires Compacted(f, c, peers)
    ensures Compacted(Persist(f.(votedFor := candidate, role := Follower)),
                      Persist(c.(votedFor := candidate, role := Follower)), peers)
  {
  }

  lemma VoteSame(f: Node, c: Node, peers: nat, a: VoteArgs)
    requires Compacted(f, c, peers)
    ensures Compacted(RequestVote(f, a).0, RequestVote(c, a).0, peers)
    ensures RequestVote(f, a).1 == RequestVote(c, a).1
  {
    ObserveSame(f, c, peers, a.term);
    var o, p := Observe(f, a.term), Observe(c, a.term);
    LastTermSame(o, p, peers);
    GrantSame(o, p, peers, a.candidate);
  }

  lemma CountSame(f: Node, c: Node, me: nat, peers: nat, askedIn: nat, r: VoteReply)
    requires Compacted(f, c, peers) && me < peers
    ensures Compacted(HandleVoteReply(f, me, peers, askedIn, r), HandleVoteReply(c, me, peers, askedIn, r), peers)
  {
    LastTermSame(f, c, peers);
  }

  lemma ProposeSame(f: Node, c: Node, peers: nat, command: Command)
    requires Compacted(f, c, peers)
    ensures Compacted(Start(f, command), Start(c, command), peers)
  {
    var k, e := c.snapshotIndex - f.snapshotIndex, Entry(f.currentTerm, command);
    assert (f.log + [e])[k + 1..] == f.log[k + 1..] + [e];
  }

  lemma AcceptSame(f: Node, c: Node, peers: nat, a: AppendArgs, at: nat, k: nat)
    requires Compacted(f, c, peers) && Meets(f, a) && Meets(c, a)
    requires k == c.snapshotIndex - f.snapshotIndex && at == a.prevLogIndex - c.snapshotIndex + 1
    ensures Compacted(Accept(f, a), Accept(c, a), peers)
  {
    AcceptCut(f, c, a, at, k, k + at);
    AcceptRest(f, c, peers, a);
    StillCompacted(f, c, Accept(f, a), Accept(c, a), peers, k);
  }

  lemma AcceptCut(f: Node, c: Node, a: AppendArgs, at: nat, k: nat, q: nat)
    requires k < |f.log| && c.log == CutAt(f.log, k) && Meets(f, a) && Meets(c, a) && q == k + at
    requires at == a.prevLogIndex - c.snapshotIndex + 1 && q == a.prevLogIndex - f.snapshotIndex + 1
    ensures k < |Accept(f, a).log| && Accept(c, a).log == CutAt(Accept(f, a).log, k) && Accept(c, a).log[0] == c.log[0]
  {
    var m, n := Merge(f.log, q, a.entries), Merge(c.log, at, a.entries);
    MergeCut(f.log, c.log, k, at, q, a.entries);
    MergeKeeps(c.log, at, a.entries, 0);
    assert k < |m| && n == CutAt(m, k) && n[0] == c.log[0];
    AcceptLogIs(f, a, q);
    AcceptLogIs(c, a, at);
  }

  lemma MergeCut(f: seq<Entry>, c: seq<Entry>, k: nat, at: nat, q: nat, entries: seq<Entry>)
    requires k < |f| && c == CutAt(f, k) && 1 <= at && q == k + at <= |f|
    ensures k < |Merge(f, q, entries)| && Merge(c, at, entries) == CutAt(Merge(f, q, entries), k)
  {
    MergeCompacted(c, f, k, at, q, entries);
    MergeKeeps(f, q, entries, k);
  }

  /** The log is still cut at the same place, and the rest as far along as before. */
  lemma StillCompacted(f: Node, c: Node, m: Node, n: Node, peers: nat, k: nat)
    requires Compacted(f, c, peers) && k == c.snapshotIndex - f.snapshotIndex && k < |m.log| && n.log == CutAt(m.log, k)
    requires n == m.(log := n.log, snapshotIndex := c.snapshotIndex, snapshotTerm := c.snapshotTerm,
                     nextIndex := c.nextIndex, matchIndex := c.matchIndex, disk := n.disk)
    requires m.snapshotIndex == f.snapshotIndex && m.role == f.role
    requires m.nextIndex == f.nextIndex && m.matchIndex == f.matchIndex
    requires c.snapshotIndex <= m.lastApplied && c.snapshotIndex <= m.commitIndex && n.log[0] == c.log[0]
    ensures Compacted(m, n, peers)
  {
  }

  lemma MergeKeeps(log: seq<Entry>, at: nat, entries: seq<Entry>, k: nat)
    requires k < at <= |log|
    ensures Merge(log, at, entries)[k] == log[k]
  {
    assert Merge(log, at, entries)[..at][k] == log[..at][k];
  }

  /** Everything but the log. */
  lemma AcceptRest(f: Node, c: Node, peers: nat, a: AppendArgs)
    requires Compacted(f, c, peers) && Meets(f, a) && Meets(c, a)
    ensures var m, n := Accept(f, a), Accept(c, a);
            && n == m.(log := n.log, snapshotIndex := c.snapshotIndex, snapshotTerm := c.snapshotTerm,
                       nextIndex := c.nextIndex, matchIndex := c.matchIndex, disk := n.disk)
            && m.snapshotIndex == f.snapshotIndex && m.role == f.role
            && m.nextIndex == f.nextIndex && m.matchIndex == f.matchIndex
            && c.snapshotIndex <= m.lastApplied && c.snapshotIndex <= m.commitIndex
  {
  }

  lemma TakesSame(f: Node, c: Node, peers: nat, a: AppendArgs, at: int)
    requires Compacted(f, c, peers) && a.prevLogIndex >= c.snapshotIndex && at == a.prevLogIndex - c.snapshotIndex
    ensures Meets(f, a) <==> Meets(c, a)
  {
    assert at < |c.log| ==> c.log[at].term == f.log[at + (c.snapshotIndex - f.snapshotIndex)].term;
  }

  lemma AppendNodeSame(f: Node, c: Node, peers: nat, a: AppendArgs)
    requires Compacted(f, c, peers) && a.prevLogIndex >= c.snapshotIndex
    ensures Compacted(AppendEntries(f, a).0, AppendEntries(c, a).0, peers)
  {
    AppendCases(f, a);
    AppendCases(c, a);
    ObserveSame(f, c, peers, a.term);
    TakesSame(Heard(f, a.term), Heard(c, a.term), peers, a, a.prevLogIndex - c.snapshotIndex);
    if Takes(f, a) {
      AcceptSame(Heard(f, a.term), Heard(c, a.term), peers, a, a.prevLogIndex - c.snapshotIndex + 1,
          c.snapshotIndex - f.snapshotIndex);
    }
  }

  lemma AppendReplySame(f: Node, c: Node, peers: nat, a: AppendArgs)
    requires Compacted(f, c, peers) && a.prevLogIndex >= c.snapshotIndex
    ensures var r, s := AppendEntries(f, a).1, AppendEntries(c, a).1;
            r.term == s.term && r.success == s.success && r.xTerm == s.xTerm && r.xLen == s.xLen
  {
    ReplyCut(f, c, a, a.prevLogIndex - c.snapshotIndex, c.snapshotIndex - f.snapshotIndex);
  }

  lemma ReplyCut(f: Node, c: Node, a: AppendArgs, at: nat, k: nat)
    requires k < |f.log| && c.log == CutAt(f.log, k) && c.currentTerm == f.currentTerm
    requires c.snapshotIndex == f.snapshotIndex + k && a.prevLogIndex == c.snapshotIndex + at
    ensures var r, s := AppendEntries(f, a).1, AppendEntries(c, a).1;
            r.term == s.term && r.success == s.success && r.xTerm == s.xTerm && r.xLen == s.xLen
  {
    assert |c.log| == |f.log| - k;
    assert at < |c.log| ==> c.log[at].term == f.log[k + at].term;
  }

  lemma AcknowledgeSame(f: Node, c: Node, peers: nat, peer: nat, a: AppendArgs, r: AppendReply)
    requires Compacted(f, c, peers) && peer < peers
    ensures Compacted(HandleAppendReply(f, peer, a, r), HandleAppendReply(c, peer, a, r), peers)
  {
  }

  lemma {:induction false} MatchesSame(a: seq<nat>, b: seq<nat>, floor: nat, me: nat, k: nat, upTo: nat)
    requires upTo <= |a| == |b| && k > floor
    requires forall i :: 0 <= i < |a| ==> Max(a[i], floor) == Max(b[i], floor)
    ensures CountMatches(a, me, k, upTo) == CountMatches(b, me, k, upTo)
  {
    if upTo > 0 {
      MatchesSame(a, b, floor, me, k, upTo - 1);
    }
  }

  lemma {:induction false} ScanSame(f: Node, c: Node, me: nat, peers: nat, k: int)
    requires Compacted(f, c, peers) && f.role.Leader? && k < f.snapshotIndex + |f.log|
    ensures ScanCommit(f, me, peers, k) == ScanCommit(c, me, peers, k)
    decreases k
  {
    if k > f.commitIndex {
      MatchesSame(f.matchIndex, c.matchIndex, c.snapshotIndex, me, k, peers);
      ScanSame(f, c, me, peers, k - 1);
    }
  }

  lemma CommitSame(f: Node, c: Node, me: nat, peers: nat)
    requires Compacted(f, c, peers)
    ensures Compacted(UpdateCommitIndex(f, me, peers), UpdateCommitIndex(c, me, peers), peers)
  {
    if f.role == Leader {
      ScanSame(f, c, me, peers, LastIndex(f));
    }
  }

  lemma {:induction false} DeliveriesSame(f: Node, c: Node, peers: nat, applied: nat, upTo: nat)
    requires Compacted(f, c, peers) && c.snapshotIndex <= applied
    ensures Deliveries(f, applied, upTo) == Deliveries(c, applied, upTo)
    decreases upTo - applied
  {
    if applied < upTo {
      DeliveriesSame(f, c, peers, applied + 1, upTo);
    }
  }

  lemma ApplySame(f: Node, c: Node, peers: nat)
    requires Compacted(f, c, peers)
    ensures Compacted(ApplyCommitted(f).0, ApplyCommitted(c).0, peers) && ApplyCommitted(f).1 == ApplyCommitted(c).1
  {
    DeliveriesSame(f, c, peers, f.lastApplied, f.commitIndex);
  }

  lemma CompactSame(f: Node, c: Node, me: nat, peers: nat, index: nat, data: seq<Command>)
    requires Compacted(f, c, peers) && index <= c.lastApplied && index <= c.commitIndex
    ensures Compacted(f, Snapshot(c, me, index, data), peers)
  {
    if index > c.snapshotIndex && index - c.snapshotIndex < |c.log| {
      assert c.log[index - c.snapshotIndex + 1..] == f.log[index - f.snapshotIndex + 1..];
    }
  }

  lemma EventSame(f: Node, c: Node, me: nat, peers: nat, e: Event)
    requires Compacted(f, c, peers) && Possible(c, me, peers, e)
    ensures !e.Compact? ==> Possible(f, me, peers, e)
    ensures Compacted(DoWhole(f, me, peers, e).0, Do(c, me, peers, e).0, peers)
    ensures DoWhole(f, me, peers, e).1 == Do(c, me, peers, e).1
  {
    LastTermSame(f, c, peers);
    match e {
      case Stand =>
      case Vote(a) => VoteSame(f, c, peers, a);
      case Count(askedIn, r) => CountSame(f, c, me, peers, askedIn, r);
      case Propose(command) => ProposeSame(f, c, peers, command);
      case Append(a) =>
        AppendNodeSame(f, c, peers, a);
        AppendReplySame(f, c, peers, a);
      case Acknowledge(peer, a, r) => AcknowledgeSame(f, c, peers, peer, a, r);
      case Commit => CommitSame(f, c, me, peers);
      case Apply => ApplySame(f, c, peers);
      case Compact(index, data) => CompactSame(f, c, me, peers, index, data);
    }
  }

  // ----- any number of events

  ghost predicate AllPossible(n: Node, me: nat, peers: nat, es: seq<Event>)
    decreases |es|
  {
    es == [] || (Possible(n, me, peers, es[0]) && AllPossible(Do(n, me, peers, es[0]).0, me, peers, es[1..]))
  }

  ghost function Outputs(n: Node, me: nat, peers: nat, es: seq<Event>): seq<Output>
    requires AllPossible(n, me, peers, es)
    decreases |es|
  {
    if es == [] then [] else [Do(n, me, peers, es[0]).1] + Outputs(Do(n, me, peers, es[0]).0, me, peers, es[1..])
  }

  ghost predicate AllPossibleWhole(n: Node, me: nat, peers: nat, es: seq<Event>)
    decreases |es|
  {
    es == [] || ((!es[0].Compact? ==> Possible(n, me, peers, es[0])) &&
                 AllPossibleWhole(DoWhole(n, me, peers, es[0]).0, me, peers, es[1..]))
  }

  ghost function OutputsWhole(n: Node, me: nat, peers: nat, es: seq<Event>): seq<Output>
    requires AllPossibleWhole(n, me, peers, es)
    decreases |es|
  {
    if es == [] then []
    else [DoWhole(n, me, peers, es[0]).1] + OutputsWhole(DoWhole(n, me, peers, es[0]).0, me, peers, es[1..])
  }

  /** Section 7: whatever happens to a server, and whenever it takes snapshots, what it does cannot be told
      from what it would do with its whole log. */
  lemma {:induction false} CompactionIsInvisible(f: Node, c: Node, me: nat, peers: nat, es: seq<Event>)
    requires Compacted(f, c, peers) && AllPossible(c, me, peers, es)
    ensures AllPossibleWhole(f, me, peers, es)
    ensures OutputsWhole(f, me, peers, es) == Outputs(c, me, peers, es)
    decreases |es|
  {
    if es != [] {
      EventSame(f, c, me, peers, es[0]);
      CompactionIsInvisible(DoWhole(f, me, peers, es[0]).0, Do(c, me, peers, es[0]).0, me, peers, es[1..]);
    }
  }

  // ----- messages, hints, repeated snapshots, restarts

  function TermBefore(log: seq<Entry>, p: nat): nat
    requires p >= 1
  {
    if p - 1 < |log| then log[p - 1].term else 0
  }

  function EntriesFrom(log: seq<Entry>, p: nat): seq<Entry> {
    if p < |log| then log[p..] else []
  }

  /** Above the cut the two logs are the same. */
  lemma TailSame(f: seq<Entry>, c: seq<Entry>, k: nat, p: nat, q: nat)
    requires k < |f| && c == CutAt(f, k) && 1 <= p && q == k + p
    ensures TermBefore(c, p) == TermBefore(f, q) && EntriesFrom(c, p) == EntriesFrom(f, q)
  {
    if p < |c| {
      assert f[k + 1..][p - 1..] == f[q..];
    }
  }

  /** What BuildMessage makes of a peer that needs nothing of the snapshot. */
  lemma MessageAbove(n: Node, me: nat, srv: nat, leaderCommit: nat, p: nat)
    requires srv < |n.nextIndex| && n.nextIndex[srv] == n.snapshotIndex + p && 1 <= p
    ensures BuildMessage(n, me, srv, leaderCommit) ==
            SendAppend(AppendArgs(n.currentTerm, me, n.nextIndex[srv] - 1,
                                  TermBefore(n.log, p), EntriesFrom(n.log, p), leaderCommit))
  {
  }

  lemma SameTail(f: Node, c: Node, peers: nat, p: nat, q: nat)
    requires Compacted(f, c, peers) && 1 <= p && q == c.snapshotIndex - f.snapshotIndex + p
    ensures TermBefore(c.log, p) == TermBefore(f.log, q) && EntriesFrom(c.log, p) == EntriesFrom(f.log, q)
    ensures f.currentTerm == c.currentTerm
  {
    TailSame(f.log, c.log, c.snapshotIndex - f.snapshotIndex, p, q);
  }

  lemma SameMessage(f: Node, c: Node, me: nat, srv: nat, leaderCommit: nat, p: nat, q: nat)
    requires srv < |f.nextIndex| && srv < |c.nextIndex| && 1 <= p && 1 <= q && f.currentTerm == c.currentTerm
    requires c.nextIndex[srv] == c.snapshotIndex + p == f.nextIndex[srv] == f.snapshotIndex + q
    requires TermBefore(c.log, p) == TermBefore(f.log, q) && EntriesFrom(c.log, p) == EntriesFrom(f.log, q)
    ensures BuildMessage(f, me, srv, leaderCommit) == BuildMessage(c, me, srv, leaderCommit)
    ensures BuildMessage(c, me, srv, leaderCommit).SendAppend?
  {
    MessageAbove(c, me, srv, leaderCommit, p);
    MessageAbove(f, me, srv, leaderCommit, q);
  }

  /** The leader sends the same entries, with or without its snapshot, to a peer that needs none of it. */
  lemma MessageSame(f: Node, c: Node, me: nat, peers: nat, srv: nat, leaderCommit: nat)
    requires Compacted(f, c, peers) && srv < |f.nextIndex| && srv < |c.nextIndex|
    requires f.nextIndex[srv] == c.nextIndex[srv] > c.snapshotIndex
    ensures BuildMessage(f, me, srv, leaderCommit) == BuildMessage(c, me, srv, leaderCommit)
    ensures BuildMessage(c, me, srv, leaderCommit).SendAppend?
  {
    var p, q := c.nextIndex[srv] - c.snapshotIndex, c.nextIndex[srv] - f.snapshotIndex;
    SameTail(f, c, peers, p, q);
    SameMessage(f, c, me, srv, leaderCommit, p, q);
  }

  /** The scan on the two logs: it finds the same start, unless it gets down to the snapshot. */
  lemma ScansMatch(f: seq<Entry>, c: seq<Entry>, k: nat, at: nat, q: nat)
    requires k < |f| && c == CutAt(f, k) && at < |c| && q == k + at
    ensures c[at].term == f[q].term
    ensures !OneTerm(c, at) ==> RunStart(f, q) == k + RunStart(c, at)
    ensures OneTerm(c, at) ==> RunStart(c, at) == at
    ensures OneTerm(c, at) && !OneTerm(f, q) ==> RunStart(f, q) <= k
    ensures OneTerm(f, q) ==> RunStart(f, q) == q
  {
    RunFinds(c, at, at);
    RunFinds(f, q, q);
    TermsCut(f, c, k);
    if !OneTerm(c, at) {
      var s := RunStart(c, at);
      assert c[s - 1].term == f[k + (s - 1)].term && c[at].term == f[q].term;
      assert forall i :: k + s <= i <= q ==> f[i].term == c[i - k].term;
    } else if !OneTerm(f, q) {
      assert forall j :: k <= j <= q ==> f[j].term == c[j - k].term;
    }
  }

  lemma TermsCut(f: seq<Entry>, c: seq<Entry>, k: nat)
    requires k < |f| && c == CutAt(f, k)
    ensures |c| == |f| - k && forall i :: 0 <= i < |c| ==> c[i].term == f[k + i].term
  {
  }

  /** The server refuses over a conflict at position `at`. */
  ghost predicate Conflicts(n: Node, a: AppendArgs, at: nat) {
    n.currentTerm <= a.term && at < |n.log| && n.log[at].term != a.prevLogTerm
  }

  /** A refusal over a conflict points to where the run of the conflicting term begins. */
  lemma HintOf(n: Node, a: AppendArgs, at: nat)
    requires n.snapshotIndex + at == a.prevLogIndex && Conflicts(n, a, at)
    ensures AppendEntries(n, a).1.xIndex == n.snapshotIndex + RunStart(n.log, at)
  {
  }

  /** Everything below a conflict has the conflicting term. */
  ghost predicate ScansDown(n: Node, a: AppendArgs, at: nat) {
    Conflicts(n, a, at) && OneTerm(n.log, at)
  }

  /** The back-off hint is the same with and without the snapshot, unless the run of the conflicting term
      reaches down to the snapshot: then the compacted server's hint is prevLogIndex itself.  That is a
      smaller step back than the other's exactly when the run begins somewhere in the whole log and before
      prevLogIndex. */
  lemma HintSame(f: Node, c: Node, peers: nat, a: AppendArgs, at: nat, q: nat)
    requires Compacted(f, c, peers) && a.prevLogIndex == c.snapshotIndex + at == f.snapshotIndex + q
    ensures var hint, whole := AppendEntries(c, a).1.xIndex, AppendEntries(f, a).1.xIndex;
            && (!ScansDown(c, a, at) ==> hint == whole)
            && (ScansDown(c, a, at) ==> hint == a.prevLogIndex)
            && (ScansDown(c, a, at) && !ScansDown(f, a, q) ==> whole <= c.snapshotIndex)
            && (hint == whole <==> !ScansDown(c, a, at) || ScansDown(f, a, q) || Begins(f.log, q, q))
  {
    HintCut(f, c, a, at, c.snapshotIndex - f.snapshotIndex, q);
  }

  lemma HintCut(f: Node, c: Node, a: AppendArgs, at: nat, k: nat, q: nat)
    requires k < |f.log| && c.log == CutAt(f.log, k) && c.currentTerm == f.currentTerm && q == k + at
    requires c.snapshotIndex == f.snapshotIndex + k && a.prevLogIndex == c.snapshotIndex + at == f.snapshotIndex + q
    ensures var hint, whole := AppendEntries(c, a).1.xIndex, AppendEntries(f, a).1.xIndex;
            && (!ScansDown(c, a, at) ==> hint == whole)
            && (ScansDown(c, a, at) ==> hint == a.prevLogIndex)
            && (ScansDown(c, a, at) && !ScansDown(f, a, q) ==> whole <= c.snapshotIndex)
            && (hint == whole <==> !ScansDown(c, a, at) || ScansDown(f, a, q) || Begins(f.log, q, q))
  {
    TermsCut(f.log, c.log, k);
    if Conflicts(c, a, at) {
      HintOf(c, a, at);
      HintOf(f, a, q);
      ScansMatch(f.log, c.log, k, at, q);
      RunFinds(f.log, q, q);
    } else {
      NoConflict(c, a, at);
      NoConflict(f, a, q);
    }
  }

  lemma NoConflict(n: Node, a: AppendArgs, at: nat)
    requires |n.log| > 0 && n.snapshotIndex + at == a.prevLogIndex && !Conflicts(n, a, at)
    ensures AppendEntries(n, a).1.xIndex == if n.currentTerm > a.term || at < |n.log| then 0 else -1
  {
  }

  /** An earlier snapshot leaves no trace in a later one. */
  lemma SnapshotsCompose(n: Node, me: nat, i: nat, first: seq<Command>, j: nat, second: seq<Command>)
    requires |n.log| > 0 && i < j && n.snapshotIndex < j < n.snapshotIndex + |n.log|
    ensures Snapshot(Snapshot(n, me, i, first), me, j, second) == Snapshot(n, me, j, second)
  {
    if i > n.snapshotIndex {
      var m := Snapshot(n, me, i, first);
      assert m.log[j - i + 1..] == n.log[j - n.snapshotIndex + 1..];
      assert RaiseNext(RaiseNext(n.nextIndex, me, i + 1), me, j + 1) == RaiseNext(n.nextIndex, me, j + 1);
      assert RaiseMatch(RaiseMatch(n.matchIndex, i), j) == RaiseMatch(n.matchIndex, j);
    }
  }

  /** After a restart the compacted server is where the whole one is once it has applied the snapshot's
      part of its log again. */
  lemma RestartSame(f: Node, c: Node, peers: nat)
    requires Compacted(f, c, peers) && Persisted(f) && Persisted(c)
    ensures Compacted(Boot(f.disk).(commitIndex := c.snapshotIndex, lastApplied := c.snapshotIndex),
                      Boot(c.disk), peers)
  {
  }

  // ----- installing

  /** The log holds `prefix` wherever the two have the same term, as logs made by leaders do. */
  ghost predicate Matching(n: Node, prefix: seq<Entry>) {
    forall x, y {:trigger prefix[x], prefix[y]} |
      n.snapshotIndex <= x <= y < n.snapshotIndex + |n.log| && y < |prefix| ::
      n.log[y - n.snapshotIndex].term == prefix[y].term ==> n.log[x - n.snapshotIndex].term == prefix[x].term
  }

  /** The rest of the sender's log up to the snapshot, as one message. */
  function AsAppend(n: Node, a: InstallArgs, prefix: seq<Entry>): AppendArgs
    requires n.snapshotIndex < |prefix|
  {
    AppendArgs(a.term, a.leader, n.snapshotIndex, prefix[n.snapshotIndex].term, prefix[n.snapshotIndex + 1..],
        a.lastIncludedIndex)
  }

  /** Appending what is there already changes nothing. */
  lemma {:induction false} MergeNothing(log: seq<Entry>, at: nat, entries: seq<Entry>)
    requires at + |entries| <= |log| && forall i :: 0 <= i < |entries| ==> log[at..][i].term == entries[i].term
    ensures Merge(log, at, entries) == log
    decreases |entries|
  {
    if entries != [] {
      assert log[at..][0].term == entries[0].term;
      forall i | 0 <= i < |entries[1..]| ensures log[at + 1..][i].term == entries[1..][i].term {
        assert log[at..][i + 1].term == entries[i + 1].term;
      }
      MergeNothing(log, at + 1, entries[1..]);
    }
  }

  /** A conflict cuts off everything that is not in the message. */
  lemma {:induction false} MergeCuts(log: seq<Entry>, at: nat, entries: seq<Entry>, k: nat)
    requires at <= |log| && k < |entries| && at + k < |log| && log[at + k].term != entries[k].term
    ensures |Merge(log, at, entries)| == at + |entries|
    decreases |entries|
  {
    if log[at].term != entries[0].term {
      MergeReaches(log[..at] + [entries[0]], at + 1, entries[1..]);
    } else {
      MergeCuts(log, at + 1, entries[1..], k - 1);
    }
  }

  lemma {:induction false} MergeReaches(log: seq<Entry>, at: nat, entries: seq<Entry>)
    requires at <= |log| <= at + |entries|
    ensures |Merge(log, at, entries)| == at + |entries|
    decreases |entries|
  {
    if entries != [] {
      var e := entries[0];
      var next := if at >= |log| then log + [e] else if log[at].term != e.term then log[..at] + [e] else log;
      MergeReaches(next, at + 1, entries[1..]);
    }
  }

  /** The last entry of the message is in place afterwards. */
  lemma {:induction false} MergeEnds(log: seq<Entry>, at: nat, entries: seq<Entry>)
    requires at <= |log| && entries != []
    ensures Merge(log, at, entries)[at + |entries| - 1].term == entries[|entries| - 1].term
    decreases |entries|
  {
    var e := entries[0];
    var next := if at >= |log| then log + [e] else if log[at].term != e.term then log[..at] + [e] else log;
    if |entries| == 1 {
      assert Merge(next, at + 1, entries[1..])[..at + 1][at] == next[..at + 1][at];
    } else {
      MergeEnds(next, at + 1, entries[1..]);
    }
  }

  /** The part of the log that installing keeps is what appending leaves, or a conflicting suffix. */
  lemma SuffixKept(log: seq<Entry>, entries: seq<Entry>, k: nat)
    requires |log| > 0 && k == |entries| > 0
    requires |log| > k && log[k].term == entries[k - 1].term ==>
               forall i :: 0 <= i < k ==> log[1..][i].term == entries[i].term
    ensures |Merge(log, 1, entries)| >= k + 1
    ensures Merge(log, 1, entries)[k + 1..] == EntriesFrom(log, k + 1) <==>
              (|log| <= k + 1 || log[k].term == entries[k - 1].term)
  {
    if |log| <= k + 1 {
      MergeReaches(log, 1, entries);
    } else if log[k].term == entries[k - 1].term {
      MergeNothing(log, 1, entries);
    } else {
      MergeCuts(log, 1, entries, k - 1);
    }
  }

  /** A server whose log is `suffix` above a snapshot. */
  function WithSnapshot(o: Node, a: InstallArgs, suffix: seq<Entry>): Node {
    PersistWithSnapshot(
      o.(snapshotIndex := a.lastIncludedIndex, snapshotTerm := a.lastIncludedTerm,
         commitIndex := Max(o.commitIndex, a.lastIncludedIndex), lastApplied := Max(o.lastApplied, a.lastIncludedIndex),
         log := [Entry(a.lastIncludedTerm, Nil)] + suffix), a.data)
  }

  lemma WithSuffix(o: Node, a: InstallArgs, x: seq<Entry>, y: seq<Entry>)
    ensures WithSnapshot(o, a, x) == WithSnapshot(o, a, y) <==> x == y
  {
    assert WithSnapshot(o, a, x).log[1..] == x && WithSnapshot(o, a, y).log[1..] == y;
  }

  lemma AppendedThenTaken(o: Node, a: InstallArgs, s: AppendArgs, me: nat)
    requires |o.log| > 0 && o.role.Follower? && a.lastIncludedIndex > o.snapshotIndex
    requires s.prevLogIndex == o.snapshotIndex && s.leaderCommit == a.lastIncludedIndex
    requires |s.entries| == a.lastIncludedIndex - o.snapshotIndex
    requires s.entries[|s.entries| - 1].term == a.lastIncludedTerm
    ensures Snapshot(Accept(o, s), me, a.lastIncludedIndex, a.data) ==
            WithSnapshot(o, a, Merge(o.log, 1, s.entries)[|s.entries| + 1..])
  {
    MergeEnds(o.log, 1, s.entries);
  }

  lemma InstallKeeps(o: Node, a: InstallArgs, k: nat)
    requires k >= 1 && a.lastIncludedIndex == o.snapshotIndex + k
    ensures Install(o, a) == WithSnapshot(o, a, EntriesFrom(o.log, k + 1))
  {
  }

  /** Log matching, read off the entries of the message. */
  lemma MatchesBelow(o: Node, prefix: seq<Entry>, entries: seq<Entry>, k: nat)
    requires Matching(o, prefix) && 1 <= k < |o.log| && |prefix| == o.snapshotIndex + k + 1
    requires entries == prefix[o.snapshotIndex + 1..] && o.log[k].term == prefix[o.snapshotIndex + k].term
    ensures forall i :: 0 <= i < k ==> o.log[1..][i].term == entries[i].term
  {
    forall i | 0 <= i < k ensures o.log[1..][i].term == entries[i].term {
      assert entries[i] == prefix[o.snapshotIndex + 1 + i];
    }
  }

  lemma InstallAsAppend(o: Node, a: InstallArgs, prefix: seq<Entry>, me: nat)
    requires |o.log| > 0 && o.role.Follower? && a.lastIncludedIndex > o.snapshotIndex
    requires |prefix| == a.lastIncludedIndex + 1 && prefix[a.lastIncludedIndex].term == a.lastIncludedTerm
    requires Matching(o, prefix)
    ensures Install(o, a) == Snapshot(Accept(o, AsAppend(o, a, prefix)), me, a.lastIncludedIndex, a.data) <==>
            (LastIndex(o) <= a.lastIncludedIndex ||
                o.log[a.lastIncludedIndex - o.snapshotIndex].term == a.lastIncludedTerm)
  {
    var k, entries := a.lastIncludedIndex - o.snapshotIndex, prefix[o.snapshotIndex + 1..];
    assert |entries| == k && entries[k - 1] == prefix[a.lastIncludedIndex];
    if |o.log| > k && o.log[k].term == a.lastIncludedTerm {
      MatchesBelow(o, prefix, entries, k);
    }
    SuffixKept(o.log, entries, k);
    AppendedThenTaken(o, a, AsAppend(o, a, prefix), me);
    InstallKeeps(o, a, k);
    WithSuffix(o, a, EntriesFrom(o.log, k + 1), Merge(o.log, 1, entries)[k + 1..]);
  }

  lemma InstallCase(n: Node, a: InstallArgs)
    requires |n.log| > 0 && n.currentTerm <= a.term && a.lastIncludedIndex > n.snapshotIndex
    ensures var o := Heard(n, a.term);
            && o.log == n.log && o.snapshotIndex == n.snapshotIndex && o.role.Follower?
            && InstallSnapshot(n, a).node == Install(o, a)
  {
  }

  /** Section 7: installing a snapshot is the same as appending the leader's whole log up to there and then
      taking the snapshot, exactly when the server's own log ends there, or has the snapshot's term there;
      otherwise a suffix that conflicts with the snapshot is kept. */
  lemma InstallIsAppend(n: Node, a: InstallArgs, prefix: seq<Entry>, me: nat)
    requires |n.log| > 0 && n.currentTerm <= a.term && a.lastIncludedIndex > n.snapshotIndex
    requires |prefix| == a.lastIncludedIndex + 1 && prefix[a.lastIncludedIndex].term == a.lastIncludedTerm
    requires prefix[n.snapshotIndex].term == n.log[0].term && Matching(n, prefix)
    ensures AppendEntries(n, AsAppend(n, a, prefix)).1.success
    ensures InstallSnapshot(n, a).node ==
            Snapshot(AppendEntries(n, AsAppend(n, a, prefix)).0, me, a.lastIncludedIndex, a.data) <==>
            (LastIndex(n) <= a.lastIncludedIndex ||
                n.log[a.lastIncludedIndex - n.snapshotIndex].term == a.lastIncludedTerm)
  {
    var s, o := AsAppend(n, a, prefix), Heard(n, a.term);
    InstallCase(n, a);
    MeetsAtSnapshot(n, s);
    SameMatching(n, o, prefix);
    assert AsAppend(o, a, prefix) == s && AppendEntries(n, s).0 == Accept(o, s);
    InstallAsAppend(o, a, prefix, me);
  }

  lemma MeetsAtSnapshot(n: Node, s: AppendArgs)
    requires |n.log| > 0 && n.currentTerm <= s.term
    requires s.prevLogIndex == n.snapshotIndex && s.prevLogTerm == n.log[0].term
    ensures AppendEntries(n, s).1.success && AppendEntries(n, s).0 == Accept(Heard(n, s.term), s)
  {
    AppendCases(n, s);
  }

  lemma SameMatching(n: Node, o: Node, prefix: seq<Entry>)
    requires Matching(n, prefix) && o.log == n.log && o.snapshotIndex == n.snapshotIndex
    ensures Matching(o, prefix)
  {
  }
}
