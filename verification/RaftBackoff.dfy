/** The exchange between a leader and one follower, with or without snapshots on either side: how often the follower
    can refuse before the leader has found the point up to which their logs agree, and what the follower holds then. */
module RaftBackoff {
  import opened RaftNode
  import opened RaftSystem
  import opened RaftHistory
  import opened RaftInvariant
  import opened RaftLeadership
  import opened RaftReplication
  import opened RaftRules
  import opened RaftSafety
  import opened RaftTheorems
  import opened Sets

  // ----- the runs of equal terms in a log

  /** How often the term changes up to position k. */
  function Runs(log: seq<Entry>, k: nat): nat
    requires k < |log|
  {
    if k == 0 then 0 else Runs(log, k - 1) + if log[k].term != log[k - 1].term then 1 else 0
  }

  /** How many entries up to position k, from the dummy on, have the dummy's term. */
  function Lead(log: seq<Entry>, k: nat): (lead: nat)
    requires k < |log|
    ensures lead <= k
  {
    if k == 0 then 0
    else if Lead(log, k - 1) == k - 1 && log[k].term == log[0].term then k else Lead(log, k - 1)
  }

  /** Above the dummy. */
  ghost predicate NeverDrops(log: seq<Entry>) {
    forall i, j :: 1 <= i <= j < |log| ==> log[i].term <= log[j].term
  }

  ghost function Terms(log: seq<Entry>, k: nat): set<nat>
    requires k < |log|
  {
    set i | 1 <= i <= k :: log[i].term
  }

  lemma {:induction false} RunsAreTerms(log: seq<Entry>, k: nat)
    requires NeverDrops(log) && k < |log|
    ensures Runs(log, k) <= |Terms(log, k)|
  {
    if k > 0 {
      RunsAreTerms(log, k - 1);
      assert Terms(log, k) == Terms(log, k - 1) + {log[k].term};
      if log[k].term == log[k - 1].term {
        SubsetSize(Terms(log, k - 1), Terms(log, k));
      } else if k > 1 {
        assert forall i :: 1 <= i <= k - 1 ==> log[i].term <= log[k - 1].term;
        assert log[k].term !in Terms(log, k - 1);
      }
    }
  }

  lemma {:induction false} RunsGrow(log: seq<Entry>, j: nat, k: nat)
    requires j <= k < |log|
    ensures Runs(log, j) <= Runs(log, k) && Lead(log, j) <= Lead(log, k)
  {
    if j < k {
      RunsGrow(log, j, k - 1);
    }
  }

  lemma {:induction false} LeadIs(log: seq<Entry>, k: nat)
    requires k < |log| && forall i :: 0 <= i <= k ==> log[i].term == log[0].term
    ensures Lead(log, k) == k
  {
    if k > 0 {
      LeadIs(log, k - 1);
    }
  }

  lemma {:induction false} NoLead(log: seq<Entry>, k: nat)
    requires k < |log| && forall i :: 1 <= i <= k ==> log[i].term != log[0].term
    ensures Lead(log, k) == 0
  {
    if k > 0 {
      NoLead(log, k - 1);
    }
  }

  /** How many refusals it takes at most from position k down. */
  function Cost(log: seq<Entry>, k: nat): nat
    requires k < |log|
  {
    Runs(log, k) + Lead(log, k)
  }

  /** A refusal at position k moves the leader below a whole run of one term; or one position down, within the run
      that reaches down to the snapshot. */
  lemma CostFalls(log: seq<Entry>, k: nat)
    requires 1 <= k < |log|
    ensures var s := RunStart(log, k);
            && 1 <= s <= k && Cost(log, s - 1) < Cost(log, k)
            && (Begins(log, k, s) ==> Runs(log, s - 1) < Runs(log, k))
            && (Begins(log, k, s) || (s == k && OneTerm(log, k)))
  {
    RunFinds(log, k, k);
    var s := RunStart(log, k);
    RunsGrow(log, s, k);
    RunsGrow(log, s - 1, s);
    if OneTerm(log, k) {
      LeadIs(log, k);
      LeadIs(log, k - 1);
    }
  }

  // ----- the exchange

  ghost predicate Proper(log: seq<Entry>) {
    |log| > 0 && forall i :: 1 <= i < |log| ==> log[i].term >= 1
  }

  /** Log matching, as far as both show their entries. */
  ghost predicate Matched(l: Node, f: Node) {
    forall x, y {:trigger EntryAt(l, x), EntryAt(f, y)} ::
      Shows(l, x) && Shows(f, x) && EntryAt(l, x).term == EntryAt(f, x).term && y <= x && Shows(l, y) && Shows(f, y) ==>
        EntryAt(l, y) == EntryAt(f, y)
  }

  /** A leader and a follower whose term is not higher: a compacted leader has a snapshot to send, and its log covers
      what the follower's snapshot ends with, unless its own snapshot does. */
  ghost predicate Facing(l: Node, f: Node, srv: nat) {
    && l.role.Leader? && srv < |l.nextIndex| && srv < |l.matchIndex| && l.nextIndex[srv] >= 1
    && f.currentTerm <= l.currentTerm
    && Proper(l.log) && Proper(f.log) && Matched(l, f)
    && SnapshotOk(l) && l.log[0].term == l.snapshotTerm
    && (f.snapshotIndex >= l.snapshotIndex ==>
          f.snapshotIndex <= LastIndex(l) && EntryAt(l, f.snapshotIndex).term == f.log[0].term)
  }

  datatype Pair = Pair(leader: Node, follower: Node, accepted: bool)

  /** The message, the follower's handler and the leader's use of the answer. */
  ghost function Round(l: Node, f: Node, me: nat, srv: nat, leaderCommit: nat): Pair
    requires srv < |l.nextIndex| && srv < |l.matchIndex| && |f.log| > 0
  {
    match BuildMessage(l, me, srv, leaderCommit)
    case SendAppend(a) =>
      var (g, r) := AppendEntries(f, a);
      Pair(HandleAppendReply(l, srv, a, r), g, r.success)
    case SendInstall(a) =>
      var r := InstallSnapshot(f, a);
      Pair(HandleInstallReply(l, srv, a, r.reply), r.node, false)
  }

  lemma AppendShape(l: Node, f: Node, srv: nat, a: AppendArgs)
    requires srv < |l.nextIndex| && srv < |l.matchIndex| && |f.log| > 0
    ensures var (g, r) := AppendEntries(f, a);
            var m := HandleAppendReply(l, srv, a, r);
            |m.nextIndex| == |l.nextIndex| && |m.matchIndex| == |l.matchIndex| && |g.log| > 0
  {
    AnswerTeaches(l, srv, a, AppendEntries(f, a).1);
  }

  lemma InstallShape(l: Node, f: Node, srv: nat, a: InstallArgs)
    requires srv < |l.nextIndex| && srv < |l.matchIndex| && |f.log| > 0
    ensures var r := InstallSnapshot(f, a);
            var m := HandleInstallReply(l, srv, a, r.reply);
            |m.nextIndex| == |l.nextIndex| && |m.matchIndex| == |l.matchIndex| && |r.node.log| > 0
  {
  }

  lemma RoundShape(l: Node, f: Node, me: nat, srv: nat, leaderCommit: nat)
    requires srv < |l.nextIndex| && srv < |l.matchIndex| && |f.log| > 0
    ensures var p := Round(l, f, me, srv, leaderCommit);
            |p.leader.nextIndex| == |l.nextIndex| && |p.leader.matchIndex| == |l.matchIndex| && |p.follower.log| > 0
  {
    match BuildMessage(l, me, srv, leaderCommit) {
      case SendAppend(a) => AppendShape(l, f, srv, a);
      case SendInstall(a) => InstallShape(l, f, srv, a);
    }
  }

  /** After k rounds, or when the follower has accepted. */
  ghost function After(l: Node, f: Node, me: nat, srv: nat, leaderCommit: nat, k: nat): Pair
    requires srv < |l.nextIndex| && srv < |l.matchIndex| && |f.log| > 0
    decreases k
  {
    if k == 0 then Pair(l, f, false)
    else
      RoundShape(l, f, me, srv, leaderCommit);
      var p := Round(l, f, me, srv, leaderCommit);
      if p.accepted then p else After(p.leader, p.follower, me, srv, leaderCommit, k - 1)
  }

  /** The follower has not changed its log, except that it may have replaced the front by the leader's snapshot. */
  ghost predicate Untouched(l: Node, f: Node, g: Node) {
    && (g.snapshotIndex == f.snapshotIndex || f.snapshotIndex < g.snapshotIndex == l.snapshotIndex)
    && LastIndex(g) >= LastIndex(f)
    && forall x: nat :: Shows(g, x) ==> Shows(f, x) && EntryAt(g, x) == EntryAt(f, x)
  }

  ghost predicate Waiting(l: Node, f: Node, p: Pair, srv: nat) {
    !p.accepted && OnlyPeer(l, p.leader, srv) && Untouched(l, f, p.follower)
  }

  /** Above its own snapshot the follower holds everything that the leader shows. */
  ghost predicate Holds(g: Node, l: Node) {
    LastIndex(g) >= LastIndex(l) &&
    forall x: nat :: Shows(l, x) && x > g.snapshotIndex ==> Shows(g, x) && EntryAt(g, x) == EntryAt(l, x)
  }

  /** The follower has the leader's whole log and the leader knows it. */
  ghost predicate Done(l: Node, p: Pair, srv: nat) {
    && p.accepted && OnlyPeer(l, p.leader, srv) && srv < |p.leader.matchIndex|
    && p.leader.matchIndex[srv] >= LastIndex(l) && Holds(p.follower, l)
  }

  // ----- a snapshot

  /** What a leader learns from a snapshot that it sent in the term in which it leads: the peer has it, so that the next
      message starts right after it, unless a newer one was taken; a peer that had installed it accepts that
      message.  A peer with a higher term ends the leadership. */
  lemma SnapshotReaches(l: Node, f: Node, me: nat, srv: nat, a: InstallArgs, seen: Reading)
    requires |f.log| > 0 && srv < |l.nextIndex| && srv < |l.matchIndex|
    ensures var r := InstallSnapshot(f, a);
            var m, g := HandleInstallReply(l, srv, a, r.reply), r.node;
            if !l.role.Leader? || l.currentTerm != a.term then m == l
            else if f.currentTerm > a.term then SteppedDown(l, m, f.currentTerm)
            else
              && OnlyPeer(l, m, srv) && m.matchIndex[srv] == a.lastIncludedIndex
              && g.snapshotIndex == Max(f.snapshotIndex, a.lastIncludedIndex)
              && (seen.snapshotIndex <= a.lastIncludedIndex ==>
                    var next := BuildFrom(m, me, srv, seen);
                    && next.SendAppend? && next.append.prevLogIndex == a.lastIncludedIndex
                    && (l.snapshotIndex == a.lastIncludedIndex && |l.log| > 0 && l.log[0].term == a.lastIncludedTerm
                        && f.snapshotIndex < a.lastIncludedIndex ==>
                          next.append.entries == l.log[1..] && AppendEntries(g, next.append).1.success))
  {
    var r := InstallSnapshot(f, a);
    var m := HandleInstallReply(l, srv, a, r.reply);
    InstallsExactlyWhen(f, a);
    if l.role.Leader? && l.currentTerm == a.term >= f.currentTerm && seen.snapshotIndex <= a.lastIncludedIndex {
      MessageSays(m, me, srv, seen);
      var next := BuildFrom(m, me, srv, seen).append;
      if l.snapshotIndex == a.lastIncludedIndex && |l.log| > 0 {
        assert next.entries == l.log[1..];
        TakesExactlyWhen(r.node, next);
      }
    }
  }

  // ----- one round

  /** The message starts where the logs agree. */
  ghost predicate Taken(l: Node, f: Node, next: int) {
    && next > l.snapshotIndex && f.snapshotIndex <= next - 1 <= LastIndex(f) && next - 1 <= LastIndex(l)
    && EntryAt(l, next - 1).term == EntryAt(f, next - 1).term
  }

  lemma LeastMissing(log: seq<Entry>, at: nat, entries: seq<Entry>, i: nat) returns (j: nat)
    requires i < |entries| && !Held(log, at, entries, i)
    ensures FirstMissing(log, at, entries, j)
  {
    if k: nat :| k < i && !Held(log, at, entries, k) {
      j := LeastMissing(log, at, entries, k);
    } else {
      j := i;
    }
  }

  /** What is spliced in where the logs agree makes the follower hold everything. */
  lemma HoldsSpliced(l: Node, f: Node, g: Node, next: nat, at: nat, entries: seq<Entry>)
    requires Matched(l, f) && Taken(l, f, next) && at == next - f.snapshotIndex
    requires next + |entries| == LastIndex(l) + 1
    requires forall i :: 0 <= i < |entries| ==> entries[i] == EntryAt(l, next + i)
    requires g.snapshotIndex == f.snapshotIndex && Spliced(f.log, g.log, at, entries)
    ensures Holds(g, l)
  {
    if i: nat :| i < |entries| && !Held(f.log, at, entries, i) {
      var j := LeastMissing(f.log, at, entries, i);
      HoldsFrom(l, f, g, next, at, entries, j);
    } else {
      assert |entries| > 0 ==> Held(f.log, at, entries, |entries| - 1);
      HoldsFrom(l, f, g, next, at, entries, |entries|);
    }
  }

  lemma HoldsFrom(l: Node, f: Node, g: Node, next: nat, at: nat, entries: seq<Entry>, j: nat)
    requires Matched(l, f) && Taken(l, f, next) && at == next - f.snapshotIndex
    requires next + |entries| == LastIndex(l) + 1 && j <= |entries| && at + j <= |f.log|
    requires forall i :: 0 <= i < |entries| ==> entries[i] == EntryAt(l, next + i)
    requires forall i: nat :: i < j ==> Held(f.log, at, entries, i)
    requires g.snapshotIndex == f.snapshotIndex
    requires g.log == (if j == |entries| then f.log else f.log[..at + j] + entries[j..])
    ensures Holds(g, l)
  {
    forall x: nat | Shows(l, x) && x > g.snapshotIndex
      ensures Shows(g, x) && EntryAt(g, x) == EntryAt(l, x)
    {
      if x < next + j {
        if x >= next {
          assert Held(f.log, at, entries, x - next);
        }
        assert Shows(f, x) && EntryAt(g, x) == EntryAt(f, x);
        assert EntryAt(l, x) == EntryAt(f, x);
      } else {
        assert EntryAt(g, x) == entries[x - next];
      }
    }
  }

  lemma SendsRest(l: Node, me: nat, srv: nat, leaderCommit: nat) returns (a: AppendArgs)
    requires srv < |l.nextIndex| && l.snapshotIndex < l.nextIndex[srv] <= LastIndex(l) + 1
    ensures BuildMessage(l, me, srv, leaderCommit) == SendAppend(a)
    ensures a.term == l.currentTerm && a.prevLogIndex == l.nextIndex[srv] - 1
    ensures a.prevLogTerm == EntryAt(l, l.nextIndex[srv] - 1).term
    ensures l.nextIndex[srv] + |a.entries| == LastIndex(l) + 1
    ensures forall i :: 0 <= i < |a.entries| ==> a.entries[i] == EntryAt(l, l.nextIndex[srv] + i)
  {
    var seen := ReadingOf(l).(commitIndex := leaderCommit);
    MessageSays(l, me, srv, seen);
    a := BuildFrom(l, me, srv, seen).append;
  }

  lemma AppendRound(l: Node, f: Node, me: nat, srv: nat, leaderCommit: nat, a: AppendArgs)
    requires srv < |l.nextIndex| && srv < |l.matchIndex| && |f.log| > 0
    requires BuildMessage(l, me, srv, leaderCommit) == SendAppend(a)
    ensures var (g, r) := AppendEntries(f, a);
            Round(l, f, me, srv, leaderCommit) == Pair(HandleAppendReply(l, srv, a, r), g, r.success)
  {
  }

  /** Both sides of a message that is taken. */
  lemma Exchanged(l: Node, f: Node, srv: nat, a: AppendArgs)
    requires l.role.Leader? && srv < |l.nextIndex| && srv < |l.matchIndex| && |f.log| > 0
    requires a.term == l.currentTerm >= f.currentTerm && Fits(f, a)
    ensures var (g, r) := AppendEntries(f, a);
            var m := HandleAppendReply(l, srv, a, r);
            && r.success && g.snapshotIndex == f.snapshotIndex
            && Spliced(f.log, g.log, a.prevLogIndex - f.snapshotIndex + 1, a.entries)
            && OnlyPeer(l, m, srv) && m.matchIndex[srv] >= a.prevLogIndex + |a.entries|
  {
    TakesExactlyWhen(f, a);
    AnswerTeaches(l, srv, a, AppendEntries(f, a).1);
  }

  /** A message that starts where the logs agree. */
  lemma Accepts(l: Node, f: Node, me: nat, srv: nat, leaderCommit: nat)
    requires Facing(l, f, srv) && Taken(l, f, l.nextIndex[srv])
    ensures Done(l, Round(l, f, me, srv, leaderCommit), srv)
  {
    var a := SendsRest(l, me, srv, leaderCommit);
    AppendRound(l, f, me, srv, leaderCommit, a);
    Exchanged(l, f, srv, a);
    var (g, r) := AppendEntries(f, a);
    DoneWith(l, f, srv, a, g, HandleAppendReply(l, srv, a, r));
  }

  lemma DoneWith(l: Node, f: Node, srv: nat, a: AppendArgs, g: Node, m: Node)
    requires srv < |l.nextIndex| && Matched(l, f) && Taken(l, f, l.nextIndex[srv])
    requires a.prevLogIndex == l.nextIndex[srv] - 1 && l.nextIndex[srv] + |a.entries| == LastIndex(l) + 1
    requires forall i :: 0 <= i < |a.entries| ==> a.entries[i] == EntryAt(l, l.nextIndex[srv] + i)
    requires g.snapshotIndex == f.snapshotIndex
    requires Spliced(f.log, g.log, a.prevLogIndex - f.snapshotIndex + 1, a.entries)
    requires OnlyPeer(l, m, srv) && srv < |m.matchIndex| && m.matchIndex[srv] >= a.prevLogIndex + |a.entries|
    ensures Done(l, Pair(m, g, true), srv)
  {
    HoldsSpliced(l, f, g, l.nextIndex[srv], l.nextIndex[srv] - f.snapshotIndex, a.entries);
  }

  /** Where a refusal sends nextIndex. */
  function Backed(f: Node, next: nat): nat
    requires |f.log| > 0
  {
    if next <= f.snapshotIndex || next - 1 > LastIndex(f) then f.snapshotIndex + |f.log|
    else f.snapshotIndex + RunStart(f.log, next - 1 - f.snapshotIndex)
  }

  lemma AboveSnapshot(l: Node, f: Node, srv: nat)
    requires Facing(l, f, srv) && l.nextIndex[srv] > l.snapshotIndex && !Taken(l, f, l.nextIndex[srv])
    ensures f.snapshotIndex < l.nextIndex[srv] <= LastIndex(f) + 1 ==> l.nextIndex[srv] - 1 > f.snapshotIndex
  {
  }

  lemma HintIs(f: Node, a: AppendArgs, next: nat)
    requires |f.log| > 0 && f.currentTerm <= a.term && !Fits(f, a) && a.prevLogIndex == next - 1 >= 0
    requires f.snapshotIndex < next <= LastIndex(f) + 1 ==> next - 1 > f.snapshotIndex
    ensures var r := AppendEntries(f, a).1;
            (if r.xTerm == -1 then r.xLen else r.xIndex) == Backed(f, next) >= 1
  {
    RefusalSays(f, a);
    if f.snapshotIndex < next <= LastIndex(f) + 1 {
      CostFalls(f.log, next - 1 - f.snapshotIndex);
    }
  }

  /** Any other message with entries is refused, and sends nextIndex back. */
  lemma Refuses(l: Node, f: Node, me: nat, srv: nat, leaderCommit: nat)
    requires Facing(l, f, srv) && l.nextIndex[srv] > l.snapshotIndex && !Taken(l, f, l.nextIndex[srv])
    ensures var p, next := Round(l, f, me, srv, leaderCommit), l.nextIndex[srv];
            && (f.snapshotIndex < next <= LastIndex(f) + 1 ==> next - 1 > f.snapshotIndex)
            && !p.accepted && OnlyPeer(l, p.leader, srv) && p.leader.nextIndex[srv] == Backed(f, next)
            && p.follower.log == f.log && p.follower.snapshotIndex == f.snapshotIndex
            && p.follower.currentTerm <= l.currentTerm
  {
    var a := SendsEntries(l, me, srv, leaderCommit);
    AppendRound(l, f, me, srv, leaderCommit, a);
    AboveSnapshot(l, f, srv);
    assert !Fits(f, a);
    RefusedAnswer(l, f, srv, a);
    HintIs(f, a, l.nextIndex[srv]);
  }

  lemma SendsEntries(l: Node, me: nat, srv: nat, leaderCommit: nat) returns (a: AppendArgs)
    requires srv < |l.nextIndex| && l.nextIndex[srv] > l.snapshotIndex
    ensures BuildMessage(l, me, srv, leaderCommit) == SendAppend(a)
    ensures a.term == l.currentTerm && a.prevLogIndex == l.nextIndex[srv] - 1
    ensures a.prevLogTerm == if a.prevLogIndex <= LastIndex(l) then EntryAt(l, a.prevLogIndex).term else 0
  {
    var seen := ReadingOf(l).(commitIndex := leaderCommit);
    MessageSays(l, me, srv, seen);
    a := BuildFrom(l, me, srv, seen).append;
  }

  /** Both sides of a message that is refused. */
  lemma RefusedAnswer(l: Node, f: Node, srv: nat, a: AppendArgs)
    requires l.role.Leader? && srv < |l.nextIndex| && srv < |l.matchIndex| && |f.log| > 0
    requires a.term == l.currentTerm >= f.currentTerm && !Fits(f, a)
    ensures var (g, r) := AppendEntries(f, a);
            var m := HandleAppendReply(l, srv, a, r);
            var hint := if r.xTerm == -1 then r.xLen else r.xIndex;
            && !r.success && g.log == f.log && g.snapshotIndex == f.snapshotIndex && g.currentTerm == l.currentTerm
            && OnlyPeer(l, m, srv) && m.nextIndex[srv] == if hint < 1 then 1 else hint
  {
    TakesExactlyWhen(f, a);
    AnswerTeaches(l, srv, a, AppendEntries(f, a).1);
  }

  lemma FacingStays(l: Node, f: Node, m: Node, g: Node, srv: nat)
    requires Facing(l, f, srv) && OnlyPeer(l, m, srv) && m.nextIndex[srv] >= 1
    requires g.currentTerm <= l.currentTerm && |g.log| > 0 && Untouched(l, f, g)
    requires if g.snapshotIndex == f.snapshotIndex then g.log == f.log else g.log[0].term == l.snapshotTerm
    ensures Facing(m, g, srv)
  {
    forall i | 1 <= i < |g.log| ensures g.log[i].term >= 1 {
      var x := g.snapshotIndex + i;
      assert Shows(g, x) && EntryAt(g, x) == EntryAt(f, x) == f.log[x - f.snapshotIndex];
    }
    forall x, y {:trigger EntryAt(m, x), EntryAt(g, y)} | Shows(m, x) && Shows(g, x)
        && EntryAt(m, x).term == EntryAt(g, x).term && y <= x && Shows(m, y) && Shows(g, y)
      ensures EntryAt(m, y) == EntryAt(g, y)
    {
      assert EntryAt(l, x) == EntryAt(m, x) && EntryAt(l, y) == EntryAt(m, y);
      assert EntryAt(f, x) == EntryAt(g, x) && EntryAt(f, y) == EntryAt(g, y);
    }
  }

  lemma InstalledUntouched(l: Node, f: Node, g: Node, term: nat)
    requires |f.log| > 0 && f.snapshotIndex < l.snapshotIndex && CutTo(f, g, l.snapshotIndex, term)
    ensures Untouched(l, f, g)
  {
    forall x: nat | Shows(g, x) ensures Shows(f, x) && EntryAt(g, x) == EntryAt(f, x) {}
  }

  lemma Sends(l: Node, me: nat, srv: nat, leaderCommit: nat) returns (a: InstallArgs)
    requires srv < |l.nextIndex| && 1 <= l.nextIndex[srv] <= l.snapshotIndex && SnapshotOk(l)
    ensures BuildMessage(l, me, srv, leaderCommit) == SendInstall(a)
    ensures a.term == l.currentTerm && a.lastIncludedIndex == l.snapshotIndex && a.lastIncludedTerm == l.snapshotTerm
  {
    var seen := ReadingOf(l).(commitIndex := leaderCommit);
    MessageSays(l, me, srv, seen);
    a := BuildFrom(l, me, srv, seen).install;
  }

  /** A snapshot is sent if nextIndex is not above the leader's own; afterwards it is. */
  lemma Installs(l: Node, f: Node, me: nat, srv: nat, leaderCommit: nat)
    requires Facing(l, f, srv) && l.nextIndex[srv] <= l.snapshotIndex
    ensures var p := Round(l, f, me, srv, leaderCommit);
            && Waiting(l, f, p, srv) && Facing(p.leader, p.follower, srv)
            && p.leader.nextIndex[srv] == l.snapshotIndex + 1
            && p.follower.snapshotIndex == Max(f.snapshotIndex, l.snapshotIndex)
            && (f.snapshotIndex >= l.snapshotIndex ==> p.follower.log == f.log)
  {
    var a := Sends(l, me, srv, leaderCommit);
    InstallsExactlyWhen(f, a);
    var r := InstallSnapshot(f, a);
    var m, g := HandleInstallReply(l, srv, a, r.reply), r.node;
    assert Round(l, f, me, srv, leaderCommit) == Pair(m, g, false);
    if f.snapshotIndex < l.snapshotIndex {
      InstalledUntouched(l, f, g, l.snapshotTerm);
    }
    FacingStays(l, f, m, g, srv);
  }

  // ----- all rounds

  /** How many rounds pass at most before the follower accepts, when the leader's snapshot ends at `from`. */
  function Limit(from: nat, f: Node, next: nat): nat
    requires |f.log| > 0
  {
    var below := if f.snapshotIndex < from then 1 else 0;
    if next <= from then (if f.snapshotIndex > from then 2 + Cost(f.log, |f.log| - 1) else 1)
    else if next <= f.snapshotIndex || next - 1 > LastIndex(f) then 1 + Cost(f.log, |f.log| - 1) + below
    else Cost(f.log, next - 1 - f.snapshotIndex) + below
  }

  lemma LimitFalls(from: nat, f: Node, next: nat)
    requires |f.log| > 0 && next > from && (f.snapshotIndex < next <= LastIndex(f) + 1 ==> next - 1 > f.snapshotIndex)
    ensures Limit(from, f, Backed(f, next)) < Limit(from, f, next) && Backed(f, next) >= 1
  {
    if f.snapshotIndex < next && next - 1 <= LastIndex(f) {
      CostFalls(f.log, next - 1 - f.snapshotIndex);
    }
  }

  lemma NearerRefused(l: Node, f: Node, me: nat, srv: nat, leaderCommit: nat) returns (p: Pair)
    requires Facing(l, f, srv) && l.nextIndex[srv] > l.snapshotIndex && !Taken(l, f, l.nextIndex[srv])
    ensures p == Round(l, f, me, srv, leaderCommit)
    ensures Waiting(l, f, p, srv) && Facing(p.leader, p.follower, srv)
    ensures Limit(l.snapshotIndex, p.follower, p.leader.nextIndex[srv]) < Limit(l.snapshotIndex, f, l.nextIndex[srv])
    ensures p.leader.nextIndex[srv] == Backed(f, l.nextIndex[srv])
    ensures p.follower.log == f.log && p.follower.snapshotIndex == f.snapshotIndex
  {
    p := Round(l, f, me, srv, leaderCommit);
    Refuses(l, f, me, srv, leaderCommit);
    LimitFalls(l.snapshotIndex, f, l.nextIndex[srv]);
    SameLimit(l.snapshotIndex, f, p.follower, p.leader.nextIndex[srv]);
    FacingStays(l, f, p.leader, p.follower, srv);
  }

  /** As long as the logs do not meet where the message starts, a round brings the end nearer. */
  lemma NearerRound(l: Node, f: Node, me: nat, srv: nat, leaderCommit: nat) returns (p: Pair)
    requires Facing(l, f, srv) && !Taken(l, f, l.nextIndex[srv])
    ensures p == Round(l, f, me, srv, leaderCommit)
    ensures Waiting(l, f, p, srv) && Facing(p.leader, p.follower, srv)
    ensures Limit(l.snapshotIndex, p.follower, p.leader.nextIndex[srv]) < Limit(l.snapshotIndex, f, l.nextIndex[srv])
  {
    if l.nextIndex[srv] <= l.snapshotIndex {
      p := Round(l, f, me, srv, leaderCommit);
      Installs(l, f, me, srv, leaderCommit);
    } else {
      p := NearerRefused(l, f, me, srv, leaderCommit);
    }
  }

  lemma SameLimit(from: nat, f: Node, g: Node, next: nat)
    requires |f.log| > 0 && g.log == f.log && g.snapshotIndex == f.snapshotIndex
    ensures Limit(from, g, next) == Limit(from, f, next)
  {
  }

  lemma WaitingOn(l: Node, f: Node, p: Pair, q: Pair, srv: nat)
    requires Waiting(l, f, p, srv)
    ensures Waiting(p.leader, p.follower, q, srv) ==> Waiting(l, f, q, srv)
    ensures Done(p.leader, q, srv) ==> Done(l, q, srv)
  {
  }

  /** For k rounds nothing is accepted, and in the next the follower gets everything. */
  ghost predicate Ends(l: Node, f: Node, me: nat, srv: nat, leaderCommit: nat, k: nat)
    requires srv < |l.nextIndex| && srv < |l.matchIndex| && |f.log| > 0
    decreases k
  {
    RoundShape(l, f, me, srv, leaderCommit);
    var p := Round(l, f, me, srv, leaderCommit);
    if k == 0 then Done(l, p, srv)
    else Waiting(l, f, p, srv) && Ends(p.leader, p.follower, me, srv, leaderCommit, k - 1)
  }

  lemma {:induction false} EndsMeans(l: Node, f: Node, me: nat, srv: nat, leaderCommit: nat, k: nat)
    requires srv < |l.nextIndex| && srv < |l.matchIndex| && |f.log| > 0 && Ends(l, f, me, srv, leaderCommit, k)
    ensures forall i: nat {:trigger After(l, f, me, srv, leaderCommit, i)} :: i <= k ==>
              Waiting(l, f, After(l, f, me, srv, leaderCommit, i), srv)
    ensures Done(l, After(l, f, me, srv, leaderCommit, k + 1), srv)
    decreases k
  {
    var p := Round(l, f, me, srv, leaderCommit);
    if k > 0 {
      RoundShape(l, f, me, srv, leaderCommit);
      EndsMeans(p.leader, p.follower, me, srv, leaderCommit, k - 1);
      WaitingOn(l, f, p, After(p.leader, p.follower, me, srv, leaderCommit, k), srv);
      forall i: nat {:trigger After(l, f, me, srv, leaderCommit, i)} | i <= k
        ensures Waiting(l, f, After(l, f, me, srv, leaderCommit, i), srv)
      {
        if i > 0 {
          WaitingOn(l, f, p, After(p.leader, p.follower, me, srv, leaderCommit, i - 1), srv);
        }
      }
    }
  }

  lemma EndsNow(l: Node, f: Node, me: nat, srv: nat, leaderCommit: nat)
    requires Facing(l, f, srv) && Taken(l, f, l.nextIndex[srv])
    ensures Ends(l, f, me, srv, leaderCommit, 0)
  {
    Accepts(l, f, me, srv, leaderCommit);
  }

  lemma EndsLater(l: Node, f: Node, me: nat, srv: nat, leaderCommit: nat, p: Pair, k: nat)
    requires srv < |l.nextIndex| && srv < |l.matchIndex| && |f.log| > 0
    requires p == Round(l, f, me, srv, leaderCommit) && Waiting(l, f, p, srv)
    requires |p.follower.log| > 0 && Ends(p.leader, p.follower, me, srv, leaderCommit, k)
    ensures Ends(l, f, me, srv, leaderCommit, k + 1)
  {
  }

  lemma {:induction false} Converges(l: Node, f: Node, me: nat, srv: nat, leaderCommit: nat)
    requires Facing(l, f, srv)
    ensures exists k: nat ::
              k <= Limit(l.snapshotIndex, f, l.nextIndex[srv]) && Ends(l, f, me, srv, leaderCommit, k)
    decreases Limit(l.snapshotIndex, f, l.nextIndex[srv])
  {
    if Taken(l, f, l.nextIndex[srv]) {
      EndsNow(l, f, me, srv, leaderCommit);
    } else {
      var p := NearerRound(l, f, me, srv, leaderCommit);
      Converges(p.leader, p.follower, me, srv, leaderCommit);
      var rest: nat :| rest <= Limit(l.snapshotIndex, p.follower, p.leader.nextIndex[srv]) &&
          Ends(p.leader, p.follower, me, srv, leaderCommit, rest);
      EndsLater(l, f, me, srv, leaderCommit, p, rest);
    }
  }

  lemma LimitIs(from: nat, f: Node, next: nat)
    requires Proper(f.log) && NeverDrops(f.log) && next >= 1
    ensures Limit(from, f, next) <= 2 + |Terms(f.log, |f.log| - 1)| + Lead(f.log, |f.log| - 1)
    ensures from == f.snapshotIndex == 0 && f.log[0].term == 0 ==>
              Limit(from, f, next) <= 1 + |Terms(f.log, |f.log| - 1)|
  {
    RunsAreTerms(f.log, |f.log| - 1);
    LimitBelow(from, f, next);
    if f.log[0].term == 0 {
      NoLead(f.log, |f.log| - 1);
    }
  }

  lemma LimitBelow(from: nat, f: Node, next: nat)
    requires |f.log| > 0
    ensures Limit(from, f, next) <= 2 + Cost(f.log, |f.log| - 1)
    ensures from == f.snapshotIndex == 0 && next >= 1 ==> Limit(from, f, next) <= 1 + Cost(f.log, |f.log| - 1)
  {
    if f.snapshotIndex < next && next - 1 <= LastIndex(f) {
      RunsGrow(f.log, next - 1 - f.snapshotIndex, |f.log| - 1);
    }
  }

  /** Section 5.3, with snapshots: from any nextIndex, the follower takes no entries at most for two more messages than
      there are different terms in its log and entries in the run of the term of its snapshot, and does not change its
      log before it does, but for a snapshot at its front; then it holds the leader's whole log and the leader knows
      it.  Without snapshots it is one more than there are different terms. */
  lemma BackoffIsFast(l: Node, f: Node, me: nat, srv: nat, leaderCommit: nat) returns (k: nat)
    requires Facing(l, f, srv) && NeverDrops(f.log)
    ensures k <= 2 + |Terms(f.log, |f.log| - 1)| + Lead(f.log, |f.log| - 1)
    ensures l.snapshotIndex == f.snapshotIndex == 0 && f.log[0].term == 0 ==> k <= 1 + |Terms(f.log, |f.log| - 1)|
    ensures forall i: nat {:trigger After(l, f, me, srv, leaderCommit, i)} :: i <= k ==>
              Waiting(l, f, After(l, f, me, srv, leaderCommit, i), srv)
    ensures Done(l, After(l, f, me, srv, leaderCommit, k + 1), srv)
  {
    Converges(l, f, me, srv, leaderCommit);
    k :| k <= Limit(l.snapshotIndex, f, l.nextIndex[srv]) && Ends(l, f, me, srv, leaderCommit, k);
    EndsMeans(l, f, me, srv, leaderCommit, k);
    LimitIs(l.snapshotIndex, f, l.nextIndex[srv]);
  }

  /** The follower's entries from its snapshot up to index next - 1 all have the term in which the snapshot ends, and
      the leader has others. */
  ghost predicate LongConflict(l: Node, f: Node, next: nat) {
    && l.snapshotIndex <= f.snapshotIndex < next <= LastIndex(f) + 1 && next <= LastIndex(l) + 1
    && OneTerm(f.log, next - 1 - f.snapshotIndex)
    && forall x :: f.snapshotIndex < x < next ==> EntryAt(l, x).term != EntryAt(f, x).term
  }

  lemma LongConflictOn(l: Node, f: Node, m: Node, g: Node, srv: nat, next: nat)
    requires LongConflict(l, f, next) && next > f.snapshotIndex + 1 && OnlyPeer(l, m, srv)
    requires g.log == f.log && g.snapshotIndex == f.snapshotIndex
    ensures LongConflict(m, g, next - 1)
    ensures Backed(f, next) == next - 1
  {
    var k := next - 1 - f.snapshotIndex;
    CostFalls(f.log, k);
    assert RunStart(f.log, k) == k;
    assert OneTerm(f.log, k - 1);
    forall x | g.snapshotIndex < x < next - 1 ensures EntryAt(m, x).term != EntryAt(g, x).term {
      assert EntryAt(l, x).term != EntryAt(f, x).term;
    }
  }

  lemma OneDown(l: Node, f: Node, me: nat, srv: nat, leaderCommit: nat) returns (p: Pair)
    requires Facing(l, f, srv) && LongConflict(l, f, l.nextIndex[srv]) && l.nextIndex[srv] > f.snapshotIndex + 1
    ensures p == Round(l, f, me, srv, leaderCommit)
    ensures Waiting(l, f, p, srv) && Facing(p.leader, p.follower, srv)
    ensures p.leader.nextIndex[srv] == l.nextIndex[srv] - 1 && p.follower.snapshotIndex == f.snapshotIndex
    ensures LongConflict(p.leader, p.follower, p.leader.nextIndex[srv])
  {
    p := NearerRefused(l, f, me, srv, leaderCommit);
    LongConflictOn(l, f, p.leader, p.follower, srv, l.nextIndex[srv]);
  }

  lemma MeetsAtSnapshot(l: Node, f: Node, srv: nat)
    requires Facing(l, f, srv) && LongConflict(l, f, l.nextIndex[srv]) && l.nextIndex[srv] == f.snapshotIndex + 1
    ensures Taken(l, f, l.nextIndex[srv])
  {
  }

  lemma {:induction false} EndsOneByOne(l: Node, f: Node, me: nat, srv: nat, leaderCommit: nat)
    requires Facing(l, f, srv) && LongConflict(l, f, l.nextIndex[srv])
    ensures exists k: nat :: k == l.nextIndex[srv] - 1 - f.snapshotIndex && Ends(l, f, me, srv, leaderCommit, k)
    decreases l.nextIndex[srv]
  {
    if l.nextIndex[srv] == f.snapshotIndex + 1 {
      MeetsAtSnapshot(l, f, srv);
      EndsNow(l, f, me, srv, leaderCommit);
    } else {
      var p := OneDown(l, f, me, srv, leaderCommit);
      EndsOneByOne(p.leader, p.follower, me, srv, leaderCommit);
      var rest: nat :| rest == p.leader.nextIndex[srv] - 1 - p.follower.snapshotIndex &&
          Ends(p.leader, p.follower, me, srv, leaderCommit, rest);
      EndsLater(l, f, me, srv, leaderCommit, p, rest);
    }
  }

  /** The bound is met: in such a run of one term the leader goes back one index at a time, so that the follower refuses
      once for every entry of the run before it takes what the leader has. */
  lemma GoesBackOneByOne(l: Node, f: Node, me: nat, srv: nat, leaderCommit: nat) returns (k: nat)
    requires Facing(l, f, srv) && LongConflict(l, f, l.nextIndex[srv])
    ensures k == l.nextIndex[srv] - 1 - f.snapshotIndex
    ensures forall i: nat {:trigger After(l, f, me, srv, leaderCommit, i)} :: i <= k ==>
              Waiting(l, f, After(l, f, me, srv, leaderCommit, i), srv)
    ensures Done(l, After(l, f, me, srv, leaderCommit, k + 1), srv)
  {
    EndsOneByOne(l, f, me, srv, leaderCommit);
    k :| k == l.nextIndex[srv] - 1 - f.snapshotIndex && Ends(l, f, me, srv, leaderCommit, k);
    EndsMeans(l, f, me, srv, leaderCommit, k);
  }

  // ----- in a run

  lemma ShownTerms(h: History, n: Node, d: Shadow)
    requires HistoryOk(h) && LogsOk(h, n, d)
    ensures NeverDrops(n.log) && Proper(n.log)
  {
    forall i, j | 1 <= i <= j < |n.log|
      ensures 1 <= n.log[i].term <= n.log[j].term
    {
      var x, y := n.snapshotIndex + i, n.snapshotIndex + j;
      assert n.log[1..][i - 1] == d.full[x] && n.log[1..][j - 1] == d.full[y];
      var front := d.full[..y + 1];
      PrefixIsGood(h, front, d.full);
      LastTermBounds(h, front, x);
      assert GoodAt(h, d.full, x);
    }
  }

  lemma ShownMatched(h: History, l: Node, d: Shadow, f: Node, e: Shadow)
    requires HistoryOk(h) && LogsOk(h, l, d) && LogsOk(h, f, e)
    ensures Matched(l, f)
  {
    forall x, y {:trigger EntryAt(l, x), EntryAt(f, y)} | Shows(l, x) && Shows(f, x)
        && EntryAt(l, x).term == EntryAt(f, x).term && y <= x && Shows(l, y) && Shows(f, y)
      ensures EntryAt(l, y) == EntryAt(f, y)
    {
      LogsMatch(h, l, d, f, e, x, y);
    }
  }

  /** A leader has what any snapshot of its own or an earlier term ends with. */
  lemma LeaderCovers(h: History, me: nat, l: Node, d: Shadow, f: Node, e: Shadow)
    requires HistoryOk(h) && NodeOk(h, me, l, d) && LogsOk(h, f, e) && l.role.Leader?
    requires f.currentTerm <= l.currentTerm && f.snapshotIndex >= l.snapshotIndex
    ensures f.snapshotIndex <= LastIndex(l) && EntryAt(l, f.snapshotIndex).term == f.log[0].term
  {
    SettledInLeader(h, f.currentTerm, e.base, f.snapshotIndex + 1, l.currentTerm);
    CleanEntry(l, d, f.snapshotIndex);
  }

  lemma FacingFrom(h: History, me: nat, l: Node, d: Shadow, f: Node, e: Shadow, srv: nat)
    requires HistoryOk(h) && NodeOk(h, me, l, d) && LogsOk(h, f, e)
    requires l.role.Leader? && srv < h.peers && f.currentTerm <= l.currentTerm
    ensures Facing(l, f, srv) && NeverDrops(f.log)
  {
    ShownTerms(h, l, d);
    ShownTerms(h, f, e);
    ShownMatched(h, l, d, f, e);
    if f.snapshotIndex >= l.snapshotIndex {
      LeaderCovers(h, me, l, d, f, e);
    }
  }

  /** Either the bound applies, or the follower's first answer makes the leader step down and nothing else happens. */
  ghost predicate BoundedOrOutdated(l: Node, f: Node, me: nat, srv: nat, leaderCommit: nat) {
    && srv < |l.nextIndex| && srv < |l.matchIndex| && |f.log| > 0
    && if f.currentTerm <= l.currentTerm then Facing(l, f, srv) && NeverDrops(f.log)
       else
         var p := Round(l, f, me, srv, leaderCommit);
         !p.accepted && p.follower == f && SteppedDown(l, p.leader, f.currentTerm)
  }

  lemma AppendOutdated(l: Node, f: Node, srv: nat, a: AppendArgs)
    requires l.role.Leader? && srv < |l.nextIndex| && srv < |l.matchIndex| && |f.log| > 0
    requires a.term == l.currentTerm < f.currentTerm
    ensures var (g, r) := AppendEntries(f, a);
            !r.success && g == f && SteppedDown(l, HandleAppendReply(l, srv, a, r), f.currentTerm)
  {
    TakesExactlyWhen(f, a);
    AnswerTeaches(l, srv, a, AppendEntries(f, a).1);
  }

  lemma InstallOutdated(l: Node, f: Node, srv: nat, a: InstallArgs)
    requires l.role.Leader? && srv < |l.nextIndex| && srv < |l.matchIndex| && |f.log| > 0
    requires a.term == l.currentTerm < f.currentTerm
    ensures var r := InstallSnapshot(f, a);
            r.node == f && SteppedDown(l, HandleInstallReply(l, srv, a, r.reply), f.currentTerm)
  {
  }

  /** A follower whose term is higher changes nothing and makes the leader step down. */
  lemma Outdated(l: Node, f: Node, me: nat, srv: nat, leaderCommit: nat)
    requires l.role.Leader? && srv < |l.nextIndex| && srv < |l.matchIndex| && |f.log| > 0
    requires l.currentTerm < f.currentTerm
    ensures BoundedOrOutdated(l, f, me, srv, leaderCommit)
  {
    var seen := ReadingOf(l).(commitIndex := leaderCommit);
    MessageSays(l, me, srv, seen);
    match BuildMessage(l, me, srv, leaderCommit) {
      case SendAppend(a) => AppendOutdated(l, f, srv, a);
      case SendInstall(a) => InstallOutdated(l, f, srv, a);
    }
  }

  /** The bound holds for every leader and every follower that a run can lead to; a follower that has seen a higher term
      ends the exchange at once instead, because its first answer makes the leader step down. */
  lemma BackoffInRun(r: Run, peers: nat, i: nat, a: nat, b: nat, leaderCommit: nat)
    requires IsRun(r, peers) && Server(r, i, a) && Server(r, i, b)
    requires r.states[i].nodes[a].role.Leader? && a != b
    ensures BoundedOrOutdated(r.states[i].nodes[a], r.states[i].nodes[b], a, b, leaderCommit)
  {
    var gs := WitnessRun(r, peers, |r.states|);
    BoundedInState(r.states[i], gs[i], a, b, leaderCommit);
  }

  lemma BoundedInState(s: System, g: Ghost, a: nat, b: nat, leaderCommit: nat)
    requires SystemOk(s, g) && a < |s.nodes| && b < |s.nodes| && s.nodes[a].role.Leader?
    ensures BoundedOrOutdated(s.nodes[a], s.nodes[b], a, b, leaderCommit)
  {
    assert NodeOk(g.h, a, s.nodes[a], g.ds[a]) && NodeOk(g.h, b, s.nodes[b], g.ds[b]);
    if s.nodes[b].currentTerm <= s.nodes[a].currentTerm {
      FacingFrom(g.h, a, s.nodes[a], g.ds[a], s.nodes[b], g.ds[b], b);
    } else {
      Outdated(s.nodes[a], s.nodes[b], a, b, leaderCommit);
    }
  }
}
