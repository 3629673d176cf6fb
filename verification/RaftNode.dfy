/** One Raft server as a value: its volatile fields, what its persister holds, and what each
    lock-protected region of the server does to them.  The log is the compacted one: log[0] is a
    dummy that carries the term of the last snapshotted entry, and log[k] is the entry at index
    snapshotIndex + k. */
module RaftNode {

  datatype Command = Nil | Op(id: int)
  datatype Entry = Entry(term: nat, command: Command)
  datatype Role = Follower | Candidate | Leader

  /** The persister: the encoded Raft state and the service's snapshot.  A snapshot is the list of
      commands it stands for; it is empty exactly when the persister holds no snapshot bytes. */
  datatype Disk = Disk(currentTerm: nat, votedFor: int, log: seq<Entry>,
                       snapshotIndex: nat, snapshotTerm: nat, snapshot: seq<Command>)

  /** `votes` and `electionWon` are the counters that the goroutines of the latest election share. */
  datatype Node = Node(currentTerm: nat, votedFor: int, log: seq<Entry>,
                       commitIndex: nat, lastApplied: nat,
                       nextIndex: seq<nat>, matchIndex: seq<nat>,
                       role: Role, snapshotIndex: nat, snapshotTerm: nat,
                       votes: nat, electionWon: bool, disk: Disk)

  datatype VoteArgs = VoteArgs(term: nat, candidate: nat, lastLogIndex: int, lastLogTerm: nat)
  datatype VoteReply = VoteReply(term: nat, granted: bool)

  datatype AppendArgs = AppendArgs(term: nat, leader: nat, prevLogIndex: int, prevLogTerm: nat,
                                   entries: seq<Entry>, leaderCommit: nat)
  datatype AppendReply = AppendReply(term: nat, success: bool, xTerm: int, xIndex: int, xLen: int)

  datatype InstallArgs = InstallArgs(term: nat, leader: nat, lastIncludedIndex: nat,
                                     lastIncludedTerm: nat, data: seq<Command>)
  datatype InstallReply = InstallReply(term: nat)

  datatype Outgoing = SendAppend(append: AppendArgs) | SendInstall(install: InstallArgs)

  datatype ApplyMsg = ApplyCommand(index: nat, command: Command)
                    | ApplySnapshot(index: nat, term: nat, data: seq<Command>)

  const NOBODY: int := -1
  const DUMMY: Entry := Entry(0, Nil)

  ghost predicate WellFormed(n: Node, peers: nat) {
    && |n.log| > 0 && |n.disk.log| > 0
    && (n.role.Leader? ==> |n.nextIndex| == |n.matchIndex| == peers)
  }

  // ----- persistence

  function Persist(n: Node): Node {
    PersistWithSnapshot(n, n.disk.snapshot)
  }

  function PersistWithSnapshot(n: Node, data: seq<Command>): Node {
    n.(disk := Disk(n.currentTerm, n.votedFor, n.log, n.snapshotIndex, n.snapshotTerm, data))
  }

  const EMPTY_DISK: Disk := Disk(0, NOBODY, [DUMMY], 0, 0, [])

  /** A server that boots from a persister; EMPTY_DISK gives the very first boot. */
  function Boot(disk: Disk): Node {
    Node(disk.currentTerm, disk.votedFor, disk.log, disk.snapshotIndex, disk.snapshotIndex,
         [], [], Follower, disk.snapshotIndex, disk.snapshotTerm, 0, false, disk)
  }

  /** What is on disk is what is in memory. */
  ghost predicate Persisted(n: Node) {
    n.disk == Disk(n.currentTerm, n.votedFor, n.log, n.snapshotIndex, n.snapshotTerm, n.disk.snapshot)
  }

  /** A higher term was seen. */
  function StepDown(n: Node, term: nat): Node {
    Persist(n.(currentTerm := term, votedFor := NOBODY, role := Follower))
  }

  function Observe(n: Node, term: nat): Node {
    if term > n.currentTerm then StepDown(n, term) else n
  }

  function LastIndex(n: Node): int {
    n.snapshotIndex + |n.log| - 1
  }

  /** Index x, where the log covers it. */
  function EntryAt(n: Node, x: nat): Entry
    requires n.snapshotIndex <= x < n.snapshotIndex + |n.log|
  {
    n.log[x - n.snapshotIndex]
  }

  /** The index is above the snapshot and within the log. */
  ghost predicate Shows(n: Node, x: nat) {
    n.snapshotIndex < x < n.snapshotIndex + |n.log|
  }

  // ----- elections

  function StartElection(n: Node, me: nat): Node {
    Persist(n.(role := Candidate, currentTerm := n.currentTerm + 1, votedFor := me,
               votes := 1, electionWon := false))
  }

  function BallotRequest(n: Node, me: nat): VoteArgs
    requires |n.log| > 0
  {
    VoteArgs(n.currentTerm, me, LastIndex(n), n.log[|n.log| - 1].term)
  }

  function RequestVote(n: Node, a: VoteArgs): (Node, VoteReply)
    requires |n.log| > 0
  {
    if a.term < n.currentTerm then
      (n, VoteReply(n.currentTerm, false))
    else
      var o := Observe(n, a.term);
      var lastTerm := o.log[|o.log| - 1].term;
      var upToDate := a.lastLogTerm > lastTerm || (a.lastLogTerm == lastTerm && a.lastLogIndex >= LastIndex(o));
      if (o.votedFor == NOBODY || o.votedFor == a.candidate) && upToDate then
        (Persist(o.(votedFor := a.candidate, role := Follower)), VoteReply(n.currentTerm, true))
      else
        (o, VoteReply(n.currentTerm, false))
  }

  function BecomeLeader(n: Node, me: nat, peers: nat): Node
    requires me < peers && |n.log| > 0
  {
    n.(role := Leader, electionWon := true,
       nextIndex := seq(peers, _ => n.snapshotIndex + |n.log|),
       matchIndex := seq(peers, _ => n.snapshotIndex)[me := n.snapshotIndex + |n.log| - 1])
  }

  /** The candidate's goroutine gets the answer to a vote request it sent in `askedIn`. */
  function HandleVoteReply(n: Node, me: nat, peers: nat, askedIn: nat, r: VoteReply): Node
    requires me < peers && |n.log| > 0
  {
    if n.role != Candidate || n.currentTerm != askedIn then n
    else if r.term > n.currentTerm then StepDown(n, r.term)
    else if !r.granted then n
    else
      var c := n.(votes := n.votes + 1);
      if c.votes > peers / 2 && !c.electionWon then BecomeLeader(c, me, peers) else c
  }

  // ----- replication

  function Start(n: Node, command: Command): Node {
    if n.role != Leader then n else Persist(n.(log := n.log + [Entry(n.currentTerm, command)]))
  }

  /** What a heartbeat reads under its first lock. */
  datatype Reading = Reading(term: nat, commitIndex: nat, snapshotIndex: nat, snapshot: seq<Command>)

  function ReadingOf(n: Node): Reading {
    Reading(n.currentTerm, n.commitIndex, n.snapshotIndex, n.disk.snapshot)
  }

  /** The message that it builds for peer `srv` under a later lock. */
  function BuildFrom(n: Node, me: nat, srv: nat, seen: Reading): Outgoing
    requires srv < |n.nextIndex|
  {
    var next := n.nextIndex[srv];
    if next <= seen.snapshotIndex && |seen.snapshot| > 0 then
      SendInstall(InstallArgs(n.currentTerm, me, seen.snapshotIndex, n.snapshotTerm, seen.snapshot))
    else
      var at := next - 1 - n.snapshotIndex;
      var prevTerm := if 0 <= at < |n.log| then n.log[at].term else 0;
      var start := next - n.snapshotIndex;
      var entries := if 0 <= start < |n.log| then n.log[start..] else [];
      SendAppend(AppendArgs(n.currentTerm, me, next - 1, prevTerm, entries, seen.commitIndex))
  }

  /** The same in one step, but for `leaderCommit`, which was read from commitIndex earlier in the same term. */
  function BuildMessage(n: Node, me: nat, srv: nat, leaderCommit: nat): Outgoing
    requires srv < |n.nextIndex|
  {
    BuildFrom(n, me, srv, ReadingOf(n).(commitIndex := leaderCommit))
  }

  /** The follower's loop over the entries: append past the end, cut the log only at a conflict. */
  function Merge(log: seq<Entry>, at: nat, entries: seq<Entry>): (merged: seq<Entry>)
    requires at <= |log|
    ensures |merged| >= at + |entries| && merged[..at] == log[..at]
    decreases |entries|
  {
    if entries == [] then log
    else if at >= |log| then Merge(log + [entries[0]], at + 1, entries[1..])
    else if log[at].term != entries[0].term then Merge(log[..at] + [entries[0]], at + 1, entries[1..])
    else Merge(log, at + 1, entries[1..])
  }

  /** The back-off hint: where the run of equal terms that ends at position k begins.  When the whole
      log up to k has that term, the scan finds no start and k itself is returned. */
  function RunStart(log: seq<Entry>, k: nat): (start: nat)
    requires k < |log|
    ensures start <= k
  {
    RunStartFrom(log, k, k)
  }

  function RunStartFrom(log: seq<Entry>, k: nat, i: nat): (start: nat)
    requires i <= k < |log|
    ensures start <= k
  {
    if i == 0 then k
    else if log[i - 1].term != log[k].term then i
    else RunStartFrom(log, k, i - 1)
  }

  function Refusal(n: Node, replyTerm: nat): AppendReply {
    AppendReply(replyTerm, false, -1, -1, n.snapshotIndex + |n.log|)
  }

  function AppendEntries(n: Node, a: AppendArgs): (Node, AppendReply)
    requires |n.log| > 0
  {
    if a.term < n.currentTerm then
      (n, AppendReply(n.currentTerm, false, 0, 0, 0))
    else
      var o := Observe(n, a.term).(role := Follower);
      var at := a.prevLogIndex - o.snapshotIndex;
      if a.prevLogIndex < o.snapshotIndex || at >= |o.log| then
        (o, Refusal(o, n.currentTerm))
      else if o.log[at].term != a.prevLogTerm then
        var from := RunStart(o.log, at);
        var hint := if from == at then a.prevLogIndex else o.snapshotIndex + from;
        (o, AppendReply(n.currentTerm, false, o.log[at].term, hint, o.snapshotIndex + |o.log|))
      else
        (Accept(o, a), AppendReply(n.currentTerm, true, 0, 0, 0))
  }

  function Accept(o: Node, a: AppendArgs): Node
    requires 0 <= a.prevLogIndex - o.snapshotIndex < |o.log|
  {
    var m := o.(log := Merge(o.log, a.prevLogIndex - o.snapshotIndex + 1, a.entries));
    var p := if |a.entries| > 0 then Persist(m) else m;
    var lastNew := a.prevLogIndex + |a.entries|;
    if a.leaderCommit > p.commitIndex then
      p.(commitIndex := if lastNew < a.leaderCommit then lastNew else a.leaderCommit)
    else p
  }

  /** The leader's goroutine gets the answer to the AppendEntries call `a` it made to `srv`. */
  function HandleAppendReply(n: Node, srv: nat, a: AppendArgs, r: AppendReply): Node
    requires n.role.Leader? ==> srv < |n.nextIndex| && srv < |n.matchIndex|
  {
    if n.role != Leader || n.currentTerm != a.term then n
    else if r.success then
      var newMatch := a.prevLogIndex + |a.entries|;
      if newMatch > n.matchIndex[srv] then
        n.(matchIndex := n.matchIndex[srv := newMatch], nextIndex := n.nextIndex[srv := newMatch + 1])
      else n
    else if r.term > n.currentTerm then StepDown(n, r.term)
    else
      var hint := if r.xTerm == -1 then r.xLen else r.xIndex;
      n.(nextIndex := n.nextIndex[srv := if hint < 1 then 1 else hint])
  }

  // ----- commit and apply

  /** How many of the peers below `upTo`, other than `me`, are known to hold index k. */
  function CountMatches(matchIndex: seq<nat>, me: nat, k: nat, upTo: nat): (count: nat)
    requires upTo <= |matchIndex|
    ensures count <= upTo
  {
    if upTo == 0 then 0
    else CountMatches(matchIndex, me, k, upTo - 1) + if upTo - 1 != me && matchIndex[upTo - 1] >= k then 1 else 0
  }

  predicate MayCommit(n: Node, me: nat, peers: nat, k: nat)
    requires |n.matchIndex| == peers && n.snapshotIndex <= k < n.snapshotIndex + |n.log|
  {
    n.log[k - n.snapshotIndex].term == n.currentTerm && 1 + CountMatches(n.matchIndex, me, k, peers) > peers / 2
  }

  /** The scan from index k down to commitIndex. */
  function ScanCommit(n: Node, me: nat, peers: nat, k: int): (c: nat)
    requires |n.matchIndex| == peers && k < n.snapshotIndex + |n.log|
    ensures c == n.commitIndex || (n.commitIndex < c <= k)
    decreases k
  {
    if k <= n.commitIndex then n.commitIndex
    else if k >= n.snapshotIndex && MayCommit(n, me, peers, k) then k
    else ScanCommit(n, me, peers, k - 1)
  }

  function UpdateCommitIndex(n: Node, me: nat, peers: nat): Node
    requires n.role.Leader? ==> |n.matchIndex| == peers
  {
    if n.role != Leader then n else n.(commitIndex := ScanCommit(n, me, peers, LastIndex(n)))
  }

  /** The messages for the indices above `applied`, up to `upTo`. */
  function Deliveries(n: Node, applied: nat, upTo: nat): seq<ApplyMsg>
    decreases upTo - applied
  {
    if applied >= upTo then []
    else
      var at := applied + 1 - n.snapshotIndex;
      (if 0 <= at < |n.log| then [ApplyCommand(applied + 1, n.log[at].command)] else [])
      + Deliveries(n, applied + 1, upTo)
  }

  function ApplyCommitted(n: Node): (Node, seq<ApplyMsg>) {
    (n.(lastApplied := if n.lastApplied < n.commitIndex then n.commitIndex else n.lastApplied),
     Deliveries(n, n.lastApplied, n.commitIndex))
  }

  // ----- snapshots

  function Max(a: nat, b: nat): nat { if a < b then b else a }

  function RaiseNext(nextIndex: seq<nat>, me: nat, floor: nat): seq<nat> {
    seq(|nextIndex|, i requires 0 <= i < |nextIndex| => if i != me then Max(nextIndex[i], floor) else nextIndex[i])
  }

  function RaiseMatch(matchIndex: seq<nat>, floor: nat): seq<nat> {
    seq(|matchIndex|, i requires 0 <= i < |matchIndex| => Max(matchIndex[i], floor))
  }

  /** The service has saved its state up to `index` as `data`. */
  function Snapshot(n: Node, me: nat, index: int, data: seq<Command>): Node
    requires |n.log| > 0
  {
    if index <= n.snapshotIndex || index - n.snapshotIndex >= |n.log| then n
    else
      var at := index - n.snapshotIndex;
      var term := n.log[at].term;
      var c := n.(snapshotTerm := term, snapshotIndex := index,
                  log := [Entry(term, Nil)] + n.log[at + 1..],
                  commitIndex := Max(n.commitIndex, index), lastApplied := Max(n.lastApplied, index));
      var d := if c.role == Leader then
                 c.(nextIndex := RaiseNext(c.nextIndex, me, index + 1), matchIndex := RaiseMatch(c.matchIndex, index))
               else c;
      PersistWithSnapshot(d, data)
  }

  datatype InstallResult = InstallResult(node: Node, reply: InstallReply, delivered: seq<ApplyMsg>)

  function InstallSnapshot(n: Node, a: InstallArgs): InstallResult
    requires |n.log| > 0
  {
    if a.term < n.currentTerm then
      InstallResult(n, InstallReply(n.currentTerm), [])
    else
      var o := Observe(n, a.term).(role := Follower);
      if a.lastIncludedIndex <= o.snapshotIndex then
        InstallResult(o, InstallReply(n.currentTerm), [])
      else
        InstallResult(Install(o, a), InstallReply(n.currentTerm),
                      [ApplySnapshot(a.lastIncludedIndex, a.lastIncludedTerm, a.data)])
  }

  /** The old suffix is kept whenever the log is long enough; its terms are not looked at. */
  function Install(o: Node, a: InstallArgs): Node
    requires a.lastIncludedIndex > o.snapshotIndex
  {
    var from := a.lastIncludedIndex + 1 - o.snapshotIndex;
    var suffix := if from < |o.log| then o.log[from..] else [];
    PersistWithSnapshot(
      o.(snapshotIndex := a.lastIncludedIndex, snapshotTerm := a.lastIncludedTerm,
         commitIndex := Max(o.commitIndex, a.lastIncludedIndex),
         lastApplied := Max(o.lastApplied, a.lastIncludedIndex),
         log := [Entry(a.lastIncludedTerm, Nil)] + suffix), a.data)
  }

  /** The leader's goroutine gets the answer to the InstallSnapshot call `a` it made to `srv`. */
  function HandleInstallReply(n: Node, srv: nat, a: InstallArgs, r: InstallReply): Node
    requires n.role.Leader? ==> srv < |n.nextIndex| && srv < |n.matchIndex|
  {
    if n.role != Leader || n.currentTerm != a.term then n
    else if r.term > n.currentTerm then StepDown(n, r.term)
    else n.(matchIndex := n.matchIndex[srv := a.lastIncludedIndex],
            nextIndex := n.nextIndex[srv := a.lastIncludedIndex + 1])
  }
}
