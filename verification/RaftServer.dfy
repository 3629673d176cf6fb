/** The Raft server object.  Its fields are updated in place, one lock-protected region at a time; every
    method is proved to do what RaftNode says that region does, so that whatever is proved of RaftNode's
    functions and of the runs built from them is proved of this object. */
module RaftServer {
  import N = RaftNode
  import opened RaftNode

  /** The encoded Raft state; nothing before the first save. */
  datatype Saved = Nothing
                 | State(currentTerm: nat, votedFor: int, log: seq<Entry>, snapshotIndex: nat, snapshotTerm: nat)

  /** What survives a crash: the Raft state and the service's snapshot, always replaced together. */
  class Persister {
    var raftState: Saved
    var snapshot: seq<Command>

    constructor ()
      ensures Contents() == EMPTY_DISK
    {
      raftState, snapshot := Nothing, [];
    }

    /** What a server that boots from here reads. */
    function Contents(): Disk
      reads this
    {
      match raftState
      case Nothing => EMPTY_DISK.(snapshot := snapshot)
      case State(term, votedFor, log, index, indexTerm) => Disk(term, votedFor, log, index, indexTerm, snapshot)
    }

    method Save(state: Saved, data: seq<Command>)
      requires state.State?
      modifies this
      ensures Contents() ==
              Disk(state.currentTerm, state.votedFor, state.log, state.snapshotIndex, state.snapshotTerm, data)
    {
      raftState, snapshot := state, data;
    }
  }

  class Raft {
    const peers: nat
    const me: nat
    const persister: Persister

    var currentTerm: nat
    var votedFor: int
    var log: seq<Entry>
    var commitIndex: nat
    var lastApplied: nat
    var nextIndex: array<nat>
    var matchIndex: array<nat>
    var role: Role
    var snapshotIndex: nat
    var snapshotTerm: nat
    // the counters that the goroutines of the latest election share
    var votes: nat
    var electionWon: bool

    ghost predicate Valid()
      reads this, persister, nextIndex, matchIndex
    {
      && me < peers && nextIndex != matchIndex
      && WellFormed(View(), peers)
    }

    /** The server as a value. */
    ghost function View(): (n: Node)
      reads this, persister, nextIndex, matchIndex
    {
      Node(currentTerm, votedFor, log, commitIndex, lastApplied, nextIndex[..], matchIndex[..], role,
           snapshotIndex, snapshotTerm, votes, electionWon, persister.Contents())
    }

    constructor (peers: nat, me: nat, persister: Persister)
      requires me < peers && |persister.Contents().log| > 0
      ensures Valid() && this.peers == peers && this.me == me && this.persister == persister
      ensures fresh(nextIndex) && fresh(matchIndex)
      ensures View() == Boot(persister.Contents())
    {
      this.peers, this.me, this.persister := peers, me, persister;
      currentTerm, votedFor, log := 0, NOBODY, [DUMMY];
      commitIndex, lastApplied := 0, 0;
      nextIndex, matchIndex := new nat[0], new nat[0];
      role := Follower;
      snapshotIndex, snapshotTerm := 0, 0;
      votes, electionWon := 0, false;
      new;
      ReadPersist();
    }

    method ReadPersist()
      requires View() == Boot(EMPTY_DISK).(disk := persister.Contents())
      modifies `currentTerm, `votedFor, `log, `snapshotIndex, `snapshotTerm, `lastApplied, `commitIndex
      ensures View() == Boot(persister.Contents())
    {
      match persister.raftState {
        case Nothing =>
        case State(term, voted, entries, index, indexTerm) =>
          currentTerm, votedFor, log := term, voted, entries;
          snapshotIndex, snapshotTerm := index, indexTerm;
          lastApplied, commitIndex := index, index;
      }
    }

    method Persist()
      modifies persister
      ensures View() == N.Persist(old(View()))
    {
      PersistWithSnapshot(persister.snapshot);
    }

    method PersistWithSnapshot(data: seq<Command>)
      modifies persister
      ensures View() == N.PersistWithSnapshot(old(View()), data)
    {
      persister.Save(State(currentTerm, votedFor, log, snapshotIndex, snapshotTerm), data);
    }

    method GetState() returns (term: nat, isLeader: bool)
      ensures term == View().currentTerm && (isLeader <==> View().role.Leader?)
    {
      term, isLeader := currentTerm, role == Leader;
    }

    /** A term above our own was seen. */
    method StepDown(term: nat)
      modifies `currentTerm, `votedFor, `role, persister
      ensures View() == N.StepDown(old(View()), term)
    {
      currentTerm, votedFor, role := term, NOBODY, Follower;
      Persist();
    }

    // ----- elections

    method StartElection() returns (args: VoteArgs)
      requires Valid()
      modifies this, persister
      ensures Valid() && nextIndex == old(nextIndex) && matchIndex == old(matchIndex)
      ensures View() == N.StartElection(old(View()), me)
      ensures args == BallotRequest(View(), me)
    {
      role := Candidate;
      currentTerm := currentTerm + 1;
      votedFor := me;
      votes, electionWon := 1, false;
      Persist();
      args := VoteArgs(currentTerm, me, snapshotIndex + |log| - 1, log[|log| - 1].term);
    }

    method RequestVote(args: VoteArgs) returns (reply: VoteReply)
      requires Valid()
      modifies this, persister
      ensures Valid() && nextIndex == old(nextIndex) && matchIndex == old(matchIndex)
      ensures (View(), reply) == N.RequestVote(old(View()), args)
    {
      reply := VoteReply(currentTerm, false);
      if args.term < currentTerm {
        return;
      }
      if args.term > currentTerm {
        StepDown(args.term);
      }
      var lastLogIndex := snapshotIndex + |log| - 1;
      var lastLogTerm := log[|log| - 1].term;
      var upToDate := args.lastLogTerm > lastLogTerm ||
          (args.lastLogTerm == lastLogTerm && args.lastLogIndex >= lastLogIndex);
      if (votedFor == NOBODY || votedFor == args.candidate) && upToDate {
        votedFor := args.candidate;
        role := Follower;
        reply := reply.(granted := true);
        Persist();
      }
    }

    /** A goroutine of the election held in term `askedIn` got its answer. */
    method VoteAnswered(askedIn: nat, reply: VoteReply)
      requires Valid()
      modifies this, persister
      ensures Valid()
      ensures (nextIndex == old(nextIndex) && matchIndex == old(matchIndex)) || (fresh(nextIndex) && fresh(matchIndex))
      ensures View() == HandleVoteReply(old(View()), me, peers, askedIn, reply)
    {
      if role == Candidate && currentTerm == askedIn {
        if reply.term > currentTerm {
          StepDown(reply.term);
        } else if reply.granted {
          votes := votes + 1;
          if votes > peers / 2 && !electionWon {
            BecomeLeader();
          }
        }
      }
    }

    method BecomeLeader()
      requires Valid()
      modifies this
      ensures Valid() && fresh(nextIndex) && fresh(matchIndex)
      ensures View() == N.BecomeLeader(old(View()), me, peers)
    {
      electionWon := true;
      role := Leader;
      nextIndex := new nat[peers];
      matchIndex := new nat[peers];
      ResetPeers(snapshotIndex, snapshotIndex + |log|);
      matchIndex[me] := snapshotIndex + |log| - 1;
    }

    /** Every peer is assumed to lack nothing and to hold the snapshot only. */
    method ResetPeers(floor: nat, next: nat)
      requires nextIndex.Length == matchIndex.Length == peers && nextIndex != matchIndex
      modifies nextIndex, matchIndex
      ensures nextIndex[..] == seq(peers, _ => next) && matchIndex[..] == seq(peers, _ => floor)
    {
      for j := 0 to peers
        invariant forall i :: 0 <= i < j ==> nextIndex[i] == next && matchIndex[i] == floor
      {
        nextIndex[j] := next;
        matchIndex[j] := floor;
      }
    }

    // ----- replication

    method Start(command: Command) returns (index: int, term: nat, isLeader: bool)
      requires Valid()
      modifies this, persister
      ensures Valid() && nextIndex == old(nextIndex) && matchIndex == old(matchIndex)
      ensures View() == N.Start(old(View()), command)
      ensures term == View().currentTerm && (isLeader <==> View().role.Leader?)
      ensures if isLeader then index == LastIndex(View()) else index == -1
    {
      if role != Leader {
        return -1, currentTerm, false;
      }
      index := snapshotIndex + |log|;
      log := log + [Entry(currentTerm, command)];
      Persist();
      term, isLeader := currentTerm, true;
    }

    /** The heartbeat's first lock: what it takes along, if the server leads. */
    method ReadForHeartbeat() returns (leads: bool, seen: Reading)
      ensures leads <==> View().role.Leader?
      ensures leads ==> seen == ReadingOf(View())
    {
      leads := role == Leader;
      seen := Reading(currentTerm, commitIndex, snapshotIndex, persister.snapshot);
    }

    /** The later lock of the goroutine for peer `srv`: it sends nothing if the server no longer leads in the
        term of the reading. */
    method BuildMessage(srv: nat, seen: Reading) returns (messages: seq<Outgoing>)
      requires Valid() && srv < peers
      ensures messages == if role.Leader? && currentTerm == seen.term then [BuildFrom(View(), me, srv, seen)] else []
    {
      if role != Leader || currentTerm != seen.term {
        return [];
      }
      if nextIndex[srv] <= seen.snapshotIndex && |seen.snapshot| > 0 {
        return [SendInstall(InstallArgs(currentTerm, me, seen.snapshotIndex, snapshotTerm, seen.snapshot))];
      }
      var next: int := nextIndex[srv];
      var prevLogIndex := next - 1;
      var prevLogTerm := 0;
      var logIdx := prevLogIndex - snapshotIndex;
      if logIdx >= 0 && logIdx < |log| {
        prevLogTerm := log[logIdx].term;
      }
      var entries := [];
      var startIdx := nextIndex[srv] - snapshotIndex;
      if startIdx >= 0 && startIdx < |log| {
        entries := entries + log[startIdx..];
      }
      var message := SendAppend(AppendArgs(currentTerm, me, prevLogIndex, prevLogTerm, entries, seen.commitIndex));
      assert message == BuildFrom(View(), me, srv, seen);
      return [message];
    }

    method AppendEntries(args: AppendArgs) returns (reply: AppendReply)
      requires Valid()
      modifies this, persister
      ensures Valid() && nextIndex == old(nextIndex) && matchIndex == old(matchIndex)
      ensures (View(), reply) == N.AppendEntries(old(View()), args)
    {
      reply := AppendReply(currentTerm, false, 0, 0, 0);
      if args.term < currentTerm {
        return;
      }
      if args.term > currentTerm {
        StepDown(args.term);
      }
      role := Follower;
      assert View() == Observe(old(View()), args.term).(role := Follower);
      var logIndex := args.prevLogIndex - snapshotIndex;
      if args.prevLogIndex < snapshotIndex || logIndex >= |log| {
        reply := reply.(xTerm := -1, xIndex := -1, xLen := snapshotIndex + |log|);
        return;
      }
      if log[logIndex].term != args.prevLogTerm {
        var xIndex := FirstOfTerm(logIndex);
        reply := reply.(xTerm := log[logIndex].term, xIndex := xIndex, xLen := snapshotIndex + |log|);
        return;
      }
      reply := reply.(success := true);
      Accept(args);
    }

    /** The previous entry matches. */
    method Accept(args: AppendArgs)
      requires 0 <= args.prevLogIndex - snapshotIndex < |log|
      modifies `log, `commitIndex, persister
      ensures View() == N.Accept(old(View()), args)
    {
      AppendFrom(args.prevLogIndex - snapshotIndex + 1, args.entries);
      if |args.entries| > 0 {
        Persist();
      }
      if args.leaderCommit > commitIndex {
        var lastNewIndex := args.prevLogIndex + |args.entries|;
        if lastNewIndex < args.leaderCommit {
          commitIndex := lastNewIndex;
        } else {
          commitIndex := args.leaderCommit;
        }
      }
    }

    /** The backward scan for the first index of the term found at position `logIndex`. */
    method FirstOfTerm(logIndex: nat) returns (xIndex: int)
      requires logIndex < |log|
      ensures xIndex == snapshotIndex + RunStart(log, logIndex)
    {
      xIndex := snapshotIndex + logIndex;
      var i := logIndex - 1;
      while i >= 0
        invariant -1 <= i < logIndex && xIndex == snapshotIndex + logIndex
        invariant RunStart(log, logIndex) == RunStartFrom(log, logIndex, i + 1)
      {
        if log[i].term != log[logIndex].term {
          xIndex := snapshotIndex + i + 1;
          break;
        }
        i := i - 1;
      }
    }

    /** The loop over the entries of a message. */
    method AppendFrom(at: nat, entries: seq<Entry>)
      requires at <= |log|
      modifies `log
      ensures log == Merge(old(log), at, entries)
    {
      for i := 0 to |entries|
        invariant at + i <= |log|
        invariant Merge(log, at + i, entries[i..]) == Merge(old(log), at, entries)
      {
        var idx := at + i;
        assert entries[i..][1..] == entries[i + 1..];
        if idx >= |log| {
          log := log + [entries[i]];
        } else if log[idx].term != entries[i].term {
          log := log[..idx];
          log := log + [entries[i]];
        }
      }
    }

    method AppendAnswered(srv: nat, args: AppendArgs, reply: AppendReply)
      requires Valid() && srv < peers
      modifies this, persister, nextIndex, matchIndex
      ensures Valid() && nextIndex == old(nextIndex) && matchIndex == old(matchIndex)
      ensures View() == HandleAppendReply(old(View()), srv, args, reply)
    {
      if role == Leader && currentTerm == args.term {
        if reply.success {
          var newMatch := args.prevLogIndex + |args.entries|;
          if newMatch > matchIndex[srv] {
            matchIndex[srv] := newMatch;
            nextIndex[srv] := matchIndex[srv] + 1;
          }
        } else if reply.term > currentTerm {
          StepDown(reply.term);
        } else {
          var hint := if reply.xTerm == -1 then reply.xLen else reply.xIndex;
          nextIndex[srv] := if hint < 1 then 1 else hint;
        }
      }
    }

    // ----- commit and apply

    method UpdateCommitIndex()
      requires Valid()
      modifies `commitIndex
      ensures Valid()
      ensures View() == N.UpdateCommitIndex(old(View()), me, peers)
    {
      if role != Leader {
        return;
      }
      ghost var was := View();
      var n := snapshotIndex + |log| - 1;
      while n > commitIndex
        invariant n < snapshotIndex + |log| && View() == was
        invariant ScanCommit(was, me, peers, LastIndex(was)) == ScanCommit(was, me, peers, n)
      {
        var logIdx := n - snapshotIndex;
        if logIdx >= 0 && log[logIdx].term == currentTerm {
          var count := CountHolders(n);
          if count > peers / 2 {
            commitIndex := n;
            return;
          }
        }
        n := n - 1;
      }
    }

    method CountHolders(n: nat) returns (count: nat)
      requires Valid() && role == Leader
      ensures count == 1 + CountMatches(View().matchIndex, me, n, peers)
    {
      count := 1;
      for i := 0 to peers
        invariant count == 1 + CountMatches(matchIndex[..], me, n, i)
      {
        if i != me && matchIndex[i] >= n {
          count := count + 1;
        }
      }
    }

    method ApplyCommitted() returns (msgs: seq<ApplyMsg>)
      requires Valid()
      modifies `lastApplied
      ensures Valid()
      ensures (View(), msgs) == N.ApplyCommitted(old(View()))
    {
      ghost var was := View();
      msgs := [];
      while lastApplied < commitIndex
        invariant was.lastApplied <= lastApplied && (lastApplied <= commitIndex || lastApplied == was.lastApplied)
        invariant View() == was.(lastApplied := lastApplied)
        invariant Deliveries(was, was.lastApplied, was.commitIndex) ==
                  msgs + Deliveries(was, lastApplied, was.commitIndex)
      {
        lastApplied := lastApplied + 1;
        var logIdx := lastApplied - snapshotIndex;
        if logIdx >= 0 && logIdx < |log| {
          msgs := msgs + [ApplyCommand(lastApplied, log[logIdx].command)];
        }
      }
      assert msgs + [] == msgs;
    }

    // ----- snapshots

    /** A new log: the dummy of the snapshot and the entries from position `from` on. */
    method CutLog(term: nat, from: nat)
      modifies `log
      ensures log == [Entry(term, Nil)] + if from <= |old(log)| then old(log)[from..] else []
    {
      var newLog := [Entry(term, Nil)];
      var i := from;
      while i < |log|
        invariant log == old(log) && from <= i && (from <= |log| ==> i <= |log|)
        invariant newLog == [Entry(term, Nil)] + if from <= |log| then log[from..i] else []
      {
        newLog := newLog + [log[i]];
        i := i + 1;
      }
      log := newLog;
    }

    method Snapshot(index: int, data: seq<Command>)
      requires Valid()
      modifies this, persister, nextIndex, matchIndex
      ensures Valid() && nextIndex == old(nextIndex) && matchIndex == old(matchIndex)
      ensures View() == N.Snapshot(old(View()), me, index, data)
    {
      if index <= snapshotIndex {
        return;
      }
      var logIdx := index - snapshotIndex;
      if logIdx >= |log| {
        return;
      }
      CompactTo(index, log[logIdx].term, logIdx + 1);
      if role == Leader {
        RaisePeers();
      }
      PersistWithSnapshot(data);
    }

    /** Everything up to `index` is in a snapshot; the entries from position `from` on are kept. */
    method CompactTo(index: nat, term: nat, from: nat)
      modifies `snapshotTerm, `snapshotIndex, `log, `commitIndex, `lastApplied
      ensures snapshotTerm == term && snapshotIndex == index
      ensures log == [Entry(term, Nil)] + if from <= |old(log)| then old(log)[from..] else []
      ensures commitIndex == Max(old(commitIndex), index) && lastApplied == Max(old(lastApplied), index)
    {
      snapshotTerm := term;
      snapshotIndex := index;
      CutLog(term, from);
      if commitIndex < snapshotIndex {
        commitIndex := snapshotIndex;
      }
      if lastApplied < snapshotIndex {
        lastApplied := snapshotIndex;
      }
    }

    /** No peer is sent what the leader no longer has. */
    method RaisePeers()
      requires Valid() && role == Leader
      modifies nextIndex, matchIndex
      ensures nextIndex[..] == RaiseNext(old(nextIndex[..]), me, snapshotIndex + 1)
      ensures matchIndex[..] == RaiseMatch(old(matchIndex[..]), snapshotIndex)
    {
      for i := 0 to peers
        invariant forall j :: 0 <= j < i ==> nextIndex[j] == RaiseNext(old(nextIndex[..]), me, snapshotIndex + 1)[j]
        invariant forall j :: 0 <= j < i ==> matchIndex[j] == RaiseMatch(old(matchIndex[..]), snapshotIndex)[j]
        invariant nextIndex[i..] == old(nextIndex[i..]) && matchIndex[i..] == old(matchIndex[i..])
      {
        assert nextIndex[i] == nextIndex[i..][0] && matchIndex[i] == matchIndex[i..][0];
        if i != me && nextIndex[i] < snapshotIndex + 1 {
          nextIndex[i] := snapshotIndex + 1;
        }
        if matchIndex[i] < snapshotIndex {
          matchIndex[i] := snapshotIndex;
        }
      }
    }

    method InstallSnapshot(args: InstallArgs) returns (reply: InstallReply, delivered: seq<ApplyMsg>)
      requires Valid()
      modifies this, persister
      ensures Valid() && nextIndex == old(nextIndex) && matchIndex == old(matchIndex)
      ensures InstallResult(View(), reply, delivered) == N.InstallSnapshot(old(View()), args)
    {
      reply, delivered := InstallReply(currentTerm), [];
      if args.term < currentTerm {
        return;
      }
      if args.term > currentTerm {
        StepDown(args.term);
      }
      role := Follower;
      assert View() == Observe(old(View()), args.term).(role := Follower);
      if args.lastIncludedIndex <= snapshotIndex {
        return;
      }
      ghost var o := View();
      CompactTo(args.lastIncludedIndex, args.lastIncludedTerm, args.lastIncludedIndex + 1 - snapshotIndex);
      PersistWithSnapshot(args.data);
      assert View() == Install(o, args);
      delivered := [ApplySnapshot(args.lastIncludedIndex, args.lastIncludedTerm, args.data)];
    }

    method InstallAnswered(srv: nat, args: InstallArgs, reply: InstallReply)
      requires Valid() && srv < peers
      modifies this, persister, nextIndex, matchIndex
      ensures Valid() && nextIndex == old(nextIndex) && matchIndex == old(matchIndex)
      ensures View() == HandleInstallReply(old(View()), srv, args, reply)
    {
      if role == Leader && currentTerm == args.term {
        if reply.term > currentTerm {
          StepDown(reply.term);
        } else {
          matchIndex[srv] := args.lastIncludedIndex;
          nextIndex[srv] := matchIndex[srv] + 1;
        }
      }
    }
  }
}
