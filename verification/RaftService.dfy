/** The services on top of Raft.  As long as no installed snapshot is older than what a service has
    already applied, all services apply prefixes of one sequence of commands, also through snapshots. */
module RaftService {
  import opened RaftNode
  import opened RaftSystem
  import opened RaftHistory
  import opened RaftEvents
  import opened RaftInvariant
  import opened RaftReplication
  import opened RaftLeadership
  import opened RaftSnapshot
  import opened RaftSafety
  import opened RaftTheorems

  /** A snapshot holds what the service has applied; one that arrives is not behind the service. */
  ghost predicate Orderly(s: System, step: Step)
    requires Enabled(s, step)
  {
    match step
    case Compact(i, index, data) => index <= |s.apps[i]| && data == s.apps[i][..index]
    case InstallArrives(m) =>
      Installs(s.nodes[m.server], m.args) ==> s.nodes[m.server].lastApplied <= m.args.lastIncludedIndex
    case _ => true
  }

  ghost predicate OrderlyRun(r: Run, peers: nat) {
    IsRun(r, peers) && forall i :: 0 <= i < |r.steps| ==> Orderly(r.states[i], r.steps[i])
  }

  // ----- settled sequences of commands

  /** The commands are those committed at indices 1 to |commands|. */
  ghost predicate Applied(h: History, commands: seq<Command>) {
    commands == [] || exists v: nat, n: nat :: AppliedBy(h, commands, v, n)
  }

  ghost predicate AppliedBy(h: History, commands: seq<Command>, v: nat, n: nat) {
    && Committed(h, v, n) && |commands| <= n
    && forall i :: 0 <= i < |commands| ==> commands[i] == h.logs[v][i + 1].command
  }

  lemma AppliedStays(h: History, k: History, commands: seq<Command>)
    requires Extends(h, k) && Applied(h, commands)
    ensures Applied(k, commands)
  {
    if commands != [] {
      var v: nat, n: nat :| AppliedBy(h, commands, v, n);
      CommittedStays(h, k, v, n);
      assert AppliedBy(k, commands, v, n);
    }
  }

  lemma AppliedPrefix(h: History, commands: seq<Command>, k: nat)
    requires Applied(h, commands) && k <= |commands|
    ensures Applied(h, commands[..k])
  {
    if k > 0 {
      var v: nat, n: nat :| AppliedBy(h, commands, v, n);
      assert AppliedBy(h, commands[..k], v, n);
    }
  }

  lemma AppliedComparable(h: History, a: seq<Command>, b: seq<Command>)
    requires HistoryOk(h) && Applied(h, a) && Applied(h, b) && |a| <= |b|
    ensures a <= b
  {
    if a != [] {
      var v: nat, n: nat :| AppliedBy(h, a, v, n);
      var w: nat, m: nat :| AppliedBy(h, b, w, m);
      LogsAgree(h, v, n, w, m, |a|);
    }
  }

  /** The logs of two leaders agree as far as both have committed. */
  lemma LogsAgree(h: History, v: nat, n: nat, w: nat, m: nat, k: nat)
    requires HistoryOk(h) && Committed(h, v, n) && Committed(h, w, m) && 1 <= k <= n && k <= m
    ensures Agree(h.logs[v], h.logs[w], k + 1)
  {
    assert TermOk(h, v);
    assert TermOk(h, w);
    assert SettledBy(h, v, h.logs[v], k + 1, v, n);
    assert SettledBy(h, w, h.logs[w], k + 1, w, m);
    SettledAgree(h, v, h.logs[v], k + 1, w, h.logs[w], k + 1);
  }

  // ----- the invariant of the services

  ghost predicate ServiceOk(h: History, n: Node, app: seq<Command>) {
    && Applied(h, app) && |app| == n.lastApplied
    && Applied(h, n.disk.snapshot) && |n.disk.snapshot| == n.snapshotIndex
  }

  ghost predicate CarriesOk(h: History, a: InstallArgs) {
    Applied(h, a.data) && |a.data| == a.lastIncludedIndex
  }

  ghost predicate ServicesOk(s: System, h: History) {
    && |s.apps| == |s.nodes|
    && (forall i {:trigger ServiceOk(h, s.nodes[i], s.apps[i])} :: 0 <= i < |s.nodes| ==>
           ServiceOk(h, s.nodes[i], s.apps[i]))
    && (forall m <- s.installCalls :: CarriesOk(h, m.args))
  }

  ghost predicate SameService(n: Node, m: Node) {
    && m.lastApplied == n.lastApplied && m.snapshotIndex == n.snapshotIndex && m.snapshotTerm == n.snapshotTerm
    && m.disk.snapshot == n.disk.snapshot
  }

  lemma ServicesStay(s: System, h: History, t: System, k: History, i: nat)
    requires ServicesOk(s, h) && Extends(h, k) && i < |s.nodes| == |t.nodes| == |t.apps|
    requires ServiceOk(k, t.nodes[i], t.apps[i]) && t.installCalls == s.installCalls
    requires forall j :: 0 <= j < |s.nodes| && j != i ==> t.nodes[j] == s.nodes[j] && t.apps[j] == s.apps[j]
    ensures ServicesOk(t, k)
  {
    forall j {:trigger ServiceOk(k, t.nodes[j], t.apps[j])} | 0 <= j < |t.nodes|
      ensures ServiceOk(k, t.nodes[j], t.apps[j])
    {
      if j != i {
        assert ServiceOk(h, s.nodes[j], s.apps[j]);
        AppliedStays(h, k, s.apps[j]);
        AppliedStays(h, k, s.nodes[j].disk.snapshot);
      }
    }
    forall m | m in t.installCalls
      ensures CarriesOk(k, m.args)
    {
      AppliedStays(h, k, m.args.data);
    }
  }

  /** A step that changes server i but nothing its service can see. */
  lemma ServiceUnseen(s: System, h: History, t: System, k: History, i: nat, m: Node)
    requires ServicesOk(s, h) && Extends(h, k) && i < |s.nodes|
    requires t.nodes == s.nodes[i := m] && SameService(s.nodes[i], m)
    requires t.apps == s.apps && t.installCalls == s.installCalls
    ensures ServicesOk(t, k)
  {
    assert ServiceOk(h, s.nodes[i], s.apps[i]);
    AppliedStays(h, k, s.apps[i]);
    AppliedStays(h, k, s.nodes[i].disk.snapshot);
    ServicesStay(s, h, t, k, i);
  }

  // ----- applying

  function Commands(msgs: seq<ApplyMsg>): seq<Command>
    requires forall m <- msgs :: m.ApplyCommand?
  {
    seq(|msgs|, i requires 0 <= i < |msgs| => msgs[i].command)
  }

  lemma {:induction false} FeedCommands(app: seq<Command>, msgs: seq<ApplyMsg>)
    requires forall m <- msgs :: m.ApplyCommand?
    ensures Feed(app, msgs) == app + Commands(msgs)
    decreases |msgs|
  {
    if msgs != [] {
      FeedCommands(app + [msgs[0].command], msgs[1..]);
      assert Commands(msgs) == [msgs[0].command] + Commands(msgs[1..]);
    }
  }

  lemma AppliedFull(h: History, t: nat, full: Log, c: nat, app: seq<Command>, more: seq<Command>)
    requires HistoryOk(h) && Applied(h, app) && Settled(h, t, full, c + 1) && |app| + |more| == c
    requires forall i :: 0 <= i < |more| ==> more[i] == full[|app| + 1 + i].command
    ensures Applied(h, app + more)
  {
    if c > 0 {
      var v: nat, n: nat :| SettledBy(h, t, full, c + 1, v, n);
      if app != [] {
        var w: nat, m: nat :| AppliedBy(h, app, w, m);
        LogsAgree(h, v, n, w, m, |app|);
      }
      assert AppliedBy(h, app + more, v, n);
    }
  }

  lemma CommandsAreFull(n: Node, d: Shadow, msgs: seq<ApplyMsg>, from: nat)
    requires LogShown(n, d) && n.snapshotIndex <= from && from + |msgs| < |d.full|
    requires forall i :: 0 <= i < |msgs| ==>
               msgs[i] == ApplyCommand(from + 1 + i, n.log[from + 1 + i - n.snapshotIndex].command)
    ensures forall m <- msgs :: m.ApplyCommand?
    ensures forall i :: 0 <= i < |msgs| ==> Commands(msgs)[i] == d.full[from + 1 + i].command
  {
    forall i | 0 <= i < |msgs|
      ensures msgs[i].ApplyCommand? && Commands(msgs)[i] == d.full[from + 1 + i].command
    {
      FullEntry(n, d, from + 1 + i);
    }
  }

  lemma AppliedMore(h: History, n: Node, d: Shadow, app: seq<Command>, msgs: seq<ApplyMsg>)
    requires HistoryOk(h) && LogsOk(h, n, d) && CommitOk(h, n, d) && Applied(h, app) && |app| == n.lastApplied
    requires |msgs| == n.commitIndex - n.lastApplied
    requires forall i :: 0 <= i < |msgs| ==>
               msgs[i] == ApplyCommand(|app| + 1 + i, n.log[|app| + 1 + i - n.snapshotIndex].command)
    ensures Applied(h, Feed(app, msgs)) && |Feed(app, msgs)| == n.commitIndex
  {
    var more := FedEntries(n, d, app, msgs);
    if n.lastApplied < n.commitIndex {
      AppliedFull(h, n.currentTerm, d.full, n.commitIndex, app, more);
    } else {
      assert app + more == app;
    }
  }

  lemma FedEntries(n: Node, d: Shadow, app: seq<Command>, msgs: seq<ApplyMsg>) returns (more: seq<Command>)
    requires LogShown(n, d) && n.snapshotIndex <= |app| && |app| + |msgs| < |d.full|
    requires forall i :: 0 <= i < |msgs| ==>
               msgs[i] == ApplyCommand(|app| + 1 + i, n.log[|app| + 1 + i - n.snapshotIndex].command)
    ensures Feed(app, msgs) == app + more && |more| == |msgs|
    ensures forall i :: 0 <= i < |more| ==> more[i] == d.full[|app| + 1 + i].command
  {
    CommandsAreFull(n, d, msgs, |app|);
    FeedCommands(app, msgs);
    more := Commands(msgs);
  }

  lemma ApplyService(h: History, me: nat, n: Node, d: Shadow, app: seq<Command>)
    requires HistoryOk(h) && NodeOk(h, me, n, d) && ServiceOk(h, n, app)
    ensures ServiceOk(h, ApplyCommitted(n).0, Feed(app, ApplyCommitted(n).1))
  {
    var (m, msgs) := ApplyCommitted(n);
    DeliveriesAre(n, n.lastApplied, n.commitIndex);
    AppliedMore(h, n, d, app, msgs);
    assert m == n.(lastApplied := n.commitIndex);
  }

  // ----- the other steps a service can see

  lemma InstallService(h: History, n: Node, a: InstallArgs, app: seq<Command>)
    requires ServiceOk(h, n, app) && CarriesOk(h, a) && |n.log| > 0
    requires Installs(n, a) ==> n.lastApplied <= a.lastIncludedIndex
    ensures ServiceOk(h, InstallSnapshot(n, a).node, Feed(app, InstallSnapshot(n, a).delivered))
  {
    InstallCases(n, a);
    if Installs(n, a) {
      var msgs := [ApplySnapshot(a.lastIncludedIndex, a.lastIncludedTerm, a.data)];
      assert Feed(app, msgs) == Feed(a.data, msgs[1..]);
    }
  }

  lemma CompactService(h: History, n: Node, me: nat, index: nat, app: seq<Command>)
    requires ServiceOk(h, n, app) && |n.log| > 0 && index <= n.lastApplied
    ensures ServiceOk(h, Snapshot(n, me, index, app[..index]), app)
  {
    AppliedPrefix(h, app, index);
    if Compacts(n, index) {
      SnapshotFields(n, me, index, app[..index]);
    }
  }

  // ----- every step

  /** The step replaces server i by m; its service does not notice. */
  ghost predicate Silent(s: System, t: System, i: nat, m: Node) {
    && i < |s.nodes| && t.nodes == s.nodes[i := m] && SameService(s.nodes[i], m)
    && t.apps == s.apps && t.installCalls == s.installCalls
  }

  lemma CountSilent(n: Node, me: nat, peers: nat, askedIn: nat, r: VoteReply)
    requires |n.log| > 0 && me < peers
    ensures SameService(n, HandleVoteReply(n, me, peers, askedIn, r))
  {
  }

  lemma AppendSilent(n: Node, a: AppendArgs)
    requires |n.log| > 0
    ensures SameService(n, AppendEntries(n, a).0)
  {
    AppendCases(n, a);
  }

  lemma SilentElection(s: System, step: Step) returns (i: nat, m: Node)
    requires Enabled(s, step) && (step.Timeout? || step.VoteArrives? || step.VoteAnswered?)
    ensures Silent(s, Next(s, step), i, m)
  {
    match step {
      case Timeout(j) => i, m := j, StartElection(s.nodes[j], j);
      case VoteArrives(key) => i, m := key.voter, RequestVote(s.nodes[key.voter], s.voteCalls[key]).0;
      case VoteAnswered(key) =>
        CountSilent(s.nodes[key.candidate], key.candidate, |s.nodes|, key.term, s.voteAnswers[key]);
        i := key.candidate;
        m := HandleVoteReply(s.nodes[i], i, |s.nodes|, key.term, s.voteAnswers[key]);
    }
  }

  lemma SilentReplication(s: System, step: Step) returns (i: nat, m: Node)
    requires Enabled(s, step)
    requires step.Propose? || step.AppendArrives? || step.AppendAnswered? || step.InstallAnswered? || step.Commit?
    ensures Silent(s, Next(s, step), i, m)
  {
    match step {
      case Propose(j, command) => i, m := j, Start(s.nodes[j], command);
      case AppendArrives(c) =>
        AppendSilent(s.nodes[c.server], c.args);
        i, m := c.server, AppendEntries(s.nodes[c.server], c.args).0;
      case AppendAnswered(c) =>
        i := c.args.leader;
        m := HandleAppendReply(s.nodes[i], c.server, c.args, c.reply);
      case InstallAnswered(c) =>
        i := c.args.leader;
        m := HandleInstallReply(s.nodes[i], c.server, c.args, c.reply);
      case Commit(j) => i, m := j, UpdateCommitIndex(s.nodes[j], j, |s.nodes|);
    }
  }

  lemma SendServices(s: System, g: Ghost, i: nat, server: nat, leaderCommit: nat)
    requires SystemOk(s, g) && ServicesOk(s, g.h) && Enabled(s, Send(i, server, leaderCommit))
    ensures ServicesOk(Next(s, Send(i, server, leaderCommit)), g.h)
  {
    assert ServiceOk(g.h, s.nodes[i], s.apps[i]);
    var t := Next(s, Send(i, server, leaderCommit));
    assert t.nodes == s.nodes && t.apps == s.apps;
    forall j {:trigger ServiceOk(g.h, t.nodes[j], t.apps[j])} | 0 <= j < |t.nodes|
      ensures ServiceOk(g.h, t.nodes[j], t.apps[j])
    {
      assert ServiceOk(g.h, s.nodes[j], s.apps[j]);
    }
  }

  lemma InstallServices(s: System, h: History, m: InstallCall)
    requires ServicesOk(s, h) && Extends(h, h) && Enabled(s, InstallArrives(m)) && Orderly(s, InstallArrives(m))
    ensures ServicesOk(Next(s, InstallArrives(m)), h)
  {
    assert ServiceOk(h, s.nodes[m.server], s.apps[m.server]);
    InstallService(h, s.nodes[m.server], m.args, s.apps[m.server]);
    ServicesStay(s, h, Next(s, InstallArrives(m)), h, m.server);
  }

  lemma ApplyServices(s: System, h: History, i: nat, d: Shadow)
    requires ServicesOk(s, h) && HistoryOk(h) && Extends(h, h) && Enabled(s, Apply(i)) && NodeOk(h, i, s.nodes[i], d)
    ensures ServicesOk(Next(s, Apply(i)), h)
  {
    assert ServiceOk(h, s.nodes[i], s.apps[i]);
    ApplyService(h, i, s.nodes[i], d, s.apps[i]);
    ServicesStay(s, h, Next(s, Apply(i)), h, i);
  }

  lemma CompactServices(s: System, h: History, i: nat, index: nat, data: seq<Command>)
    requires ServicesOk(s, h) && Extends(h, h) && Enabled(s, Compact(i, index, data))
    requires Orderly(s, Compact(i, index, data))
    ensures ServicesOk(Next(s, Compact(i, index, data)), h)
  {
    assert ServiceOk(h, s.nodes[i], s.apps[i]);
    CompactService(h, s.nodes[i], i, index, s.apps[i]);
    ServicesStay(s, h, Next(s, Compact(i, index, data)), h, i);
  }

  lemma RestartServices(s: System, h: History, i: nat, disk: Disk)
    requires ServicesOk(s, h) && HistoryOk(h) && i < |s.nodes|
    requires disk.snapshot == s.nodes[i].disk.snapshot && disk.snapshotIndex == s.nodes[i].snapshotIndex
    ensures ServicesOk(Restart(s, i, disk), h)
  {
    assert ServiceOk(h, s.nodes[i], s.apps[i]);
    NothingNew(h, i);
    ServicesStay(s, h, Restart(s, i, disk), h, i);
  }

  lemma ServicesStep(s: System, g: Ghost, step: Step, k: History)
    requires SystemOk(s, g) && ServicesOk(s, g.h) && Enabled(s, step) && Orderly(s, step) && Extends(g.h, k)
    ensures ServicesOk(Next(s, step), k)
  {
    var t := Next(s, step);
    if step.Timeout? || step.VoteArrives? || step.VoteAnswered? {
      var i, m := SilentElection(s, step);
      ServiceUnseen(s, g.h, t, k, i, m);
    } else if step.Propose? || step.AppendArrives? || step.AppendAnswered? || step.InstallAnswered? || step.Commit? {
      var i, m := SilentReplication(s, step);
      ServiceUnseen(s, g.h, t, k, i, m);
    } else {
      UnchangedHistoryStep(s, g, step);
      ServicesLater(t, g.h, k);
    }
  }

  lemma ServicesLater(s: System, h: History, k: History)
    requires ServicesOk(s, h) && Extends(h, k)
    ensures ServicesOk(s, k)
  {
    forall j {:trigger ServiceOk(k, s.nodes[j], s.apps[j])} | 0 <= j < |s.nodes|
      ensures ServiceOk(k, s.nodes[j], s.apps[j])
    {
      assert ServiceOk(h, s.nodes[j], s.apps[j]);
      AppliedStays(h, k, s.apps[j]);
      AppliedStays(h, k, s.nodes[j].disk.snapshot);
    }
    forall m | m in s.installCalls ensures CarriesOk(k, m.args) { AppliedStays(h, k, m.args.data); }
  }

  lemma UnchangedHistoryStep(s: System, g: Ghost, step: Step)
    requires SystemOk(s, g) && ServicesOk(s, g.h) && Enabled(s, step) && Orderly(s, step)
    requires step.VoteCallLost? || step.VoteAnswerLost? || step.Send? || step.InstallArrives? || step.Apply?
          || step.Compact? || step.Crash? || step.CrashMidway?
    ensures ServicesOk(Next(s, step), g.h)
  {
    match step {
      case Send(i, server, leaderCommit) => SendServices(s, g, i, server, leaderCommit);
      case VoteCallLost(_) =>
        NothingNew(g.h, 0);
        ServicesOnly(s, Next(s, step), g.h);
      case VoteAnswerLost(_) =>
        NothingNew(g.h, 0);
        ServicesOnly(s, Next(s, step), g.h);
      case Crash(i) =>
        assert NodeOk(g.h, i, s.nodes[i], g.ds[i]);
        RestartServices(s, g.h, i, s.nodes[i].disk);
      case CrashMidway(i, term) =>
        assert NodeOk(g.h, i, s.nodes[i], g.ds[i]);
        RestartServices(s, g.h, i, StepDown(s.nodes[i], term).disk);
      case InstallArrives(m) =>
        NothingNew(g.h, 0);
        InstallServices(s, g.h, m);
      case Apply(i) =>
        NothingNew(g.h, 0);
        assert NodeOk(g.h, i, s.nodes[i], g.ds[i]);
        ApplyServices(s, g.h, i, g.ds[i]);
      case Compact(i, index, data) =>
        NothingNew(g.h, 0);
        CompactServices(s, g.h, i, index, data);
    }
  }

  lemma ServicesOnly(s: System, t: System, h: History)
    requires ServicesOk(s, h) && t.nodes == s.nodes && t.apps == s.apps && t.installCalls == s.installCalls
    ensures ServicesOk(t, h)
  {
    forall j {:trigger ServiceOk(h, t.nodes[j], t.apps[j])} | 0 <= j < |t.nodes|
      ensures ServiceOk(h, t.nodes[j], t.apps[j])
    {
      assert ServiceOk(h, s.nodes[j], s.apps[j]);
    }
  }

  // ----- runs

  lemma {:induction false} ServicesInRun(r: Run, peers: nat, gs: seq<Ghost>, k: nat)
    requires OrderlyRun(r, peers) && Witnesses(r.states, gs, |r.states|) && k < |r.states|
    ensures ServicesOk(r.states[k], gs[k].h)
    decreases k
  {
    if k == 0 {
      var s := r.states[0];
      forall j {:trigger ServiceOk(gs[0].h, s.nodes[j], s.apps[j])} | 0 <= j < |s.nodes|
        ensures ServiceOk(gs[0].h, s.nodes[j], s.apps[j])
      {
        assert s.nodes[j] == Boot(EMPTY_DISK);
      }
    } else {
      ServicesInRun(r, peers, gs, k - 1);
      assert SystemOk(r.states[k - 1], gs[k - 1]);
      assert Grows(gs, k - 1);
      ServicesStep(r.states[k - 1], gs[k - 1], r.steps[k - 1], gs[k].h);
    }
  }

  /** Server a at time i, with its service. */
  ghost predicate Served(r: Run, i: nat, a: nat) {
    Server(r, i, a) && a < |r.states[i].apps|
  }

  /** As long as every snapshot that arrives is at least as new as what its service has applied, any two
      services at any two moments have applied prefixes of one sequence of commands, each service exactly
      as far as its server's lastApplied; restarts and installed snapshots included. */
  lemma ServicesAgree(r: Run, peers: nat, i: nat, a: nat, j: nat, b: nat)
    requires OrderlyRun(r, peers) && Served(r, i, a) && Served(r, j, b)
    requires |r.states[i].apps[a]| <= |r.states[j].apps[b]|
    ensures |r.states[i].apps[a]| == r.states[i].nodes[a].lastApplied
    ensures r.states[i].apps[a] <= r.states[j].apps[b]
  {
    var gs, h := FinalHistory(r, peers);
    InFinal(r.states, gs, h, i, a);
    InFinal(r.states, gs, h, j, b);
    ServicesInRun(r, peers, gs, i);
    ServicesInRun(r, peers, gs, j);
    assert ServiceOk(gs[i].h, r.states[i].nodes[a], r.states[i].apps[a]);
    assert ServiceOk(gs[j].h, r.states[j].nodes[b], r.states[j].apps[b]);
    AppliedStays(gs[i].h, h, r.states[i].apps[a]);
    AppliedStays(gs[j].h, h, r.states[j].apps[b]);
    AppliedComparable(h, r.states[i].apps[a], r.states[j].apps[b]);
  }

  // ----- snapshots stand for what they replace

  /** The command at index x, in the snapshot or in the log. */
  ghost predicate Carries(n: Node, x: nat, c: Command) {
    || (1 <= x <= n.snapshotIndex && x <= |n.disk.snapshot| && n.disk.snapshot[x - 1] == c)
    || (Shows(n, x) && EntryAt(n, x).command == c)
  }

  /** A command that a server knows to be committed was committed in a term up to its own. */
  lemma CarriedIsCommitted(h: History, n: Node, d: Shadow, x: nat, c: Command) returns (v: nat, k: nat)
    requires HistoryOk(h) && LogsOk(h, n, d) && CommitOk(h, n, d) && Applied(h, n.disk.snapshot)
    requires Carries(n, x, c) && 1 <= x <= n.commitIndex
    ensures v <= n.currentTerm && Committed(h, v, k) && x <= k && h.logs[v][x].command == c
  {
    if Shows(n, x) {
      var log := SettledView(h, n, d, x);
      v, k :| SettledBy(h, n.currentTerm, log, x + 1, v, k);
    } else {
      v, k :| SettledBy(h, n.currentTerm, d.base, n.snapshotIndex + 1, v, k);
      var w: nat, l: nat :| AppliedBy(h, n.disk.snapshot, w, l);
      LogsAgree(h, v, k, w, l, x);
    }
  }

  /** Who has the whole log of the term and commands for its snapshot carries what was committed. */
  lemma CommittedIsCarried(h: History, m: Node, e: Shadow, v: nat, k: nat, x: nat)
    requires HistoryOk(h) && Committed(h, v, k) && 1 <= x <= k
    requires LogShown(m, e) && Agree(h.logs[v], e.full, k + 1)
    requires Applied(h, m.disk.snapshot) && |m.disk.snapshot| == m.snapshotIndex
    ensures x <= LastIndex(m) && Carries(m, x, h.logs[v][x].command)
  {
    if x <= m.snapshotIndex {
      var w: nat, l: nat :| AppliedBy(h, m.disk.snapshot, w, l);
      LogsAgree(h, v, k, w, l, x);
    } else {
      FullEntry(m, e, x);
    }
  }

  /** Section 7: with their snapshots, the leaders of later terms have every command that any server knows to
      be committed, whether either of the two has it in its log or in its snapshot. */
  lemma LeadersCarryAll(r: Run, peers: nat, i: nat, a: nat, j: nat, b: nat, x: nat, c: Command)
    requires OrderlyRun(r, peers) && Served(r, i, a) && Served(r, j, b)
    requires 1 <= x <= r.states[i].nodes[a].commitIndex && Carries(r.states[i].nodes[a], x, c)
    requires r.states[j].nodes[b].role.Leader? && r.states[i].nodes[a].currentTerm < r.states[j].nodes[b].currentTerm
    ensures x <= LastIndex(r.states[j].nodes[b]) && Carries(r.states[j].nodes[b], x, c)
  {
    var gs, h := FinalHistory(r, peers);
    InFinal(r.states, gs, h, i, a);
    InFinal(r.states, gs, h, j, b);
    SnapshotInRun(r, peers, gs, h, i, a);
    SnapshotInRun(r, peers, gs, h, j, b);
    LeaderInFinal(r.states, gs, h, j, b);
    LaterCarries(h, r.states[i].nodes[a], gs[i].ds[a], r.states[j].nodes[b], gs[j].ds[b], x, c);
  }

  lemma LaterCarries(h: History, n: Node, d: Shadow, m: Node, e: Shadow, x: nat, c: Command)
    requires HistoryOk(h) && LogsOk(h, n, d) && CommitOk(h, n, d) && Applied(h, n.disk.snapshot)
    requires LogsOk(h, m, e) && Applied(h, m.disk.snapshot) && |m.disk.snapshot| == m.snapshotIndex
    requires n.currentTerm < m.currentTerm && m.currentTerm in h.starts
    requires Agree(h.starts[m.currentTerm], e.full, |h.starts[m.currentTerm]|)
    requires Carries(n, x, c) && 1 <= x <= n.commitIndex
    ensures x <= LastIndex(m) && Carries(m, x, c)
  {
    var v, k := CarriedIsCommitted(h, n, d, x, c);
    LeaderCompleteness(h, v, k, m.currentTerm);
    CommittedIsCarried(h, m, e, v, k, x);
  }

  lemma SnapshotInRun(r: Run, peers: nat, gs: seq<Ghost>, h: History, i: nat, a: nat)
    requires OrderlyRun(r, peers) && Witnesses(r.states, gs, |r.states|) && Served(r, i, a) && Extends(gs[i].h, h)
    ensures Applied(h, r.states[i].nodes[a].disk.snapshot)
    ensures |r.states[i].nodes[a].disk.snapshot| == r.states[i].nodes[a].snapshotIndex
  {
    ServicesInRun(r, peers, gs, i);
    assert ServiceOk(gs[i].h, r.states[i].nodes[a], r.states[i].apps[a]);
    AppliedStays(gs[i].h, h, r.states[i].nodes[a].disk.snapshot);
  }

  // ----- the first step out of order

  function UpTo(r: Run, k: nat): Run
    requires k < |r.states| == |r.steps| + 1
  {
    Run(r.states[..k + 1], r.steps[..k])
  }

  /** The condition on arriving snapshots is exact: the first one that is behind its service takes commands
      away from it that lastApplied still counts. */
  lemma BehindMeansOut(r: Run, peers: nat, k: nat)
    requires IsRun(r, peers) && k < |r.steps| && OrderlyRun(UpTo(r, k), peers)
    requires r.steps[k].InstallArrives? && !Orderly(r.states[k], r.steps[k])
    ensures var a := r.steps[k].installCall.server;
            && Served(r, k, a) && |r.states[k].apps[a]| == r.states[k].nodes[a].lastApplied
            && Served(r, k + 1, a) && |r.states[k + 1].apps[a]| < r.states[k + 1].nodes[a].lastApplied
  {
    var q, m := UpTo(r, k), r.steps[k].installCall;
    var gs, h := FinalHistory(q, peers);
    ServicesInRun(q, peers, gs, k);
    var s := r.states[k];
    assert q.states[k] == s && Enabled(s, r.steps[k]);
    assert ServiceOk(gs[k].h, s.nodes[m.server], s.apps[m.server]) && CarriesOk(gs[k].h, m.args);
    InstallCases(s.nodes[m.server], m.args);
    var msgs := [ApplySnapshot(m.args.lastIncludedIndex, m.args.lastIncludedTerm, m.args.data)];
    assert Feed(s.apps[m.server], msgs) == Feed(m.args.data, msgs[1..]);
  }
}
