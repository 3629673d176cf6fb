/** What holds in every run of the cluster, with crashes, restarts, snapshots, installed snapshots, and
    messages that are lost, delayed or reordered. */
module RaftTheorems {
  import opened RaftNode
  import opened RaftSystem
  import opened RaftHistory
  import opened RaftEvents
  import opened RaftInvariant
  import opened RaftElection
  import opened RaftReplication
  import opened RaftLeadership
  import opened RaftSafety

  // ----- runs

  /** The history grows with every step and everything stays in order. */
  lemma StepOk(s: System, g: Ghost, step: Step) returns (after: Ghost)
    requires SystemOk(s, g) && Enabled(s, step)
    ensures SystemOk(Next(s, step), after) && Extends(g.h, after.h)
  {
    after := g;
    match step {
      case Timeout(i) => after := TimeoutStep(s, g, i);
      case VoteArrives(k) => after := VoteArrivesStep(s, g, k);
      case VoteAnswered(k) => after := VoteAnsweredStep(s, g, k);
      case VoteCallLost(k) => Dropped(s, g, k);
      case VoteAnswerLost(k) => Dropped(s, g, k);
      case Propose(i, command) => after := ProposeStep(s, g, i, command);
      case Send(i, server, leaderCommit) => SendStep(s, g, i, server, leaderCommit);
      case AppendArrives(m) => after := AppendArrivesStep(s, g, m);
      case AppendAnswered(m) => after := AppendAnsweredStep(s, g, m);
      case InstallArrives(m) => after := InstallArrivesStep(s, g, m);
      case InstallAnswered(m) => after := InstallAnsweredStep(s, g, m);
      case Commit(i) => after := CommitStep(s, g, i);
      case Apply(i) => after := ApplyStep(s, g, i);
      case Compact(i, index, data) => after := CompactStep(s, g, i, index, data);
      case Crash(i) => after := CrashStep(s, g, i);
      case CrashMidway(i, term) => after := CrashMidwayStep(s, g, i, term);
    }
  }

  const BLANK: Shadow := Shadow([DUMMY], [DUMMY], {})

  function NoHistory(peers: nat): History {
    History(peers, map[], map[], map[], map[], map[], map[], map[], map[])
  }

  lemma InitOk(peers: nat)
    ensures SystemOk(Init(peers), Ghost(NoHistory(peers), seq(peers, _ => BLANK)))
  {
    var s, g := Init(peers), Ghost(NoHistory(peers), seq(peers, _ => BLANK));
    forall i {:trigger NodeOk(g.h, i, s.nodes[i], g.ds[i])} | 0 <= i < peers
      ensures NodeOk(g.h, i, s.nodes[i], g.ds[i])
    {
      assert s.nodes[i] == Boot(EMPTY_DISK) && g.ds[i] == BLANK;
    }
  }

  /** The histories that witness the first k of the states, each an extension of the one before. */
  ghost predicate Witnesses(states: seq<System>, gs: seq<Ghost>, k: nat) {
    && |gs| == k <= |states|
    && (forall i {:trigger SystemOk(states[i], gs[i])} :: 0 <= i < k ==> SystemOk(states[i], gs[i]))
    && (forall i {:trigger gs[i]} :: 0 <= i < k ==> Extends(gs[i].h, gs[k - 1].h))
    && (forall i {:trigger Grows(gs, i)} :: 0 <= i < k - 1 ==> Grows(gs, i))
  }

  ghost predicate Grows(gs: seq<Ghost>, i: nat) {
    i + 1 < |gs| && Extends(gs[i].h, gs[i + 1].h)
  }

  lemma {:induction false} WitnessRun(r: Run, peers: nat, k: nat) returns (gs: seq<Ghost>)
    requires IsRun(r, peers) && 1 <= k <= |r.states|
    ensures Witnesses(r.states, gs, k)
    decreases k
  {
    if k == 1 {
      gs := WitnessStart(r.states, peers);
    } else {
      var before := WitnessRun(r, peers, k - 1);
      assert SystemOk(r.states[k - 2], before[k - 2]);
      var after := StepOk(r.states[k - 2], before[k - 2], r.steps[k - 2]);
      gs := before + [after];
      WitnessMore(r.states, before, after, k);
    }
  }

  lemma WitnessStart(states: seq<System>, peers: nat) returns (gs: seq<Ghost>)
    requires |states| > 0 && states[0] == Init(peers)
    ensures Witnesses(states, gs, 1)
  {
    InitOk(peers);
    gs := [Ghost(NoHistory(peers), seq(peers, _ => BLANK))];
    NothingNew(gs[0].h, 0);
  }

  lemma WitnessMore(states: seq<System>, before: seq<Ghost>, after: Ghost, k: nat)
    requires 2 <= k <= |states| && Witnesses(states, before, k - 1)
    requires SystemOk(states[k - 1], after) && Extends(before[k - 2].h, after.h)
    ensures Witnesses(states, before + [after], k)
  {
    var gs := before + [after];
    forall i {:trigger SystemOk(states[i], gs[i])} | 0 <= i < k
      ensures SystemOk(states[i], gs[i])
    {
      if i < k - 1 {
        assert SystemOk(states[i], before[i]);
      }
    }
    forall i {:trigger gs[i]} | 0 <= i < k
      ensures Extends(gs[i].h, gs[k - 1].h)
    {
      if i < k - 1 {
        ExtendsTrans(before[i].h, before[k - 2].h, after.h);
      }
    }
    forall i {:trigger Grows(gs, i)} | 0 <= i < k - 1
      ensures Grows(gs, i)
    {
      if i < k - 2 {
        assert Grows(before, i);
      }
    }
  }

  /** One history in which every server of every state of the run is accounted for. */
  lemma FinalHistory(r: Run, peers: nat) returns (gs: seq<Ghost>, h: History)
    requires IsRun(r, peers)
    ensures Witnesses(r.states, gs, |r.states|) && h == gs[|r.states| - 1].h && HistoryOk(h)
  {
    gs := WitnessRun(r, peers, |r.states|);
    h := gs[|r.states| - 1].h;
    assert SystemOk(r.states[|r.states| - 1], gs[|r.states| - 1]);
  }

  // ----- reading a server

  ghost predicate Server(r: Run, i: nat, a: nat) {
    i < |r.states| && a < |r.states[i].nodes|
  }

  /** Server a at time i, seen from the final history. */
  lemma InFinal(states: seq<System>, gs: seq<Ghost>, h: History, i: nat, a: nat)
    requires |states| > 0 && Witnesses(states, gs, |states|) && h == gs[|states| - 1].h
    requires i < |states| && a < |states[i].nodes|
    ensures a < |gs[i].ds| && NodeOk(gs[i].h, a, states[i].nodes[a], gs[i].ds[a])
    ensures LogsOk(h, states[i].nodes[a], gs[i].ds[a]) && CommitOk(h, states[i].nodes[a], gs[i].ds[a])
    ensures Extends(gs[i].h, h)
  {
    assert SystemOk(states[i], gs[i]);
    assert NodeOk(gs[i].h, a, states[i].nodes[a], gs[i].ds[a]);
    LogsStay(gs[i].h, h, states[i].nodes[a], gs[i].ds[a]);
  }

  /** A leader's nextIndex is there for every peer and positive. */
  lemma LeaderIndices(states: seq<System>, gs: seq<Ghost>, i: nat, a: nat, server: nat)
    requires Witnesses(states, gs, |states|) && i < |states|
    requires a < |states[i].nodes| && server < |states[i].nodes| && states[i].nodes[a].role.Leader?
    ensures var n := states[i].nodes[a];
            |n.log| > 0 && server < |n.nextIndex| && server < |n.matchIndex| && n.nextIndex[server] >= 1
  {
    assert SystemOk(states[i], gs[i]);
    assert NodeOk(gs[i].h, a, states[i].nodes[a], gs[i].ds[a]);
  }

  lemma FullEntry(n: Node, d: Shadow, x: nat)
    requires LogShown(n, d) && Shows(n, x)
    ensures EntryAt(n, x) == d.full[x]
  {
    assert n.log[1..][x - n.snapshotIndex - 1] == d.full[n.snapshotIndex + 1..][x - n.snapshotIndex - 1];
  }

  // ----- the theorems

  lemma OneLeader(g: History, k: History, h: History, a: nat, n: Node, d: Shadow, b: nat, m: Node, e: Shadow)
    requires Extends(g, h) && Extends(k, h) && NodeOk(g, a, n, d) && NodeOk(k, b, m, e)
    requires n.role.Leader? && m.role.Leader? && n.currentTerm == m.currentTerm
    ensures a == b
  {
  }

  /** Section 5.2: no term ever has two leaders. */
  lemma ElectionSafety(r: Run, peers: nat, i: nat, a: nat, j: nat, b: nat)
    requires IsRun(r, peers) && Server(r, i, a) && Server(r, j, b)
    requires r.states[i].nodes[a].role.Leader? && r.states[j].nodes[b].role.Leader?
    requires r.states[i].nodes[a].currentTerm == r.states[j].nodes[b].currentTerm
    ensures a == b
  {
    var gs, h := FinalHistory(r, peers);
    InFinal(r.states, gs, h, i, a);
    InFinal(r.states, gs, h, j, b);
    OneLeader(gs[i].h, gs[j].h, h, a, r.states[i].nodes[a], gs[i].ds[a], b, r.states[j].nodes[b], gs[j].ds[b]);
  }

  /** Section 5.3: two logs with the same term at an index are the same up to it, wherever both still
      show their entries; also for logs at different times. */
  lemma LogMatching(r: Run, peers: nat, i: nat, a: nat, j: nat, b: nat, x: nat, y: nat)
    requires IsRun(r, peers) && Server(r, i, a) && Server(r, j, b)
    requires Shows(r.states[i].nodes[a], x) && Shows(r.states[j].nodes[b], x)
    requires EntryAt(r.states[i].nodes[a], x).term == EntryAt(r.states[j].nodes[b], x).term
    requires y <= x && Shows(r.states[i].nodes[a], y) && Shows(r.states[j].nodes[b], y)
    ensures EntryAt(r.states[i].nodes[a], y) == EntryAt(r.states[j].nodes[b], y)
  {
    var gs, h := FinalHistory(r, peers);
    InFinal(r.states, gs, h, i, a);
    InFinal(r.states, gs, h, j, b);
    LogsMatch(h, r.states[i].nodes[a], gs[i].ds[a], r.states[j].nodes[b], gs[j].ds[b], x, y);
  }

  lemma LogsMatch(h: History, n: Node, d: Shadow, m: Node, e: Shadow, x: nat, y: nat)
    requires HistoryOk(h) && LogsOk(h, n, d) && LogsOk(h, m, e)
    requires Shows(n, x) && Shows(m, x) && EntryAt(n, x).term == EntryAt(m, x).term
    requires y <= x && Shows(n, y) && Shows(m, y)
    ensures EntryAt(n, y) == EntryAt(m, y)
  {
    FullEntry(n, d, x);
    FullEntry(m, e, x);
    FullEntry(n, d, y);
    FullEntry(m, e, y);
    SameTermSamePrefix(h, d.full, e.full, x);
  }

  /** A settled log that shows what the server shows at a committed index. */
  lemma SettledView(h: History, n: Node, d: Shadow, x: nat) returns (log: Log)
    requires LogsOk(h, n, d) && CommitOk(h, n, d) && n.snapshotIndex <= x <= n.commitIndex
    ensures Settled(h, n.currentTerm, log, x + 1) && log[x].term == EntryAt(n, x).term
    ensures Shows(n, x) ==> log[x] == EntryAt(n, x)
  {
    if n.commitIndex > n.snapshotIndex {
      log := d.full;
      CleanEntry(n, d, x);
      SettledLess(h, n.currentTerm, d.full, n.commitIndex + 1, n.currentTerm, d.full, x + 1);
      if x > n.snapshotIndex {
        FullEntry(n, d, x);
      }
    } else {
      log := d.base;
    }
  }

  /** Sections 5.4.1 and 5.4.2: what any server knows to be committed is in the log of the leader of every
      later term, at the same index; where either server has only the end of a snapshot, its term is there. */
  lemma LeadersAreComplete(r: Run, peers: nat, i: nat, a: nat, j: nat, b: nat, x: nat)
    requires IsRun(r, peers) && Server(r, i, a) && Server(r, j, b)
    requires r.states[i].nodes[a].snapshotIndex <= x <= r.states[i].nodes[a].commitIndex
    requires r.states[j].nodes[b].role.Leader? && r.states[i].nodes[a].currentTerm < r.states[j].nodes[b].currentTerm
    ensures x <= LastIndex(r.states[i].nodes[a]) && x <= LastIndex(r.states[j].nodes[b])
    ensures r.states[j].nodes[b].snapshotIndex <= x ==>
              EntryAt(r.states[j].nodes[b], x).term == EntryAt(r.states[i].nodes[a], x).term
    ensures Shows(r.states[i].nodes[a], x) && Shows(r.states[j].nodes[b], x) ==>
              EntryAt(r.states[j].nodes[b], x) == EntryAt(r.states[i].nodes[a], x)
  {
    var gs, h := FinalHistory(r, peers);
    InFinal(r.states, gs, h, i, a);
    InFinal(r.states, gs, h, j, b);
    var n, m := r.states[i].nodes[a], r.states[j].nodes[b];
    LeaderInFinal(r.states, gs, h, j, b);
    LaterLeaderHolds(h, n, gs[i].ds[a], m, gs[j].ds[b], x);
  }

  /** A leader's log still begins with what it had when elected. */
  lemma LeaderGrew(h: History, k: History, me: nat, m: Node, e: Shadow)
    requires HistoryOk(h) && Extends(h, k) && NodeOk(h, me, m, e) && m.role.Leader?
    ensures m.currentTerm in k.starts
    ensures Agree(k.starts[m.currentTerm], e.full, |k.starts[m.currentTerm]|) && Clean(m, e)
  {
    assert TermOk(h, m.currentTerm);
  }

  lemma LeaderInFinal(states: seq<System>, gs: seq<Ghost>, h: History, j: nat, b: nat)
    requires |states| > 0 && Witnesses(states, gs, |states|) && h == gs[|states| - 1].h
    requires j < |states| && b < |states[j].nodes| && states[j].nodes[b].role.Leader?
    ensures b < |gs[j].ds| && states[j].nodes[b].currentTerm in h.starts && Clean(states[j].nodes[b], gs[j].ds[b])
    ensures var start := h.starts[states[j].nodes[b].currentTerm]; Agree(start, gs[j].ds[b].full, |start|)
  {
    InFinal(states, gs, h, j, b);
    assert SystemOk(states[j], gs[j]);
    LeaderGrew(gs[j].h, h, b, states[j].nodes[b], gs[j].ds[b]);
  }

  lemma LaterLeaderHolds(h: History, n: Node, d: Shadow, m: Node, e: Shadow, x: nat)
    requires HistoryOk(h) && LogsOk(h, n, d) && CommitOk(h, n, d) && n.snapshotIndex <= x <= n.commitIndex
    requires LogsOk(h, m, e) && n.currentTerm < m.currentTerm && m.currentTerm in h.starts && Clean(m, e)
    requires Agree(h.starts[m.currentTerm], e.full, |h.starts[m.currentTerm]|)
    ensures x < |d.full| && x < |e.full|
    ensures m.snapshotIndex <= x ==> EntryAt(m, x).term == EntryAt(n, x).term
    ensures Shows(n, x) && Shows(m, x) ==> EntryAt(m, x) == EntryAt(n, x)
  {
    var log := SettledView(h, n, d, x);
    if x > 0 {
      var v: nat, k: nat :| SettledBy(h, n.currentTerm, log, x + 1, v, k);
      LeaderCompleteness(h, v, k, m.currentTerm);
    }
    assert e.full[x] == log[x];
    if m.snapshotIndex <= x {
      CleanEntry(m, e, x);
    }
    if Shows(m, x) {
      FullEntry(m, e, x);
    }
  }

  /** Section 5.4.3, for logs: where two servers, or two boots of one server, both know an index to be
      committed and still show it, they show the same entry; a snapshot ends at the term of the entry
      that is committed there. */
  lemma CommittedAgree(r: Run, peers: nat, i: nat, a: nat, j: nat, b: nat, x: nat)
    requires IsRun(r, peers) && Server(r, i, a) && Server(r, j, b)
    requires r.states[i].nodes[a].snapshotIndex <= x <= r.states[i].nodes[a].commitIndex
    requires r.states[j].nodes[b].snapshotIndex <= x <= r.states[j].nodes[b].commitIndex
    requires |r.states[i].nodes[a].log| > x - r.states[i].nodes[a].snapshotIndex
    requires |r.states[j].nodes[b].log| > x - r.states[j].nodes[b].snapshotIndex
    ensures EntryAt(r.states[i].nodes[a], x).term == EntryAt(r.states[j].nodes[b], x).term
    ensures Shows(r.states[i].nodes[a], x) && Shows(r.states[j].nodes[b], x) ==>
              EntryAt(r.states[i].nodes[a], x) == EntryAt(r.states[j].nodes[b], x)
  {
    var gs, h := FinalHistory(r, peers);
    InFinal(r.states, gs, h, i, a);
    InFinal(r.states, gs, h, j, b);
    ViewsAgree(h, r.states[i].nodes[a], gs[i].ds[a], r.states[j].nodes[b], gs[j].ds[b], x);
  }

  lemma ViewsAgree(h: History, n: Node, d: Shadow, m: Node, e: Shadow, x: nat)
    requires HistoryOk(h) && LogsOk(h, n, d) && CommitOk(h, n, d) && LogsOk(h, m, e) && CommitOk(h, m, e)
    requires n.snapshotIndex <= x <= n.commitIndex && m.snapshotIndex <= x <= m.commitIndex
    ensures EntryAt(n, x).term == EntryAt(m, x).term
    ensures Shows(n, x) && Shows(m, x) ==> EntryAt(n, x) == EntryAt(m, x)
  {
    var log := SettledView(h, n, d, x);
    var other := SettledView(h, m, e, x);
    SettledAgree(h, n.currentTerm, log, x + 1, m.currentTerm, other, x + 1);
  }

  lemma DeliveredAgree(h: History, x: nat, c: Command, e: Command)
    requires HistoryOk(h) && DeliveredOk(h, x, c) && DeliveredOk(h, x, e)
    ensures c == e
  {
    var v: nat, n: nat :| DeliveredBy(h, x, c, v, n);
    var w: nat, m: nat :| DeliveredBy(h, x, e, w, m);
    assert TermOk(h, v);
    assert TermOk(h, w);
    if v < w {
      LeaderCompleteness(h, v, n, w);
    } else if w < v {
      LeaderCompleteness(h, w, m, v);
    }
  }

  /** Section 5.4.3: no two services, and no two boots of one service, are ever given different commands
      at the same index. */
  lemma StateMachineSafety(r: Run, peers: nat, i: nat, j: nat, d: Delivery, e: Delivery)
    requires IsRun(r, peers) && i < |r.states| && j < |r.states|
    requires d in r.states[i].delivered && e in r.states[j].delivered && d.index == e.index
    ensures d.command == e.command
  {
    var gs, h := FinalHistory(r, peers);
    DeliveriesMatch(r.states, gs, h, i, j, d, e);
  }

  lemma DeliveriesMatch(states: seq<System>, gs: seq<Ghost>, h: History, i: nat, j: nat, d: Delivery, e: Delivery)
    requires |states| > 0 && Witnesses(states, gs, |states|) && h == gs[|states| - 1].h && HistoryOk(h)
    requires i < |states| && j < |states| && d in states[i].delivered && e in states[j].delivered
    requires d.index == e.index
    ensures d.command == e.command
  {
    assert SystemOk(states[i], gs[i]);
    assert SystemOk(states[j], gs[j]);
    assert gs[i].h == gs[i].h && gs[j].h == gs[j].h;
    DeliveredStays(gs[i].h, h, d.index, d.command);
    DeliveredStays(gs[j].h, h, e.index, e.command);
    DeliveredAgree(h, d.index, d.command, e.command);
  }

  /** The indices are in order, what must not be forgotten is on disk, and the terms in the log were reached. */
  ghost predicate Disciplined(n: Node) {
    && n.snapshotIndex <= n.lastApplied <= n.commitIndex <= LastIndex(n)
    && Persisted(n)
    && forall x :: Shows(n, x) ==> 1 <= EntryAt(n, x).term <= n.currentTerm
  }

  lemma NodeDisciplined(h: History, me: nat, n: Node, d: Shadow)
    requires NodeOk(h, me, n, d)
    ensures Disciplined(n)
  {
    forall x | Shows(n, x)
      ensures 1 <= EntryAt(n, x).term <= n.currentTerm
    {
      FullEntry(n, d, x);
      assert GoodAt(h, d.full, x);
    }
  }

  /** The indices of a server stay in order, what it must not forget is on its disk, and every log entry
      carries a term the server has reached. */
  lemma Discipline(r: Run, peers: nat, i: nat, a: nat)
    requires IsRun(r, peers) && Server(r, i, a)
    ensures Disciplined(r.states[i].nodes[a])
  {
    var gs, h := FinalHistory(r, peers);
    InFinal(r.states, gs, h, i, a);
    NodeDisciplined(gs[i].h, a, r.states[i].nodes[a], gs[i].ds[a]);
  }

  /** What is handed over next are exactly the indices above lastApplied up to commitIndex, in order. */
  ghost predicate NextInOrder(n: Node) {
    var (m, msgs) := ApplyCommitted(n);
    && m.lastApplied == n.commitIndex == n.lastApplied + |msgs| <= LastIndex(n)
    && n.snapshotIndex <= n.lastApplied
    && forall k :: 0 <= k < |msgs| ==>
         msgs[k] == ApplyCommand(n.lastApplied + 1 + k, EntryAt(n, n.lastApplied + 1 + k).command)
  }

  lemma DisciplinedApplies(n: Node)
    requires Disciplined(n)
    ensures NextInOrder(n)
  {
    DeliveriesAre(n, n.lastApplied, n.commitIndex);
  }

  /** Applying hands over exactly the indices above lastApplied up to commitIndex, in order, none skipped. */
  lemma AppliesInOrder(r: Run, peers: nat, i: nat, a: nat)
    requires IsRun(r, peers) && Server(r, i, a)
    ensures NextInOrder(r.states[i].nodes[a])
  {
    Discipline(r, peers, i, a);
    DisciplinedApplies(r.states[i].nodes[a]);
  }

  ghost predicate Crashes(step: Step, a: nat) {
    (step.Crash? && step.i == a) || (step.CrashMidway? && step.i == a)
  }

  ghost predicate NotBehind(n: Node, m: Node) {
    n.commitIndex <= m.commitIndex && n.lastApplied <= m.lastApplied
  }

  lemma AppendNotBehind(h: History, me: nat, n: Node, d: Shadow, a: AppendArgs)
    requires HistoryOk(h) && NodeOk(h, me, n, d) && AppendOk(h, a)
    ensures NotBehind(n, AppendEntries(n, a).0)
  {
    AppendCases(n, a);
    if Takes(n, a) {
      TakenMet(h, me, n, d, a);
      AcceptFields(Heard(n, a.term), a);
    }
  }

  lemma VoteNotBehind(n: Node, a: VoteArgs)
    requires |n.log| > 0
    ensures NotBehind(n, RequestVote(n, a).0)
  {
  }

  lemma CountNotBehind(n: Node, me: nat, peers: nat, askedIn: nat, r: VoteReply)
    requires |n.log| > 0 && me < peers
    ensures NotBehind(n, HandleVoteReply(n, me, peers, askedIn, r))
  {
  }

  lemma InstallNotBehind(n: Node, a: InstallArgs)
    requires |n.log| > 0
    ensures NotBehind(n, InstallSnapshot(n, a).node)
  {
  }

  ghost predicate NoneBehind(s: System, t: System) {
    |s.nodes| == |t.nodes| && forall a :: 0 <= a < |s.nodes| ==> NotBehind(s.nodes[a], t.nodes[a])
  }

  lemma PutNotBehind(s: System, i: nat, m: Node, t: System)
    requires i < |s.nodes| && t.nodes == s.nodes[i := m] && NotBehind(s.nodes[i], m)
    ensures NoneBehind(s, t)
  {
  }

  lemma VotesNotBehind(s: System, step: Step)
    requires Enabled(s, step) && (step.VoteArrives? || step.VoteAnswered?)
    ensures NoneBehind(s, Next(s, step))
  {
    var t := Next(s, step);
    match step {
      case VoteArrives(k) =>
        VoteNotBehind(s.nodes[k.voter], s.voteCalls[k]);
        PutNotBehind(s, k.voter, RequestVote(s.nodes[k.voter], s.voteCalls[k]).0, t);
      case VoteAnswered(k) =>
        CountNotBehind(s.nodes[k.candidate], k.candidate, |s.nodes|, k.term, s.voteAnswers[k]);
        PutNotBehind(s, k.candidate,
            HandleVoteReply(s.nodes[k.candidate], k.candidate, |s.nodes|, k.term, s.voteAnswers[k]), t);
    }
  }

  lemma AppendArrivesNotBehind(s: System, g: Ghost, m: AppendCall)
    requires SystemOk(s, g) && Enabled(s, AppendArrives(m))
    ensures NoneBehind(s, Next(s, AppendArrives(m)))
  {
    assert NodeOk(g.h, m.server, s.nodes[m.server], g.ds[m.server]) && AppendOk(g.h, m.args);
    AppendNotBehind(g.h, m.server, s.nodes[m.server], g.ds[m.server], m.args);
    PutNotBehind(s, m.server, AppendEntries(s.nodes[m.server], m.args).0, Next(s, AppendArrives(m)));
  }

  lemma InstallArrivesNotBehind(s: System, m: InstallCall)
    requires Enabled(s, InstallArrives(m))
    ensures NoneBehind(s, Next(s, InstallArrives(m)))
  {
    InstallNotBehind(s.nodes[m.server], m.args);
    PutNotBehind(s, m.server, InstallSnapshot(s.nodes[m.server], m.args).node, Next(s, InstallArrives(m)));
  }

  lemma CommitNotBehind(s: System, g: Ghost, i: nat)
    requires SystemOk(s, g) && Enabled(s, Commit(i))
    ensures NoneBehind(s, Next(s, Commit(i)))
  {
    assert NodeOk(g.h, i, s.nodes[i], g.ds[i]);
    CommitStepOk(g.h, i, s.nodes[i], g.ds[i]);
    PutNotBehind(s, i, UpdateCommitIndex(s.nodes[i], i, |s.nodes|), Next(s, Commit(i)));
  }

  lemma LocalNotBehind(s: System, step: Step, a: nat)
    requires Enabled(s, step) && a < |s.nodes| && !Crashes(step, a)
    requires !(step.VoteArrives? || step.VoteAnswered? || step.AppendArrives? || step.InstallArrives? || step.Commit?)
    ensures a < |Next(s, step).nodes| && NotBehind(s.nodes[a], Next(s, step).nodes[a])
  {
  }

  lemma StepNotBehind(s: System, g: Ghost, step: Step, a: nat)
    requires SystemOk(s, g) && Enabled(s, step) && a < |s.nodes| && !Crashes(step, a)
    ensures a < |Next(s, step).nodes| && NotBehind(s.nodes[a], Next(s, step).nodes[a])
  {
    if step.VoteArrives? || step.VoteAnswered? {
      VotesNotBehind(s, step);
    } else if step.AppendArrives? {
      AppendArrivesNotBehind(s, g, step.appendCall);
    } else if step.InstallArrives? {
      InstallArrivesNotBehind(s, step.installCall);
    } else if step.Commit? {
      CommitNotBehind(s, g, step.i);
    } else {
      LocalNotBehind(s, step, a);
    }
  }

  /** Within one boot neither commitIndex nor lastApplied ever drops. */
  lemma CommitNeverDrops(r: Run, peers: nat, i: nat, a: nat)
    requires IsRun(r, peers) && i < |r.steps| && a < |r.states[i].nodes| && !Crashes(r.steps[i], a)
    ensures a < |r.states[i + 1].nodes| && NotBehind(r.states[i].nodes[a], r.states[i + 1].nodes[a])
  {
    var gs, h := FinalHistory(r, peers);
    assert SystemOk(r.states[i], gs[i]);
    StepNotBehind(r.states[i], gs[i], r.steps[i], a);
  }

  /** Within one boot no entry that a server knows to be committed is ever cut or replaced. */
  lemma CommittedIsNotCut(r: Run, peers: nat, i: nat, a: nat, x: nat)
    requires IsRun(r, peers) && i < |r.steps| && Server(r, i, a) && Server(r, i + 1, a) && !Crashes(r.steps[i], a)
    requires r.states[i].nodes[a].snapshotIndex < x <= r.states[i].nodes[a].commitIndex
    ensures Shows(r.states[i].nodes[a], x) && x <= LastIndex(r.states[i + 1].nodes[a])
    ensures r.states[i + 1].nodes[a].snapshotIndex < x ==>
              EntryAt(r.states[i + 1].nodes[a], x) == EntryAt(r.states[i].nodes[a], x)
  {
    CommitNeverDrops(r, peers, i, a);
    Discipline(r, peers, i, a);
    Discipline(r, peers, i + 1, a);
    if r.states[i + 1].nodes[a].snapshotIndex < x {
      CommittedAgree(r, peers, i, a, i + 1, a, x);
    }
  }
}
