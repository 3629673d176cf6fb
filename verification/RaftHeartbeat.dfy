/** The heartbeat lock by lock.  It reads the commit index, the snapshot and its index under one lock, and
    builds the message for each peer under a later one; other regions of the server may run in between.
    A course of such heartbeats in which every message is guarded is a run of RaftSystem; one in which every
    message is harmless keeps the invariant of the servers. */
module RaftHeartbeat {
  import opened RaftNode
  import opened RaftSystem
  import opened RaftHistory
  import opened RaftEvents
  import opened RaftInvariant
  import opened RaftLeadership
  import opened RaftSnapshot
  import opened RaftSafety
  import opened RaftTheorems
  import opened Traces
  import RaftService

  // ----- a message built from an earlier reading

  /** The message says what the server holds: its present snapshot, or entries above it. */
  ghost predicate Faithful(n: Node, message: Outgoing) {
    match message
    case SendInstall(a) =>
      a.lastIncludedIndex == n.snapshotIndex && a.lastIncludedTerm == n.snapshotTerm && a.data == n.disk.snapshot
    case SendAppend(a) =>
      && a.prevLogIndex >= n.snapshotIndex
      && (if a.prevLogIndex <= LastIndex(n) then
            && a.prevLogTerm == n.log[a.prevLogIndex - n.snapshotIndex].term
            && a.entries == n.log[a.prevLogIndex - n.snapshotIndex + 1..]
          else a.prevLogTerm == 0 && a.entries == [])
  }

  /** A reading, with the term of the snapshot at that moment, which the code does not read. */
  datatype Note = Note(seen: Reading, snapshotTerm: nat)

  function NoteOf(n: Node): Note {
    Note(ReadingOf(n), n.snapshotTerm)
  }

  /** The peer needs nothing of the present snapshot, or that is the one that was read and it is not empty. */
  ghost predicate Guard(n: Node, srv: nat, seen: Reading) {
    srv < |n.nextIndex| &&
    (n.nextIndex[srv] > n.snapshotIndex || (seen.snapshotIndex == n.snapshotIndex && |seen.snapshot| > 0))
  }

  /** The server is where the note was made or further on. */
  ghost predicate Since(n: Node, note: Note) {
    && note.seen.commitIndex <= n.commitIndex && note.seen.snapshotIndex <= n.snapshotIndex
    && (note.seen.snapshotIndex == n.snapshotIndex ==>
          note.seen.snapshot == n.disk.snapshot && note.snapshotTerm == n.snapshotTerm)
  }

  /** The message is faithful exactly when it is guarded; and then it is the message built in one step. */
  lemma FaithfulExactlyWhen(n: Node, me: nat, srv: nat, note: Note)
    requires |n.log| > 0 && srv < |n.nextIndex| && n.nextIndex[srv] >= 1 && Since(n, note)
    ensures Faithful(n, BuildFrom(n, me, srv, note.seen)) <==> Guard(n, srv, note.seen)
    ensures Guard(n, srv, note.seen) ==>
              BuildFrom(n, me, srv, note.seen) == BuildMessage(n, me, srv, note.seen.commitIndex)
  {
    var next := n.nextIndex[srv];
    if next > n.snapshotIndex && next - n.snapshotIndex == |n.log| {
      assert n.log[next - n.snapshotIndex..] == [];
    }
  }

  /** Right after a leader has taken a snapshot, everything it sends is faithful, even if the snapshot is
      empty: no peer is left behind it. */
  lemma FaithfulAfterSnapshot(n: Node, me: nat, index: nat, data: seq<Command>, srv: nat)
    requires n.role.Leader? && Compacts(n, index) && srv != me && srv < |n.nextIndex|
    ensures var m := Snapshot(n, me, index, data);
            && srv < |m.nextIndex| && BuildFrom(m, me, srv, ReadingOf(m)).SendAppend?
            && Faithful(m, BuildFrom(m, me, srv, ReadingOf(m)))
  {
    var m := Snapshot(n, me, index, data);
    FaithfulExactlyWhen(m, me, srv, NoteOf(m));
  }

  // ----- a message that does no harm

  /** The snapshot that was read goes out. */
  ghost predicate Behind(n: Node, srv: nat, seen: Reading)
    requires srv < |n.nextIndex|
  {
    n.nextIndex[srv] <= seen.snapshotIndex && |seen.snapshot| > 0
  }

  /** An older snapshot that goes out ends in the term of the present one; entries go out to a peer that needs
      nothing of the present snapshot, or with a previous index above 0, which every server refuses, or to
      a peer that is told to start over and is neither sent entries nor told of any that are committed. */
  ghost predicate Harmless(n: Node, srv: nat, note: Note) {
    srv < |n.nextIndex| &&
    if Behind(n, srv, note.seen) then note.snapshotTerm == n.snapshotTerm
    else
      || n.nextIndex[srv] > n.snapshotIndex
      || n.nextIndex[srv] >= 2
      || (n.snapshotIndex > 1 && note.seen.commitIndex == 0)
  }

  /** The message is one that the servers' invariant allows to be on its way. */
  ghost predicate Acceptable(h: History, message: Outgoing) {
    match message
    case SendAppend(a) => AppendOk(h, a)
    case SendInstall(a) => InstallOk(h, a)
  }

  /** What was read was committed in the log of that term. */
  ghost predicate NoteOk(h: History, me: nat, note: Note) {
    |note.seen.snapshot| > 0 ==>
      InstallOk(h, InstallArgs(note.seen.term, me, note.seen.snapshotIndex, note.snapshotTerm, note.seen.snapshot))
  }

  /** The dummy entry goes out for the entry at index 1, and that is what it is. */
  ghost predicate ShipsNil(n: Node, d: Shadow, srv: nat, note: Note)
    requires srv < |n.nextIndex| && LogShown(n, d)
  {
    n.nextIndex[srv] == n.snapshotIndex == 1 && !Behind(n, srv, note.seen) && d.full[1].command == Nil
  }

  /** A message that a leader builds from an earlier reading is acceptable exactly when it is harmless, if the
      command at index 1 is not the dummy's own. */
  lemma HarmlessExactlyWhen(h: History, me: nat, n: Node, d: Shadow, srv: nat, note: Note)
    requires NodeOk(h, me, n, d) && n.role.Leader? && srv < h.peers
    requires Since(n, note) && NoteOk(h, me, note) && note.seen.term == n.currentTerm
    ensures Acceptable(h, BuildFrom(n, me, srv, note.seen)) <==> Harmless(n, srv, note) || ShipsNil(n, d, srv, note)
  {
    if Behind(n, srv, note.seen) {
      OldSnapshot(h, me, n, d, srv, note);
    } else if n.nextIndex[srv] > n.snapshotIndex {
      SentAppendOk(h, me, n, d, srv, note.seen.commitIndex);
    } else if n.nextIndex[srv] == 1 {
      StartsOver(h, me, n, d, srv, note);
    }
  }

  lemma OldSnapshot(h: History, me: nat, n: Node, d: Shadow, srv: nat, note: Note)
    requires NodeOk(h, me, n, d) && n.role.Leader? && srv < h.peers && Behind(n, srv, note.seen)
    requires NoteOk(h, me, note) && note.seen.term == n.currentTerm
    ensures Acceptable(h, BuildFrom(n, me, srv, note.seen)) <==> note.snapshotTerm == n.snapshotTerm
  {
  }

  lemma StartsOver(h: History, me: nat, n: Node, d: Shadow, srv: nat, note: Note)
    requires NodeOk(h, me, n, d) && n.role.Leader? && srv < h.peers && !Behind(n, srv, note.seen)
    requires 1 == n.nextIndex[srv] <= n.snapshotIndex && Since(n, note) && note.seen.term == n.currentTerm
    ensures Acceptable(h, BuildFrom(n, me, srv, note.seen)) <==>
            if n.snapshotIndex > 1 then note.seen.commitIndex == 0 else d.full[1].command == Nil
  {
    var a := BuildFrom(n, me, srv, note.seen).append;
    if n.snapshotIndex == 1 {
      assert n.log[0..] == n.log;
      SentCommit(h, n, d, note.seen.commitIndex);
      DummyMatches(h, n, d, a);
    }
  }

  /** The whole compacted log as a slice from index 1 on. */
  lemma DummyMatches(h: History, n: Node, d: Shadow, a: AppendArgs)
    requires LogsOk(h, n, d) && Clean(n, d) && n.snapshotIndex == 1 && a.term in h.logs && h.logs[a.term] == d.full
    requires a.prevLogIndex == 0 && a.prevLogTerm == 0 && a.entries == n.log && a.leaderCommit < |d.full|
    requires Settled(h, a.term, d.full, a.leaderCommit + 1)
    ensures AppendOk(h, a) <==> d.full[1].command == Nil
  {
    CleanEntry(n, d, 1);
    assert a.entries[0] == Entry(d.full[1].term, Nil);
    forall i | 1 <= i < |a.entries| ensures a.entries[i] == d.full[1 + i] {
      FullEntry(n, d, 1 + i);
    }
  }

  lemma GuardedDoesNoHarm(n: Node, srv: nat, note: Note)
    requires Since(n, note) && Guard(n, srv, note.seen)
    ensures Harmless(n, srv, note)
  {
  }

  // ----- the cluster

  /** `notes[i]` is what the heartbeats of server i have read since it booted. */
  datatype Cluster = Cluster(system: System, notes: seq<set<Note>>)

  datatype Action =
    | Read(i: nat)
    | SendRead(i: nat, server: nat, note: Note)
    | Other(step: Step)

  function Begin(peers: nat): Cluster {
    Cluster(Init(peers), seq(peers, _ => {}))
  }

  /** A message is built only if the server still leads in the term of the reading. */
  ghost predicate Possible(c: Cluster, action: Action) {
    && Shaped(c.system) && |c.notes| == |c.system.nodes|
    && match action
       case Read(i) => i < |c.notes| && c.system.nodes[i].role.Leader?
       case SendRead(i, server, note) =>
         && i < |c.notes| && server < |c.notes| && server != i
         && note in c.notes[i] && c.system.nodes[i].role.Leader? && c.system.nodes[i].currentTerm == note.seen.term
       case Other(step) => !step.Send? && Enabled(c.system, step)
  }

  function Posted(s: System, server: nat, message: Outgoing): System {
    match message
    case SendAppend(a) => s.(appendCalls := s.appendCalls + {AppendCall(server, a)})
    case SendInstall(a) => s.(installCalls := s.installCalls + {InstallCall(server, a)})
  }

  ghost function Forgotten(notes: seq<set<Note>>, step: Step): seq<set<Note>> {
    if (step.Crash? || step.CrashMidway?) && step.i < |notes| then notes[step.i := {}] else notes
  }

  ghost function After(c: Cluster, action: Action): Cluster
    requires Possible(c, action)
  {
    match action
    case Read(i) => c.(notes := c.notes[i := c.notes[i] + {NoteOf(c.system.nodes[i])}])
    case SendRead(i, server, note) =>
      c.(system := Posted(c.system, server, BuildFrom(c.system.nodes[i], i, server, note.seen)))
    case Other(step) => Cluster(Next(c.system, step), Forgotten(c.notes, step))
  }

  datatype Course = Course(states: seq<Cluster>, actions: seq<Action>)

  ghost predicate IsCourse(b: Course, peers: nat) {
    && |b.states| == |b.actions| + 1 && b.states[0] == Begin(peers)
    && forall i :: 0 <= i < |b.actions| ==>
         Possible(b.states[i], b.actions[i]) && b.states[i + 1] == After(b.states[i], b.actions[i])
  }

  ghost predicate Guarded(c: Cluster, action: Action) {
    action.SendRead? && action.i < |c.system.nodes| ==> Guard(c.system.nodes[action.i], action.server, action.note.seen)
  }

  /** The first k actions are guarded. */
  ghost predicate GuardedUpTo(b: Course, k: nat) {
    k <= |b.actions| && k < |b.states| && forall i :: 0 <= i < k ==> Guarded(b.states[i], b.actions[i])
  }

  ghost predicate DoesNoHarm(c: Cluster, action: Action) {
    action.SendRead? && action.i < |c.system.nodes| ==> Harmless(c.system.nodes[action.i], action.server, action.note)
  }

  /** The first k actions do no harm. */
  ghost predicate HarmlessUpTo(b: Course, k: nat) {
    k <= |b.actions| && k < |b.states| && forall i :: 0 <= i < k ==> DoesNoHarm(b.states[i], b.actions[i])
  }

  // ----- notes stay behind the server

  ghost predicate NotesBehind(c: Cluster) {
    && |c.notes| == |c.system.nodes|
    && forall i, note :: 0 <= i < |c.notes| && note in c.notes[i] ==> Since(c.system.nodes[i], note)
  }

  /** The snapshot is only replaced by one of a higher index. */
  ghost predicate SnapshotsRise(n: Node, m: Node) {
    && n.snapshotIndex <= m.snapshotIndex
    && (n.snapshotIndex == m.snapshotIndex ==>
          m.disk.snapshot == n.disk.snapshot && m.snapshotTerm == n.snapshotTerm)
  }

  lemma InstallRises(n: Node, a: InstallArgs)
    requires |n.log| > 0
    ensures SnapshotsRise(n, InstallSnapshot(n, a).node)
  {
    InstallCases(n, a);
  }

  lemma StepRises(s: System, step: Step, a: nat)
    requires Enabled(s, step) && a < |s.nodes| && !step.Send? && !Crashes(step, a)
    ensures a < |Next(s, step).nodes| && SnapshotsRise(s.nodes[a], Next(s, step).nodes[a])
  {
    if step.Timeout? || step.VoteArrives? || step.VoteAnswered? {
      var i, m := RaftService.SilentElection(s, step);
    } else if step.Propose? || step.AppendArrives? || step.AppendAnswered? || step.InstallAnswered? || step.Commit? {
      var i, m := RaftService.SilentReplication(s, step);
    } else if step.InstallArrives? {
      InstallRises(s.nodes[step.installCall.server], step.installCall.args);
    }
  }

  lemma SinceStays(s: System, g: Ghost, step: Step, i: nat, note: Note)
    requires SystemOk(s, g) && Enabled(s, step) && i < |s.nodes| && Since(s.nodes[i], note)
    requires !step.Send? && !Crashes(step, i)
    ensures i < |Next(s, step).nodes| && Since(Next(s, step).nodes[i], note)
  {
    StepNotBehind(s, g, step, i);
    StepRises(s, step, i);
  }

  lemma NotesStayBehind(c: Cluster, g: Ghost, step: Step)
    requires SystemOk(c.system, g) && NotesBehind(c) && Possible(c, Other(step))
    ensures NotesBehind(After(c, Other(step)))
  {
    var d := After(c, Other(step));
    SameSize(c.system, step);
    assert d == Cluster(Next(c.system, step), Forgotten(c.notes, step));
    forall i, note | 0 <= i < |d.notes| && note in d.notes[i]
      ensures Since(d.system.nodes[i], note)
    {
      assert !Crashes(step, i) && note in c.notes[i];
      SinceStays(c.system, g, step, i, note);
    }
  }

  lemma SameSize(s: System, step: Step)
    requires Enabled(s, step)
    ensures |Next(s, step).nodes| == |s.nodes|
  {
  }

  // ----- guarded runs are runs of the system

  lemma Extended(r: Run, peers: nat, step: Step) returns (q: Run)
    requires IsRun(r, peers) && Enabled(Last(r.states), step)
    ensures IsRun(q, peers) && q.states == r.states + [Next(Last(r.states), step)] && q.steps == r.steps + [step]
  {
    var next := Next(Last(r.states), step);
    LinkedOn(r.states, r.steps, (s, e, t) => Enabled(s, e) && t == Next(s, e), step, next);
    q := Run(r.states + [next], r.steps + [step]);
  }

  /** The run r has gone as far as the cluster has. */
  ghost predicate Mirrors(r: Run, peers: nat, c: Cluster) {
    IsRun(r, peers) && c.system == Last(r.states) && NotesBehind(c)
  }

  lemma MirrorsSend(r: Run, peers: nat, c: Cluster, i: nat, server: nat, note: Note) returns (q: Run)
    requires Mirrors(r, peers, c) && Possible(c, SendRead(i, server, note)) && Guarded(c, SendRead(i, server, note))
    ensures Mirrors(q, peers, After(c, SendRead(i, server, note)))
    ensures q.states == r.states + [Last(q.states)]
  {
    var gs, h := FinalHistory(r, peers);
    LeaderIndices(r.states, gs, |r.states| - 1, i, server);
    FaithfulExactlyWhen(c.system.nodes[i], i, server, note);
    q := Extended(r, peers, Send(i, server, note.seen.commitIndex));
    assert After(c, SendRead(i, server, note)).system == AfterSend(c.system, i, server, note.seen.commitIndex);
  }

  lemma MirrorsOther(r: Run, peers: nat, c: Cluster, step: Step) returns (q: Run)
    requires Mirrors(r, peers, c) && Possible(c, Other(step))
    ensures Mirrors(q, peers, After(c, Other(step)))
    ensures q.states == r.states + [Last(q.states)]
  {
    var gs, h := FinalHistory(r, peers);
    var k := |r.states| - 1;
    assert SystemOk(r.states[k], gs[k]);
    NotesStayBehind(c, gs[k], step);
    q := Extended(r, peers, step);
  }

  /** Every state of the course is a state of the run, in the same order. */
  ghost predicate Follows(b: Course, k: nat, r: Run, at: seq<nat>) {
    && k < |b.states| && |at| == k + 1
    && (forall i :: 0 <= i <= k ==> at[i] < |r.states| && r.states[at[i]] == b.states[i].system)
    && (forall i :: 0 <= i < k ==> at[i] <= at[i + 1] <= at[i] + 1)
  }

  /** As long as every message is guarded, what the cluster goes through is a run of RaftSystem, in which
      each message is built in one step; only the readings leave no trace. */
  lemma {:induction false} GuardedIsRun(b: Course, peers: nat, k: nat) returns (r: Run, at: seq<nat>)
    requires IsCourse(b, peers) && GuardedUpTo(b, k)
    ensures Mirrors(r, peers, b.states[k]) && Follows(b, k, r, at) && at[k] == |r.states| - 1
    decreases k
  {
    if k == 0 {
      r, at := Run([Init(peers)], []), [0];
    } else {
      var q, before := GuardedIsRun(b, peers, k - 1);
      var c, action := b.states[k - 1], b.actions[k - 1];
      assert Possible(c, action) && b.states[k] == After(c, action) && Guarded(c, action);
      match action {
        case Read(i) => r := q;
        case SendRead(i, server, note) => r := MirrorsSend(q, peers, c, i, server, note);
        case Other(step) => r := MirrorsOther(q, peers, c, step);
      }
      at := before + [|r.states| - 1];
      FollowsOn(b, k, q, before, r, at);
    }
  }

  lemma FollowsOn(b: Course, k: nat, q: Run, before: seq<nat>, r: Run, at: seq<nat>)
    requires 1 <= k < |b.states| && Follows(b, k - 1, q, before) && |q.states| > 0 && before[k - 1] == |q.states| - 1
    requires |r.states| > 0 && Last(r.states) == b.states[k].system
    requires r == q || r.states == q.states + [Last(r.states)]
    requires at == before + [|r.states| - 1]
    ensures Follows(b, k, r, at)
  {
  }

  lemma Acted(b: Course, peers: nat, action: Action) returns (c: Course)
    requires IsCourse(b, peers) && Possible(Last(b.states), action)
    ensures IsCourse(c, peers) && c.actions == b.actions + [action]
    ensures c.states == b.states + [After(Last(b.states), action)]
  {
    var next := After(Last(b.states), action);
    LinkedOn(b.states, b.actions, (s, e, t) => Possible(s, e) && t == After(s, e), action, next);
    c := Course(b.states + [next], b.actions + [action]);
  }

  // ----- harmless messages keep the invariant

  /** Everything is in order, and so is what was read. */
  ghost predicate ClusterOk(c: Cluster, g: Ghost) {
    && SystemOk(c.system, g) && NotesBehind(c)
    && forall i, note :: 0 <= i < |c.notes| && note in c.notes[i] ==> NoteOk(g.h, i, note)
  }

  lemma NoteTaken(h: History, me: nat, n: Node, d: Shadow)
    requires NodeOk(h, me, n, d) && n.role.Leader?
    ensures NoteOk(h, me, NoteOf(n)) && Since(n, NoteOf(n))
  {
    SettledLess(h, n.currentTerm, d.base, n.snapshotIndex + 1, n.currentTerm, d.full, n.snapshotIndex + 1);
  }

  lemma ReadOk(c: Cluster, g: Ghost, i: nat)
    requires ClusterOk(c, g) && Possible(c, Read(i))
    ensures ClusterOk(After(c, Read(i)), g)
  {
    assert NodeOk(g.h, i, c.system.nodes[i], g.ds[i]);
    NoteTaken(g.h, i, c.system.nodes[i], g.ds[i]);
  }

  lemma SendReadOk(c: Cluster, g: Ghost, i: nat, server: nat, note: Note)
    requires ClusterOk(c, g) && Possible(c, SendRead(i, server, note)) && DoesNoHarm(c, SendRead(i, server, note))
    ensures ClusterOk(After(c, SendRead(i, server, note)), g)
  {
    var n := c.system.nodes[i];
    assert NodeOk(g.h, i, n, g.ds[i]) && NoteOk(g.h, i, note) && Since(n, note);
    HarmlessExactlyWhen(g.h, i, n, g.ds[i], server, note);
    match BuildFrom(n, i, server, note.seen) {
      case SendAppend(a) => CallAdded(c.system, g, AppendCall(server, a));
      case SendInstall(a) => InstallAdded(c.system, g, InstallCall(server, a));
    }
  }

  lemma NotesLater(c: Cluster, h: History, d: Cluster, k: History)
    requires Extends(h, k) && |d.notes| == |c.notes|
    requires forall i, note :: 0 <= i < |c.notes| && note in c.notes[i] ==> NoteOk(h, i, note)
    requires forall i :: 0 <= i < |c.notes| ==> d.notes[i] <= c.notes[i]
    ensures forall i, note :: 0 <= i < |d.notes| && note in d.notes[i] ==> NoteOk(k, i, note)
  {
    forall i, note | 0 <= i < |d.notes| && note in d.notes[i]
      ensures NoteOk(k, i, note)
    {
      assert NoteOk(h, i, note);
      if |note.seen.snapshot| > 0 {
        InstallStays(h, k, InstallArgs(note.seen.term, i, note.seen.snapshotIndex, note.snapshotTerm,
                                       note.seen.snapshot));
      }
    }
  }

  lemma OtherOk(c: Cluster, g: Ghost, step: Step) returns (after: Ghost)
    requires ClusterOk(c, g) && Possible(c, Other(step))
    ensures ClusterOk(After(c, Other(step)), after) && Extends(g.h, after.h)
  {
    after := StepOk(c.system, g, step);
    NotesStayBehind(c, g, step);
    OnlyForgotten(c, step);
    NotesLater(c, g.h, After(c, Other(step)), after.h);
  }

  lemma OnlyForgotten(c: Cluster, step: Step)
    requires Possible(c, Other(step))
    ensures var d := After(c, Other(step));
            d.system == Next(c.system, step) && |d.notes| == |c.notes| &&
            forall i :: 0 <= i < |c.notes| ==> d.notes[i] <= c.notes[i]
  {
  }

  lemma ActionOk(c: Cluster, g: Ghost, action: Action) returns (after: Ghost)
    requires ClusterOk(c, g) && Possible(c, action) && DoesNoHarm(c, action)
    ensures ClusterOk(After(c, action), after) && Extends(g.h, after.h)
  {
    after := g;
    match action {
      case Read(i) =>
        NothingNew(g.h, 0);
        ReadOk(c, g, i);
      case SendRead(i, server, note) =>
        NothingNew(g.h, 0);
        SendReadOk(c, g, i, server, note);
      case Other(step) => after := OtherOk(c, g, step);
    }
  }

  /** The clusters' systems up to k. */
  function Systems(b: Course, k: nat): seq<System>
    requires k < |b.states|
  {
    seq(k + 1, i requires 0 <= i <= k => b.states[i].system)
  }

  /** As long as every message is harmless, one history accounts for every server in every state. */
  lemma {:induction false} CourseHistory(b: Course, peers: nat, k: nat) returns (gs: seq<Ghost>)
    requires IsCourse(b, peers) && HarmlessUpTo(b, k)
    ensures Witnesses(Systems(b, k), gs, k + 1) && ClusterOk(b.states[k], gs[k])
    decreases k
  {
    if k == 0 {
      gs := CourseBegins(b, peers);
    } else {
      var before := CourseHistory(b, peers, k - 1);
      var c, action := b.states[k - 1], b.actions[k - 1];
      assert Possible(c, action) && b.states[k] == After(c, action) && DoesNoHarm(c, action);
      var after := ActionOk(c, before[k - 1], action);
      gs := before + [after];
      CourseWitnessed(b, k, before, after);
    }
  }

  lemma CourseWitnessed(b: Course, k: nat, before: seq<Ghost>, after: Ghost)
    requires 1 <= k < |b.states| && Witnesses(Systems(b, k - 1), before, k)
    requires SystemOk(b.states[k].system, after) && Extends(before[k - 1].h, after.h)
    ensures Witnesses(Systems(b, k), before + [after], k + 1)
  {
    SystemsOn(b, k);
    WitnessesOn(Systems(b, k - 1), before, b.states[k].system, after);
  }

  lemma SystemsOn(b: Course, k: nat)
    requires 1 <= k < |b.states|
    ensures Systems(b, k) == Systems(b, k - 1) + [b.states[k].system]
  {
  }

  lemma CourseBegins(b: Course, peers: nat) returns (gs: seq<Ghost>)
    requires |b.states| > 0 && b.states[0] == Begin(peers)
    ensures Witnesses(Systems(b, 0), gs, 1) && ClusterOk(b.states[0], gs[0])
  {
    gs := WitnessStart(Systems(b, 0), peers);
    assert SystemOk(Systems(b, 0)[0], gs[0]);
  }

  lemma WitnessesOn(states: seq<System>, before: seq<Ghost>, s: System, after: Ghost)
    requires |states| > 0 && Witnesses(states, before, |states|)
    requires SystemOk(s, after) && Extends(before[|states| - 1].h, after.h)
    ensures Witnesses(states + [s], before + [after], |states| + 1)
  {
    var longer := states + [s];
    forall i {:trigger SystemOk(longer[i], before[i])} | 0 <= i < |states|
      ensures SystemOk(longer[i], before[i])
    {
      assert SystemOk(states[i], before[i]);
    }
    WitnessMore(longer, before, after, |longer|);
  }

  /** Guarded messages are harmless. */
  lemma {:induction false} GuardedIsHarmless(b: Course, peers: nat, k: nat)
    requires IsCourse(b, peers) && GuardedUpTo(b, k)
    ensures HarmlessUpTo(b, k)
    decreases k
  {
    if k > 0 {
      GuardedIsHarmless(b, peers, k - 1);
      var gs := CourseHistory(b, peers, k - 1);
      var c, action := b.states[k - 1], b.actions[k - 1];
      assert Possible(c, action) && Guarded(c, action);
      if action.SendRead? {
        GuardedDoesNoHarm(c.system.nodes[action.i], action.server, action.note);
      }
    }
  }
}
