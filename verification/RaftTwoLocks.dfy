/** What holds in every course of the cluster with the two locks of the heartbeat apart, as long as every
    message is harmless. */
module RaftTwoLocks {
  import opened RaftNode
  import opened RaftSystem
  import opened RaftHistory
  import opened RaftSafety
  import opened RaftTheorems
  import opened RaftHeartbeat
  import opened RaftEvents
  import S = RaftService

  /** Server a at time i; up to time k every message was harmless. */
  ghost predicate Server(b: Course, peers: nat, k: nat, i: nat, a: nat) {
    IsCourse(b, peers) && HarmlessUpTo(b, k) && i <= k && a < |b.states[i].system.nodes|
  }

  function At(b: Course, i: nat, a: nat): Node
    requires i < |b.states| && a < |b.states[i].system.nodes|
  {
    b.states[i].system.nodes[a]
  }

  /** One history for all states up to k. */
  lemma Accounted(b: Course, peers: nat, k: nat) returns (states: seq<System>, gs: seq<Ghost>, h: History)
    requires IsCourse(b, peers) && HarmlessUpTo(b, k)
    ensures states == Systems(b, k) && Witnesses(states, gs, |states|) && h == gs[k].h && HistoryOk(h)
  {
    states := Systems(b, k);
    gs := CourseHistory(b, peers, k);
    h := gs[k].h;
    assert SystemOk(states[k], gs[k]);
  }

  /** Section 5.2: no term ever has two leaders. */
  lemma ElectionSafety(b: Course, peers: nat, k: nat, i: nat, a: nat, j: nat, c: nat)
    requires Server(b, peers, k, i, a) && Server(b, peers, k, j, c)
    requires At(b, i, a).role.Leader? && At(b, j, c).role.Leader? && At(b, i, a).currentTerm == At(b, j, c).currentTerm
    ensures a == c
  {
    var states, gs, h := Accounted(b, peers, k);
    InFinal(states, gs, h, i, a);
    InFinal(states, gs, h, j, c);
    OneLeader(gs[i].h, gs[j].h, h, a, At(b, i, a), gs[i].ds[a], c, At(b, j, c), gs[j].ds[c]);
  }

  /** Section 5.3: two logs with the same term at an index are the same up to it. */
  lemma LogMatching(b: Course, peers: nat, k: nat, i: nat, a: nat, j: nat, c: nat, x: nat, y: nat)
    requires Server(b, peers, k, i, a) && Server(b, peers, k, j, c)
    requires Shows(At(b, i, a), x) && Shows(At(b, j, c), x)
    requires EntryAt(At(b, i, a), x).term == EntryAt(At(b, j, c), x).term
    requires y <= x && Shows(At(b, i, a), y) && Shows(At(b, j, c), y)
    ensures EntryAt(At(b, i, a), y) == EntryAt(At(b, j, c), y)
  {
    var states, gs, h := Accounted(b, peers, k);
    InFinal(states, gs, h, i, a);
    InFinal(states, gs, h, j, c);
    LogsMatch(h, At(b, i, a), gs[i].ds[a], At(b, j, c), gs[j].ds[c], x, y);
  }

  /** Sections 5.4.1 and 5.4.2: what any server knows to be committed is in the log of the leader of every
      later term. */
  lemma LeadersAreComplete(b: Course, peers: nat, k: nat, i: nat, a: nat, j: nat, c: nat, x: nat)
    requires Server(b, peers, k, i, a) && Server(b, peers, k, j, c)
    requires At(b, i, a).snapshotIndex <= x <= At(b, i, a).commitIndex
    requires At(b, j, c).role.Leader? && At(b, i, a).currentTerm < At(b, j, c).currentTerm
    ensures x <= LastIndex(At(b, i, a)) && x <= LastIndex(At(b, j, c))
    ensures At(b, j, c).snapshotIndex <= x ==> EntryAt(At(b, j, c), x).term == EntryAt(At(b, i, a), x).term
    ensures Shows(At(b, i, a), x) && Shows(At(b, j, c), x) ==> EntryAt(At(b, j, c), x) == EntryAt(At(b, i, a), x)
  {
    var states, gs, h := Accounted(b, peers, k);
    InFinal(states, gs, h, i, a);
    InFinal(states, gs, h, j, c);
    LeaderInFinal(states, gs, h, j, c);
    LaterLeaderHolds(h, At(b, i, a), gs[i].ds[a], At(b, j, c), gs[j].ds[c], x);
  }

  /** Section 5.4.3, for logs: any two servers agree on every index both know to be committed. */
  lemma CommittedAgree(b: Course, peers: nat, k: nat, i: nat, a: nat, j: nat, c: nat, x: nat)
    requires Server(b, peers, k, i, a) && Server(b, peers, k, j, c)
    requires At(b, i, a).snapshotIndex <= x <= At(b, i, a).commitIndex
    requires At(b, j, c).snapshotIndex <= x <= At(b, j, c).commitIndex
    ensures x <= LastIndex(At(b, i, a)) && x <= LastIndex(At(b, j, c))
    ensures EntryAt(At(b, i, a), x).term == EntryAt(At(b, j, c), x).term
    ensures Shows(At(b, i, a), x) && Shows(At(b, j, c), x) ==> EntryAt(At(b, i, a), x) == EntryAt(At(b, j, c), x)
  {
    var states, gs, h := Accounted(b, peers, k);
    InFinal(states, gs, h, i, a);
    InFinal(states, gs, h, j, c);
    ViewsAgree(h, At(b, i, a), gs[i].ds[a], At(b, j, c), gs[j].ds[c], x);
  }

  /** Section 5.4.3: no two services, and no two boots of one, are ever given different commands at one index. */
  lemma StateMachineSafety(b: Course, peers: nat, k: nat, i: nat, j: nat, d: Delivery, e: Delivery)
    requires IsCourse(b, peers) && HarmlessUpTo(b, k) && i <= k && j <= k
    requires d in b.states[i].system.delivered && e in b.states[j].system.delivered && d.index == e.index
    ensures d.command == e.command
  {
    var states, gs, h := Accounted(b, peers, k);
    assert states[i] == b.states[i].system && states[j] == b.states[j].system;
    DeliveriesMatch(states, gs, h, i, j, d, e);
  }

  /** The indices of a server stay in order, what it must not forget is on its disk, and what is handed over
      next is exactly what lies between lastApplied and commitIndex. */
  lemma Discipline(b: Course, peers: nat, k: nat, i: nat, a: nat)
    requires Server(b, peers, k, i, a)
    ensures Disciplined(At(b, i, a)) && NextInOrder(At(b, i, a))
  {
    var states, gs, h := Accounted(b, peers, k);
    InFinal(states, gs, h, i, a);
    NodeDisciplined(gs[i].h, a, At(b, i, a), gs[i].ds[a]);
    DisciplinedApplies(At(b, i, a));
  }

  ghost predicate Reboots(action: Action, a: nat) {
    action.Other? && Crashes(action.step, a)
  }

  /** Within one boot neither commitIndex nor lastApplied ever drops. */
  lemma CommitNeverDrops(b: Course, peers: nat, i: nat, a: nat)
    requires Server(b, peers, i, i, a) && i < |b.actions| && !Reboots(b.actions[i], a)
    ensures a < |b.states[i + 1].system.nodes| && NotBehind(At(b, i, a), At(b, i + 1, a))
  {
    var c, action := b.states[i], b.actions[i];
    assert Possible(c, action) && b.states[i + 1] == After(c, action);
    if action.Other? {
      var gs := CourseHistory(b, peers, i);
      StepNotBehind(c.system, gs[i], action.step, a);
    }
  }

  /** Within one boot no entry that a server knows to be committed is ever cut or replaced. */
  lemma CommittedIsNotCut(b: Course, peers: nat, i: nat, a: nat, x: nat)
    requires Server(b, peers, i + 1, i, a) && Server(b, peers, i + 1, i + 1, a) && !Reboots(b.actions[i], a)
    requires At(b, i, a).snapshotIndex < x <= At(b, i, a).commitIndex
    ensures Shows(At(b, i, a), x) && x <= LastIndex(At(b, i + 1, a))
    ensures At(b, i + 1, a).snapshotIndex < x ==> EntryAt(At(b, i + 1, a), x) == EntryAt(At(b, i, a), x)
  {
    assert HarmlessUpTo(b, i);
    CommitNeverDrops(b, peers, i, a);
    Discipline(b, peers, i + 1, i, a);
    Discipline(b, peers, i + 1, i + 1, a);
    if At(b, i + 1, a).snapshotIndex < x {
      CommittedAgree(b, peers, i + 1, i, a, i + 1, a, x);
    }
  }

  // ----- services

  /** Services save what they have applied, and no arriving snapshot is behind its service. */
  ghost predicate Orderly(b: Course, peers: nat, k: nat) {
    && IsCourse(b, peers) && HarmlessUpTo(b, k)
    && forall i :: 0 <= i < k && b.actions[i].Other? ==> S.Orderly(b.states[i].system, b.actions[i].step)
  }

  /** The snapshots that were read hold what is committed. */
  ghost predicate NotesCarry(c: Cluster, h: History) {
    forall i, note :: 0 <= i < |c.notes| && note in c.notes[i] && |note.seen.snapshot| > 0 ==>
      S.Applied(h, note.seen.snapshot) && |note.seen.snapshot| == note.seen.snapshotIndex
  }

  lemma ReadCarries(c: Cluster, h: History, i: nat)
    requires S.ServicesOk(c.system, h) && NotesCarry(c, h) && Possible(c, Read(i))
    ensures NotesCarry(After(c, Read(i)), h)
  {
    assert S.ServiceOk(h, c.system.nodes[i], c.system.apps[i]);
  }

  lemma SendCarries(c: Cluster, h: History, i: nat, server: nat, note: Note)
    requires S.ServicesOk(c.system, h) && NotesCarry(c, h) && Possible(c, SendRead(i, server, note))
    requires server < |c.system.nodes[i].nextIndex|
    ensures S.ServicesOk(After(c, SendRead(i, server, note)).system, h)
  {
    var s, t := c.system, After(c, SendRead(i, server, note)).system;
    assert t.nodes == s.nodes && t.apps == s.apps;
    forall j {:trigger S.ServiceOk(h, t.nodes[j], t.apps[j])} | 0 <= j < |t.nodes|
      ensures S.ServiceOk(h, t.nodes[j], t.apps[j])
    {
      assert S.ServiceOk(h, s.nodes[j], s.apps[j]);
    }
  }

  lemma NotesCarryLater(c: Cluster, h: History, d: Cluster, k: History)
    requires NotesCarry(c, h) && Extends(h, k) && |d.notes| == |c.notes|
    requires forall i :: 0 <= i < |c.notes| ==> d.notes[i] <= c.notes[i]
    ensures NotesCarry(d, k)
  {
    forall i, note | 0 <= i < |d.notes| && note in d.notes[i] && |note.seen.snapshot| > 0
      ensures S.Applied(k, note.seen.snapshot) && |note.seen.snapshot| == note.seen.snapshotIndex
    {
      assert note in c.notes[i];
      S.AppliedStays(h, k, note.seen.snapshot);
    }
  }

  lemma ActionCarries(c: Cluster, g: Ghost, action: Action, k: History)
    requires SystemOk(c.system, g) && S.ServicesOk(c.system, g.h) && NotesCarry(c, g.h) && Extends(g.h, k)
    requires Possible(c, action) && (action.Other? ==> S.Orderly(c.system, action.step))
    ensures S.ServicesOk(After(c, action).system, k) && NotesCarry(After(c, action), k)
  {
    match action {
      case Read(i) =>
        ReadCarries(c, g.h, i);
        S.ServicesLater(c.system, g.h, k);
        NotesCarryLater(After(c, action), g.h, After(c, action), k);
      case SendRead(i, server, note) =>
        assert WellFormed(c.system.nodes[i], |c.system.nodes|);
        SendCarries(c, g.h, i, server, note);
        S.ServicesLater(After(c, action).system, g.h, k);
        NotesCarryLater(c, g.h, After(c, action), k);
      case Other(step) =>
        S.ServicesStep(c.system, g, step, k);
        NotesCarryLater(c, g.h, After(c, action), k);
    }
  }

  lemma {:induction false} ServicesInCourse(b: Course, peers: nat, k: nat, states: seq<System>, gs: seq<Ghost>, j: nat)
    requires Orderly(b, peers, k) && states == Systems(b, k) && Witnesses(states, gs, |states|) && j <= k
    ensures S.ServicesOk(b.states[j].system, gs[j].h) && NotesCarry(b.states[j], gs[j].h)
    decreases j
  {
    if j == 0 {
      NewServices(b.states[0], gs[0].h, peers);
    } else {
      ServicesInCourse(b, peers, k, states, gs, j - 1);
      assert SystemOk(states[j - 1], gs[j - 1]) && Grows(gs, j - 1);
      var c, action := b.states[j - 1], b.actions[j - 1];
      assert Possible(c, action) && b.states[j] == After(c, action);
      ActionCarries(c, gs[j - 1], action, gs[j].h);
    }
  }

  lemma NewServices(c: Cluster, h: History, peers: nat)
    requires c == Begin(peers)
    ensures S.ServicesOk(c.system, h) && NotesCarry(c, h)
  {
    forall j {:trigger S.ServiceOk(h, c.system.nodes[j], c.system.apps[j])} | 0 <= j < |c.system.nodes|
      ensures S.ServiceOk(h, c.system.nodes[j], c.system.apps[j])
    {
      assert c.system.nodes[j] == Boot(EMPTY_DISK);
    }
  }

  lemma ServedIn(b: Course, peers: nat, k: nat, states: seq<System>, gs: seq<Ghost>, h: History, i: nat, a: nat)
    requires Orderly(b, peers, k) && states == Systems(b, k) && Witnesses(states, gs, |states|)
    requires Server(b, peers, k, i, a) && Extends(gs[i].h, h)
    ensures a < |b.states[i].system.apps|
    ensures S.Applied(h, b.states[i].system.apps[a]) && |b.states[i].system.apps[a]| == At(b, i, a).lastApplied
    ensures S.Applied(h, At(b, i, a).disk.snapshot) && |At(b, i, a).disk.snapshot| == At(b, i, a).snapshotIndex
  {
    ServicesInCourse(b, peers, k, states, gs, i);
    assert S.ServiceOk(gs[i].h, b.states[i].system.nodes[a], b.states[i].system.apps[a]);
    ServiceStays(gs[i].h, h, At(b, i, a), b.states[i].system.apps[a]);
  }

  lemma ServiceStays(g: History, h: History, n: Node, app: seq<Command>)
    requires S.ServiceOk(g, n, app) && Extends(g, h)
    ensures S.ServiceOk(h, n, app)
  {
    S.AppliedStays(g, h, app);
    S.AppliedStays(g, h, n.disk.snapshot);
  }

  /** Any two services at any two moments have applied prefixes of one sequence of commands. */
  lemma ServicesAgree(b: Course, peers: nat, k: nat, i: nat, a: nat, j: nat, c: nat)
    requires Orderly(b, peers, k) && Server(b, peers, k, i, a) && Server(b, peers, k, j, c)
    ensures a < |b.states[i].system.apps| && c < |b.states[j].system.apps|
    ensures var app, other := b.states[i].system.apps[a], b.states[j].system.apps[c];
            |app| == At(b, i, a).lastApplied && (|app| <= |other| ==> app <= other)
  {
    var states, gs, h := Accounted(b, peers, k);
    InFinal(states, gs, h, i, a);
    InFinal(states, gs, h, j, c);
    ServedIn(b, peers, k, states, gs, h, i, a);
    ServedIn(b, peers, k, states, gs, h, j, c);
    var app, other := b.states[i].system.apps[a], b.states[j].system.apps[c];
    if |app| <= |other| {
      S.AppliedComparable(h, app, other);
    }
  }

  /** Section 7: the leaders of later terms have every command that any server knows to be committed, in the
      log or in the snapshot. */
  lemma LeadersCarryAll(b: Course, peers: nat, k: nat, i: nat, a: nat, j: nat, c: nat, x: nat, command: Command)
    requires Orderly(b, peers, k) && Server(b, peers, k, i, a) && Server(b, peers, k, j, c)
    requires 1 <= x <= At(b, i, a).commitIndex && S.Carries(At(b, i, a), x, command)
    requires At(b, j, c).role.Leader? && At(b, i, a).currentTerm < At(b, j, c).currentTerm
    ensures x <= LastIndex(At(b, j, c)) && S.Carries(At(b, j, c), x, command)
  {
    var states, gs, h := Accounted(b, peers, k);
    InFinal(states, gs, h, i, a);
    InFinal(states, gs, h, j, c);
    ServedIn(b, peers, k, states, gs, h, i, a);
    ServedIn(b, peers, k, states, gs, h, j, c);
    LeaderInFinal(states, gs, h, j, c);
    S.LaterCarries(h, At(b, i, a), gs[i].ds[a], At(b, j, c), gs[j].ds[c], x, command);
  }
}
