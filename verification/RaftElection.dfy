/** Elections, higher terms and reboots keep a server in order. */
module RaftElection {
  import opened RaftNode
  import opened RaftSystem
  import opened RaftHistory
  import opened RaftEvents
  import opened RaftInvariant

  lemma RemembersLonger(h: History, s: nat, log: Log, t: nat, u: nat)
    requires Remembers(h, s, log, t) && t <= u
    ensures Remembers(h, s, log, u)
  {
    forall r: nat, n: nat {:trigger Kept(h, log, r, n, u)} | At(r, s) in h.acked && n <= h.acked[At(r, s)]
      ensures Kept(h, log, r, n, u)
    {
      assert Kept(h, log, r, n, t);
    }
  }

  /** A change of term, vote and role alone leaves the logs as they were. */
  lemma LogsLater(h: History, n: Node, m: Node, d: Shadow)
    requires LogsOk(h, n, d) && CommitOk(h, n, d) && n.currentTerm <= m.currentTerm
    requires m.log == n.log && m.snapshotIndex == n.snapshotIndex && m.snapshotTerm == n.snapshotTerm
    requires n.snapshotIndex <= m.lastApplied <= m.commitIndex <= n.commitIndex
    ensures LogsOk(h, m, d) && CommitOk(h, m, d)
  {
    SettledLess(h, n.currentTerm, d.base, n.snapshotIndex + 1, m.currentTerm, d.base, n.snapshotIndex + 1);
    if m.commitIndex > n.snapshotIndex {
      SettledLess(h, n.currentTerm, d.full, n.commitIndex + 1, m.currentTerm, d.full, m.commitIndex + 1);
    }
  }

  lemma CoreLater(h: History, me: nat, n: Node, m: Node, d: Shadow, e: Shadow)
    requires CoreOk(h, me, n, d) && n.currentTerm <= m.currentTerm
    requires m.log == n.log && m.snapshotIndex == n.snapshotIndex && m.snapshotTerm == n.snapshotTerm
    requires m.lastApplied == n.lastApplied && m.commitIndex == n.commitIndex
    requires Persisted(m) && m.disk.snapshot == n.disk.snapshot
    requires e.full == d.full && e.base == d.base
    ensures CoreOk(h, me, m, e)
  {
    LogsLater(h, n, m, d);
    RemembersLonger(h, me, d.full, n.currentTerm, m.currentTerm);
  }

  lemma StepDownOk(h: History, me: nat, n: Node, d: Shadow, t: nat)
    requires NodeOk(h, me, n, d) && t > n.currentTerm
    ensures NodeOk(h, me, StepDown(n, t), d)
  {
    CoreLater(h, me, n, StepDown(n, t), d, d);
  }

  lemma FollowerOk(h: History, me: nat, n: Node, d: Shadow)
    requires NodeOk(h, me, n, d)
    ensures NodeOk(h, me, n.(role := Follower), d)
  {
  }

  lemma ObserveOk(h: History, me: nat, n: Node, d: Shadow, t: nat)
    requires NodeOk(h, me, n, d)
    ensures NodeOk(h, me, Observe(n, t), d)
  {
    if t > n.currentTerm {
      StepDownOk(h, me, n, d, t);
    }
  }

  /** What is saved is enough to restart from. */
  lemma BootOk(h: History, me: nat, n: Node, d: Shadow)
    requires NodeOk(h, me, n, d)
    ensures NodeOk(h, me, Boot(n.disk), d)
  {
    LogsLater(h, n, Boot(n.disk), d);
  }

  // ----- standing

  lemma LastEntry(h: History, n: Node, d: Shadow)
    requires LogsOk(h, n, d)
    ensures LastIndex(n) == |d.full| - 1
    ensures n.log[|n.log| - 1].term == d.full[|d.full| - 1].term
  {
    if |n.log| > 1 {
      assert n.log[1..][|n.log| - 2] == d.full[n.snapshotIndex + 1..][|n.log| - 2];
    }
  }

  lemma TimeoutHistory(h: History, me: nat, n: Node, d: Shadow)
    requires HistoryOk(h) && NodeOk(h, me, n, d)
    ensures var k := Stood(h, n.currentTerm + 1, me, d.full);
            && HistoryOk(k) && Extends(h, k)
            && At(n.currentTerm + 1, me) in k.votes && k.votes[At(n.currentTerm + 1, me)] == me
            && OnlyAbout(h, k, me)
  {
    var t := n.currentTerm + 1;
    StoodQuiet(h, t, me, d.full);
    StoodOk(h, t, me, d.full);
    var g := h.(stands := h.stands[At(t, me) := d.full]);
    GoodStays(h, g, d.full);
    RemembersStays(h, g, me, d.full, n.currentTerm);
    RemembersLonger(g, me, d.full, n.currentTerm, t);
    VotedOk(g, t, me, me, d.full);
    ExtendsTrans(h, g, Voted(g, t, me, me, d.full));
  }

  lemma ExtendsTrans(a: History, b: History, c: History)
    requires Extends(a, b) && Extends(b, c)
    ensures Extends(a, c)
  {
    forall t | t in a.logs
      ensures t in c.logs && Agree(a.logs[t], c.logs[t], |a.logs[t]|)
    {
      assert Agree(b.logs[t], c.logs[t], |b.logs[t]|);
    }
  }

  lemma StoodVotes(h: History, me: nat, n: Node, log: Log)
    requires VotesOk(h, me, n)
    ensures VotesOk(Stood(h, n.currentTerm + 1, me, log), me, StartElection(n, me))
  {
  }

  lemma TimeoutOk(h: History, me: nat, n: Node, d: Shadow)
    requires HistoryOk(h) && NodeOk(h, me, n, d)
    ensures NodeOk(Stood(h, n.currentTerm + 1, me, d.full), me, StartElection(n, me), d.(tally := {me}))
  {
    TimeoutHistory(h, me, n, d);
    StandsOk(h, Stood(h, n.currentTerm + 1, me, d.full), me, n, StartElection(n, me), d, d.(tally := {me}));
  }

  lemma StandsOk(h: History, k: History, me: nat, n: Node, m: Node, d: Shadow, e: Shadow)
    requires AcksInLogs(h) && NodeOk(h, me, n, d) && Extends(h, k)
    requires m == StartElection(n, me) && e == d.(tally := {me}) && k == Stood(h, n.currentTerm + 1, me, d.full)
    requires At(n.currentTerm + 1, me) in k.votes && k.votes[At(n.currentTerm + 1, me)] == me
    ensures NodeOk(k, me, m, e)
  {
    StoodVotes(h, me, n, d.full);
    CoreStays(h, k, me, n, d);
    CoreLater(k, me, n, m, d, e);
  }

  // ----- voting

  ghost predicate Granted(n: Node, a: VoteArgs)
    requires |n.log| > 0
  {
    RequestVote(n, a).1.granted
  }

  /** The history after the voter has answered. */
  ghost function AfterVote(h: History, me: nat, n: Node, d: Shadow, a: VoteArgs): History
    requires |n.log| > 0
  {
    if Granted(n, a) then Voted(h, a.term, me, a.candidate, d.full) else h
  }

  /** The request carries the length and last term of the log its candidate stands with. */
  ghost predicate RequestOk(h: History, a: VoteArgs) {
    && At(a.term, a.candidate) in h.stands
    && var log := h.stands[At(a.term, a.candidate)];
       |log| > 0 && a.lastLogIndex == |log| - 1 && a.lastLogTerm == log[|log| - 1].term
  }

  /** A vote is granted exactly if the term is not old, nobody else has the voter's vote in it, and the candidate's
      whole log is at least as up to date as the voter's. */
  lemma GrantMeans(h: History, me: nat, n: Node, d: Shadow, a: VoteArgs)
    requires LogsOk(h, n, d) && VotesOk(h, me, n) && RequestOk(h, a)
    ensures Granted(n, a) <==>
              && n.currentTerm <= a.term
              && UpToDate(h.stands[At(a.term, a.candidate)], d.full)
              && (At(a.term, me) in h.votes ==> h.votes[At(a.term, me)] == a.candidate)
  {
    LastEntry(h, n, d);
  }

  lemma VoteHistory(h: History, me: nat, n: Node, d: Shadow, a: VoteArgs)
    requires HistoryOk(h) && NodeOk(h, me, n, d) && RequestOk(h, a)
    ensures var k := AfterVote(h, me, n, d, a);
            && HistoryOk(k) && Extends(h, k)
            && (Granted(n, a) ==> At(a.term, me) in k.votes && k.votes[At(a.term, me)] == a.candidate)
            && OnlyAbout(h, k, me)
  {
    if Granted(n, a) {
      GrantMeans(h, me, n, d, a);
      RemembersLonger(h, me, d.full, n.currentTerm, a.term);
      VotedQuiet(h, a.term, me, a.candidate, d.full);
      VotedOk(h, a.term, me, a.candidate, d.full);
    }
  }

  lemma VoteRefused(h: History, me: nat, n: Node, d: Shadow, a: VoteArgs)
    requires NodeOk(h, me, n, d) && !Granted(n, a)
    ensures NodeOk(h, me, RequestVote(n, a).0, d)
  {
    ObserveOk(h, me, n, d, a.term);
    assert RequestVote(n, a).0 == if a.term < n.currentTerm then n else Observe(n, a.term);
  }

  lemma VoteGranted(h: History, k: History, me: nat, n: Node, d: Shadow, a: VoteArgs, o: Node)
    requires HistoryOk(h) && NodeOk(h, me, n, d) && RequestOk(h, a) && Granted(n, a) && o == Observe(n, a.term)
    requires k == AfterVote(h, me, n, d, a)
    ensures NodeOk(k, me, RequestVote(n, a).0, d)
  {
    ObserveOk(h, me, n, d, a.term);
    GrantMeans(h, me, n, d, a);
    VoteHistory(h, me, n, d, a);
    assert o.currentTerm == a.term && RequestVote(n, a).0 == Persist(o.(votedFor := a.candidate, role := Follower));
    GrantedOk(h, k, me, o, RequestVote(n, a).0, d, a.candidate);
  }

  lemma VoteOk(h: History, me: nat, n: Node, d: Shadow, a: VoteArgs)
    requires HistoryOk(h) && NodeOk(h, me, n, d) && RequestOk(h, a)
    ensures NodeOk(AfterVote(h, me, n, d, a), me, RequestVote(n, a).0, d)
  {
    if Granted(n, a) {
      VoteGranted(h, AfterVote(h, me, n, d, a), me, n, d, a, Observe(n, a.term));
    } else {
      VoteRefused(h, me, n, d, a);
    }
  }

  lemma GrantedVotes(h: History, me: nat, o: Node, t: nat, c: nat, log: Log)
    requires VotesOk(h, me, o) && o.currentTerm == t
    requires At(t, me) in h.votes ==> h.votes[At(t, me)] == c
    ensures VotesOk(Voted(h, t, me, c, log), me, Persist(o.(votedFor := c, role := Follower)))
  {
  }

  lemma GrantedOk(h: History, k: History, me: nat, o: Node, m: Node, d: Shadow, c: nat)
    requires AcksInLogs(h) && NodeOk(h, me, o, d)
    requires At(o.currentTerm, me) in h.votes ==> h.votes[At(o.currentTerm, me)] == c
    requires k == Voted(h, o.currentTerm, me, c, d.full) && Extends(h, k)
    requires m == Persist(o.(votedFor := c, role := Follower))
    ensures NodeOk(k, me, m, d)
  {
    GrantedVotes(h, me, o, o.currentTerm, c, d.full);
    CoreStays(h, k, me, o, d);
    CoreLater(k, me, o, m, d, d);
  }

  // ----- counting

  ghost predicate AnswerOk(h: History, key: VoteKey, r: VoteReply) {
    r.granted ==> At(key.term, key.voter) in h.votes && h.votes[At(key.term, key.voter)] == key.candidate
  }

  /** The reply makes the candidate a leader. */
  ghost predicate Wins(n: Node, peers: nat, askedIn: nat, r: VoteReply) {
    && n.role == Candidate && n.currentTerm == askedIn && r.term <= n.currentTerm && r.granted
    && n.votes + 1 > peers / 2 && !n.electionWon
  }

  ghost predicate Counts(n: Node, askedIn: nat, r: VoteReply) {
    n.role == Candidate && n.currentTerm == askedIn && r.term <= n.currentTerm && r.granted
  }

  ghost function AfterCount(d: Shadow, n: Node, askedIn: nat, voter: nat, r: VoteReply): Shadow {
    if Counts(n, askedIn, r) then d.(tally := d.tally + {voter}) else d
  }

  ghost function AfterTally(h: History, me: nat, n: Node, d: Shadow, askedIn: nat, voter: nat, r: VoteReply): History
    requires |d.full| > 0
  {
    if Wins(n, h.peers, askedIn, r) then Elected(h, n.currentTerm, me, d.full, d.tally + {voter}) else h
  }

  /** No term has two leaders: two majorities of voters in one term would share a voter. */
  lemma TermIsFree(h: History, me: nat, n: Node, tally: set<nat>)
    requires HistoryOk(h) && VotesOk(h, me, n) && n.role.Candidate?
    requires Majority(tally, h.peers)
    requires forall s <- tally :: At(n.currentTerm, s) in h.votes && h.votes[At(n.currentTerm, s)] == me
    ensures n.currentTerm !in h.logs
  {
    if n.currentTerm in h.logs {
      assert TermOk(h, n.currentTerm);
      var s := MajoritiesMeet(h.electors[n.currentTerm], tally, h.peers);
      assert false;
    }
  }

  /** A term that has no leader left no entry. */
  lemma NoEntryOfTerm(h: History, log: Log, t: nat)
    requires Good(h, log) && TermsUpTo(log, t) && t >= 1 && t !in h.logs
    ensures TermsBelow(log, t)
  {
    forall i | 0 <= i < |log|
      ensures log[i].term < t
    {
      if i > 0 {
        assert GoodAt(h, log, i);
      }
    }
  }

  lemma TallyHistory(h: History, me: nat, n: Node, d: Shadow, key: VoteKey, r: VoteReply)
    requires HistoryOk(h) && NodeOk(h, me, n, d) && AnswerOk(h, key, r)
    requires key.candidate == me && key.voter < h.peers
    requires n.role.Candidate? && n.currentTerm == key.term ==> key.voter !in d.tally
    ensures var k := AfterTally(h, me, n, d, key.term, key.voter, r);
            && HistoryOk(k) && Extends(h, k)
            && (Wins(n, h.peers, key.term, r) ==> n.currentTerm !in h.logs)
            && OnlyAbout(h, k, me)
  {
    if Wins(n, h.peers, key.term, r) {
      var tally := d.tally + {key.voter};
      TermIsFree(h, me, n, tally);
      NoEntryOfTerm(h, d.full, n.currentTerm);
      ElectedQuiet(h, n.currentTerm, me, d.full, tally);
      ElectedOk(h, n.currentTerm, me, d.full, tally);
    }
  }

  lemma CountedOk(h: History, me: nat, n: Node, d: Shadow, voter: nat)
    requires NodeOk(h, me, n, d) && n.role.Candidate? && voter < h.peers && voter !in d.tally
    requires At(n.currentTerm, voter) in h.votes && h.votes[At(n.currentTerm, voter)] == me
    ensures NodeOk(h, me, n.(votes := n.votes + 1), d.(tally := d.tally + {voter}))
  {
    CoreLater(h, me, n, n.(votes := n.votes + 1), d, d.(tally := d.tally + {voter}));
  }

  /** A winner's log holds everything committed so far, so its snapshot fits its log. */
  lemma WinnerIsClean(k: History, n: Node, d: Shadow)
    requires HistoryOk(k) && LogsOk(k, n, d) && n.currentTerm in k.logs && k.logs[n.currentTerm] == d.full
    ensures Clean(n, d)
  {
    SettledInLeader(k, n.currentTerm, d.base, n.snapshotIndex + 1, n.currentTerm);
  }

  lemma NothingMatched(k: History, t: nat, log: Log, base: Log, s: nat, m: nat)
    requires t in k.logs && k.logs[t] == log && Settled(k, t, base, m + 1) && m < |log| && Agree(base, log, m + 1)
    ensures MatchOk(k, t, s, m)
  {
    SettledLess(k, t, base, m + 1, t, log, m + 1);
  }

  lemma ElectedLeader(k: History, me: nat, n: Node, d: Shadow)
    requires HistoryOk(k) && LogsOk(k, n, d) && me < k.peers
    requires n.currentTerm in k.logs && k.logs[n.currentTerm] == d.full
    requires n.currentTerm in k.leaders && k.leaders[n.currentTerm] == me
    requires At(n.currentTerm, me) in k.acked && k.acked[At(n.currentTerm, me)] == |d.full| - 1
    ensures LeaderOk(k, me, BecomeLeader(n, me, k.peers), d)
  {
    WinnerIsClean(k, n, d);
    var m := BecomeLeader(n, me, k.peers);
    forall s | 0 <= s < k.peers && s != me
      ensures MatchOk(k, m.currentTerm, s, m.matchIndex[s])
    {
      NothingMatched(k, n.currentTerm, d.full, d.base, s, n.snapshotIndex);
    }
  }

  /** The leader of a new term accepts its own log. */
  lemma RemembersOwn(h: History, k: History, me: nat, log: Log, t: nat, tally: set<nat>)
    requires AcksInLogs(h) && Remembers(h, me, log, t) && t !in h.logs && |log| > 0
    requires k == Elected(h, t, me, log, tally) && Extends(h, k)
    ensures Remembers(k, me, log, t)
  {
    forall r: nat, n: nat {:trigger Kept(k, log, r, n, t)} | At(r, me) in k.acked && n <= k.acked[At(r, me)]
      ensures Kept(k, log, r, n, t)
    {
      if r != t {
        assert Kept(h, log, r, n, t);
        KeptStays(h, k, log, r, n, t);
      }
    }
  }

  lemma WinnerVotes(h: History, me: nat, n: Node, m: Node, log: Log, tally: set<nat>)
    requires VotesOk(h, me, n) && |log| > 0
    requires m.role.Leader? && m.currentTerm == n.currentTerm && m.votedFor == n.votedFor
    ensures VotesOk(Elected(h, n.currentTerm, me, log, tally), me, m)
  {
  }

  lemma WinnerCore(h: History, k: History, me: nat, n: Node, m: Node, d: Shadow, tally: set<nat>)
    requires AcksInLogs(h) && CoreOk(h, me, n, d) && n.currentTerm !in h.logs
    requires k == Elected(h, n.currentTerm, me, d.full, tally) && Extends(h, k)
    requires |n.log| > 0 && me < h.peers && m == BecomeLeader(n, me, h.peers)
    ensures CoreOk(k, me, m, d)
  {
    LogsStay(h, k, n, d);
    RemembersOwn(h, k, me, d.full, n.currentTerm, tally);
    CoreLater(k, me, n, m, d, d);
  }

  lemma WinnerOk(h: History, k: History, me: nat, n: Node, d: Shadow)
    requires HistoryOk(h) && HistoryOk(k) && NodeOk(h, me, n, d) && n.role.Candidate? && n.currentTerm !in h.logs
    requires k == Elected(h, n.currentTerm, me, d.full, d.tally) && Extends(h, k)
    ensures NodeOk(k, me, BecomeLeader(n, me, h.peers), d)
  {
    var m := BecomeLeader(n, me, h.peers);
    WinnerCore(h, k, me, n, m, d, d.tally);
    LogsStay(h, k, n, d);
    ElectedLeader(k, me, n, d);
    WinnerVotes(h, me, n, m, d.full, d.tally);
  }

  /** One answer is handled: the candidate wins, counts a vote, learns of a higher term, or ignores it. */
  lemma CountOk(h: History, me: nat, n: Node, d: Shadow, key: VoteKey, r: VoteReply) returns (k: History)
    requires HistoryOk(h) && NodeOk(h, me, n, d) && AnswerOk(h, key, r)
    requires key.candidate == me && key.voter < h.peers
    requires n.role.Candidate? && n.currentTerm == key.term ==> key.voter !in d.tally
    ensures HistoryOk(k) && Extends(h, k) && OnlyAbout(h, k, me)
    ensures NodeOk(k, me, HandleVoteReply(n, me, h.peers, key.term, r), AfterCount(d, n, key.term, key.voter, r))
  {
    k := h;
    if !Counts(n, key.term, r) {
      NothingNew(h, me);
      CountIgnored(h, me, n, d, key, r);
    } else {
      var c, e := n.(votes := n.votes + 1), AfterCount(d, n, key.term, key.voter, r);
      CountedOk(h, me, n, d, key.voter);
      if Wins(n, h.peers, key.term, r) {
        k := CountWon(h, me, n, d, key, r, c, e);
      } else {
        NothingNew(h, me);
        assert HandleVoteReply(n, me, h.peers, key.term, r) == c;
      }
    }
  }

  lemma CountIgnored(h: History, me: nat, n: Node, d: Shadow, key: VoteKey, r: VoteReply)
    requires NodeOk(h, me, n, d) && !Counts(n, key.term, r)
    ensures NodeOk(h, me, HandleVoteReply(n, me, h.peers, key.term, r), d)
  {
    if n.role.Candidate? && n.currentTerm == key.term && r.term > n.currentTerm {
      StepDownOk(h, me, n, d, r.term);
      assert HandleVoteReply(n, me, h.peers, key.term, r) == StepDown(n, r.term);
    } else {
      assert HandleVoteReply(n, me, h.peers, key.term, r) == n;
    }
  }

  lemma CountWon(h: History, me: nat, n: Node, d: Shadow, key: VoteKey, r: VoteReply, c: Node, e: Shadow)
      returns (k: History)
    requires HistoryOk(h) && NodeOk(h, me, n, d) && AnswerOk(h, key, r) && Wins(n, h.peers, key.term, r)
    requires key.candidate == me && key.voter < h.peers && key.voter !in d.tally
    requires c == n.(votes := n.votes + 1) && e == d.(tally := d.tally + {key.voter}) && NodeOk(h, me, c, e)
    ensures HistoryOk(k) && Extends(h, k) && OnlyAbout(h, k, me)
    ensures NodeOk(k, me, HandleVoteReply(n, me, h.peers, key.term, r), e)
  {
    TallyHistory(h, me, n, d, key, r);
    k := AfterTally(h, me, n, d, key.term, key.voter, r);
    WinnerOk(h, k, me, c, e);
  }
}
