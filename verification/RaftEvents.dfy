/** The ways in which the history of a cluster grows, and what survives when it does. */
module RaftEvents {
  import opened RaftNode
  import opened RaftHistory
  import opened Sets

  // ----- events

  function Voted(h: History, t: nat, voter: nat, candidate: nat, log: Log): History {
    if At(t, voter) in h.votes then h
    else h.(votes := h.votes[At(t, voter) := candidate],
            ballots := if t in h.logs then h.ballots else h.ballots[At(t, voter) := log])
  }

  function Stood(h: History, t: nat, me: nat, log: Log): History {
    Voted(h.(stands := h.stands[At(t, me) := log]), t, me, me, log)
  }

  function Elected(h: History, t: nat, me: nat, log: Log, tally: set<nat>): History
    requires |log| > 0
  {
    h.(leaders := h.leaders[t := me], starts := h.starts[t := log], logs := h.logs[t := log],
       electors := h.electors[t := tally], acked := h.acked[At(t, me) := |log| - 1])
  }

  function Grown(h: History, t: nat, me: nat, log: Log): History
    requires |log| > 0
  {
    h.(logs := h.logs[t := log], acked := h.acked[At(t, me) := |log| - 1])
  }

  function Accepted(h: History, t: nat, s: nat, n: nat): History {
    if At(t, s) in h.acked && n <= h.acked[At(t, s)] then h else h.(acked := h.acked[At(t, s) := n])
  }

  // ----- growth

  ghost predicate Extends(h: History, k: History) {
    && h.peers == k.peers
    && (forall t <- h.logs :: t in k.logs && Agree(h.logs[t], k.logs[t], |h.logs[t]|))
    && (forall t <- h.starts :: t in k.starts && k.starts[t] == h.starts[t])
    && (forall t <- h.leaders :: t in k.leaders && k.leaders[t] == h.leaders[t])
    && (forall x <- h.stands :: x in k.stands && k.stands[x] == h.stands[x])
    && (forall x <- h.votes :: x in k.votes && k.votes[x] == h.votes[x])
    && (forall x <- h.ballots :: x in k.ballots && k.ballots[x] == h.ballots[x])
    && (forall x <- h.acked :: x in k.acked && k.acked[x] >= h.acked[x])
  }

  ghost predicate SameAcks(h: History, k: History, s: nat) {
    forall t: nat :: At(t, s) in k.acked ==> At(t, s) in h.acked && k.acked[At(t, s)] == h.acked[At(t, s)]
  }

  /** Nothing new about server s. */
  ghost predicate Quiet(h: History, k: History, s: nat) {
    && SameAcks(h, k, s)
    && (forall t: nat :: At(t, s) in k.votes ==> At(t, s) in h.votes)
    && (forall t: nat :: At(t, s) in k.stands ==> At(t, s) in h.stands)
    && (forall t <- k.leaders :: k.leaders[t] == s ==>
           t in h.leaders && t in h.logs && t in k.logs && k.logs[t] == h.logs[t])
  }

  /** The event was about server `me` alone. */
  ghost predicate OnlyAbout(h: History, k: History, me: nat) {
    forall s: nat {:trigger Quiet(h, k, s)} :: s != me ==> Quiet(h, k, s)
  }

  lemma NothingNew(h: History, i: nat)
    requires HistoryOk(h)
    ensures Extends(h, h) && OnlyAbout(h, h, i)
  {
  }

  lemma VotedQuiet(h: History, t: nat, me: nat, c: nat, log: Log)
    requires HistoryOk(h)
    ensures OnlyAbout(h, Voted(h, t, me, c, log), me)
  {
  }

  lemma StoodQuiet(h: History, t: nat, me: nat, log: Log)
    requires HistoryOk(h)
    ensures OnlyAbout(h, Stood(h, t, me, log), me)
  {
  }

  lemma AcceptedQuiet(h: History, t: nat, me: nat, n: nat)
    requires HistoryOk(h)
    ensures OnlyAbout(h, Accepted(h, t, me, n), me)
  {
  }

  lemma GrownQuiet(h: History, t: nat, me: nat, log: Log)
    requires HistoryOk(h) && t in h.logs && h.leaders[t] == me && |log| > 0
    ensures OnlyAbout(h, Grown(h, t, me, log), me)
  {
  }

  lemma ElectedQuiet(h: History, t: nat, me: nat, log: Log, tally: set<nat>)
    requires HistoryOk(h) && t !in h.logs && |log| > 0
    ensures OnlyAbout(h, Elected(h, t, me, log, tally), me)
  {
  }

  lemma GoodStays(h: History, k: History, log: Log)
    requires Extends(h, k) && Good(h, log)
    ensures Good(k, log)
  {
    forall i | 1 <= i < |log|
      ensures GoodAt(k, log, i)
    {
      assert GoodAt(h, log, i);
    }
  }

  lemma KeptStays(h: History, k: History, log: Log, t: nat, n: nat, upTo: nat)
    requires Extends(h, k) && Kept(h, log, t, n, upTo) && n < |h.logs[t]|
    ensures Kept(k, log, t, n, upTo)
  {
    if !Agree(log, h.logs[t], n + 1) {
      var u: nat :| t < u <= upTo && u in h.starts && !Agree(h.starts[u], h.logs[t], n + 1);
      assert !Agree(k.starts[u], k.logs[t], n + 1);
    }
  }

  lemma CommittedStays(h: History, k: History, t: nat, n: nat)
    requires Extends(h, k) && Committed(h, t, n)
    ensures Committed(k, t, n)
  {
    SubsetSize(Ackers(h, t, n), Ackers(k, t, n));
  }

  lemma SettledStays(h: History, k: History, t: nat, log: Log, c: nat)
    requires Extends(h, k) && Settled(h, t, log, c)
    ensures Settled(k, t, log, c)
  {
    if c > 1 {
      var v: nat, n: nat :| SettledBy(h, t, log, c, v, n);
      CommittedStays(h, k, v, n);
      assert SettledBy(k, t, log, c, v, n);
    }
  }

  lemma TermStays(h: History, k: History, t: nat)
    requires Extends(h, k) && t in h.logs && TermOk(h, t)
    requires k.logs[t] == h.logs[t] && t in k.electors && k.electors[t] == h.electors[t]
    ensures TermOk(k, t)
  {
    GoodStays(h, k, h.logs[t]);
    GoodStays(h, k, h.starts[t]);
  }

  lemma BallotStays(h: History, k: History, t: nat, s: nat)
    requires HistoryOk(h) && Extends(h, k) && At(t, s) in h.ballots
    requires forall r: nat | r < t && At(r, s) in k.acked ::
               At(r, s) in h.acked && k.acked[At(r, s)] == h.acked[At(r, s)]
    ensures BallotOk(k, t, s)
  {
    assert BallotOk(h, t, s);
    var w := h.ballots[At(t, s)];
    GoodStays(h, k, w);
    forall r: nat, n: nat {:trigger Kept(k, w, r, n, t - 1)} | r < t && At(r, s) in k.acked && n <= k.acked[At(r, s)]
      ensures Kept(k, w, r, n, t - 1)
    {
      assert Kept(h, w, r, n, t - 1);
      KeptStays(h, k, w, r, n, t - 1);
    }
  }

  // ----- each event keeps the history in order

  ghost predicate SameTerms(h: History, k: History) {
    h.logs == k.logs && h.starts == k.starts && h.leaders == k.leaders && h.electors == k.electors
  }

  lemma TermsStay(h: History, k: History)
    requires HistoryOk(h) && Extends(h, k) && SameTerms(h, k)
    ensures forall t {:trigger TermOk(k, t)} :: t in k.logs ==> TermOk(k, t)
  {
    forall t | t in k.logs
      ensures TermOk(k, t)
    {
      assert TermOk(h, t);
      TermStays(h, k, t);
    }
  }

  /** Whatever server s has newly accepted, it has accepted in a term t in or after which it never voted. */
  ghost predicate NewAcksFrom(h: History, k: History, s: nat, t: nat) {
    forall r: nat, v: nat :: At(r, v) in k.acked ==>
      || (At(r, v) in h.acked && k.acked[At(r, v)] == h.acked[At(r, v)])
      || (r == t && v == s)
  }

  /** Server s has cast no vote in a term above t. */
  ghost predicate NoLaterVote(h: History, s: nat, t: nat) {
    forall u: nat :: At(u, s) in h.votes ==> u <= t
  }

  lemma BallotsStay(h: History, k: History, s: nat, t: nat)
    requires HistoryOk(h) && Extends(h, k) && k.ballots == h.ballots
    requires NewAcksFrom(h, k, s, t) && NoLaterVote(h, s, t)
    ensures forall u, v {:trigger BallotOk(k, u, v)} :: At(u, v) in k.ballots ==> BallotOk(k, u, v)
  {
    forall u, v | At(u, v) in k.ballots
      ensures BallotOk(k, u, v)
    {
      assert BallotOk(h, u, v);
      BallotStays(h, k, u, v);
    }
  }

  lemma StoodOk(h: History, t: nat, me: nat, log: Log)
    requires HistoryOk(h) && At(t, me) !in h.stands
    ensures var k := h.(stands := h.stands[At(t, me) := log]); HistoryOk(k) && Extends(h, k)
  {
    var k := h.(stands := h.stands[At(t, me) := log]);
    TermsStay(h, k);
    forall u, s | At(u, s) in k.ballots
      ensures BallotOk(k, u, s)
    {
      BallotStays(h, k, u, s);
    }
  }

  /** Server s holds all it has accepted from leaders of terms up to upTo, but for good excuses. */
  ghost predicate Remembers(h: History, s: nat, log: Log, upTo: nat) {
    && (forall r: nat :: At(r, s) in h.acked ==> r <= upTo)
    && (forall r: nat, n: nat {:trigger Kept(h, log, r, n, upTo)} | At(r, s) in h.acked && n <= h.acked[At(r, s)] ::
          Kept(h, log, r, n, upTo))
  }

  lemma NewBallot(h: History, k: History, t: nat, s: nat, c: nat, log: Log)
    requires HistoryOk(h) && Good(h, log) && Remembers(h, s, log, t) && t !in h.logs
    requires At(t, c) in h.stands && |h.stands[At(t, c)]| > 0 && UpToDate(h.stands[At(t, c)], log)
    requires k == h.(votes := h.votes[At(t, s) := c], ballots := h.ballots[At(t, s) := log]) && Extends(h, k)
    ensures BallotOk(k, t, s)
  {
    GoodStays(h, k, log);
    forall r: nat, n: nat {:trigger Kept(k, log, r, n, t - 1)} | r < t && At(r, s) in k.acked && n <= k.acked[At(r, s)]
      ensures Kept(k, log, r, n, t - 1)
    {
      assert Kept(h, log, r, n, t);
      if !Agree(log, h.logs[r], n + 1) {
        var u: nat :| r < u <= t && u in h.starts && !Agree(h.starts[u], h.logs[r], n + 1);
        assert u < t;
        assert Kept(h, log, r, n, t - 1);
      }
    }
  }

  lemma VotedOk(h: History, t: nat, s: nat, c: nat, log: Log)
    requires HistoryOk(h) && Good(h, log) && Remembers(h, s, log, t)
    requires At(t, c) in h.stands && |h.stands[At(t, c)]| > 0 && UpToDate(h.stands[At(t, c)], log)
    ensures HistoryOk(Voted(h, t, s, c, log)) && Extends(h, Voted(h, t, s, c, log))
  {
    var k := Voted(h, t, s, c, log);
    if At(t, s) !in h.votes {
      assert At(t, s) in h.ballots ==> BallotOk(h, t, s);
      assert Extends(h, k);
      TermsStay(h, k);
      forall u, v | At(u, v) in k.ballots
        ensures BallotOk(k, u, v)
      {
        if At(u, v) in h.ballots {
          BallotStays(h, k, u, v);
        } else {
          NewBallot(h, k, t, s, c, log);
        }
      }
    }
  }

  lemma AcceptedExtends(h: History, t: nat, s: nat, n: nat)
    ensures Extends(h, Accepted(h, t, s, n))
  {
  }

  lemma AcceptedOk(h: History, t: nat, s: nat, n: nat)
    requires HistoryOk(h) && t in h.logs && n < |h.logs[t]| && NoLaterVote(h, s, t)
    ensures HistoryOk(Accepted(h, t, s, n)) && Extends(h, Accepted(h, t, s, n))
  {
    if !(At(t, s) in h.acked && n <= h.acked[At(t, s)]) {
      var k := h.(acked := h.acked[At(t, s) := n]);
      assert Extends(h, k);
      assert NewAcksFrom(h, k, s, t);
      TermsStay(h, k);
      BallotsStay(h, k, s, t);
    }
  }

  lemma GrownExtends(h: History, t: nat, me: nat, e: Entry)
    requires t in h.logs && At(t, me) in h.acked && h.acked[At(t, me)] == |h.logs[t]| - 1
    ensures Extends(h, Grown(h, t, me, h.logs[t] + [e]))
  {
  }

  lemma GrownTerm(h: History, t: nat, me: nat, e: Entry)
    requires HistoryOk(h) && t in h.logs && e.term == t
    requires Extends(h, Grown(h, t, me, h.logs[t] + [e]))
    ensures TermOk(Grown(h, t, me, h.logs[t] + [e]), t)
  {
    var log := h.logs[t] + [e];
    var k := Grown(h, t, me, log);
    assert TermOk(h, t);
    GoodStays(h, k, h.starts[t]);
    forall i | 1 <= i < |log|
      ensures GoodAt(k, log, i)
    {
      if i < |log| - 1 {
        assert GoodAt(h, h.logs[t], i);
        if log[i].term != t {
          assert Agree(log, k.logs[log[i].term], i + 1);
        }
      }
    }
  }

  lemma GrownTerms(h: History, k: History, t: nat)
    requires HistoryOk(h) && Extends(h, k) && t in k.logs && TermOk(k, t)
    requires k.logs.Keys == h.logs.Keys && k.electors == h.electors
    requires forall u <- h.logs :: u != t ==> k.logs[u] == h.logs[u]
    ensures forall u {:trigger TermOk(k, u)} :: u in k.logs ==> TermOk(k, u)
  {
    forall u | u in k.logs
      ensures TermOk(k, u)
    {
      if u != t {
        OldTermStays(h, k, u);
      }
    }
  }

  lemma GrownOk(h: History, t: nat, me: nat, e: Entry)
    requires HistoryOk(h) && t in h.logs && e.term == t && NoLaterVote(h, me, t)
    requires At(t, me) in h.acked && h.acked[At(t, me)] == |h.logs[t]| - 1
    ensures HistoryOk(Grown(h, t, me, h.logs[t] + [e])) && Extends(h, Grown(h, t, me, h.logs[t] + [e]))
  {
    var k := Grown(h, t, me, h.logs[t] + [e]);
    GrownExtends(h, t, me, e);
    GrownTerm(h, t, me, e);
    GrownTerms(h, k, t);
    BallotsStay(h, k, me, t);
  }

  lemma ElectedExtends(h: History, t: nat, me: nat, log: Log, tally: set<nat>)
    requires HistoryOk(h) && t !in h.logs && |log| > 0
    ensures Extends(h, Elected(h, t, me, log, tally))
  {
    assert At(t, me) !in h.acked;
  }

  lemma ElectedTerm(h: History, t: nat, me: nat, log: Log, tally: set<nat>)
    requires HistoryOk(h) && t >= 1 && t !in h.logs && At(t, me) in h.stands && h.stands[At(t, me)] == log
    requires Good(h, log) && TermsBelow(log, t)
    requires Majority(tally, h.peers) && forall s <- tally :: At(t, s) in h.votes && h.votes[At(t, s)] == me
    requires Extends(h, Elected(h, t, me, log, tally))
    ensures TermOk(Elected(h, t, me, log, tally), t)
  {
    GoodStays(h, Elected(h, t, me, log, tally), log);
  }

  lemma ElectedOk(h: History, t: nat, me: nat, log: Log, tally: set<nat>)
    requires HistoryOk(h) && t >= 1 && t !in h.logs && At(t, me) in h.stands && h.stands[At(t, me)] == log
    requires NoLaterVote(h, me, t) && Good(h, log) && TermsBelow(log, t)
    requires Majority(tally, h.peers) && forall s <- tally :: At(t, s) in h.votes && h.votes[At(t, s)] == me
    ensures HistoryOk(Elected(h, t, me, log, tally)) && Extends(h, Elected(h, t, me, log, tally))
  {
    var k := Elected(h, t, me, log, tally);
    ElectedExtends(h, t, me, log, tally);
    ElectedTerm(h, t, me, log, tally);
    ElectedBallots(h, t, me, log, tally);
    ElectedDomains(h, t, me, log, tally);
    forall u | u in k.logs
      ensures TermOk(k, u)
    {
      if u != t {
        OldTermStays(h, k, u);
      }
    }
  }

  lemma ElectedBallots(h: History, t: nat, me: nat, log: Log, tally: set<nat>)
    requires HistoryOk(h) && t !in h.logs && |log| > 0 && NoLaterVote(h, me, t)
    requires Extends(h, Elected(h, t, me, log, tally))
    ensures forall u, v {:trigger BallotOk(Elected(h, t, me, log, tally), u, v)} ::
              At(u, v) in Elected(h, t, me, log, tally).ballots ==> BallotOk(Elected(h, t, me, log, tally), u, v)
  {
    var k := Elected(h, t, me, log, tally);
    assert NewAcksFrom(h, k, me, t);
    BallotsStay(h, k, me, t);
  }

  lemma ElectedDomains(h: History, t: nat, me: nat, log: Log, tally: set<nat>)
    requires HistoryOk(h) && t !in h.logs && |log| > 0
    ensures var k := Elected(h, t, me, log, tally);
            && k.starts.Keys == k.logs.Keys == k.leaders.Keys == k.electors.Keys
            && (forall x <- k.votes :: x.term in k.logs || x in k.ballots)
            && (forall r, s :: At(r, s) in k.acked ==> r in k.logs && k.acked[At(r, s)] < |k.logs[r]|)
  {
  }

  lemma OldTermStays(h: History, k: History, u: nat)
    requires HistoryOk(h) && Extends(h, k) && u in h.logs
    requires u in k.logs && k.logs[u] == h.logs[u] && u in k.electors
    requires u in h.electors && k.electors[u] == h.electors[u]
    ensures TermOk(k, u)
  {
    assert TermOk(h, u);
    TermStays(h, k, u);
  }
}
