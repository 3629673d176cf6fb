/** What has happened so far in a cluster, as ghost state, and the theorem everything rests on: an
    entry committed in term t is in the log of every leader elected in a later term. */
module RaftHistory {
  import opened RaftNode
  import opened Sets

  type Log = seq<Entry>

  /** A server, or a candidate, in a term. */
  datatype Seat = At(term: nat, server: nat)

  /** For each elected term: the leader, its log when elected, its log now, and who elected it.
      For each (term, candidate): its log when it stood.  For each (term, voter): whom it voted for
      and, if the term had no leader yet, its log at that moment.  For each (term, server): up to
      which index the server has accepted the log of that term's leader. */
  datatype History = History(
    peers: nat,
    leaders: map<nat, nat>, starts: map<nat, Log>, logs: map<nat, Log>, electors: map<nat, set<nat>>,
    stands: map<Seat, Log>,
    votes: map<Seat, nat>, ballots: map<Seat, Log>,
    acked: map<Seat, nat>)

  /** The logs a and b have the same first k entries. */
  ghost predicate Agree(a: Log, b: Log, k: nat) {
    && k <= |a| && k <= |b|
    && forall j :: 0 <= j < k ==> a[j] == b[j]
  }

  /** Entry i of the log was created by the leader of its term, and so was everything before it. */
  ghost predicate GoodAt(h: History, log: Log, i: nat)
    requires i < |log|
  {
    var t := log[i].term;
    t >= 1 && t in h.logs && t in h.starts && |h.starts[t]| <= i && Agree(log, h.logs[t], i + 1)
  }

  ghost predicate Good(h: History, log: Log) {
    && |log| >= 1 && log[0] == DUMMY
    && forall i {:trigger GoodAt(h, log, i)} :: 1 <= i < |log| ==> GoodAt(h, log, i)
  }

  ghost predicate TermsBelow(log: Log, t: nat) {
    forall i :: 0 <= i < |log| ==> log[i].term < t
  }

  ghost predicate TermsUpTo(log: Log, t: nat) {
    forall i :: 0 <= i < |log| ==> log[i].term <= t
  }

  /** The voter's rule: c is at least as up to date as w. */
  ghost predicate UpToDate(c: Log, w: Log)
    requires |c| > 0 && |w| > 0
  {
    || c[|c| - 1].term > w[|w| - 1].term
    || (c[|c| - 1].term == w[|w| - 1].term && |c| >= |w|)
  }

  ghost predicate Majority(q: set<nat>, peers: nat) {
    && (forall s <- q :: s < peers)
    && |q| > peers / 2
  }

  ghost function Ackers(h: History, t: nat, n: nat): set<nat> {
    set s: nat | s < h.peers && At(t, s) in h.acked && h.acked[At(t, s)] >= n
  }

  /** The leader of term t may commit index n by counting. */
  ghost predicate Committed(h: History, t: nat, n: nat) {
    && t in h.logs && n < |h.logs[t]| && h.logs[t][n].term == t
    && Majority(Ackers(h, t, n), h.peers)
  }

  /** Some term after t and up to upTo had a leader that started without t's entries up to n. */
  ghost predicate Missed(h: History, t: nat, n: nat, upTo: nat)
    requires t in h.logs
  {
    exists u: nat :: t < u <= upTo && u in h.starts && !Agree(h.starts[u], h.logs[t], n + 1)
  }

  /** The log still holds what was accepted from the leader of term t up to index n, or there is an
      excuse for having lost it. */
  ghost predicate Kept(h: History, log: Log, t: nat, n: nat, upTo: nat) {
    t in h.logs && (Agree(log, h.logs[t], n + 1) || Missed(h, t, n, upTo))
  }

  ghost predicate BallotOk(h: History, t: nat, s: nat)
    requires At(t, s) in h.ballots
  {
    var w := h.ballots[At(t, s)];
    && Good(h, w)
    && At(t, s) in h.votes && At(t, h.votes[At(t, s)]) in h.stands
    && |h.stands[At(t, h.votes[At(t, s)])]| > 0
    && UpToDate(h.stands[At(t, h.votes[At(t, s)])], w)
    && forall r: nat, n: nat {:trigger Kept(h, w, r, n, t - 1)} |
         r < t && At(r, s) in h.acked && n <= h.acked[At(r, s)] ::
         Kept(h, w, r, n, t - 1)
  }

  ghost predicate TermOk(h: History, t: nat)
    requires t in h.logs
  {
    && t >= 1 && t in h.starts && t in h.leaders && t in h.electors
    && Good(h, h.logs[t]) && Good(h, h.starts[t])
    && Agree(h.starts[t], h.logs[t], |h.starts[t]|)
    && TermsBelow(h.starts[t], t)
    && (forall i :: |h.starts[t]| <= i < |h.logs[t]| ==> h.logs[t][i].term == t)
    && At(t, h.leaders[t]) in h.stands && h.stands[At(t, h.leaders[t])] == h.starts[t]
    && Majority(h.electors[t], h.peers)
    && forall s <- h.electors[t] ::
         At(t, s) in h.ballots && At(t, s) in h.votes && h.votes[At(t, s)] == h.leaders[t]
  }

  ghost predicate HistoryOk(h: History) {
    && h.starts.Keys == h.logs.Keys == h.leaders.Keys == h.electors.Keys
    && (forall t {:trigger TermOk(h, t)} :: t in h.logs ==> TermOk(h, t))
    && (forall t, s {:trigger BallotOk(h, t, s)} :: At(t, s) in h.ballots ==> BallotOk(h, t, s))
    && (forall k <- h.votes :: k.term in h.logs || k in h.ballots)
    && AcksInLogs(h)
  }

  ghost predicate AcksInLogs(h: History) {
    forall t, s :: At(t, s) in h.acked ==> t in h.logs && h.acked[At(t, s)] < |h.logs[t]|
  }

  // ----- majorities

  function Below(n: nat): (r: set<nat>)
    ensures |r| == n && forall x: nat :: x in r <==> x < n
  {
    if n == 0 then {} else Below(n - 1) + {n - 1}
  }

  lemma MajoritiesMeet(q: set<nat>, r: set<nat>, peers: nat) returns (s: nat)
    requires Majority(q, peers) && Majority(r, peers)
    ensures s in q && s in r
  {
    if q * r == {} {
      assert |q + r| == |q| + |r|;
      SubsetSize(q + r, Below(peers));
      assert false;
    }
    s :| s in q * r;
  }

  // ----- leader completeness

  lemma LastTermBounds(h: History, w: Log, i: nat)
    requires HistoryOk(h) && Good(h, w) && i < |w|
    ensures w[i].term <= w[|w| - 1].term
  {
    if 0 < i < |w| - 1 {
      assert GoodAt(h, w, |w| - 1);
      var t := w[|w| - 1].term;
      assert TermOk(h, t);
      assert w[i] == h.logs[t][i];
      if i < |h.starts[t]| {
        assert h.starts[t][i] == h.logs[t][i];
      }
    }
  }

  /** Whoever satisfies the up-to-date check of a voter that holds a committed entry holds it too,
      provided all earlier leaders after the committing term do. */
  lemma UpToDateHolds(h: History, c: Log, w: Log, t: nat, n: nat)
    requires HistoryOk(h) && Good(h, c) && Good(h, w) && UpToDate(c, w)
    requires t in h.logs && n < |h.logs[t]| && h.logs[t][n].term == t
    requires Agree(w, h.logs[t], n + 1)
    requires forall u: nat | u in h.starts && t < u <= c[|c| - 1].term :: Agree(h.starts[u], h.logs[t], n + 1)
    ensures Agree(c, h.logs[t], n + 1)
  {
    LastTermBounds(h, w, n);
    var x := c[|c| - 1].term;
    assert TermOk(h, t);
    assert |c| > 1;
    assert GoodAt(h, c, |c| - 1);
    if x == w[|w| - 1].term {
      assert |w| > 1;
      assert GoodAt(h, w, |w| - 1);
    } else {
      assert t < x;
      assert TermOk(h, x);
    }
  }

  /** Section 5.4.3: a committed entry is in the starting log of every later leader. */
  lemma LeaderCompleteness(h: History, t: nat, n: nat, u: nat)
    requires HistoryOk(h) && Committed(h, t, n) && u in h.starts && t < u
    ensures Agree(h.starts[u], h.logs[t], n + 1)
    decreases u
  {
    assert TermOk(h, u);
    var s := MajoritiesMeet(h.electors[u], Ackers(h, t, n), h.peers);
    var w := h.ballots[At(u, s)];
    assert BallotOk(h, u, s);
    var c := h.starts[u];
    forall v | v in h.starts && t < v < u
      ensures Agree(h.starts[v], h.logs[t], n + 1)
    {
      LeaderCompleteness(h, t, n, v);
    }
    assert Kept(h, w, t, n, u - 1);
    assert !Missed(h, t, n, u - 1);
    assert c[|c| - 1].term < u;
    UpToDateHolds(h, c, w, t, n);
  }

  /** The first k entries of the log are settled for good by a commit in a term up to t. */
  ghost predicate Settled(h: History, t: nat, log: Log, k: nat) {
    && 1 <= k <= |log|
    && log[0] == DUMMY
    && (k == 1 || exists v: nat, n: nat :: SettledBy(h, t, log, k, v, n))
  }

  ghost predicate SettledBy(h: History, t: nat, log: Log, k: nat, v: nat, n: nat) {
    v <= t && Committed(h, v, n) && k <= n + 1 && Agree(log, h.logs[v], k)
  }

  lemma SettledInLeader(h: History, t: nat, log: Log, k: nat, u: nat)
    requires HistoryOk(h) && Settled(h, t, log, k) && u in h.logs && t <= u
    ensures Agree(log, h.logs[u], k)
  {
    assert TermOk(h, u);
    if k > 1 {
      var v: nat, n: nat :| SettledBy(h, t, log, k, v, n);
      if v < u {
        LeaderCompleteness(h, v, n, u);
      }
    }
  }

  /** Any two settled prefixes agree as far as both go. */
  lemma SettledAgree(h: History, t: nat, a: Log, j: nat, u: nat, b: Log, k: nat)
    requires HistoryOk(h) && Settled(h, t, a, j) && Settled(h, u, b, k)
    ensures Agree(a, b, if j < k then j else k)
  {
    if j > 1 && k > 1 {
      var v: nat, n: nat :| SettledBy(h, t, a, j, v, n);
      var w: nat, m: nat :| SettledBy(h, u, b, k, w, m);
      if v <= w {
        assert SettledBy(h, v, a, j, v, n);
        SettledInLeader(h, v, a, j, w);
      } else {
        assert SettledBy(h, w, b, k, w, m);
        SettledInLeader(h, w, b, k, v);
      }
    }
  }

  lemma SettledLess(h: History, t: nat, a: Log, k: nat, u: nat, b: Log, j: nat)
    requires Settled(h, t, a, k) && t <= u && 1 <= j <= k && Agree(a, b, j)
    ensures Settled(h, u, b, j)
  {
    if j > 1 {
      var v: nat, n: nat :| SettledBy(h, t, a, k, v, n);
      assert SettledBy(h, u, b, j, v, n);
    }
  }

  /** Log matching for logs made by leaders: the same term at an index means the same log up to it. */
  lemma SameTermSamePrefix(h: History, a: Log, b: Log, i: nat)
    requires HistoryOk(h) && Good(h, a) && Good(h, b) && i < |a| && i < |b| && a[i].term == b[i].term
    ensures Agree(a, b, i + 1)
  {
    if i > 0 {
      assert GoodAt(h, a, i);
      assert GoodAt(h, b, i);
    }
  }
}
