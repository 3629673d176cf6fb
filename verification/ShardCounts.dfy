/** How many shards each group has, how far two assignments are apart, and when an assignment is balanced. */
module ShardCounts {

  type Gid = int

  /** The number of shards assigned to g. */
  function Count(shards: seq<Gid>, g: Gid): nat {
    multiset(shards)[g]
  }

  lemma Recount(shards: seq<Gid>, s: nat, to: Gid, g: Gid)
    requires s < |shards|
    ensures Count(shards[s := to], g) ==
            Count(shards, g) - (if shards[s] == g then 1 else 0) + (if to == g then 1 else 0)
  {
    assert shards[s] in multiset(shards);
  }

  lemma CountLast(shards: seq<Gid>, last: Gid, g: Gid)
    ensures Count(shards + [last], g) == Count(shards, g) + if g == last then 1 else 0
  {
  }

  lemma Counted(shards: seq<Gid>, s: nat)
    requires s < |shards|
    ensures Count(shards, shards[s]) > 0
  {
    assert shards[s] in multiset(shards);
  }

  lemma CountBound(shards: seq<Gid>, g: Gid)
    ensures Count(shards, g) <= |shards|
  {
    if shards != [] {
      var front := shards[..|shards| - 1];
      assert shards == front + [shards[|shards| - 1]];
      CountBound(front, g);
    }
  }

  lemma MultisetSize(shards: seq<Gid>)
    ensures |multiset(shards)| == |shards|
  {
    if shards != [] {
      var front := shards[..|shards| - 1];
      assert shards == front + [shards[|shards| - 1]];
      MultisetSize(front);
    }
  }

  predicate AllIn(shards: seq<Gid>, groups: set<Gid>) {
    forall s :: 0 <= s < |shards| ==> shards[s] in groups
  }

  /** Every two groups are within one shard of each other. */
  ghost predicate WithinOne(shards: seq<Gid>, groups: set<Gid>) {
    forall g, h :: g in groups && h in groups ==> Count(shards, g) <= Count(shards, h) + 1
  }

  /** Fully assigned and balanced. */
  ghost predicate Balanced(shards: seq<Gid>, groups: set<Gid>) {
    AllIn(shards, groups) && WithinOne(shards, groups)
  }

  /** If b assigns every shard and a, over the same shards, gives no group fewer shards than b does, the two
      give every group the same number. */
  lemma Pigeonhole(a: seq<Gid>, b: seq<Gid>, groups: set<Gid>)
    requires |a| == |b| && AllIn(b, groups)
    requires forall g <- groups :: Count(a, g) >= Count(b, g)
    ensures forall g <- groups :: Count(a, g) == Count(b, g)
    ensures AllIn(a, groups)
  {
    assert multiset(b) <= multiset(a) by {
      forall g
        ensures multiset(b)[g] <= multiset(a)[g]
      {
        assert g in multiset(b) <==> g in b;
      }
    }
    MultisetSize(a);
    MultisetSize(b);
    var rest := multiset(a) - multiset(b);
    assert multiset(a) == multiset(b) + rest;
    assert |rest| == 0;
    assert multiset(a) == multiset(b);
    forall s | 0 <= s < |a|
      ensures a[s] in groups
    {
      assert a[s] in multiset(a);
      assert a[s] in b;
    }
  }

  // ----- moves

  /** The number of shards that a and b assign differently. */
  function Moves(a: seq<Gid>, b: seq<Gid>): nat
    requires |a| == |b|
  {
    if a == [] then 0
    else Moves(a[..|a| - 1], b[..|b| - 1]) + if a[|a| - 1] != b[|b| - 1] then 1 else 0
  }

  lemma {:induction false} MovesSymmetric(a: seq<Gid>, b: seq<Gid>)
    requires |a| == |b|
    ensures Moves(a, b) == Moves(b, a)
  {
    if a != [] {
      MovesSymmetric(a[..|a| - 1], b[..|b| - 1]);
    }
  }

  lemma {:induction false} MovesUpdate(a: seq<Gid>, b: seq<Gid>, s: nat, to: Gid)
    requires |a| == |b| && s < |a|
    ensures Moves(a, b[s := to]) == Moves(a, b) - (if a[s] != b[s] then 1 else 0) + (if a[s] != to then 1 else 0)
  {
    var n := |a| - 1;
    if s < n {
      assert b[s := to][..n] == b[..n][s := to];
      MovesUpdate(a[..n], b[..n], s, to);
    } else {
      assert b[s := to][..n] == b[..n];
    }
  }

  /** Moving shard s of a to where b has it brings a closer to b. */
  lemma MovesCloser(a: seq<Gid>, b: seq<Gid>, s: nat)
    requires |a| == |b| && s < |a| && a[s] != b[s]
    ensures Moves(a[s := b[s]], b) == Moves(a, b) - 1
  {
    MovesSymmetric(a, b);
    MovesUpdate(b, a, s, b[s]);
    MovesSymmetric(b, a[s := b[s]]);
  }

  /** One reassignment takes at most one move. */
  lemma MovesOneStep(a: seq<Gid>, s: nat, to: Gid, b: seq<Gid>)
    requires |a| == |b| && s < |a|
    ensures Moves(a, b) <= 1 + Moves(a[s := to], b)
  {
    MovesSymmetric(a, b);
    MovesUpdate(b, a, s, to);
    MovesSymmetric(b, a[s := to]);
  }

  lemma {:induction false} NoMoves(a: seq<Gid>)
    ensures Moves(a, a) == 0
  {
    if a != [] {
      NoMoves(a[..|a| - 1]);
    }
  }

  /** b takes a shard away from a group that has fewer in b. */
  lemma {:induction false} SomeLeave(a: seq<Gid>, b: seq<Gid>, g: Gid) returns (s: nat)
    requires |a| == |b| && Count(b, g) < Count(a, g)
    ensures s < |a| && a[s] == g != b[s]
  {
    var n := |a| - 1;
    assert a == a[..n] + [a[n]] && b == b[..n] + [b[n]];
    if a[n] == g != b[n] {
      s := n;
    } else {
      s := SomeLeave(a[..n], b[..n], g);
    }
  }
}
