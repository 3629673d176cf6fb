/** What rebalancing computes, as a function of the assignment and the set of groups alone, and what it is
    for: every shard in a group, all groups within one shard of each other, as few shards moved as any such
    assignment needs, and none moved twice. */
module ShardBalance {
  import opened Sets
  import opened ShardCounts

  // ----- the least and the most loaded group

  /** Fewest shards; the smallest id among those. */
  ghost predicate IsLeast(shards: seq<Gid>, groups: set<Gid>, g: Gid) {
    && g in groups
    && forall h <- groups :: Count(shards, g) < Count(shards, h) || (Count(shards, g) == Count(shards, h) && g <= h)
  }

  /** Most shards; the smallest id among those. */
  ghost predicate IsMost(shards: seq<Gid>, groups: set<Gid>, g: Gid) {
    && g in groups
    && forall h <- groups :: Count(shards, g) > Count(shards, h) || (Count(shards, g) == Count(shards, h) && g <= h)
  }

  lemma {:induction false} LeastExists(shards: seq<Gid>, groups: set<Gid>)
    requires groups != {}
    ensures exists g :: IsLeast(shards, groups, g)
    decreases groups
  {
    Inhabited(groups);
    var g :| g in groups;
    if groups == {g} {
      assert IsLeast(shards, groups, g);
    } else {
      LeastExists(shards, groups - {g});
      var h :| IsLeast(shards, groups - {g}, h);
      assert IsLeast(shards, groups, g) || IsLeast(shards, groups, h);
    }
  }

  lemma {:induction false} MostExists(shards: seq<Gid>, groups: set<Gid>)
    requires groups != {}
    ensures exists g :: IsMost(shards, groups, g)
    decreases groups
  {
    Inhabited(groups);
    var g :| g in groups;
    if groups == {g} {
      assert IsMost(shards, groups, g);
    } else {
      MostExists(shards, groups - {g});
      var h :| IsMost(shards, groups - {g}, h);
      assert IsMost(shards, groups, g) || IsMost(shards, groups, h);
    }
  }

  ghost function Least(shards: seq<Gid>, groups: set<Gid>): (g: Gid)
    requires groups != {}
    ensures IsLeast(shards, groups, g)
  {
    LeastExists(shards, groups);
    var g :| IsLeast(shards, groups, g);
    g
  }

  ghost function Most(shards: seq<Gid>, groups: set<Gid>): (g: Gid)
    requires groups != {}
    ensures IsMost(shards, groups, g)
  {
    MostExists(shards, groups);
    var g :| IsMost(shards, groups, g);
    g
  }

  // ----- the sum of the squared counts

  ghost function Pick(groups: set<Gid>): (g: Gid)
    requires groups != {}
    ensures g in groups
  {
    Inhabited(groups);
    var g :| g in groups;
    g
  }

  ghost function Squares(shards: seq<Gid>, groups: set<Gid>): nat
    decreases groups
  {
    if groups == {} then 0
    else
      var g := Pick(groups);
      Count(shards, g) * Count(shards, g) + Squares(shards, groups - {g})
  }

  lemma {:induction false} SquaresAfterMove(shards: seq<Gid>, s: nat, to: Gid, groups: set<Gid>)
    requires s < |shards| && shards[s] != to
    ensures Squares(shards[s := to], groups) ==
            Squares(shards, groups) + (if shards[s] in groups then 1 - 2 * Count(shards, shards[s]) else 0)
                                    + (if to in groups then 1 + 2 * Count(shards, to) else 0)
    decreases groups
  {
    if groups != {} {
      var g := Pick(groups);
      Recount(shards, s, to, g);
      var c, d := Count(shards, g), Count(shards[s := to], g);
      if g == to {
        assert d * d == c * c + 2 * c + 1;
      } else if g == shards[s] {
        assert d * d == c * c + 1 - 2 * c;
      }
      SquaresAfterMove(shards, s, to, groups - {g});
    }
  }

  // ----- rebalancing

  /** The first shard of a group that has one. */
  function First(shards: seq<Gid>, g: Gid): (s: nat)
    requires g in shards
    ensures s < |shards| && shards[s] == g && forall i :: 0 <= i < s ==> shards[i] != g
  {
    if shards[0] == g then 0 else 1 + First(shards[1..], g)
  }

  ghost predicate Uneven(shards: seq<Gid>, groups: set<Gid>)
    requires groups != {}
  {
    Count(shards, Most(shards, groups)) >= Count(shards, Least(shards, groups)) + 2
  }

  /** One shard goes from the most to the least loaded group. */
  ghost function Shifted(shards: seq<Gid>, groups: set<Gid>): (r: seq<Gid>)
    requires groups != {} && Uneven(shards, groups)
    ensures |r| == |shards| && Squares(r, groups) < Squares(shards, groups)
  {
    var most, least := Most(shards, groups), Least(shards, groups);
    assert most in multiset(shards);
    var s := First(shards, most);
    SquaresAfterMove(shards, s, least, groups);
    shards[s := least]
  }

  ghost function Level(shards: seq<Gid>, groups: set<Gid>): (r: seq<Gid>)
    requires groups != {}
    ensures |r| == |shards|
    decreases Squares(shards, groups)
  {
    if Uneven(shards, groups) then Level(Shifted(shards, groups), groups) else shards
  }

  /** Shards from number k on that are in no group go to the least loaded one, in turn. */
  ghost function AssignFrom(shards: seq<Gid>, groups: set<Gid>, k: nat): (r: seq<Gid>)
    requires groups != {} && k <= |shards|
    ensures |r| == |shards|
    decreases |shards| - k
  {
    if k == |shards| then shards
    else AssignFrom(if shards[k] in groups then shards else shards[k := Least(shards, groups)], groups, k + 1)
  }

  ghost function Rebalanced(shards: seq<Gid>, groups: set<Gid>): (r: seq<Gid>)
    ensures |r| == |shards|
  {
    if groups == {} then seq(|shards|, _ => 0) else Level(AssignFrom(shards, groups, 0), groups)
  }

  // ----- the result is balanced

  lemma {:induction false} AssignsAll(shards: seq<Gid>, groups: set<Gid>, k: nat)
    requires groups != {} && k <= |shards| && AllIn(shards[..k], groups)
    ensures AllIn(AssignFrom(shards, groups, k), groups)
    decreases |shards| - k
  {
    if k == |shards| {
      assert shards[..k] == shards;
    } else {
      var next := if shards[k] in groups then shards else shards[k := Least(shards, groups)];
      assert next[..k + 1] == shards[..k] + [next[k]];
      AssignsAll(next, groups, k + 1);
    }
  }

  lemma {:induction false} LevelBalances(shards: seq<Gid>, groups: set<Gid>)
    requires groups != {} && AllIn(shards, groups)
    ensures Balanced(Level(shards, groups), groups)
    decreases Squares(shards, groups)
  {
    if Uneven(shards, groups) {
      LevelBalances(Shifted(shards, groups), groups);
    }
  }

  /** Every shard ends in a group and no group is more than one shard ahead of another. */
  lemma RebalancedIsBalanced(shards: seq<Gid>, groups: set<Gid>)
    requires groups != {}
    ensures Balanced(Rebalanced(shards, groups), groups)
  {
    AssignsAll(shards, groups, 0);
    LevelBalances(AssignFrom(shards, groups, 0), groups);
  }

  /** A balanced assignment is left alone. */
  lemma BalancedStays(shards: seq<Gid>, groups: set<Gid>)
    requires groups != {} && Balanced(shards, groups)
    ensures Rebalanced(shards, groups) == shards
  {
    AssignsNone(shards, groups, 0);
  }

  lemma {:induction false} AssignsNone(shards: seq<Gid>, groups: set<Gid>, k: nat)
    requires groups != {} && AllIn(shards, groups) && k <= |shards|
    ensures AssignFrom(shards, groups, k) == shards
    decreases |shards| - k
  {
    if k < |shards| {
      AssignsNone(shards, groups, k + 1);
    }
  }

  // ----- any balanced target can be brought in line with the next step

  lemma Redirected(t: seq<Gid>, groups: set<Gid>, s: nat, to: Gid)
    requires Balanced(t, groups) && s < |t| && to in groups && Count(t, t[s]) == Count(t, to) + 1
    ensures Balanced(t[s := to], groups)
  {
    forall g, h | g in groups && h in groups
      ensures Count(t[s := to], g) <= Count(t[s := to], h) + 1
    {
      Recount(t, s, to, g);
      Recount(t, s, to, h);
    }
  }

  lemma Swapped(t: seq<Gid>, groups: set<Gid>, i: nat, j: nat)
    requires Balanced(t, groups) && i < |t| && j < |t|
    ensures Balanced(t[i := t[j]][j := t[i]], groups)
    ensures forall g :: Count(t[i := t[j]][j := t[i]], g) == Count(t, g)
  {
    forall g
      ensures Count(t[i := t[j]][j := t[i]], g) == Count(t, g)
    {
      Recount(t, i, t[j], g);
      Recount(t[i := t[j]], j, t[i], g);
    }
  }

  /** A target that fills some group fills the least loaded one just as well. */
  lemma FillLeast(s: seq<Gid>, t: seq<Gid>, groups: set<Gid>, least: Gid, z: Gid) returns (u: seq<Gid>)
    requires |s| == |t| && Balanced(t, groups) && IsLeast(s, groups, least)
    requires z in groups && Count(t, z) > Count(s, z)
    ensures |u| == |s| && Balanced(u, groups) && Moves(s, u) <= Moves(s, t) && Count(u, least) > Count(s, least)
    ensures forall g :: g != z && g != least ==> Count(u, g) == Count(t, g)
  {
    if Count(t, least) > Count(s, least) {
      u := t;
    } else {
      var w := SomeLeave(t, s, z);
      u := t[w := least];
      Redirected(t, groups, w, least);
      MovesUpdate(s, t, w, least);
      forall g ensures Count(u, g) == Count(t, g) - (if g == z then 1 else 0) + if g == least then 1 else 0 {
        Recount(t, w, least, g);
      }
    }
  }

  /** A target that drains some group drains the most loaded one just as well. */
  lemma DrainMost(s: seq<Gid>, t: seq<Gid>, groups: set<Gid>, most: Gid, least: Gid) returns (u: seq<Gid>)
    requires |s| == |t| && AllIn(s, groups) && Balanced(t, groups) && IsMost(s, groups, most) && least in groups
    requires Count(s, most) >= Count(s, least) + 2
    ensures |u| == |s| && Balanced(u, groups) && Moves(s, u) <= Moves(s, t) && Count(u, most) < Count(s, most)
  {
    if Count(t, most) < Count(s, most) {
      u := t;
    } else {
      if forall g <- groups :: Count(t, g) >= Count(s, g) {
        Pigeonhole(t, s, groups);
        assert false;
      }
      var z :| z in groups && Count(t, z) < Count(s, z);
      var w := SomeLeave(s, t, z);
      if t[w] == most {
        u := t[w := z];
        Redirected(t, groups, w, z);
        MovesUpdate(s, t, w, z);
        Recount(t, w, z, most);
      } else {
        u := DrainBySwap(s, t, groups, most, z, w);
      }
    }
  }

  lemma DrainBySwap(s: seq<Gid>, t: seq<Gid>, groups: set<Gid>, most: Gid, z: Gid, w: nat) returns (u: seq<Gid>)
    requires |s| == |t| && Balanced(t, groups) && most in groups
    requires z in groups && w < |s| && s[w] == z != t[w] && t[w] != most
    requires Count(t, z) < Count(s, z) <= Count(s, most) <= Count(t, most)
    ensures |u| == |s| && Balanced(u, groups) && Moves(s, u) <= Moves(s, t) && Count(u, most) < Count(s, most)
  {
    assert most in multiset(t);
    var v := First(t, most);
    var swapped := t[w := most][v := t[w]];
    Swapped(t, groups, w, v);
    assert Count(swapped, most) == Count(t, most) && Count(swapped, z) == Count(t, z);
    MovesUpdate(s, t, w, most);
    MovesUpdate(s, t[w := most], v, t[w]);
    u := swapped[w := z];
    assert Count(swapped, most) <= Count(swapped, z) + 1;
    Redirected(swapped, groups, w, z);
    MovesUpdate(s, swapped, w, z);
    Recount(swapped, w, z, most);
  }

  /** Shard i leaves the most loaded group for the least loaded one, in a target that is no further away. */
  lemma ShiftInTarget(s: seq<Gid>, t: seq<Gid>, groups: set<Gid>, most: Gid, least: Gid, i: nat) returns (u: seq<Gid>)
    requires |s| == |t| && Balanced(t, groups) && most != least && i < |s| && s[i] == most
    requires Count(t, most) < Count(s, most) && Count(t, least) > Count(s, least)
    ensures |u| == |s| && Balanced(u, groups) && Moves(s, u) <= Moves(s, t) && u[i] == least
  {
    var j := SomeLeave(s, t, most);
    u := t;
    if t[j] != least {
      var k := SomeLeave(t, s, least);
      u := t[j := t[k]][k := t[j]];
      Swapped(t, groups, j, k);
      MovesUpdate(s, t, j, least);
      MovesUpdate(s, t[j := least], k, t[j]);
    }
    if u[i] != least {
      var v := u;
      u := v[i := v[j]][j := v[i]];
      Swapped(v, groups, i, j);
      MovesUpdate(s, v, i, least);
      MovesUpdate(s, v[i := least], j, v[i]);
    }
  }

  lemma ShiftHelps(s: seq<Gid>, t: seq<Gid>, groups: set<Gid>) returns (u: seq<Gid>)
    requires groups != {} && |s| == |t| && AllIn(s, groups) && Balanced(t, groups) && Uneven(s, groups)
    ensures |u| == |s| && Balanced(u, groups) && Moves(Shifted(s, groups), u) <= Moves(s, t) - 1
  {
    var most, least := Most(s, groups), Least(s, groups);
    assert most in multiset(s);
    var drained := DrainMost(s, t, groups, most, least);
    if forall g <- groups :: Count(s, g) >= Count(drained, g) {
      Pigeonhole(s, drained, groups);
      assert false;
    }
    var z :| z in groups && Count(s, z) < Count(drained, z);
    var filled := FillLeast(s, drained, groups, least, z);
    var i := First(s, most);
    u := ShiftInTarget(s, filled, groups, most, least, i);
    MovesCloser(s, u, i);
  }

  lemma AssignHelps(s: seq<Gid>, t: seq<Gid>, groups: set<Gid>, i: nat) returns (u: seq<Gid>)
    requires groups != {} && |s| == |t| && Balanced(t, groups) && i < |s| && s[i] !in groups
    ensures |u| == |s| && Balanced(u, groups) && Moves(s[i := Least(s, groups)], u) <= Moves(s, t) - 1
  {
    var least := Least(s, groups);
    if forall g <- groups :: Count(s, g) >= Count(t, g) {
      Pigeonhole(s, t, groups);
      assert false;
    }
    var z :| z in groups && Count(s, z) < Count(t, z);
    u := FillLeast(s, t, groups, least, z);
    if u[i] != least {
      var v := u;
      var k := SomeLeave(v, s, least);
      u := v[i := v[k]][k := v[i]];
      Swapped(v, groups, i, k);
      MovesUpdate(s, v, i, least);
      MovesUpdate(s, v[i := least], k, v[i]);
    }
    MovesCloser(s, u, i);
  }

  // ----- minimal movement

  lemma {:induction false} LevelMovesLeast(s: seq<Gid>, t: seq<Gid>, groups: set<Gid>)
    requires groups != {} && |s| == |t| && AllIn(s, groups) && Balanced(t, groups)
    ensures Moves(s, Level(s, groups)) <= Moves(s, t)
    decreases Squares(s, groups)
  {
    if Uneven(s, groups) {
      var u := ShiftHelps(s, t, groups);
      LevelMovesLeast(Shifted(s, groups), u, groups);
      var most := Most(s, groups);
      assert most in multiset(s);
      MovesOneStep(s, First(s, most), Least(s, groups), Level(s, groups));
    } else {
      NoMoves(s);
    }
  }

  lemma {:induction false} AssignMovesLeast(s: seq<Gid>, t: seq<Gid>, groups: set<Gid>, k: nat)
    requires groups != {} && |s| == |t| && k <= |s| && AllIn(s[..k], groups) && Balanced(t, groups)
    ensures Moves(s, Level(AssignFrom(s, groups, k), groups)) <= Moves(s, t)
    decreases |s| - k
  {
    if k == |s| {
      assert s[..k] == s;
      LevelMovesLeast(s, t, groups);
    } else if s[k] in groups {
      assert s[..k + 1] == s[..k] + [s[k]];
      AssignMovesLeast(s, t, groups, k + 1);
    } else {
      var next := s[k := Least(s, groups)];
      var u := AssignHelps(s, t, groups, k);
      assert next[..k + 1] == s[..k] + [next[k]];
      AssignMovesLeast(next, u, groups, k + 1);
      MovesOneStep(s, k, Least(s, groups), Level(AssignFrom(s, groups, k), groups));
    }
  }

  /** No fully assigned, balanced target is closer to the start than what rebalancing reaches. */
  lemma MovesLeast(shards: seq<Gid>, target: seq<Gid>, groups: set<Gid>)
    requires groups != {} && |shards| == |target| && Balanced(target, groups)
    ensures Moves(shards, Rebalanced(shards, groups)) <= Moves(shards, target)
  {
    AssignMovesLeast(shards, target, groups, 0);
  }

  // ----- no shard is moved twice

  ghost function LevelTrail(shards: seq<Gid>, groups: set<Gid>): seq<nat>
    requires groups != {}
    decreases Squares(shards, groups)
  {
    if Uneven(shards, groups) then
      assert Most(shards, groups) in multiset(shards);
      [First(shards, Most(shards, groups))] + LevelTrail(Shifted(shards, groups), groups)
    else []
  }

  /** The shards that are reassigned from number k on, in order. */
  ghost function Trail(shards: seq<Gid>, groups: set<Gid>, k: nat): seq<nat>
    requires groups != {} && k <= |shards|
    decreases |shards| - k
  {
    if k == |shards| then LevelTrail(shards, groups)
    else if shards[k] in groups then Trail(shards, groups, k + 1)
    else [k] + Trail(shards[k := Least(shards, groups)], groups, k + 1)
  }

  /** The shards of such a group will not be touched again. */
  ghost predicate Full(shards: seq<Gid>, groups: set<Gid>, g: Gid) {
    g in groups && forall h <- groups :: Count(shards, g) <= Count(shards, h) + 1
  }

  ghost predicate AllFull(shards: seq<Gid>, groups: set<Gid>, moved: set<nat>) {
    forall s <- moved :: s < |shards| && Full(shards, groups, shards[s])
  }

  lemma AssignedFull(shards: seq<Gid>, groups: set<Gid>, moved: set<nat>, k: nat)
    requires groups != {} && AllFull(shards, groups, moved) && k < |shards| && shards[k] !in groups
    ensures AllFull(shards[k := Least(shards, groups)], groups, moved + {k})
  {
    var next := shards[k := Least(shards, groups)];
    forall g, h | Full(shards, groups, g) || g == next[k]
      ensures h in groups ==> Count(next, g) <= Count(next, h) + 1
    {
      Recount(shards, k, next[k], g);
      Recount(shards, k, next[k], h);
    }
  }

  lemma ShiftedFull(shards: seq<Gid>, groups: set<Gid>, moved: set<nat>)
    requires groups != {} && AllFull(shards, groups, moved) && Uneven(shards, groups)
    ensures LevelTrail(shards, groups) != [] && LevelTrail(shards, groups)[0] !in moved
    ensures AllFull(Shifted(shards, groups), groups, moved + {LevelTrail(shards, groups)[0]})
  {
    var most, least := Most(shards, groups), Least(shards, groups);
    assert most in multiset(shards);
    var k, next := First(shards, most), Shifted(shards, groups);
    forall g
      ensures Count(next, g) == Count(shards, g) - (if g == most then 1 else 0) + (if g == least then 1 else 0)
    {
      Recount(shards, k, least, g);
    }
    forall s | s in moved + {k}
      ensures s < |next| && Full(next, groups, next[s])
    {
      assert s == k || Full(shards, groups, shards[s]);
    }
  }

  ghost predicate Distinct(trail: seq<nat>) {
    forall i, j :: 0 <= i < j < |trail| ==> trail[i] != trail[j]
  }

  /** Each shard on the trail is moved once, for good; the others stay. */
  ghost predicate Once(shards: seq<Gid>, result: seq<Gid>, trail: seq<nat>, moved: set<nat>) {
    && |shards| == |result| && Distinct(trail)
    && (forall s <- trail :: s !in moved && s < |shards|)
    && forall s :: 0 <= s < |shards| ==> (result[s] != shards[s] <==> s in trail)
  }

  lemma OnceMore(shards: seq<Gid>, next: seq<Gid>, result: seq<Gid>, k: nat, rest: seq<nat>, moved: set<nat>)
    requires |next| == |shards| && k < |shards| && k !in moved && next == shards[k := next[k]] && next[k] != shards[k]
    requires Once(next, result, rest, moved + {k})
    ensures Once(shards, result, [k] + rest, moved)
  {
    assert k !in rest;
  }

  lemma {:induction false} LevelOnce(shards: seq<Gid>, groups: set<Gid>, moved: set<nat>)
    requires groups != {} && AllFull(shards, groups, moved)
    ensures Once(shards, Level(shards, groups), LevelTrail(shards, groups), moved)
    decreases Squares(shards, groups)
  {
    if Uneven(shards, groups) {
      ShiftedFull(shards, groups, moved);
      var k, next := LevelTrail(shards, groups)[0], Shifted(shards, groups);
      LevelOnce(next, groups, moved + {k});
      OnceMore(shards, next, Level(shards, groups), k, LevelTrail(next, groups), moved);
    }
  }

  lemma {:induction false} AssignOnce(shards: seq<Gid>, groups: set<Gid>, k: nat, moved: set<nat>)
    requires groups != {} && k <= |shards| && AllFull(shards, groups, moved) && forall s <- moved :: s < k
    ensures Once(shards, Level(AssignFrom(shards, groups, k), groups), Trail(shards, groups, k), moved)
    decreases |shards| - k
  {
    if k == |shards| {
      LevelOnce(shards, groups, moved);
    } else if shards[k] in groups {
      AssignOnce(shards, groups, k + 1, moved);
    } else {
      var next := shards[k := Least(shards, groups)];
      AssignedFull(shards, groups, moved, k);
      AssignOnce(next, groups, k + 1, moved + {k});
      OnceMore(shards, next, Level(AssignFrom(shards, groups, k), groups), k, Trail(next, groups, k + 1), moved);
    }
  }

  /** Every reassignment is of a different shard, and every shard that was reassigned ends in another group
      than it started in: no shard moves twice. */
  lemma NoneTwice(shards: seq<Gid>, groups: set<Gid>)
    requires groups != {}
    ensures Distinct(Trail(shards, groups, 0))
    ensures forall s :: 0 <= s < |shards| ==>
              (Rebalanced(shards, groups)[s] != shards[s] <==> s in Trail(shards, groups, 0))
  {
    AssignOnce(shards, groups, 0, {});
  }

  /** The shards from number k on that are in no group. */
  ghost function Unassigned(shards: seq<Gid>, groups: set<Gid>, k: nat): set<nat> {
    set s: nat | k <= s < |shards| && shards[s] !in groups
  }

  /** First the unassigned shards are given out, in the order of their numbers. */
  lemma {:induction false} UnassignedFirst(shards: seq<Gid>, groups: set<Gid>, k: nat)
    requires groups != {} && k <= |shards|
    ensures var first, trail := Unassigned(shards, groups, k), Trail(shards, groups, k);
            && |first| <= |trail| && (forall i :: 0 <= i < |first| ==> trail[i] in first)
            && (forall i, j :: 0 <= i < j < |first| ==> trail[i] < trail[j])
    decreases |shards| - k
  {
    if k == |shards| {
      assert Unassigned(shards, groups, k) == {};
    } else if shards[k] in groups {
      UnassignedFirst(shards, groups, k + 1);
      assert Unassigned(shards, groups, k) == Unassigned(shards, groups, k + 1);
    } else {
      var next := shards[k := Least(shards, groups)];
      UnassignedFirst(next, groups, k + 1);
      assert Unassigned(shards, groups, k) == {k} + Unassigned(next, groups, k + 1);
    }
  }

  // ----- when groups join or leave a balanced assignment

  /** Only groups in `groups` received shards. */
  ghost predicate OnlyTo(before: seq<Gid>, after: seq<Gid>, groups: set<Gid>) {
    |before| == |after| && forall s :: 0 <= s < |after| && after[s] != before[s] ==> after[s] in groups
  }

  lemma OnlyToTrans(a: seq<Gid>, b: seq<Gid>, c: seq<Gid>, groups: set<Gid>)
    requires OnlyTo(a, b, groups) && OnlyTo(b, c, groups)
    ensures OnlyTo(a, c, groups)
  {
  }

  lemma {:induction false} JoinIsLocal(shards: seq<Gid>, members: set<Gid>, joining: set<Gid>)
    requires members + joining != {} && AllIn(shards, members + joining) && WithinOne(shards, members)
    requires forall j <- joining :: Full(shards, members + joining, j)
    ensures OnlyTo(shards, Level(shards, members + joining), joining)
    decreases Squares(shards, members + joining)
  {
    var groups := members + joining;
    if Uneven(shards, groups) {
      var next := Shifted(shards, groups);
      ShiftKeepsLocal(shards, members, joining);
      JoinIsLocal(next, members, joining);
      OnlyToTrans(shards, next, Level(next, groups), joining);
    }
  }

  lemma ShiftKeepsLocal(shards: seq<Gid>, members: set<Gid>, joining: set<Gid>)
    requires members + joining != {} && WithinOne(shards, members) && Uneven(shards, members + joining)
    requires forall j <- joining :: Full(shards, members + joining, j)
    ensures OnlyTo(shards, Shifted(shards, members + joining), joining)
    ensures WithinOne(Shifted(shards, members + joining), members)
    ensures forall j <- joining :: Full(Shifted(shards, members + joining), members + joining, j)
  {
    var groups := members + joining;
    var most, least := Most(shards, groups), Least(shards, groups);
    assert most in multiset(shards);
    var k, next := First(shards, most), Shifted(shards, groups);
    assert most !in joining;
    forall g
      ensures Count(next, g) == Count(shards, g) - (if g == most then 1 else 0) + (if g == least then 1 else 0)
    {
      Recount(shards, k, least, g);
    }
  }

  lemma {:induction false} AssignKeepsEven(shards: seq<Gid>, groups: set<Gid>, k: nat)
    requires groups != {} && k <= |shards| && WithinOne(shards, groups)
    ensures WithinOne(AssignFrom(shards, groups, k), groups)
    ensures forall s :: 0 <= s < |shards| && shards[s] in groups ==> AssignFrom(shards, groups, k)[s] == shards[s]
    decreases |shards| - k
  {
    if k < |shards| {
      if shards[k] in groups {
        AssignKeepsEven(shards, groups, k + 1);
      } else {
        var next := shards[k := Least(shards, groups)];
        forall g
          ensures Count(next, g) ==
                  Count(shards, g) - (if g == shards[k] then 1 else 0) + (if g == next[k] then 1 else 0)
        {
          Recount(shards, k, next[k], g);
        }
        AssignKeepsEven(next, groups, k + 1);
      }
    }
  }

  /** Groups that join a balanced assignment only receive shards. */
  lemma JoinMovesToJoiners(shards: seq<Gid>, members: set<Gid>, joining: set<Gid>)
    requires members != {} && Balanced(shards, members) && members !! joining
    ensures OnlyTo(shards, Rebalanced(shards, members + joining), joining)
  {
    var groups := members + joining;
    AssignsNone(shards, groups, 0);
    forall j | j in joining
      ensures Full(shards, groups, j)
    {
      assert j !in multiset(shards) by {
        assert j in multiset(shards) <==> j in shards;
      }
    }
    JoinIsLocal(shards, members, joining);
  }

  /** When groups leave a balanced assignment, only their shards move. */
  lemma LeaveMovesLeavers(shards: seq<Gid>, members: set<Gid>, leaving: set<Gid>)
    requires Balanced(shards, members) && leaving <= members
    ensures var r := Rebalanced(shards, members - leaving);
            forall s :: 0 <= s < |shards| && r[s] != shards[s] ==> shards[s] in leaving
  {
    var groups := members - leaving;
    if groups != {} {
      AssignKeepsEven(shards, groups, 0);
      assert !Uneven(AssignFrom(shards, groups, 0), groups);
      assert Rebalanced(shards, groups) == AssignFrom(shards, groups, 0);
    } else {
      assert forall g <- members :: g in groups || g in leaving;
    }
  }
}
