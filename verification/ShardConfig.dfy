/** The shard configuration object: its methods, proved to compute what ShardBalance says. */
module ShardConfig {
  import opened Sets
  import opened ShardCounts
  import opened ShardBalance

  /** log.Fatalf ends the process; a method that meets it returns Fatal. */
  datatype Outcome = Ok | Refused | Fatal

  type Groups = map<Gid, seq<string>>

  /** A configuration as a value. */
  datatype Config = Config(num: nat, shards: seq<Gid>, groups: Groups)

  ghost predicate Common(a: seq<string>, b: seq<string>) {
    exists x :: x in a && x in b
  }

  /** The groups are new and no server is in two groups. */
  ghost predicate Joinable(groups: Groups, servers: Groups) {
    && servers != map[]
    && (forall g <- servers :: g !in groups)
    && (forall g, h :: g in servers && h in groups ==> !Common(groups[h], servers[g]))
    && (forall g, h :: g in servers && h in servers && g != h ==> !Common(servers[h], servers[g]))
  }

  /** The groups are there and none is named twice. */
  ghost predicate Leavable(groups: Groups, gids: seq<Gid>) {
    && gids != []
    && (forall g <- gids :: g in groups)
    && (forall i, j :: 0 <= i < j < |gids| ==> gids[i] != gids[j])
  }

  function Named(gids: seq<Gid>): set<Gid> {
    set g | g in gids
  }

  /** What the configuration checker looks at, given the expected groups. */
  ghost predicate Passes(c: Config, gids: seq<Gid>) {
    && |c.groups| == |gids| && (forall g <- gids :: g in c.groups)
    && (gids != [] ==> AllIn(c.shards, c.groups.Keys))
    && WithinOne(c.shards, c.groups.Keys)
  }

  // ----- sorting ids

  function Insert(g: Gid, ids: seq<Gid>): seq<Gid> {
    if ids == [] || g <= ids[0] then [g] + ids else [ids[0]] + Insert(g, ids[1..])
  }

  /** Stands for the library's sort. */
  function Sorted(ids: seq<Gid>): seq<Gid> {
    if ids == [] then [] else Insert(ids[0], Sorted(ids[1..]))
  }

  ghost predicate Ascending(ids: seq<Gid>) {
    forall i, j :: 0 <= i <= j < |ids| ==> ids[i] <= ids[j]
  }

  lemma {:induction false} InsertOk(g: Gid, ids: seq<Gid>)
    requires Ascending(ids)
    ensures Ascending(Insert(g, ids)) && forall x :: x in Insert(g, ids) <==> x == g || x in ids
  {
    if ids != [] && g > ids[0] {
      InsertOk(g, ids[1..]);
      assert ids == [ids[0]] + ids[1..];
      var rest := Insert(g, ids[1..]);
      forall i | 0 <= i < |rest|
        ensures ids[0] <= rest[i]
      {
        assert rest[i] in rest;
        assert rest[i] != g ==> exists k :: 1 <= k < |ids| && ids[k] == rest[i];
      }
    }
  }

  lemma {:induction false} SortedOk(ids: seq<Gid>)
    ensures Ascending(Sorted(ids)) && forall x :: x in Sorted(ids) <==> x in ids
  {
    if ids != [] {
      SortedOk(ids[1..]);
      InsertOk(ids[0], Sorted(ids[1..]));
      assert ids == [ids[0]] + ids[1..];
    }
  }

  // ----- reading off the loads

  function Entry(counts: map<Gid, nat>, g: Gid): nat {
    if g in counts then counts[g] else 0
  }

  /** The best of the ids seen so far. */
  ghost predicate LeastOf(shards: seq<Gid>, ids: seq<Gid>, g: Gid, n: int) {
    if ids == [] then g == -1 && n == 257
    else
      && g in ids && n == Count(shards, g)
      && forall h <- ids :: n < Count(shards, h) || (n == Count(shards, h) && g <= h)
  }

  ghost predicate MostOf(shards: seq<Gid>, ids: seq<Gid>, g: Gid, n: int) {
    if ids == [] then g == -1 && n == -1
    else
      && g in ids && n == Count(shards, g)
      && forall h <- ids :: n > Count(shards, h) || (n == Count(shards, h) && g <= h)
  }

  lemma LeastNext(shards: seq<Gid>, ids: seq<Gid>, k: nat, g: Gid, n: int)
    requires k < |ids| && Ascending(ids) && LeastOf(shards, ids[..k], g, n) && |shards| < 257
    ensures var c := Count(shards, ids[k]);
            LeastOf(shards, ids[..k + 1], if c < n then ids[k] else g, if c < n then c else n)
  {
    CountBound(shards, ids[k]);
    assert ids[..k + 1] == ids[..k] + [ids[k]];
  }

  lemma MostNext(shards: seq<Gid>, ids: seq<Gid>, k: nat, g: Gid, n: int)
    requires k < |ids| && Ascending(ids) && MostOf(shards, ids[..k], g, n)
    ensures var c := Count(shards, ids[k]);
            MostOf(shards, ids[..k + 1], if c > n then ids[k] else g, if c > n then c else n)
  {
    assert ids[..k + 1] == ids[..k] + [ids[k]];
  }

  /** `todo` is what is left of the joining groups. */
  ghost predicate Joined(groups: Groups, servers: Groups, todo: set<Gid>, now: Groups) {
    && todo <= servers.Keys && now == groups + (servers - todo)
    && (todo != servers.Keys ==> Joinable(groups, servers - todo))
  }

  lemma JoinedAll(groups: Groups, servers: Groups, now: Groups)
    requires Joined(groups, servers, {}, now)
    ensures now == groups + servers && (servers != map[] <==> Joinable(groups, servers))
    ensures groups.Keys <= now.Keys <= groups.Keys + servers.Keys
  {
    assert servers - {} == servers;
    assert servers.Keys == {} ==> servers == map[];
  }

  /** A group that is known already, or shares a server with one that is. */
  lemma CannotJoin(groups: Groups, servers: Groups, todo: set<Gid>, now: Groups, gid: Gid)
    requires Joined(groups, servers, todo, now) && gid in todo
    requires gid in now || exists h :: h in now && Common(now[h], servers[gid])
    ensures !Joinable(groups, servers) && (gid in now ==> gid in servers && gid in groups)
    ensures groups.Keys <= now.Keys <= groups.Keys + servers.Keys
  {
    if gid !in now {
      var h :| h in now && Common(now[h], servers[gid]);
      CannotShare(groups, servers, todo, now, gid, h);
    }
  }

  lemma CannotShare(groups: Groups, servers: Groups, todo: set<Gid>, now: Groups, gid: Gid, h: Gid)
    requires Joined(groups, servers, todo, now) && gid in todo
    requires gid !in now && h in now && Common(now[h], servers[gid])
    ensures !Joinable(groups, servers)
  {
    assert h in groups || h in servers - todo;
    if h in servers - todo {
      assert h in servers && h != gid && now[h] == servers[h];
    } else {
      assert now[h] == groups[h];
    }
  }

  /** A group that is new and shares no server with what is there by now joins. */
  lemma JoinsToo(groups: Groups, servers: Groups, todo: set<Gid>, now: Groups, gid: Gid)
    requires Joined(groups, servers, todo, now) && gid in todo && gid !in now
    requires forall h <- now :: !Common(now[h], servers[gid])
    ensures Joined(groups, servers, todo - {gid}, now[gid := servers[gid]])
  {
    var next := servers - (todo - {gid});
    assert gid in next;
    forall g, h | g in next && h in groups
      ensures !Common(groups[h], next[g])
    {
      if g == gid {
        assert h !in servers - todo ==> now[h] == groups[h];
        assert h in servers - todo ==> !Joinable(groups, servers - todo);
      } else {
        assert g in servers - todo;
      }
    }
    forall g, h | g in next && h in next && g != h
      ensures !Common(next[h], next[g])
    {
      if g == gid {
        assert now[h] == servers[h];
      } else if h == gid {
        assert now[g] == servers[g];
      } else {
        assert g in servers - todo && h in servers - todo;
      }
    }
  }

  /** What is left to do from shard k on leads from here to where it leads from the start, on one trail. */
  ghost predicate Assigning(start: seq<Gid>, groups: set<Gid>, shards: seq<Gid>, k: nat, trail: seq<nat>) {
    && groups != {} && k <= |shards|
    && AssignFrom(shards, groups, k) == AssignFrom(start, groups, 0)
    && trail + Trail(shards, groups, k) == Trail(start, groups, 0)
  }

  ghost predicate Levelling(start: seq<Gid>, groups: set<Gid>, shards: seq<Gid>, trail: seq<nat>) {
    && groups != {}
    && Level(shards, groups) == Rebalanced(start, groups)
    && trail + LevelTrail(shards, groups) == Trail(start, groups, 0)
  }

  lemma AssignedOne(start: seq<Gid>, groups: set<Gid>, shards: seq<Gid>, k: nat, trail: seq<nat>, g: Gid)
    requires Assigning(start, groups, shards, k, trail) && k < |shards|
    requires shards[k] !in groups && g == Least(shards, groups)
    ensures Assigning(start, groups, shards[k := g], k + 1, trail + [k])
  {
    assert trail + [k] + Trail(shards[k := g], groups, k + 1) == trail + Trail(shards, groups, k);
  }

  lemma PassedOne(start: seq<Gid>, groups: set<Gid>, shards: seq<Gid>, k: nat, trail: seq<nat>)
    requires Assigning(start, groups, shards, k, trail) && k < |shards| && shards[k] in groups
    ensures Assigning(start, groups, shards, k + 1, trail)
  {
  }

  lemma AssignedAll(start: seq<Gid>, groups: set<Gid>, shards: seq<Gid>, trail: seq<nat>)
    requires Assigning(start, groups, shards, |shards|, trail)
    ensures Levelling(start, groups, shards, trail)
  {
  }

  lemma LevelledOne(start: seq<Gid>, groups: set<Gid>, shards: seq<Gid>, trail: seq<nat>)
    requires Levelling(start, groups, shards, trail) && Uneven(shards, groups)
    ensures Most(shards, groups) in shards
    ensures Levelling(start, groups, Shifted(shards, groups), trail + [First(shards, Most(shards, groups))])
    ensures Squares(Shifted(shards, groups), groups) < Squares(shards, groups)
  {
    assert Most(shards, groups) in multiset(shards);
    assert Level(shards, groups) == Level(Shifted(shards, groups), groups);
  }

  lemma LevelledAll(start: seq<Gid>, groups: set<Gid>, shards: seq<Gid>, trail: seq<nat>)
    requires Levelling(start, groups, shards, trail) && !Uneven(shards, groups)
    ensures shards == Rebalanced(start, groups) && trail == Trail(start, groups, 0)
  {
  }

  class ShardConfig {
    var num: nat
    const shards: array<Gid>
    var groups: Groups

    ghost function View(): Config
      reads this, shards
    {
      Config(num, shards[..], groups)
    }

    /** `n` shards, all unassigned, and no group. */
    constructor (n: nat)
      ensures fresh(shards) && View() == Config(0, seq(n, _ => 0), map[])
    {
      num, groups := 0, map[];
      shards := new Gid[n](_ => 0);
      new;
      assert shards[..] == seq(n, _ => 0);
    }

    /** How many shards every group has. */
    method CountShards() returns (counts: map<Gid, nat>)
      ensures forall g :: Entry(counts, g) == Count(shards[..], g)
    {
      counts := map[];
      for i := 0 to shards.Length
        invariant forall g :: Entry(counts, g) == Count(shards[..i], g)
      {
        assert shards[..i + 1] == shards[..i] + [shards[i]];
        var next := counts[shards[i] := Entry(counts, shards[i]) + 1];
        forall g ensures Entry(next, g) == Count(shards[..i + 1], g) {
          CountLast(shards[..i], shards[i], g);
          assert Entry(counts, g) == Count(shards[..i], g);
        }
        counts := next;
      }
      assert shards[..shards.Length] == shards[..];
    }

    /** The ids of the groups in the order in which the map is walked, which is not fixed. */
    method GroupIds() returns (ids: seq<Gid>)
      ensures forall g :: g in ids <==> g in groups
    {
      ids := [];
      var todo := groups.Keys;
      while todo != {}
        invariant todo <= groups.Keys
        invariant forall g :: g in ids <==> g in groups.Keys - todo
        decreases |todo|
      {
        Inhabited(todo);
        var g :| g in todo;
        ids := ids + [g];
        todo := todo - {g};
      }
    }

    /** The most and the least loaded group with their loads. */
    method Analyze() returns (mg: Gid, mn: int, lg: Gid, ln: int)
      requires shards.Length < 257
      ensures groups == map[] ==> (mg, mn, lg, ln) == (-1, -1, -1, 257)
      ensures groups != map[] ==>
                && mg == Most(shards[..], groups.Keys) && mn == Count(shards[..], mg)
                && lg == Least(shards[..], groups.Keys) && ln == Count(shards[..], lg)
    {
      var counts := CountShards();
      mn, mg := -1, -1;
      ln, lg := 257, -1;
      var ids := GroupIds();
      SortedOk(ids);
      ids := Sorted(ids);
      for i := 0 to |ids|
        invariant LeastOf(shards[..], ids[..i], lg, ln) && MostOf(shards[..], ids[..i], mg, mn)
      {
        LeastNext(shards[..], ids, i, lg, ln);
        MostNext(shards[..], ids, i, mg, mn);
        var c := Entry(counts, ids[i]);
        if c < ln {
          ln, lg := c, ids[i];
        }
        if c > mn {
          mn, mg := c, ids[i];
        }
      }
      assert ids[..|ids|] == ids;
      if groups != map[] {
        Inhabited(groups.Keys);
        assert IsLeast(shards[..], groups.Keys, lg) && IsMost(shards[..], groups.Keys, mg);
      }
    }

    /** The first shard of group mg goes to lg. */
    method MoveOne(mg: Gid, lg: Gid) returns (ghost moved: nat)
      requires mg in shards[..]
      modifies shards
      ensures moved == First(old(shards[..]), mg) && shards[..] == old(shards[..])[moved := lg]
    {
      ghost var first := First(shards[..], mg);
      moved := shards.Length;
      for s := 0 to shards.Length
        invariant s <= first && shards[..] == old(shards[..])
      {
        if shards[s] == mg {
          shards[s], moved := lg, s;
          break;
        }
      }
    }

    /** The second loop of Rebalance: shards go from the most to the least loaded group.  It ends because the
        sum of the squared loads falls with every move. */
    method LevelLoads(ghost start: seq<Gid>, ghost given: seq<nat>) returns (ghost trail: seq<nat>)
      requires shards.Length < 257 && Levelling(start, groups.Keys, shards[..], given)
      modifies shards
      ensures shards[..] == Rebalanced(start, groups.Keys) && trail == Trail(start, groups.Keys, 0)
    {
      trail := given;
      while true
        invariant Levelling(start, groups.Keys, shards[..], trail)
        decreases Squares(shards[..], groups.Keys)
      {
        var mg, mn, lg, ln := Analyze();
        if mn < ln + 2 {
          LevelledAll(start, groups.Keys, shards[..], trail);
          break;
        }
        LevelledOne(start, groups.Keys, shards[..], trail);
        ghost var before := shards[..];
        ghost var moved := MoveOne(mg, lg);
        assert shards[..] == Shifted(before, groups.Keys);
        trail := trail + [moved];
      }
    }

    /** The first loop of Rebalance: every shard that is in no group goes to the least loaded one. */
    method AssignUnassigned() returns (ghost trail: seq<nat>)
      requires shards.Length < 257 && groups.Keys != {}
      modifies shards
      ensures Levelling(old(shards[..]), groups.Keys, shards[..], trail)
    {
      trail := [];
      ghost var start := shards[..];
      for s := 0 to shards.Length
        invariant Assigning(start, groups.Keys, shards[..], s, trail)
      {
        if shards[s] !in groups {
          var _, _, lg, _ := Analyze();
          ghost var now := shards[..];
          AssignedOne(start, groups.Keys, now, s, trail, lg);
          shards[s], trail := lg, trail + [s];
          assert shards[..] == now[s := lg];
        } else {
          PassedOne(start, groups.Keys, shards[..], s, trail);
        }
      }
      AssignedAll(start, groups.Keys, shards[..], trail);
    }

    /** Whatever the order in which maps are walked, the result is a function of the assignment and the set of
        groups.  `trail` are the shards that are given to a group, in the order in which that happens. */
    method Rebalance() returns (ghost trail: seq<nat>)
      requires shards.Length < 257
      modifies shards
      ensures shards[..] == Rebalanced(old(shards[..]), groups.Keys)
      ensures groups != map[] ==> trail == Trail(old(shards[..]), groups.Keys, 0)
    {
      if |groups| < 1 {
        trail := [];
        assert groups.Keys == {};
        for s := 0 to shards.Length
          invariant forall i :: 0 <= i < s ==> shards[i] == 0
        {
          shards[s] := 0;
        }
        return;
      }
      ghost var start := shards[..];
      trail := AssignUnassigned();
      trail := LevelLoads(start, trail);
    }

    /** Whether one of the servers is in a group already. */
    method SharesServer(servers: seq<string>) returns (shares: bool)
      ensures shares <==> exists h :: h in groups && Common(groups[h], servers)
    {
      var todo := groups.Keys;
      while todo != {}
        invariant todo <= groups.Keys
        invariant forall h :: h in groups.Keys - todo ==> !Common(groups[h], servers)
        decreases |todo|
      {
        Inhabited(todo);
        var h :| h in todo;
        for i := 0 to |groups[h]|
          invariant forall x :: x in groups[h][..i] ==> x !in servers
        {
          for j := 0 to |servers|
            invariant groups[h][i] !in servers[..j]
          {
            if groups[h][i] == servers[j] {
              assert groups[h][i] in groups[h] && groups[h][i] in servers;
              return true;
            }
          }
        }
        todo := todo - {h};
      }
      return false;
    }

    method Join(servers: Groups) returns (r: Outcome)
      modifies this
      ensures r.Ok? <==> Joinable(old(groups), servers)
      ensures r.Ok? ==> groups == old(groups) + servers && num == old(num) + 1
      ensures r.Refused? ==> exists g :: g in servers && g in old(groups)
      ensures !r.Ok? ==> num == old(num) && old(groups.Keys) <= groups.Keys <= old(groups.Keys) + servers.Keys
    {
      var todo := servers.Keys;
      var changed := false;
      while todo != {}
        invariant Joined(old(groups), servers, todo, groups) && num == old(num)
        invariant changed <==> todo != servers.Keys
        decreases |todo|
      {
        Inhabited(todo);
        var gid :| gid in todo;
        if gid in groups {
          CannotJoin(old(groups), servers, todo, groups, gid);
          return Refused;
        }
        var shares := SharesServer(servers[gid]);
        if shares {
          CannotJoin(old(groups), servers, todo, groups, gid);
          return Fatal;
        }
        JoinsToo(old(groups), servers, todo, groups, gid);
        groups := groups[gid := servers[gid]];
        changed := true;
        todo := todo - {gid};
      }
      JoinedAll(old(groups), servers, groups);
      if !changed {
        return Fatal;
      }
      num := num + 1;
      return Ok;
    }

    method Leave(gids: seq<Gid>) returns (r: Outcome)
      modifies this
      ensures r.Ok? <==> Leavable(old(groups), gids)
      ensures r.Ok? ==> groups == old(groups) - Named(gids) && num == old(num) + 1
      ensures r.Fatal? <==> gids == []
      ensures !r.Ok? ==> num == old(num) && old(groups.Keys) - Named(gids) <= groups.Keys <= old(groups.Keys)
    {
      var changed := false;
      for i := 0 to |gids|
        invariant num == old(num) && (changed <==> i > 0)
        invariant groups == old(groups) - Named(gids[..i])
        invariant i > 0 ==> Leavable(old(groups), gids[..i])
      {
        if gids[i] !in groups {
          assert gids[i] in gids;
          if gids[i] in old(groups) {
            var j :| 0 <= j < i && gids[..i][j] == gids[i];
            assert gids[j] == gids[i];
          }
          return Refused;
        }
        groups := groups - {gids[i]};
        changed := true;
        assert gids[..i + 1] == gids[..i] + [gids[i]];
      }
      assert gids[..|gids|] == gids;
      if !changed {
        return Fatal;
      }
      num := num + 1;
      return Ok;
    }

    method JoinBalance(servers: Groups) returns (r: Outcome)
      requires shards.Length < 257
      modifies this, shards
      ensures r.Ok? <==> Joinable(old(groups), servers)
      ensures r.Ok? ==> View() == Changed(old(View()), Joins(servers))
      ensures !r.Ok? ==> shards[..] == old(shards[..]) && num == old(num)
    {
      r := Join(servers);
      if r.Ok? {
        ghost var _ := Rebalance();
      }
    }

    method LeaveBalance(gids: seq<Gid>) returns (r: Outcome)
      requires shards.Length < 257
      modifies this, shards
      ensures r.Ok? <==> Leavable(old(groups), gids)
      ensures r.Ok? ==> View() == Changed(old(View()), Leaves(gids))
      ensures !r.Ok? ==> shards[..] == old(shards[..]) && num == old(num)
    {
      r := Leave(gids);
      if r.Ok? {
        ghost var _ := Rebalance();
      }
    }

    /** The checker that the tests run after every change; `false` where it would fail the test. */
    method CheckConfig(gids: seq<Gid>) returns (ok: bool)
      requires shards.Length < 257
      ensures ok <==> Passes(View(), gids)
    {
      if |groups| != |gids| {
        return false;
      }
      for i := 0 to |gids|
        invariant forall g :: g in gids[..i] ==> g in groups
      {
        if gids[i] !in groups {
          ghost var missing := gids[i];
          assert missing in gids && missing !in View().groups;
          return false;
        }
      }
      if |gids| > 0 {
        for s := 0 to shards.Length
          invariant forall i :: 0 <= i < s ==> shards[i] in groups
        {
          if shards[s] !in groups {
            assert shards[..][s] !in groups && !AllIn(shards[..], groups.Keys);
            return false;
          }
        }
      }
      var counts := CountShards();
      var min, max := 257, 0;
      var todo := groups.Keys;
      while todo != {}
        invariant todo <= groups.Keys
        invariant Spread(shards[..], groups.Keys - todo, min, max)
        decreases |todo|
      {
        Inhabited(todo);
        var g :| g in todo;
        CountBound(shards[..], g);
        var c := Entry(counts, g);
        ghost var seen := groups.Keys - todo;
        SpreadNext(shards[..], seen, min, max, g);
        if c > max {
          max := c;
        }
        if c < min {
          min := c;
        }
        todo := todo - {g};
        assert groups.Keys - todo == seen + {g};
      }
      assert groups.Keys - todo == groups.Keys;
      SpreadMeans(shards[..], groups.Keys, min, max);
      return max <= min + 1;
    }
  }

  // ----- the checker's minimum and maximum

  ghost predicate Spread(shards: seq<Gid>, seen: set<Gid>, min: int, max: int) {
    && 0 <= max
    && (forall g <- seen :: min <= Count(shards, g) <= max)
    && (if seen == {} then min == 257 && max == 0
        else (exists g :: g in seen && Count(shards, g) == min) && (exists g :: g in seen && Count(shards, g) == max))
  }

  lemma SpreadNext(shards: seq<Gid>, seen: set<Gid>, min: int, max: int, g: Gid)
    requires Spread(shards, seen, min, max) && |shards| < 257
    ensures var c := Count(shards, g);
            Spread(shards, seen + {g}, if c < min then c else min, if c > max then c else max)
  {
    CountBound(shards, g);
    assert g in seen + {g};
    if seen != {} {
      var a :| a in seen && Count(shards, a) == min;
      var b :| b in seen && Count(shards, b) == max;
      assert a in seen + {g} && b in seen + {g};
    }
  }

  lemma SpreadMeans(shards: seq<Gid>, groups: set<Gid>, min: int, max: int)
    requires Spread(shards, groups, min, max)
    ensures max <= min + 1 <==> WithinOne(shards, groups)
  {
    if groups != {} {
      var a :| a in groups && Count(shards, a) == min;
      var b :| b in groups && Count(shards, b) == max;
      assert WithinOne(shards, groups) ==> Count(shards, b) <= Count(shards, a) + 1;
    }
  }

  // ----- runs

  datatype Change = Joins(servers: Groups) | Leaves(gids: seq<Gid>)

  ghost predicate Allowed(c: Config, change: Change) {
    match change
    case Joins(servers) => Joinable(c.groups, servers)
    case Leaves(gids) => Leavable(c.groups, gids)
  }

  /** A successful JoinBalance or LeaveBalance. */
  ghost function Changed(c: Config, change: Change): Config {
    var groups := match change case Joins(servers) => c.groups + servers case Leaves(gids) => c.groups - Named(gids);
    Config(c.num + 1, Rebalanced(c.shards, groups.Keys), groups)
  }

  /** The configuration after a sequence of successful changes to a new one with n shards. */
  ghost predicate Reaches(n: nat, changes: seq<Change>, c: Config)
    decreases |changes|
  {
    if changes == [] then c == Config(0, seq(n, _ => 0), map[])
    else
      var last := |changes| - 1;
      exists b :: Reaches(n, changes[..last], b) && Allowed(b, changes[last]) && c == Changed(b, changes[last])
  }

  /** Balanced over its groups, or unassigned when there is none. */
  ghost predicate InOrder(c: Config) {
    if c.groups == map[] then forall s :: 0 <= s < |c.shards| ==> c.shards[s] == 0
    else Balanced(c.shards, c.groups.Keys)
  }

  lemma ChangedInOrder(c: Config, change: Change)
    ensures InOrder(Changed(c, change)) && |Changed(c, change).shards| == |c.shards|
  {
    var d := Changed(c, change);
    if d.groups != map[] {
      RebalancedIsBalanced(c.shards, d.groups.Keys);
    }
  }

  lemma {:induction false} RunInOrder(n: nat, changes: seq<Change>, c: Config)
    requires Reaches(n, changes, c)
    ensures InOrder(c) && |c.shards| == n && c.num == |changes|
    decreases |changes|
  {
    if changes != [] {
      var last := |changes| - 1;
      var b :| Reaches(n, changes[..last], b) && Allowed(b, changes[last]) && c == Changed(b, changes[last]);
      RunInOrder(n, changes[..last], b);
      ChangedInOrder(b, changes[last]);
    }
  }

  /** Every configuration a run can reach passes the checker for its groups. */
  lemma RunPasses(n: nat, changes: seq<Change>, c: Config, gids: seq<Gid>)
    requires Reaches(n, changes, c) && Named(gids) == c.groups.Keys && |gids| == |c.groups|
    ensures Passes(c, gids)
  {
    RunInOrder(n, changes, c);
    assert forall g <- gids :: g in Named(gids);
  }

  lemma JoinIsLocalHere(c: Config, servers: Groups, s: nat)
    requires InOrder(c) && Joinable(c.groups, servers) && s < |c.shards|
    ensures Changed(c, Joins(servers)).shards[s] != c.shards[s] ==> Changed(c, Joins(servers)).shards[s] in servers
  {
    assert (c.groups + servers).Keys == c.groups.Keys + servers.Keys;
    if c.groups == map[] {
      RebalancedIsBalanced(c.shards, servers.Keys);
      assert c.groups.Keys + servers.Keys == servers.Keys;
    } else {
      forall g | g in c.groups.Keys ensures g !in servers.Keys {}
      JoinMovesToJoiners(c.shards, c.groups.Keys, servers.Keys);
    }
  }

  /** In every run, a join moves shards to joining groups only. */
  lemma JoinIsLocalInRun(n: nat, changes: seq<Change>, c: Config, servers: Groups, s: nat)
    requires Reaches(n, changes, c) && Joinable(c.groups, servers) && s < n
    ensures |c.shards| == |Changed(c, Joins(servers)).shards| == n
    ensures Changed(c, Joins(servers)).shards[s] != c.shards[s] ==> Changed(c, Joins(servers)).shards[s] in servers
  {
    RunInOrder(n, changes, c);
    JoinIsLocalHere(c, servers, s);
  }

  /** In every run, a leave moves shards of leaving groups only. */
  lemma LeaveIsLocalInRun(n: nat, changes: seq<Change>, c: Config, gids: seq<Gid>, s: nat)
    requires Reaches(n, changes, c) && Leavable(c.groups, gids) && s < n
    ensures |c.shards| == |Changed(c, Leaves(gids)).shards| == n
    ensures Changed(c, Leaves(gids)).shards[s] != c.shards[s] ==> c.shards[s] in gids
  {
    RunInOrder(n, changes, c);
    assert gids[0] in gids;
    assert (c.groups - Named(gids)).Keys == c.groups.Keys - Named(gids);
    LeaveMovesLeavers(c.shards, c.groups.Keys, Named(gids));
  }
}
