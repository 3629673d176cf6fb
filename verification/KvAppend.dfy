/** Many clients append to one list by reading it and putting back a longer one, over a lossy network; and
    the check of the result. */
module KvAppend {
  import opened Sets

  /** The tuple a client appends: who it is and which of its rounds this is. */
  datatype Stamp = Stamp(client: int, n: int)

  datatype Tally = Tally(nok: nat, nmaybe: nat)

  // ----- reading a list of stamps

  /** How many stamps of client c there are. */
  function CountOf(es: seq<Stamp>, c: int): nat {
    if es == [] then 0 else CountOf(es[..|es| - 1], c) + if es[|es| - 1].client == c then 1 else 0
  }

  /** One more than the last round of client c. */
  function Expected(es: seq<Stamp>, c: int): int {
    if es == [] then 0 else if es[|es| - 1].client == c then es[|es| - 1].n + 1 else Expected(es[..|es| - 1], c)
  }

  /** The rounds of client c only go up. */
  predicate Rising(es: seq<Stamp>, c: int) {
    es == [] ||
    (Rising(es[..|es| - 1], c) && (es[|es| - 1].client == c ==> es[|es| - 1].n >= Expected(es[..|es| - 1], c)))
  }

  lemma {:induction false} ExpectedBounds(es: seq<Stamp>, c: int, i: nat)
    requires Rising(es, c) && i < |es| && es[i].client == c
    ensures 0 <= es[i].n < Expected(es, c)
  {
    var front := es[..|es| - 1];
    if i < |es| - 1 {
      ExpectedBounds(front, c, i);
    } else {
      ExpectedNat(front, c);
    }
  }

  lemma {:induction false} ExpectedNat(es: seq<Stamp>, c: int)
    requires Rising(es, c)
    ensures 0 <= CountOf(es, c) <= Expected(es, c)
  {
    if es != [] {
      ExpectedNat(es[..|es| - 1], c);
    }
  }

  /** Rising means: no negative round, and every later stamp of the client has a higher round; so no round
      occurs twice. */
  lemma {:induction false} RisingMeans(es: seq<Stamp>, c: int)
    ensures Rising(es, c) <==>
              && (forall i :: 0 <= i < |es| && es[i].client == c ==> es[i].n >= 0)
              && (forall i, j :: 0 <= i < j < |es| && es[i].client == c && es[j].client == c ==> es[i].n < es[j].n)
  {
    if es != [] {
      var front, last := es[..|es| - 1], es[|es| - 1];
      RisingMeans(front, c);
      if Rising(es, c) {
        forall i | 0 <= i < |es| && es[i].client == c
          ensures es[i].n >= 0 && (i < |es| - 1 && last.client == c ==> es[i].n < last.n)
        {
          ExpectedBounds(es, c, i);
          if i < |es| - 1 {
            ExpectedBounds(front, c, i);
          }
        }
      } else if Rising(front, c) && Expected(front, c) > 0 {
        var i := LastOf(front, c);
        assert es[i] == front[i];
      }
    }
  }

  lemma {:induction false} LastOf(es: seq<Stamp>, c: int) returns (i: nat)
    requires Expected(es, c) != 0
    ensures i < |es| && es[i].client == c && es[i].n + 1 == Expected(es, c)
  {
    if es[|es| - 1].client == c {
      i := |es| - 1;
    } else {
      i := LastOf(es[..|es| - 1], c);
    }
  }

  // ----- the check of the result

  /** What the check accepts: as many entries as successful puts; every client known, in order, and with no
      more rounds than it counted; and no more rounds missing than it was unsure of. */
  ghost predicate AppendsOk(es: seq<Stamp>, rs: seq<Tally>, ver: nat) {
    && |es| + 1 == ver
    && (forall i :: 0 <= i < |es| ==> 0 <= es[i].client < |rs|)
    && (forall c :: 0 <= c < |rs| ==>
          && Rising(es, c)
          && Expected(es, c) - CountOf(es, c) <= rs[c].nmaybe
          && Expected(es, c) <= rs[c].nok + rs[c].nmaybe)
  }

  function At(m: map<int, int>, c: int): int {
    if c in m then m[c] else 0
  }

  /** The two maps after the stamps so far. */
  ghost predicate Tracked(es: seq<Stamp>, due: map<int, int>, skipped: map<int, int>) {
    forall c: int {:trigger TrackedFor(es, due, skipped, c)} :: TrackedFor(es, due, skipped, c)
  }

  ghost predicate TrackedFor(es: seq<Stamp>, due: map<int, int>, skipped: map<int, int>, c: int) {
    Rising(es, c) && At(due, c) == Expected(es, c) && At(skipped, c) == Expected(es, c) - CountOf(es, c)
  }

  lemma TrackedStart(due: map<int, int>, skipped: map<int, int>)
    requires (forall c <- due :: due[c] == 0) && forall c <- skipped :: skipped[c] == 0
    ensures Tracked([], due, skipped)
  {
    forall c: int ensures TrackedFor([], due, skipped, c) {}
  }

  lemma TrackedNext(es: seq<Stamp>, e: Stamp, due: map<int, int>, skipped: map<int, int>)
    requires Tracked(es, due, skipped)
    ensures Rising(es + [e], e.client) <==> At(due, e.client) <= e.n
    ensures At(due, e.client) <= e.n ==>
              Tracked(es + [e], due[e.client := e.n + 1],
                      if At(due, e.client) == e.n then skipped
                      else skipped[e.client := At(skipped, e.client) + (e.n - At(due, e.client))])
  {
    assert (es + [e])[..|es|] == es;
    assert TrackedFor(es, due, skipped, e.client);
    if At(due, e.client) <= e.n {
      var next := due[e.client := e.n + 1];
      var more := if At(due, e.client) == e.n then skipped
                  else skipped[e.client := At(skipped, e.client) + (e.n - At(due, e.client))];
      forall c: int
        ensures TrackedFor(es + [e], next, more, c)
      {
        assert TrackedFor(es, due, skipped, c);
      }
    }
  }

  lemma {:induction false} RisingFront(es: seq<Stamp>, k: nat, c: int)
    requires k <= |es| && Rising(es, c)
    ensures Rising(es[..k], c)
  {
    if k < |es| {
      assert es[..|es| - 1][..k] == es[..k];
      RisingFront(es[..|es| - 1], k, c);
    } else {
      assert es[..k] == es;
    }
  }

  /** `false` where the check would fail the test. */
  method CheckAppends(es: seq<Stamp>, nclnt: nat, rs: seq<Tally>, ver: nat) returns (ok: bool)
    requires nclnt <= |rs|
    ensures ok <==> AppendsOk(es, rs, ver)
  {
    var due: map<int, int> := map[];
    var skipped: map<int, int> := map[];
    for i := 0 to nclnt
      invariant (forall c <- due :: due[c] == 0) && forall c <- skipped :: skipped[c] == 0
      invariant forall c :: c in due <==> 0 <= c < i
    {
      due, skipped := due[i := 0], skipped[i := 0];
    }
    TrackedStart(due, skipped);
    for k := 0 to |es|
      invariant Tracked(es[..k], due, skipped)
      invariant forall c :: c in due <==> 0 <= c < nclnt || exists i :: 0 <= i < k && es[i].client == c
    {
      var e := es[k];
      assert es[..k + 1] == es[..k] + [e];
      TrackedNext(es[..k], e, due, skipped);
      if At(due, e.client) > e.n {
        if Rising(es, e.client) {
          RisingFront(es, k + 1, e.client);
        }
        return false;
      } else if At(due, e.client) == e.n {
        due := due[e.client := At(due, e.client) + 1];
      } else {
        skipped := skipped[e.client := At(skipped, e.client) + (e.n - At(due, e.client))];
        due := due[e.client := e.n + 1];
      }
    }
    assert es[..|es|] == es;
    if |es| + 1 != ver {
      return false;
    }
    ok := CheckTallies(es, nclnt, rs, due, skipped);
  }

  ghost predicate TallyOk(es: seq<Stamp>, rs: seq<Tally>, c: int) {
    && 0 <= c < |rs|
    && Expected(es, c) - CountOf(es, c) <= rs[c].nmaybe
    && Expected(es, c) <= rs[c].nok + rs[c].nmaybe
  }

  /** The last loop of the check, over the clients that are expected; it fails for a client without a tally. */
  method CheckTallies(es: seq<Stamp>, nclnt: nat, rs: seq<Tally>, due: map<int, int>, skipped: map<int, int>)
      returns (ok: bool)
    requires nclnt <= |rs| && Tracked(es, due, skipped) && Expects(es, nclnt, due)
    ensures ok <==> AppendsOk(es, rs, |es| + 1)
  {
    var todo := due.Keys;
    while todo != {}
      invariant todo <= due.Keys
      invariant forall c :: c in due.Keys - todo ==> TallyOk(es, rs, c)
      decreases |todo|
    {
      Inhabited(todo);
      var c :| c in todo;
      assert TrackedFor(es, due, skipped, c);
      if !(0 <= c < |rs|) || At(skipped, c) > rs[c].nmaybe || due[c] > rs[c].nok + rs[c].nmaybe {
        if AppendsOk(es, rs, |es| + 1) {
          TallyNeeded(es, nclnt, rs, due, c);
        }
        return false;
      }
      todo := todo - {c};
    }
    TalliesSuffice(es, nclnt, rs, due, skipped);
    return true;
  }

  /** The clients that the check expects: those it was told of, and those that occur. */
  ghost predicate Expects(es: seq<Stamp>, nclnt: nat, due: map<int, int>) {
    forall c: int :: c in due <==> 0 <= c < nclnt || exists i :: 0 <= i < |es| && es[i].client == c
  }

  /** Clients that do not occur have nothing to check. */
  lemma TalliesSuffice(es: seq<Stamp>, nclnt: nat, rs: seq<Tally>, due: map<int, int>, skipped: map<int, int>)
    requires nclnt <= |rs| && Tracked(es, due, skipped) && Expects(es, nclnt, due)
    requires forall c :: c in due ==> TallyOk(es, rs, c)
    ensures AppendsOk(es, rs, |es| + 1)
  {
    forall i | 0 <= i < |es| ensures 0 <= es[i].client < |rs| {
      var c := es[i].client;
      assert c in due;
    }
    forall c | 0 <= c < |rs| ensures Rising(es, c) && TallyOk(es, rs, c) {
      assert TrackedFor(es, due, skipped, c);
      if c in due {
        assert TallyOk(es, rs, c);
      } else {
        ExpectedNat(es, c);
      }
    }
  }

  lemma TallyNeeded(es: seq<Stamp>, nclnt: nat, rs: seq<Tally>, due: map<int, int>, c: int)
    requires nclnt <= |rs| && Expects(es, nclnt, due) && c in due && AppendsOk(es, rs, |es| + 1)
    ensures TallyOk(es, rs, c)
  {
    if !(0 <= c < nclnt) {
      var i :| 0 <= i < |es| && es[i].client == c;
    }
  }
}
