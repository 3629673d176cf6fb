/** The retrying clerk over a network that may drop a request before it is executed or lose the reply after;
    what each of its answers tells about what was executed. */
module KvClerk {
  import opened KvServer

  datatype Option<T> = None | Some(value: T)

  datatype Fate = Dropped | Lost | Delivered

  /** One round of the retry loop: the puts of other clerks that reach the server first, and what becomes of
      our own request. */
  datatype Attempt = Attempt(others: seq<PutArgs>, fate: Fate)

  function AllPut(data: Store, puts: seq<PutArgs>): Store
    decreases |puts|
  {
    if puts == [] then data else AllPut(ServerPut(data, puts[0]).0, puts[1..])
  }

  /** The clerk's answer to a reply that reached it. */
  function Conclude(first: bool, reply: Err): Err {
    if reply == ErrVersion && !first then ErrMaybe else reply
  }

  /** What came of a Put: the data, the answer unless the clerk is still trying, and how many of its requests
      were executed successfully. */
  datatype Outcome = Outcome(data: Store, answer: Option<Err>, wins: nat)

  function Retry(data: Store, a: PutArgs, attempts: seq<Attempt>, first: bool): Outcome
    decreases |attempts|
  {
    if attempts == [] then Outcome(data, None, 0)
    else
      var now := AllPut(data, attempts[0].others);
      var (next, reply) := ServerPut(now, a);
      var win := if reply == OK then 1 else 0;
      match attempts[0].fate
      case Dropped => Retry(now, a, attempts[1..], false)
      case Lost =>
        var rest := Retry(next, a, attempts[1..], false);
        rest.(wins := win + rest.wins)
      case Delivered => Outcome(next, Some(Conclude(first, reply)), win)
  }

  function RetryGet(data: Store, key: string, attempts: seq<Attempt>): (Store, Option<GetReply>)
    decreases |attempts|
  {
    if attempts == [] then (data, None)
    else
      var now := AllPut(data, attempts[0].others);
      if attempts[0].fate == Delivered then (now, Some(ServerGet(now, key))) else RetryGet(now, key, attempts[1..])
  }

  class Clerk {
    const server: KVServer

    constructor (server: KVServer)
      ensures this.server == server
    {
      this.server := server;
    }

    method OthersPut(puts: seq<PutArgs>)
      requires server.Valid()
      modifies server, server.data.Values
      ensures server.Valid() && fresh(server.data.Values - old(server.data.Values))
      ensures server.Contents() == AllPut(old(server.Contents()), puts)
    {
      for i := 0 to |puts|
        invariant server.Valid() && fresh(server.data.Values - old(server.data.Values))
        invariant AllPut(server.Contents(), puts[i..]) == AllPut(old(server.Contents()), puts)
      {
        assert puts[i..][1..] == puts[i + 1..];
        var _ := server.Put(puts[i]);
      }
    }

    /** One remote call: whether a reply came back, and which. */
    method CallPut(args: PutArgs, attempt: Attempt) returns (ok: bool, reply: Err)
      requires server.Valid()
      modifies server, server.data.Values
      ensures server.Valid() && fresh(server.data.Values - old(server.data.Values))
      ensures ok <==> attempt.fate == Delivered
      ensures var now := AllPut(old(server.Contents()), attempt.others);
              && server.Contents() == (if attempt.fate == Dropped then now else ServerPut(now, args).0)
              && (ok ==> reply == ServerPut(now, args).1)
    {
      OthersPut(attempt.others);
      ok, reply := false, OK;
      if attempt.fate != Dropped {
        reply := server.Put(args);
        ok := attempt.fate == Delivered;
      }
    }

    method Put(key: string, value: string, version: nat, attempts: seq<Attempt>) returns (answer: Option<Err>)
      requires server.Valid()
      modifies server, server.data.Values
      ensures server.Valid()
      ensures var r := Retry(old(server.Contents()), PutArgs(key, value, version), attempts, true);
              server.Contents() == r.data && answer == r.answer
    {
      var args := PutArgs(key, value, version);
      var first := true;
      var i := 0;
      while i < |attempts|
        invariant i <= |attempts|
        invariant server.Valid() && fresh(server.data.Values - old(server.data.Values))
        invariant var r := Retry(old(server.Contents()), args, attempts, true);
                  var rest := Retry(server.Contents(), args, attempts[i..], first);
                  r.data == rest.data && r.answer == rest.answer
      {
        assert attempts[i..][1..] == attempts[i + 1..];
        var ok, reply := CallPut(args, attempts[i]);
        if ok {
          if reply == ErrVersion {
            if first {
              return Some(ErrVersion);
            } else {
              return Some(ErrMaybe);
            }
          }
          return Some(reply);
        }
        first := false;
        i := i + 1;
      }
      answer := None;
    }

    method Get(key: string, attempts: seq<Attempt>) returns (answer: Option<GetReply>)
      requires server.Valid()
      modifies server, server.data.Values
      ensures server.Valid()
      ensures (server.Contents(), answer) == RetryGet(old(server.Contents()), key, attempts)
    {
      var i := 0;
      while i < |attempts|
        invariant i <= |attempts|
        invariant server.Valid() && fresh(server.data.Values - old(server.data.Values))
        invariant RetryGet(server.Contents(), key, attempts[i..]) == RetryGet(old(server.Contents()), key, attempts)
      {
        assert attempts[i..][1..] == attempts[i + 1..];
        OthersPut(attempts[i].others);
        if attempts[i].fate != Dropped {
          var reply := server.Get(key);
          if attempts[i].fate == Delivered {
            return Some(reply);
          }
        }
        i := i + 1;
      }
      answer := None;
    }
  }

  // ----- what a call comes to

  /** Attempt i is the first whose reply comes back. */
  ghost predicate Answered(attempts: seq<Attempt>, i: nat) {
    && i < |attempts| && attempts[i].fate.Delivered?
    && forall j :: 0 <= j < i ==> !attempts[j].fate.Delivered?
  }

  ghost predicate Unanswered(attempts: seq<Attempt>) {
    forall i :: 0 <= i < |attempts| ==> !attempts[i].fate.Delivered?
  }

  /** The puts that reach the server during the first n attempts, each of which brings `own` unless it is dropped. */
  function Reaching(attempts: seq<Attempt>, own: seq<PutArgs>, n: nat): seq<PutArgs>
    requires n <= |attempts|
  {
    if n == 0 then []
    else
      Reaching(attempts, own, n - 1) + attempts[n - 1].others + if attempts[n - 1].fate == Dropped then [] else own
  }

  /** What attempt i finds when it reaches the server. */
  function Found(data: Store, attempts: seq<Attempt>, own: seq<PutArgs>, i: nat): Store
    requires i < |attempts|
  {
    AllPut(data, Reaching(attempts, own, i) + attempts[i].others)
  }

  /** Attempt i is executed and names the version that it finds. */
  predicate Succeeds(data: Store, a: PutArgs, attempts: seq<Attempt>, i: nat)
    requires i < |attempts|
  {
    attempts[i].fate != Dropped && a.version == Version(Found(data, attempts, [a], i), a.key)
  }

  function Successes(data: Store, a: PutArgs, attempts: seq<Attempt>, n: nat): nat
    requires n <= |attempts|
  {
    if n == 0 then 0
    else Successes(data, a, attempts, n - 1) + if Succeeds(data, a, attempts, n - 1) then 1 else 0
  }

  lemma {:induction false} AllPutConcat(data: Store, a: seq<PutArgs>, b: seq<PutArgs>)
    ensures AllPut(data, a + b) == AllPut(AllPut(data, a), b)
    decreases |a|
  {
    if a == [] {
      assert a + b == b;
    } else {
      assert (a + b)[1..] == a[1..] + b;
      AllPutConcat(ServerPut(data, a[0]).0, a[1..], b);
    }
  }

  /** The puts that reach the server because of one attempt. */
  function OfAttempt(attempt: Attempt, own: seq<PutArgs>): seq<PutArgs> {
    attempt.others + if attempt.fate == Dropped then [] else own
  }

  lemma {:induction false} ReachingFirst(attempts: seq<Attempt>, own: seq<PutArgs>, n: nat)
    requires 1 <= n <= |attempts|
    ensures Reaching(attempts, own, n) == OfAttempt(attempts[0], own) + Reaching(attempts[1..], own, n - 1)
  {
    if n > 1 {
      ReachingFirst(attempts, own, n - 1);
      assert attempts[n - 1] == attempts[1..][n - 2];
    }
  }

  /** After the first attempt, the rest is as if it began there. */
  lemma FoundLater(data: Store, attempts: seq<Attempt>, own: seq<PutArgs>, i: nat)
    requires 1 <= i < |attempts|
    ensures Found(data, attempts, own, i) ==
            Found(AllPut(data, OfAttempt(attempts[0], own)), attempts[1..], own, i - 1)
  {
    var first, rest := OfAttempt(attempts[0], own), Reaching(attempts[1..], own, i - 1) + attempts[i].others;
    ReachingFirst(attempts, own, i);
    assert Reaching(attempts, own, i) + attempts[i].others == first + rest;
    AllPutConcat(data, first, rest);
  }

  lemma {:induction false} SuccessesLater(data: Store, a: PutArgs, attempts: seq<Attempt>, n: nat, next: Store)
    requires 1 <= n <= |attempts| && next == AllPut(data, OfAttempt(attempts[0], [a]))
    ensures Successes(data, a, attempts, n) ==
            (if Succeeds(data, a, attempts, 0) then 1 else 0) + Successes(next, a, attempts[1..], n - 1)
  {
    if n > 1 {
      SuccessesLater(data, a, attempts, n - 1, next);
      SucceedsLater(data, a, attempts, n - 1, next);
    } else {
      assert Successes(data, a, attempts, 0) == 0;
    }
  }

  lemma SucceedsLater(data: Store, a: PutArgs, attempts: seq<Attempt>, i: nat, next: Store)
    requires 1 <= i < |attempts| && next == AllPut(data, OfAttempt(attempts[0], [a]))
    ensures Succeeds(data, a, attempts, i) <==> Succeeds(next, a, attempts[1..], i - 1)
  {
    FoundLater(data, attempts, [a], i);
  }

  lemma PutLast(data: Store, puts: seq<PutArgs>, a: PutArgs)
    ensures AllPut(data, puts + [a]) == ServerPut(AllPut(data, puts), a).0
  {
    AllPutConcat(data, puts, [a]);
    assert [a][1..] == [];
  }

  /** A Get answers exactly if the reply of some attempt comes back, with what the first such attempt finds of the key;
      the data is what the other clerks' puts make of it. */
  lemma {:induction false} GetAnswers(data: Store, key: string, attempts: seq<Attempt>)
    ensures var (now, answer) := RetryGet(data, key, attempts);
            && (answer == None <==> Unanswered(attempts))
            && (Unanswered(attempts) ==> now == AllPut(data, Reaching(attempts, [], |attempts|)))
            && forall i: nat :: Answered(attempts, i) ==>
                 now == Found(data, attempts, [], i) && answer == Some(ServerGet(now, key))
    decreases |attempts|
  {
    if attempts != [] {
      var rest, next := attempts[1..], AllPut(data, attempts[0].others);
      assert OfAttempt(attempts[0], []) == attempts[0].others == [] + attempts[0].others;
      if attempts[0].fate != Delivered {
        GetAnswers(next, key, rest);
        assert forall i :: 0 <= i < |rest| ==> rest[i] == attempts[i + 1];
        ReachingFirst(attempts, [], |attempts|);
        AllPutConcat(data, attempts[0].others, Reaching(rest, [], |rest|));
        assert Unanswered(attempts) <==> Unanswered(rest);
        forall i: nat | Answered(attempts, i)
          ensures Answered(rest, i - 1) && Found(data, attempts, [], i) == Found(next, rest, [], i - 1)
        {
          FoundLater(data, attempts, [], i);
        }
      }
    }
  }

  /** What becomes of the data in the first attempt. */
  lemma FirstAttempt(data: Store, a: PutArgs, attempts: seq<Attempt>)
    requires attempts != []
    ensures Found(data, attempts, [a], 0) == AllPut(data, attempts[0].others)
    ensures AllPut(data, OfAttempt(attempts[0], [a])) ==
            if attempts[0].fate == Dropped then AllPut(data, attempts[0].others)
            else ServerPut(AllPut(data, attempts[0].others), a).0
  {
    assert [] + attempts[0].others == attempts[0].others == attempts[0].others + [];
    PutLast(data, attempts[0].others, a);
  }

  /** The outcome if attempt i is the first whose reply comes back: what the server says to it, but ErrMaybe instead of
      ErrVersion if an attempt went before. */
  ghost predicate EndsAt(data: Store, a: PutArgs, attempts: seq<Attempt>, first: bool, r: Outcome, i: nat)
    requires i < |attempts|
  {
    var (next, reply) := ServerPut(Found(data, attempts, [a], i), a);
    && r.data == next && r.wins == Successes(data, a, attempts, i + 1)
    && r.answer == Some(if reply == ErrVersion && !(first && i == 0) then ErrMaybe else reply)
  }

  /** A Put answers exactly if the reply of some attempt comes back, with what the server says to the first such
      attempt; but if that is ErrVersion and an attempt went before, the answer is ErrMaybe.  The data is what the puts
      of the other clerks and its own attempts up to then make of it, but for those that were dropped. */
  lemma {:induction false} PutAnswers(data: Store, a: PutArgs, attempts: seq<Attempt>, first: bool)
    requires Stored(data)
    ensures var r := Retry(data, a, attempts, first);
            && (r.answer == None <==> Unanswered(attempts))
            && (Unanswered(attempts) ==>
                  && r.data == AllPut(data, Reaching(attempts, [a], |attempts|))
                  && r.wins == Successes(data, a, attempts, |attempts|))
            && forall i: nat :: Answered(attempts, i) ==> EndsAt(data, a, attempts, first, r, i)
    decreases |attempts|
  {
    if attempts == [] {
    } else if attempts[0].fate.Delivered? {
      EndsNow(data, a, attempts, first);
    } else {
      var rest, next := attempts[1..], AllPut(data, OfAttempt(attempts[0], [a]));
      GoesOn(data, a, attempts, first, next);
      PutAnswers(next, a, rest, false);
      PutLater(data, a, attempts, next);
      forall i: nat | Answered(attempts, i)
        ensures EndsAt(data, a, attempts, first, Retry(data, a, attempts, first), i)
      {
        assert Answered(rest, i - 1);
        EndsLater(data, a, attempts, first, next, Retry(next, a, rest, false), i);
      }
    }
  }

  lemma EndsNow(data: Store, a: PutArgs, attempts: seq<Attempt>, first: bool)
    requires Stored(data) && attempts != [] && attempts[0].fate.Delivered?
    ensures EndsAt(data, a, attempts, first, Retry(data, a, attempts, first), 0)
  {
    FirstAttempt(data, a, attempts);
    VersionsGrow(data, attempts[0].others, a.key);
    PutMeaning(AllPut(data, attempts[0].others), a);
    assert Successes(data, a, attempts, 0) == 0;
  }

  lemma GoesOn(data: Store, a: PutArgs, attempts: seq<Attempt>, first: bool, next: Store)
    requires Stored(data) && attempts != [] && !attempts[0].fate.Delivered?
    requires next == AllPut(data, OfAttempt(attempts[0], [a]))
    ensures Stored(next)
    ensures var later := Retry(next, a, attempts[1..], false);
            Retry(data, a, attempts, first) ==
              later.(wins := later.wins + if Succeeds(data, a, attempts, 0) then 1 else 0)
  {
    FirstAttempt(data, a, attempts);
    VersionsGrow(data, attempts[0].others, a.key);
    PutMeaning(AllPut(data, attempts[0].others), a);
  }

  lemma EndsLater(data: Store, a: PutArgs, attempts: seq<Attempt>, first: bool, next: Store, later: Outcome, i: nat)
    requires 1 <= i < |attempts| && next == AllPut(data, OfAttempt(attempts[0], [a]))
    requires EndsAt(next, a, attempts[1..], false, later, i - 1)
    ensures EndsAt(data, a, attempts, first,
                   later.(wins := later.wins + if Succeeds(data, a, attempts, 0) then 1 else 0), i)
  {
    FoundLater(data, attempts, [a], i);
    SuccessesLater(data, a, attempts, i + 1, next);
  }

  lemma PutLater(data: Store, a: PutArgs, attempts: seq<Attempt>, next: Store)
    requires attempts != [] && !attempts[0].fate.Delivered? && next == AllPut(data, OfAttempt(attempts[0], [a]))
    ensures Unanswered(attempts) <==> Unanswered(attempts[1..])
    ensures AllPut(data, Reaching(attempts, [a], |attempts|)) ==
            AllPut(next, Reaching(attempts[1..], [a], |attempts| - 1))
    ensures Successes(data, a, attempts, |attempts|) ==
            (if Succeeds(data, a, attempts, 0) then 1 else 0) + Successes(next, a, attempts[1..], |attempts| - 1)
  {
    assert forall i :: 0 <= i < |attempts[1..]| ==> attempts[1..][i] == attempts[i + 1];
    ReachingFirst(attempts, [a], |attempts|);
    AllPutConcat(data, OfAttempt(attempts[0], [a]), Reaching(attempts[1..], [a], |attempts| - 1));
    SuccessesLater(data, a, attempts, |attempts|, next);
  }

  // ----- versions only grow

  lemma {:induction false} VersionsGrow(data: Store, puts: seq<PutArgs>, key: string)
    requires Stored(data)
    ensures Stored(AllPut(data, puts)) && Version(data, key) <= Version(AllPut(data, puts), key)
    decreases |puts|
  {
    if puts != [] {
      PutMeaning(data, puts[0]);
      VersionsGrow(ServerPut(data, puts[0]).0, puts[1..], key);
    }
  }

  /** Once the version is past the one named, nothing is executed successfully and only ErrVersion comes back. */
  lemma {:induction false} TooLate(data: Store, a: PutArgs, attempts: seq<Attempt>)
    requires Stored(data) && a.version < Version(data, a.key)
    ensures var r := Retry(data, a, attempts, false);
            r.wins == 0 && (r.answer == None || r.answer == Some(ErrMaybe))
    decreases |attempts|
  {
    if attempts != [] {
      VersionsGrow(data, attempts[0].others, a.key);
      var now := AllPut(data, attempts[0].others);
      PutMeaning(now, a);
      if attempts[0].fate != Delivered {
        TooLate(now, a, attempts[1..]);
      }
    }
  }

  ghost predicate Honest(answer: Option<Err>, wins: nat) {
    && wins <= 1
    && (answer == Some(OK) ==> wins == 1)
    && (answer == Some(ErrVersion) || answer == Some(ErrNoKey) ==> wins == 0)
  }

  /** Whatever the network loses and whatever the other clerks do: a Put is executed successfully at most
      once; exactly once if the answer is OK; never if it is ErrVersion or ErrNoKey. */
  lemma {:induction false} AtMostOnce(data: Store, a: PutArgs, attempts: seq<Attempt>, first: bool)
    requires Stored(data)
    ensures var r := Retry(data, a, attempts, first); Honest(r.answer, r.wins)
    decreases |attempts|
  {
    if attempts != [] {
      VersionsGrow(data, attempts[0].others, a.key);
      var now := AllPut(data, attempts[0].others);
      PutMeaning(now, a);
      match attempts[0].fate {
        case Dropped => AtMostOnce(now, a, attempts[1..], false);
        case Lost =>
          if ServerPut(now, a).1 == OK {
            TooLate(ServerPut(now, a).0, a, attempts[1..]);
          } else {
            AtMostOnce(now, a, attempts[1..], false);
          }
        case Delivered =>
      }
    }
  }

  /** ErrMaybe says neither: it comes back whether or not the put was executed. */
  lemma MaybeMeansMaybe()
    ensures var a := PutArgs("k", "mine", 0);
            var done := Retry(map[], a, [Attempt([], Lost), Attempt([], Delivered)], true);
            var undone :=
              Retry(map[], a, [Attempt([], Dropped), Attempt([PutArgs("k", "theirs", 0)], Delivered)], true);
            && done.answer == undone.answer == Some(ErrMaybe)
            && done.wins == 1 && undone.wins == 0
  {
    var a, b := PutArgs("k", "mine", 0), PutArgs("k", "theirs", 0);
    var last := [Attempt([], Delivered)];
    var others := [Attempt([b], Delivered)];
    assert [Attempt([], Lost), Attempt([], Delivered)][1..] == last && last[1..] == [];
    assert [Attempt([], Dropped), Attempt([b], Delivered)][1..] == others;
    assert Retry(map["k" := Entry("mine", 1)], a, last, false) ==
        Outcome(map["k" := Entry("mine", 1)], Some(ErrMaybe), 0);
    assert [b][1..] == [];
    assert AllPut(map[], [b]) == AllPut(map["k" := Entry("theirs", 1)], []);
    assert Retry(map[], a, others, false).answer == Some(ErrMaybe);
  }
}
