/** The clerk's retry loops as events: whatever a call of KvClerk comes to, with any pattern of loss and any puts of
    others in between, is what it comes to in a run of KvLinear, so that what holds of all runs holds of it. */
module KvLoops {
  import opened KvServer
  import opened KvClerk
  import opened KvLinear
  import opened Traces

  lemma Extended(r: Run, e: Event) returns (q: Run)
    requires IsRun(r) && Enabled(Last(r.states), e)
    ensures IsRun(q) && q.states == r.states + [Next(Last(r.states), e)]
    ensures Last(q.states) == Next(Last(r.states), e)
  {
    var next := Next(Last(r.states), e);
    LinkedOn(r.states, r.events, (s, e, t) => Enabled(s, e) && t == Next(s, e), e, next);
    q := Run(r.states + [next], r.events + [e]);
  }

  /** There is always another clerk. */
  lemma FreeClerk(taken: set<nat>) returns (c: nat)
    ensures forall x <- taken :: x < c
  {
    c := 0;
    if x :| x in taken {
      var rest := FreeClerk(taken - {x});
      c := if rest <= x then x + 1 else rest;
      assert taken == (taken - {x}) + {x};
    }
  }

  /** q goes on where r ends: nobody else is busy with anything else, and what was called before is as it was. */
  ghost predicate GoesOnFrom(r: Run, q: Run) {
    && IsRun(r) && IsRun(q) && r.states <= q.states
    && Last(r.states).ops <= Last(q.states).ops
    && Last(q.states).busy == Last(r.states).busy
  }

  /** One put of another clerk, over a network that loses nothing. */
  lemma OtherPut(r: Run, a: PutArgs) returns (q: Run)
    requires IsRun(r)
    ensures GoesOnFrom(r, q) && Last(q.states).data == ServerPut(Last(r.states).data, a).0
  {
    var s := Last(r.states);
    var c := FreeClerk(s.busy.Keys);
    q := Extended(r, Invoke(c, PutCall(a)));
    var t := Last(q.states);
    q := Extended(q, Replied(c));
    assert Last(q.states).busy == s.busy;
    assert s.ops == t.ops[..|s.ops|] == Last(q.states).ops[..|s.ops|];
  }

  lemma {:induction false} OtherPuts(r: Run, puts: seq<PutArgs>) returns (q: Run)
    requires IsRun(r)
    ensures GoesOnFrom(r, q) && Last(q.states).data == AllPut(Last(r.states).data, puts)
    decreases |puts|
  {
    if puts == [] {
      q := r;
    } else {
      var p := OtherPut(r, puts[0]);
      q := OtherPuts(p, puts[1..]);
    }
  }

  /** The clerk c is in its loop, for the operation id. */
  ghost predicate Trying(s: System, c: nat, id: nat, call: Call, first: bool) {
    c in s.busy && s.busy[c] == Busy(id, first) && id < |s.ops| && s.ops[id].call == call && s.ops[id].answer == None
  }

  /** Where the loop has led. */
  ghost predicate Led(s: System, t: System, c: nat, id: nat, call: Call, data: Store, answer: Option<Answer>) {
    && t.data == data && id < |t.ops| && t.ops[id].call == call && t.ops[id].answer == answer
    && t.busy - {c} == s.busy - {c}
    && (answer == None ==> c in t.busy && t.busy[c].op == id)
    && (answer != None ==> c !in t.busy)
  }

  function AnswerOf(answer: Option<Err>): Option<Answer> {
    match answer case None => None case Some(err) => Some(Done(err))
  }

  function ReplyOf(answer: Option<GetReply>): Option<Answer> {
    match answer case None => None case Some(reply) => Some(Got(reply))
  }

  function EventOf(c: nat, fate: Fate): Event {
    match fate case Dropped => RequestDropped(c) case Lost => ReplyLost(c) case Delivered => Replied(c)
  }

  /** One attempt: the puts of others, then the event for its fate. */
  lemma OneAttempt(r: Run, c: nat, id: nat, call: Call, first: bool, attempt: Attempt) returns (q: Run)
    requires IsRun(r) && Trying(Last(r.states), c, id, call, first)
    ensures IsRun(q) && r.states <= q.states
    ensures var now := AllPut(Last(r.states).data, attempt.others);
            var (next, reply) := Executed(now, call);
            var t := Last(q.states);
            if attempt.fate.Delivered? then Led(Last(r.states), t, c, id, call, next, Some(Returned(first, reply)))
            else
              && Trying(t, c, id, call, false) && t.busy - {c} == Last(r.states).busy - {c}
              && t.data == if attempt.fate.Dropped? then now else next
  {
    var p := OtherPuts(r, attempt.others);
    assert Trying(Last(p.states), c, id, call, first);
    q := Extended(p, EventOf(c, attempt.fate));
  }

  lemma {:induction false} PutLoop(r: Run, c: nat, id: nat, a: PutArgs, attempts: seq<Attempt>, first: bool)
    returns (q: Run)
    requires IsRun(r) && Trying(Last(r.states), c, id, PutCall(a), first)
    ensures IsRun(q) && r.states <= q.states
    ensures var o := Retry(Last(r.states).data, a, attempts, first);
            Led(Last(r.states), Last(q.states), c, id, PutCall(a), o.data, AnswerOf(o.answer))
    decreases |attempts|
  {
    if attempts == [] {
      q := r;
    } else {
      q := OneAttempt(r, c, id, PutCall(a), first, attempts[0]);
      if !attempts[0].fate.Delivered? {
        q := PutLoop(q, c, id, a, attempts[1..], false);
      }
    }
  }

  lemma {:induction false} GetLoop(r: Run, c: nat, id: nat, key: string, attempts: seq<Attempt>, first: bool)
    returns (q: Run)
    requires IsRun(r) && Trying(Last(r.states), c, id, GetCall(key), first)
    ensures IsRun(q) && r.states <= q.states
    ensures var (data, answer) := RetryGet(Last(r.states).data, key, attempts);
            Led(Last(r.states), Last(q.states), c, id, GetCall(key), data, ReplyOf(answer))
    decreases |attempts|
  {
    if attempts == [] {
      q := r;
    } else {
      q := OneAttempt(r, c, id, GetCall(key), first, attempts[0]);
      if !attempts[0].fate.Delivered? {
        q := GetLoop(q, c, id, key, attempts[1..], false);
      }
    }
  }

  /** Whenever a clerk that is not busy calls Put, and whatever happens to its attempts: there is a run that goes on
      with this call and in which it comes to the same answer and the same data. */
  lemma PutIsInRun(r: Run, c: nat, a: PutArgs, attempts: seq<Attempt>) returns (q: Run, id: nat)
    requires IsRun(r) && c !in Last(r.states).busy
    ensures IsRun(q) && r.states <= q.states && id == |Last(r.states).ops|
    ensures var o := Retry(Last(r.states).data, a, attempts, true);
            Led(Last(r.states), Last(q.states), c, id, PutCall(a), o.data, AnswerOf(o.answer))
  {
    id := |Last(r.states).ops|;
    var p := Extended(r, Invoke(c, PutCall(a)));
    q := PutLoop(p, c, id, a, attempts, true);
    assert Last(p.states).busy - {c} == Last(r.states).busy - {c};
  }

  /** The same for Get. */
  lemma GetIsInRun(r: Run, c: nat, key: string, attempts: seq<Attempt>) returns (q: Run, id: nat)
    requires IsRun(r) && c !in Last(r.states).busy
    ensures IsRun(q) && r.states <= q.states && id == |Last(r.states).ops|
    ensures var (data, answer) := RetryGet(Last(r.states).data, key, attempts);
            Led(Last(r.states), Last(q.states), c, id, GetCall(key), data, ReplyOf(answer))
  {
    id := |Last(r.states).ops|;
    var p := Extended(r, Invoke(c, GetCall(key)));
    q := GetLoop(p, c, id, key, attempts, true);
    assert Last(p.states).busy - {c} == Last(r.states).busy - {c};
  }
}
