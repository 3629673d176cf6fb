/** Any number of clerks and one server over a lossy network, as a step system: every history of calls is
    linearizable in the order in which the server decided them, unless a put was answered ErrNoKey; and
    the answers count the successful puts. */
module KvLinear {
  import opened KvServer
  import opened KvClerk
  import opened KvModel
  import opened Sets

  datatype Call = GetCall(key: string) | PutCall(args: PutArgs)
  datatype Answer = Got(reply: GetReply) | Done(err: Err)

  /** One call of a clerk: when it was made, and when it returned with what. */
  datatype Operation = Operation(client: nat, call: Call, invoked: nat, answer: Option<Answer>, returned: nat)

  /** The execution that settles an operation: the successful one of a put if there is one, otherwise the one
      whose reply came back. */
  datatype Decision = Decision(op: nat, at: nat, won: bool)

  datatype Busy = Busy(op: nat, first: bool)

  datatype System = System(data: Store, busy: map<nat, Busy>, clock: nat, ops: seq<Operation>, decided: seq<Decision>)

  datatype Event =
    | Invoke(client: nat, call: Call)
    | RequestDropped(client: nat)
    | ReplyLost(client: nat)
    | Replied(client: nat)

  const START: System := System(map[], map[], 0, [], [])

  ghost predicate Enabled(s: System, e: Event) {
    match e
    case Invoke(c, _) => c !in s.busy
    case _ => e.client in s.busy && s.busy[e.client].op < |s.ops|
  }

  function KeyOf(call: Call): string {
    match call case GetCall(key) => key case PutCall(a) => a.key
  }

  /** One execution of the handler. */
  function Executed(data: Store, call: Call): (Store, Answer) {
    match call
    case GetCall(key) => (data, Got(ServerGet(data, key)))
    case PutCall(a) => var (next, err) := ServerPut(data, a); (next, Done(err))
  }

  /** What the clerk returns when this reply reaches it. */
  function Returned(first: bool, reply: Answer): Answer {
    match reply case Got(_) => reply case Done(err) => Done(Conclude(first, err))
  }

  predicate Wins(data: Store, call: Call) {
    call.PutCall? && ServerPut(data, call.args).1 == OK
  }

  ghost predicate IsDecided(s: System, id: nat) {
    exists k :: 0 <= k < |s.decided| && s.decided[k].op == id
  }

  ghost function Next(s: System, e: Event): System
    requires Enabled(s, e)
  {
    var t := s.(clock := s.clock + 1);
    match e
    case Invoke(c, call) =>
      t.(ops := s.ops + [Operation(c, call, s.clock, None, 0)], busy := s.busy[c := Busy(|s.ops|, true)])
    case RequestDropped(c) => t.(busy := s.busy[c := s.busy[c].(first := false)])
    case ReplyLost(c) =>
      var id := s.busy[c].op;
      var call := s.ops[id].call;
      t.(data := Executed(s.data, call).0, busy := s.busy[c := Busy(id, false)],
         decided := s.decided + if Wins(s.data, call) then [Decision(id, s.clock, true)] else [])
    case Replied(c) =>
      var Busy(id, first) := s.busy[c];
      var (next, reply) := Executed(s.data, s.ops[id].call);
      var op := s.ops[id].(answer := Some(Returned(first, reply)), returned := s.clock);
      var won := Wins(s.data, s.ops[id].call);
      t.(data := next, busy := s.busy - {c}, ops := s.ops[id := op],
         decided := s.decided + if won || !IsDecided(s, id) then [Decision(id, s.clock, won)] else [])
  }

  datatype Run = Run(states: seq<System>, events: seq<Event>)

  ghost predicate IsRun(r: Run) {
    && |r.states| == |r.events| + 1 && r.states[0] == START
    && forall i :: 0 <= i < |r.events| ==>
           Enabled(r.states[i], r.events[i]) && r.states[i + 1] == Next(r.states[i], r.events[i])
  }

  // ----- histories

  function InputOf(call: Call): Input {
    match call case GetCall(key) => GetInput(key) case PutCall(a) => PutInput(a.key, a.value, a.version)
  }

  /** What the history says an operation returned.  A put that has not returned may be taken to have succeeded. */
  function OutputOf(op: Operation): Output {
    match op.answer
    case None => Output("", 0, OK)
    case Some(Got(r)) => Output(r.value, r.version, r.err)
    case Some(Done(err)) => Output("", 0, err)
  }

  ghost predicate InRange(order: seq<nat>, n: nat) {
    forall k :: 0 <= k < |order| ==> order[k] < n
  }

  /** The state of a key after the operations. */
  ghost function After(ops: seq<Operation>, order: seq<nat>, key: string, st: State): State
    requires InRange(order, |ops|)
  {
    if order == [] then st
    else
      var op := ops[order[0]];
      After(ops, order[1..], key, if KeyOf(op.call) == key then Step(st, InputOf(op.call), OutputOf(op)).1 else st)
  }

  /** The specification of one key accepts the operations on that key, in this order. */
  ghost predicate Accepts(ops: seq<Operation>, order: seq<nat>, key: string, st: State)
    requires InRange(order, |ops|)
  {
    order == [] ||
    var op := ops[order[0]];
    if KeyOf(op.call) == key then
      var (ok, next) := Step(st, InputOf(op.call), OutputOf(op));
      ok && Accepts(ops, order[1..], key, next)
    else Accepts(ops, order[1..], key, st)
  }

  ghost predicate Distinct(order: seq<nat>) {
    forall i, j :: 0 <= i < j < |order| ==> order[i] != order[j]
  }

  /** a had returned before b was called. */
  ghost predicate Precedes(a: Operation, b: Operation) {
    a.answer.Some? && a.returned < b.invoked
  }

  /** An order of the operations, with every one that has returned, that agrees with real time and that the
      specification accepts key by key. */
  ghost predicate Linearization(ops: seq<Operation>, order: seq<nat>) {
    && InRange(order, |ops|) && Distinct(order)
    && (forall id :: 0 <= id < |ops| && ops[id].answer.Some? ==> id in order)
    && (forall i, j :: 0 <= i < j < |order| ==> !Precedes(ops[order[j]], ops[order[i]]))
    && (forall key :: Accepts(ops, order, key, INIT))
  }

  function Order(decided: seq<Decision>): seq<nat> {
    seq(|decided|, k requires 0 <= k < |decided| => decided[k].op)
  }

  ghost predicate NoKeyAnswer(op: Operation) {
    op.answer == Some(Done(ErrNoKey))
  }

  /** No put was answered ErrNoKey. */
  ghost predicate NoKeyless(ops: seq<Operation>) {
    forall id :: 0 <= id < |ops| ==> !NoKeyAnswer(ops[id])
  }

  // ----- what every run keeps

  ghost predicate OpOk(s: System, id: nat)
    requires id < |s.ops|
  {
    var op := s.ops[id];
    && op.invoked < s.clock
    && match op.answer
       case None => op.client in s.busy && s.busy[op.client].op == id
       case Some(a) => op.invoked < op.returned < s.clock && (a.Got? <==> op.call.GetCall?) && IsDecided(s, id)
  }

  ghost predicate BusyOk(s: System, c: nat)
    requires c in s.busy
  {
    var id := s.busy[c].op;
    && id < |s.ops| && s.ops[id].client == c && s.ops[id].answer == None
    && (IsDecided(s, id) ==> !s.busy[c].first && s.ops[id].call.PutCall? &&
                             s.ops[id].call.args.version < Version(s.data, KeyOf(s.ops[id].call)))
  }

  ghost predicate DecisionOk(s: System, k: nat)
    requires k < |s.decided|
  {
    var d := s.decided[k];
    && d.op < |s.ops| && d.at < s.clock
    && var op := s.ops[d.op];
       && op.invoked < d.at
       && (op.answer.Some? ==> d.at <= op.returned)
       && (d.won ==> op.call.PutCall? && op.call.args.version < Version(s.data, op.call.args.key)
                     && (op.answer.Some? ==> op.answer == Some(Done(OK)) || op.answer == Some(Done(ErrMaybe))))
       && (!d.won ==> op.answer.Some? && op.answer != Some(Done(OK)))
  }

  ghost predicate InOrder(s: System) {
    && (forall j, k :: 0 <= j < k < |s.decided| ==>
           s.decided[j].at < s.decided[k].at && s.decided[j].op != s.decided[k].op)
    && forall j, k :: 0 <= j < k < |s.decided| && s.decided[j].won && s.decided[k].won
                      && s.decided[j].op < |s.ops| && s.decided[k].op < |s.ops|
                      && s.ops[s.decided[j].op].call.PutCall? && s.ops[s.decided[k].op].call.PutCall?
                      && s.ops[s.decided[j].op].call.args.key == s.ops[s.decided[k].op].call.args.key ==>
                        s.ops[s.decided[j].op].call.args.version < s.ops[s.decided[k].op].call.args.version
  }

  ghost predicate Replays(s: System) {
    && InRange(Order(s.decided), |s.ops|)
    && (forall key :: After(s.ops, Order(s.decided), key, INIT) == StateOf(s.data, key))
    && (NoKeyless(s.ops) ==> forall key :: Accepts(s.ops, Order(s.decided), key, INIT))
  }

  ghost predicate Ok(s: System) {
    && Stored(s.data)
    && (forall id :: 0 <= id < |s.ops| ==> OpOk(s, id))
    && (forall c <- s.busy :: BusyOk(s, c))
    && (forall k :: 0 <= k < |s.decided| ==> DecisionOk(s, k))
    && InOrder(s)
    && Replays(s)
  }

  // ----- replaying

  lemma {:induction false} AfterLast(ops: seq<Operation>, order: seq<nat>, id: nat, key: string, st: State)
    requires id < |ops| && InRange(order, |ops|)
    ensures InRange(order + [id], |ops|)
    ensures var st1, op := After(ops, order, key, st), ops[id];
            && After(ops, order + [id], key, st) ==
                 (if KeyOf(op.call) == key then Step(st1, InputOf(op.call), OutputOf(op)).1 else st1)
            && (Accepts(ops, order + [id], key, st) <==>
                  Accepts(ops, order, key, st) &&
                      (KeyOf(op.call) == key ==> Step(st1, InputOf(op.call), OutputOf(op)).0))
    decreases |order|
  {
    if order == [] {
      assert (order + [id])[1..] == [];
    } else {
      assert (order + [id])[1..] == order[1..] + [id];
      var op := ops[order[0]];
      var next := if KeyOf(op.call) == key then Step(st, InputOf(op.call), OutputOf(op)).1 else st;
      AfterLast(ops, order[1..], id, key, next);
    }
  }

  /** The output is the same, or has become the one that is always allowed. */
  ghost predicate Later(a: Operation, b: Operation) {
    a.call == b.call && (OutputOf(a) == OutputOf(b) || (b.call.PutCall? && OutputOf(b).err == ErrMaybe))
  }

  lemma {:induction false} AfterLater(ops: seq<Operation>, later: seq<Operation>, order: seq<nat>, key: string,
                                      st: State)
    requires |ops| <= |later| && InRange(order, |ops|)
    requires forall k :: 0 <= k < |order| ==> Later(ops[order[k]], later[order[k]])
    ensures After(later, order, key, st) == After(ops, order, key, st)
    ensures Accepts(ops, order, key, st) ==> Accepts(later, order, key, st)
    decreases |order|
  {
    if order != [] {
      var op := ops[order[0]];
      var next := if KeyOf(op.call) == key then Step(st, InputOf(op.call), OutputOf(op)).1 else st;
      AfterLater(ops, later, order[1..], key, next);
    }
  }

  lemma OrderLast(decided: seq<Decision>, d: Decision)
    ensures Order(decided + [d]) == Order(decided) + [d.op]
  {
  }

  lemma DecidedGrows(s: System, t: System, id: nat)
    requires |s.decided| <= |t.decided| && t.decided[..|s.decided|] == s.decided
    ensures IsDecided(s, id) ==> IsDecided(t, id)
  {
    if k :| 0 <= k < |s.decided| && s.decided[k].op == id {
      assert t.decided[k] == t.decided[..|s.decided|][k];
    }
  }

  // ----- each step

  lemma NotYetDecided(s: System)
    requires Ok(s)
    ensures !IsDecided(s, |s.ops|)
  {
    forall k | 0 <= k < |s.decided| ensures s.decided[k].op != |s.ops| { assert DecisionOk(s, k); }
  }

  lemma ReplaysLater(s: System, t: System)
    requires Ok(s) && t.decided == s.decided && t.data == s.data && |s.ops| <= |t.ops|
    requires forall id :: 0 <= id < |s.ops| ==>
               Later(s.ops[id], t.ops[id]) && (NoKeyAnswer(s.ops[id]) ==> NoKeyAnswer(t.ops[id]))
    ensures Replays(t)
  {
    forall key
      ensures After(t.ops, Order(t.decided), key, INIT) == StateOf(t.data, key)
      ensures NoKeyless(t.ops) ==> Accepts(t.ops, Order(t.decided), key, INIT)
    {
      AfterLater(s.ops, t.ops, Order(s.decided), key, INIT);
    }
  }

  lemma OrderKept(s: System, t: System)
    requires InOrder(s) && t.decided == s.decided && |s.ops| == |t.ops|
    requires forall id :: 0 <= id < |s.ops| ==> t.ops[id].call == s.ops[id].call
    ensures InOrder(t)
  {
  }

  lemma InvokeOk(s: System, c: nat, call: Call)
    requires Ok(s) && Enabled(s, Invoke(c, call))
    ensures Ok(Next(s, Invoke(c, call)))
  {
    var t := Next(s, Invoke(c, call));
    forall id | 0 <= id < |t.ops| ensures OpOk(t, id) {
      if id < |s.ops| { assert OpOk(s, id); DecidedGrows(s, t, id); }
    }
    forall b | b in t.busy ensures BusyOk(t, b) {
      if b != c {
        assert BusyOk(s, b);
      } else {
        NotYetDecided(s);
      }
    }
    forall k | 0 <= k < |t.decided| ensures DecisionOk(t, k) { assert DecisionOk(s, k); }
    ReplaysLater(s, t);
  }

  lemma DroppedOk(s: System, c: nat)
    requires Ok(s) && Enabled(s, RequestDropped(c))
    ensures Ok(Next(s, RequestDropped(c)))
  {
    var t := Next(s, RequestDropped(c));
    forall id | 0 <= id < |t.ops| ensures OpOk(t, id) { assert OpOk(s, id); DecidedGrows(s, t, id); }
    forall b | b in t.busy ensures BusyOk(t, b) { assert BusyOk(s, b); DecidedGrows(t, s, s.busy[b].op); }
    forall k | 0 <= k < |t.decided| ensures DecisionOk(t, k) { assert DecisionOk(s, k); }
  }

  /** What an execution does to the data. */
  lemma ExecutedIs(s: System, c: nat)
    requires Ok(s) && c in s.busy && s.busy[c].op < |s.ops|
    ensures var id := s.busy[c].op;
            var call := s.ops[id].call;
            var (next, reply) := Executed(s.data, call);
            && BusyOk(s, c) && OpOk(s, id) && Stored(next)
            && (forall key :: Version(s.data, key) <= Version(next, key))
            && (Wins(s.data, call) ==>
                  && !IsDecided(s, id) && reply == Done(OK)
                  && call.args.version == Version(s.data, call.args.key) < Version(next, call.args.key))
            && (!Wins(s.data, call) ==> next == s.data && reply != Done(OK))
            && (IsDecided(s, id) ==> reply == Done(ErrVersion))
            && (reply.Got? <==> call.GetCall?) && reply != Done(ErrMaybe)
  {
    var id := s.busy[c].op;
    assert BusyOk(s, c) && OpOk(s, id);
    var call := s.ops[id].call;
    if call.PutCall? {
      PutMeaning(s.data, call.args);
    }
  }

  lemma LostUndecided(s: System, c: nat)
    requires Ok(s) && Enabled(s, ReplyLost(c)) && !Wins(s.data, s.ops[s.busy[c].op].call)
    ensures Ok(Next(s, ReplyLost(c)))
  {
    ExecutedIs(s, c);
    var t := Next(s, ReplyLost(c));
    assert t.decided == s.decided && t.data == s.data;
    OrderKept(s, t);
    forall id | 0 <= id < |t.ops| ensures OpOk(t, id) { assert OpOk(s, id); DecidedGrows(s, t, id); }
    forall b | b in t.busy ensures BusyOk(t, b) { assert BusyOk(s, b); DecidedGrows(t, s, s.busy[b].op); }
    forall k | 0 <= k < |t.decided| ensures DecisionOk(t, k) { assert DecisionOk(s, k); }
  }

  /** The new decision comes last and names an operation that had none. */
  lemma InOrderMore(s: System, t: System, d: Decision)
    requires Ok(s) && t.decided == s.decided + [d] && d.op < |s.ops| == |t.ops|
    requires d.at == s.clock && !IsDecided(s, d.op)
    requires forall id :: 0 <= id < |s.ops| ==> t.ops[id].call == s.ops[id].call
    requires d.won ==>
               && s.ops[d.op].call.PutCall?
               && s.ops[d.op].call.args.version == Version(s.data, s.ops[d.op].call.args.key)
    ensures InOrder(t)
  {
    forall k | 0 <= k < |s.decided|
      ensures DecisionOk(s, k) && s.decided[k].op != d.op
    {
    }
  }

  /** Replaying one more operation leads to what its execution left. */
  lemma ReplaysMore(s: System, t: System, d: Decision, reply: Answer)
    requires Ok(s) && t.decided == s.decided + [d] && d.op < |s.ops| == |t.ops| && t.ops == s.ops[d.op := t.ops[d.op]]
    requires !IsDecided(s, d.op)
    requires var call := s.ops[d.op].call;
             && t.ops[d.op].call == call && (t.data, reply) == Executed(s.data, call)
             && (OutputOf(t.ops[d.op]) == OutputOf(s.ops[d.op].(answer := Some(reply)))
                 || (reply == Done(ErrVersion) && t.ops[d.op].answer == Some(Done(ErrMaybe))))
             && (s.ops[d.op].answer == None) && (reply == Done(ErrNoKey) ==> NoKeyAnswer(t.ops[d.op]))
    ensures Replays(t)
  {
    var order := Order(s.decided);
    OrderLast(s.decided, d);
    forall k | 0 <= k < |s.decided|
      ensures s.decided[k].op != d.op && s.decided[k].op < |s.ops|
    {
      assert DecisionOk(s, k);
    }
    assert NoKeyless(t.ops) ==> NoKeyless(s.ops) && !NoKeyAnswer(t.ops[d.op]) by {
      assert forall id :: 0 <= id < |s.ops| && id != d.op ==> t.ops[id] == s.ops[id];
    }
    forall key
      ensures After(t.ops, Order(t.decided), key, INIT) == StateOf(t.data, key)
      ensures NoKeyless(t.ops) ==> Accepts(t.ops, Order(t.decided), key, INIT)
    {
      AfterLater(s.ops, t.ops, order, key, INIT);
      AfterLast(t.ops, order, d.op, key, INIT);
      ExecutionIsStep(s.data, t.ops[d.op], reply);
    }
  }

  lemma ExecutionIsStep(data: Store, op: Operation, reply: Answer)
    requires Stored(data) && Executed(data, op.call).1 == reply
    requires OutputOf(op) == OutputOf(op.(answer := Some(reply))) ||
             (reply == Done(ErrVersion) && op.answer == Some(Done(ErrMaybe)))
    requires reply == Done(ErrNoKey) ==> NoKeyAnswer(op)
    ensures var (ok, st) := Step(StateOf(data, KeyOf(op.call)), InputOf(op.call), OutputOf(op));
            st == StateOf(Executed(data, op.call).0, KeyOf(op.call)) && (!NoKeyAnswer(op) ==> ok)
    ensures forall key :: key != KeyOf(op.call) ==> StateOf(Executed(data, op.call).0, key) == StateOf(data, key)
  {
    match op.call {
      case GetCall(key) => GetIsStep(data, key);
      case PutCall(a) => PutIsStep(data, a);
    }
  }

  lemma LostWon(s: System, c: nat)
    requires Ok(s) && Enabled(s, ReplyLost(c)) && Wins(s.data, s.ops[s.busy[c].op].call)
    ensures Ok(Next(s, ReplyLost(c)))
  {
    ExecutedIs(s, c);
    var t, id := Next(s, ReplyLost(c)), s.busy[c].op;
    var d := Decision(id, s.clock, true);
    assert t.decided == s.decided + [d];
    assert t.decided[|s.decided|] == d;
    forall x | 0 <= x < |t.ops| ensures OpOk(t, x) { assert OpOk(s, x); DecidedGrows(s, t, x); }
    forall b | b in t.busy ensures BusyOk(t, b) {
      assert BusyOk(s, b);
      DecidedOnlyNew(s, t, d, t.busy[b].op);
    }
    forall k | 0 <= k < |t.decided| ensures DecisionOk(t, k) {
      if k < |s.decided| { assert DecisionOk(s, k); }
    }
    InOrderMore(s, t, d);
    ReplaysMore(s, t, d, Done(OK));
  }

  lemma DecidedOnlyNew(s: System, t: System, d: Decision, id: nat)
    requires t.decided == s.decided + [d]
    ensures IsDecided(t, id) <==> IsDecided(s, id) || id == d.op
  {
    assert t.decided[|s.decided|] == d;
    DecidedGrows(s, t, id);
  }

  lemma RepliedFirst(s: System, c: nat)
    requires Ok(s) && Enabled(s, Replied(c)) && !IsDecided(s, s.busy[c].op)
    ensures Ok(Next(s, Replied(c)))
  {
    ExecutedIs(s, c);
    var t, id := Next(s, Replied(c)), s.busy[c].op;
    var d := Decision(id, s.clock, Wins(s.data, s.ops[id].call));
    assert t.decided == s.decided + [d];
    assert t.decided[|s.decided|] == d;
    forall x | 0 <= x < |t.ops| ensures OpOk(t, x) { assert OpOk(s, x); DecidedOnlyNew(s, t, d, x); }
    forall b | b in t.busy ensures BusyOk(t, b) {
      assert BusyOk(s, b);
      DecidedOnlyNew(s, t, d, t.busy[b].op);
    }
    forall k | 0 <= k < |t.decided| ensures DecisionOk(t, k) {
      if k < |s.decided| {
        assert DecisionOk(s, k) && s.decided[k].op != id;
      }
    }
    InOrderMore(s, t, d);
    ReplaysMore(s, t, d, Executed(s.data, s.ops[id].call).1);
  }

  lemma RepliedAgain(s: System, c: nat)
    requires Ok(s) && Enabled(s, Replied(c)) && IsDecided(s, s.busy[c].op)
    ensures Ok(Next(s, Replied(c)))
  {
    ExecutedIs(s, c);
    var t, id := Next(s, Replied(c)), s.busy[c].op;
    assert t.decided == s.decided && t.data == s.data;
    assert t.ops[id].answer == Some(Done(ErrMaybe));
    forall x | 0 <= x < |t.ops| ensures OpOk(t, x) { assert OpOk(s, x); DecidedGrows(s, t, x); }
    forall b | b in t.busy ensures BusyOk(t, b) { assert BusyOk(s, b); DecidedGrows(t, s, s.busy[b].op); }
    forall k | 0 <= k < |t.decided| ensures DecisionOk(t, k) { assert DecisionOk(s, k); }
    OrderKept(s, t);
    ReplaysLater(s, t);
  }

  lemma StepOk(s: System, e: Event)
    requires Ok(s) && Enabled(s, e)
    ensures Ok(Next(s, e))
  {
    match e {
      case Invoke(c, call) => InvokeOk(s, c, call);
      case RequestDropped(c) => DroppedOk(s, c);
      case ReplyLost(c) => if Wins(s.data, s.ops[s.busy[c].op].call) { LostWon(s, c); } else { LostUndecided(s, c); }
      case Replied(c) => if IsDecided(s, s.busy[c].op) { RepliedAgain(s, c); } else { RepliedFirst(s, c); }
    }
  }

  lemma {:induction false} RunOk(r: Run, i: nat)
    requires IsRun(r) && i < |r.states|
    ensures Ok(r.states[i])
    decreases i
  {
    if i > 0 {
      RunOk(r, i - 1);
      StepOk(r.states[i - 1], r.events[i - 1]);
    }
  }

  // ----- linearizability

  /** Ordering the operations by the executions that settled them is a linearization. */
  lemma OrderIsLinearization(s: System)
    requires Ok(s) && NoKeyless(s.ops)
    ensures Linearization(s.ops, Order(s.decided))
  {
    var order := Order(s.decided);
    forall id | 0 <= id < |s.ops| && s.ops[id].answer.Some?
      ensures id in order
    {
      assert OpOk(s, id);
      var k :| 0 <= k < |s.decided| && s.decided[k].op == id;
      assert order[k] == id;
    }
    forall i, j | 0 <= i < j < |order|
      ensures order[i] != order[j] && !Precedes(s.ops[order[j]], s.ops[order[i]])
    {
      assert DecisionOk(s, i) && DecisionOk(s, j);
    }
  }

  lemma {:induction false} NoKeyIsRefused(ops: seq<Operation>, order: seq<nat>, key: string, st: State, k: nat)
    requires InRange(order, |ops|) && k < |order| && NoKeyAnswer(ops[order[k]]) && ops[order[k]].call.PutCall?
    requires KeyOf(ops[order[k]].call) == key
    ensures !Accepts(ops, order, key, st)
    decreases |order|
  {
    if k > 0 {
      var op := ops[order[0]];
      var next := if KeyOf(op.call) == key then Step(st, InputOf(op.call), OutputOf(op)).1 else st;
      NoKeyIsRefused(ops, order[1..], key, next, k - 1);
    }
  }

  /** A history of calls is linearizable exactly when no put was answered ErrNoKey; the order in which the
      server settled the calls is a linearization then, and every call was settled while it was under way. */
  lemma Linearizable(r: Run, i: nat)
    requires IsRun(r) && i < |r.states|
    ensures NoKeyless(r.states[i].ops) ==> Linearization(r.states[i].ops, Order(r.states[i].decided))
    ensures (exists order :: Linearization(r.states[i].ops, order)) <==> NoKeyless(r.states[i].ops)
    ensures forall d <- r.states[i].decided :: d.op < |r.states[i].ops| && r.states[i].ops[d.op].invoked < d.at
              && (r.states[i].ops[d.op].answer.Some? ==> d.at <= r.states[i].ops[d.op].returned)
  {
    var s := r.states[i];
    RunOk(r, i);
    if NoKeyless(s.ops) {
      OrderIsLinearization(s);
    } else if order :| Linearization(s.ops, order) {
      NoOrderWithNoKey(s, order);
    }
    forall d | d in s.decided
      ensures d.op < |s.ops| && s.ops[d.op].invoked < d.at
      ensures s.ops[d.op].answer.Some? ==> d.at <= s.ops[d.op].returned
    {
      var k :| 0 <= k < |s.decided| && s.decided[k] == d;
      assert DecisionOk(s, k);
    }
  }

  lemma NoOrderWithNoKey(s: System, order: seq<nat>)
    requires Ok(s) && Linearization(s.ops, order)
    ensures NoKeyless(s.ops)
  {
    forall id | 0 <= id < |s.ops|
      ensures !NoKeyAnswer(s.ops[id])
    {
      assert OpOk(s, id);
      if NoKeyAnswer(s.ops[id]) {
        var k :| 0 <= k < |order| && order[k] == id;
        NoKeyIsRefused(s.ops, order, KeyOf(s.ops[id].call), INIT, k);
      }
    }
  }

  // ----- what the answers say about the versions

  ghost predicate IsPut(s: System, id: nat, key: string) {
    id < |s.ops| && s.ops[id].call.PutCall? && s.ops[id].call.args.key == key
  }

  /** The puts to the key that were executed successfully. */
  ghost function Winners(s: System, key: string): set<nat> {
    set k | 0 <= k < |s.decided| && s.decided[k].won && IsPut(s, s.decided[k].op, key) :: s.decided[k].op
  }

  ghost function Answered(s: System, key: string, err: Err): set<nat> {
    set id | 0 <= id < |s.ops| && IsPut(s, id, key) && s.ops[id].answer == Some(Done(err))
  }

  ghost predicate AllReturned(s: System, key: string) {
    forall id :: 0 <= id < |s.ops| && IsPut(s, id, key) ==> s.ops[id].answer.Some?
  }

  lemma SameWinners(s: System, t: System, key: string)
    requires Ok(s) && t.decided == s.decided && |t.ops| >= |s.ops|
    requires forall id :: 0 <= id < |s.ops| ==> t.ops[id].call == s.ops[id].call
    ensures Winners(t, key) == Winners(s, key)
  {
    forall k | 0 <= k < |s.decided| ensures s.decided[k].op < |s.ops| { assert DecisionOk(s, k); }
  }

  lemma OneMoreWinner(s: System, t: System, d: Decision, key: string)
    requires Ok(s) && t.decided == s.decided + [d] && d.op < |s.ops| == |t.ops| && !IsDecided(s, d.op)
    requires forall id :: 0 <= id < |s.ops| ==> t.ops[id].call == s.ops[id].call
    ensures |Winners(t, key)| == |Winners(s, key)| + if d.won && IsPut(s, d.op, key) then 1 else 0
  {
    var same := System(t.data, t.busy, t.clock, t.ops, s.decided);
    SameWinners(s, same, key);
    assert t.decided[|s.decided|] == d;
    assert forall k :: 0 <= k < |s.decided| ==> t.decided[k] == s.decided[k];
    if d.won && IsPut(s, d.op, key) {
      assert Winners(t, key) == Winners(s, key) + {d.op};
    } else {
      assert Winners(t, key) == Winners(s, key);
    }
  }

  lemma WinnersStep(s: System, e: Event, key: string)
    requires Ok(s) && Enabled(s, e) && |Winners(s, key)| == Version(s.data, key)
    ensures |Winners(Next(s, e), key)| == Version(Next(s, e).data, key)
  {
    var t := Next(s, e);
    if e.Invoke? || e.RequestDropped? {
      SameWinners(s, t, key);
    } else {
      ExecutedIs(s, e.client);
      var id := s.busy[e.client].op;
      if t.decided == s.decided {
        SameWinners(s, t, key);
      } else {
        OneMoreWinner(s, t, Decision(id, s.clock, Wins(s.data, s.ops[id].call)), key);
      }
    }
  }

  lemma {:induction false} WinnersInRun(r: Run, i: nat, key: string)
    requires IsRun(r) && i < |r.states|
    ensures |Winners(r.states[i], key)| == Version(r.states[i].data, key)
    decreases i
  {
    if i > 0 {
      WinnersInRun(r, i - 1, key);
      RunOk(r, i - 1);
      WinnersStep(r.states[i - 1], r.events[i - 1], key);
    }
  }

  /** At most one put ever succeeds for a key and a version. */
  lemma OnePutPerVersion(r: Run, i: nat, j: nat, k: nat)
    requires IsRun(r) && i < |r.states| && j < |r.states[i].decided| && k < |r.states[i].decided|
    requires r.states[i].decided[j].won && r.states[i].decided[k].won
    ensures r.states[i].decided[j].op < |r.states[i].ops| && r.states[i].ops[r.states[i].decided[j].op].call.PutCall?
    ensures r.states[i].decided[k].op < |r.states[i].ops| && r.states[i].ops[r.states[i].decided[k].op].call.PutCall?
    ensures var a := r.states[i].ops[r.states[i].decided[j].op].call.args;
            var b := r.states[i].ops[r.states[i].decided[k].op].call.args;
            a.key == b.key && a.version == b.version ==> j == k
  {
    RunOk(r, i);
    assert DecisionOk(r.states[i], j) && DecisionOk(r.states[i], k);
  }

  /** A put that was answered OK was executed successfully, by exactly one of its requests; one that was
      answered ErrVersion or ErrNoKey never was. */
  lemma AnswersAreHonest(r: Run, i: nat, id: nat, key: string)
    requires IsRun(r) && i < |r.states| && IsPut(r.states[i], id, key)
    ensures var s := r.states[i];
            && (s.ops[id].answer == Some(Done(OK)) ==> id in Winners(s, key))
            && (s.ops[id].answer == Some(Done(ErrVersion)) || s.ops[id].answer == Some(Done(ErrNoKey)) ==>
                   id !in Winners(s, key))
            && forall j, k :: 0 <= j < k < |s.decided| ==> !(s.decided[j].op == s.decided[k].op == id)
  {
    var s := r.states[i];
    RunOk(r, i);
    assert OpOk(s, id);
    if id in Winners(s, key) {
      var k :| 0 <= k < |s.decided| && s.decided[k].won && s.decided[k].op == id;
      assert DecisionOk(s, k);
    }
    if s.ops[id].answer == Some(Done(OK)) {
      var k :| 0 <= k < |s.decided| && s.decided[k].op == id;
      assert DecisionOk(s, k) && s.decided[k].won;
    }
  }

  /** When all puts to a key have returned, its version lies between the number of them that were answered OK
      and that number plus the number that were answered ErrMaybe. */
  lemma VersionsAreCounted(r: Run, i: nat, key: string)
    requires IsRun(r) && i < |r.states| && AllReturned(r.states[i], key)
    ensures var s := r.states[i];
            |Answered(s, key, OK)| <= Version(s.data, key) <= |Answered(s, key, OK)| + |Answered(s, key, ErrMaybe)|
  {
    var s := r.states[i];
    WinnersInRun(r, i, key);
    RunOk(r, i);
    forall id | id in Answered(s, key, OK) ensures id in Winners(s, key) { AnswersAreHonest(r, i, id, key); }
    SubsetSize(Answered(s, key, OK), Winners(s, key));
    forall id | id in Winners(s, key) ensures id in Answered(s, key, OK) + Answered(s, key, ErrMaybe) {
      var k :| 0 <= k < |s.decided| && s.decided[k].won && s.decided[k].op == id;
      assert DecisionOk(s, k);
    }
    SubsetSize(Winners(s, key), Answered(s, key, OK) + Answered(s, key, ErrMaybe));
  }

  ghost predicate Certain(s: System) {
    && (forall c <- s.busy :: s.busy[c].first)
    && forall id :: 0 <= id < |s.ops| ==> s.ops[id].answer != Some(Done(ErrMaybe))
  }

  lemma {:induction false} ReliableIsCertain(r: Run, i: nat)
    requires IsRun(r) && i < |r.states|
    requires forall k :: 0 <= k < i ==> r.events[k].Invoke? || r.events[k].Replied?
    ensures Certain(r.states[i])
    decreases i
  {
    if i > 0 {
      ReliableIsCertain(r, i - 1);
      RunOk(r, i - 1);
      var e := r.events[i - 1];
      if e.Replied? {
        ExecutedIs(r.states[i - 1], e.client);
      }
    }
  }

  /** Over a network that loses nothing the version is exactly the number of puts answered OK. */
  lemma ReliableCount(r: Run, i: nat, key: string)
    requires IsRun(r) && i < |r.states| && AllReturned(r.states[i], key)
    requires forall k :: 0 <= k < i ==> r.events[k].Invoke? || r.events[k].Replied?
    ensures Version(r.states[i].data, key) == |Answered(r.states[i], key, OK)|
  {
    VersionsAreCounted(r, i, key);
    ReliableIsCertain(r, i);
    assert Answered(r.states[i], key, ErrMaybe) == {};
  }
}
