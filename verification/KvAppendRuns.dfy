/** Runs of many appending clients.  A list travels as text; writing a list down and reading it back is
    taken to return the list. */
module KvAppendRuns {
  import opened KvServer
  import opened KvClerk
  import opened KvAppend

  const KEY: string := "k"

  datatype Codec = Codec(encode: seq<Stamp> -> string, decode: string -> seq<Stamp>)

  ghost predicate RoundTrips(codec: Codec) {
    forall es :: codec.decode(codec.encode(es)) == es
  }

  /** Where a client is: before a round, reading the list, putting a longer one back, stopped by a wrong answer
      to its read, or done. */
  datatype Phase = Between | Reading | Writing(value: string, version: nat, first: bool) | Failed | Stopped

  datatype Client = Client(round: nat, tally: Tally, phase: Phase)

  datatype System = System(data: Store, clients: seq<Client>)

  /** A read changes nothing, so only the one whose reply arrives is a step. */
  datatype Event =
    | Begin(c: nat) | Stop(c: nat) | ReadReplied(c: nat)
    | PutDropped(c: nat) | PutLost(c: nat) | PutReplied(c: nat)

  function Start(codec: Codec, n: nat): System {
    System(map[KEY := Entry(codec.encode([]), 1)], seq(n, _ => Client(0, Tally(0, 0), Between)))
  }

  predicate Enabled(s: System, e: Event) {
    e.c < |s.clients| &&
    match e
    case Begin(c) => s.clients[c].phase.Between?
    case Stop(c) => s.clients[c].phase.Between?
    case ReadReplied(c) => s.clients[c].phase.Reading?
    case _ => s.clients[e.c].phase.Writing?
  }

  function Request(k: Client): PutArgs
    requires k.phase.Writing?
  {
    PutArgs(KEY, k.phase.value, k.phase.version)
  }

  /** What the client does with the answer to its put. */
  function Counted(k: Client, answer: Err): Client {
    match answer
    case OK => Client(k.round + 1, k.tally.(nok := k.tally.nok + 1), Between)
    case ErrMaybe => Client(k.round + 1, k.tally.(nmaybe := k.tally.nmaybe + 1), Between)
    case _ => k.(phase := Reading)
  }

  function Next(codec: Codec, s: System, e: Event): System
    requires Enabled(s, e)
  {
    var k := s.clients[e.c];
    match e
    case Begin(c) => s.(clients := s.clients[c := k.(phase := Reading)])
    case Stop(c) => s.(clients := s.clients[c := k.(phase := Stopped)])
    case ReadReplied(c) =>
      var r := ServerGet(s.data, KEY);
      var phase := if r.err != OK then Failed
                   else Writing(codec.encode(codec.decode(r.value) + [Stamp(c, k.round)]), r.version, true);
      s.(clients := s.clients[c := k.(phase := phase)])
    case PutDropped(c) => s.(clients := s.clients[c := k.(phase := k.phase.(first := false))])
    case PutLost(c) =>
      System(ServerPut(s.data, Request(k)).0, s.clients[c := k.(phase := k.phase.(first := false))])
    case PutReplied(c) =>
      var (data, reply) := ServerPut(s.data, Request(k));
      System(data, s.clients[c := Counted(k, Conclude(k.phase.first, reply))])
  }

  datatype Run = Run(states: seq<System>, events: seq<Event>)

  ghost predicate IsRun(codec: Codec, n: nat, r: Run) {
    && |r.states| == |r.events| + 1 && r.states[0] == Start(codec, n)
    && forall i :: 0 <= i < |r.events| ==>
           Enabled(r.states[i], r.events[i]) && r.states[i + 1] == Next(codec, r.states[i], r.events[i])
  }

  /** The list at the server. */
  function List(codec: Codec, s: System): seq<Stamp> {
    if KEY in s.data then codec.decode(s.data[KEY].value) else []
  }

  // ----- what every run keeps

  /** The put in flight is for the list as it was read; once it has been executed, its stamp is in the list and
      it cannot be executed again. */
  ghost predicate ClientOk(codec: Codec, es: seq<Stamp>, k: Client, c: int) {
    && Rising(es, c) && k.tally.nok + k.tally.nmaybe == k.round && k.tally.nok <= CountOf(es, c)
    && !k.phase.Failed?
    && match k.phase
       case Writing(value, version, first) =>
         && 1 <= version <= |es| + 1
         && value == codec.encode(es[..version - 1] + [Stamp(c, k.round)])
         && (Expected(es, c) <= k.round || (Expected(es, c) == k.round + 1 && !first && version <= |es|))
       case _ => Expected(es, c) <= k.round
  }

  ghost predicate Ok(codec: Codec, s: System, es: seq<Stamp>) {
    && KEY in s.data && s.data[KEY] == Entry(codec.encode(es), |es| + 1)
    && (forall i :: 0 <= i < |es| ==> 0 <= es[i].client < |s.clients|)
    && (forall c: nat {:trigger ClientOk(codec, es, s.clients[c], c)} :: c < |s.clients| ==>
           ClientOk(codec, es, s.clients[c], c))
  }

  lemma Longer(codec: Codec, es: seq<Stamp>, e: Stamp, k: Client, c: int)
    requires ClientOk(codec, es, k, c) && e.client != c
    ensures ClientOk(codec, es + [e], k, c)
  {
    assert (es + [e])[..|es|] == es;
    if k.phase.Writing? {
      assert (es + [e])[..k.phase.version - 1] == es[..k.phase.version - 1];
    }
  }

  /** The put that names the version of the list appends the stamp of its client. */
  lemma Wins(codec: Codec, s: System, es: seq<Stamp>, c: nat)
    requires Ok(codec, s, es) && c < |s.clients| && s.clients[c].phase.Writing?
    ensures ClientOk(codec, es, s.clients[c], c)
    ensures var k := s.clients[c];
            var (data, reply) := ServerPut(s.data, Request(k));
            if k.phase.version == |es| + 1 then
              && reply == OK && data == s.data[KEY := Entry(codec.encode(es + [Stamp(c, k.round)]), |es| + 2)]
              && Expected(es, c) <= k.round
            else reply == ErrVersion && data == s.data
  {
    assert ClientOk(codec, es, s.clients[c], c);
    if s.clients[c].phase.version == |es| + 1 {
      assert es[..|es|] == es;
    }
  }

  lemma Appended(codec: Codec, s: System, es: seq<Stamp>, c: nat, k: Client, data: Store)
    requires Ok(codec, s, es) && c < |s.clients|
    requires var e := Stamp(c, s.clients[c].round);
             data == s.data[KEY := Entry(codec.encode(es + [e]), |es| + 2)] && ClientOk(codec, es + [e], k, c)
    ensures Ok(codec, System(data, s.clients[c := k]), es + [Stamp(c, s.clients[c].round)])
  {
    var e, t := Stamp(c, s.clients[c].round), System(data, s.clients[c := k]);
    forall d: nat | d < |t.clients|
      ensures ClientOk(codec, es + [e], t.clients[d], d)
    {
      if d != c {
        assert ClientOk(codec, es, s.clients[d], d);
        Longer(codec, es, e, s.clients[d], d);
      }
    }
  }

  /** The list gains at most one stamp at its end. */
  lemma StepOk(codec: Codec, s: System, es: seq<Stamp>, e: Event) returns (after: seq<Stamp>)
    requires RoundTrips(codec) && Ok(codec, s, es) && Enabled(s, e)
    ensures Ok(codec, Next(codec, s, e), after) && es <= after
  {
    var c := e.c;
    var k, t := s.clients[c], Next(codec, s, e);
    assert ClientOk(codec, es, s.clients[c], c);
    after := es;
    if (e.PutLost? || e.PutReplied?) && k.phase.version == |es| + 1 {
      Wins(codec, s, es, c);
      after := es + [Stamp(c, k.round)];
      assert after[..|es|] == es;
      if e.PutLost? {
        assert after[..k.phase.version - 1] == es[..k.phase.version - 1];
        Appended(codec, s, es, c, k.(phase := k.phase.(first := false)), t.data);
      } else {
        Appended(codec, s, es, c, Counted(k, OK), t.data);
      }
    } else {
      if e.PutLost? || e.PutReplied? {
        Wins(codec, s, es, c);
      }
      if e.ReadReplied? {
        assert es[..|es|] == es;
      }
      forall d: nat | d < |t.clients|
        ensures ClientOk(codec, es, t.clients[d], d)
      {
        if d != c {
          assert ClientOk(codec, es, s.clients[d], d);
        }
      }
    }
  }

  lemma {:induction false} RunOk(codec: Codec, n: nat, r: Run, i: nat)
    requires RoundTrips(codec) && IsRun(codec, n, r) && i < |r.states|
    ensures Ok(codec, r.states[i], List(codec, r.states[i])) && |r.states[i].clients| == n
    decreases i
  {
    if i > 0 {
      RunOk(codec, n, r, i - 1);
      var after := StepOk(codec, r.states[i - 1], List(codec, r.states[i - 1]), r.events[i - 1]);
    }
  }

  function Tallies(s: System): seq<Tally> {
    seq(|s.clients|, i requires 0 <= i < |s.clients| => s.clients[i].tally)
  }

  /** No client is in the middle of a round. */
  predicate Settled(s: System) {
    forall c :: 0 <= c < |s.clients| ==> s.clients[c].phase.Between? || s.clients[c].phase.Stopped?
  }

  /** At any moment the list is as long as the number of puts, no client and round is in it twice, the rounds
      of each client go up, and no client has seen a wrong answer. */
  lemma ListIsInOrder(codec: Codec, n: nat, r: Run, i: nat)
    requires RoundTrips(codec) && IsRun(codec, n, r) && i < |r.states|
    ensures var s, es := r.states[i], List(codec, r.states[i]);
            && |es| + 1 == Version(s.data, KEY)
            && (forall j, k :: 0 <= j < k < |es| && es[j].client == es[k].client ==> es[j].n < es[k].n)
            && forall c :: 0 <= c < |s.clients| ==> !s.clients[c].phase.Failed?
  {
    RunOk(codec, n, r, i);
    var s, es := r.states[i], List(codec, r.states[i]);
    forall c: nat | c < |s.clients|
      ensures !s.clients[c].phase.Failed?
    {
      assert ClientOk(codec, es, s.clients[c], c);
    }
    forall j, k | 0 <= j < k < |es| && es[j].client == es[k].client
      ensures es[j].n < es[k].n
    {
      var c: nat := es[j].client;
      assert ClientOk(codec, es, s.clients[c], c);
      RisingMeans(es, c);
    }
  }

  /** Whatever is lost on the way: once all clients are done, the check of the list passes. */
  lemma CheckPasses(codec: Codec, n: nat, r: Run, i: nat)
    requires RoundTrips(codec) && IsRun(codec, n, r) && i < |r.states| && Settled(r.states[i])
    ensures AppendsOk(List(codec, r.states[i]), Tallies(r.states[i]), Version(r.states[i].data, KEY))
  {
    RunOk(codec, n, r, i);
    var s, es := r.states[i], List(codec, r.states[i]);
    forall c: nat | c < |s.clients|
      ensures Rising(es, c) && TallyOk(es, Tallies(s), c)
    {
      assert ClientOk(codec, es, s.clients[c], c);
      ExpectedNat(es, c);
    }
  }
}
