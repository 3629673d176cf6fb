/** The sequential specification of one key that histories of calls are checked against. */
module KvModel {
  import opened KvServer

  datatype Input = GetInput(key: string) | PutInput(key: string, value: string, version: nat)
  datatype Output = Output(value: string, version: nat, err: Err)
  datatype State = State(value: string, version: nat)

  const INIT: State := State("", 0)

  /** Whether the output is allowed in the state, and the next state. */
  function Step(st: State, inp: Input, out: Output): (bool, State) {
    match inp
    case GetInput(_) => (out.value == st.value, st)
    case PutInput(_, value, version) =>
      if st.version == version then (out.err == OK || out.err == ErrMaybe, State(value, st.version + 1))
      else (out.err == ErrVersion || out.err == ErrMaybe, st)
  }

  /** What the server holds for a key, as the specification sees it. */
  function StateOf(data: Store, key: string): State {
    if key in data then State(data[key].value, data[key].version) else INIT
  }

  /** The server's put and its answer are a step of the specification, except that a put to a missing key with
      a version other than 0 is answered with an error the specification does not know. */
  lemma PutIsStep(data: Store, a: PutArgs)
    requires Stored(data)
    ensures var (next, err) := ServerPut(data, a);
            var (ok, st) := Step(StateOf(data, a.key), PutInput(a.key, a.value, a.version), Output("", 0, err));
            st == StateOf(next, a.key) && (ok <==> err != ErrNoKey)
            && forall k :: k != a.key ==> StateOf(next, k) == StateOf(data, k)
  {
  }

  lemma GetIsStep(data: Store, key: string)
    ensures var r := ServerGet(data, key);
            Step(StateOf(data, key), GetInput(key), Output(r.value, r.version, r.err)) == (true, StateOf(data, key))
  {
  }
}
