/** Key/value pairs, how they are partitioned, sorted and grouped, and what the lines of an output file say
    about the pairs they were made from. */
module MrData {

  datatype KeyValue = KeyValue(key: string, value: string)
  datatype Line = Line(key: string, output: string)

  type Reducer = (string, seq<string>) -> string
  type Hash = string -> nat

  /** The reduce function does not care in which order it gets the values. */
  ghost predicate Insensitive(reducef: Reducer) {
    forall key, vs: seq<string>, ws: seq<string> {:trigger reducef(key, vs), reducef(key, ws)} ::
      multiset(vs) == multiset(ws) ==> reducef(key, vs) == reducef(key, ws)
  }

  // ----- the order of keys

  predicate Less(a: string, b: string) {
    b != [] && (a == [] || a[0] < b[0] || (a[0] == b[0] && Less(a[1..], b[1..])))
  }

  lemma {:induction false} LessTotal(a: string, b: string)
    ensures Less(a, b) || Less(b, a) || a == b
    ensures !(Less(a, b) && Less(b, a)) && !Less(a, a)
  {
    if a != [] && b != [] {
      LessTotal(a[1..], b[1..]);
      assert a == [a[0]] + a[1..] && b == [b[0]] + b[1..];
    }
    if a != [] {
      LessTotal(a[1..], a[1..]);
    }
  }

  lemma {:induction false} LessTrans(a: string, b: string, c: string)
    requires Less(a, b) && Less(b, c)
    ensures Less(a, c)
  {
    if a != [] && a[0] == b[0] == c[0] {
      LessTrans(a[1..], b[1..], c[1..]);
    }
  }

  /** a comes first if it is the beginning of b, or is lower where they first differ. */
  ghost predicate Before(a: string, b: string) {
    a < b || exists i: nat :: i < |a| && i < |b| && a[..i] == b[..i] && a[i] < b[i]
  }

  lemma {:induction false} LessMeans(a: string, b: string)
    ensures Less(a, b) <==> Before(a, b)
  {
    if a != [] && b != [] && a[0] == b[0] {
      var c, d := a[1..], b[1..];
      LessMeans(c, d);
      assert a == [a[0]] + c && b == [b[0]] + d;
      if i: nat :| i < |c| && i < |d| && c[..i] == d[..i] && c[i] < d[i] {
        assert a[..i + 1] == [a[0]] + c[..i] == [b[0]] + d[..i] == b[..i + 1] && a[i + 1] < b[i + 1];
      }
      if i: nat :| i < |a| && i < |b| && a[..i] == b[..i] && a[i] < b[i] {
        assert c[..i - 1] == a[..i][1..] == b[..i][1..] == d[..i - 1] && c[i - 1] < d[i - 1];
      }
    } else if a != [] && b != [] && a[0] < b[0] {
      assert a[..0] == b[..0];
    }
  }

  ghost predicate SortedByKey(kva: seq<KeyValue>) {
    forall i, j :: 0 <= i < j < |kva| ==> !Less(kva[j].key, kva[i].key)
  }

  // ----- the values of a key

  function Values(kva: seq<KeyValue>, key: string): seq<string> {
    if kva == [] then []
    else Values(kva[..|kva| - 1], key) + if kva[|kva| - 1].key == key then [kva[|kva| - 1].value] else []
  }

  function Keys(kva: seq<KeyValue>): set<string> {
    set kv | kv in kva :: kv.key
  }

  function LineKeys(lines: seq<Line>): set<string> {
    set line | line in lines :: line.key
  }

  lemma {:induction false} ValuesConcat(a: seq<KeyValue>, b: seq<KeyValue>, key: string)
    ensures Values(a + b, key) == Values(a, key) + Values(b, key)
  {
    if b == [] {
      assert a + b == a;
    } else {
      assert (a + b)[..|a + b| - 1] == a + b[..|b| - 1];
      ValuesConcat(a, b[..|b| - 1], key);
    }
  }

  /** Which values a key has depends on the pairs only, not on their order. */
  lemma {:induction false} ValuesCount(kva: seq<KeyValue>, key: string, value: string)
    ensures multiset(Values(kva, key))[value] == multiset(kva)[KeyValue(key, value)]
  {
    if kva != [] {
      var n := |kva| - 1;
      ValuesCount(kva[..n], key, value);
      assert kva == kva[..n] + [kva[n]];
    }
  }

  lemma SameValues(a: seq<KeyValue>, b: seq<KeyValue>, key: string)
    requires multiset(a) == multiset(b)
    ensures multiset(Values(a, key)) == multiset(Values(b, key))
  {
    forall value
      ensures multiset(Values(a, key))[value] == multiset(Values(b, key))[value]
    {
      ValuesCount(a, key, value);
      ValuesCount(b, key, value);
    }
  }

  lemma SameKeys(a: seq<KeyValue>, b: seq<KeyValue>)
    requires multiset(a) == multiset(b)
    ensures Keys(a) == Keys(b)
  {
    forall kv ensures kv in a <==> kv in b {
      assert kv in multiset(a) <==> kv in multiset(b);
    }
  }

  // ----- what an output says

  /** One line for every key, in the order of the keys, with the reduced values of that key. */
  ghost predicate Reports(lines: seq<Line>, kva: seq<KeyValue>, reducef: Reducer) {
    && (forall i, j :: 0 <= i < j < |lines| ==> Less(lines[i].key, lines[j].key))
    && LineKeys(lines) == Keys(kva)
    && forall i :: 0 <= i < |lines| ==> lines[i].output == reducef(lines[i].key, Values(kva, lines[i].key))
  }

  lemma ReportsReordered(lines: seq<Line>, a: seq<KeyValue>, b: seq<KeyValue>, reducef: Reducer)
    requires Reports(lines, a, reducef) && multiset(a) == multiset(b) && Insensitive(reducef)
    ensures Reports(lines, b, reducef)
  {
    SameKeys(a, b);
    forall i | 0 <= i < |lines|
      ensures lines[i].output == reducef(lines[i].key, Values(b, lines[i].key))
    {
      SameValues(a, b, lines[i].key);
    }
  }

  /** The pairs determine the whole output. */
  lemma {:induction false} ReportsUnique(a: seq<Line>, b: seq<Line>, kva: seq<KeyValue>, reducef: Reducer)
    requires Reports(a, kva, reducef) && Reports(b, kva, reducef)
    ensures a == b
  {
    SameOrder(a, b);
    forall i | 0 <= i < |a| ensures a[i] == b[i] {}
  }

  lemma NoLines(lines: seq<Line>)
    ensures LineKeys(lines) == {} <==> lines == []
  {
    if lines != [] {
      assert lines[0].key in LineKeys(lines);
    }
  }

  lemma {:induction false} SameOrder(a: seq<Line>, b: seq<Line>)
    requires forall i, j :: 0 <= i < j < |a| ==> Less(a[i].key, a[j].key)
    requires forall i, j :: 0 <= i < j < |b| ==> Less(b[i].key, b[j].key)
    requires LineKeys(a) == LineKeys(b)
    ensures |a| == |b| && forall i :: 0 <= i < |a| ==> a[i].key == b[i].key
    decreases |a|
  {
    if a == [] {
      NoLines(a);
      NoLines(b);
    } else {
      assert a[0].key in LineKeys(a);
      FirstIsLeast(a, b);
      FirstIsLeast(b, a);
      LessTotal(a[0].key, b[0].key);
      RestKeys(a);
      RestKeys(b);
      SameOrder(a[1..], b[1..]);
    }
  }

  lemma FirstIsLeast(a: seq<Line>, b: seq<Line>)
    requires forall i, j :: 0 <= i < j < |a| ==> Less(a[i].key, a[j].key)
    requires LineKeys(a) == LineKeys(b) && (a != [] || b != [])
    ensures a != [] && b != [] && (a[0].key == b[0].key || Less(a[0].key, b[0].key))
  {
    if a != [] { assert a[0].key in LineKeys(a); }
    if b != [] {
      assert b[0].key in LineKeys(b);
      var i :| 0 <= i < |a| && a[i].key == b[0].key;
    }
  }

  lemma RestKeys(a: seq<Line>)
    requires a != [] && forall i, j :: 0 <= i < j < |a| ==> Less(a[i].key, a[j].key)
    ensures LineKeys(a[1..]) == LineKeys(a) - {a[0].key}
  {
    assert a == [a[0]] + a[1..];
    forall line | line in a[1..] ensures line.key != a[0].key {
      var i :| 0 <= i < |a[1..]| && a[1..][i] == line;
      LessTotal(a[0].key, a[i + 1].key);
    }
  }

  // ----- walking the runs of equal keys

  function RunEnd(kva: seq<KeyValue>, j: nat): (end: nat)
    requires 1 <= j <= |kva|
    ensures j <= end <= |kva|
    ensures forall k :: j <= k < end ==> kva[k].key == kva[0].key
    ensures end < |kva| ==> kva[end].key != kva[0].key
    decreases |kva| - j
  {
    if j < |kva| && kva[j].key == kva[0].key then RunEnd(kva, j + 1) else j
  }

  function AllValues(kva: seq<KeyValue>): seq<string> {
    seq(|kva|, i requires 0 <= i < |kva| => kva[i].value)
  }

  function Lines(kva: seq<KeyValue>, reducef: Reducer): seq<Line>
    decreases |kva|
  {
    if kva == [] then []
    else
      var j := RunEnd(kva, 1);
      [Line(kva[0].key, reducef(kva[0].key, AllValues(kva[..j])))] + Lines(kva[j..], reducef)
  }

  lemma {:induction false} ValuesOfRun(kva: seq<KeyValue>, key: string)
    requires forall i :: 0 <= i < |kva| ==> kva[i].key == key
    ensures Values(kva, key) == AllValues(kva)
  {
    if kva != [] {
      ValuesOfRun(kva[..|kva| - 1], key);
    }
  }

  lemma {:induction false} NoValues(kva: seq<KeyValue>, key: string)
    requires forall i :: 0 <= i < |kva| ==> kva[i].key != key
    ensures Values(kva, key) == []
  {
    if kva != [] {
      NoValues(kva[..|kva| - 1], key);
    }
  }

  /** After a run of equal keys come only greater ones. */
  lemma RunIsAll(kva: seq<KeyValue>)
    requires SortedByKey(kva) && kva != []
    ensures var j := RunEnd(kva, 1);
            && SortedByKey(kva[j..])
            && forall i :: j <= i < |kva| ==> Less(kva[0].key, kva[i].key)
  {
    var j := RunEnd(kva, 1);
    forall i | j <= i < |kva|
      ensures Less(kva[0].key, kva[i].key)
    {
      LessTotal(kva[0].key, kva[j].key);
      LessTotal(kva[j].key, kva[i].key);
      if kva[j].key != kva[i].key {
        LessTrans(kva[0].key, kva[j].key, kva[i].key);
      }
    }
  }

  lemma {:induction false} LinesReport(kva: seq<KeyValue>, reducef: Reducer)
    requires SortedByKey(kva)
    ensures Reports(Lines(kva, reducef), kva, reducef)
    decreases |kva|
  {
    if kva != [] {
      var j := RunEnd(kva, 1);
      RunIsAll(kva);
      LinesReport(kva[j..], reducef);
      LineAdded(kva, j, Lines(kva[j..], reducef), reducef);
    }
  }

  lemma RunValues(kva: seq<KeyValue>, j: nat)
    requires 1 <= j <= |kva| && (forall i :: 0 <= i < j ==> kva[i].key == kva[0].key)
    requires forall i :: j <= i < |kva| ==> Less(kva[0].key, kva[i].key)
    ensures Values(kva, kva[0].key) == AllValues(kva[..j])
  {
    assert kva == kva[..j] + kva[j..];
    LessTotal(kva[0].key, kva[0].key);
    ValuesConcat(kva[..j], kva[j..], kva[0].key);
    ValuesOfRun(kva[..j], kva[0].key);
    NoValues(kva[j..], kva[0].key);
  }

  lemma LaterValues(kva: seq<KeyValue>, j: nat, key: string)
    requires j <= |kva| && (forall i :: 0 <= i < j ==> kva[i].key != key)
    ensures Values(kva, key) == Values(kva[j..], key)
  {
    assert kva == kva[..j] + kva[j..];
    ValuesConcat(kva[..j], kva[j..], key);
    NoValues(kva[..j], key);
  }

  lemma LineAdded(kva: seq<KeyValue>, j: nat, rest: seq<Line>, reducef: Reducer)
    requires 1 <= j <= |kva| && (forall i :: 0 <= i < j ==> kva[i].key == kva[0].key)
    requires forall i :: j <= i < |kva| ==> Less(kva[0].key, kva[i].key)
    requires Reports(rest, kva[j..], reducef)
    ensures Reports([Line(kva[0].key, reducef(kva[0].key, AllValues(kva[..j])))] + rest, kva, reducef)
  {
    var key := kva[0].key;
    var lines := [Line(key, reducef(key, AllValues(kva[..j])))] + rest;
    assert kva == kva[..j] + kva[j..];
    forall i | 0 <= i < |rest|
      ensures Less(key, rest[i].key)
    {
      assert rest[i].key in LineKeys(rest);
      var kv :| kv in kva[j..] && kv.key == rest[i].key;
      var k :| 0 <= k < |kva[j..]| && kva[j..][k] == kv;
      assert kva[j..][k] == kva[j + k];
    }
    assert Keys(kva) == Keys(kva[..j]) + Keys(kva[j..]);
    assert Keys(kva[..j]) == {key} by {
      assert kva[..j][0].key == key;
      assert forall kv <- kva[..j] :: kv.key == key;
    }
    assert LineKeys(lines) == {key} + LineKeys(rest) by {
      assert lines[0].key == key;
    }
    RunValues(kva, j);
    forall i | 0 <= i < |lines|
      ensures lines[i].output == reducef(lines[i].key, Values(kva, lines[i].key))
    {
      if i > 0 {
        LessTotal(key, rest[i - 1].key);
        LaterValues(kva, j, rest[i - 1].key);
      }
    }
  }

  // ----- partitions

  /** The pairs whose key falls into partition r. */
  function Part(kva: seq<KeyValue>, hash: Hash, n: nat, r: nat): seq<KeyValue>
    requires n > 0
  {
    if kva == [] then []
    else Part(kva[..|kva| - 1], hash, n, r) + if hash(kva[|kva| - 1].key) % n == r then [kva[|kva| - 1]] else []
  }

  lemma {:induction false} PartConcat(a: seq<KeyValue>, b: seq<KeyValue>, hash: Hash, n: nat, r: nat)
    requires n > 0
    ensures Part(a + b, hash, n, r) == Part(a, hash, n, r) + Part(b, hash, n, r)
  {
    if b == [] {
      assert a + b == a;
    } else {
      assert (a + b)[..|a + b| - 1] == a + b[..|b| - 1];
      PartConcat(a, b[..|b| - 1], hash, n, r);
    }
  }

  lemma {:induction false} PartCount(kva: seq<KeyValue>, hash: Hash, n: nat, r: nat, kv: KeyValue)
    requires n > 0
    ensures multiset(Part(kva, hash, n, r))[kv] == if hash(kv.key) % n == r then multiset(kva)[kv] else 0
  {
    if kva != [] {
      var k := |kva| - 1;
      PartCount(kva[..k], hash, n, r, kv);
      assert kva == kva[..k] + [kva[k]];
    }
  }

  lemma PartReordered(a: seq<KeyValue>, b: seq<KeyValue>, hash: Hash, n: nat, r: nat)
    requires n > 0 && multiset(a) == multiset(b)
    ensures multiset(Part(a, hash, n, r)) == multiset(Part(b, hash, n, r))
  {
    forall kv ensures multiset(Part(a, hash, n, r))[kv] == multiset(Part(b, hash, n, r))[kv] {
      PartCount(a, hash, n, r, kv);
      PartCount(b, hash, n, r, kv);
    }
  }

  lemma {:induction false} PartValues(kva: seq<KeyValue>, hash: Hash, n: nat, r: nat, key: string)
    requires n > 0 && hash(key) % n == r
    ensures Values(Part(kva, hash, n, r), key) == Values(kva, key)
  {
    if kva != [] {
      var k := |kva| - 1;
      PartValues(kva[..k], hash, n, r, key);
      ValuesConcat(Part(kva[..k], hash, n, r), if hash(kva[k].key) % n == r then [kva[k]] else [], key);
    }
  }

  lemma PartKeys(kva: seq<KeyValue>, hash: Hash, n: nat, r: nat, key: string)
    requires n > 0
    ensures key in Keys(Part(kva, hash, n, r)) <==> key in Keys(kva) && hash(key) % n == r
  {
    forall kv ensures kv in Part(kva, hash, n, r) <==> kv in kva && hash(kv.key) % n == r {
      PartCount(kva, hash, n, r, kv);
      assert kv in multiset(Part(kva, hash, n, r)) <==> kv in Part(kva, hash, n, r);
      assert kv in multiset(kva) <==> kv in kva;
    }
  }

  /** Outputs made partition by partition have no key in common and together hold exactly the lines of the
      output made of everything. */
  lemma PartsMakeWhole(whole: seq<Line>, outs: seq<seq<Line>>, all: seq<KeyValue>, hash: Hash, reducef: Reducer)
    requires |outs| > 0 && Reports(whole, all, reducef)
    requires forall r :: 0 <= r < |outs| ==> Reports(outs[r], Part(all, hash, |outs|, r), reducef)
    ensures forall q, r :: 0 <= q < r < |outs| ==> LineKeys(outs[q]) !! LineKeys(outs[r])
    ensures forall line :: line in whole <==> exists r :: 0 <= r < |outs| && line in outs[r]
  {
    var n := |outs|;
    forall q, r | 0 <= q < r < n
      ensures LineKeys(outs[q]) !! LineKeys(outs[r])
    {
      forall key | key in LineKeys(outs[q]) ensures key !in LineKeys(outs[r]) {
        PartKeys(all, hash, n, q, key);
        PartKeys(all, hash, n, r, key);
      }
    }
    forall line
      ensures line in whole <==> exists r :: 0 <= r < n && line in outs[r]
    {
      if line in whole {
        var r := hash(line.key) % n;
        assert line.key in LineKeys(whole);
        PartLine(whole, outs[r], all, hash, reducef, n, r, line);
      }
      if r :| 0 <= r < n && line in outs[r] {
        assert line.key in LineKeys(outs[r]);
        PartLine(whole, outs[r], all, hash, reducef, n, r, line);
      }
    }
  }

  /** The line of a key. */
  lemma LineOf(lines: seq<Line>, kva: seq<KeyValue>, reducef: Reducer, line: Line)
    requires Reports(lines, kva, reducef) && line.key in Keys(kva)
    ensures line in lines <==> line.output == reducef(line.key, Values(kva, line.key))
  {
    assert line.key in LineKeys(lines);
    var other :| other in lines && other.key == line.key;
    var i :| 0 <= i < |lines| && lines[i] == other;
    if line in lines {
      var j :| 0 <= j < |lines| && lines[j] == line;
    }
  }

  lemma PartLine(whole: seq<Line>, out: seq<Line>, all: seq<KeyValue>, hash: Hash, reducef: Reducer, n: nat, r: nat,
                 line: Line)
    requires n > 0 && Reports(whole, all, reducef) && Reports(out, Part(all, hash, n, r), reducef)
    requires line.key in Keys(Part(all, hash, n, r)) || (line.key in Keys(all) && hash(line.key) % n == r)
    ensures line in whole <==> line in out
  {
    PartKeys(all, hash, n, r, line.key);
    PartValues(all, hash, n, r, line.key);
    LineOf(whole, all, reducef, line);
    LineOf(out, Part(all, hash, n, r), reducef, line);
  }
}
