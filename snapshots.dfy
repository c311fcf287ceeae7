/** A Python dict from facility name to record. Python dicts keep insertion
    order, and both the sweep and the JSON cache preserve it, so a snapshot is
    a sequence of (name, record) pairs whose names are distinct. */
module Snapshots {
  import opened Wrappers

  type Snapshot<R> = seq<(string, R)>

  function Names<R>(d: Snapshot<R>): (ns: seq<string>)
    ensures |ns| == |d|
    ensures forall i :: 0 <= i < |d| ==> ns[i] == d[i].0
  {
    if d == [] then [] else [d[0].0] + Names(d[1..])
  }

  predicate Distinct(ns: seq<string>) {
    forall i, j :: 0 <= i < j < |ns| ==> ns[i] != ns[j]
  }

  /** Names that strictly increase under some key are distinct. */
  lemma IncreasingDistinct(ns: seq<string>, key: string -> int)
    requires forall i :: 0 <= i < |ns| - 1 ==> key(ns[i]) < key(ns[i + 1])
    ensures Distinct(ns)
  {
    forall i, j | 0 <= i < j < |ns| ensures ns[i] != ns[j] {
      IncreasingFar(ns, key, i, j);
    }
  }

  lemma {:induction false} IncreasingFar(ns: seq<string>, key: string -> int, i: nat, j: nat)
    requires forall m :: 0 <= m < |ns| - 1 ==> key(ns[m]) < key(ns[m + 1])
    requires i < j < |ns|
    ensures key(ns[i]) < key(ns[j])
    decreases j - i
  {
    if i + 1 < j {
      IncreasingFar(ns, key, i + 1, j);
    }
  }

  /** `d[k]`, or None when k is not a key. */
  function Lookup<R>(d: Snapshot<R>, k: string): (r: Option<R>)
    ensures r.Some? <==> k in Names(d)
  {
    if d == [] then None
    else if d[0].0 == k then Some(d[0].1)
    else Lookup(d[1..], k)
  }

  /** `d[k] = v`: replaces the value of an existing key in place, or appends a new key. */
  function Put<R>(d: Snapshot<R>, k: string, v: R): (r: Snapshot<R>)
    ensures k !in Names(d) ==> r == d + [(k, v)]
    ensures k in Names(d) ==> Names(r) == Names(d)
  {
    if d == [] then [(k, v)]
    else if d[0].0 == k then [(k, v)] + d[1..]
    else [d[0]] + Put(d[1..], k, v)
  }

  /** Assignment keeps the keys distinct. */
  lemma PutDistinct<R>(d: Snapshot<R>, k: string, v: R)
    requires Distinct(Names(d))
    ensures Distinct(Names(Put(d, k, v)))
  {
    if k !in Names(d) {
      var r := Put(d, k, v);
      assert Names(r) == Names(d) + [k];
    }
  }

  /** After `d[k] = v`, `d[k]` is v and every other key keeps its value. */
  lemma {:induction false} LookupPut<R>(d: Snapshot<R>, k: string, v: R, k': string)
    ensures Lookup(Put(d, k, v), k') == if k' == k then Some(v) else Lookup(d, k')
  {
    if d != [] && d[0].0 != k {
      LookupPut(d[1..], k, v, k');
      assert Put(d, k, v)[1..] == Put(d[1..], k, v);
    }
  }
}
