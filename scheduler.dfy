/**
  The `workers` part of a Dask scheduler snapshot (`scheduler_info["workers"]`):
  a dictionary from worker address to that worker's description, of which only
  the thread count `nthreads` is read.

  A Python dictionary iterates in insertion order and never holds a key twice,
  so it is modelled as a sequence of entries with pairwise distinct ids.  The
  map it denotes is `ToMap`; `SumThreads` is the in-order sum that
  `sum(d["nthreads"] for d in workers.values())` computes, and `MapThreads` is
  an order-free reference sum over the map.
 */
module Scheduler {

  type WorkerId = string

  datatype WorkerInfo = WorkerInfo(nthreads: int)

  datatype Entry = Entry(id: WorkerId, info: WorkerInfo)

  /** No worker id occurs twice: the key invariant of a dictionary. */
  predicate DistinctKeys(w: seq<Entry>) {
    forall i, j :: 0 <= i < j < |w| ==> w[i].id != w[j].id
  }

  /** The contents of `scheduler_info["workers"]`, in iteration order. */
  type WorkerTable = w: seq<Entry> | DistinctKeys(w) witness []

  /** The worker ids present in `w`. */
  function Ids(w: seq<Entry>): set<WorkerId> {
    set e | e in w :: e.id
  }

  /** The dictionary denoted by the entries `w`. */
  function ToMap(w: seq<Entry>): map<WorkerId, WorkerInfo> {
    if w == [] then map[] else ToMap(w[1..])[w[0].id := w[0].info]
  }

  /** The dictionary's keys are exactly the ids of the entries. */
  lemma {:induction false} ToMapKeys(w: seq<Entry>)
    ensures ToMap(w).Keys == Ids(w)
  {
    if w != [] {
      ToMapKeys(w[1..]);
      assert w == [w[0]] + w[1..];
      assert Ids(w) == {w[0].id} + Ids(w[1..]);
    }
  }

  /** Looking a worker's id up in the dictionary gives that worker's entry. */
  lemma {:induction false} ToMapLookup(w: WorkerTable, i: nat)
    requires i < |w|
    ensures w[i].id in ToMap(w) && ToMap(w)[w[i].id] == w[i].info
  {
    if i > 0 {
      var rest: WorkerTable := w[1..];
      ToMapLookup(rest, i - 1);
      assert rest[i - 1] == w[i];
    }
  }

  /** The sum of `nthreads` over the entries, in iteration order. */
  function SumThreads(w: seq<Entry>): (total: int)
    ensures (forall i :: 0 <= i < |w| ==> w[i].info.nthreads >= 0) ==> total >= 0
  {
    if w == [] then 0 else w[0].info.nthreads + SumThreads(w[1..])
  }

  /** Reference sum of `nthreads` over a dictionary, independent of any order. */
  ghost function MapThreads(m: map<WorkerId, WorkerInfo>): int
    decreases |m|
  {
    if m == map[] then 0
    else
      var k :| k in m;
      assert |m - {k}| == |m| - 1;
      m[k].nthreads + MapThreads(m - {k})
  }

  /** Any worker may be taken out first: `MapThreads` does not depend on which key it picks. */
  lemma {:induction false} MapThreadsRemove(m: map<WorkerId, WorkerInfo>, k: WorkerId)
    requires k in m
    ensures MapThreads(m) == m[k].nthreads + MapThreads(m - {k})
    decreases |m|
  {
    var j :| j in m && MapThreads(m) == m[j].nthreads + MapThreads(m - {j});
    if j != k {
      assert |m - {j}| == |m| - 1;
      assert |m - {k}| == |m| - 1;
      MapThreadsRemove(m - {j}, k);
      MapThreadsRemove(m - {k}, j);
      assert (m - {j}) - {k} == (m - {k}) - {j};
    }
  }

  /** The first worker's id occurs nowhere after it. */
  lemma FirstIdIsFresh(w: WorkerTable)
    requires w != []
    ensures w[0].id !in Ids(w[1..])
  {
  }

  /** A table has exactly as many workers as its dictionary has keys. */
  lemma {:induction false} CountIsMapSize(w: WorkerTable)
    ensures |ToMap(w)| == |w|
  {
    if w != [] {
      var rest: WorkerTable := w[1..];
      CountIsMapSize(rest);
      FirstIdIsFresh(w);
      ToMapKeys(rest);
    }
  }

  /** The in-order sum agrees with the order-free sum over the dictionary. */
  lemma {:induction false} SumThreadsIsMapThreads(w: WorkerTable)
    ensures SumThreads(w) == MapThreads(ToMap(w))
  {
    if w != [] {
      var rest: WorkerTable := w[1..];
      SumThreadsIsMapThreads(rest);
      FirstIdIsFresh(w);
      ToMapKeys(rest);
      var before := ToMap(rest);
      var m := before[w[0].id := w[0].info];
      assert m == ToMap(w);
      MapThreadsRemove(m, w[0].id);
      assert m - {w[0].id} == before;
    }
  }

  /** Appending one entry adds its thread count to the in-order sum. */
  lemma {:induction false} SumThreadsAppend(w: seq<Entry>, e: Entry)
    ensures SumThreads(w + [e]) == SumThreads(w) + e.info.nthreads
  {
    if w != [] {
      assert (w + [e])[1..] == w[1..] + [e];
      SumThreadsAppend(w[1..], e);
    }
  }
}
