/** Python list operations the pipeline relies on. */
module Lists {
  /** `xs.insert(k, x)` for `k >= 0`: an index past the end appends. */
  function Insert<T>(xs: seq<T>, k: nat, x: T): (r: seq<T>)
    ensures |r| == |xs| + 1
  {
    if k <= |xs| then xs[..k] + [x] + xs[k..] else xs + [x]
  }

  /** Inserting within the list puts `x` at `k`, keeps what precedes it and
      shifts what follows it one place right. */
  lemma InsertPlaces<T>(xs: seq<T>, k: nat, x: T)
    requires k <= |xs|
    ensures Insert(xs, k, x)[k] == x
    ensures forall i :: 0 <= i < k ==> Insert(xs, k, x)[i] == xs[i]
    ensures forall i :: k <= i < |xs| ==> Insert(xs, k, x)[i + 1] == xs[i]
  {
  }
}
