/** Python's `dict(pairs)` and repeated `d[k] = v` over a sequence: the
    entries are computed in order, the first one that raises stops the whole
    computation, and a later entry for a key replaces an earlier one. */
module Dict {
  import opened Common

  /** The dictionary built from the entries of `xs`, in order. */
  function FromPairs<T, V>(xs: seq<T>, entry: T -> Result<(string, V)>): Result<map<string, V>>
    decreases |xs|
  {
    if xs == [] then Success(map[])
    else
      var m :- FromPairs(xs[..|xs| - 1], entry);
      var kv :- entry(xs[|xs| - 1]);
      Success(m[kv.0 := kv.1])
  }

  /** The index of the last element of `xs` whose entry has key `k`, or -1. */
  function LastIndexOf<T, V>(xs: seq<T>, entry: T -> Result<(string, V)>, k: string): (i: int)
    ensures -1 <= i < |xs|
    ensures i >= 0 ==> entry(xs[i]).Success? && entry(xs[i]).value.0 == k
    decreases |xs|
  {
    if xs == [] then -1
    else if entry(xs[|xs| - 1]).Success? && entry(xs[|xs| - 1]).value.0 == k then |xs| - 1
    else LastIndexOf(xs[..|xs| - 1], entry, k)
  }

  /** The dictionary is built exactly when every entry can be computed. */
  lemma {:induction false} FromPairsSucceeds<T, V>(xs: seq<T>, entry: T -> Result<(string, V)>)
    ensures FromPairs(xs, entry).Success? <==> forall i :: 0 <= i < |xs| ==> entry(xs[i]).Success?
    decreases |xs|
  {
    if xs != [] {
      var init := xs[..|xs| - 1];
      FromPairsSucceeds(init, entry);
      assert forall i :: 0 <= i < |init| ==> init[i] == xs[i];
    }
  }

  /** A key is in the dictionary exactly when some entry has it, and its
      value is the one of the last such entry. */
  lemma {:induction false} FromPairsLastWins<T, V>(xs: seq<T>, entry: T -> Result<(string, V)>, k: string)
    requires FromPairs(xs, entry).Success?
    ensures k in FromPairs(xs, entry).value <==> LastIndexOf(xs, entry, k) >= 0
    ensures k in FromPairs(xs, entry).value ==>
              FromPairs(xs, entry).value[k] == entry(xs[LastIndexOf(xs, entry, k)]).value.1
    decreases |xs|
  {
    if xs != [] {
      var init := xs[..|xs| - 1];
      FromPairsLastWins(init, entry, k);
      var i := LastIndexOf(init, entry, k);
      if i >= 0 {
        assert init[i] == xs[i];
      }
    }
  }

  /** Once a prefix of `xs` fails, the whole computation fails with the same error. */
  lemma {:induction false} FromPairsPrefixFailure<T, V>(xs: seq<T>, entry: T -> Result<(string, V)>, n: nat)
    requires n <= |xs|
    requires FromPairs(xs[..n], entry).Failure?
    ensures FromPairs(xs, entry) == FromPairs(xs[..n], entry)
    decreases |xs|
  {
    if n < |xs| {
      var init := xs[..|xs| - 1];
      assert init[..n] == xs[..n];
      FromPairsPrefixFailure(init, entry, n);
    } else {
      assert xs[..n] == xs;
    }
  }
}
