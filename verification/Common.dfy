/** Small datatypes shared by every module. */
module Common {
  datatype Option<+T> = None | Some(value: T)

  datatype Result<+T, +E> = Ok(value: T) | Err(error: E)

  /** out are the elements of s at the places idx, in the order of s. */
  ghost predicate Picks<T>(s: seq<T>, out: seq<T>, idx: seq<nat>) {
    && |out| == |idx|
    && (forall j, k | 0 <= j < k < |idx| :: idx[j] < idx[k])
    && (forall j | 0 <= j < |idx| :: idx[j] < |s| && out[j] == s[idx[j]])
  }

  /** The places with one more at the end, or without. */
  function Placed(idx: seq<nat>, n: nat, taken: bool): seq<nat> {
    if taken then idx + [n] else idx
  }

  lemma PlacedHas(idx: seq<nat>, n: nat, taken: bool)
    ensures forall i: nat {:trigger i in Placed(idx, n, taken)} :: i in Placed(idx, n, taken) <==> i in idx || (taken && i == n)
  {
  }

  /** One more element, left out or taken. */
  lemma PicksMore<T>(s: seq<T>, out: seq<T>, idx: seq<nat>, x: T, taken: bool)
    requires Picks(s, out, idx)
    ensures Picks(s + [x], out + (if taken then [x] else []), Placed(idx, |s|, taken))
  {
    if taken {
      assert forall j | 0 <= j < |idx| :: (s + [x])[idx[j]] == s[idx[j]];
    } else {
      assert out + [] == out;
    }
  }

  lemma BackTogether<T>(s: seq<T>)
    requires s != []
    ensures s[..|s| - 1] + [s[|s| - 1]] == s
  {
  }
}
