/** The two shapes in which the gateway's optional values and raised errors appear. */
module Wrappers {
  datatype Option<+T> = None | Some(value: T) {
    predicate IsFailure() {
      None?
    }

    function PropagateFailure<U>(): Option<U>
      requires None?
    {
      None
    }

    function Extract(): T
      requires Some?
    {
      value
    }
  }

  datatype Result<+R, +E> = Success(value: R) | Failure(error: E)

  /** Python's `dict.get(key)`. */
  function Lookup<K, V>(m: map<K, V>, k: K): Option<V> {
    if k in m then Some(m[k]) else None
  }

  function Max(a: int, b: int): int {
    if a < b then b else a
  }

  // ----- A list without one of its keys -----

  function Without(order: seq<string>, key: string): seq<string> {
    if order == [] then []
    else if order[0] == key then Without(order[1..], key)
    else [order[0]] + Without(order[1..], key)
  }

  /** Where the keys that stay stood before: their positions increase. */
  lemma {:induction false} WithoutPositions(order: seq<string>, key: string) returns (from: seq<nat>)
    ensures var r := Without(order, key);
            && |from| == |r|
            && (forall i | 0 <= i < |r| :: from[i] < |order| && r[i] == order[from[i]] && r[i] != key)
            && (forall i, j | 0 <= i < j < |r| :: from[i] < from[j])
  {
    from := [];
    if order != [] {
      var rest := WithoutPositions(order[1..], key);
      var shifted := seq(|rest|, i requires 0 <= i < |rest| => rest[i] + 1);
      from := if order[0] == key then shifted else [0] + shifted;
    }
  }

  lemma {:induction false} WithoutKeepsOthers(order: seq<string>, key: string)
    ensures forall k | k in order && k != key :: k in Without(order, key)
  {
    if order != [] {
      WithoutKeepsOthers(order[1..], key);
      forall k | k in order && k != key
        ensures k in Without(order, key)
      {
        assert k == order[0] || k in order[1..];
      }
    }
  }

  lemma {:induction false} WithoutShorter(order: seq<string>, key: string)
    ensures |Without(order, key)| <= |order|
    ensures key in order ==> |Without(order, key)| < |order|
  {
    if order != [] {
      WithoutShorter(order[1..], key);
    }
  }

  /** Every other key stays as often as it stood there. */
  lemma {:induction false} WithoutCounts(order: seq<string>, key: string)
    ensures multiset(Without(order, key)) == multiset(order)[key := 0]
  {
    if order != [] {
      WithoutCounts(order[1..], key);
      assert order == [order[0]] + order[1..];
    }
  }
}
