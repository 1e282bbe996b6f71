/** Definitions shared by every model: an optional value, bytes, and sums over sequences. */
module Base {

  datatype Option<+T> = None | Some(value: T)

  /** One octet of a message or of a TCP stream. */
  newtype Byte = x: int | 0 <= x < 256

  /** The number of values of a uint32_t. */
  const TWO_32: int := 0x1_0000_0000

  /** The index after i in a cycle. */
  function NextIn<T>(c: seq<T>, i: nat): nat
    requires i < |c|
  {
    if i + 1 < |c| then i + 1 else 0
  }

  function Sum(s: seq<nat>): nat {
    if s == [] then 0 else Sum(s[..|s| - 1]) + s[|s| - 1]
  }

  lemma {:induction false} SumUpdate(s: seq<nat>, i: nat, x: nat)
    requires i < |s|
    ensures Sum(s[i := x]) == Sum(s) - s[i] + x
  {
    var n := |s| - 1;
    if i == n {
      assert s[i := x][..n] == s[..n];
    } else {
      SumUpdate(s[..n], i, x);
      assert s[i := x][..n] == s[..n][i := x];
    }
  }

  lemma SumAppend(s: seq<nat>, x: nat)
    ensures Sum(s + [x]) == Sum(s) + x
  {
    assert (s + [x])[..|s|] == s;
  }
}
