/**
 * Pieces common to the four causal-delivery engines: the outcome a driver step
 * reports, and the list removal the drain loops use on their pending buffers.
 */
module Engine {

  /**
   * What one receive step of the driver reports (the line it writes to the
   * log): the message was delivered at once, it was buffered, or the id names
   * no message sent so far.
   */
  datatype Status = Delivered | Buffered | UnknownMessage

  /**
   * Python's `list.remove(x)`: drop the first element equal to `x`.  The
   * callers only ever remove an element they have just found in the list.
   */
  function RemoveFirst<T(==)>(s: seq<T>, x: T): (r: seq<T>)
    requires x in s
    ensures |r| == |s| - 1
    ensures multiset(r) == multiset(s) - multiset{x}
  {
    assert s == [s[0]] + s[1..];
    if s[0] == x then s[1..] else [s[0]] + RemoveFirst(s[1..], x)
  }

  /** Cutting index `i` out of a list removes exactly one occurrence of `s[i]` and nothing else. */
  lemma MultisetWithout<T>(s: seq<T>, i: nat)
    requires i < |s|
    ensures multiset(s[..i] + s[i + 1..]) + multiset{s[i]} == multiset(s)
  {
    assert s == s[..i] + [s[i]] + s[i + 1..];
  }

  /** When `x` first occurs at index `j`, removing it is cutting index `j` out. */
  lemma {:induction false} RemoveFirstAt<T>(s: seq<T>, x: T, j: nat)
    requires j < |s| && s[j] == x && x !in s[..j]
    ensures RemoveFirst(s, x) == s[..j] + s[j + 1..]
  {
    if j > 0 {
      assert s[0] == s[..j][0];
      assert s[1..][..j - 1] == s[1..j];
      RemoveFirstAt(s[1..], x, j - 1);
    }
  }
}
