/** Sequence vocabulary shared by the models: concatenation of pieces, reversal and the two standard searches. */
module Sequences {

  datatype Option<+T> = None | Some(value: T)

  /** The pieces of `parts` joined in order. */
  function Concat<T>(parts: seq<seq<T>>): seq<T> {
    if parts == [] then [] else parts[0] + Concat(parts[1..])
  }

  lemma {:induction false} ConcatAppend<T>(left: seq<seq<T>>, right: seq<seq<T>>)
    ensures Concat(left + right) == Concat(left) + Concat(right)
  {
    if left == [] {
      assert left + right == right;
    } else {
      ConcatAppend(left[1..], right);
      assert (left + right)[1..] == left[1..] + right;
      assert left[0] + (Concat(left[1..]) + Concat(right)) == (left[0] + Concat(left[1..])) + Concat(right);
    }
  }

  lemma ConcatSnoc<T>(parts: seq<seq<T>>, last: seq<T>)
    ensures Concat(parts + [last]) == Concat(parts) + last
  {
    ConcatAppend(parts, [last]);
    assert Concat([last]) == last + Concat([last][1..]);
  }

  lemma ConcatFew<T>(a: seq<T>, b: seq<T>, c: seq<T>, d: seq<T>)
    ensures Concat([a, b]) == a + b && Concat([a, b, c, d]) == a + b + c + d
  {
    ConcatSnoc<T>([], a);
    ConcatSnoc([a], b);
    ConcatSnoc([a, b], c);
    ConcatSnoc([a, b, c], d);
    assert [] + [a] == [a] && [a] + [b] == [a, b] && [a, b] + [c] == [a, b, c] && [a, b, c] + [d] == [a, b, c, d];
  }

  function Reversed<T>(s: seq<T>): seq<T> {
    seq(|s|, k requires 0 <= k < |s| => s[|s| - 1 - k])
  }

  lemma ReversedIs<T>(s: seq<T>, r: seq<T>)
    requires |r| == |s| && forall k | 0 <= k < |s| :: r[k] == s[|s| - 1 - k]
    ensures r == Reversed(s)
  {
  }

  lemma ReversedSnoc<T>(s: seq<T>, last: T)
    ensures Reversed(s + [last]) == [last] + Reversed(s)
  {
    ReversedIs(s + [last], [last] + Reversed(s));
  }

  /** `std::find(s + from, s + to, c) - s`: the first `c` in the range, or its end. */
  function Find(s: string, c: char, from: nat, to: nat): (k: nat)
    requires from <= to <= |s|
    ensures from <= k <= to
    ensures forall j | from <= j < k :: s[j] != c
    ensures k < to ==> s[k] == c
    decreases |s| - from
  {
    if from == to || s[from] == c then from else Find(s, c, from + 1, to)
  }
}
