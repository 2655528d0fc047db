/** Sequence utilities: flattening (`flatMap(x => x)`, string concatenation). */
module Seqs {

  lemma AppendAssoc<T>(a: seq<T>, b: seq<T>, c: seq<T>)
    ensures (a + b) + c == a + (b + c)
  {
  }

  /** The concatenation of the lists in `xss`, in order. */
  function Flatten<T>(xss: seq<seq<T>>): seq<T>
  {
    if |xss| == 0 then [] else xss[0] + Flatten(xss[1..])
  }

  /** The sum of the lengths of the lists in `xss`. */
  function SumLengths<T>(xss: seq<seq<T>>): nat
  {
    if |xss| == 0 then 0 else |xss[0]| + SumLengths(xss[1..])
  }

  lemma {:induction false} FlattenLength<T>(xss: seq<seq<T>>)
    ensures |Flatten(xss)| == SumLengths(xss)
  {
    if |xss| > 0 {
      FlattenLength(xss[1..]);
    }
  }

  lemma {:induction false} FlattenAppend<T>(a: seq<seq<T>>, b: seq<seq<T>>)
    ensures Flatten(a + b) == Flatten(a) + Flatten(b)
  {
    if |a| == 0 {
      assert a + b == b;
    } else {
      assert (a + b)[1..] == a[1..] + b;
      FlattenAppend(a[1..], b);
    }
  }

  /** Appending one list at the end appends its elements at the end. */
  lemma FlattenSnoc<T>(a: seq<seq<T>>, x: seq<T>)
    ensures Flatten(a + [x]) == Flatten(a) + x
  {
    FlattenAppend(a, [x]);
    assert Flatten([x]) == x + Flatten([x][1..]);
  }

  /** Every element of the flattening comes from one of the lists, and vice versa. */
  lemma {:induction false} FlattenMultiset<T>(xss: seq<seq<T>>)
    ensures multiset(Flatten(xss)) == MultisetOfAll(xss)
  {
    if |xss| > 0 {
      FlattenMultiset(xss[1..]);
    }
  }

  function MultisetOfAll<T>(xss: seq<seq<T>>): multiset<T>
  {
    if |xss| == 0 then multiset{} else multiset(xss[0]) + MultisetOfAll(xss[1..])
  }
}
