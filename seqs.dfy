/** Sequence helpers: flattening, bounded-deque behaviour and counting. */
module Seqs {

  /** An element of a Python `bytes` value. */
  type byte = b: int | 0 <= b < 256

  /** `b"".join(parts)` or `"".join(parts)`: the parts laid end to end. */
  function Concat<T>(parts: seq<seq<T>>): (r: seq<T>)
  {
    if parts == [] then [] else parts[0] + Concat(parts[1..])
  }

  lemma {:induction false} ConcatAppend<T>(a: seq<seq<T>>, b: seq<seq<T>>)
    ensures Concat(a + b) == Concat(a) + Concat(b)
  {
    if a == [] {
      assert a + b == b;
    } else {
      assert (a + b)[1..] == a[1..] + b;
      ConcatAppend(a[1..], b);
    }
  }

  lemma ConcatSingle<T>(x: seq<T>)
    ensures Concat([x]) == x
  {
    assert [x][1..] == [];
  }

  lemma AppendAssoc<T>(a: seq<T>, b: seq<T>, c: seq<T>)
    ensures a + (b + c) == (a + b) + c
  {
  }

  /** The last `n` elements of `s` (all of `s` when it is shorter). */
  function LastN<T>(s: seq<T>, n: nat): (r: seq<T>)
    ensures |r| == if |s| <= n then |s| else n
    ensures r == s[|s| - |r|..]
  {
    if |s| <= n then s else s[|s| - n..]
  }

  /** `deque.append(x)` on a deque created with `maxlen=n`: the oldest element is evicted once
      the deque is full. The deque content is kept oldest-first. */
  function PushBounded<T>(d: seq<T>, x: T, n: nat): (r: seq<T>)
  {
    LastN(d + [x], n)
  }

  /** Pushing onto a bounded deque that holds the last `n` elements of `s` gives the last `n`
      elements of `s + [x]`. */
  lemma PushBoundedLastN<T>(s: seq<T>, x: T, n: nat)
    ensures PushBounded(LastN(s, n), x, n) == LastN(s + [x], n)
  {
    var d := LastN(s, n);
    var full := s + [x];
    var r := PushBounded(d, x, n);
    assert |r| == |LastN(full, n)|;
    forall i | 0 <= i < |r| ensures r[i] == LastN(full, n)[i] {
    }
  }

  /** The elements satisfying `p`, in order. */
  function Filter<T>(s: seq<T>, p: T -> bool): (r: seq<T>)
    ensures |r| <= |s|
  {
    if s == [] then [] else (if p(s[0]) then [s[0]] else []) + Filter(s[1..], p)
  }

  lemma {:induction false} FilterAppend<T>(a: seq<T>, b: seq<T>, p: T -> bool)
    ensures Filter(a + b, p) == Filter(a, p) + Filter(b, p)
  {
    if a == [] {
      assert a + b == b;
    } else {
      var head := if p(a[0]) then [a[0]] else [];
      assert (a + b)[0] == a[0];
      assert (a + b)[1..] == a[1..] + b;
      FilterAppend(a[1..], b, p);
      calc {
        Filter(a + b, p);
        head + Filter(a[1..] + b, p);
        head + (Filter(a[1..], p) + Filter(b, p));
        (head + Filter(a[1..], p)) + Filter(b, p);
      }
    }
  }
}
