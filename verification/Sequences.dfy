/** Vocabulary shared by the models: options, and the order-preserving subsequence relation. */
module Sequences {

  datatype Option<+T> = None | Some(value: T)

  /** `a` is obtained from `b` by deleting elements: order and multiplicity are kept, nothing is invented. */
  ghost predicate IsSubseq<T>(a: seq<T>, b: seq<T>)
    decreases |b|
  {
    if a == [] then true
    else if b == [] then false
    else (a[0] == b[0] && IsSubseq(a[1..], b[1..])) || IsSubseq(a, b[1..])
  }

  lemma SubseqRefl<T>(a: seq<T>)
    ensures IsSubseq(a, a)
  {
  }

  lemma {:induction false} SubseqTrans<T>(a: seq<T>, b: seq<T>, c: seq<T>)
    requires IsSubseq(a, b) && IsSubseq(b, c)
    ensures IsSubseq(a, c)
    decreases |c|
  {
    if a == [] || b == [] {
    } else if b[0] == c[0] && IsSubseq(b[1..], c[1..]) {
      if a[0] == b[0] && IsSubseq(a[1..], b[1..]) {
        SubseqTrans(a[1..], b[1..], c[1..]);
      } else {
        SubseqTrans(a, b[1..], c[1..]);
      }
    } else {
      SubseqTrans(a, b, c[1..]);
    }
  }

  lemma {:induction false} SubseqConcat<T>(a: seq<T>, b: seq<T>, c: seq<T>, d: seq<T>)
    requires IsSubseq(a, b) && IsSubseq(c, d)
    ensures IsSubseq(a + c, b + d)
    decreases |b|
  {
    if b == [] {
      assert a + c == c && b + d == d;
    } else {
      assert (b + d)[0] == b[0] && (b + d)[1..] == b[1..] + d;
      if a != [] && a[0] == b[0] && IsSubseq(a[1..], b[1..]) {
        SubseqConcat(a[1..], b[1..], c, d);
        assert (a + c)[0] == a[0] && (a + c)[1..] == a[1..] + c;
      } else {
        SubseqConcat(a, b[1..], c, d);
      }
    }
  }

  lemma {:induction false} SubseqLength<T>(a: seq<T>, b: seq<T>)
    requires IsSubseq(a, b)
    ensures |a| <= |b|
    ensures |a| == |b| ==> a == b
    decreases |b|
  {
    if a == [] || b == [] {
    } else if a[0] == b[0] && IsSubseq(a[1..], b[1..]) {
      SubseqLength(a[1..], b[1..]);
    } else {
      SubseqLength(a, b[1..]);
    }
  }

  /** A suffix and a prefix are subsequences. */
  lemma SubseqSuffix<T>(a: seq<T>, b: seq<T>)
    ensures IsSubseq(b, a + b)
    ensures IsSubseq(a, a + b)
  {
    SubseqRefl(a);
    SubseqRefl(b);
    SubseqConcat([], a, b, b);
    assert [] + b == b;
    SubseqConcat(a, a, [], b);
    assert a + [] == a;
  }

  /** Without its first element, a subsequence fits after the first element. */
  lemma SubseqTail<T>(x: T, a: seq<T>, b: seq<T>)
    requires IsSubseq([x] + a, b)
    ensures b != [] && IsSubseq(a, b[1..])
  {
    assert ([x] + a)[1..] == a;
    if !(x == b[0] && IsSubseq(a, b[1..])) {
      SubseqSuffix([x], a);
      SubseqTrans(a, [x] + a, b[1..]);
    }
  }

  lemma ConcatAssoc<T>(a: seq<T>, b: seq<T>, c: seq<T>)
    ensures (a + b) + c == a + (b + c)
  {
  }
}
