/** Machine integers, options and the sequence theory shared by every module. */
module Basics {
  datatype Option<+T> = None | Some(value: T)

  type byte = x: int | 0 <= x < 0x100
  const TWO32: int := 0x1_0000_0000
  type u32 = x: int | 0 <= x < TWO32

  const MIN_SUPPORTED_VERSION := 1
  const PROTOCOL_VERSION := 6

  predicate Supported(v: nat) { MIN_SUPPORTED_VERSION <= v <= PROTOCOL_VERSION }

  function Wrap32(n: nat): u32 { n % TWO32 }

  function Min(a: int, b: int): int { if a < b then a else b }

  function Max(a: int, b: int): int { if a < b then b else a }

  function Abs(a: int): nat { if a < 0 then -a else a }

  predicate Digit(c: char) { '0' <= c <= '9' }

  /** Decimal digits. */
  function Dec(n: nat): (s: string)
    ensures s != "" && forall c | c in s :: Digit(c)
  {
    if n < 10 then [('0' as int + n) as char] else Dec(n / 10) + [('0' as int + n % 10) as char]
  }

  function Front<T>(s: seq<T>): seq<T>
    requires s != []
  {
    s[..|s| - 1]
  }

  function Last<T>(s: seq<T>): T
    requires s != []
  {
    s[|s| - 1]
  }

  /** Position of the last `c`, or -1. */
  function LastIndexOf(s: string, c: char): (i: int)
    ensures -1 <= i < |s| && (i >= 0 ==> s[i] == c)
    ensures forall k | i < k < |s| :: s[k] != c
  {
    if s == "" then -1 else if Last(s) == c then |s| - 1 else LastIndexOf(Front(s), c)
  }

  /** The elements of `s` that satisfy `p`, in order. */
  function Filter<T>(s: seq<T>, p: T -> bool): seq<T>
  {
    if s == [] then []
    else Filter(Front(s), p) + if p(Last(s)) then [Last(s)] else []
  }

  lemma {:induction false} FilterAppend<T>(s: seq<T>, t: seq<T>, p: T -> bool)
    ensures Filter(s + t, p) == Filter(s, p) + Filter(t, p)
  {
    if t == [] {
      assert s + t == s;
    } else {
      assert Front(s + t) == s + Front(t);
      FilterAppend(s, Front(t), p);
    }
  }

  lemma FilterOne<T>(x: T, p: T -> bool)
    ensures Filter([x], p) == if p(x) then [x] else []
  {
    assert Front([x]) == [];
    assert Filter<T>([], p) == [];
  }

  /** Taking the head off a queue takes at most one element off its filtered view. */
  lemma FilterHead<T>(s: seq<T>, p: T -> bool)
    requires s != []
    ensures Filter(s, p) == (if p(s[0]) then [s[0]] else []) + Filter(s[1..], p)
  {
    assert s == [s[0]] + s[1..];
    FilterAppend([s[0]], s[1..], p);
    FilterOne(s[0], p);
  }

  lemma FilterSnoc<T>(s: seq<T>, x: T, p: T -> bool)
    ensures Filter(s + [x], p) == Filter(s, p) + if p(x) then [x] else []
  {
    FilterAppend(s, [x], p);
    FilterOne(x, p);
  }

  lemma {:induction false} FilterAll<T>(s: seq<T>, p: T -> bool)
    requires forall x | x in s :: p(x)
    ensures Filter(s, p) == s
  {
    if s != [] {
      assert Last(s) in s;
      FilterAll(Front(s), p);
    }
  }

  lemma {:induction false} FilterNone<T>(s: seq<T>, p: T -> bool)
    requires forall x | x in s :: !p(x)
    ensures Filter(s, p) == []
  {
    if s != [] {
      assert Last(s) in s;
      FilterNone(Front(s), p);
    }
  }

  /** `Filter` respects the prefix order. */
  lemma FilterPrefix<T>(s: seq<T>, t: seq<T>, p: T -> bool)
    requires s <= t
    ensures Filter(s, p) <= Filter(t, p)
  {
    assert t == s + t[|s|..];
    FilterAppend(s, t[|s|..], p);
  }

  /** `a` can be obtained from `b` by deleting elements. */
  ghost predicate Subseq<T>(a: seq<T>, b: seq<T>)
    decreases |b|
  {
    a == [] ||
    (b != [] &&
     (Subseq(a, Front(b)) || (Last(a) == Last(b) && Subseq(Front(a), Front(b)))))
  }

  lemma {:induction false} SubseqRefl<T>(a: seq<T>)
    ensures Subseq(a, a)
  {
    if a != [] {
      SubseqRefl(Front(a));
    }
  }

  lemma SubseqSnoc<T>(a: seq<T>, b: seq<T>, x: T)
    requires Subseq(a, b)
    ensures Subseq(a + [x], b + [x]) && Subseq(a, b + [x])
  {
    assert Front(a + [x]) == a && Front(b + [x]) == b;
  }

  lemma {:induction false} SubseqExtend<T>(a: seq<T>, b: seq<T>, p: seq<T>)
    requires Subseq(a, b)
    ensures Subseq(a + p, b + p)
  {
    hide Subseq;
    if p == [] {
      assert a + p == a && b + p == b;
    } else {
      SubseqExtend(a, b, Front(p));
      SubseqSnoc(a + Front(p), b + Front(p), Last(p));
      assert a + p == a + Front(p) + [Last(p)] && b + p == b + Front(p) + [Last(p)];
    }
  }

  /** Deleting one more element, anywhere, keeps a subsequence a subsequence. */
  lemma {:induction false} SubseqDrop<T>(p: seq<T>, x: T, q: seq<T>, b: seq<T>)
    requires Subseq(p + [x] + q, b)
    ensures Subseq(p + q, b)
    decreases |b|
  {
    var a := p + [x] + q;
    if Subseq(a, Front(b)) {
      SubseqDrop(p, x, q, Front(b));
    } else if q == [] {
      assert Front(a) == p && p + q == p;
    } else {
      assert Front(a) == p + [x] + Front(q);
      SubseqDrop(p, x, Front(q), Front(b));
      assert Front(p + q) == p + Front(q);
      assert Last(p + q) == Last(a) == Last(b);
    }
  }

  /** Deleting a suffix keeps a subsequence a subsequence. */
  lemma {:induction false} SubseqPrefix<T>(p: seq<T>, q: seq<T>, b: seq<T>)
    requires Subseq(p + q, b)
    ensures Subseq(p, b)
    decreases |q|
  {
    if q == [] {
      assert p + q == p;
    } else {
      assert p + q == p + Front(q) + [Last(q)] + [];
      SubseqDrop(p + Front(q), Last(q), [], b);
      assert p + Front(q) + [] == p + Front(q);
      SubseqPrefix(p, Front(q), b);
    }
  }

  /** The head of a queue moves on; what is behind it stays behind it. */
  lemma SubseqTake<T>(a: seq<T>, q: seq<T>, b: seq<T>)
    requires q != [] && Subseq(a + q, b)
    ensures Subseq(a + [q[0]] + q[1..], b) && Subseq(a + [q[0]], b)
  {
    assert a + [q[0]] + q[1..] == a + q;
    SubseqPrefix(a + [q[0]], q[1..], b);
  }
}
