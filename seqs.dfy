/** Searching and splitting sequences: the scans the codecs and parsers are specified with. */
module Seqs {

  /** Position of the first `x` in `s`, or `|s|` when `x` does not occur. */
  function IndexOf<T(==)>(s: seq<T>, x: T): (i: nat)
    ensures i <= |s|
    ensures x !in s[..i]
    ensures i < |s| ==> s[i] == x
    ensures i == |s| <==> x !in s
  {
    if |s| == 0 then 0
    else if s[0] == x then 0
    else
      var j := IndexOf(s[1..], x);
      assert s[..1 + j] == [s[0]] + s[1..][..j];
      1 + j
  }

  /** The three facts above pin the index down. */
  lemma IndexOfUnique<T>(s: seq<T>, x: T, i: nat)
    requires i <= |s| && x !in s[..i] && (i < |s| ==> s[i] == x)
    ensures IndexOf(s, x) == i
  {
  }

  /** When `a` already holds `x`, the first `x` of `a + [y] + b` lies inside `a`, and cutting there cuts `a`. */
  lemma IndexOfInPrefix<T>(a: seq<T>, y: T, b: seq<T>, x: T)
    requires x in a
    ensures var k := IndexOf(a, x);
            && IndexOf(a + [y] + b, x) == k
            && (a + [y] + b)[..k] == a[..k]
            && (a + [y] + b)[k + 1..] == a[k + 1..] + [y] + b
  {
    var k := IndexOf(a, x);
    var s := a + [y] + b;
    assert s[..k] == a[..k];
    IndexOfUnique(s, x, k);
    assert s[k + 1..] == a[k + 1..] + [y] + b;
  }

  /** The first `x` of `a + [x] + b` is the one after `a` when `a` has none. */
  lemma IndexOfFirst<T>(a: seq<T>, x: T, b: seq<T>)
    requires x !in a
    ensures IndexOf(a + [x] + b, x) == |a|
  {
    var s := a + [x] + b;
    assert s[..|a|] == a && s[|a|] == x;
    IndexOfUnique(s, x, |a|);
  }

  /** Appending one element does not move an earlier first occurrence. */
  lemma IndexOfSnoc<T>(s: seq<T>, c: T, x: T)
    ensures IndexOf(s + [c], x) == if x in s then IndexOf(s, x) else if c == x then |s| else |s| + 1
  {
    var t := s + [c];
    assert t[..|s|] == s;
    if x in s {
      var i := IndexOf(s, x);
      assert t[..i] == s[..i];
      IndexOfUnique(t, x, i);
    } else if c == x {
      IndexOfUnique(t, x, |s|);
    } else {
      assert t[..|t|] == t;
      IndexOfUnique(t, x, |t|);
    }
  }

  /** `s` with its first `x` removed (unchanged when there is none). */
  function RemoveFirst<T(==)>(s: seq<T>, x: T): (r: seq<T>)
    ensures x in s ==> |r| == |s| - 1
    ensures x !in s ==> r == s
  {
    var j := IndexOf(s, x);
    if j < |s| then s[..j] + s[j + 1..] else s
  }

  /** Appending one element after the first `x` keeps it; appending the first `x` itself drops it. */
  lemma RemoveFirstSnoc<T>(s: seq<T>, c: T, x: T)
    ensures RemoveFirst(s + [c], x) == if x in s then RemoveFirst(s, x) + [c] else if c == x then s else s + [c]
  {
    IndexOfSnoc(s, c, x);
    if x in s {
      var j := IndexOf(s, x);
      SnocAt(s, c, j);
      assert (s[..j] + s[j + 1..]) + [c] == s[..j] + (s[j + 1..] + [c]);
    } else if c == x {
      Around(s, c, []);
    }
  }

  /** Number of occurrences of `x` in `s`. */
  function Count<T(==)>(s: seq<T>, x: T): nat
  {
    if |s| == 0 then 0 else (if s[0] == x then 1 else 0) + Count(s[1..], x)
  }

  /** Occurrences of `x` in a concatenation add up. */
  lemma {:induction false} CountAppend<T>(a: seq<T>, b: seq<T>, x: T)
    ensures Count(a + b, x) == Count(a, x) + Count(b, x)
  {
    if |a| == 0 {
      assert a + b == b;
    } else {
      assert (a + b)[1..] == a[1..] + b;
      CountAppend(a[1..], b, x);
    }
  }

  /** No occurrence at all. */
  lemma {:induction false} CountZero<T>(s: seq<T>, x: T)
    ensures Count(s, x) == 0 <==> x !in s
  {
    if |s| > 0 {
      CountZero(s[1..], x);
      assert s == [s[0]] + s[1..];
    }
  }

  /**
    The pieces of `s` between occurrences of `sep`, as Go's `strings.Split`
    with a one-character separator: always at least one piece, `[""]` for `""`.
   */
  function Split<T(==)>(s: seq<T>, sep: T): (parts: seq<seq<T>>)
    ensures |parts| >= 1
    ensures parts[0] == s[..IndexOf(s, sep)]
    ensures forall k :: 0 <= k < |parts| ==> sep !in parts[k]
    decreases |s|
  {
    var i := IndexOf(s, sep);
    if i == |s| then [s] else [s[..i]] + Split(s[i + 1..], sep)
  }

  /** One more piece than there are separators. */
  lemma {:induction false} SplitCount<T>(s: seq<T>, sep: T)
    ensures |Split(s, sep)| == Count(s, sep) + 1
    decreases |s|
  {
    var i := IndexOf(s, sep);
    if i == |s| {
      CountZero(s, sep);
    } else {
      SplitCount(s[i + 1..], sep);
      SplitAt(s, i);
      CountAppend(s[..i] + [sep], s[i + 1..], sep);
      CountAppend(s[..i], [sep], sep);
      CountZero(s[..i], sep);
      assert Count([sep], sep) == 1 by {
        assert [sep][1..] == [];
      }
    }
  }

  /** Splitting at a first separator: the text before it, then the pieces of the rest. */
  lemma SplitFirst<T>(a: seq<T>, sep: T, b: seq<T>)
    requires sep !in a
    ensures Split(a + [sep] + b, sep) == [a] + Split(b, sep)
  {
    var s := a + [sep] + b;
    IndexOfFirst(a, sep, b);
    assert s[..|a|] == a;
    assert s[|a| + 1..] == b;
  }

  /** One separator between two pieces without one. */
  lemma SplitTwo<T>(a: seq<T>, sep: T, b: seq<T>)
    requires sep !in a && sep !in b
    ensures Split(a + [sep] + b, sep) == [a, b]
  {
    SplitFirst(a, sep, b);
    SplitNone(b, sep);
  }

  /** Without a separator there is one piece, the whole sequence. */
  lemma SplitNone<T>(s: seq<T>, sep: T)
    requires sep !in s
    ensures Split(s, sep) == [s]
  {
  }

  /** A sequence around one of its positions. */
  lemma SplitAt<T>(s: seq<T>, k: nat)
    requires k < |s|
    ensures s == s[..k] + [s[k]] + s[k + 1..]
    ensures forall x :: x in s <==> x in s[..k] || x == s[k] || x in s[k + 1..]
  {
    assert s == s[..k] + [s[k]] + s[k + 1..];
  }

  /** Appending leaves everything up to an existing position as it was and extends what follows it. */
  lemma SnocAt<T>(s: seq<T>, c: T, k: nat)
    requires k < |s|
    ensures (s + [c])[k] == s[k] && (s + [c])[..k] == s[..k] && (s + [c])[k + 1..] == s[k + 1..] + [c]
  {
  }

  /** Three single elements between two sequences, written either way. */
  lemma ThreeBetween<T>(a: seq<T>, x: T, y: T, z: T, b: seq<T>)
    ensures a + [x] + [y] + [z] + b == a + [x, y, z] + b
  {
  }

  /** The parts of `a + [x] + b`, by position. */
  lemma Around<T>(a: seq<T>, x: T, b: seq<T>)
    ensures var s := a + [x] + b;
            |s| == |a| + 1 + |b| && s[..|a|] == a && s[|a|] == x && s[|a| + 1..] == b
  {
    var s := a + [x] + b;
    assert s[..|a|] == a;
    assert s[|a| + 1..] == b;
  }

  /** `x` occurs before position `k` exactly when its first occurrence does. */
  lemma InPrefix<T>(s: seq<T>, x: T, k: nat)
    requires k <= |s|
    ensures x in s[..k] <==> IndexOf(s, x) < k
  {
    var i := IndexOf(s, x);
    if i < k {
      assert s[..k][i] == x;
    } else {
      assert forall j :: 0 <= j < k ==> s[..k][j] == s[..i][j];
    }
  }

  /** No element occurs twice. */
  predicate Distinct<T(==)>(s: seq<T>)
  {
    forall i, j :: 0 <= i < j < |s| ==> s[i] != s[j]
  }

  /** Appending a new element keeps the elements distinct. */
  lemma DistinctSnoc<T>(s: seq<T>, x: T)
    requires Distinct(s) && x !in s
    ensures Distinct(s + [x])
  {
    var t := s + [x];
    forall i, j | 0 <= i < j < |t|
      ensures t[i] != t[j]
    {
      if j == |s| {
        assert t[i] == s[i];
      }
    }
  }
}
