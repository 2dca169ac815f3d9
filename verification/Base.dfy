/** Generic helpers shared by the whole model: an optional value and the
    JavaScript array operations the services are built from (`filter`,
    `findIndex`, `find`), each with the contract the rest of the model relies on. */
module Base {

  datatype Option<+T> = None | Some(value: T)

  /** `sub` is obtained from `s` by deleting elements, the rest keeping their order. */
  predicate IsSubseq<T(==)>(sub: seq<T>, s: seq<T>)
    decreases |s|
  {
    if |sub| == 0 then true
    else if |s| == 0 then false
    else if sub[0] == s[0] then IsSubseq(sub[1..], s[1..])
    else IsSubseq(sub, s[1..])
  }

  predicate Increasing(s: seq<int>)
  {
    forall i, j :: 0 <= i < j < |s| ==> s[i] < s[j]
  }

  /** `Array.prototype.filter`. */
  function Filter<T>(p: T -> bool, s: seq<T>): (r: seq<T>)
    ensures |r| <= |s|
    ensures forall i :: 0 <= i < |r| ==> r[i] in s && p(r[i])
    ensures forall i :: 0 <= i < |s| && p(s[i]) ==> s[i] in r
    ensures IsSubseq(r, s)
  {
    if |s| == 0 then []
    else if p(s[0]) then [s[0]] + Filter(p, s[1..])
    else
      var rest := Filter(p, s[1..]);
      assert |rest| > 0 ==> rest[0] != s[0] by {
        if |rest| > 0 { assert rest[0] in rest; }
      }
      rest
  }

  lemma {:induction false} FilterAppend<T>(p: T -> bool, a: seq<T>, b: seq<T>)
    ensures Filter(p, a + b) == Filter(p, a) + Filter(p, b)
  {
    if |a| == 0 {
      assert a + b == b;
    } else {
      assert (a + b)[1..] == a[1..] + b;
      FilterAppend(p, a[1..], b);
    }
  }

  /** Filtering with a predicate every element satisfies changes nothing. */
  lemma {:induction false} FilterKeepsAll<T>(p: T -> bool, s: seq<T>)
    requires forall i :: 0 <= i < |s| ==> p(s[i])
    ensures Filter(p, s) == s
  {
    if |s| > 0 {
      FilterKeepsAll(p, s[1..]);
    }
  }

  /** Filtering keeps an increasing sequence increasing. */
  lemma {:induction false} FilterIncreasing(p: nat -> bool, s: seq<nat>)
    requires Increasing(s)
    ensures Increasing(Filter(p, s))
  {
    if |s| > 0 {
      FilterIncreasing(p, s[1..]);
      var rest := Filter(p, s[1..]);
      if p(s[0]) {
        var r := [s[0]] + rest;
        assert r == Filter(p, s);
        forall i, j | 0 <= i < j < |r|
          ensures r[i] < r[j]
        {
          if i == 0 {
            assert r[j] == rest[j - 1] && rest[j - 1] in s[1..];
            var k :| 0 <= k < |s| - 1 && s[1..][k] == r[j];
            assert s[k + 1] == r[j];
          } else {
            assert r[i] == rest[i - 1] && r[j] == rest[j - 1];
          }
        }
      } else {
        assert rest == Filter(p, s);
      }
    }
  }

  /** `Array.prototype.findIndex`: the first index whose element satisfies `p`, or -1. */
  function FindIndex<T>(p: T -> bool, s: seq<T>): (r: int)
    ensures -1 <= r < |s|
    ensures r == -1 <==> forall i :: 0 <= i < |s| ==> !p(s[i])
    ensures r >= 0 ==> p(s[r]) && forall i :: 0 <= i < r ==> !p(s[i])
  {
    if |s| == 0 then -1
    else if p(s[0]) then 0
    else
      var k := FindIndex(p, s[1..]);
      if k == -1 then -1 else k + 1
  }

  /** `Array.prototype.find`: the first element satisfying `p`, if any. */
  function Find<T>(p: T -> bool, s: seq<T>): (r: Option<T>)
    ensures r.None? <==> forall i :: 0 <= i < |s| ==> !p(s[i])
    ensures r.Some? ==> exists k :: 0 <= k < |s| && s[k] == r.value && p(s[k])
                          && forall i :: 0 <= i < k ==> !p(s[i])
  {
    var k := FindIndex(p, s);
    if k == -1 then None else Some(s[k])
  }

  /** Dropping the first element of a subsequence leaves a subsequence. */
  lemma {:induction false} SubseqDropHead<T>(a: seq<T>, s: seq<T>)
    requires |a| > 0 && IsSubseq(a, s)
    ensures IsSubseq(a[1..], s)
    decreases |s|, 1
  {
    if a[0] == s[0] {
      SubseqExtend(a[1..], s);
    } else {
      SubseqDropHead(a, s[1..]);
      SubseqExtend(a[1..], s);
    }
  }

  /** A subsequence of the tail is a subsequence of the whole. */
  lemma {:induction false} SubseqExtend<T>(x: seq<T>, s: seq<T>)
    requires |s| > 0 && IsSubseq(x, s[1..])
    ensures IsSubseq(x, s)
    decreases |s|, 0
  {
    if |x| > 0 && x[0] == s[0] {
      SubseqDropHead(x, s[1..]);
    }
  }

  lemma {:induction false} SubseqTrans<T>(a: seq<T>, b: seq<T>, c: seq<T>)
    requires IsSubseq(a, b) && IsSubseq(b, c)
    ensures IsSubseq(a, c)
    decreases |c|
  {
    if |a| > 0 && |c| > 0 {
      if b[0] == c[0] {
        if a[0] == b[0] {
          SubseqTrans(a[1..], b[1..], c[1..]);
        } else {
          SubseqTrans(a, b[1..], c[1..]);
        }
      } else {
        SubseqTrans(a, b, c[1..]);
        if a[0] == c[0] {
          SubseqDropHead(a, c[1..]);
        }
      }
    }
  }

  /** Every element of a subsequence occurs in the sequence. */
  lemma {:induction false} SubseqElem<T>(a: seq<T>, s: seq<T>, i: int)
    requires IsSubseq(a, s) && 0 <= i < |a|
    ensures a[i] in s
    decreases |s|
  {
    if a[0] == s[0] {
      if i > 0 {
        SubseqElem(a[1..], s[1..], i - 1);
      }
    } else {
      SubseqElem(a, s[1..], i);
    }
  }

  /** A subset has at most as many elements as its superset. */
  lemma {:induction false} CardSubset<T>(a: set<T>, b: set<T>)
    requires a <= b
    ensures |a| <= |b|
    decreases |a|
  {
    if a != {} {
      var x :| x in a;
      CardSubset(a - {x}, b - {x});
    }
  }

  /** A sequence has at least as many positions as distinct elements. */
  lemma {:induction false} CardElements<T>(s: seq<T>)
    ensures |set x | x in s| <= |s|
  {
    if |s| > 0 {
      CardElements(s[1..]);
      assert (set x | x in s) == {s[0]} + (set x | x in s[1..]);
    }
  }

  /** The elements of an increasing sequence are pairwise distinct. */
  lemma {:induction false} CardIncreasing(s: seq<int>)
    requires Increasing(s)
    ensures |set x | x in s| == |s|
  {
    if |s| > 0 {
      CardIncreasing(s[1..]);
      assert (set x | x in s) == {s[0]} + (set x | x in s[1..]);
      assert s[0] !in (set x | x in s[1..]);
    }
  }

  /** A sequence holding every element of an increasing sequence is at least as long. */
  lemma Covers(g: seq<int>, o: seq<int>)
    requires Increasing(g)
    requires forall i :: 0 <= i < |g| ==> g[i] in o
    ensures |g| <= |o|
  {
    CardIncreasing(g);
    CardSubset(set x | x in g, set x | x in o);
    CardElements(o);
  }

  /** Filtering by `q` after `p` is filtering by `q` alone when `q` implies `p`. */
  lemma {:induction false} FilterFilter<T>(p: T -> bool, q: T -> bool, s: seq<T>)
    requires forall x :: q(x) ==> p(x)
    ensures Filter(q, Filter(p, s)) == Filter(q, s)
  {
    if |s| > 0 {
      FilterFilter(p, q, s[1..]);
    }
  }

  /** Filtering keeps every occurrence of an element satisfying `p`, and no other. */
  lemma {:induction false} FilterCount<T>(p: T -> bool, s: seq<T>, x: T)
    ensures multiset(Filter(p, s))[x] == if p(x) then multiset(s)[x] else 0
  {
    if |s| > 0 {
      FilterCount(p, s[1..], x);
      assert s == [s[0]] + s[1..];
      assert multiset(s) == multiset{s[0]} + multiset(s[1..]);
      if p(s[0]) {
        assert multiset(Filter(p, s)) == multiset{s[0]} + multiset(Filter(p, s[1..]));
      }
    }
  }

  /** Filtering two arrangements of the same elements keeps the same elements. */
  lemma FilterPerm<T>(p: T -> bool, a: seq<T>, b: seq<T>)
    requires multiset(a) == multiset(b)
    ensures multiset(Filter(p, a)) == multiset(Filter(p, b))
    ensures |Filter(p, a)| == |Filter(p, b)|
  {
    forall x
      ensures multiset(Filter(p, a))[x] == multiset(Filter(p, b))[x]
    {
      FilterCount(p, a, x);
      FilterCount(p, b, x);
    }
    assert |Filter(p, a)| == |multiset(Filter(p, a))|;
    assert |Filter(p, b)| == |multiset(Filter(p, b))|;
  }
}
