/** The array combinators the dashboard's handlers are written with:
    `filter`, `slice(0, n)`, `find`, and the replace-by-id `map`. */
module Seqs {
  import opened Wrappers

  /** `s.filter(p)`. */
  function Filter<T>(s: seq<T>, p: T -> bool): (r: seq<T>)
    ensures |r| <= |s|
    ensures forall x :: x in r ==> x in s && p(x)
  {
    if |s| == 0 then [] else (if p(s[0]) then [s[0]] else []) + Filter(s[1..], p)
  }

  /** `s.slice(0, n)`: at most the first n elements. */
  function Take<T>(s: seq<T>, n: nat): (r: seq<T>)
    ensures |r| == if |s| < n then |s| else n
    ensures r == s[..|r|]
  {
    if |s| <= n then s else s[..n]
  }

  /** `sub` is obtained from `s` by deleting elements (order kept). */
  predicate IsSubsequence<T(==)>(sub: seq<T>, s: seq<T>)
    decreases |s|
  {
    if |sub| == 0 then true
    else if |s| == 0 then false
    else if sub[0] == s[0] then IsSubsequence(sub[1..], s[1..])
    else IsSubsequence(sub, s[1..])
  }

  lemma {:induction false} FilterIsSubsequence<T>(s: seq<T>, p: T -> bool)
    ensures IsSubsequence(Filter(s, p), s)
  {
    if |s| > 0 {
      FilterIsSubsequence(s[1..], p);
      var rest := Filter(s[1..], p);
      if p(s[0]) {
        assert Filter(s, p) == [s[0]] + rest;
        assert ([s[0]] + rest)[1..] == rest;
      } else {
        assert Filter(s, p) == rest;
        SubsequenceOfTail(rest, s);
      }
    }
  }

  lemma {:induction false} SubsequenceOfTail<T>(sub: seq<T>, s: seq<T>)
    requires |s| > 0 && IsSubsequence(sub, s[1..])
    ensures IsSubsequence(sub, s)
    decreases |s|, 0
  {
    if |sub| > 0 && sub[0] == s[0] {
      // sub[1..] is a subsequence of s[1..] because sub is.
      SubsequenceDropHead(sub, s[1..]);
    }
  }

  lemma {:induction false} SubsequenceDropHead<T>(sub: seq<T>, s: seq<T>)
    requires |sub| > 0 && IsSubsequence(sub, s)
    ensures IsSubsequence(sub[1..], s)
    decreases |s|, 1
  {
    if |s| > 0 {
      if sub[0] == s[0] {
        if |sub[1..]| > 0 {
          SubsequenceOfTail(sub[1..], s);
        }
      } else {
        SubsequenceDropHead(sub, s[1..]);
        if |sub[1..]| > 0 {
          SubsequenceOfTail(sub[1..], s);
        }
      }
    }
  }

  lemma {:induction false} PrefixIsSubsequence<T>(s: seq<T>, t: seq<T>, n: nat)
    requires n <= |s| && IsSubsequence(s, t)
    ensures IsSubsequence(s[..n], t)
    decreases |t|
  {
    if n > 0 && |t| > 0 {
      if s[0] == t[0] {
        assert s[..n][1..] == s[1..][..n - 1];
        PrefixIsSubsequence(s[1..], t[1..], n - 1);
      } else {
        PrefixIsSubsequence(s, t[1..], n);
      }
    }
  }

  /** Filtering keeps exactly the elements that pass, in input order. */
  lemma {:induction false} FilterMembership<T>(s: seq<T>, p: T -> bool, x: T)
    ensures x in Filter(s, p) <==> x in s && p(x)
  {
    if |s| > 0 {
      FilterMembership(s[1..], p, x);
      assert x in s <==> x == s[0] || x in s[1..];
    }
  }

  lemma {:induction false} FilterAppend<T>(a: seq<T>, b: seq<T>, p: T -> bool)
    ensures Filter(a + b, p) == Filter(a, p) + Filter(b, p)
  {
    if |a| == 0 {
      assert a + b == b;
    } else {
      assert (a + b)[0] == a[0];
      assert (a + b)[1..] == a[1..] + b;
      FilterAppend(a[1..], b, p);
    }
  }

  /** A filter that rejects nothing is the identity; one that accepts nothing is empty. */
  lemma {:induction false} FilterAll<T>(s: seq<T>, p: T -> bool)
    ensures (forall i :: 0 <= i < |s| ==> p(s[i])) ==> Filter(s, p) == s
    ensures (forall i :: 0 <= i < |s| ==> !p(s[i])) ==> Filter(s, p) == []
  {
    if |s| > 0 {
      FilterAll(s[1..], p);
      assert forall i :: 0 <= i < |s[1..]| ==> s[1..][i] == s[i + 1];
      assert [s[0]] + s[1..] == s;
    }
  }

  /** A filter keeps every passing element as many times as it occurs, and no other. */
  lemma {:induction false} FilterMultiset<T>(s: seq<T>, p: T -> bool)
    ensures forall x :: multiset(Filter(s, p))[x] == if p(x) then multiset(s)[x] else 0
  {
    if |s| > 0 {
      FilterMultiset(s[1..], p);
      assert s == [s[0]] + s[1..];
      assert multiset(s) == multiset{s[0]} + multiset(s[1..]);
    }
  }

  /** `s.filter(p).slice(0, n)`: the first n passing elements, in order; when
      fewer than n come out, every passing element is among them. */
  lemma TakeFilter<T>(s: seq<T>, p: T -> bool, n: nat)
    ensures IsSubsequence(Take(Filter(s, p), n), s)
    ensures forall x :: x in Take(Filter(s, p), n) ==> p(x)
    ensures |Take(Filter(s, p), n)| < n ==> forall x :: x in s && p(x) ==> x in Take(Filter(s, p), n)
    // They are the FIRST passing elements: the ones met up to any point, while
    // there are at most n of them, begin the result.
    ensures forall k :: 0 <= k <= |s| && |Filter(s[..k], p)| <= n ==>
              Filter(s[..k], p) <= Take(Filter(s, p), n)
  {
    var ms := Filter(s, p);
    var ts := Take(ms, n);
    forall k | 0 <= k <= |s| && |Filter(s[..k], p)| <= n ensures Filter(s[..k], p) <= ts {
      assert s == s[..k] + s[k..];
      FilterAppend(s[..k], s[k..], p);
    }
    FilterIsSubsequence(s, p);
    PrefixIsSubsequence(ms, s, |ts|);
    forall x | x in ts ensures x in ms {
      var i :| 0 <= i < |ts| && ts[i] == x;
      assert ms[i] == x;
    }
    if |ts| < n {
      forall x | x in s && p(x) ensures x in ts {
        FilterMembership(s, p, x);
      }
    }
  }

  /** `s.map(x => hit(x) ? f(x) : x)`. */
  function MapWhere<T>(s: seq<T>, hit: T -> bool, f: T -> T): (r: seq<T>)
    ensures |r| == |s|
    ensures forall i :: 0 <= i < |s| ==> r[i] == if hit(s[i]) then f(s[i]) else s[i]
  {
    seq(|s|, i requires 0 <= i < |s| => if hit(s[i]) then f(s[i]) else s[i])
  }

  /** `s.find(hit)`: the first element that passes, if any. */
  function Find<T>(s: seq<T>, hit: T -> bool): (r: Option<T>)
    ensures r.None? <==> forall i :: 0 <= i < |s| ==> !hit(s[i])
    ensures r.Some? ==> exists i :: 0 <= i < |s| && s[i] == r.value && hit(s[i])
                          && forall j :: 0 <= j < i ==> !hit(s[j])
  {
    if |s| == 0 then None
    else if hit(s[0]) then Some(s[0])
    else
      var r := Find(s[1..], hit);
      assert forall i :: 1 <= i < |s| ==> s[i] == s[1..][i - 1];
      r
  }
}
