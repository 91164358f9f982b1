/** Sequence helpers with the meaning of the JavaScript / Python idioms they stand for. */
module Lists {
  import opened Wrappers

  function Min(a: int, b: int): int { if a <= b then a else b }

  /** The last `n` elements: JavaScript `xs.slice(-n)` for `n > 0`, Python `xs[-n:]`. */
  function Last<T>(xs: seq<T>, n: nat): (r: seq<T>)
    ensures |r| == Min(n, |xs|)
    ensures r == xs[|xs| - |r|..]
  {
    if |xs| <= n then xs else xs[|xs| - n..]
  }

  /** Keeping a window of `n` and appending one keeps at most `n + 1` elements, the newest last. */
  lemma WindowAppend<T>(xs: seq<T>, n: nat, x: T)
    ensures |Last(xs, n) + [x]| <= n + 1
    ensures (Last(xs, n) + [x])[|Last(xs, n)|] == x
  {
  }

  lemma LastOfLast<T>(xs: seq<T>, m: nat, n: nat)
    requires n <= m
    ensures Last(Last(xs, m), n) == Last(xs, n)
  {
  }

  /** A window of `n` with one more appended is the window of `n + 1` of the longer sequence. */
  lemma LastSnoc<T>(xs: seq<T>, x: T, n: nat)
    ensures Last(xs, n) + [x] == Last(xs + [x], n + 1)
  {
  }

  /** Mapping one more element appends its image. */
  lemma MapSnoc<A, B>(f: A -> B, xs: seq<A>, i: nat)
    requires i < |xs|
    ensures Map(f, xs[..i + 1]) == Map(f, xs[..i]) + [f(xs[i])]
  {
    assert xs[..i + 1][..i] == xs[..i];
  }

  /** `xs.map(f)`. */
  function Map<A, B>(f: A -> B, xs: seq<A>): (r: seq<B>)
    ensures |r| == |xs|
    ensures forall i :: 0 <= i < |xs| ==> r[i] == f(xs[i])
  {
    if xs == [] then [] else Map(f, xs[..|xs| - 1]) + [f(xs[|xs| - 1])]
  }

  lemma MapAppend<A, B>(f: A -> B, xs: seq<A>, ys: seq<A>)
    ensures Map(f, xs + ys) == Map(f, xs) + Map(f, ys)
  {
  }

  /** `xs.filter(p)`. */
  function Filter<T>(p: T -> bool, xs: seq<T>): (r: seq<T>)
    ensures |r| <= |xs|
    ensures forall x :: x in r ==> x in xs && p(x)
  {
    if xs == [] then [] else
      var rest := Filter(p, xs[1..]);
      if p(xs[0]) then [xs[0]] + rest else rest
  }

  /** Filtering keeps exactly the satisfying elements. */
  lemma {:induction false} FilterMembers<T>(p: T -> bool, xs: seq<T>, x: T)
    ensures x in Filter(p, xs) <==> x in xs && p(x)
  {
    if xs != [] {
      FilterMembers(p, xs[1..], x);
      assert x in xs <==> x == xs[0] || x in xs[1..];
    }
  }

  lemma FilterIff<T>(p: T -> bool, xs: seq<T>)
    ensures forall x :: x in Filter(p, xs) <==> x in xs && p(x)
  {
    forall x ensures x in Filter(p, xs) <==> x in xs && p(x) {
      FilterMembers(p, xs, x);
    }
  }

  /** Filtering with a predicate that holds everywhere in `xs` keeps `xs`. */
  lemma {:induction false} FilterAll<T>(p: T -> bool, xs: seq<T>)
    requires forall i :: 0 <= i < |xs| ==> p(xs[i])
    ensures Filter(p, xs) == xs
  {
    if xs != [] {
      FilterAll(p, xs[1..]);
    }
  }

  /** `ys` can be obtained from `xs` by deleting elements: order is kept. */
  predicate IsSubseq<T(==)>(ys: seq<T>, xs: seq<T>)
    decreases |xs|
  {
    if ys == [] then true
    else if xs == [] then false
    else if ys[0] == xs[0] then IsSubseq(ys[1..], xs[1..])
    else IsSubseq(ys, xs[1..])
  }

  lemma {:induction false} SubseqOfCons<T>(ys: seq<T>, x: T, xs: seq<T>)
    requires IsSubseq(ys, xs)
    ensures IsSubseq(ys, [x] + xs)
    decreases |xs|, 1
  {
    assert ([x] + xs)[1..] == xs;
    if ys != [] && ys[0] == x {
      SubseqTail(ys, xs);
    }
  }

  lemma {:induction false} SubseqTail<T>(ys: seq<T>, xs: seq<T>)
    requires ys != [] && IsSubseq(ys, xs)
    ensures IsSubseq(ys[1..], xs)
    decreases |xs|, 0
  {
    assert [xs[0]] + xs[1..] == xs;
    if ys[0] != xs[0] {
      SubseqTail(ys, xs[1..]);
    }
    SubseqOfCons(ys[1..], xs[0], xs[1..]);
  }

  /** The filtered list keeps the original order. */
  lemma {:induction false} FilterIsSubseq<T>(p: T -> bool, xs: seq<T>)
    ensures IsSubseq(Filter(p, xs), xs)
  {
    if xs != [] {
      FilterIsSubseq(p, xs[1..]);
      if !p(xs[0]) {
        SubseqOfCons(Filter(p, xs[1..]), xs[0], xs[1..]);
        assert [xs[0]] + xs[1..] == xs;
      }
    }
  }

  /** `xs.find(p)` (Python `next(x for x in xs if p(x))`): the first satisfying element. */
  function FindFirst<T>(p: T -> bool, xs: seq<T>): (r: Option<T>)
    ensures r.None? <==> forall i :: 0 <= i < |xs| ==> !p(xs[i])
    ensures r.Some? ==> exists k :: 0 <= k < |xs| && xs[k] == r.value && p(xs[k])
                                     && forall j :: 0 <= j < k ==> !p(xs[j])
  {
    if xs == [] then None
    else if p(xs[0]) then Some(xs[0])
    else
      var r := FindFirst(p, xs[1..]);
      if r.Some? then
        ghost var k :| 0 <= k < |xs[1..]| && xs[1..][k] == r.value && p(xs[1..][k])
                       && forall j :: 0 <= j < k ==> !p(xs[1..][j]);
        assert xs[k + 1] == r.value && forall j :: 0 <= j < k + 1 ==> !p(xs[j]);
        r
      else r
  }

  /** Finding in a filtered list finds the first element passing both tests. */
  lemma {:induction false} FindFirstFilter<T>(c: T -> bool, p: T -> bool, q: T -> bool, xs: seq<T>)
    requires forall x :: q(x) == (c(x) && p(x))
    ensures FindFirst(p, Filter(c, xs)) == FindFirst(q, xs)
  {
    if xs != [] {
      FindFirstFilter(c, p, q, xs[1..]);
      if c(xs[0]) {
        assert ([xs[0]] + Filter(c, xs[1..]))[1..] == Filter(c, xs[1..]);
      }
    }
  }
}
