/** Python list slicing and list comprehensions with a condition. */
module Seqs {
  import opened Wrappers

  /** `s[:n]` for a non-negative `n`. */
  function Take<T>(s: seq<T>, n: nat): (r: seq<T>)
    ensures |r| == if n < |s| then n else |s|
    ensures r == s[..|r|]
  {
    if n < |s| then s[..n] else s
  }

  function Min(a: int, b: int): int
  {
    if a < b then a else b
  }

  /** `[f(a) for a in s]`. */
  function Map<A, B>(f: A -> B, s: seq<A>): (r: seq<B>)
    ensures |r| == |s|
  {
    if s == [] then [] else Map(f, s[..|s| - 1]) + [f(s[|s| - 1])]
  }

  /** Each element of a mapped list is the image of the element at the same position. */
  lemma {:induction false} MapAt<A, B>(f: A -> B, s: seq<A>)
    ensures forall k :: 0 <= k < |s| ==> Map(f, s)[k] == f(s[k])
  {
    if s != [] {
      MapAt(f, s[..|s| - 1]);
    }
  }

  /** `[f(c, a) for a in s]`: a comprehension whose function also reads a fixed context `c`. */
  function MapWith<C, A, B>(f: (C, A) -> B, c: C, s: seq<A>): (r: seq<B>)
    ensures |r| == |s|
  {
    if s == [] then [] else MapWith(f, c, s[..|s| - 1]) + [f(c, s[|s| - 1])]
  }

  /** Each element of the comprehension is the image of the element at the same position. */
  lemma {:induction false} MapWithAt<C, A, B>(f: (C, A) -> B, c: C, s: seq<A>)
    ensures forall k :: 0 <= k < |s| ==> MapWith(f, c, s)[k] == f(c, s[k])
  {
    if s != [] {
      MapWithAt(f, c, s[..|s| - 1]);
    }
  }

  /** Extending the prefix by one element appends that element's image. */
  lemma MapWithStep<C, A, B>(f: (C, A) -> B, c: C, s: seq<A>, i: nat)
    requires i < |s|
    ensures MapWith(f, c, s[..i + 1]) == MapWith(f, c, s[..i]) + [f(c, s[i])]
  {
    assert s[..i + 1][..i] == s[..i];
  }

  /** The contribution of one element to a filtering comprehension. */
  function Hit<B>(o: Option<B>): seq<B>
  {
    match o
    case Some(b) => [b]
    case None => []
  }

  /** `[f(a).value for a in s if f(a) is not None]`. */
  function FilterMap<A, B>(s: seq<A>, f: A -> Option<B>): (r: seq<B>)
    ensures |r| <= |s|
  {
    if s == [] then [] else FilterMap(s[..|s| - 1], f) + Hit(f(s[|s| - 1]))
  }

  /** Extending the filtered prefix by one element adds that element's contribution. */
  lemma FilterMapStep<A, B>(s: seq<A>, f: A -> Option<B>, i: nat)
    requires i < |s|
    ensures FilterMap(s[..i + 1], f) == FilterMap(s[..i], f) + Hit(f(s[i]))
  {
    assert s[..i + 1][..i] == s[..i];
  }

  /** An element appended to one list is the element prepended to the next. */
  lemma AppendThenPrepend<T>(a: seq<T>, x: T, b: seq<T>)
    ensures a + [x] + b == a + ([x] + b)
  {
  }

  /** Filtering a list with a first element: that element's contribution, then the rest's. */
  lemma {:induction false} FilterMapCons<A, B>(x: A, s: seq<A>, f: A -> Option<B>)
    ensures FilterMap([x] + s, f) == Hit(f(x)) + FilterMap(s, f)
  {
    var t := [x] + s;
    if s == [] {
      assert t[..|t| - 1] == [];
    } else {
      assert t[..|t| - 1] == [x] + s[..|s| - 1];
      FilterMapCons(x, s[..|s| - 1], f);
    }
  }

  /** The positions of `s` whose elements `f` keeps, in increasing order. */
  ghost function KeptPositions<A, B>(s: seq<A>, f: A -> Option<B>): seq<nat>
  {
    if s == [] then []
    else KeptPositions(s[..|s| - 1], f) + (if f(s[|s| - 1]).Some? then [|s| - 1] else [])
  }

  /** There are as many kept positions as results, and each is a position of `s`. */
  lemma {:induction false} KeptPositionsCount<A, B>(s: seq<A>, f: A -> Option<B>)
    ensures |KeptPositions(s, f)| == |FilterMap(s, f)|
    ensures forall i :: 0 <= i < |KeptPositions(s, f)| ==> KeptPositions(s, f)[i] < |s|
  {
    if s != [] {
      KeptPositionsCount(s[..|s| - 1], f);
    }
  }

  /** The i-th result is the image of the element at the i-th kept position. */
  lemma {:induction false} FilterMapKeeps<A, B>(s: seq<A>, f: A -> Option<B>)
    ensures forall i :: 0 <= i < |KeptPositions(s, f)| ==>
      && i < |FilterMap(s, f)| && KeptPositions(s, f)[i] < |s|
      && f(s[KeptPositions(s, f)[i]]) == Some(FilterMap(s, f)[i])
  {
    KeptPositionsCount(s, f);
    if s != [] {
      var init := s[..|s| - 1];
      var p := KeptPositions(s, f);
      var q := KeptPositions(init, f);
      var r := FilterMap(s, f);
      var r' := FilterMap(init, f);
      FilterMapKeeps(init, f);
      KeptPositionsCount(init, f);
      forall i | 0 <= i < |p|
        ensures f(s[p[i]]) == Some(r[i])
      {
        if i < |q| {
          assert p[i] == q[i] && r[i] == r'[i];
          assert init[q[i]] == s[q[i]];
        } else {
          assert p[i] == |s| - 1 && r[i] == f(s[|s| - 1]).value;
        }
      }
    }
  }

  /** The kept positions increase strictly. */
  lemma {:induction false} KeptPositionsIncrease<A, B>(s: seq<A>, f: A -> Option<B>)
    ensures forall i, j :: 0 <= i < j < |KeptPositions(s, f)| ==> KeptPositions(s, f)[i] < KeptPositions(s, f)[j]
  {
    if s != [] {
      var init := s[..|s| - 1];
      KeptPositionsIncrease(init, f);
      KeptPositionsCount(init, f);
    }
  }

  /** Every position whose element `f` keeps is a kept position. */
  lemma {:induction false} KeptPositionsComplete<A, B>(s: seq<A>, f: A -> Option<B>)
    ensures forall k :: 0 <= k < |s| && f(s[k]).Some? ==> k in KeptPositions(s, f)
  {
    if s != [] {
      var init := s[..|s| - 1];
      KeptPositionsComplete(init, f);
      forall k | 0 <= k < |s| && f(s[k]).Some?
        ensures k in KeptPositions(s, f)
      {
        if k < |init| {
          assert init[k] == s[k];
          assert k in KeptPositions(init, f);
        }
      }
    }
  }

  /** A property every kept image of a suitable element has holds of every result, when every element is suitable. */
  lemma {:induction false} FilterMapAllWhere<A, B>(s: seq<A>, f: A -> Option<B>, Q: A -> bool, P: B -> bool)
    requires forall i :: 0 <= i < |s| ==> Q(s[i])
    requires forall a :: Q(a) && f(a).Some? ==> P(f(a).value)
    ensures forall i :: 0 <= i < |FilterMap(s, f)| ==> P(FilterMap(s, f)[i])
  {
    if s != [] {
      var init := s[..|s| - 1];
      assert forall i :: 0 <= i < |init| ==> init[i] == s[i];
      FilterMapAllWhere(init, f, Q, P);
    }
  }

  /** A property every kept image has holds of every element of the result. */
  lemma {:induction false} FilterMapAll<A, B>(s: seq<A>, f: A -> Option<B>, P: B -> bool)
    requires forall a :: f(a).Some? ==> P(f(a).value)
    ensures forall i :: 0 <= i < |FilterMap(s, f)| ==> P(FilterMap(s, f)[i])
  {
    if s != [] {
      FilterMapAll(s[..|s| - 1], f, P);
    }
  }
}
