/**
 * The JavaScript array operations the components use (`filter`, `slice`,
 * `splice`, `map`-then-drop-nulls), as functions on sequences, with the
 * facts about order and membership the rest of the model relies on.
 */
module Seqs {
  import opened Wrappers

  /** `s.filter(p)`: the elements satisfying `p`, in their original order. */
  function Filter<T>(s: seq<T>, p: T -> bool): (r: seq<T>)
    ensures |r| <= |s|
    ensures forall k :: 0 <= k < |r| ==> r[k] in s && p(r[k])
    ensures forall k :: 0 <= k < |s| && p(s[k]) ==> s[k] in r
  {
    if s == [] then []
    else
      assert s == s[..|s| - 1] + [s[|s| - 1]];
      Filter(s[..|s| - 1], p) + (if p(s[|s| - 1]) then [s[|s| - 1]] else [])
  }

  /** `s.map(f).filter(x => x !== null)`: the present results of `f`, in order. */
  function FilterMap<T, U>(s: seq<T>, f: T -> Option<U>): (r: seq<U>)
    ensures |r| <= |s|
  {
    if s == [] then []
    else FilterMap(s[..|s| - 1], f) + (if f(s[|s| - 1]).Some? then [f(s[|s| - 1]).value] else [])
  }

  /** `s.map(g)`. */
  function Map<T, U>(s: seq<T>, g: T -> U): (r: seq<U>)
    ensures |r| == |s| && forall k :: 0 <= k < |s| ==> r[k] == g(s[k])
  {
    seq(|s|, k requires 0 <= k < |s| => g(s[k]))
  }

  /** `s.slice(0, n)`. */
  function Take<T>(s: seq<T>, n: nat): (r: seq<T>)
    ensures |r| == if n <= |s| then n else |s|
    ensures r == s[..|r|]
  {
    if n <= |s| then s[..n] else s
  }

  /** `s.slice(-n)`: the last `n` elements, or all of them when there are fewer. */
  function TakeLast<T>(s: seq<T>, n: nat): (r: seq<T>)
    ensures |r| == if n <= |s| then n else |s|
    ensures r == s[|s| - |r|..]
  {
    if n <= |s| then s[|s| - n..] else s
  }

  /**
   * A copy of `s` after `copy.splice(index, 1)`: a negative index counts
   * from the end (clamped at 0), an index at or past the end removes nothing.
   */
  function SpliceOne<T>(s: seq<T>, index: int): (r: seq<T>)
    ensures 0 <= index < |s| ==> |r| == |s| - 1
    ensures 0 <= index < |s| ==> forall k :: 0 <= k < index ==> r[k] == s[k]
    ensures 0 <= index < |s| ==> forall k :: index <= k < |r| ==> r[k] == s[k + 1]
    ensures index >= |s| ==> r == s
    ensures -|s| <= index < 0 ==> |r| == |s| - 1 && r[..|s| + index] == s[..|s| + index]
  {
    var start := if index < 0 then (if |s| + index < 0 then 0 else |s| + index)
                 else (if index > |s| then |s| else index);
    if start < |s| then s[..start] + s[start + 1..] else s
  }

  /** `r` can be obtained from `s` by deleting elements (order is kept). */
  ghost predicate IsSubsequence<T>(r: seq<T>, s: seq<T>)
    decreases |s|
  {
    |r| <= |s| &&
    (r == [] ||
     (s != [] &&
      ((r[|r| - 1] == s[|s| - 1] && IsSubsequence(r[..|r| - 1], s[..|s| - 1])) ||
       IsSubsequence(r, s[..|s| - 1]))))
  }

  lemma {:induction false} FilterIsSubsequence<T>(s: seq<T>, p: T -> bool)
    ensures IsSubsequence(Filter(s, p), s)
  {
    if s != [] {
      var init := s[..|s| - 1];
      FilterIsSubsequence(init, p);
      var r := Filter(s, p);
      if p(s[|s| - 1]) {
        assert r[..|r| - 1] == Filter(init, p);
      } else {
        assert r == Filter(init, p);
      }
    }
  }

  /** Filtering with a predicate every element satisfies returns the input. */
  /** `filter` keeps every occurrence of a kept value, duplicates included, and no occurrence of a dropped one. */
  lemma {:induction false} FilterCount<T>(s: seq<T>, p: T -> bool)
    ensures forall x :: p(x) ==> multiset(Filter(s, p))[x] == multiset(s)[x]
    ensures forall x :: !p(x) ==> multiset(Filter(s, p))[x] == 0
  {
    if s != [] {
      var init, last := s[..|s| - 1], s[|s| - 1];
      FilterCount(init, p);
      assert s == init + [last];
      assert multiset(s) == multiset(init) + multiset{last};
    }
  }

  lemma {:induction false} FilterAll<T>(s: seq<T>, p: T -> bool)
    requires forall k :: 0 <= k < |s| ==> p(s[k])
    ensures Filter(s, p) == s
  {
    if s != [] {
      FilterAll(s[..|s| - 1], p);
    }
  }

  /** Filtering distributes over concatenation. */
  lemma {:induction false} FilterAppend<T>(a: seq<T>, b: seq<T>, p: T -> bool)
    ensures Filter(a + b, p) == Filter(a, p) + Filter(b, p)
    decreases |b|
  {
    if b != [] {
      var b' := b[..|b| - 1];
      assert (a + b)[..|a + b| - 1] == a + b';
      FilterAppend(a, b', p);
    } else {
      assert a + b == a;
    }
  }

  /**
   * Elements `Filter(s, p)[k]` are taken from strictly increasing
   * positions of `s`; `FilterMapPositions` names those positions.
   */
  ghost function FilterMapPositions<T, U>(s: seq<T>, f: T -> Option<U>): seq<nat>
  {
    if s == [] then []
    else FilterMapPositions(s[..|s| - 1], f) + (if f(s[|s| - 1]).Some? then [|s| - 1] else [])
  }

  /**
   * Every result of `FilterMap(s, f)` is `f` of a distinct element of `s`,
   * the elements are used in input order, and every element whose `f` is
   * present is used.
   */
  lemma {:induction false} FilterMapOrigins<T, U>(s: seq<T>, f: T -> Option<U>)
    ensures var pos := FilterMapPositions(s, f); var r := FilterMap(s, f);
      && |pos| == |r|
      && (forall k :: 0 <= k < |pos| ==> pos[k] < |s| && f(s[pos[k]]) == Some(r[k]))
      && (forall k, l :: 0 <= k < l < |pos| ==> pos[k] < pos[l])
      && (forall i :: 0 <= i < |s| && f(s[i]).Some? ==> i in pos)
  {
    PositionsMatch(s, f);
    PositionsIncrease(s, f);
    PositionsComplete(s, f);
  }

  /** Each position holds an element whose `f` is the matching result. */
  lemma {:induction false} PositionsMatch<T, U>(s: seq<T>, f: T -> Option<U>)
    ensures var pos := FilterMapPositions(s, f); var r := FilterMap(s, f);
      && |pos| == |r|
      && forall k :: 0 <= k < |pos| ==> pos[k] < |s| && f(s[pos[k]]) == Some(r[k])
  {
    if s != [] {
      var init := s[..|s| - 1];
      PositionsMatch(init, f);
      var pos, r := FilterMapPositions(s, f), FilterMap(s, f);
      var pos', r' := FilterMapPositions(init, f), FilterMap(init, f);
      assert forall k :: 0 <= k < |pos'| ==> pos[k] == pos'[k] && r[k] == r'[k] && s[pos'[k]] == init[pos'[k]];
    }
  }

  /** The positions are in range and strictly increasing. */
  lemma {:induction false} PositionsIncrease<T, U>(s: seq<T>, f: T -> Option<U>)
    ensures forall k :: 0 <= k < |FilterMapPositions(s, f)| ==> FilterMapPositions(s, f)[k] < |s|
    ensures forall k, l :: 0 <= k < l < |FilterMapPositions(s, f)| ==>
      FilterMapPositions(s, f)[k] < FilterMapPositions(s, f)[l]
  {
    if s != [] {
      var init := s[..|s| - 1];
      PositionsIncrease(init, f);
      var pos, pos' := FilterMapPositions(s, f), FilterMapPositions(init, f);
      assert |pos| >= |pos'|;
      assert forall k :: 0 <= k < |pos'| ==> pos[k] == pos'[k] && pos'[k] < |s| - 1;
      assert forall k :: |pos'| <= k < |pos| ==> pos[k] == |s| - 1;
    }
  }

  /** Every element whose `f` is present has its position listed. */
  lemma {:induction false} PositionsComplete<T, U>(s: seq<T>, f: T -> Option<U>)
    ensures forall i :: 0 <= i < |s| && f(s[i]).Some? ==> i in FilterMapPositions(s, f)
  {
    if s != [] {
      var init := s[..|s| - 1];
      PositionsComplete(init, f);
      assert forall i :: 0 <= i < |init| ==> s[i] == init[i];
    }
  }

  /** A FilterMap whose function is never present is empty. */
  lemma {:induction false} FilterMapNone<T, U>(s: seq<T>, f: T -> Option<U>)
    requires forall k :: 0 <= k < |s| ==> f(s[k]).None?
    ensures FilterMap(s, f) == []
  {
    if s != [] {
      FilterMapNone(s[..|s| - 1], f);
    }
  }

  /** Rendering every element with `g` and parsing back with an `f` that inverts `g` gives the input. */
  lemma {:induction false} FilterMapInverse<T, U>(s: seq<U>, g: U -> T, f: T -> Option<U>)
    requires forall k :: 0 <= k < |s| ==> f(g(s[k])) == Some(s[k])
    ensures FilterMap(Map(s, g), f) == s
  {
    if s != [] {
      var init := s[..|s| - 1];
      FilterMapInverse(init, g, f);
      assert Map(s, g)[..|s| - 1] == Map(init, g);
    }
  }

  /** Filtering with a predicate no element satisfies gives the empty sequence. */
  lemma {:induction false} FilterNone<T>(s: seq<T>, p: T -> bool)
    requires forall k :: 0 <= k < |s| ==> !p(s[k])
    ensures Filter(s, p) == []
  {
    if s != [] {
      FilterNone(s[..|s| - 1], p);
    }
  }

  /** The first element kept by a filter is the first element that satisfies the predicate. */
  lemma {:induction false} FilterFirst<T>(s: seq<T>, p: T -> bool, i: nat)
    requires i < |s| && p(s[i]) && forall j :: 0 <= j < i ==> !p(s[j])
    ensures |Filter(s, p)| > 0 && Filter(s, p)[0] == s[i]
  {
    var init := s[..|s| - 1];
    if i == |s| - 1 {
      FilterNone(init, p);
    } else {
      FilterFirst(init, p, i);
    }
  }

  /** Dropping first the elements on which `f` is absent anyway changes nothing. */
  lemma {:induction false} FilterMapAfterFilter<T, U>(s: seq<T>, p: T -> bool, f: T -> Option<U>)
    requires forall k :: 0 <= k < |s| && !p(s[k]) ==> f(s[k]).None?
    ensures FilterMap(Filter(s, p), f) == FilterMap(s, f)
  {
    if s != [] {
      var init := s[..|s| - 1];
      var last := s[|s| - 1];
      FilterMapAfterFilter(init, p, f);
      var kept := Filter(s, p);
      if p(last) {
        assert kept == Filter(init, p) + [last];
        assert kept[..|kept| - 1] == Filter(init, p);
      } else {
        assert kept == Filter(init, p);
      }
    }
  }

  /** Appending two elements one after the other appends the pair. */
  lemma AppendPair<T>(s: seq<T>, pair: seq<T>)
    requires |pair| == 2
    ensures s + [pair[0]] + [pair[1]] == s + pair
  {
  }

  /** A sequence is the part before an index, the element there and the part after it. */
  lemma AroundIndex<T>(s: seq<T>, i: nat)
    requires i < |s|
    ensures s == s[..i] + [s[i]] + s[i + 1..]
  {
  }
}
