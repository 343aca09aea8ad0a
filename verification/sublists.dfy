/** Ordered sub-lists and order-preserving filters over sequences. */
module Sublists {

  /** `small` is an ordered sub-list of `big`. */
  ghost predicate SubsequenceOf<T>(small: seq<T>, big: seq<T>)
    decreases |big|
  {
    if small == [] then true
    else if big == [] then false
    else if small[|small| - 1] == big[|big| - 1] then SubsequenceOf(small[..|small| - 1], big[..|big| - 1])
    else SubsequenceOf(small, big[..|big| - 1])
  }

  /** Dropping the last element of an ordered sub-list keeps it one. */
  lemma {:induction false} SubsequenceDropLast<T>(small: seq<T>, big: seq<T>)
    requires small != [] && SubsequenceOf(small, big)
    ensures SubsequenceOf(small[..|small| - 1], big)
    decreases |big|, 0
  {
    var init := small[..|small| - 1];
    if init != [] && big != [] {
      if small[|small| - 1] == big[|big| - 1] {
        SubsequenceDropLast(init, big[..|big| - 1]);
        assert SubsequenceOf(init, big[..|big| - 1]);
        SubsequenceExtend(init, big[..|big| - 1], big[|big| - 1]);
        assert big[..|big| - 1] + [big[|big| - 1]] == big;
      } else {
        SubsequenceDropLast(small, big[..|big| - 1]);
        SubsequenceExtend(init, big[..|big| - 1], big[|big| - 1]);
        assert big[..|big| - 1] + [big[|big| - 1]] == big;
      }
    }
  }

  /** Appending to the list keeps an ordered sub-list one. */
  lemma {:induction false} SubsequenceExtend<T>(small: seq<T>, big: seq<T>, x: T)
    requires SubsequenceOf(small, big)
    ensures SubsequenceOf(small, big + [x])
    decreases |big|, 1
  {
    var big' := big + [x];
    assert big'[..|big'| - 1] == big;
    if small != [] && small[|small| - 1] == x {
      SubsequenceDropLast(small, big);
    }
  }

  /** Every element of an ordered sub-list is an element of the list. */
  lemma {:induction false} SubsequenceMembers<T>(small: seq<T>, big: seq<T>)
    requires SubsequenceOf(small, big)
    ensures forall x :: x in small ==> x in big
    decreases |big|
  {
    if small != [] && big != [] {
      if small[|small| - 1] == big[|big| - 1] {
        SubsequenceMembers(small[..|small| - 1], big[..|big| - 1]);
        assert small == small[..|small| - 1] + [small[|small| - 1]];
      } else {
        SubsequenceMembers(small, big[..|big| - 1]);
      }
      assert big == big[..|big| - 1] + [big[|big| - 1]];
    }
  }

  /** The elements of `s` satisfying `p`, in their order (a list comprehension with a guard). */
  function Filter<T>(s: seq<T>, p: T -> bool): (r: seq<T>)
    ensures |r| <= |s|
    ensures forall i :: 0 <= i < |r| ==> r[i] in s && p(r[i])
    ensures forall i :: 0 <= i < |s| && p(s[i]) ==> s[i] in r
    decreases |s|
  {
    if s == [] then []
    else
      var init, last := s[..|s| - 1], s[|s| - 1];
      assert s == init + [last];
      Filter(init, p) + (if p(last) then [last] else [])
  }

  /** A filter whose predicate holds throughout keeps everything. */
  lemma {:induction false} FilterKeepsAll<T>(s: seq<T>, p: T -> bool)
    requires forall i :: 0 <= i < |s| ==> p(s[i])
    ensures Filter(s, p) == s
    decreases |s|
  {
    if s != [] {
      var init := s[..|s| - 1];
      FilterKeepsAll(init, p);
      assert s == init + [s[|s| - 1]];
    }
  }

  /** A filter keeps an ordered sub-list of its input. */
  lemma {:induction false} FilterSublist<T>(s: seq<T>, p: T -> bool)
    ensures SubsequenceOf(Filter(s, p), s)
    decreases |s|
  {
    if s != [] {
      var init, last := s[..|s| - 1], s[|s| - 1];
      FilterSublist(init, p);
      if p(last) {
        var r := Filter(s, p);
        assert r[..|r| - 1] == Filter(init, p);
      } else {
        assert Filter(s, p) == Filter(init, p);
        SubsequenceExtend(Filter(init, p), init, last);
        assert init + [last] == s;
      }
    }
  }

  /** Filtering distributes over concatenation. */
  lemma {:induction false} FilterAppend<T>(a: seq<T>, b: seq<T>, p: T -> bool)
    ensures Filter(a + b, p) == Filter(a, p) + Filter(b, p)
    decreases |b|
  {
    if b != [] {
      var init, last := b[..|b| - 1], b[|b| - 1];
      FilterAppend(a, init, p);
      assert a + b == (a + init) + [last];
      assert (a + b)[..|a + b| - 1] == a + init;
    } else {
      assert a + b == a;
    }
  }

  /** Filtering a list that starts with `x` first decides about `x`. */
  lemma {:induction false} FilterCons<T>(x: T, s: seq<T>, p: T -> bool)
    ensures Filter([x] + s, p) == (if p(x) then [x] else []) + Filter(s, p)
  {
    FilterAppend([x], s, p);
    assert [x][..0] == [];
    assert Filter([x], p) == Filter([], p) + (if p(x) then [x] else []);
  }

  /** Filtering by `p` and then by a stronger `q` is filtering by `q`. */
  lemma {:induction false} FilterNarrow<T>(s: seq<T>, p: T -> bool, q: T -> bool)
    requires forall x :: q(x) ==> p(x)
    ensures Filter(Filter(s, p), q) == Filter(s, q)
    decreases |s|
  {
    if s != [] {
      var init, last := s[..|s| - 1], s[|s| - 1];
      FilterNarrow(init, p, q);
      FilterAppend(Filter(init, p), if p(last) then [last] else [], q);
      if p(last) {
        assert [last][..0] == [];
      }
    }
  }

  /** A filter keeps every occurrence of the elements it accepts and none of the others. */
  lemma {:induction false} FilterMultiset<T>(s: seq<T>, p: T -> bool)
    ensures forall x :: multiset(Filter(s, p))[x] == if p(x) then multiset(s)[x] else 0
    decreases |s|
  {
    if s != [] {
      var init, last := s[..|s| - 1], s[|s| - 1];
      FilterMultiset(init, p);
      assert s == init + [last];
    }
  }
}
