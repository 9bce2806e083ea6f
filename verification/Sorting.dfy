/**
 The stable sort behind every `Array.prototype.sort` of the repository, with the
 fact each caller needs: when the comparison decides every two distinct elements,
 the sorted sequence depends on the elements alone, not on the order they came in.
 */
module Sorting {

  function Insert<T>(x: T, xs: seq<T>, less: (T, T) -> bool): seq<T> {
    if xs == [] || !less(xs[0], x) then [x] + xs
    else [xs[0]] + Insert(x, xs[1..], less)
  }

  function Sort<T>(xs: seq<T>, less: (T, T) -> bool): seq<T> {
    if xs == [] then [] else Insert(xs[0], Sort(xs[1..], less), less)
  }

  function Filter<T>(xs: seq<T>, keep: T -> bool): seq<T> {
    if xs == [] then []
    else if keep(xs[0]) then [xs[0]] + Filter(xs[1..], keep)
    else Filter(xs[1..], keep)
  }

  function Map<T, U>(xs: seq<T>, f: T -> U): (ys: seq<U>)
    ensures |ys| == |xs| && forall i | 0 <= i < |xs| :: ys[i] == f(xs[i])
  {
    seq(|xs|, i requires 0 <= i < |xs| => f(xs[i]))
  }

  /** `set.add` for each of `more`, on a set that lists `xs`; `[...new Set(more)]` where `xs` is empty. */
  function AddAll<T(==)>(xs: seq<T>, more: seq<T>): seq<T> {
    if more == [] then xs
    else
      var front := AddAll(xs, more[..|more| - 1]);
      if more[|more| - 1] in front then front else front + [more[|more| - 1]]
  }

  lemma {:induction false} ListedOnce<T>(more: seq<T>)
    ensures forall x :: x in AddAll([], more) <==> x in more
    ensures forall i, j | 0 <= i < j < |AddAll([], more)| :: AddAll([], more)[i] != AddAll([], more)[j]
  {
    if more != [] {
      ListedOnce(more[..|more| - 1]);
      assert more == more[..|more| - 1] + [more[|more| - 1]];
    }
  }

  ghost predicate Sorted<T>(xs: seq<T>, less: (T, T) -> bool) {
    forall i, j | 0 <= i < j < |xs| :: !less(xs[j], xs[i])
  }

  ghost function Elements<T>(xs: seq<T>): set<T> {
    set x | x in xs
  }

  /** `less` is a strict order that decides every two distinct elements of `dom`. */
  ghost predicate Decides<T>(less: (T, T) -> bool, dom: set<T>) {
    && (forall x | x in dom :: !less(x, x))
    && (forall x, y | x in dom && y in dom :: x == y || less(x, y) || less(y, x))
    && (forall x, y, z | x in dom && y in dom && z in dom && less(x, y) && less(y, z) :: less(x, z))
  }

  lemma {:induction false} InsertPermutes<T>(x: T, xs: seq<T>, less: (T, T) -> bool)
    ensures multiset(Insert(x, xs, less)) == multiset{x} + multiset(xs)
  {
    if xs != [] && less(xs[0], x) {
      InsertPermutes(x, xs[1..], less);
      assert xs == [xs[0]] + xs[1..];
    }
  }

  lemma {:induction false} SortPermutes<T>(xs: seq<T>, less: (T, T) -> bool)
    ensures multiset(Sort(xs, less)) == multiset(xs)
  {
    if xs != [] {
      SortPermutes(xs[1..], less);
      InsertPermutes(xs[0], Sort(xs[1..], less), less);
      assert xs == [xs[0]] + xs[1..];
    }
  }

  lemma SameElements<T>(xs: seq<T>, ys: seq<T>)
    requires multiset(xs) == multiset(ys)
    ensures |xs| == |ys| && Elements(xs) == Elements(ys)
  {
    assert |multiset(xs)| == |multiset(ys)|;
    forall x: T ensures x in xs <==> x in ys {
      assert x in multiset(xs) <==> x in multiset(ys);
    }
  }

  lemma SortElements<T>(xs: seq<T>, less: (T, T) -> bool)
    ensures |Sort(xs, less)| == |xs| && Elements(Sort(xs, less)) == Elements(xs)
  {
    SortPermutes(xs, less);
    SameElements(Sort(xs, less), xs);
  }

  lemma {:induction false} InsertSorts<T>(x: T, xs: seq<T>, less: (T, T) -> bool, dom: set<T>)
    requires Sorted(xs, less) && Decides(less, dom) && x in dom && Elements(xs) <= dom
    ensures Sorted(Insert(x, xs, less), less)
  {
    forall i | 0 <= i < |xs| ensures xs[i] in dom {
      assert xs[i] in Elements(xs);
    }
    if xs != [] && less(xs[0], x) {
      var rest := Insert(x, xs[1..], less);
      InsertSorts(x, xs[1..], less, dom);
      InsertPermutes(x, xs[1..], less);
      forall j | 0 <= j < |rest| ensures !less(rest[j], xs[0]) {
        assert rest[j] in multiset(rest);
        if rest[j] != x {
          assert rest[j] in multiset(xs[1..]);
          var k :| 0 <= k < |xs[1..]| && xs[1..][k] == rest[j];
          assert xs[k + 1] == rest[j];
        }
      }
    }
  }

  lemma {:induction false} SortSorts<T>(xs: seq<T>, less: (T, T) -> bool, dom: set<T>)
    requires Decides(less, dom) && Elements(xs) <= dom
    ensures Sorted(Sort(xs, less), less)
  {
    if xs != [] {
      assert xs[0] in Elements(xs);
      assert Elements(xs[1..]) <= Elements(xs);
      SortElements(xs[1..], less);
      SortSorts(xs[1..], less, dom);
      InsertSorts(xs[0], Sort(xs[1..], less), less, dom);
    }
  }

  lemma SortedHead<T>(xs: seq<T>, y: T, less: (T, T) -> bool)
    requires Sorted(xs, less) && y in xs
    ensures y == xs[0] || !less(y, xs[0])
  {
    var i :| 0 <= i < |xs| && xs[i] == y;
  }

  lemma TailMultiset<T>(xs: seq<T>)
    requires xs != []
    ensures multiset(xs[1..]) == multiset(xs) - multiset{xs[0]}
  {
    assert xs == [xs[0]] + xs[1..];
  }

  lemma SortedHeads<T>(xs: seq<T>, ys: seq<T>, less: (T, T) -> bool, dom: set<T>)
    requires xs != [] && multiset(xs) == multiset(ys)
    requires Sorted(xs, less) && Sorted(ys, less) && Decides(less, dom) && Elements(xs) <= dom
    ensures ys != [] && xs[0] == ys[0]
  {
    SameElements(xs, ys);
    hide Sorted;
    assert xs[0] in Elements(xs) && ys[0] in Elements(ys);
    SortedHead(ys, xs[0], less);
    SortedHead(xs, ys[0], less);
  }

  lemma SortedTail<T>(xs: seq<T>, less: (T, T) -> bool)
    requires xs != [] && Sorted(xs, less)
    ensures Sorted(xs[1..], less) && Elements(xs[1..]) <= Elements(xs)
  {
  }

  /** Two sorted arrangements of the same elements are the same sequence. */
  lemma {:induction false} SortedUnique<T>(xs: seq<T>, ys: seq<T>, less: (T, T) -> bool, dom: set<T>)
    requires multiset(xs) == multiset(ys)
    requires Sorted(xs, less) && Sorted(ys, less) && Decides(less, dom) && Elements(xs) <= dom
    ensures xs == ys
  {
    hide Sorted, Decides, Elements;
    if xs == [] {
      SameElements(xs, ys);
    } else {
      SortedHeads(xs, ys, less, dom);
      TailsPermute(xs, ys);
      SortedTail(xs, less);
      SortedTail(ys, less);
      SortedUnique(xs[1..], ys[1..], less, dom);
      SameHeadAndTail(xs, ys);
    }
  }

  lemma TailsPermute<T>(xs: seq<T>, ys: seq<T>)
    requires xs != [] && ys != [] && xs[0] == ys[0] && multiset(xs) == multiset(ys)
    ensures multiset(xs[1..]) == multiset(ys[1..])
  {
    TailMultiset(xs);
    TailMultiset(ys);
  }

  lemma SameHeadAndTail<T>(xs: seq<T>, ys: seq<T>)
    requires xs != [] && ys != [] && xs[0] == ys[0] && xs[1..] == ys[1..]
    ensures xs == ys
  {
    assert xs == [xs[0]] + xs[1..] && ys == [ys[0]] + ys[1..];
  }

  /** The sorted sequence is a function of the elements, not of their order. */
  lemma SortCanonical<T>(xs: seq<T>, ys: seq<T>, less: (T, T) -> bool)
    requires multiset(xs) == multiset(ys) && Decides(less, Elements(xs))
    ensures Sort(xs, less) == Sort(ys, less)
  {
    SameElements(xs, ys);
    SortPermutes(xs, less);
    SortPermutes(ys, less);
    SortSorts(xs, less, Elements(xs));
    SortSorts(ys, less, Elements(xs));
    SortElements(xs, less);
    SortedUnique(Sort(xs, less), Sort(ys, less), less, Elements(xs));
  }

  lemma MapCons<T, U>(xs: seq<T>, f: T -> U)
    requires xs != []
    ensures Map(xs, f) == [f(xs[0])] + Map(xs[1..], f)
  {
  }

  /** Sorting and a map that respects the comparison commute. */
  lemma {:induction false} SortMap<T, U>(xs: seq<T>, f: T -> U, less: (T, T) -> bool, less': (U, U) -> bool)
    requires forall x, y | x in xs && y in xs :: less(x, y) == less'(f(x), f(y))
    ensures Sort(Map(xs, f), less') == Map(Sort(xs, less), f)
  {
    if xs != [] {
      SortMap(xs[1..], f, less, less');
      assert Map(xs, f)[1..] == Map(xs[1..], f);
      forall y | y in Sort(xs[1..], less) ensures y in xs {
        SortElements(xs[1..], less);
        assert y in Elements(xs[1..]);
      }
      InsertMap(xs[0], Sort(xs[1..], less), f, less, less');
    }
  }

  lemma {:induction false} InsertMap<T, U>(x: T, xs: seq<T>, f: T -> U, less: (T, T) -> bool, less': (U, U) -> bool)
    requires forall y | y in xs :: less(y, x) == less'(f(y), f(x))
    ensures Insert(f(x), Map(xs, f), less') == Map(Insert(x, xs, less), f)
  {
    if xs != [] && less(xs[0], x) {
      InsertMap(x, xs[1..], f, less, less');
      assert Map(xs, f)[1..] == Map(xs[1..], f);
    }
  }

  lemma {:induction false} FilterMembers<T>(xs: seq<T>, keep: T -> bool)
    ensures forall x :: x in Filter(xs, keep) <==> x in xs && keep(x)
  {
    if xs != [] {
      FilterMembers(xs[1..], keep);
      assert xs == [xs[0]] + xs[1..];
    }
  }

  lemma {:induction false} FilterIndex<T>(xs: seq<T>, keep: T -> bool, j: nat) returns (i: nat)
    requires j < |Filter(xs, keep)|
    ensures i < |xs| && xs[i] == Filter(xs, keep)[j] && keep(xs[i])
  {
    if keep(xs[0]) && j == 0 {
      i := 0;
    } else {
      i := FilterIndex(xs[1..], keep, if keep(xs[0]) then j - 1 else j);
      i := i + 1;
    }
  }

  lemma {:induction false} FilterConcat<T>(xs: seq<T>, ys: seq<T>, keep: T -> bool)
    ensures Filter(xs + ys, keep) == Filter(xs, keep) + Filter(ys, keep)
  {
    if xs == [] {
      assert xs + ys == ys;
    } else {
      FilterConcat(xs[1..], ys, keep);
      assert (xs + ys)[1..] == xs[1..] + ys;
    }
  }

  lemma FilterStep<T>(xs: seq<T>, x: T, keep: T -> bool)
    ensures Filter(xs + [x], keep) == Filter(xs, keep) + (if keep(x) then [x] else [])
  {
    FilterConcat(xs, [x], keep);
    assert [x][1..] == [];
  }

  lemma {:induction false} FilterAlike<T>(xs: seq<T>, f: T -> bool, g: T -> bool)
    requires forall x: T | x in xs :: f(x) == g(x)
    ensures Filter(xs, f) == Filter(xs, g)
  {
    if xs != [] { FilterAlike(xs[1..], f, g); }
  }

  /** Filtering two arrangements of the same elements keeps the same elements. */
  lemma {:induction false} FilterPermutes<T>(xs: seq<T>, ys: seq<T>, keep: T -> bool)
    requires multiset(xs) == multiset(ys)
    ensures multiset(Filter(xs, keep)) == multiset(Filter(ys, keep))
  {
    SameElements(xs, ys);
    if xs != [] {
      assert xs[0] in Elements(ys);
      var i :| 0 <= i < |ys| && ys[i] == xs[0];
      var pre, post := ys[..i], ys[i + 1..];
      assert ys == pre + ([ys[i]] + post);
      TailMultiset(xs);
      FilterPermutes(xs[1..], pre + post, keep);
      FilterConcat(pre, post, keep);
      FilterConcat(pre, [ys[i]] + post, keep);
      assert ([ys[i]] + post)[1..] == post;
    }
  }

  /** `ys` is `xs` without the elements that `keep` refuses: same order, same repetitions. */
  ghost predicate Selects<T>(ys: seq<T>, xs: seq<T>, keep: T -> bool) {
    exists at: seq<nat> :: SelectsAt(ys, xs, keep, at)
  }

  /** `at` lists the positions of the kept elements. */
  ghost predicate SelectsAt<T>(ys: seq<T>, xs: seq<T>, keep: T -> bool, at: seq<nat>) {
    && |at| == |ys|
    && (forall k | 0 <= k < |at| :: at[k] < |xs| && ys[k] == xs[at[k]])
    && (forall k, l | 0 <= k < l < |at| :: at[k] < at[l])
    && (forall i: nat | i < |xs| :: keep(xs[i]) <==> i in at)
  }

  lemma {:induction false} FilterPositions<T>(xs: seq<T>, keep: T -> bool) returns (at: seq<nat>)
    ensures SelectsAt(Filter(xs, keep), xs, keep, at)
  {
    at := [];
    if xs != [] {
      var n := |xs| - 1;
      at := FilterPositions(xs[..n], keep);
      FilterStep(xs[..n], xs[n], keep);
      assert xs[..n] + [xs[n]] == xs;
      forall k | 0 <= k < |at| ensures xs[..n][at[k]] == xs[at[k]] { }
      forall i: nat | i < n ensures keep(xs[i]) <==> i in at {
        assert xs[..n][i] == xs[i];
      }
      if keep(xs[n]) { at := at + [n]; }
    }
  }

  lemma FilterSelects<T>(xs: seq<T>, keep: T -> bool)
    ensures Selects(Filter(xs, keep), xs, keep)
  {
    var at := FilterPositions(xs, keep);
  }

  /** Selecting keeps a sorted sequence sorted. */
  lemma SelectSorted<T>(ys: seq<T>, xs: seq<T>, keep: T -> bool, less: (T, T) -> bool)
    requires Selects(ys, xs, keep) && Sorted(xs, less)
    ensures Sorted(ys, less)
  {
    var at: seq<nat> :| SelectsAt(ys, xs, keep, at);
  }
}
