/**
 What the in-memory and the file-backed stores have in common. In memory, a JavaScript
 `Map` keeps its entries in insertion order and `set` on a present key keeps the place;
 on file, an array is sorted by time stamp and id on every write.
 */
module KeyedStores {
  import opened Prelude
  import opened Sorting
  import opened Text

  /** How entries of a store are keyed and ordered. */
  datatype Keying<!T> = Keying(id: T -> string, stamp: T -> string)

  predicate StampedBefore<T>(k: Keying<T>, a: T, b: T) {
    StringLess(k.stamp(a), k.stamp(b)) || (k.stamp(a) == k.stamp(b) && StringLess(k.id(a), k.id(b)))
  }

  /** The comparison `a.stamp.localeCompare(b.stamp) || a.id.localeCompare(b.id)`. */
  function Order<T>(k: Keying<T>): (T, T) -> bool {
    (a: T, b: T) => StampedBefore(k, a, b)
  }

  function Saved<T>(k: Keying<T>, xs: seq<T>): seq<T> { Sort(xs, Order(k)) }

  predicate Distinct<T>(k: Keying<T>, xs: seq<T>) {
    forall i, j | 0 <= i < j < |xs| :: k.id(xs[i]) != k.id(xs[j])
  }

  /** The position of a key, `|xs|` when absent. */
  function Find<T>(k: Keying<T>, xs: seq<T>, key: string): (i: nat)
    ensures i <= |xs|
    ensures i < |xs| ==> k.id(xs[i]) == key
    ensures forall j | 0 <= j < i :: k.id(xs[j]) != key
  {
    if xs == [] then 0 else if k.id(xs[0]) == key then 0 else 1 + Find(k, xs[1..], key)
  }

  predicate Has<T>(k: Keying<T>, xs: seq<T>, key: string) { Find(k, xs, key) < |xs| }

  function Lookup<T>(k: Keying<T>, xs: seq<T>, key: string): Option<T> {
    var i := Find(k, xs, key);
    if i < |xs| then Some(xs[i]) else None
  }

  /** `map.set(x.id, x)` on a map, or `xs[index] = x` on an array, of a present key. */
  function Replace<T>(k: Keying<T>, xs: seq<T>, x: T): seq<T>
    requires Has(k, xs, k.id(x))
  {
    xs[Find(k, xs, k.id(x)) := x]
  }

  /** `map.set(x.id, x)`: a present key keeps its place, a new one goes last. */
  function Put<T>(k: Keying<T>, xs: seq<T>, x: T): seq<T> {
    if Has(k, xs, k.id(x)) then Replace(k, xs, x) else xs + [x]
  }

  /** `map.delete(key)`, or the filter on the array. */
  function Without<T>(k: Keying<T>, xs: seq<T>, key: string): seq<T> {
    Filter(xs, NotKeyed(k, key))
  }

  function NotKeyed<T>(k: Keying<T>, key: string): T -> bool { (x: T) => k.id(x) != key }

  // ---------------------------------------------------------------- distinct keys

  lemma KeysDecide<T>(k: Keying<T>, xs: seq<T>)
    requires Distinct(k, xs)
    ensures Decides(Order(k), Elements(xs))
  {
    hide StringLess;
    var less := Order(k);
    forall x, y, z | x in Elements(xs) && y in Elements(xs) && z in Elements(xs)
      ensures !less(x, x)
      ensures x == y || less(x, y) || less(y, x)
      ensures less(x, y) && less(y, z) ==> less(x, z)
    {
      StringOrder(k.id(x), k.id(y), k.id(z));
      StringOrder(k.stamp(x), k.stamp(y), k.stamp(z));
      var i :| 0 <= i < |xs| && xs[i] == x;
      var j :| 0 <= j < |xs| && xs[j] == y;
      assert k.id(x) == k.id(y) ==> i == j;
    }
  }

  lemma {:induction false} FindUnique<T>(k: Keying<T>, xs: seq<T>, i: nat)
    requires Distinct(k, xs) && i < |xs|
    ensures Find(k, xs, k.id(xs[i])) == i
  {
    var j := Find(k, xs, k.id(xs[i]));
    assert j <= i;
  }

  lemma PutLookup<T>(k: Keying<T>, xs: seq<T>, x: T, key: string)
    requires Distinct(k, xs)
    ensures Distinct(k, Put(k, xs, x))
    ensures Lookup(k, Put(k, xs, x), key) == if key == k.id(x) then Some(x) else Lookup(k, xs, key)
  {
    var after, i := Put(k, xs, x), Find(k, xs, k.id(x));
    assert after[i] == x;
    FindUnique(k, after, i);
    if key != k.id(x) {
      var j := Find(k, xs, key);
      if j < |xs| {
        assert after[j] == xs[j];
        FindUnique(k, after, j);
      }
    }
  }

  lemma TwiceCounts<T>(xs: seq<T>, p: nat, q: nat)
    requires p < q < |xs| && xs[p] == xs[q]
    ensures multiset(xs)[xs[p]] >= 2
  {
    assert xs == xs[..q] + ([xs[q]] + xs[q + 1..]);
    assert xs[..q][p] in multiset(xs[..q]);
  }

  lemma {:induction false} DistinctCountsOnce<T>(k: Keying<T>, xs: seq<T>, x: T)
    requires Distinct(k, xs)
    ensures multiset(xs)[x] <= 1
  {
    if xs != [] {
      DistinctCountsOnce(k, xs[1..], x);
      TailMultiset(xs);
      forall j | 0 <= j < |xs[1..]| ensures xs[1..][j] != xs[0] {
        assert xs[1..][j] == xs[j + 1];
      }
    }
  }

  lemma PermutationDistinct<T>(k: Keying<T>, xs: seq<T>, ys: seq<T>)
    requires Distinct(k, xs) && multiset(xs) == multiset(ys)
    ensures Distinct(k, ys)
  {
    SameElements(xs, ys);
    forall p, q | 0 <= p < q < |ys| ensures k.id(ys[p]) != k.id(ys[q]) {
      assert ys[p] in Elements(xs) && ys[q] in Elements(xs);
      var i :| 0 <= i < |xs| && xs[i] == ys[p];
      var j :| 0 <= j < |xs| && xs[j] == ys[q];
      if ys[p] == ys[q] {
        TwiceCounts(ys, p, q);
        DistinctCountsOnce(k, xs, ys[p]);
      }
    }
  }

  // ---------------------------------------------------------------- what a listing is

  /** Each entry has an earlier stamp than those after it, or the same stamp and a smaller id. */
  ghost predicate InOrder<T>(stamp: T -> string, id: T -> string, xs: seq<T>) {
    forall i, j | 0 <= i < j < |xs| ::
      StringLess(stamp(xs[i]), stamp(xs[j])) || (stamp(xs[i]) == stamp(xs[j]) && StringLess(id(xs[i]), id(xs[j])))
  }

  /** The entries of a store in the order of time stamp and id, each once. */
  ghost predicate IsListing<T>(k: Keying<T>, listed: seq<T>, xs: seq<T>) {
    && multiset(listed) == multiset(xs)
    && (Distinct(k, xs) ==> Distinct(k, listed) && Sorted(listed, Order(k)) && InOrder(k.stamp, k.id, listed))
  }

  lemma SortedInOrder<T>(k: Keying<T>, xs: seq<T>)
    requires Distinct(k, xs) && Sorted(xs, Order(k))
    ensures InOrder(k.stamp, k.id, xs)
  {
    KeysDecide(k, xs);
    hide StringLess;
    forall i, j | 0 <= i < j < |xs|
      ensures StringLess(k.stamp(xs[i]), k.stamp(xs[j])) || (k.stamp(xs[i]) == k.stamp(xs[j]) && StringLess(k.id(xs[i]), k.id(xs[j])))
    {
      assert xs[i] in Elements(xs) && xs[j] in Elements(xs);
      assert !Order(k)(xs[j], xs[i]) && xs[i] != xs[j];
    }
  }

  lemma SavedLists<T>(k: Keying<T>, xs: seq<T>)
    ensures IsListing(k, Saved(k, xs), xs)
  {
    SortPermutes(xs, Order(k));
    if Distinct(k, xs) {
      PermutationDistinct(k, xs, Saved(k, xs));
      KeysDecide(k, xs);
      SortSorts(xs, Order(k), Elements(xs));
      SortedInOrder(k, Saved(k, xs));
    }
  }

  /** What a look-up answers: the entry stored under the key, or that there is none. */
  ghost predicate IsStored<T>(k: Keying<T>, xs: seq<T>, key: string, found: Option<T>) {
    && (found.Some? ==> found.value in xs && k.id(found.value) == key)
    && (found.None? ==> forall x | x in xs :: k.id(x) != key)
    && (Distinct(k, xs) ==> forall x | x in xs && k.id(x) == key :: found == Some(x))
  }

  lemma LookupFinds<T>(k: Keying<T>, xs: seq<T>, key: string)
    ensures IsStored(k, xs, key, Lookup(k, xs, key))
  {
    forall x | x in xs && k.id(x) == key ensures Lookup(k, xs, key).Some? && (Distinct(k, xs) ==> Lookup(k, xs, key) == Some(x)) {
      var i :| 0 <= i < |xs| && xs[i] == x;
      assert Find(k, xs, key) <= i;
      if Distinct(k, xs) { FindUnique(k, xs, i); }
    }
  }

  // ---------------------------------------------------------------- the array holds what the map holds

  /** The file holds the entries of the map, sorted. */
  ghost predicate Backs<T>(k: Keying<T>, file: seq<T>, map_: seq<T>) {
    Distinct(k, map_) && file == Saved(k, map_)
  }

  lemma BacksPermutes<T>(k: Keying<T>, file: seq<T>, map_: seq<T>)
    requires Backs(k, file, map_)
    ensures multiset(file) == multiset(map_) && |file| == |map_| && Distinct(k, file) && Elements(file) == Elements(map_)
  {
    SortPermutes(map_, Order(k));
    SameElements(file, map_);
    PermutationDistinct(k, map_, file);
  }

  /** Any two arrangements of the same entries are saved alike. */
  lemma SavedAlike<T>(k: Keying<T>, xs: seq<T>, ys: seq<T>)
    requires Distinct(k, xs) && multiset(xs) == multiset(ys)
    ensures Saved(k, xs) == Saved(k, ys)
  {
    KeysDecide(k, xs);
    SortCanonical(xs, ys, Order(k));
  }

  lemma BacksLookup<T>(k: Keying<T>, file: seq<T>, map_: seq<T>, key: string)
    requires Backs(k, file, map_)
    ensures Has(k, file, key) <==> Has(k, map_, key)
    ensures Lookup(k, file, key) == Lookup(k, map_, key)
  {
    BacksPermutes(k, file, map_);
    if Has(k, file, key) { LookupInBoth(k, file, map_, key); }
    if Has(k, map_, key) { LookupInBoth(k, map_, file, key); }
  }

  lemma LookupInBoth<T>(k: Keying<T>, xs: seq<T>, ys: seq<T>, key: string)
    requires Distinct(k, ys) && Elements(xs) == Elements(ys) && Has(k, xs, key)
    ensures Has(k, ys, key) && Lookup(k, xs, key) == Lookup(k, ys, key)
  {
    var x := xs[Find(k, xs, key)];
    assert x in Elements(ys);
    var j :| 0 <= j < |ys| && ys[j] == x;
    FindUnique(k, ys, j);
  }

  lemma BacksAdd<T>(k: Keying<T>, file: seq<T>, map_: seq<T>, x: T)
    requires Backs(k, file, map_) && !Has(k, map_, k.id(x))
    ensures Backs(k, Saved(k, file + [x]), map_ + [x])
  {
    BacksPermutes(k, file, map_);
    SavedAlike(k, map_ + [x], file + [x]);
  }

  lemma ReplaceMultiset<T>(k: Keying<T>, xs: seq<T>, x: T)
    requires Has(k, xs, k.id(x))
    ensures multiset(Replace(k, xs, x)) == multiset(xs) - multiset{Lookup(k, xs, k.id(x)).value} + multiset{x}
  {
  }

  lemma BacksReplace<T>(k: Keying<T>, file: seq<T>, map_: seq<T>, x: T)
    requires Backs(k, file, map_) && Has(k, map_, k.id(x))
    ensures Has(k, file, k.id(x)) && Backs(k, Saved(k, Replace(k, file, x)), Replace(k, map_, x))
  {
    BacksPermutes(k, file, map_);
    BacksLookup(k, file, map_, k.id(x));
    ReplaceMultiset(k, file, x);
    ReplaceMultiset(k, map_, x);
    FindUnique(k, map_, Find(k, map_, k.id(x)));
    SavedAlike(k, Replace(k, map_, x), Replace(k, file, x));
  }

  lemma {:induction false} WithoutDistinct<T>(k: Keying<T>, xs: seq<T>, keep: T -> bool)
    requires Distinct(k, xs)
    ensures Distinct(k, Filter(xs, keep))
  {
    if xs != [] {
      WithoutDistinct(k, xs[1..], keep);
      var rest := Filter(xs[1..], keep);
      forall j: nat | j < |rest| ensures k.id(rest[j]) != k.id(xs[0]) {
        var i := FilterIndex(xs[1..], keep, j);
        assert xs[1..][i] == xs[i + 1];
      }
    }
  }

  lemma BacksFilter<T>(k: Keying<T>, file: seq<T>, map_: seq<T>, keep: T -> bool)
    requires Backs(k, file, map_)
    ensures Backs(k, Saved(k, Filter(file, keep)), Filter(map_, keep))
  {
    BacksPermutes(k, file, map_);
    FilterPermutes(map_, file, keep);
    WithoutDistinct(k, map_, keep);
    SavedAlike(k, Filter(map_, keep), Filter(file, keep));
  }

  /** Reading the file and sorting once more gives the sorted map. */
  lemma BacksSorted<T>(k: Keying<T>, file: seq<T>, map_: seq<T>)
    requires Backs(k, file, map_)
    ensures Saved(k, file) == Saved(k, map_)
  {
    BacksPermutes(k, file, map_);
    SavedAlike(k, map_, file);
  }

  lemma BacksMap<T>(k: Keying<T>, file: seq<T>, map_: seq<T>, f: T -> T)
    requires Backs(k, file, map_)
    requires forall x | x in Elements(map_) :: k.id(f(x)) == k.id(x) && k.stamp(f(x)) == k.stamp(x)
    ensures Backs(k, Saved(k, Map(file, f)), Map(map_, f))
  {
    BacksPermutes(k, file, map_);
    assert forall i | 0 <= i < |map_| :: map_[i] in Elements(map_);
    forall x, y | x in map_ && y in map_ ensures Order(k)(x, y) == Order(k)(f(x), f(y)) {
      assert x in Elements(map_) && y in Elements(map_);
    }
    SortMap(map_, f, Order(k), Order(k));
    var sorted := Map(file, f);
    assert sorted == Saved(k, Map(map_, f));
    assert Distinct(k, Map(map_, f));
    BacksSorted(k, sorted, Map(map_, f));
  }
}
