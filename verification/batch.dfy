/** The batch function given to the audio-features loader: the order it
    puts the multi-id response in (`ids.indexOf(item.id)`), the in-place
    sort that establishes it, and why that hands every key its own item
    when the server answers each key once. */
module Batch {
  import opened Json

  /** `ids.indexOf(v)`: the first position of `v` among the keys, -1 if absent. */
  function IndexOf(ids: seq<string>, v: Value): (k: int)
    ensures -1 <= k < |ids|
    ensures k >= 0 ==> v == Str(ids[k]) && forall j :: 0 <= j < k ==> v != Str(ids[j])
    ensures k == -1 ==> forall j :: 0 <= j < |ids| ==> v != Str(ids[j])
  {
    if ids == [] then -1
    else if v == Str(ids[0]) then 0
    else
      var k := IndexOf(ids[1..], v);
      if k == -1 then -1 else k + 1
  }

  /** `item.id` (undefined for every item that is not an object; the sort
      never reads it from an undefined item, and `Features` rejects a list
      with a null item it would read it from). */
  function IdOf(item: Value): Value
  {
    Field(item, "id")
  }

  /** The sort key of the comparator `ids.indexOf(a.id) - ids.indexOf(b.id)`. */
  function Rank(ids: seq<string>, item: Value): int
  {
    IndexOf(ids, IdOf(item))
  }

  /** Where `sort` puts an item: `Array.prototype.sort` never hands an
      undefined item to the comparator and moves it after every other item;
      the others are ordered by their rank. */
  function SortKey(ids: seq<string>, item: Value): int
  {
    if item.Undefined? then |ids| else Rank(ids, item)
  }

  /** The order the sort establishes. */
  predicate RankSorted(ids: seq<string>, s: seq<Value>)
  {
    forall i, j :: 0 <= i < j < |s| ==> SortKey(ids, s[i]) <= SortKey(ids, s[j])
  }

  /** In that order the undefined items come last. */
  lemma UndefinedLast(ids: seq<string>, s: seq<Value>)
    requires RankSorted(ids, s)
    ensures forall i, j :: 0 <= i < j < |s| && s[i].Undefined? ==> s[j].Undefined?
  {
  }

  /** The comparator is called at all: there are two items that are not undefined. */
  predicate Compared(s: seq<Value>)
  {
    exists i, j :: 0 <= i < j < |s| && !s[i].Undefined? && !s[j].Undefined?
  }

  /** An array whose items the comparator can read: once it is called, it
      is called on every item that is not undefined, and `null.id` throws. */
  predicate Sortable(list: Value)
  {
    list.Arr? && (Compared(list.elems) ==> forall k :: 0 <= k < |list.elems| ==> !list.elems[k].Null?)
  }

  /** `objs.audio_features`, as far as `sort` gets with it: a missing list
      or one that is not an array has no `sort`, and once the comparator
      runs it reads `.id` of every item that is not undefined, which throws
      on null. */
  function Features(body: Value): (r: Result<seq<Value>>)
    ensures r.Ok? <==> !Nullish(body) && Sortable(Field(body, "audio_features"))
    ensures r.Ok? ==> r.value == Field(body, "audio_features").elems
  {
    match Prop(body, "audio_features")
    case Err(e) => Err(e)
    case Ok(list) =>
      if !list.Arr? then Err(TypeError)
      else if Compared(list.elems) && exists k :: 0 <= k < |list.elems| && list.elems[k].Null? then Err(TypeError)
      else Ok(list.elems)
  }

  /** `items.sort((a, b) => ids.indexOf(a.id) - ids.indexOf(b.id))`, in place. */
  method SortByRank(a: array<Value>, ids: seq<string>)
    modifies a
    ensures RankSorted(ids, a[..])
    ensures multiset(a[..]) == multiset(old(a[..]))
  {
    SortBy(a, v => SortKey(ids, v));
  }

  /** The first `n` elements are in key order. */
  ghost predicate SortedPrefix(a: array<Value>, key: Value -> int, n: int)
    reads a
  {
    forall k, l :: 0 <= k < l < n && l < a.Length ==> key(a[k]) <= key(a[l])
  }

  /** `Array.prototype.sort` with a comparator that subtracts two keys,
      as an insertion sort. */
  method SortBy(a: array<Value>, key: Value -> int)
    modifies a
    ensures forall k, l :: 0 <= k < l < a.Length ==> key(a[k]) <= key(a[l])
    ensures multiset(a[..]) == multiset(old(a[..]))
  {
    var i := 0;
    while i < a.Length
      invariant 0 <= i <= a.Length
      invariant SortedPrefix(a, key, i)
      invariant multiset(a[..]) == multiset(old(a[..]))
    {
      Insert(a, key, i);
      i := i + 1;
    }
  }

  /** One step of the insertion sort: moves `a[i]` left past every element
      of the sorted prefix whose key is larger. */
  method Insert(a: array<Value>, key: Value -> int, i: int)
    requires 0 <= i < a.Length
    requires SortedPrefix(a, key, i)
    modifies a
    ensures SortedPrefix(a, key, i + 1)
    ensures multiset(a[..]) == multiset(old(a[..]))
  {
    var j := i;
    while j > 0 && key(a[j - 1]) > key(a[j])
      invariant 0 <= j <= i
      invariant forall k, l :: 0 <= k < l <= i && k != j && l != j ==> key(a[k]) <= key(a[l])
      invariant forall k, l :: 0 <= k < j < l <= i ==> key(a[k]) <= key(a[l])
      invariant forall l :: j < l <= i ==> key(a[j]) < key(a[l])
      invariant multiset(a[..]) == multiset(old(a[..]))
    {
      Swap(a, j - 1, j);
      j := j - 1;
    }
    forall k | 0 <= k < j
      ensures key(a[k]) <= key(a[j])
    {
      if k < j - 1 {
        assert key(a[k]) <= key(a[j - 1]);
      }
    }
  }

  method Swap(a: array<Value>, i: int, j: int)
    requires 0 <= i < j < a.Length
    modifies a
    ensures a[i] == old(a[j]) && a[j] == old(a[i])
    ensures forall k :: 0 <= k < a.Length && k != i && k != j ==> a[k] == old(a[k])
    ensures multiset(a[..]) == multiset(old(a[..]))
  {
    a[i], a[j] := a[j], a[i];
  }

  function Map<A, B>(f: A -> B, s: seq<A>): (r: seq<B>)
    ensures |r| == |s|
    ensures forall i :: 0 <= i < |s| ==> r[i] == f(s[i])
  {
    seq(|s|, i requires 0 <= i < |s| => f(s[i]))
  }

  /** Removing position `k` takes one copy of `t[k]` out of the multiset,
      before and after mapping. */
  lemma Drop<A, B>(f: A -> B, t: seq<A>, k: int)
    requires 0 <= k < |t|
    ensures multiset(t) == multiset(t[..k] + t[k + 1..]) + multiset{t[k]}
    ensures multiset(Map(f, t)) == multiset(Map(f, t[..k] + t[k + 1..])) + multiset{f(t[k])}
  {
    assert t == t[..k] + [t[k]] + t[k + 1..];
    var m := Map(f, t);
    assert m == m[..k] + [f(t[k])] + m[k + 1..];
    assert Map(f, t[..k] + t[k + 1..]) == m[..k] + m[k + 1..];
  }

  /** Mapping two permutations of each other gives two permutations of each other. */
  lemma {:induction false} MapPermutation<A, B>(f: A -> B, s: seq<A>, t: seq<A>)
    requires multiset(s) == multiset(t)
    ensures multiset(Map(f, s)) == multiset(Map(f, t))
    decreases |s|
  {
    if s == [] {
      assert |t| == |multiset(t)| == 0;
    } else {
      assert s[0] in multiset(t) by { assert s[0] in multiset(s); }
      var k :| 0 <= k < |t| && t[k] == s[0];
      Drop(f, s, 0);
      Drop(f, t, k);
      Cancel(multiset(s[..0] + s[1..]), multiset(t[..k] + t[k + 1..]), s[0]);
      MapPermutation(f, s[..0] + s[1..], t[..k] + t[k + 1..]);
    }
  }

  lemma Cancel<T>(a: multiset<T>, b: multiset<T>, x: T)
    requires a + multiset{x} == b + multiset{x}
    ensures a == b
  {
    assert a == (a + multiset{x}) - multiset{x};
    assert b == (b + multiset{x}) - multiset{x};
  }

  predicate Ascending(s: seq<int>)
  {
    forall i, j :: 0 <= i < j < |s| ==> s[i] <= s[j]
  }

  lemma AscendingHeadIsLeast(s: seq<int>, x: int)
    requires Ascending(s) && x in s
    ensures s[0] <= x
  {
  }

  lemma DropHead(s: seq<int>)
    requires s != []
    ensures Ascending(s) ==> Ascending(s[1..])
    ensures multiset(s[1..]) == multiset(s) - multiset{s[0]}
  {
    assert s == [s[0]] + s[1..];
  }

  /** Two ascending arrangements of one multiset start alike. */
  lemma HeadsEqual(a: seq<int>, b: seq<int>)
    requires a != [] && b != []
    requires Ascending(a) && Ascending(b)
    requires multiset(a) == multiset(b)
    ensures a[0] == b[0]
  {
    assert a[0] in multiset(b) by { assert a[0] in multiset(a); }
    assert b[0] in multiset(a) by { assert b[0] in multiset(b); }
    AscendingHeadIsLeast(b, a[0]);
    AscendingHeadIsLeast(a, b[0]);
  }

  /** A multiset has one ascending arrangement. */
  lemma {:induction false} AscendingUnique(a: seq<int>, b: seq<int>)
    requires Ascending(a) && Ascending(b)
    requires multiset(a) == multiset(b)
    ensures a == b
    decreases |a|
  {
    assert |a| == |multiset(a)| == |multiset(b)| == |b|;
    if a != [] {
      HeadsEqual(a, b);
      DropHead(a);
      DropHead(b);
      AscendingUnique(a[1..], b[1..]);
      SameHeadSameTail(a, b);
    }
  }

  lemma SameHeadSameTail<T>(a: seq<T>, b: seq<T>)
    requires a != [] && b != [] && a[0] == b[0] && a[1..] == b[1..]
    ensures a == b
  {
  }

  predicate Distinct(ids: seq<string>)
  {
    forall i, j :: 0 <= i < j < |ids| ==> ids[i] != ids[j]
  }

  /** When the keys are distinct and the server answers each key exactly
      once, the sorted list has the item for `ids[i]` at position `i`, which
      is what the loader hands to the i-th `load` call. */
  lemma AnswersMatchKeys(ids: seq<string>, items: seq<Value>, out: seq<Value>)
    requires Distinct(ids)
    requires multiset(Map(IdOf, items)) == multiset(Strs(ids))
    requires multiset(out) == multiset(items)
    requires RankSorted(ids, out)
    ensures |out| == |ids|
    ensures forall i :: 0 <= i < |out| ==> IdOf(out[i]) == Str(ids[i])
  {
    var n := |ids|;
    var position := (v: Value) => IndexOf(ids, v);
    var found := Map(IdOf, out);
    MapPermutation(IdOf, out, items);
    MapPermutation(position, found, Strs(ids));
    var ranks := Map(position, found);
    var expected := Map(position, Strs(ids));
    assert |out| == |found| == |multiset(found)| == |multiset(Strs(ids))| == n;
    forall i | 0 <= i < n
      ensures expected[i] == i
    {
      var k := IndexOf(ids, Str(ids[i]));
      assert k >= 0;
      assert Str(ids[k]) == Str(ids[i]);
    }
    assert Ascending(expected);
    forall i | 0 <= i < n
      ensures !out[i].Undefined?
    {
      assert found[i] in multiset(Strs(ids));
    }
    forall i, j | 0 <= i < j < n
      ensures ranks[i] <= ranks[j]
    {
      assert SortKey(ids, out[i]) <= SortKey(ids, out[j]);
    }
    AscendingUnique(ranks, expected);
    forall i | 0 <= i < n
      ensures IdOf(out[i]) == Str(ids[i])
    {
      assert IndexOf(ids, found[i]) == i;
    }
  }
}
