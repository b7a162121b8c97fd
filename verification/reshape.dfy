/** The response reshapers: `createEdge`, `objToList`, and the search
    resolver's in-place rewrite of every top-level section into an edge. */
module Reshape {
  import opened Json

  /** `createEdge(obj)`: `{items: obj.items, paging: obj}`; throws on null
      and undefined because it reads `obj.items`. */
  function CreateEdge(v: Value): (r: Result<Value>)
    ensures r.Err? <==> Nullish(v)
    ensures r.Err? ==> r.error == TypeError
    ensures r.Ok? ==> r.value.Obj? && Keys(r.value.entries) == ["items", "paging"]
    ensures r.Ok? ==> Field(r.value, "items") == Field(v, "items")
    ensures r.Ok? ==> Field(r.value, "paging") == v
  {
    match Prop(v, "items")
    case Err(e) => Err(e)
    case Ok(items) => Ok(Obj([("items", items), ("paging", v)]))
  }

  /** One element of `objToList`'s result: `{key: entry[0], value: entry[1]}`. */
  function Pair(e: Entry): Value
  {
    Obj([("key", Str(e.0)), ("value", e.1)])
  }

  /** The list `objToList` builds, one pushed element per entry. */
  function Pairs(es: seq<Entry>): seq<Value>
    decreases |es|
  {
    if es == [] then [] else Pairs(es[..|es| - 1]) + [Pair(es[|es| - 1])]
  }

  /** The i-th element of the list is the pair of the i-th entry. */
  lemma {:induction false} PairsAt(es: seq<Entry>)
    ensures |Pairs(es)| == |es|
    ensures forall i :: 0 <= i < |es| ==> Pairs(es)[i] == Pair(es[i])
    decreases |es|
  {
    if es != [] {
      PairsAt(es[..|es| - 1]);
    }
  }

  /** Reading `{key, value}` back out of one element. */
  function Unpair(x: Value): Entry
  {
    var k := Field(x, "key");
    (if k.Str? then k.s else ToStr(k), Field(x, "value"))
  }

  /** The pair list loses nothing: reading each element back gives the
      object's entries, in their order. */
  lemma PairsRoundTrip(es: seq<Entry>)
    ensures |Pairs(es)| == |es|
    ensures forall i :: 0 <= i < |es| ==> Unpair(Pairs(es)[i]) == es[i]
  {
    PairsAt(es);
    forall i | 0 <= i < |es|
      ensures Unpair(Pairs(es)[i]) == es[i]
    {
      UnpairPair(es[i]);
    }
  }

  lemma UnpairPair(e: Entry)
    ensures Unpair(Pair(e)) == e
  {
    var es := [("key", Str(e.0)), ("value", e.1)];
    assert "key"[0] != "value"[0];
    assert Lookup(es, "key") == Str(e.0);
    assert Lookup(es, "value") == Lookup(es[1..], "value") == e.1;
  }

  /** What `objToList(v)` returns: the pair list of `Object.entries(v)`. */
  function PairList(v: Value): (r: Result<Value>)
    ensures r.Err? <==> Nullish(v)
  {
    match Entries(v)
    case Err(e) => Err(e)
    case Ok(es) => Ok(Arr(Pairs(es)))
  }

  /** `objToList`: push `{key, value}` for every entry, in order. */
  method ObjToList(obj: Value) returns (r: Result<Value>)
    ensures r == PairList(obj)
  {
    var entries := Entries(obj);
    if entries.Err? {
      return Err(entries.error);
    }
    var es := entries.value;
    var list: seq<Value> := [];
    var i := 0;
    while i < |es|
      invariant 0 <= i <= |es|
      invariant list == Pairs(es[..i])
    {
      assert es[..i + 1][..i] == es[..i];
      list := list + [Pair(es[i])];
      i := i + 1;
    }
    assert es[..i] == es;
    r := Ok(Arr(list));
  }

  /** The entries after `obj[key] = createEdge(value)` for each, in order;
      a value that cannot be wrapped rejects the whole rewrite. */
  function WrapEntries(es: seq<Entry>): (r: Result<seq<Entry>>)
    ensures r.Err? <==> exists k :: 0 <= k < |es| && Nullish(es[k].1)
    ensures r.Err? ==> r.error == TypeError
    ensures r.Ok? ==> |r.value| == |es|
    ensures r.Ok? ==> forall k :: 0 <= k < |es| ==>
      r.value[k].0 == es[k].0 && CreateEdge(es[k].1) == Ok(r.value[k].1)
  {
    if exists k :: 0 <= k < |es| && Nullish(es[k].1) then Err(TypeError)
    else Ok(seq(|es|, k requires 0 <= k < |es| => (es[k].0, CreateEdge(es[k].1).value)))
  }

  function Values(es: seq<Entry>): (vs: seq<Value>)
    ensures |vs| == |es|
    ensures forall i :: 0 <= i < |es| ==> vs[i] == es[i].1
  {
    seq(|es|, i requires 0 <= i < |es| => es[i].1)
  }

  /** The search resolver's post-processing of the response `v`:
      `Object.entries(v).forEach(entry => v[entry[0]] = createEdge(entry[1]))`.
      Writes to a string's characters are ignored; an array's elements are
      its entries. */
  function SectionsWrapped(v: Value): (r: Result<Value>)
    ensures r.Err? <==>
      || Nullish(v)
      || (v.Obj? && exists k :: 0 <= k < |v.entries| && Nullish(v.entries[k].1))
      || (v.Arr? && exists k :: 0 <= k < |v.elems| && Nullish(v.elems[k]))
    ensures r.Err? ==> r.error == TypeError
    ensures !Nullish(v) && !v.Obj? && !v.Arr? ==> r == Ok(v)
    ensures v.Obj? && r.Ok? ==> r.value.Obj? && Keys(r.value.entries) == Keys(v.entries)
    ensures v.Arr? && r.Ok? ==>
      && r.value.Arr? && |r.value.elems| == |v.elems|
      && forall k :: 0 <= k < |v.elems| ==> CreateEdge(v.elems[k]) == Ok(r.value.elems[k])
  {
    match v
    case Undefined => Err(TypeError)
    case Null => Err(TypeError)
    case Obj(es) =>
      (match WrapEntries(es)
       case Err(e) => Err(e)
       case Ok(wrapped) => Ok(Obj(wrapped)))
    case Arr(_) =>
      (match WrapEntries(Entries(v).value)
       case Err(e) => Err(e)
       case Ok(wrapped) => Ok(Arr(Values(wrapped))))
    case _ => Ok(v)
  }

  /** A search response keeps its sections and their order, and every
      section becomes the edge of what it held; a missing (null) section
      rejects the response. */
  lemma SectionsWrappedShape(v: Value)
    requires v.Obj?
    ensures SectionsWrapped(v).Ok? <==> forall k :: 0 <= k < |v.entries| ==> !Nullish(v.entries[k].1)
    ensures SectionsWrapped(v).Ok? ==>
      && SectionsWrapped(v).value.Obj?
      && Keys(SectionsWrapped(v).value.entries) == Keys(v.entries)
      && forall k :: 0 <= k < |v.entries| ==>
           CreateEdge(v.entries[k].1) == Ok(SectionsWrapped(v).value.entries[k].1)
  {
  }

  /** Entries that hold, key by key, the edge of each original value are
      the rewrite's result. */
  lemma WrapEntriesPointwise(es: seq<Entry>, out: seq<Entry>)
    requires |out| == |es|
    requires forall k :: 0 <= k < |es| ==> !Nullish(es[k].1) && out[k] == (es[k].0, CreateEdge(es[k].1).value)
    ensures WrapEntries(es) == Ok(out)
  {
    assert WrapEntries(es).value == out;
  }

  /** A null or undefined section rejects the rewrite with a TypeError. */
  lemma SectionsRejected(obj: Value, i: int)
    requires obj.Obj? || obj.Arr?
    requires 0 <= i < |Entries(obj).value| && Nullish(Entries(obj).value[i].1)
    ensures SectionsWrapped(obj) == Err(TypeError)
  {
  }

  /** The in-place rewrite of the search resolver. */
  method WrapSections(obj: Value) returns (r: Result<Value>)
    ensures r == SectionsWrapped(obj)
  {
    if !(obj.Obj? || obj.Arr?) {
      r := if Nullish(obj) then Err(TypeError) else Ok(obj);
      return;
    }
    var es := Entries(obj).value;
    var entries := es;
    var i := 0;
    while i < |entries|
      invariant 0 <= i <= |entries| == |es|
      invariant forall k :: i <= k < |es| ==> entries[k] == es[k]
      invariant forall k :: 0 <= k < i ==>
        !Nullish(es[k].1) && entries[k] == (es[k].0, CreateEdge(es[k].1).value)
    {
      var edge := CreateEdge(entries[i].1);
      if edge.Err? {
        SectionsRejected(obj, i);
        return Err(edge.error);
      }
      entries := entries[i := (entries[i].0, edge.value)];
      i := i + 1;
    }
    WrapEntriesPointwise(es, entries);
    r := if obj.Obj? then Ok(Obj(entries)) else Ok(Arr(Values(entries)));
    assert r == SectionsWrapped(obj);
  }
}
