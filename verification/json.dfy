/** JavaScript values as the resolvers handle them: parsed JSON bodies,
    GraphQL argument objects and `undefined`. An object is the ordered
    list of its own entries, in the order `Object.entries` reports them.
    A JavaScript object never holds a key twice; the list does not enforce
    this, and `Lookup` and `Assign` act on the first entry with a key, which
    for an object built by JavaScript is its only entry with that key. */
module Json {
  import Text

  datatype Value =
    | Undefined
    | Null
    | Bool(b: bool)
    | Num(n: int)
    | Str(s: string)
    | Arr(elems: seq<Value>)
    | Obj(entries: seq<(string, Value)>)

  type Entry = (string, Value)

  /** How a resolver's promise is rejected. */
  datatype Error =
    | TypeError                 // a property read on null/undefined, or a method the value lacks
    | Upstream(message: string) // `new Error(json.error.message)` after a non-ok response
    | NetworkFailure            // the outbound fetch or the token exchange itself was rejected

  datatype Result<T> = Ok(value: T) | Err(error: Error)

  /** The string values `ss` as JavaScript values. */
  function Strs(ss: seq<string>): (vs: seq<Value>)
    ensures |vs| == |ss|
    ensures forall i :: 0 <= i < |ss| ==> vs[i] == Str(ss[i])
  {
    seq(|ss|, i requires 0 <= i < |ss| => Str(ss[i]))
  }

  /** `v === null || v === undefined` */
  predicate Nullish(v: Value)
  {
    v.Undefined? || v.Null?
  }

  /** ECMAScript ToBoolean. */
  predicate Truthy(v: Value)
  {
    match v
    case Undefined => false
    case Null => false
    case Bool(b) => b
    case Num(n) => n != 0
    case Str(s) => s != ""
    case Arr(_) => true
    case Obj(_) => true
  }

  function Keys(es: seq<Entry>): (ks: seq<string>)
    ensures |ks| == |es|
    ensures forall i :: 0 <= i < |es| ==> ks[i] == es[i].0
  {
    seq(|es|, i requires 0 <= i < |es| => es[i].0)
  }

  /** The value stored under `key`, or `undefined`. */
  function Lookup(es: seq<Entry>, key: string): (r: Value)
    ensures key !in Keys(es) ==> r == Undefined
    ensures key in Keys(es) ==> (key, r) in es
  {
    if es == [] then Undefined
    else if es[0].0 == key then es[0].1
    else Lookup(es[1..], key)
  }

  /** `v[key]` on a value that is not null or undefined. Strings, numbers,
      booleans and arrays have none of the keys the resolvers read. */
  function Field(v: Value, key: string): Value
  {
    if v.Obj? then Lookup(v.entries, key) else Undefined
  }

  /** `v.key`, which throws on null and undefined. */
  function Prop(v: Value, key: string): Result<Value>
  {
    if Nullish(v) then Err(TypeError) else Ok(Field(v, key))
  }

  /** ECMAScript ToString. */
  function ToStr(v: Value): string
    decreases v
  {
    match v
    case Undefined => "undefined"
    case Null => "null"
    case Bool(b) => if b then "true" else "false"
    case Num(n) => Text.IntToString(n)
    case Str(s) => s
    case Arr(xs) =>
      // Array.prototype.join: null and undefined elements become ""
      Text.Join(seq(|xs|, i requires 0 <= i < |xs| => if Nullish(xs[i]) then "" else ToStr(xs[i])), ',')
    case Obj(_) => "[object Object]"
  }

  /** `Object.entries(v)`. */
  function Entries(v: Value): (r: Result<seq<Entry>>)
    ensures r.Err? <==> Nullish(v)
    ensures v.Obj? ==> r == Ok(v.entries)
    ensures v.Arr? ==> r.Ok? && |r.value| == |v.elems| && forall i :: 0 <= i < |v.elems| ==> r.value[i].1 == v.elems[i]
  {
    match v
    case Undefined => Err(TypeError)
    case Null => Err(TypeError)
    case Obj(es) => Ok(es)
    case Arr(xs) => Ok(seq(|xs|, i requires 0 <= i < |xs| => (Text.NatToString(i), xs[i])))
    case Str(s) => Ok(seq(|s|, i requires 0 <= i < |s| => (Text.NatToString(i), Str([s[i]]))))
    case Bool(_) => Ok([])
    case Num(_) => Ok([])
  }

  /** The rest object of `const {key, ...rest} = obj`. */
  function Without(es: seq<Entry>, key: string): (r: seq<Entry>)
    ensures |r| <= |es|
  {
    if es == [] then []
    else (if es[0].0 == key then [] else [es[0]]) + Without(es[1..], key)
  }

  /** The rest object holds exactly the entries under other keys, and so
      no entry under `key`. */
  lemma {:induction false} WithoutMembers(es: seq<Entry>, key: string)
    ensures forall e :: e in Without(es, key) <==> e in es && e.0 != key
    ensures key !in Keys(Without(es, key))
    decreases |es|
  {
    if es != [] {
      WithoutMembers(es[1..], key);
      assert es == [es[0]] + es[1..];
    }
    var r := Without(es, key);
    forall i | 0 <= i < |r|
      ensures Keys(r)[i] != key
    {
      assert r[i] in r;
    }
  }

  /** Removing a key distributes over concatenation: the entries that stay
      keep their relative order. */
  lemma {:induction false} WithoutAppend(a: seq<Entry>, b: seq<Entry>, key: string)
    ensures Without(a + b, key) == Without(a, key) + Without(b, key)
    decreases |a|
  {
    if a == [] {
      assert a + b == b;
    } else {
      assert (a + b)[1..] == a[1..] + b;
      WithoutAppend(a[1..], b, key);
    }
  }

  /** Removing a key the entries do not hold changes nothing. */
  lemma {:induction false} WithoutAbsent(es: seq<Entry>, key: string)
    requires key !in Keys(es)
    ensures Without(es, key) == es
    decreases |es|
  {
    if es != [] {
      assert Keys(es[1..]) == Keys(es)[1..];
      WithoutAbsent(es[1..], key);
      assert [es[0]] + es[1..] == es;
    }
  }

  /** Every key of the rest object is a key of the original. */
  lemma WithoutKeys(es: seq<Entry>, key: string)
    ensures forall k :: k in Keys(Without(es, key)) ==> k in Keys(es)
  {
    var r := Without(es, key);
    WithoutMembers(es, key);
    forall k | k in Keys(r)
      ensures k in Keys(es)
    {
      var i :| 0 <= i < |r| && Keys(r)[i] == k;
      assert r[i] in es;
      var j :| 0 <= j < |es| && es[j] == r[i];
      assert Keys(es)[j] == k;
    }
  }

  /** The rest object of arguments holding `key` once is the arguments
      before it followed by the arguments after it. */
  lemma WithoutOne(before: seq<Entry>, e: Entry, after: seq<Entry>)
    requires e.0 !in Keys(before) && e.0 !in Keys(after)
    ensures Without(before + [e] + after, e.0) == before + after
  {
    WithoutAppend(before + [e], after, e.0);
    WithoutDropsLast(before, e);
    WithoutAbsent(before, e.0);
    WithoutAbsent(after, e.0);
  }

  lemma WithoutDropsLast(before: seq<Entry>, e: Entry)
    ensures Without(before + [e], e.0) == Without(before, e.0)
  {
    WithoutAppend(before, [e], e.0);
    assert Without([e], e.0) == [] by { assert [e][1..] == []; }
  }

  /** `obj[key] = v`: an existing key keeps its place, a new key goes last. */
  function Assign(es: seq<Entry>, key: string, v: Value): (r: seq<Entry>)
    ensures |r| == if key in Keys(es) then |es| else |es| + 1
    ensures forall i :: 0 <= i < |es| ==> r[i].0 == es[i].0
    ensures key !in Keys(es) ==> r[|es|] == (key, v)
    ensures Lookup(r, key) == v
    ensures forall i :: 0 <= i < |es| && es[i].0 != key ==> r[i] == es[i]
  {
    if es == [] then [(key, v)]
    else if es[0].0 == key then [(key, v)] + es[1..]
    else
      var rest := Assign(es[1..], key, v);
      assert Keys(es) == [es[0].0] + Keys(es[1..]);
      assert ([es[0]] + rest)[1..] == rest;
      [es[0]] + rest
  }

  /** Assigning to a key the object already has leaves its keys as they were. */
  lemma AssignExisting(es: seq<Entry>, key: string, v: Value)
    requires key in Keys(es)
    ensures Keys(Assign(es, key, v)) == Keys(es)
  {
  }
}
