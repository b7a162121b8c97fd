/** Building the outbound URL of `get`: dropping null and undefined
    parameters, appending the rest to a URLSearchParams list in order, and
    serializing that list as the application/x-www-form-urlencoded
    serializer of section 5.2 of the WHATWG URL Standard does. */
module Query {
  import opened Json
  import Text

  const BaseUrl: string := "https://api.spotify.com/v1"

  /** The percent-encoding of one name or one value (the
      application/x-www-form-urlencoded percent-encode set, space as '+'). */
  type Encoder = string -> string

  /** The parameters whose value is neither null nor undefined, in order. */
  function Kept(params: seq<Entry>): (r: seq<Entry>)
    ensures forall e :: e in r <==> e in params && !Nullish(e.1)
    ensures |r| <= |params|
  {
    if params == [] then []
    else (if Nullish(params[0].1) then [] else [params[0]]) + Kept(params[1..])
  }

  /** Filtering distributes over concatenation: survivors keep their relative order. */
  lemma {:induction false} KeptAppend(a: seq<Entry>, b: seq<Entry>)
    ensures Kept(a + b) == Kept(a) + Kept(b)
    decreases |a|
  {
    if a == [] {
      assert a + b == b;
    } else {
      assert (a + b)[1..] == a[1..] + b;
      KeptAppend(a[1..], b);
    }
  }

  /** Two surviving parameters appear in the query in the order they had. */
  lemma KeptKeepsOrder(a: seq<Entry>, x: Entry, b: seq<Entry>, y: Entry, c: seq<Entry>)
    requires !Nullish(x.1) && !Nullish(y.1)
    ensures Kept(a + [x] + b + [y] + c) == Kept(a) + [x] + Kept(b) + [y] + Kept(c)
  {
    KeptAppend(a + [x] + b + [y], c);
    KeptAppend(a + [x] + b, [y]);
    KeptAppend(a + [x], b);
    KeptAppend(a, [x]);
    assert Kept([x]) == [x] by { assert [x][1..] == []; }
    assert Kept([y]) == [y] by { assert [y][1..] == []; }
  }

  /** A parameter list without null or undefined values is kept whole. */
  lemma {:induction false} KeptAllPresent(params: seq<Entry>)
    requires forall i :: 0 <= i < |params| ==> !Nullish(params[i].1)
    ensures Kept(params) == params
    decreases |params|
  {
    if params != [] {
      KeptAllPresent(params[1..]);
      assert [params[0]] + params[1..] == params;
    }
  }

  /** The name/value string pairs URLSearchParams holds for entries. */
  function Stringified(es: seq<Entry>): (r: seq<(string, string)>)
    ensures |r| == |es|
  {
    seq(|es|, i requires 0 <= i < |es| => (es[i].0, ToStr(es[i].1)))
  }

  /** The filter and the `forEach(entry => searchParams.append(...))` of `get`. */
  method AppendPresent(params: seq<Entry>) returns (search: seq<(string, string)>)
    ensures search == Stringified(Kept(params))
  {
    search := [];
    var i := 0;
    while i < |params|
      invariant 0 <= i <= |params|
      invariant search == Stringified(Kept(params[..i]))
    {
      AppendStep(params, i);
      if !Nullish(params[i].1) {
        search := search + [(params[i].0, ToStr(params[i].1))];
      }
      i := i + 1;
    }
    assert params[..i] == params;
  }

  /** One more entry of the loop: appended when present, skipped otherwise. */
  lemma AppendStep(params: seq<Entry>, i: int)
    requires 0 <= i < |params|
    ensures Stringified(Kept(params[..i + 1])) ==
      Stringified(Kept(params[..i]))
      + (if Nullish(params[i].1) then [] else [(params[i].0, ToStr(params[i].1))])
  {
    assert params[..i + 1] == params[..i] + [params[i]];
    KeptAppend(params[..i], [params[i]]);
    assert Kept([params[i]]) == if Nullish(params[i].1) then [] else [params[i]] by {
      assert [params[i]][1..] == [];
    }
  }

  function EncodePair(encode: Encoder, p: (string, string)): string
  {
    encode(p.0) + "=" + encode(p.1)
  }

  function Pieces(encode: Encoder, pairs: seq<(string, string)>): (r: seq<string>)
    ensures |r| == |pairs|
  {
    seq(|pairs|, i requires 0 <= i < |pairs| => EncodePair(encode, pairs[i]))
  }

  /** `searchParams.toString()`: the encoded pairs joined by '&'. */
  function Serialize(encode: Encoder, pairs: seq<(string, string)>): string
  {
    Text.Join(Pieces(encode, pairs), '&')
  }

  /** The query string is empty exactly when there is no pair to serialize. */
  lemma SerializeEmpty(encode: Encoder, pairs: seq<(string, string)>)
    ensures Serialize(encode, pairs) == "" <==> pairs == []
  {
  }

  /** Reading a query string back: pieces between '&', each cut at its first '='. */
  function Parse(query: string): seq<(string, string)>
  {
    var pieces := Text.Split(query, '&');
    seq(|pieces|, i requires 0 <= i < |pieces| => Text.SplitAt(pieces[i], '='))
  }

  /** The serialized query reads back as the encoded pairs, in order,
      whenever the encoder escapes '&' and '=' (as percent-encoding does). */
  lemma ParseSerialize(encode: Encoder, pairs: seq<(string, string)>)
    requires pairs != []
    requires forall t :: '&' !in encode(t) && '=' !in encode(t)
    ensures Parse(Serialize(encode, pairs))
         == seq(|pairs|, i requires 0 <= i < |pairs| => (encode(pairs[i].0), encode(pairs[i].1)))
  {
    var pieces := Pieces(encode, pairs);
    forall i | 0 <= i < |pieces|
      ensures '&' !in pieces[i]
      ensures Text.SplitAt(pieces[i], '=') == (encode(pairs[i].0), encode(pairs[i].1))
    {
      Text.SplitAtFirstSeparator(encode(pairs[i].0), '=', encode(pairs[i].1));
    }
    Text.SplitJoin(pieces, '&');
  }

  /** The URL `get` requests for `suffix` and `params`. */
  function Url(encode: Encoder, suffix: string, params: seq<Entry>): (r: string)
    ensures |r| >= |BaseUrl + suffix| && r[..|BaseUrl + suffix|] == BaseUrl + suffix
    ensures |r| > |BaseUrl + suffix| ==> r[|BaseUrl + suffix|] == '?'
  {
    var query := Serialize(encode, Stringified(Kept(params)));
    BaseUrl + suffix + (if |query| > 0 then "?" + query else "")
  }

  /** The URL assembled from the appended pairs is `Url`. */
  lemma UrlOfQuery(encode: Encoder, suffix: string, params: seq<Entry>, search: seq<(string, string)>)
    requires search == Stringified(Kept(params))
    ensures var query := Serialize(encode, search);
      BaseUrl + suffix + (if |query| > 0 then "?" + query else "") == Url(encode, suffix, params)
  {
  }

  /** The URL is the bare path exactly when no parameter survives the
      filter, and the path, '?' and the serialized parameters otherwise. */
  lemma UrlShape(encode: Encoder, suffix: string, params: seq<Entry>)
    ensures Kept(params) == [] <==> Url(encode, suffix, params) == BaseUrl + suffix
    ensures Kept(params) != [] ==>
      Url(encode, suffix, params) == BaseUrl + suffix + "?" + Serialize(encode, Stringified(Kept(params)))
  {
    SerializeEmpty(encode, Stringified(Kept(params)));
    var query := Serialize(encode, Stringified(Kept(params)));
    if query != [] {
      assert |Url(encode, suffix, params)| > |BaseUrl + suffix|;
    }
  }
}
