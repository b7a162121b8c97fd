/** The stateful part of the request layer: the process-wide bearer token
    that `get` reads and, after a 401, replaces; the resolvers that run
    their plan through `get`; and the audio-features batch function. The
    requests sent so far and the token exchanges made so far are kept as
    fields, so that each call's effect on the wire can be stated. */
module Api {
  import opened Json
  import Text
  import Query
  import Http
  import Reshape
  import Routing
  import Batch

  /** What a resolver's promise settles to; a `load` on the audio-features
      loader settles later, when the loader dispatches its batch. */
  datatype Resolution = Settled(result: Result<Value>) | Queued(key: Value)

  /** The outcome of a fetch plan once its body is post-processed. */
  function AfterFetch(result: Result<Value>, post: Routing.Post): Result<Value>
  {
    match result
    case Err(e) => Err(e)
    case Ok(body) => Routing.Finish(post, body)
  }

  /** What running a plan leaves behind: the resolver's outcome, the token
      afterwards, the requests sent and the token exchanges made. */
  datatype Outcome = Outcome(resolution: Resolution, token: Value, requests: seq<Http.Request>, exchanges: nat)

  /** A plan run by a client whose token is `token`, `sent` requests and
      `exchanged` token exchanges into the life of the process: only a fetch
      plan touches the network or the token, and then as one retrying `get`. */
  function Perform(w: Http.World, encode: Query.Encoder, token: Value, sent: nat, exchanged: nat,
                   plan: Routing.Plan): (o: Outcome)
    ensures !plan.Fetch? ==> o.token == token && o.requests == [] && o.exchanges == 0
    ensures plan.Fetch? ==>
      && 1 <= |o.requests| <= 2 && o.exchanges <= 1
      && (forall i :: 0 <= i < |o.requests| ==> o.requests[i].url == Query.Url(encode, plan.path, plan.params))
      && (o.token != token ==> o.exchanges == 1 && w.authorize(exchanged) == Ok(o.token))
    ensures o.resolution.Queued? <==> plan.Load?
    ensures plan.Load? ==> o.resolution.key == plan.key
    ensures plan.UseEmbedded? ==> o.resolution == Settled(Ok(plan.value))
    ensures plan.ToList? ==> o.resolution == Settled(Reshape.PairList(plan.source))
  {
    match plan
    case UseEmbedded(v) => Outcome(Settled(Ok(v)), token, [], 0)
    case ToList(source) => Outcome(Settled(Reshape.PairList(source)), token, [], 0)
    case Load(key) => Outcome(Queued(key), token, [], 0)
    case Fetch(path, params, post) =>
      var t := Http.Fetch(w, token, Query.Url(encode, path, params), true, sent, exchanged);
      Outcome(Settled(AfterFetch(t.result, post)), t.token, t.requests, t.exchanges)
  }

  class Client {
    /** The catalog server and the token endpoint. */
    const world: Http.World
    /** The percent-encoding URLSearchParams applies to names and values. */
    const encode: Query.Encoder
    /** The module-level `token`. */
    var token: Value
    /** Every GET sent so far, in order. */
    var requests: seq<Http.Request>
    /** How many token exchanges `get` has made so far. */
    var exchanges: nat

    /** The client after startup has stored the first token. */
    constructor (world: Http.World, encode: Query.Encoder, token: Value)
      ensures this.world == world && this.encode == encode && this.token == token
      ensures requests == [] && exchanges == 0
    {
      this.world := world;
      this.encode := encode;
      this.token := token;
      requests := [];
      exchanges := 0;
    }

    /** `get(suffix, params, retry)`. */
    method Get(suffix: string, params: seq<Entry>, retry: bool) returns (r: Result<Value>)
      modifies this
      ensures var t := Http.Fetch(world, old(token), Query.Url(encode, suffix, params), retry,
                                  |old(requests)|, old(exchanges));
        && r == t.result
        && token == t.token
        && requests == old(requests) + t.requests
        && exchanges == old(exchanges) + t.exchanges
      decreases retry
    {
      var search := Query.AppendPresent(params);
      var query := Query.Serialize(encode, search);
      var url := Query.BaseUrl + suffix + (if |query| > 0 then "?" + query else "");
      Query.UrlOfQuery(encode, suffix, params, search);
      var request := Http.Request(url, Http.Bearer(token));
      var reply := world.respond(request, |requests|);
      requests := requests + [request];
      match reply {
        case Err(e) =>
          r := Err(e);
        case Ok(response) =>
          if response.status == Http.Unauthorized && retry {
            var grant := world.authorize(exchanges);
            exchanges := exchanges + 1;
            match grant {
              case Err(e) =>
                r := Err(e);
              case Ok(renewed) =>
                token := renewed;
                r := Get(suffix, params, false);
            }
          } else {
            r := Http.Settle(response);
          }
      }
    }

    /** One resolver call: route it, then run the plan. */
    method Resolve(f: Routing.GraphField, parent: Value, args: seq<Entry>) returns (r: Resolution)
      modifies this
      ensures Routing.Route(f, parent, args).Err? ==>
        && r == Settled(Err(Routing.Route(f, parent, args).error))
        && token == old(token) && requests == old(requests) && exchanges == old(exchanges)
      ensures Routing.Route(f, parent, args).Ok? ==>
        var o := Perform(world, encode, old(token), |old(requests)|, old(exchanges),
                         Routing.Route(f, parent, args).value);
        && r == o.resolution
        && token == o.token
        && requests == old(requests) + o.requests
        && exchanges == old(exchanges) + o.exchanges
    {
      var route := Routing.Route(f, parent, args);
      if route.Err? {
        return Settled(Err(route.error));
      }
      r := Execute(route.value);
    }

    /** Running one plan: a reshaped parent field, an embedded value, a
      queued key, or one retrying `get` whose body is post-processed. */
    method Execute(plan: Routing.Plan) returns (r: Resolution)
      modifies this
      ensures var o := Perform(world, encode, old(token), |old(requests)|, old(exchanges), plan);
        && r == o.resolution
        && token == o.token
        && requests == old(requests) + o.requests
        && exchanges == old(exchanges) + o.exchanges
    {
      match plan {
        case UseEmbedded(v) =>
          r := Settled(Ok(v));
        case ToList(source) =>
          var list := Reshape.ObjToList(source);
          r := Settled(list);
        case Load(key) =>
          r := Queued(key);
        case Fetch(path, params, post) =>
          var body := Get(path, params, true);
          if body.Err? {
            r := Settled(Err(body.error));
          } else if post.EdgePerSection? {
            var wrapped := Reshape.WrapSections(body.value);
            r := Settled(wrapped);
          } else {
            r := Settled(Routing.Finish(post, body.value));
          }
      }
    }

    /** The batch function of `audioFeatureLoader`: one key is fetched
      directly and wrapped in a list; several keys are fetched together
      and the list is sorted by the position of each item's id among them. */
    method LoadAudioFeatures(ids: seq<string>) returns (r: Result<seq<Value>>)
      modifies this
      ensures |ids| == 1 ==>
        var t := Http.Fetch(world, old(token), Query.Url(encode, "/audio-features/" + ids[0], []), true,
                            |old(requests)|, old(exchanges));
        && requests == old(requests) + t.requests
        && token == t.token
        && exchanges == old(exchanges) + t.exchanges
        && r == (if t.result.Ok? then Ok([t.result.value]) else Err(t.result.error))
      ensures |ids| != 1 ==>
        var t := Http.Fetch(world, old(token),
                            Query.Url(encode, "/audio-features", [("ids", Str(Text.Join(ids, ',')))]), true,
                            |old(requests)|, old(exchanges));
        && requests == old(requests) + t.requests
        && token == t.token
        && exchanges == old(exchanges) + t.exchanges
        && (t.result.Err? ==> r == Err(t.result.error))
        && (t.result.Ok? && Batch.Features(t.result.value).Err? ==> r == Err(Batch.Features(t.result.value).error))
        && (t.result.Ok? && Batch.Features(t.result.value).Ok? ==>
              && r.Ok?
              && multiset(r.value) == multiset(Batch.Features(t.result.value).value)
              && Batch.RankSorted(ids, r.value))
    {
      if |ids| == 1 {
        var single := Get("/audio-features/" + ids[0], [], true);
        r := if single.Ok? then Ok([single.value]) else Err(single.error);
        return;
      }
      var objs := Get("/audio-features", [("ids", Str(Text.Join(ids, ',')))], true);
      if objs.Err? {
        return Err(objs.error);
      }
      var features := Batch.Features(objs.value);
      if features.Err? {
        return Err(features.error);
      }
      var items := features.value;
      var a := new Value[|items|](i requires 0 <= i < |items| => items[i]);
      assert a[..] == items;
      Batch.SortByRank(a, ids);
      r := Ok(a[..]);
    }
  }
}
