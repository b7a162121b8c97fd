# spotify-graphql request layer, in Dafny

spotify-graphql is a GraphQL server that answers queries about albums,
artists, tracks, playlists, users and browse categories. It turns each field
into a GET on the Spotify Web API, whose base URL is
`https://api.spotify.com/v1`. This project models the server's request
layer, which lives in `index.js`:

- **`get`**: drops null and undefined parameters, builds the URL, and
  sends the request with the shared bearer token. After a 401 it obtains
  a new token once and sends the request again. The response then settles
  into a parsed body or an error carrying `error.message`.
- **The reshapers**: `createEdge`, which gives `{items, paging}`, and
  `objToList`, which gives a list of `{key, value}`.
- **The resolver map**: for each field, the choice between
  - data already embedded in the parent,
  - a reshaped parent field,
  - a key queued on the audio-features loader,
  - one `get` whose body is then unwrapped, turned into an edge or, for
    `search`, rewritten in place.
- **`PlaylistTrackItem.__resolveType`**.
- **The audio-features batch function**: it fetches one id directly.
  Otherwise it fetches the ids comma-joined and sorts the answer in place
  by the position of each item's id among the keys.

The modules:

- `Json` holds the JavaScript values the layer handles. An object is its
  ordered list of entries.
- `Query` builds the URL.
- `Http` holds the pure trace of one `get` call against an oracle for the
  server and the token endpoint.
- `Reshape` holds the reshapers.
- `Routing` holds each resolver's decision as a value.
- `Batch` holds the batch sort and its properties.
- `Api.Client` is the stateful part. Its `token` field is the
  module-level `token`. The fields `requests` and `exchanges` record
  every request sent and every token exchange made. Its methods are
  proved against `Http.Fetch`, `Routing.Route` and the reshape functions.

## Model

| member | source | states |
|---|---|---|
| Json.Entries | index.js:39 | `Object.entries` fails exactly on null and undefined; an object gives its own entries in order |
| Json.Without | index.js:88 | the rest object of `{id, ...params}` is never longer than the arguments; what it holds and in what order is stated by the five lemmas below |
| Json.WithoutMembers | index.js:88 | the rest object holds exactly the entries under other keys, and none under the removed key |
| Json.WithoutAppend | index.js:88 | removing a key distributes over concatenation, so the entries that stay keep their relative order |
| Json.WithoutAbsent | index.js:88 | removing a key the arguments do not hold changes nothing |
| Json.WithoutOne | index.js:88 | arguments holding `id` once lose exactly that entry: the rest object is the arguments before it followed by those after it |
| Json.WithoutKeys | index.js:88 | every key of the rest object is a key of the arguments |
| Json.Assign | index.js:93-94 | `params.ids = …` keeps every existing key at its position, appends the key at the end only when it is new, stores the value under it, and leaves every entry under another key as it was |
| Json.AssignExisting | index.js:93-94 | assigning to a key the arguments already hold leaves their keys unchanged |
| Query.Kept | index.js:39-40 | an entry survives the filter exactly when its value is neither null nor undefined |
| Query.KeptAppend | index.js:39-40 | filtering distributes over concatenation |
| Query.KeptKeepsOrder | index.js:39-41 | two surviving parameters reach the query in their original relative order |
| Query.KeptAllPresent | index.js:39-40 | parameters without null or undefined values are all sent, unchanged and in order |
| Query.AppendPresent | index.js:39-41 | the loop appends exactly the stringified surviving entries, in order |
| Query.SerializeEmpty | index.js:43-44 | the serialized query is empty exactly when no pair was appended |
| Query.ParseSerialize | index.js:43 | the query string reads back as the encoded name/value pairs, in order |
| Query.Url | index.js:44 | the URL starts with the base URL and the suffix, and a character after them can only be `?` |
| Query.UrlShape | index.js:43-44 | the URL carries `?` and the query exactly when some parameter survives; otherwise it is the base URL plus the suffix |
| Http.Settle | index.js:57-63 | an ok (2xx) response yields its body unchanged; any other response rejects with `json.error.message`, or with a TypeError when `json` or `json.error` is missing |
| Http.Fetch | index.js:36-65 | one call sends one or two requests to the same URL and makes at most one token exchange, only after a 401 while retrying. The first request carries the old token. Without an exchange the result is the settled first reply and the token is unchanged. A successful exchange installs its token and is always followed by a second request to the same URL carrying that token; the result is then the settled second reply, whatever its status, or its network failure. A failed exchange rejects with its error and leaves the token alone |
| Http.NoRetrySettlesOnce | index.js:52-63 | without retry: one request, no refresh, the response settled as is |
| Http.RefreshThenSucceed | index.js:52-54 | a 401 then an ok reply: the body of the second reply, the new token kept, exactly two requests |
| Http.FirstReplySettles | index.js:52-63 | a retrying call whose first reply is not a 401 returns that reply settled (the body when ok), leaves the token alone and sends one request |
| Http.ExchangeFails | index.js:52-53 | a 401 followed by a failed token exchange rejects with that failure after one request, and the token is unchanged |
| Http.SecondUnauthorizedFails | index.js:52-60 | two 401s in a row: the call rejects with the second reply's settlement (its `error.message`) after one exchange and two requests, with no third attempt |
| Api.Client.constructor | index.js:334-336 | the process starts with the token from startup, no requests sent and no exchanges made |
| Api.Client.Get | index.js:36-65 | the result, the new token and the appended requests are those of `Http.Fetch` for the URL `Query.Url` builds |
| Reshape.CreateEdge | index.js:67-72 | the edge has exactly the keys `items` and `paging`; `items` is `obj.items` and `paging` is `obj`; it throws exactly on null and undefined |
| Reshape.PairsAt | index.js:74-83 | the list has one element per entry, and element i is `{key, value}` of entry i |
| Reshape.PairsRoundTrip | index.js:74-83 | reading each element's `key` and `value` back gives the object's entries in their order |
| Reshape.PairList | index.js:74-83 | `objToList` rejects exactly on null and undefined |
| Reshape.ObjToList | index.js:74-83 | the push loop builds exactly the pair list of `Object.entries(obj)` |
| Reshape.WrapEntries | index.js:123 | the rewrite keeps every key and its position and replaces each value by its edge; it rejects exactly when some section is null or undefined |
| Reshape.SectionsWrapped | index.js:122-124 | the search rewrite rejects with a TypeError exactly when the response is null or undefined or one of its sections is; a response that is neither an object nor an array comes back unchanged; an object keeps its keys; an array keeps its length and each element becomes its edge |
| Reshape.SectionsWrappedShape | index.js:120-126 | a search response keeps its sections in order, each section becomes the edge of its old value, and a null section rejects the response |
| Reshape.WrapSections | index.js:122-125 | the in-place loop over the entries computes exactly the rewritten response |
| Routing.JoinIds | index.js:94 | `ids.join(',')` succeeds exactly on an array |
| Routing.WithJoinedIds | index.js:93-94 | the list resolvers succeed exactly when the `ids` argument is an array |
| Routing.IdsJoinedInPlace | index.js:92-113 | `albums`, `artists` and `tracks` send the arguments in order, with `ids` replaced at its own position by the joined string |
| Routing.JoinedIdsRoundTrip | index.js:94 | ids without commas join with commas and split back to the same ids |
| Routing.IdMovesToPath | index.js:87-90 | `album`, `track` and `playlist` put `id` into the path and the rest object of the arguments, which has no `id`, into the query; `Json.WithoutOne` gives its order |
| Routing.Route | index.js:85-307 | routing fails only with a TypeError, and only when the parent is null or undefined or `ids` is not an array; only `search` rewrites its sections; only `Track.audio_features` queues a key, and that key is `parent.id` |
| Routing.Finish | index.js:95-155 | the `.then` steps fail only with a TypeError; a body is passed through as is; a null or undefined body fails every other step; unwrapping yields the named field; the edge steps yield exactly `items` and `paging`, where `paging` is the body or the unwrapped field, and unwrap-then-edge fails exactly when that field is null or undefined |
| Routing.ForwardsOnlyArguments | index.js:85-297 | every query parameter a resolver sends is named by one of its own arguments |
| Routing.JoinedIdsKeys | index.js:93-94 | joining `ids` in place renames no argument |
| Routing.TracksShortCut | index.js:160-167 | `Album.tracks` and `Playlist.tracks` with no arguments return the parent's embedded tracks without a fetch; with arguments they fetch `/{albums,playlists}/{parent.id}/tracks` and make an edge of the body |
| Routing.FetchFreeFields | index.js:85-297 | only the tracks short cut, the `external_ids`/`external_urls` lists and `Track.audio_features` answer without a `get` of their own |
| Routing.ResolveType | index.js:300-306 | `LocalPlaylistTrack` exactly when `is_local` is truthy, `PlaylistTrack` exactly when it is not; throws on null and undefined |
| Api.Perform | index.js:85-297 | running a plan touches the network and the token only for a fetch plan, then with one or two requests to the plan's URL and at most one exchange; an embedded value, a pair list or a queued key are returned as they are |
| Api.Client.Execute | index.js:87-297 | running a plan changes the result, the token and the request log exactly as `Api.Perform` says, with the search body rewritten by the in-place loop |
| Api.Client.Resolve | index.js:85-297 | a resolver call returns the routed plan's outcome; only a fetch plan sends requests or changes the token, and then exactly as one retrying `get` does, with its body post-processed |
| Batch.IndexOf | index.js:320 | `indexOf` returns the first position holding the value, or -1 when no position does |
| Batch.Features | index.js:319 | the list can be sorted exactly when the body is present and `audio_features` is an array whose items the comparator can read |
| Batch.SortBy | index.js:319-321 | the in-place sort leaves the array ordered by the key and a permutation of what it held |
| Batch.SortByRank | index.js:319-321 | the answer ends up ordered by the position of each item's id among the keys (undefined items last) and is a permutation of the server's list |
| Batch.UndefinedLast | index.js:319-321 | in the sorted answer no defined item follows an undefined one |
| Batch.AnswersMatchKeys | index.js:310-324 | with distinct keys each answered exactly once, the sorted answer has the item for key i at position i and is as long as the keys |
| Api.Client.LoadAudioFeatures | index.js:310-324 | one key: a single `get` of `/audio-features/{id}`, with the result wrapped in a one-element list; several keys: a single `get` with `ids` comma-joined, and the result is the server's list sorted by key position and permuted, or the error |

## Left out

- Token acquisition (index.js:18-34). It is an oracle: `World.authorize(k)` gives the `access_token` of the k-th exchange, or the failure of the exchange. The client-credentials request itself is not modelled.
- Startup and serving (index.js:1-14, 326-340). The schema file, the port and the Apollo server are outside the model. The first token enters through the `Api.Client` constructor.
- Concurrency. Resolvers that interleave on the shared token are not modelled. Each `Api.Client` method runs to completion. The request log numbers requests in the order they are sent.
- DataLoader. Its batching window, its per-key cache, its check that `load` gets a key that is not null or undefined, and its check that the batch answer is as long as the keys all belong to the library. `Track.audio_features` is modelled as queuing `parent.id` (`Api.Resolution.Queued`). The batch function is modelled on its own.
- Api.Client.LoadAudioFeatures: the batch keys are modelled as strings (the ids the schema hands out), not as arbitrary JavaScript values.
- Batch.SortBy, Batch.SortByRank: neither contract states that the sort is stable. The insertion sort is stable, as `Array.prototype.sort` is required to be, but stability is not part of the ensures.
- Query.Serialize, Query.ParseSerialize: percent-encoding is a parameter (`Query.Encoder`), not the byte-level application/x-www-form-urlencoded encoder. The proofs need only that it escapes `&` and `=`.
- Http.Settle: a body that is not valid JSON, which makes `response.json()` reject, is not modelled. Every response carries a parsed value.
- Json.Entries: ECMAScript lists integer-like keys first, in ascending order, before the other keys. Objects here keep their entries in the order given, so this reordering is not modelled.
- Numbers are integers. Fractional and non-finite numbers and their string forms are not modelled.
- util/generate_schema.py produces `schema.graphql` and is not part of this model.
