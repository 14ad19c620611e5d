# Beehive web and EFA bees, modelled in Dafny

Beehive connects "bees" — adapters to outside systems — to one event
pipeline. A bee pushes `Event` records (bee name, event name, an ordered list
of named, typed `Placeholder`s) onto an event channel, and handles `Action`
records (bee name, action name, option placeholders) routed to it.

This project models the event-building and action-dispatch logic of two bees:

- **WebBee** (`webbee.dfy`, module `WebBee`): a GET request becomes one
  `"get"` event with an `ip` placeholder followed by one `"string"`
  placeholder per query parameter. A POST body is decoded as JSON twice —
  once into a generic value, once into an object map — and becomes either no
  event or one complete `"post"` event (`json`, `ip`, then one placeholder per
  top-level key). The `"post"` action sends an outbound HTTP POST and feeds
  the response body through the same JSON path. Any other action name panics.
- **EFABee** (`efabee.dfy`, module `EfaBee`): the `"departures"` action picks
  the last `stop` option, resolves the station, asks for 3 departures and
  fires one `"departure"` event (`eta`, `route`, `destination`) per
  departure, in order. Any other action name panics.
- **Shared records** (`bees.dfy`, module `Bees`): `Value` (Go's dynamically
  typed values as a sum type), `Placeholder`, `Event`, `Action`, `Outcome`
  (normal return or panic), the option binder, and `EventChan`, the event
  channel as an object whose `events` sequence a send appends to.

Each bee is a class whose fields are the Go struct's fields (`eventChan`,
`addr`, `path`, `baseURL`, `efa`); handlers are methods that modify the
channel. Foreign calls are parameters of the handlers: the first JSON decode
pass (`unmarshal`, failure or a value; the second pass is `DecodeObject`
applied to the first pass's result), the HTTP POST and body read (failure or a
response / bytes), and the EFA client's `FindStation` and `Departures`
(failure or a result). Go's map iteration order is unspecified, so the loops
over query parameters and JSON keys choose the next key nondeterministically;
their results are specified up to order (`ListsMap`) and proved unique up to
permutation.

The code, and so the model, behaves as follows in these cases:

- Placeholder names are not deduplicated: a query parameter or JSON key
  called `ip` or `json` sits beside the fixed one (`GetEventRepeatsIp`).
- The `ip` placeholder is always the literal `"tbd"`.
- A JSON body `null` passes both decode passes (decoding `null` into a Go map
  leaves it nil, without an error), so it fires a `"post"` event holding only
  `json` and `ip` (`NullBodyFiresBareEvent`).
- An absent or empty `stop` option is not rejected: the empty string is
  passed to the station lookup.
- Unknown action names panic rather than return an error value.

## Model

| member | source | states |
|---|---|---|
| `Bees.Lookup` | bees/webbee/webbee.go:121-122 | the binder's lookup yields nothing exactly when no option has the name, and otherwise the value of the first option with that name |
| `Bees.BindString` | bees/webbee/webbee.go:119-122 | binding keeps the caller's default when the option is absent or not a string, and otherwise yields the first such option's string |
| `WebBee.AppendKeyPlaceholders` | bees/webbee/webbee.go:79-88 | ranging over a map appends exactly one `"string"` placeholder per key, named after the key with the key's value, distinct names, prefix untouched, in some order |
| `WebBee.ListsMapUpToOrder` | bees/webbee/webbee.go:160-169 | any two iteration orders over the same map give permutations of each other (equal multisets) |
| `WebBee.BuildGetEvent` | bees/webbee/webbee.go:148-169 | the GET event is named `"get"`, belongs to the bee, has 1 + number-of-parameters placeholders, `ip`/`"string"`/`"tbd"` first, then one placeholder per parameter |
| `WebBee.WebBee.GetRequest` | bees/webbee/webbee.go:147-172 | a GET request appends exactly one event to the channel, and it is the GET event of its parameters |
| `WebBee.GetEventUpToOrder` | bees/webbee/webbee.go:151-169 | two GET events of the same parameters agree on bee, name, length and the first placeholder, and are permutations of each other |
| `WebBee.GetEventCarriesParam` | bees/webbee/webbee.go:160-169 | every query parameter `k=v` appears as `{k, "string", v}` after the `ip` placeholder |
| `WebBee.GetEventRepeatsIp` | bees/webbee/webbee.go:151-169 | a query parameter named `ip` produces a second placeholder named `ip`: names are not deduplicated |
| `WebBee.DecodeObject` | bees/webbee/webbee.go:72-77 | decoding into a `map[string]interface{}` succeeds exactly on an object (giving its entries) and on `null` (giving an empty map, no error); anything else fails |
| `Bees.EventChan.Send` | bees/webbee/webbee.go:90 | a send on the event channel appends exactly the event, after everything sent before; the same send is at bees/webbee/webbee.go:171 and modules/efabee/efabee.go:99 |
| `WebBee.BuildJsonEvent` | bees/webbee/webbee.go:47-89 | decoding twice yields no event when either pass fails, and otherwise one `"post"` event: `json` (`"map"`, the decoded payload), `ip`, then one `"string"` placeholder per top-level key, 2 + keys in all |
| `WebBee.WebBee.TriggerJsonEvent` | bees/webbee/webbee.go:47-91 | the channel is unchanged when a decode pass fails, and otherwise gains exactly the one complete `"post"` event |
| `WebBee.UndecodableFiresNothing` | bees/webbee/webbee.go:48-53 | a body that does not decode fires nothing |
| `WebBee.NonObjectFiresNothing` | bees/webbee/webbee.go:72-77 | a body that decodes to an array, number, string or boolean fires nothing, though the first pass succeeded |
| `WebBee.NullBodyFiresBareEvent` | bees/webbee/webbee.go:72-90 | a `null` body fires one `"post"` event holding only `json` (nil) and `ip` |
| `WebBee.PostEventUpToOrder` | bees/webbee/webbee.go:79-88 | two `"post"` events of the same body agree on `json` and `ip` and are permutations of each other |
| `WebBee.PostEventCarriesKey` | bees/webbee/webbee.go:79-88 | every top-level key appears as `{k, "string", value}` after `json` and `ip` |
| `WebBee.WebBee.PostRequest` | bees/webbee/webbee.go:175-183 | a failed body read fires nothing; otherwise the effect is that of the JSON path on the body |
| `WebBee.WebBee.Action` | bees/webbee/webbee.go:114-144 | `"post"` binds `url` and `json` (default `""`), posts `json` to `url` as `application/json`, fires nothing on a POST or read failure and otherwise what the JSON path fires on the response body, and returns the empty list; any other name panics with the unknown-action message and fires nothing |
| `WebBee.WebBee.ReloadOptions` | bees/webbee/webbee.go:186-191 | the options are stored and `address`/`path` are bound into `addr`/`path`, each keeping its previous value when absent |
| `WebBee.WebBee.Run` | bees/webbee/webbee.go:94-95 | the channel is stored and no other field changes |
| `EfaBee.SelectStop` | modules/efabee/efabee.go:48-54 | the option loop computes the scan of the options starting from `""` |
| `EfaBee.ScanStopPanics` | modules/efabee/efabee.go:50-54 | the loop panics exactly when some `stop` option holds a non-string, and on the first such option |
| `EfaBee.ScanStopLastWins` | modules/efabee/efabee.go:48-54 | without a panic, the stop used is the value of the last `stop` option, or `""` when there is none |
| `EfaBee.DepartureEventsAt` | modules/efabee/efabee.go:71-100 | one event per departure, in the client's order, each of the bee, named `"departure"`, with exactly `eta` (`"int"`, countdown), `route` (`"string"`, line number), `destination` (`"string"`, direction) |
| `EfaBee.EfaBee.Action` | modules/efabee/efabee.go:43-107 | `"departures"` panics on a non-string `stop`; otherwise returns the empty list, fires nothing when the station lookup or the departure query (for the resolved station, limit 3) fails, and otherwise appends exactly the departure events; any other name panics and fires nothing |
| `EfaBee.EfaBee.Run` | modules/efabee/efabee.go:109-115 | the channel is stored and a client is created whose base URL is the bee's `baseURL` |

## Left out

- HTTP serving and routing (`web.Get`, `web.Post`, `web.Run`, `web.Close`): network I/O in a foreign library; `WebBee.Run` only stores the channel.
- The shutdown loop of the web bee's `Run`, which polls the signal channel and busy-spins: concurrency, not a sequential property.
- `http.Post`, `ioutil.ReadAll` and the first `json.Unmarshal` pass: parameters returning failure or a result. That decoder may return any `Value`, including `Int`, which Go's decoder never produces. The second pass is not a separate parameter: it is `DecodeObject` applied to the first pass's result, since both passes decode the same bytes.
- The HTTP status code of the outbound response is not consulted by the code, and the model does not consult it either; the response body is never closed in the code, and resource release is not modelled.
- The EFA client's `FindStation` and `Departures`: parameters returning failure or a result; their network access and parsing are not part of this model.
- Bees.BindString: does not model the host binder's coercion of non-string values (numbers, booleans) into strings; such a value keeps the default, as a failed binding does. Of the host's option binder only the lookup of the first option with the name is modelled.
- WebBee.WebBee.ReloadOptions: the configuration options are modelled with the same `Placeholder` record as action options (their advisory kind unused), and `SetOptions` only as storing them.
- WebBee.WebBee.Action: a "post" action before `Run` stored the channel (a send on a nil channel in Go blocks forever) is excluded by a precondition; an unknown action name panics whether or not the channel is set. The request handlers `GetRequest`, `TriggerJsonEvent` and `PostRequest` carry the same precondition, since they are registered only by `Run`.
- EfaBee.EfaBee.Action: a "departures" action before `Run` stored the channel and created the client is excluded by a precondition; what the client does on a nil receiver is not part of this model. An unknown action name panics whether or not `Run` was called.
- Concurrency on the event channel: the HTTP server runs request handlers concurrently and every bee of the hive sends on the same channel, so other events can land between the departure sends of one `EfaBee.EfaBee.Action` call or between the sends of concurrent requests. The model treats each handler call as the only producer on the channel while it runs; the contracts of `GetRequest`, `TriggerJsonEvent`, `PostRequest` and both `Action` methods (the channel's new contents are exactly its old contents plus this call's events) hold only under that assumption.
- JSON numbers are modelled as exact `real`s, not as 64-bit floats.
- Logging, and the blocking of a channel send when the channel is full (a send appends to the channel's sequence).
