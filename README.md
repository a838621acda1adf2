# RajaOngkir shipping adapter, modelled in Dafny

This project models the two endpoints of the BerapaOngkirnya web app that
hold decision logic. Both proxy a third-party logistics API (RajaOngkir,
Komerce edition).

- `POST /api/rajaongkir/cost`. The endpoint first reads a loosely shaped
  JSON body under several alias keys and resolves the origin and destination
  ids. It validates the request, then negotiates with the upstream cost API.
  It sends one form-encoded attempt, then up to seven JSON payload shapes in
  a fixed order. It returns the first `ok` reply. It stops early when a
  failed body names neither of the upstream's schema markers
  `CalculateRequestV2.Origin` and `CalculateRequestV2.Destination`.
  Otherwise it relays the last reply.
- `GET /api/rajaongkir/origin`. The endpoint copies the inbound query onto
  the upstream URL and asks the origin list first. On failure it asks the
  destination list. If both fail it merges the two failures field by field.

Upstream calls are an oracle `upstream: nat -> Attempt`, where
`upstream(k)` is what the `k`-th call (counting from 0) comes back with:
a `Reply(status, body, contentType)` or `Thrown(message)` for a transport
failure. Each handler returns the response it sends, plus the list of
upstream requests it made. Call counts and call order can therefore be
stated exactly.

Modules, one per concern:

- `JsValues` (`js_values.dfy`) holds JavaScript values after `JSON.parse`:
  truthiness, `??`, `||`, `?.`, `Number`/`Number.isFinite`, `String`,
  `trim` and `includes`.
- `Http` (`http.dfy`) holds upstream replies and outgoing responses: `ok`,
  `jsonMessage`, the `Response` constructor's status check, and relaying a
  reply.
- `CostRequest` (`cost_request.dfy`) holds `resolveId`, the alias
  resolution and the validation of the cost request.
- `CostVariants` (`cost_variants.dfy`) holds `buildPayloadVariants`.
- `CostEndpoint` (`cost_endpoint.dfy`) holds the form-then-variants retry
  loop as a method with a `while` loop. Its specification function
  `StopIndex` gives the index of the last call. `Post` is the whole handler.
- `OriginEndpoint` (`origin_endpoint.dfy`) holds `buildUpstreamUrl`'s query
  copy as a loop building a map, the primary/fallback selection, and `Get`.

Some behaviour of the code is easy to misread, and the model states it as
the code has it:

- The courier may be any truthy value. The source only casts it to
  `string` and never checks its type.
- When both origin lookups fail, the response is merged field by field. The
  body is the fallback's when it is non-empty, else the primary's. The status
  is the fallback's when it is non-zero, else the primary's. The content type
  is the fallback's, else the primary's, else JSON.
- In the cost endpoint the `?? 400` status default for the final relay is
  never used. The form attempt always sets the last response before any
  variant is sent, so the model has no such case.
- Every relay goes through `new Response(body, { status })` inside the
  handler's `try`. That constructor throws for a status outside 200..599
  and for the statuses 204, 205 and 304, because a text body, even an empty
  one, is always passed. The thrown error is caught and the client gets 502
  with the error's message. So an `ok` upstream reply with status 204 or 205
  is not a success for the client.

## Model

| member | source | states |
|---|---|---|
| `CostEndpoint.Post` | src/routes/api/rajaongkir/cost/+server.ts:17-70 | An empty API key gives 500 "Missing RajaOngkir API key." with no upstream call. A blank or whitespace-only body gives 400 "Missing shipping cost payload.". A body that fails validation gives 400 with the missing-fields message and no call; this includes a body that does not parse and so is read as null. Otherwise the response and the calls are exactly those of the negotiation for the resolved quote. |
| `CostEndpoint.Negotiate` | src/routes/api/rajaongkir/cost/+server.ts:150-199 | The requests sent are the form attempt followed by the variants in order, cut off at the stopping call `StopIndex(upstream, 0)`. So there is always at least one call and at most eight. The response is the stopping call's reply relayed (status, body, content type defaulting to JSON). It is 502 with the error message if that call threw, or if the runtime refuses the reply's status. |
| `CostEndpoint.StopIndex` | src/routes/api/rajaongkir/cost/+server.ts:155-187 | The index of the last call made. Every earlier call proceeded: it was a non-`ok` reply, and either it answered the form attempt or its body carried a marker. The stopping call did not proceed, unless it is the seventh variant. |
| `CostEndpoint.StopIndexAt` | src/routes/api/rajaongkir/cost/+server.ts:155-187 | Those two facts pin the stopping call down uniquely. |
| `CostEndpoint.FormSuccessIsFinal` | src/routes/api/rajaongkir/cost/+server.ts:155-166 | An `ok` form attempt is returned after one call, and no JSON variant is sent. |
| `CostEndpoint.FirstSuccessIsFinal` | src/routes/api/rajaongkir/cost/+server.ts:168-180 | The first `ok` reply ends the negotiation, and it is what is returned. |
| `CostEndpoint.UnmarkedFailureIsFinal` | src/routes/api/rajaongkir/cost/+server.ts:181-186 | After a failed variant whose body contains neither marker, no further variant is sent. |
| `CostEndpoint.NoMarkersMeansTwoCalls` | src/routes/api/rajaongkir/cost/+server.ts:155-187 | If no reply is `ok` and none names a marker, exactly two calls are made: the form attempt and the first variant. |
| `CostEndpoint.MarkedFailuresTryEveryVariant` | src/routes/api/rajaongkir/cost/+server.ts:168-194 | If every reply fails and names a marker, all eight calls are made and the seventh variant's reply is returned. |
| `CostEndpoint.FailureRelaysLastReply` | src/routes/api/rajaongkir/cost/+server.ts:168-194 | When no call comes back `ok`, the client gets no success. Every call before the stopping one proceeded, and the stopping one did not unless it is the seventh variant. Its status, body and content type are relayed unless the runtime refuses the status. |
| `CostEndpoint.MarkerAnywhereProceeds` | src/routes/api/rajaongkir/cost/+server.ts:181-184 | A failed variant whose body holds `CalculateRequestV2.Origin` or `CalculateRequestV2.Destination` at any position lets the negotiation go on. |
| `CostEndpoint.HasMarker` | src/routes/api/rajaongkir/cost/+server.ts:181-184 | A failed body carries a marker exactly when `CalculateRequestV2.Origin` or `CalculateRequestV2.Destination` starts at some position of it. |
| `CostEndpoint.Proceeds` | src/routes/api/rajaongkir/cost/+server.ts:155-186 | A call the negotiation moves past would not have been a success for the client. The form attempt proceeds exactly when it came back with a reply that is not `ok`, whatever its body. |
| `CostEndpoint.SuccessIffOkReply` | src/routes/api/rajaongkir/cost/+server.ts:155-194 | The client gets a 2xx response exactly when the stopping call came back `ok` with a status other than 204 and 205. |
| `CostEndpoint.NoContentFormReplyIsBadGateway` | src/routes/api/rajaongkir/cost/+server.ts:155-166 | A 204 form reply stops the negotiation after one call, and the client gets 502 from the `catch`. |
| `CostRequest.ResolveId` | src/routes/api/rajaongkir/cost/+server.ts:34-47 | The id is null exactly when its source is null or undefined. The source is the nested `id ?? destination_id ?? origin_id` of an object, or the value itself otherwise. A numeric id is the finite number `Number` reads from the source. A string id occurs only when `Number` gives no finite number. Its source is then a string or an object, and the id is `String(source)`, which `Number` cannot read either. |
| `CostRequest.NestedId` | src/routes/api/rajaongkir/cost/+server.ts:37 | The nested id is one of `id`, `destination_id` and `origin_id`, and `id` when it is present. It is null or undefined exactly when all three are. |
| `CostRequest.ResolveIdValue` | src/routes/api/rajaongkir/cost/+server.ts:34-47 | `resolveId` is idempotent on its own results. An id written back bare, or as `{ id }`, resolves to the same id. |
| `CostRequest.ResolveQuote` | src/routes/api/rajaongkir/cost/+server.ts:49-70 | A request is accepted exactly when the origin id is truthy, the destination id is truthy, the weight is finite and positive, and the courier is truthy. An accepted quote carries the fields read from the body unchanged. |
| `CostRequest.Normalize` | src/routes/api/rajaongkir/cost/+server.ts:49-63 | The origin id is resolved from one of `origin`, `origin_id` and `originId`, and the destination likewise. The courier is one of `courier`, `courier_code` and `courierCode`. A payload that is not an object gives no ids, no weight and an undefined courier. |
| `CostRequest.WeightNumber` | src/routes/api/rajaongkir/cost/+server.ts:57-59 | The `typeof` test changes nothing: the weight is exactly the finite number `Number` reads from the value. A number is kept, null reads as 0 and undefined as no number. |
| `CostRequest.FirstPresentPicks` | src/routes/api/rajaongkir/cost/+server.ts:49-58 | The ordered reading of `??`: it picks the first candidate that is neither null nor undefined, or else the last candidate. |
| `CostRequest.FirstTruthyPicks` | src/routes/api/rajaongkir/cost/+server.ts:60-63 | The ordered reading of `||`: it picks the first truthy candidate, or else the last candidate. |
| `CostRequest.AliasesInPriorityOrder` | src/routes/api/rajaongkir/cost/+server.ts:49-63 | The origin comes from `origin`, `origin_id`, `originId` in that order, and the destination and weight likewise. Each takes the first key that is neither null nor undefined. The courier comes from `courier`, `courier_code`, `courierCode` by the first truthy value. |
| `CostRequest.PresentOriginShadowsAliases` | src/routes/api/rajaongkir/cost/+server.ts:49-51 | A present `origin` decides the origin even when it is falsy. If it resolves to a falsy id, the request is rejected whatever `origin_id` holds. |
| `CostRequest.ZeroOriginRejected` | src/routes/api/rajaongkir/cost/+server.ts:49-70 | `{origin: 0, origin_id: 501, ...}` is rejected. |
| `CostRequest.EmptyCourierFallsThrough` | src/routes/api/rajaongkir/cost/+server.ts:60-63 | An empty-string `courier` falls through to `courier_code`, then to `courierCode`. |
| `CostRequest.NonObjectPayloadRejected` | src/routes/api/rajaongkir/cost/+server.ts:27-32 | A body that does not parse (read as null), or that parses to anything but an object, is rejected. |
| `CostRequest.SnakeCaseExample` | src/routes/api/rajaongkir/cost/+server.ts:49-63 | `{origin_id: 501, destination_id: 114, weight_gram: 1000, courier_code: "jne"}` resolves to origin 501, destination 114, weight 1000 and courier "jne". |
| `CostVariants.PayloadVariants` | src/routes/api/rajaongkir/cost/+server.ts:72-117 | There are exactly seven payloads. Variants 1–4 carry the quote's `weight` and `courier` at the top level and have no `data`. Variants 5–7 are objects with the single key `data`, which carries the same `weight` and `courier`. Which keys carry the ids is stated by `VariantIdPlacements` and `EnvelopesRepeatTopLevelShapes`. |
| `CostVariants.VariantIdPlacements` | src/routes/api/rajaongkir/cost/+server.ts:74-94 | In the order sent, variant 1 holds the ids as `{ id }` under `origin` and `destination`, variant 2 bare under the same keys, variant 3 under `origin_id` and `destination_id`, and variant 4 under `originId` and `destinationId`. Each has exactly these keys beside `weight` and `courier`. |
| `CostVariants.EnvelopesRepeatTopLevelShapes` | src/routes/api/rajaongkir/cost/+server.ts:95-115 | The `data` envelopes of variants 5, 6 and 7 are exactly variants 2, 3 and 1. |
| `CostVariants.NestedVariantReadsBack` | src/routes/api/rajaongkir/cost/+server.ts:75-79 | Variant 1 (`origin: {id}`, `destination: {id}`) reads back to its quote. |
| `CostVariants.ScalarVariantReadsBack` | src/routes/api/rajaongkir/cost/+server.ts:80-84 | Variant 2 (bare `origin`, `destination`) reads back to its quote. |
| `CostVariants.SnakeCaseVariantReadsBack` | src/routes/api/rajaongkir/cost/+server.ts:85-89 | Variant 3 (`origin_id`, `destination_id`) reads back to its quote. |
| `CostVariants.CamelCaseVariantReadsBack` | src/routes/api/rajaongkir/cost/+server.ts:90-94 | Variant 4 (`originId`, `destinationId`) reads back to its quote. |
| `CostVariants.VariantsReadBack` | src/routes/api/rajaongkir/cost/+server.ts:72-117 | All seven variants encode the same request. Each is read back with the endpoint's own alias rules; for variants 5–7 this applies to the `data` envelope. Each resolves to exactly the accepted quote it was built from. |
| `JsValues.TrimStart` | src/routes/api/rajaongkir/cost/+server.ts:23 | `trimStart` returns the suffix left after dropping leading whitespace. Everything it removed is whitespace, and what is left does not start with whitespace. |
| `JsValues.TrimEnd` | src/routes/api/rajaongkir/cost/+server.ts:23 | `trimEnd` returns the prefix left after dropping trailing whitespace. Everything it removed is whitespace, and what is left does not end with whitespace. |
| `JsValues.TrimEmptyIffBlank` | src/routes/api/rajaongkir/cost/+server.ts:23-25 | `!body.trim()` holds exactly for bodies made only of ECMAScript whitespace. |
| `JsValues.IncludesAt` | src/routes/api/rajaongkir/cost/+server.ts:181-184 | `includes` finds a marker that starts at any position of the body. |
| `JsValues.IncludesWitness` | src/routes/api/rajaongkir/cost/+server.ts:181-184 | Whatever `includes` finds starts at some position of the body. |
| `JsValues.IncludesIff` | src/routes/api/rajaongkir/cost/+server.ts:181-184 | `includes` holds exactly when the marker occurs as a contiguous substring. |
| `OriginEndpoint.Get` | src/routes/api/rajaongkir/origin/+server.ts:17-75 | An empty API key gives 500 "Missing RajaOngkir API key." with no call. Otherwise the origin list is asked first, and the destination list second if needed, both with the inbound query. One or two calls are made, and the response is the one the selection rule picks. |
| `OriginEndpoint.BuildUpstreamQuery` | src/routes/api/rajaongkir/origin/+server.ts:22-28 | The upstream query holds exactly the inbound keys. For a repeated key the last value wins. |
| `OriginEndpoint.QueryMap` | src/routes/api/rajaongkir/origin/+server.ts:24-26 | Every parameter set upstream is a key/value pair of the inbound query. |
| `OriginEndpoint.QueryMapKeys` | src/routes/api/rajaongkir/origin/+server.ts:24-26 | Every inbound key is set, and no other key. |
| `OriginEndpoint.QueryMapLastWins` | src/routes/api/rajaongkir/origin/+server.ts:24-26 | A key takes the value of its last occurrence. |
| `OriginEndpoint.SelectOrigin` | src/routes/api/rajaongkir/origin/+server.ts:30-69 | A second call is made exactly when the first came back with a failed reply. The status is always one the runtime accepts. The response is a success only when a lookup that was made came back `ok`. |
| `OriginEndpoint.MergeFailures` | src/routes/api/rajaongkir/origin/+server.ts:61-69 | The merged status and body are each the fallback's or the primary's. A status the runtime refuses gives 502. Two failures never merge into a success. |
| `OriginEndpoint.PrimaryOkIsFinal` | src/routes/api/rajaongkir/origin/+server.ts:31-44 | An `ok` primary is relayed after exactly one call. |
| `OriginEndpoint.FallbackOkAfterPrimaryFails` | src/routes/api/rajaongkir/origin/+server.ts:46-59 | A failed primary and an `ok` fallback relay the fallback's reply after exactly two calls. Its status and body are kept unless the status is 204 or 205. |
| `OriginEndpoint.BothFailedPrefersFallback` | src/routes/api/rajaongkir/origin/+server.ts:61-69 | When both fail, two calls are made. The status is the fallback's if non-zero, else the primary's; if the runtime refuses that status the client gets 502. Otherwise the body is the fallback's if non-empty, else the primary's, and the content type is the fallback's, else the primary's, else `application/json`. |
| `OriginEndpoint.MergeFailuresExtremes` | src/routes/api/rajaongkir/origin/+server.ts:61-69 | A fallback failure with a status, a body and a content type is relayed as it is. One with none of them leaves the primary's failure. |
| `OriginEndpoint.NotFoundThenFound` | src/routes/api/rajaongkir/origin/+server.ts:31-59 | A 404 primary followed by a 200 fallback with body `{"data":[]}` gives 200 with that body. |
| `OriginEndpoint.NoContentPrimaryIsBadGateway` | src/routes/api/rajaongkir/origin/+server.ts:31-44 | A 204 from the origin list stops after one call, and the client gets 502 from the `catch`. |
| `Http.NewResponse` | src/routes/api/rajaongkir/cost/+server.ts:159-165 | `new Response(text, { status })` keeps the status, the text and the content type when the status is in 200..599 and is not 204, 205 or 304. Otherwise the `catch` answers 502. The resulting status is always in 200..599. |
| `Http.Passthrough` | src/routes/api/rajaongkir/cost/+server.ts:189-194 | A reply is relayed with its status, body and content type, defaulting to JSON, unless the runtime refuses its status, which gives 502. The response is a success exactly when the reply was `ok` with a status other than 204 and 205. |
| `Http.Relay` | src/routes/api/rajaongkir/cost/+server.ts:195-199 | A thrown call gives 502 with the error's message, or "Failed to reach RajaOngkir service." when there is none. A reply is passed through. A success is only ever relayed from an `ok` reply. |

## Left out

- The destination endpoint (`src/routes/api/rajaongkir/destination/+server.ts`) is left out. It is a single passthrough call with no decision logic.
- Environment lookup of the base URL and the key is left out; the key is a parameter of each handler. The base URL only prefixes the paths. The upstream request records the path (origin endpoint) or nothing of the URL (cost endpoint, where it is fixed).
- `fetch`, `request.text()` and `Response` objects are replaced by the oracle and by plain records. Only the one header the endpoints read and write, `content-type`, is kept. An exception from `request.text()` in the cost handler is outside its `try` and is not modelled.
- `JSON.parse` is a parameter of `CostEndpoint.Post`; a parse that throws is `None`. `JSON.stringify` and `URLSearchParams.toString()` are not modelled. Payloads stay structured values, so key order in the JSON text and parameter order in the URL are not represented. The form attempt is `FormPost(quote)`; the stringification of its four fields is left out.
- `Number(string)` is an abstract coercion `StringToNumber`, and IEEE floating point is not reproduced. Numbers in a parsed body are finite reals. The model excludes the `Infinity` that `JSON.parse` gives for an overflowing literal such as `1e400`, which in the source rejects such a weight and turns such an origin into the string id `"Infinity"`. Where `Number` reads a string, NaN and the infinities collapse into "not finite". `String(number)` is not modelled; the model never needs it, because ids keep their numbers.
- An object whose own `toString` key holds a value makes `Number` and `String` throw a `TypeError`. The model reads every object as `String` gives it by default, `[object Object]`, so it misses two cases. (1) As the nested id (`{"origin": {"id": {"toString": 1}}}`) or as the weight, such an object makes `resolveId` or the weight coercion throw outside the cost handler's `try`, as an unhandled error. (2) As the courier (`{"origin": 501, "destination": 114, "weight": 1000, "courier": {"toString": 1}}`), it passes validation because an object is truthy. `String(courier)` then throws inside the `try`, while the form attempt is being built, so the source answers 502 with the engine's message and makes no upstream call.
- CostEndpoint.Post: for a courier object with its own `toString` key, it hands the request to `Negotiate`, which sends the form attempt and relays its reply. The source instead answers 502 with no upstream call. This is because the model does not represent a throwing `String`.
- The text of a `RangeError` or `TypeError` thrown by `new Response` is the engine's own. The model records only that the 502 body carries such a message (`EngineMessage`).
- JSON arrays are not represented anywhere in `JsValue`, so no payload field can hold one. Arrays would change behaviour in several places. `resolveId` treats an array as an object. `Number([1000])` is 1000, so `{"weight": [1000]}` is accepted with weight 1000. An array courier is truthy and passes validation.
- The incoming query of the origin endpoint is a list of key/value pairs. Percent-decoding is not modelled, and neither is the position `set` keeps for a first occurrence.

