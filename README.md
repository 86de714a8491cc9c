# Reusable feature façades of the ASP.NET Core HTTP abstractions

This project models, in Dafny, the two poolable façades of the ASP.NET Core
HTTP abstractions that sit over a request's feature collection:

- `ReusableConnectionInfo`: connection id, remote and local address and port, and the client certificate.
- `ReusableWebSocketManager`: the WebSocket-upgrade check, the requested sub-protocols and the accept operation.

Each façade embeds one mutable `FeatureReferences<FeatureInterfaces>` record.
The record holds the bound `IFeatureCollection`, the collection revision it
last observed, and one cache slot per feature kind. The façades have a
two-phase lifecycle:

- `Initialize` rebinds the record to a collection.
- `Uninitialize` resets it to `default`, so the object can go back to a pool.

Every accessor resolves its feature through `Fetch(ref slot, factory)`. The
two façades differ only in the factory:

- The connection-info view synthesises a fresh default feature.
- The WebSocket manager's factories return null.

Layout:

- `wrappers.dfy` (module `Wrappers`): `Option` for nullable references, `Result` for "returns or throws".
- `features.dfy` (module `Features`): the boundary. It holds the feature classes the façades delegate to, and `FeatureCollection`, a class with one optional feature per kind and a revision counter that every replacement bumps.
- `feature_refs.dfy` (module `FeatureRefs`): the record as a value. `Slot` is a getter/setter pair standing for C#'s `ref _features.Cache.X`. `Fetch` is the specification function of one fetch, with lemmas about single fetches and about whole runs of fetches and replacements.
- `connection_info.dfy` (module `ConnectionInfo`): `ReusableConnectionInfo` as a class whose `features` field its methods reassign. Each property getter and setter is a method.
- `websocket_manager.dfy` (module `WebSocketManager`): `ReusableWebSocketManager`, likewise.

The code of `FeatureReferences.Fetch` is not part of this model; `Fetch` is
modelled by its boundary contract. A slot resolves to the collection's feature
of that kind when there is one, else to the factory's result, and the result
is kept in the slot. The revision gating is an assumption about that unseen
code, not verified source behaviour. Under it, a slot is reused only while the
collection is at the revision last observed. A changed revision clears the
whole cache record, and a null slot counts as unresolved.

Each class keeps an invariant `Valid()` that ties the slots to the collection:

- Connection info: a slot cached at the current revision never contradicts a feature the collection holds (`Coherent`).
- WebSocket manager: a slot cached at the current revision holds exactly the collection's feature (`Mirrors`).

## Model

| member | source | states |
|---|---|---|
| `FeatureRefs.Resolution` | src/Http/Http/src/Internal/ReusableConnectionInfo.cs:35-39 | what a slot resolves to without calling the factory is absent only when the collection lacks the feature; under `Coherent` it is the collection's feature whenever there is one, and under `Mirrors` it always is |
| `FeatureRefs.Fetch` | src/Http/Http/src/Internal/ReusableConnectionInfo.cs:35-39 | a fetch keeps the binding and records the current revision; it returns the already-resolved feature when there is one and the factory's result only otherwise; a slot still current is served without any write |
| `FeatureRefs.FetchMemoises` | src/Http/Http/src/Internal/ReusableConnectionInfo.cs:35-36 | after a fetch the slot resolves to the fetched feature without the factory; a fetch keeps `Coherent`, and with a null factory keeps `Mirrors` |
| `FeatureRefs.FetchKeepsOtherSlot` | src/Http/Http/src/Internal/ReusableConnectionInfo.cs:83-87 | fetching one slot of the cache record never changes what the other slot resolves to, nor its agreement with the collection |
| `FeatureRefs.BindResolvesToCollection` | src/Http/Http/src/Internal/ReusableConnectionInfo.cs:25-28 | a freshly bound record resolves every slot straight to the collection's feature |
| `FeatureRefs.ReplayNeverStale` | src/Http/Http/src/Internal/ReusableConnectionInfo.cs:35-39 | across any interleaving of fetches and feature replacements, every fetch made while the collection holds a feature of that kind returns that very feature (no stale reference) |
| `FeatureRefs.ResolvedSlotIsStable` | src/Http/Http/src/Internal/ReusableWebSocketManager.cs:37-38 | once a slot resolves to a feature, every fetch with no replacement in between returns that same feature |
| `FeatureRefs.RepeatedFetchesAgree` | src/Http/Http/src/Internal/ReusableConnectionInfo.cs:35-36 | in a run of fetches with no replacement, if the first yields a feature every later one yields the identical feature, whatever the factory would have made |
| `ConnectionInfo.SlotsAreIndependent` | src/Http/Http/src/Internal/ReusableConnectionInfo.cs:83-87 | the `Connection` and `TlsConnection` slots start empty, read back what is written and do not overlap |
| `ConnectionInfo.ReusableConnectionInfo.constructor` | src/Http/Http/src/Internal/ReusableConnectionInfo.cs:20-23 | construction leaves exactly the state `Initialize` leaves: bound to the collection, both slots empty |
| `ConnectionInfo.ReusableConnectionInfo.Initialize` | src/Http/Http/src/Internal/ReusableConnectionInfo.cs:25-28 | the whole record is replaced: bound to the new collection, nothing cached from an earlier binding survives, both features resolve to the new collection's |
| `ConnectionInfo.ReusableConnectionInfo.Uninitialize` | src/Http/Http/src/Internal/ReusableConnectionInfo.cs:30-33 | the record becomes the default record (unbound, slots empty) whatever it was, so a second call leaves the same state |
| `ConnectionInfo.ReusableConnectionInfo.FetchConnection` | src/Http/Http/src/Internal/ReusableConnectionInfo.cs:15-36 | the new record is `Fetch` of the old one; the result is the collection's connection feature when it holds one, else the cached one, else a freshly allocated default; it stays resolved; the TLS slot's resolution is unchanged |
| `ConnectionInfo.ReusableConnectionInfo.FetchTlsConnection` | src/Http/Http/src/Internal/ReusableConnectionInfo.cs:16-39 | as `FetchConnection`, for the TLS feature; the connection slot's resolution is unchanged |
| `ConnectionInfo.ReusableConnectionInfo.GetId` | src/Http/Http/src/Internal/ReusableConnectionInfo.cs:42-44 | returns the `connectionId` of the connection feature now resolved, which is the one resolved before when there was one |
| `ConnectionInfo.ReusableConnectionInfo.SetId` | src/Http/Http/src/Internal/ReusableConnectionInfo.cs:42-45 | the resolved connection feature's `connectionId` becomes the value and its other four fields are unchanged; only that feature is written, never the TLS feature |
| `ConnectionInfo.ReusableConnectionInfo.GetRemoteIpAddress` | src/Http/Http/src/Internal/ReusableConnectionInfo.cs:48-50 | returns the `remoteIpAddress` of the resolved connection feature |
| `ConnectionInfo.ReusableConnectionInfo.SetRemoteIpAddress` | src/Http/Http/src/Internal/ReusableConnectionInfo.cs:48-51 | writes `remoteIpAddress` of the resolved connection feature, its other fields unchanged |
| `ConnectionInfo.ReusableConnectionInfo.GetRemotePort` | src/Http/Http/src/Internal/ReusableConnectionInfo.cs:54-56 | returns the `remotePort` of the resolved connection feature |
| `ConnectionInfo.ReusableConnectionInfo.SetRemotePort` | src/Http/Http/src/Internal/ReusableConnectionInfo.cs:54-57 | writes `remotePort` of the resolved connection feature, its other fields unchanged |
| `ConnectionInfo.ReusableConnectionInfo.GetLocalIpAddress` | src/Http/Http/src/Internal/ReusableConnectionInfo.cs:60-62 | returns the `localIpAddress` of the resolved connection feature |
| `ConnectionInfo.ReusableConnectionInfo.SetLocalIpAddress` | src/Http/Http/src/Internal/ReusableConnectionInfo.cs:60-63 | writes `localIpAddress` of the resolved connection feature, its other fields unchanged |
| `ConnectionInfo.ReusableConnectionInfo.GetLocalPort` | src/Http/Http/src/Internal/ReusableConnectionInfo.cs:66-68 | returns the `localPort` of the resolved connection feature |
| `ConnectionInfo.ReusableConnectionInfo.SetLocalPort` | src/Http/Http/src/Internal/ReusableConnectionInfo.cs:66-69 | writes `localPort` of the resolved connection feature, its other fields unchanged |
| `ConnectionInfo.ReusableConnectionInfo.GetClientCertificate` | src/Http/Http/src/Internal/ReusableConnectionInfo.cs:72-74 | returns the `clientCertificate` of the resolved TLS feature; the connection slot's resolution is unchanged |
| `ConnectionInfo.ReusableConnectionInfo.SetClientCertificate` | src/Http/Http/src/Internal/ReusableConnectionInfo.cs:72-75 | writes `clientCertificate` of the resolved TLS feature; no connection feature is in its frame, and the connection slot's resolution is unchanged |
| `ConnectionInfo.ReusableConnectionInfo.GetClientCertificateAsync` | src/Http/Http/src/Internal/ReusableConnectionInfo.cs:78-81 | the call is delegated to the resolved TLS feature, which is the collection's when it holds one |
| `ConnectionInfo.SetThenGetConnectionFields` | src/Http/Http/src/Internal/ReusableConnectionInfo.cs:42-70 | setting the five connection properties and then reading them back returns exactly the values set, all held by the one resolved connection feature |
| `WebSocketManager.SlotsAreIndependent` | src/Http/Http/src/Internal/ReusableWebSocketManager.cs:65-69 | the `Request` and `WebSockets` slots start empty, read back what is written and do not overlap |
| `WebSocketManager.ReusableWebSocketManager.constructor` | src/Http/Http/src/Internal/ReusableWebSocketManager.cs:19-22 | construction leaves exactly the state `Initialize` leaves |
| `WebSocketManager.ReusableWebSocketManager.Initialize` | src/Http/Http/src/Internal/ReusableWebSocketManager.cs:24-27 | the whole record is replaced: bound to the new collection with both slots empty |
| `WebSocketManager.ReusableWebSocketManager.Uninitialize` | src/Http/Http/src/Internal/ReusableWebSocketManager.cs:29-32 | the record becomes the default record whatever it was, so a second call leaves the same state |
| `WebSocketManager.ReusableWebSocketManager.FetchRequest` | src/Http/Http/src/Internal/ReusableWebSocketManager.cs:14-35 | the new record is `Fetch` of the old one with a null factory; the result is exactly the collection's request feature, absent when the collection has none (no default is synthesised) |
| `WebSocketManager.ReusableWebSocketManager.FetchWebSockets` | src/Http/Http/src/Internal/ReusableWebSocketManager.cs:15-38 | as `FetchRequest`, for the WebSocket feature |
| `WebSocketManager.ReusableWebSocketManager.IsWebSocketRequest` | src/Http/Http/src/Internal/ReusableWebSocketManager.cs:40-46 | true exactly when the collection holds a WebSocket feature whose own `isWebSocketRequest` flag is set; false, not an error, when it holds none |
| `WebSocketManager.ReusableWebSocketManager.WebSocketRequestedProtocols` | src/Http/Http/src/Internal/ReusableWebSocketManager.cs:48-54 | the header splitter applied to the request feature's Sec-WebSocket-Protocol header value, and nothing else; a null dereference when the collection has no request feature |
| `WebSocketManager.ReusableWebSocketManager.AcceptWebSocketAsync` | src/Http/Http/src/Internal/ReusableWebSocketManager.cs:56-63 | with no WebSocket feature it throws `NotSupported("WebSockets are not supported")` and changes nothing outside the façade (no accept call); otherwise the feature's accept is called exactly once, with a context holding exactly `subProtocol` |

## Left out

- `FeatureReferences<TCache>` and `IFeatureCollection` are not part of this model. They appear only through the boundary contract above: a collection with four feature kinds and a revision that every replacement bumps. The revision gating (a revision compare, a flush of the whole record, and null meaning unresolved) is an assumption about that code.
- In the model, a feature synthesised by the connection-info factory is kept in the slot only. It is not written back into the collection, because whether and how the unseen `Fetch` does so is not visible.
- A bound record starts from the collection's current revision. With every slot empty, any starting revision gives the same behaviour.
- `ParsingHelpers.GetHeaderSplit` is not part of this model. It is a function parameter of the header value (`None` when the header is missing). No comma-splitting result is asserted.
- Header names are matched exactly. `IHeaderDictionary` is case-insensitive, which is not modelled.
- The asynchronous completion of `GetClientCertificateAsync` and `AcceptAsync` (tasks, cancellation tokens, the `WebSocket` they produce) is left out. Only the synchronous decision to delegate or throw is modelled.
- `IPAddress` and `X509Certificate2` are opaque types. Ports are unbounded integers: they are only stored and read, so the 32-bit range of C#'s `int` plays no part.
- The revision counter is an unbounded `nat`, so its wrap-around is not modelled.
- Every accessor requires a bound record. After `Uninitialize`, C# would throw a null dereference on access; that path is not modelled.
- The WebSocket manager's slots cannot tell "looked up and found nothing" from "never looked up". This follows the C# slot fields, which are plain nullable references. So a missing feature is looked up again on every access.
- `WebSocketRequestedProtocols`: the code dereferences the request feature without a null check, although its factory returns null. With no request feature it therefore throws a null dereference. The model follows the code: it does not degrade to an empty sequence.
- `ConnectionInfo.ReusableConnectionInfo.FetchConnection`: the field values of a synthesised default `HttpConnectionFeature` are not stated, because that class's code is not part of this model. A getter that has to synthesise the feature returns its unspecified default.
- `ConnectionInfo.ReusableConnectionInfo.FetchTlsConnection`: likewise, the certificate of a synthesised default `TlsConnectionFeature` is not stated.
- src/Razor/Mvc.Razor.Extensions.Version1_X/test/IntegrationTests/CodeGenerationIntegrationTest.cs is not part of this model. It is a code-generation integration test, unrelated to the façades.
