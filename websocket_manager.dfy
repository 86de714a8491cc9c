/**
 * `ReusableWebSocketManager`: a poolable view of a request's WebSocket
 * upgrade support. Unlike the connection-info view, both of its factories
 * return null, so a feature the collection lacks resolves to absent: the
 * upgrade check then answers false, and accepting throws.
 */
module WebSocketManager {
  import opened Wrappers
  import opened Features
  import FeatureRefs

  /** The cache record: one slot per feature kind this view uses. */
  datatype FeatureInterfaces = FeatureInterfaces(
    request: Option<HttpRequestFeature>,
    webSockets: Option<HttpWebSocketFeature>)

  const Empty: FeatureInterfaces := FeatureInterfaces(None, None)

  const RequestSlot: FeatureRefs.Slot<FeatureInterfaces, HttpRequestFeature> :=
    FeatureRefs.Slot((c: FeatureInterfaces) => c.request, (c: FeatureInterfaces, v) => c.(request := v))

  const WebSocketsSlot: FeatureRefs.Slot<FeatureInterfaces, HttpWebSocketFeature> :=
    FeatureRefs.Slot((c: FeatureInterfaces) => c.webSockets, (c: FeatureInterfaces, v) => c.(webSockets := v))

  /** The exceptions this view's operations can throw. */
  datatype Exception =
    | NotSupported(message: string)
    | NullReference  // a member access through a null feature reference

  const NotSupportedMessage: string := "WebSockets are not supported"

  /** The header that lists the requested sub-protocols (section 11.3.4 of RFC 6455). */
  const SecWebSocketProtocol: string := "Sec-WebSocket-Protocol"

  /** The value of header `name`, or `None` when the request has no such header. */
  function HeaderValue(headers: map<string, seq<string>>, name: string): Option<seq<string>>
  {
    if name in headers then Some(headers[name]) else None
  }

  /** The two slots read back what is put in them and do not overlap. */
  lemma SlotsAreIndependent()
    ensures RequestSlot.get(Empty) == None && WebSocketsSlot.get(Empty) == None
    ensures forall c, v :: RequestSlot.get(RequestSlot.put(c, v)) == v
    ensures forall c, v :: WebSocketsSlot.get(WebSocketsSlot.put(c, v)) == v
    ensures forall c, v :: WebSocketsSlot.get(RequestSlot.put(c, v)) == WebSocketsSlot.get(c)
    ensures forall c, v :: RequestSlot.get(WebSocketsSlot.put(c, v)) == RequestSlot.get(c)
  {
  }

  class ReusableWebSocketManager {
    var features: FeatureRefs.FeatureReferences<FeatureInterfaces>

    /**
     * While bound, a slot cached at the collection's current revision holds
     * exactly the collection's feature: with null factories nothing else can
     * ever be put in a slot.
     */
    ghost predicate Valid()
      reads this, features.collection
    {
      var c := features.collection;
      c != null ==>
        features.revision <= c.revision &&
        FeatureRefs.Mirrors(features, RequestSlot, c.revision, c.request) &&
        FeatureRefs.Mirrors(features, WebSocketsSlot, c.revision, c.webSockets)
    }

    predicate Bound()
      reads this
    {
      features.collection != null
    }

    constructor (collection: FeatureCollection)
      ensures Valid() && features == FeatureRefs.Bind(collection, collection.revision, Empty)
    {
      features := FeatureRefs.Unbound(Empty);
      new;
      Initialize(collection);
    }

    method Initialize(collection: FeatureCollection)
      modifies this
      ensures Valid() && features == FeatureRefs.Bind(collection, collection.revision, Empty)
    {
      features := FeatureRefs.Bind(collection, collection.revision, Empty);
    }

    method Uninitialize()
      modifies this
      ensures Valid() && !Bound() && features == FeatureRefs.Unbound(Empty)
    {
      features := FeatureRefs.Unbound(Empty);
    }

    /** The `HttpRequestFeature` property: `Fetch` with the null factory. */
    method FetchRequest() returns (f: Option<HttpRequestFeature>)
      requires Valid() && Bound()
      modifies this
      ensures Valid() && Bound() && features.collection == old(features.collection)
      ensures var c := features.collection;
        var r := FeatureRefs.Fetch(old(features), Empty, RequestSlot, c.revision, c.request, None);
        features == r.refs && r.feature == f
      // absent when the collection lacks it: no default is synthesised
      ensures f == features.collection.request
    {
      var c := features.collection;
      SlotsAreIndependent();
      FeatureRefs.FetchMemoises(features, Empty, RequestSlot, c.revision, c.request, None);
      FeatureRefs.FetchKeepsOtherSlot(features, Empty, RequestSlot, WebSocketsSlot, c.revision, c.request, None, c.webSockets);
      var r := FeatureRefs.Fetch(features, Empty, RequestSlot, c.revision, c.request, None);
      features := r.refs;
      f := r.feature;
    }

    /** The `WebSocketFeature` property: `Fetch` with the null factory. */
    method FetchWebSockets() returns (f: Option<HttpWebSocketFeature>)
      requires Valid() && Bound()
      modifies this
      ensures Valid() && Bound() && features.collection == old(features.collection)
      ensures var c := features.collection;
        var r := FeatureRefs.Fetch(old(features), Empty, WebSocketsSlot, c.revision, c.webSockets, None);
        features == r.refs && r.feature == f
      // absent when the collection lacks it: no default is synthesised
      ensures f == features.collection.webSockets
    {
      var c := features.collection;
      SlotsAreIndependent();
      FeatureRefs.FetchMemoises(features, Empty, WebSocketsSlot, c.revision, c.webSockets, None);
      FeatureRefs.FetchKeepsOtherSlot(features, Empty, WebSocketsSlot, RequestSlot, c.revision, c.webSockets, None, c.request);
      var r := FeatureRefs.Fetch(features, Empty, WebSocketsSlot, c.revision, c.webSockets, None);
      features := r.refs;
      f := r.feature;
    }

    method IsWebSocketRequest() returns (b: bool)
      requires Valid() && Bound()
      modifies this
      ensures Valid() && Bound() && features.collection == old(features.collection)
      ensures var ws := features.collection.webSockets;
        b <==> ws.Some? && ws.value.isWebSocketRequest
    {
      var ws := FetchWebSockets();
      if ws.None? {
        b := false;
      } else {
        var again := FetchWebSockets();
        b := again.value.isWebSocketRequest;
      }
    }

    /**
     * `WebSocketRequestedProtocols`, with the header splitter passed in: the
     * split of the request's Sec-WebSocket-Protocol header, or a null
     * dereference when the collection has no request feature.
     */
    method WebSocketRequestedProtocols(getHeaderSplit: Option<seq<string>> -> seq<string>)
      returns (r: Result<seq<string>, Exception>)
      requires Valid() && Bound()
      modifies this
      ensures Valid() && Bound() && features.collection == old(features.collection)
      ensures var request := features.collection.request;
        (request.None? ==> r == Failure(NullReference)) &&
        (request.Some? ==> r == Success(getHeaderSplit(HeaderValue(request.value.headers, SecWebSocketProtocol))))
    {
      var request := FetchRequest();
      if request.None? {
        r := Failure(NullReference);
      } else {
        r := Success(getHeaderSplit(HeaderValue(request.value.headers, SecWebSocketProtocol)));
      }
    }

    /**
     * The synchronous part of `AcceptWebSocketAsync`: throw when there is no
     * WebSocket feature, else call its accept with exactly `subProtocol`.
     */
    method AcceptWebSocketAsync(subProtocol: Option<string>) returns (r: Result<WebSocketAcceptContext, Exception>)
      requires Valid() && Bound()
      modifies this, Objects(features.collection.webSockets)
      ensures Valid() && Bound() && features.collection == old(features.collection)
      ensures var ws := features.collection.webSockets;
        (ws.None? ==> r == Failure(NotSupported(NotSupportedMessage))) &&
        (ws.Some? ==> r == Success(WebSocketAcceptContext(subProtocol)) &&
                      ws.value.acceptCalls == old(ws.value.acceptCalls) + [WebSocketAcceptContext(subProtocol)] &&
                      ws.value.isWebSocketRequest == old(ws.value.isWebSocketRequest))
    {
      var ws := FetchWebSockets();
      if ws.None? {
        r := Failure(NotSupported(NotSupportedMessage));
        return;
      }
      var target := FetchWebSockets();
      var context := WebSocketAcceptContext(subProtocol);
      target.value.AcceptAsync(context);
      r := Success(context);
    }
  }
}
