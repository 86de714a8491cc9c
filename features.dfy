/**
 * The boundary of the feature collection: the per-request feature objects the
 * two facades delegate to, and the collection that holds them. Only what the
 * facades rely on is modelled; the concrete feature classes are not part of
 * this model beyond their fields.
 */
module Features {
  import opened Wrappers

  /** An IP address, treated as an opaque value. */
  type IPAddress(==)

  /** An X.509 client certificate, treated as an opaque value. */
  type Certificate(==)

  /** The five fields of a connection feature, read together. */
  datatype ConnectionFields = ConnectionFields(
    connectionId: Option<string>,
    remoteIpAddress: Option<IPAddress>,
    remotePort: int,
    localIpAddress: Option<IPAddress>,
    localPort: int)

  /** Connection metadata (`IHttpConnectionFeature`). */
  class HttpConnectionFeature {
    var connectionId: Option<string>
    var remoteIpAddress: Option<IPAddress>
    var remotePort: int
    var localIpAddress: Option<IPAddress>
    var localPort: int

    /** A default instance, as the connection-info factory makes one; its initial field values are not modelled. */
    constructor ()
    {
    }

    ghost function Fields(): ConnectionFields
      reads this
    {
      ConnectionFields(connectionId, remoteIpAddress, remotePort, localIpAddress, localPort)
    }
  }

  /** TLS metadata (`ITlsConnectionFeature`). */
  class TlsConnectionFeature {
    var clientCertificate: Option<Certificate>

    /** A default instance, as the connection-info factory makes one; its initial certificate is not modelled. */
    constructor ()
    {
    }
  }

  /** The request line and headers (`IHttpRequestFeature`); only the headers are modelled. */
  class HttpRequestFeature {
    var headers: map<string, seq<string>>
  }

  /** What the WebSocket manager hands to the feature's accept operation. */
  datatype WebSocketAcceptContext = WebSocketAcceptContext(subProtocol: Option<string>)

  /** WebSocket upgrade support (`IHttpWebSocketFeature`). */
  class HttpWebSocketFeature {
    var isWebSocketRequest: bool
    /** The contexts this feature's accept operation has been called with, oldest first. */
    ghost var acceptCalls: seq<WebSocketAcceptContext>

    /** The synchronous part of `AcceptAsync`: the call itself, with its context. */
    method AcceptAsync(context: WebSocketAcceptContext)
      modifies this
      ensures acceptCalls == old(acceptCalls) + [context]
      ensures isWebSocketRequest == old(isWebSocketRequest)
    {
      acceptCalls := acceptCalls + [context];
    }
  }

  /**
   * The per-request feature collection (`IFeatureCollection`): at most one
   * feature per kind, and a revision counter that every replacement bumps.
   */
  class FeatureCollection {
    var revision: nat
    var connection: Option<HttpConnectionFeature>
    var tlsConnection: Option<TlsConnectionFeature>
    var request: Option<HttpRequestFeature>
    var webSockets: Option<HttpWebSocketFeature>

    constructor ()
      ensures revision == 0
      ensures connection == None && tlsConnection == None && request == None && webSockets == None
    {
      revision := 0;
      connection, tlsConnection, request, webSockets := None, None, None, None;
    }

    method SetConnection(feature: Option<HttpConnectionFeature>)
      modifies this
      ensures revision == old(revision) + 1 && connection == feature
      ensures tlsConnection == old(tlsConnection) && request == old(request) && webSockets == old(webSockets)
    {
      connection := feature;
      revision := revision + 1;
    }

    method SetTlsConnection(feature: Option<TlsConnectionFeature>)
      modifies this
      ensures revision == old(revision) + 1 && tlsConnection == feature
      ensures connection == old(connection) && request == old(request) && webSockets == old(webSockets)
    {
      tlsConnection := feature;
      revision := revision + 1;
    }

    method SetRequest(feature: Option<HttpRequestFeature>)
      modifies this
      ensures revision == old(revision) + 1 && request == feature
      ensures connection == old(connection) && tlsConnection == old(tlsConnection) && webSockets == old(webSockets)
    {
      request := feature;
      revision := revision + 1;
    }

    method SetWebSockets(feature: Option<HttpWebSocketFeature>)
      modifies this
      ensures revision == old(revision) + 1 && webSockets == feature
      ensures connection == old(connection) && tlsConnection == old(tlsConnection) && request == old(request)
    {
      webSockets := feature;
      revision := revision + 1;
    }
  }
}
