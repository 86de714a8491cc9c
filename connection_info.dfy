/**
 * `ReusableConnectionInfo`: a poolable view of a request's connection
 * metadata. Every property reads or writes a field of the connection feature
 * or of the TLS feature, resolved through the embedded feature-reference
 * record. When the collection lacks either feature, the factory synthesises a
 * fresh default one, so an accessor always has a feature to work on.
 */
module ConnectionInfo {
  import opened Wrappers
  import opened Features
  import FeatureRefs

  /** The cache record: one slot per feature kind this view uses. */
  datatype FeatureInterfaces = FeatureInterfaces(
    connection: Option<HttpConnectionFeature>,
    tlsConnection: Option<TlsConnectionFeature>)

  const Empty: FeatureInterfaces := FeatureInterfaces(None, None)

  const ConnectionSlot: FeatureRefs.Slot<FeatureInterfaces, HttpConnectionFeature> :=
    FeatureRefs.Slot((c: FeatureInterfaces) => c.connection, (c: FeatureInterfaces, v) => c.(connection := v))

  const TlsConnectionSlot: FeatureRefs.Slot<FeatureInterfaces, TlsConnectionFeature> :=
    FeatureRefs.Slot((c: FeatureInterfaces) => c.tlsConnection, (c: FeatureInterfaces, v) => c.(tlsConnection := v))

  /** The two slots read back what is put in them and do not overlap. */
  lemma SlotsAreIndependent()
    ensures ConnectionSlot.get(Empty) == None && TlsConnectionSlot.get(Empty) == None
    ensures forall c, v :: ConnectionSlot.get(ConnectionSlot.put(c, v)) == v
    ensures forall c, v :: TlsConnectionSlot.get(TlsConnectionSlot.put(c, v)) == v
    ensures forall c, v :: TlsConnectionSlot.get(ConnectionSlot.put(c, v)) == TlsConnectionSlot.get(c)
    ensures forall c, v :: ConnectionSlot.get(TlsConnectionSlot.put(c, v)) == ConnectionSlot.get(c)
  {
  }

  class ReusableConnectionInfo {
    var features: FeatureRefs.FeatureReferences<FeatureInterfaces>

    /** While bound, neither slot contradicts a feature the collection holds at the revision it was cached at. */
    ghost predicate Valid()
      reads this, features.collection
    {
      var c := features.collection;
      c != null ==>
        features.revision <= c.revision &&
        FeatureRefs.Coherent(features, ConnectionSlot, c.revision, c.connection) &&
        FeatureRefs.Coherent(features, TlsConnectionSlot, c.revision, c.tlsConnection)
    }

    predicate Bound()
      reads this
    {
      features.collection != null
    }

    /** The connection feature the next access works on, or `None` if that access has to synthesise one. */
    ghost function ConnectionResolution(): Option<HttpConnectionFeature>
      requires Bound()
      reads this, features.collection
    {
      FeatureRefs.Resolution(features, ConnectionSlot, features.collection.revision, features.collection.connection)
    }

    /** The TLS feature the next access works on, or `None` if that access has to synthesise one. */
    ghost function TlsResolution(): Option<TlsConnectionFeature>
      requires Bound()
      reads this, features.collection
    {
      FeatureRefs.Resolution(features, TlsConnectionSlot, features.collection.revision, features.collection.tlsConnection)
    }

    constructor (collection: FeatureCollection)
      ensures Valid() && features == FeatureRefs.Bind(collection, collection.revision, Empty)
      ensures ConnectionResolution() == collection.connection && TlsResolution() == collection.tlsConnection
    {
      features := FeatureRefs.Unbound(Empty);
      new;
      Initialize(collection);
    }

    method Initialize(collection: FeatureCollection)
      modifies this
      ensures Valid() && features == FeatureRefs.Bind(collection, collection.revision, Empty)
      // nothing cached from an earlier binding survives
      ensures ConnectionResolution() == collection.connection && TlsResolution() == collection.tlsConnection
    {
      features := FeatureRefs.Bind(collection, collection.revision, Empty);
    }

    method Uninitialize()
      modifies this
      ensures Valid() && !Bound() && features == FeatureRefs.Unbound(Empty)
    {
      features := FeatureRefs.Unbound(Empty);
    }

    /** The `HttpConnectionFeature` property: `Fetch` with the default-instance factory. */
    method FetchConnection() returns (f: HttpConnectionFeature)
      requires Valid() && Bound()
      modifies this
      ensures Valid() && Bound() && features.collection == old(features.collection)
      ensures var c := features.collection;
        var r := FeatureRefs.Fetch(old(features), Empty, ConnectionSlot, c.revision, c.connection, Some(f));
        features == r.refs && r.feature == Some(f)
      ensures features.collection.connection.Some? ==> features.collection.connection == Some(f)
      ensures old(ConnectionResolution()).Some? ==> old(ConnectionResolution()) == Some(f)
      ensures old(ConnectionResolution()).None? ==> fresh(f)
      ensures ConnectionResolution() == Some(f)
      ensures TlsResolution() == old(TlsResolution())
    {
      var c := features.collection;
      SlotsAreIndependent();
      var resolved := FeatureRefs.Resolution(features, ConnectionSlot, c.revision, c.connection);
      if resolved.Some? {
        f := resolved.value;
      } else {
        f := new HttpConnectionFeature();
      }
      FeatureRefs.FetchMemoises(features, Empty, ConnectionSlot, c.revision, c.connection, Some(f));
      FeatureRefs.FetchKeepsOtherSlot(features, Empty, ConnectionSlot, TlsConnectionSlot, c.revision, c.connection, Some(f), c.tlsConnection);
      features := FeatureRefs.Fetch(features, Empty, ConnectionSlot, c.revision, c.connection, Some(f)).refs;
    }

    /** The `TlsConnectionFeature` property: `Fetch` with the default-instance factory. */
    method FetchTlsConnection() returns (f: TlsConnectionFeature)
      requires Valid() && Bound()
      modifies this
      ensures Valid() && Bound() && features.collection == old(features.collection)
      ensures var c := features.collection;
        var r := FeatureRefs.Fetch(old(features), Empty, TlsConnectionSlot, c.revision, c.tlsConnection, Some(f));
        features == r.refs && r.feature == Some(f)
      ensures features.collection.tlsConnection.Some? ==> features.collection.tlsConnection == Some(f)
      ensures old(TlsResolution()).Some? ==> old(TlsResolution()) == Some(f)
      ensures old(TlsResolution()).None? ==> fresh(f)
      ensures TlsResolution() == Some(f)
      ensures ConnectionResolution() == old(ConnectionResolution())
    {
      var c := features.collection;
      SlotsAreIndependent();
      var resolved := FeatureRefs.Resolution(features, TlsConnectionSlot, c.revision, c.tlsConnection);
      if resolved.Some? {
        f := resolved.value;
      } else {
        f := new TlsConnectionFeature();
      }
      FeatureRefs.FetchMemoises(features, Empty, TlsConnectionSlot, c.revision, c.tlsConnection, Some(f));
      FeatureRefs.FetchKeepsOtherSlot(features, Empty, TlsConnectionSlot, ConnectionSlot, c.revision, c.tlsConnection, Some(f), c.connection);
      features := FeatureRefs.Fetch(features, Empty, TlsConnectionSlot, c.revision, c.tlsConnection, Some(f)).refs;
    }

    method GetId() returns (id: Option<string>)
      requires Valid() && Bound()
      modifies this
      ensures Valid() && Bound() && features.collection == old(features.collection)
      ensures ConnectionResolution().Some? && id == ConnectionResolution().value.connectionId
      ensures old(ConnectionResolution()).None? ==> fresh(ConnectionResolution().value)
      ensures old(ConnectionResolution()).Some? ==> ConnectionResolution() == old(ConnectionResolution())
      ensures TlsResolution() == old(TlsResolution())
    {
      var f := FetchConnection();
      id := f.connectionId;
    }

    method SetId(value: Option<string>)
      requires Valid() && Bound()
      modifies this, Objects(ConnectionResolution())
      ensures Valid() && Bound() && features.collection == old(features.collection)
      ensures ConnectionResolution().Some? && ConnectionResolution().value.connectionId == value
      ensures old(ConnectionResolution()).None? ==> fresh(ConnectionResolution().value)
      ensures old(ConnectionResolution()).Some? ==>
        ConnectionResolution() == old(ConnectionResolution()) &&
        ConnectionResolution().value.Fields() == old(ConnectionResolution().value.Fields()).(connectionId := value)
      ensures TlsResolution() == old(TlsResolution())
    {
      var f := FetchConnection();
      f.connectionId := value;
    }

    method GetRemoteIpAddress() returns (address: Option<IPAddress>)
      requires Valid() && Bound()
      modifies this
      ensures Valid() && Bound() && features.collection == old(features.collection)
      ensures ConnectionResolution().Some? && address == ConnectionResolution().value.remoteIpAddress
      ensures old(ConnectionResolution()).None? ==> fresh(ConnectionResolution().value)
      ensures old(ConnectionResolution()).Some? ==> ConnectionResolution() == old(ConnectionResolution())
      ensures TlsResolution() == old(TlsResolution())
    {
      var f := FetchConnection();
      address := f.remoteIpAddress;
    }

    method SetRemoteIpAddress(value: Option<IPAddress>)
      requires Valid() && Bound()
      modifies this, Objects(ConnectionResolution())
      ensures Valid() && Bound() && features.collection == old(features.collection)
      ensures ConnectionResolution().Some? && ConnectionResolution().value.remoteIpAddress == value
      ensures old(ConnectionResolution()).None? ==> fresh(ConnectionResolution().value)
      ensures old(ConnectionResolution()).Some? ==>
        ConnectionResolution() == old(ConnectionResolution()) &&
        ConnectionResolution().value.Fields() == old(ConnectionResolution().value.Fields()).(remoteIpAddress := value)
      ensures TlsResolution() == old(TlsResolution())
    {
      var f := FetchConnection();
      f.remoteIpAddress := value;
    }

    method GetRemotePort() returns (port: int)
      requires Valid() && Bound()
      modifies this
      ensures Valid() && Bound() && features.collection == old(features.collection)
      ensures ConnectionResolution().Some? && port == ConnectionResolution().value.remotePort
      ensures old(ConnectionResolution()).None? ==> fresh(ConnectionResolution().value)
      ensures old(ConnectionResolution()).Some? ==> ConnectionResolution() == old(ConnectionResolution())
      ensures TlsResolution() == old(TlsResolution())
    {
      var f := FetchConnection();
      port := f.remotePort;
    }

    method SetRemotePort(value: int)
      requires Valid() && Bound()
      modifies this, Objects(ConnectionResolution())
      ensures Valid() && Bound() && features.collection == old(features.collection)
      ensures ConnectionResolution().Some? && ConnectionResolution().value.remotePort == value
      ensures old(ConnectionResolution()).None? ==> fresh(ConnectionResolution().value)
      ensures old(ConnectionResolution()).Some? ==>
        ConnectionResolution() == old(ConnectionResolution()) &&
        ConnectionResolution().value.Fields() == old(ConnectionResolution().value.Fields()).(remotePort := value)
      ensures TlsResolution() == old(TlsResolution())
    {
      var f := FetchConnection();
      f.remotePort := value;
    }

    method GetLocalIpAddress() returns (address: Option<IPAddress>)
      requires Valid() && Bound()
      modifies this
      ensures Valid() && Bound() && features.collection == old(features.collection)
      ensures ConnectionResolution().Some? && address == ConnectionResolution().value.localIpAddress
      ensures old(ConnectionResolution()).None? ==> fresh(ConnectionResolution().value)
      ensures old(ConnectionResolution()).Some? ==> ConnectionResolution() == old(ConnectionResolution())
      ensures TlsResolution() == old(TlsResolution())
    {
      var f := FetchConnection();
      address := f.localIpAddress;
    }

    method SetLocalIpAddress(value: Option<IPAddress>)
      requires Valid() && Bound()
      modifies this, Objects(ConnectionResolution())
      ensures Valid() && Bound() && features.collection == old(features.collection)
      ensures ConnectionResolution().Some? && ConnectionResolution().value.localIpAddress == value
      ensures old(ConnectionResolution()).None? ==> fresh(ConnectionResolution().value)
      ensures old(ConnectionResolution()).Some? ==>
        ConnectionResolution() == old(ConnectionResolution()) &&
        ConnectionResolution().value.Fields() == old(ConnectionResolution().value.Fields()).(localIpAddress := value)
      ensures TlsResolution() == old(TlsResolution())
    {
      var f := FetchConnection();
      f.localIpAddress := value;
    }

    method GetLocalPort() returns (port: int)
      requires Valid() && Bound()
      modifies this
      ensures Valid() && Bound() && features.collection == old(features.collection)
      ensures ConnectionResolution().Some? && port == ConnectionResolution().value.localPort
      ensures old(ConnectionResolution()).None? ==> fresh(ConnectionResolution().value)
      ensures old(ConnectionResolution()).Some? ==> ConnectionResolution() == old(ConnectionResolution())
      ensures TlsResolution() == old(TlsResolution())
    {
      var f := FetchConnection();
      port := f.localPort;
    }

    method SetLocalPort(value: int)
      requires Valid() && Bound()
      modifies this, Objects(ConnectionResolution())
      ensures Valid() && Bound() && features.collection == old(features.collection)
      ensures ConnectionResolution().Some? && ConnectionResolution().value.localPort == value
      ensures old(ConnectionResolution()).None? ==> fresh(ConnectionResolution().value)
      ensures old(ConnectionResolution()).Some? ==>
        ConnectionResolution() == old(ConnectionResolution()) &&
        ConnectionResolution().value.Fields() == old(ConnectionResolution().value.Fields()).(localPort := value)
      ensures TlsResolution() == old(TlsResolution())
    {
      var f := FetchConnection();
      f.localPort := value;
    }

    method GetClientCertificate() returns (certificate: Option<Certificate>)
      requires Valid() && Bound()
      modifies this
      ensures Valid() && Bound() && features.collection == old(features.collection)
      ensures TlsResolution().Some? && certificate == TlsResolution().value.clientCertificate
      ensures old(TlsResolution()).None? ==> fresh(TlsResolution().value)
      ensures old(TlsResolution()).Some? ==> TlsResolution() == old(TlsResolution())
      ensures ConnectionResolution() == old(ConnectionResolution())
    {
      var f := FetchTlsConnection();
      certificate := f.clientCertificate;
    }

    /** Writes the TLS feature only: no connection feature is in the frame. */
    method SetClientCertificate(value: Option<Certificate>)
      requires Valid() && Bound()
      modifies this, Objects(TlsResolution())
      ensures Valid() && Bound() && features.collection == old(features.collection)
      ensures TlsResolution().Some? && TlsResolution().value.clientCertificate == value
      ensures old(TlsResolution()).None? ==> fresh(TlsResolution().value)
      ensures old(TlsResolution()).Some? ==> TlsResolution() == old(TlsResolution())
      ensures ConnectionResolution() == old(ConnectionResolution())
    {
      var f := FetchTlsConnection();
      f.clientCertificate := value;
    }

    /** The synchronous part of `GetClientCertificateAsync`: the TLS feature the call is delegated to. */
    method GetClientCertificateAsync() returns (target: TlsConnectionFeature)
      requires Valid() && Bound()
      modifies this
      ensures Valid() && Bound() && features.collection == old(features.collection)
      ensures TlsResolution() == Some(target)
      ensures old(TlsResolution()).Some? ==> old(TlsResolution()) == Some(target)
      ensures ConnectionResolution() == old(ConnectionResolution())
    {
      target := FetchTlsConnection();
    }
  }

  /**
   * Setting the five connection fields one after another and reading them
   * back returns exactly the values set: each setter writes its own field of
   * the one connection feature, and the later setters leave it alone.
   */
  method SetThenGetConnectionFields(info: ReusableConnectionInfo, fields: ConnectionFields) returns (read: ConnectionFields)
    requires info.Valid() && info.Bound()
    modifies info, Objects(info.ConnectionResolution())
    ensures info.Valid() && info.Bound() && info.features.collection == old(info.features.collection)
    ensures read == fields
    ensures info.ConnectionResolution().Some? && info.ConnectionResolution().value.Fields() == fields
    ensures old(info.ConnectionResolution()).Some? ==> info.ConnectionResolution() == old(info.ConnectionResolution())
    ensures info.TlsResolution() == old(info.TlsResolution())
  {
    info.SetId(fields.connectionId);
    info.SetRemoteIpAddress(fields.remoteIpAddress);
    info.SetRemotePort(fields.remotePort);
    info.SetLocalIpAddress(fields.localIpAddress);
    info.SetLocalPort(fields.localPort);
    var id := info.GetId();
    var remoteIpAddress := info.GetRemoteIpAddress();
    var remotePort := info.GetRemotePort();
    var localIpAddress := info.GetLocalIpAddress();
    var localPort := info.GetLocalPort();
    read := ConnectionFields(id, remoteIpAddress, remotePort, localIpAddress, localPort);
  }
}
