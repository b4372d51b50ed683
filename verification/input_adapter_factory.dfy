/**
 * Input side of adapter selection: for one upstream stream, the kind of data
 * store (read off the first data reference) and the connection type decide
 * how many input adapters are built and of what kind.
 */
module InputAdapters {
  import opened Wrappers
  import opened DataStoreTypes
  import opened SeepApi

  /**
   * An input adapter. `store` names the concrete per-buffer stream class:
   * NETWORK is a NetworkDataStream, FILE a FileDataStream, KAFKA a
   * KafkaDataStream. A NetworkBarrier merges all buffers of the stream.
   */
  datatype InputAdapter =
    | PerBufferStream(store: DataStoreType, streamId: int, buffer: InputBuffer, schema: Schema)
    | NetworkBarrier(streamId: int, buffers: seq<InputBuffer>, schema: Schema)

  /** The input adapters of a task. */
  datatype CoreInput = CoreInput(adapters: seq<InputAdapter>)

  /** The schema every adapter of the stream expects: that of the first data reference. */
  function ExpectedSchema(drefs: seq<DataReference>): Schema
    requires |drefs| > 0
  {
    drefs[0].dataStore.schema
  }

  /** One stream of the given store kind per buffer, in buffer order. */
  method BuildPerBufferStreams(store: DataStoreType, streamId: int, buffers: seq<InputBuffer>, schema: Schema)
    returns (ias: seq<InputAdapter>)
    ensures |ias| == |buffers|
    ensures forall i :: 0 <= i < |buffers| ==> ias[i] == PerBufferStream(store, streamId, buffers[i], schema)
  {
    ias := [];
    for i := 0 to |buffers|
      invariant |ias| == i
      invariant forall j :: 0 <= j < i ==> ias[j] == PerBufferStream(store, streamId, buffers[j], schema)
    {
      ias := ias + [PerBufferStream(store, streamId, buffers[i], schema)];
    }
  }

  method BuildInputAdapterOfTypeNetworkForOps(streamId: int, drefs: seq<DataReference>, buffers: seq<InputBuffer>,
                                              connType: ConnectionType)
    returns (ias: seq<InputAdapter>)
    requires |drefs| > 0
    ensures connType == ONE_AT_A_TIME ==>
              && |ias| == |buffers|
              && forall i :: 0 <= i < |buffers| ==>
                   ias[i] == PerBufferStream(NETWORK, streamId, buffers[i], ExpectedSchema(drefs))
    ensures connType == UPSTREAM_SYNC_BARRIER ==> ias == [NetworkBarrier(streamId, buffers, ExpectedSchema(drefs))]
    ensures connType.OtherConnectionType? ==> ias == []
  {
    ias := [];
    var expectedSchema := ExpectedSchema(drefs);
    if connType == ONE_AT_A_TIME {
      ias := BuildPerBufferStreams(NETWORK, streamId, buffers, expectedSchema);
    } else if connType == UPSTREAM_SYNC_BARRIER {
      ias := ias + [NetworkBarrier(streamId, buffers, expectedSchema)];
    }
  }

  method BuildInputAdapterOfTypeFileForOps(streamId: int, drefs: seq<DataReference>, buffers: seq<InputBuffer>,
                                           connType: ConnectionType)
    returns (ias: seq<InputAdapter>)
    requires |drefs| > 0
    ensures connType == ONE_AT_A_TIME ==>
              && |ias| == |buffers|
              && forall i :: 0 <= i < |buffers| ==>
                   ias[i] == PerBufferStream(FILE, streamId, buffers[i], ExpectedSchema(drefs))
    ensures connType != ONE_AT_A_TIME ==> ias == []
  {
    ias := [];
    var expectedSchema := ExpectedSchema(drefs);
    if connType == ONE_AT_A_TIME {
      ias := BuildPerBufferStreams(FILE, streamId, buffers, expectedSchema);
    }
  }

  method BuildInputAdapterOfTypeKafkaForOps(streamId: int, drefs: seq<DataReference>, buffers: seq<InputBuffer>,
                                            connType: ConnectionType)
    returns (ias: seq<InputAdapter>)
    requires |drefs| > 0
    ensures connType == ONE_AT_A_TIME ==>
              && |ias| == |buffers|
              && forall i :: 0 <= i < |buffers| ==>
                   ias[i] == PerBufferStream(KAFKA, streamId, buffers[i], ExpectedSchema(drefs))
    ensures connType != ONE_AT_A_TIME ==> ias == []
  {
    ias := [];
    var expectedSchema := ExpectedSchema(drefs);
    if connType == ONE_AT_A_TIME {
      ias := BuildPerBufferStreams(KAFKA, streamId, buffers, expectedSchema);
    }
  }

  /** The adapters the factory builds for a supported store kind and connection type. */
  function ExpectedAdapters(store: DataStoreType, streamId: int, buffers: seq<InputBuffer>, schema: Schema,
                            connType: ConnectionType): seq<InputAdapter>
  {
    if connType == ONE_AT_A_TIME then
      seq(|buffers|, i requires 0 <= i < |buffers| => PerBufferStream(store, streamId, buffers[i], schema))
    else if connType == UPSTREAM_SYNC_BARRIER && store == NETWORK then
      [NetworkBarrier(streamId, buffers, schema)]
    else
      []
  }

  /**
   * `buildInputAdapterForStreamId`: dispatches on the store kind of the first
   * data reference; a kind with no builder yields None (Java's null).
   */
  method BuildInputAdapterForStreamId(streamId: int, buffers: seq<InputBuffer>, drefs: seq<DataReference>,
                                      connType: ConnectionType)
    returns (ias: Option<seq<InputAdapter>>)
    requires |drefs| > 0
    ensures var store := drefs[0].dataStore.storeType;
            ias.Some? <==> store == NETWORK || store == FILE || store == KAFKA
    ensures ias.Some? ==>
              ias.value == ExpectedAdapters(drefs[0].dataStore.storeType, streamId, buffers, ExpectedSchema(drefs), connType)
    ensures ias.Some? ==> forall a :: a in ias.value ==> a.streamId == streamId && a.schema == ExpectedSchema(drefs)
  {
    ias := None;
    var store := drefs[0].dataStore.storeType;
    if store == NETWORK {
      var built := BuildInputAdapterOfTypeNetworkForOps(streamId, drefs, buffers, connType);
      ias := Some(built);
    } else if store == FILE {
      var built := BuildInputAdapterOfTypeFileForOps(streamId, drefs, buffers, connType);
      ias := Some(built);
    } else if store == KAFKA {
      var built := BuildInputAdapterOfTypeKafkaForOps(streamId, drefs, buffers, connType);
      ias := Some(built);
    }
  }
}
