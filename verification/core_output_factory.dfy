/**
 * Output side of adapter selection: the operator's downstream connections
 * are grouped by stream id, and one output adapter is built per group, its
 * kind decided by the data origin the group's first connection expects.
 */
module CoreOutputs {
  import opened Wrappers
  import opened DataStoreTypes
  import opened SeepApi

  datatype OutputAdapter =
    | NetworkOutputAdapter(streamId: int, connections: seq<DownstreamConnection>, mapping: map<int, EndPoint>)
    | KafkaOutputAdapter(streamId: int, config: map<string, string>, connections: seq<DownstreamConnection>)

  /**
   * The output adapters of a task (an entry is None where the factory added
   * null) and the selector registered as the event hook, if any.
   */
  datatype CoreOutput = CoreOutput(adapters: seq<Option<OutputAdapter>>, eventApi: Option<DataStoreSelector>)

  /** The distinct stream ids of a sequence of connections. */
  function StreamIds(conns: seq<DownstreamConnection>): set<int> {
    set c | c in conns :: c.streamId
  }

  /** The connections on stream `sid`, in their original order. */
  function StreamGroup(conns: seq<DownstreamConnection>, sid: int): seq<DownstreamConnection>
    decreases |conns|
  {
    if conns == [] then []
    else
      var last := conns[|conns| - 1];
      StreamGroup(conns[..|conns| - 1], sid) + (if last.streamId == sid then [last] else [])
  }

  /** A connection is in the group of `sid` exactly when it is one of the connections and it is on `sid`. */
  lemma {:induction false} StreamGroupMembers(conns: seq<DownstreamConnection>, sid: int, c: DownstreamConnection)
    ensures c in StreamGroup(conns, sid) <==> c in conns && c.streamId == sid
    decreases |conns|
  {
    if conns != [] {
      var init := conns[..|conns| - 1];
      StreamGroupMembers(init, sid, c);
      assert conns == init + [conns[|conns| - 1]];
    }
  }

  /** Grouping distributes over concatenation, so a group keeps the relative order of its connections. */
  lemma {:induction false} StreamGroupAppend(a: seq<DownstreamConnection>, b: seq<DownstreamConnection>, sid: int)
    ensures StreamGroup(a + b, sid) == StreamGroup(a, sid) + StreamGroup(b, sid)
    decreases |b|
  {
    if b == [] {
      assert a + b == a;
    } else {
      var init := b[..|b| - 1];
      StreamGroupAppend(a, init, sid);
      assert (a + b)[..|a + b| - 1] == a + init;
    }
  }

  /** Every stream id that occurs has a non-empty group. */
  lemma StreamGroupNonEmpty(conns: seq<DownstreamConnection>, sid: int)
    requires sid in StreamIds(conns)
    ensures |StreamGroup(conns, sid)| > 0
  {
    var c :| c in conns && c.streamId == sid;
    StreamGroupMembers(conns, sid, c);
  }

  /** Each connection lands in exactly one group: the one keyed by its own stream id. */
  lemma ExactlyOneGroup(conns: seq<DownstreamConnection>, c: DownstreamConnection, sid: int)
    requires c in conns
    ensures c.streamId in StreamIds(conns)
    ensures c in StreamGroup(conns, sid) <==> sid == c.streamId
  {
    StreamGroupMembers(conns, sid, c);
  }

  /** One more connection adds its stream id and extends that stream's group only. */
  lemma GroupingStep(conns: seq<DownstreamConnection>, dc: DownstreamConnection)
    ensures StreamIds(conns + [dc]) == StreamIds(conns) + {dc.streamId}
    ensures forall sid :: StreamGroup(conns + [dc], sid) == StreamGroup(conns, sid) + (if dc.streamId == sid then [dc] else [])
  {
    assert (conns + [dc])[..|conns|] == conns;
    assert forall c :: c in conns + [dc] <==> c in conns || c == dc;
  }

  /** The map the factory builds: stream id to that stream's connections. */
  method GroupByStreamId(conns: seq<DownstreamConnection>) returns (streamToOpConn: map<int, seq<DownstreamConnection>>)
    ensures streamToOpConn.Keys == StreamIds(conns)
    ensures forall sid :: sid in streamToOpConn ==> streamToOpConn[sid] == StreamGroup(conns, sid)
  {
    streamToOpConn := map[];
    for i := 0 to |conns|
      invariant streamToOpConn.Keys == StreamIds(conns[..i])
      invariant forall sid :: sid in streamToOpConn ==> streamToOpConn[sid] == StreamGroup(conns[..i], sid)
    {
      var dc := conns[i];
      var streamId := dc.streamId;
      assert conns[..i + 1] == conns[..i] + [dc];
      GroupingStep(conns[..i], dc);
      if streamId in streamToOpConn {
        streamToOpConn := streamToOpConn[streamId := streamToOpConn[streamId] + [dc]];
      } else {
        assert StreamGroup(conns[..i], streamId) == [] by {
          if StreamGroup(conns[..i], streamId) != [] {
            StreamGroupMembers(conns[..i], streamId, StreamGroup(conns[..i], streamId)[0]);
          }
        }
        streamToOpConn := streamToOpConn[streamId := [dc]];
      }
    }
    assert conns[..|conns|] == conns;
  }

  /** The adapter for one group: decided by the data origin its first connection expects. */
  function AdapterFor(streamId: int, group: seq<DownstreamConnection>, mapping: map<int, EndPoint>): (oa: Option<OutputAdapter>)
    requires |group| > 0
    ensures oa.Some? <==> group[0].expectedType == NETWORK || group[0].expectedType == KAFKA
    ensures oa.Some? ==> oa.value.streamId == streamId && oa.value.connections == group
    ensures oa.Some? && oa.value.NetworkOutputAdapter? <==> group[0].expectedType == NETWORK
    ensures oa.Some? && oa.value.NetworkOutputAdapter? ==> oa.value.mapping == mapping
    ensures oa.Some? && oa.value.KafkaOutputAdapter? ==> oa.value.config == group[0].expectedOrigin.config
  {
    var dOriginType := group[0].expectedType;
    if dOriginType == NETWORK then Some(NetworkOutputAdapter(streamId, group, mapping))
    else if dOriginType == KAFKA then Some(KafkaOutputAdapter(streamId, group[0].expectedOrigin.config, group))
    else None
  }

  /** `order` lists every key of `keys` exactly once. */
  ghost predicate IsKeyOrder(order: seq<int>, keys: set<int>) {
    && (forall i, j :: 0 <= i < j < |order| ==> order[i] != order[j])
    && (forall k :: k in order <==> k in keys)
  }

  /** Appending a new key to a key order gives a key order of the larger set. */
  lemma IsKeyOrderSnoc(order: seq<int>, done: set<int>, k: int)
    requires IsKeyOrder(order, done) && k !in done
    ensures IsKeyOrder(order + [k], done + {k})
  {
    assert forall x :: x in order + [k] <==> x in order || x == k;
  }

  /** The adapters built for the stream ids in `order`, one per id, in that order. */
  function AdaptersFor(order: seq<int>, conns: seq<DownstreamConnection>, mapping: map<int, EndPoint>)
    : (r: seq<Option<OutputAdapter>>)
    requires forall k :: k in order ==> k in StreamIds(conns)
    ensures |r| == |order|
    decreases |order|
  {
    if order == [] then []
    else
      var sid := order[|order| - 1];
      StreamGroupNonEmpty(conns, sid);
      AdaptersFor(order[..|order| - 1], conns, mapping) + [AdapterFor(sid, StreamGroup(conns, sid), mapping)]
  }

  /** Building for one more stream id appends that stream's adapter. */
  lemma AdaptersForSnoc(order: seq<int>, sid: int, conns: seq<DownstreamConnection>, mapping: map<int, EndPoint>)
    requires forall k :: k in order ==> k in StreamIds(conns)
    requires sid in StreamIds(conns)
    ensures |StreamGroup(conns, sid)| > 0
    ensures AdaptersFor(order + [sid], conns, mapping) ==
            AdaptersFor(order, conns, mapping) + [AdapterFor(sid, StreamGroup(conns, sid), mapping)]
  {
    StreamGroupNonEmpty(conns, sid);
    assert (order + [sid])[..|order|] == order;
  }

  /** Entry `j` of the adapters is the adapter of the `j`-th stream id's group. */
  lemma {:induction false} AdaptersForAt(order: seq<int>, conns: seq<DownstreamConnection>, mapping: map<int, EndPoint>, j: nat)
    requires forall k :: k in order ==> k in StreamIds(conns)
    requires j < |order|
    ensures |StreamGroup(conns, order[j])| > 0
    ensures AdaptersFor(order, conns, mapping)[j] == AdapterFor(order[j], StreamGroup(conns, order[j]), mapping)
    decreases |order|
  {
    StreamGroupNonEmpty(conns, order[j]);
    if j < |order| - 1 {
      AdaptersForAt(order[..|order| - 1], conns, mapping, j);
    }
  }

  /**
   * Every downstream connection belongs to exactly one built adapter slot:
   * the one for its own stream id. An adapter that was built carries it, and
   * no adapter for another stream does.
   */
  lemma ConnectionServedOnce(order: seq<int>, conns: seq<DownstreamConnection>, mapping: map<int, EndPoint>,
                             c: DownstreamConnection)
    requires IsKeyOrder(order, StreamIds(conns))
    requires c in conns
    ensures exists j :: 0 <= j < |order| && order[j] == c.streamId
    ensures forall j, k :: 0 <= j < k < |order| ==> !(order[j] == c.streamId && order[k] == c.streamId)
    ensures forall j :: 0 <= j < |order| && AdaptersFor(order, conns, mapping)[j].Some? ==>
              (c in AdaptersFor(order, conns, mapping)[j].value.connections <==> order[j] == c.streamId)
  {
    ExactlyOneGroup(conns, c, c.streamId);
    assert c.streamId in order;
    forall j | 0 <= j < |order| && AdaptersFor(order, conns, mapping)[j].Some?
      ensures c in AdaptersFor(order, conns, mapping)[j].value.connections <==> order[j] == c.streamId
    {
      AdaptersForAt(order, conns, mapping, j);
      ExactlyOneGroup(conns, c, order[j]);
    }
  }

  /**
   * `buildCoreOutputForOperator`: one adapter per distinct downstream stream
   * id. The map's key order is not fixed; the ghost `order` names the order
   * the adapters were built in.
   */
  method BuildCoreOutputForOperator(o: LogicalOperator, mapping: map<int, EndPoint>)
    returns (cOutput: CoreOutput, ghost order: seq<int>)
    ensures cOutput.eventApi.None?
    ensures IsKeyOrder(order, StreamIds(o.downstream))
    ensures |order| == |StreamIds(o.downstream)|
    ensures cOutput.adapters == AdaptersFor(order, o.downstream, mapping)
  {
    var outputAdapters: seq<Option<OutputAdapter>> := [];
    var streamToOpConn := GroupByStreamId(o.downstream);
    var remaining := streamToOpConn.Keys;
    ghost var keys := remaining;
    order := [];
    while remaining != {}
      invariant remaining <= keys
      invariant IsKeyOrder(order, keys - remaining)
      invariant |order| + |remaining| == |keys|
      invariant outputAdapters == AdaptersFor(order, o.downstream, mapping)
      decreases remaining
    {
      var streamId :| streamId in remaining;
      var doCon := streamToOpConn[streamId];
      StreamGroupNonEmpty(o.downstream, streamId);
      var oa := AdapterFor(streamId, doCon, mapping);
      outputAdapters := outputAdapters + [oa];
      IsKeyOrderSnoc(order, keys - remaining, streamId);
      AdaptersForSnoc(order, streamId, o.downstream, mapping);
      assert keys - (remaining - {streamId}) == (keys - remaining) + {streamId};
      order := order + [streamId];
      remaining := remaining - {streamId};
    }
    assert keys - remaining == keys;
    cOutput := CoreOutput(outputAdapters, None);
  }

  /** `buildCoreOutputForStage`: not implemented; always null. */
  function BuildCoreOutputForStage(output: map<int, set<DataReference>>): (r: Option<CoreOutput>)
    ensures r.None?
  {
    None
  }
}
