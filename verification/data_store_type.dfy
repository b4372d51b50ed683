/**
 * The closed set of data-store kinds a DataReference can point at, each
 * constructed with a fixed short code.
 */
module DataStoreTypes {
  import opened Wrappers

  datatype DataStoreType =
    | NETWORK
    | FILE
    | IPC
    | IN_MEMORY
    | KAFKA
    | HDFS
    | MEMORYMAPPED_BYTEBUFFER

  /** Every constant, in declaration order. */
  const AllDataStoreTypes: seq<DataStoreType> :=
    [NETWORK, FILE, IPC, IN_MEMORY, KAFKA, HDFS, MEMORYMAPPED_BYTEBUFFER]

  /** The short code a constant was constructed with (`ofType`). */
  function OfType(t: DataStoreType): (code: int)
    ensures 0 <= code < |AllDataStoreTypes|
    ensures AllDataStoreTypes[code] == t
  {
    match t
    case NETWORK => 0
    case FILE => 1
    case IPC => 2
    case IN_MEMORY => 3
    case KAFKA => 4
    case HDFS => 5
    case MEMORYMAPPED_BYTEBUFFER => 6
  }

  /** The constant carrying a given code, if any. */
  function FromCode(code: int): (r: Option<DataStoreType>)
    ensures r.Some? <==> 0 <= code <= 6
    ensures r.Some? ==> r.value == AllDataStoreTypes[code]
  {
    if 0 <= code < |AllDataStoreTypes| then Some(AllDataStoreTypes[code]) else None
  }

  /** There are exactly seven constants and no two are equal. */
  lemma AllDataStoreTypesDistinct()
    ensures |AllDataStoreTypes| == 7
    ensures forall i, j :: 0 <= i < j < |AllDataStoreTypes| ==> AllDataStoreTypes[i] != AllDataStoreTypes[j]
    ensures forall t: DataStoreType :: t in AllDataStoreTypes
  {
    forall t: DataStoreType ensures t in AllDataStoreTypes {
      assert AllDataStoreTypes[OfType(t)] == t;
    }
  }

  /** `ofType` is injective: distinct constants carry distinct codes. */
  lemma OfTypeInjective(a: DataStoreType, b: DataStoreType)
    ensures OfType(a) == OfType(b) <==> a == b
  {
  }

  /** Decoding a constant's code gives the constant back, and every code in 0..6 is some constant's. */
  lemma CodeRoundTrip(t: DataStoreType, code: int)
    ensures FromCode(OfType(t)) == Some(t)
    ensures 0 <= code <= 6 ==> OfType(FromCode(code).value) == code
  {
    AllDataStoreTypesDistinct();
  }
}
