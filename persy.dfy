/**
 * The persy embedded store, as far as the record layers use it: named
 * indexes mapping a record name to its bytes, and named segments holding
 * lists of byte records. A transaction's begin or commit can fail for
 * reasons outside this model; the caller names that failure as a `TxFault`.
 */
module PersyStore {
  import opened Wrappers
  import opened Bytes

  /** Failures of a persy lookup or scan. */
  datatype PersyError = IndexNotFound | SegmentNotFound

  /** What goes wrong in a transaction for reasons outside the store's contents. */
  datatype TxFault = NoFault | BeginFails | CommitFails

  /** The write errors of the record layers. */
  datatype WriteError = BeginTransactionError | SerializeError | InsertError | PrepareError | UnrecognizedNamespace

  /** The read errors of the record layers. */
  datatype ReadError = IndexOpsError | UnrecognizedNamespace | DeserializeError

  class Persy {
    /** Index name, then key, to value. */
    var records: map<(string, string), seq<byte>>
    var indexes: set<string>
    var segments: map<string, seq<seq<byte>>>

    constructor (records: map<(string, string), seq<byte>>, indexes: set<string>, segments: map<string, seq<seq<byte>>>)
      ensures this.records == records && this.indexes == indexes && this.segments == segments
    {
      this.records := records;
      this.indexes := indexes;
      this.segments := segments;
    }

    /** `persy.one(index, key)`. */
    function One(index: string, key: string): (r: Result<Option<seq<byte>>, PersyError>)
      reads this
      ensures r.Err? <==> index !in indexes
      ensures r.Ok? ==> (r.value.Some? <==> (index, key) in records)
      ensures r.Ok? && r.value.Some? ==> r.value.value == records[(index, key)]
    {
      if index !in indexes then Err(IndexNotFound)
      else if (index, key) in records then Ok(Some(records[(index, key)]))
      else Ok(None)
    }

    /** `persy.scan(segment)`: the segment's records. */
    function Scan(segment: string): (r: Result<seq<seq<byte>>, PersyError>)
      reads this
      ensures r.Err? <==> segment !in segments
      ensures r.Ok? ==> r.value == segments[segment]
    {
      if segment in segments then Ok(segments[segment]) else Err(SegmentNotFound)
    }

    /**
     * `write_record`: begin a transaction, `put` the bytes under
     * (namespace, name), commit. A failure at any step writes nothing.
     */
    method WriteRecord(namespace: string, name: string, data: seq<byte>, fault: TxFault) returns (r: Result<Unit, WriteError>)
      modifies this
      ensures indexes == old(indexes) && segments == old(segments)
      ensures fault == BeginFails ==> r == Err(BeginTransactionError)
      ensures fault != BeginFails && namespace !in indexes ==> r == Err(InsertError)
      ensures fault == CommitFails && namespace in indexes ==> r == Err(PrepareError)
      ensures r.Ok? <==> fault == NoFault && namespace in indexes
      ensures records == if r.Ok? then old(records)[(namespace, name) := data] else old(records)
    {
      if fault == BeginFails {
        return Err(BeginTransactionError);
      }
      if namespace !in indexes {
        return Err(InsertError);
      }
      if fault == CommitFails {
        return Err(PrepareError);
      }
      records := records[(namespace, name) := data];
      r := Ok(Unit);
    }

    /**
     * `read_record`: a lookup error is returned, a missing value panics
     * (`expect("there to be a value")`), and the bytes are decoded.
     */
    function ReadRecord<T>(namespace: string, name: string, decode: seq<byte> -> Option<T>): (o: Outcome<Result<T, ReadError>>)
      reads this
      ensures namespace !in indexes ==> o == Returned(Err(ReadError.IndexOpsError))
      ensures namespace in indexes && (namespace, name) !in records ==> o.Panicked?
      ensures namespace in indexes && (namespace, name) in records ==>
        o == Returned(match decode(records[(namespace, name)]) case Some(v) => Ok(v) case None => Err(DeserializeError))
    {
      match One(namespace, name)
      case Err(_) => Returned(Err(ReadError.IndexOpsError))
      case Ok(None) => Panicked("there to be a value")
      case Ok(Some(bytes)) =>
        match decode(bytes)
        case Some(v) => Returned(Ok(v))
        case None => Returned(Err(DeserializeError))
    }
  }
}
