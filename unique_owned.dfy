/**
 * `unique_owned.rs`: the later version of the uniquely owned record, whose
 * `finalize` also tells the siblings. Its `get_record` and `Drop` are the
 * same as in `db.rs` and are modelled by `OwnedStore.RecordNamespace`.
 */
module UniqueOwned {
  import opened Wrappers
  import opened Bytes
  import opened PersyStore
  import opened OwnedStore
  import Siblings

  /** The bytes of `"OwnedWrite"`. */
  const OwnedWriteTag: seq<byte> := [79, 119, 110, 101, 100, 87, 114, 105, 116, 101]

  lemma OwnedWriteTagIsAscii()
    ensures OwnedWriteTag == AsciiBytes("OwnedWrite")
  {
  }

  /** The propagated message: the tag, a zero byte, then the record's bytes. */
  function OwnedWritePayload(data: seq<byte>): seq<byte> {
    OwnedWriteTag + [0] + data
  }

  /** The payload splits back into tag, separator and data, so distinct data give distinct payloads. */
  lemma PayloadParts(data: seq<byte>, other: seq<byte>)
    ensures |OwnedWritePayload(data)| == |data| + 11
    ensures OwnedWritePayload(data)[..10] == AsciiBytes("OwnedWrite")
    ensures OwnedWritePayload(data)[10] == 0
    ensures OwnedWritePayload(data)[11..] == data
    ensures OwnedWritePayload(data) == OwnedWritePayload(other) ==> data == other
  {
    OwnedWriteTagIsAscii();
    assert OwnedWritePayload(data)[11..] == data;
    assert OwnedWritePayload(other)[11..] == other;
  }

  /**
   * `finalize`: write the bytes; on failure return the error and send
   * nothing; on success send the tagged payload to every sibling. Either
   * way the consumed record is dropped at the end.
   */
  method Finalize<T>(record: UniquelyOwnedRecord<T>, toBytes: T -> seq<byte>, fault: TxFault)
    returns (r: Result<Unit, WriteError>, posts: seq<Siblings.Post>, woken: Outcome<Option<nat>>)
    modifies record.namespace, record.namespace.db.persy
    ensures record.namespace.db.persy.indexes == old(record.namespace.db.persy.indexes)
    ensures record.namespace.db.persy.segments == old(record.namespace.db.persy.segments)
    ensures r.Ok? <==> fault == NoFault && record.namespace.namespace in old(record.namespace.db.persy.indexes)
    ensures record.namespace.db.persy.records ==
      if r.Ok? then old(record.namespace.db.persy.records)[(record.namespace.namespace, record.name) := toBytes(record.record)]
      else old(record.namespace.db.persy.records)
    ensures posts == if r.Ok? then Siblings.Broadcast(record.namespace.db.siblings, OwnedWritePayload(toBytes(record.record))) else []
    ensures var names := old(record.namespace.ownedNames);
      record.name in names ==>
        && woken == Returned(Release(names[record.name]).1)
        && record.namespace.ownedNames == names[record.name := Release(names[record.name]).0]
    ensures record.name !in old(record.namespace.ownedNames) ==> woken.Panicked?
  {
    var ns := record.namespace;
    var data := toBytes(record.record);
    r := ns.db.persy.WriteRecord(ns.namespace, record.name, data, fault);
    if r.Err? {
      posts := [];
      woken := ns.Drop(record.name);
      return;
    }
    var writeData := OwnedWriteTag;
    writeData := writeData + [0];
    writeData := writeData + data;
    posts := Siblings.SendToAll(ns.db.siblings, writeData);
    woken := ns.Drop(record.name);
  }
}
