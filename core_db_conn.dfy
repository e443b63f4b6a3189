/**
 * `SiblingConnections::propagate_owned_write` of the core's store client: an
 * owned write is serialised once and posted to every sibling.
 */
module CoreDbConn {
  import opened Bytes
  import Siblings

  /** The body of a propagated owned write. */
  datatype OwnedWriteRequest = OwnedWriteRequest(namespace: string, name: string, data: seq<byte>)

  /**
   * `propagate_owned_write`: `serialize` is bincode's encoding, which cannot
   * fail for this struct of strings and bytes (its `expect` never fires).
   */
  method PropagateOwnedWrite(siblings: seq<string>, serialize: OwnedWriteRequest -> seq<byte>,
                             namespace: string, name: string, data: seq<byte>)
    returns (posts: seq<Siblings.Post>)
    ensures |posts| == |siblings|
    ensures forall i :: 0 <= i < |posts| ==>
      posts[i] == Siblings.Post(siblings[i], serialize(OwnedWriteRequest(namespace, name, data)))
  {
    var body := serialize(OwnedWriteRequest(namespace, name, data));
    posts := Siblings.SendToAll(siblings, body);
  }
}

/**
 * `remote_owner_write`: the handler by which a sibling that owns a record
 * pushes its new bytes to this node.
 */
module CoreDbRemote {
  import opened Wrappers
  import opened Bytes
  import opened PersyStore
  import opened CoreDbConn
  import CoreDb

  const Ok200: nat := 200
  const BadRequest400: nat := 400
  const InternalServerError500: nat := 500

  /**
   * A body that does not decode gives 500; a write to a record this node
   * owns is refused with 400; otherwise the bytes are stored, 200 on
   * success and 500 on any write error.
   */
  method RemoteOwnerWrite(db: CoreDb.MangleDb, body: seq<byte>, deserialize: seq<byte> -> Option<OwnedWriteRequest>, fault: TxFault)
    returns (status: nat)
    modifies db.persy
    ensures db.persy.indexes == old(db.persy.indexes) && db.persy.segments == old(db.persy.segments)
    ensures deserialize(body).None? ==> status == InternalServerError500 && db.persy.records == old(db.persy.records)
    ensures deserialize(body).Some? && db.IsRecordOwned(deserialize(body).value.namespace, deserialize(body).value.name) ==>
      status == BadRequest400 && db.persy.records == old(db.persy.records)
    ensures status == Ok200 <==>
      && deserialize(body).Some?
      && !db.IsRecordOwned(deserialize(body).value.namespace, deserialize(body).value.name)
      && fault == NoFault && deserialize(body).value.namespace in old(db.persy.indexes)
    ensures status in {Ok200, BadRequest400, InternalServerError500}
    ensures db.persy.records ==
      if status == Ok200
      then old(db.persy.records)[(deserialize(body).value.namespace, deserialize(body).value.name) := deserialize(body).value.data]
      else old(db.persy.records)
  {
    var decoded := deserialize(body);
    if decoded.None? {
      return InternalServerError500;
    }
    var req := decoded.value;
    if db.IsRecordOwned(req.namespace, req.name) {
      return BadRequest400;
    }
    var written := db.persy.WriteRecord(req.namespace, req.name, req.data, fault);
    status := if written.Ok? then Ok200 else InternalServerError500;
  }
}
