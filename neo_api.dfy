/**
 * `APIConnectionManager`: the set of connection ids currently held, so that a
 * second connection with the same id is turned away until the first one's
 * `ConnectionLock` is dropped.
 */
module NeoApi {
  import opened Wrappers

  /** A lock on `id`; copies (it derives `Clone`) all release the same id. */
  datatype ConnectionLock<T> = ConnectionLock(id: T)

  /** The set after asking for `id`, and the answer. */
  function Acquire<T>(connections: set<T>, id: T): (set<T>, Result<ConnectionLock<T>, T>) {
    if id in connections then (connections, Err(id))
    else (connections + {id}, Ok(ConnectionLock(id)))
  }

  /** The set after a lock on `id` is dropped. */
  function Release<T>(connections: set<T>, id: T): set<T> {
    connections - {id}
  }

  /** Asking succeeds iff the id is free, and then locks exactly that id. */
  lemma AcquireCases<T>(connections: set<T>, id: T)
    ensures Acquire(connections, id).1.Ok? <==> id !in connections
    ensures Acquire(connections, id).1.Ok? ==>
      Acquire(connections, id).1.value.id == id && Acquire(connections, id).0 == connections + {id}
    ensures Acquire(connections, id).1.Err? ==>
      Acquire(connections, id).1.error == id && Acquire(connections, id).0 == connections
    ensures id in Acquire(connections, id).0
  {
  }

  /** While a lock is held a second request for the same id fails. */
  lemma SecondAcquireFails<T>(connections: set<T>, id: T)
    ensures Acquire(Acquire(connections, id).0, id).1 == Err(id)
  {
  }

  /** Releasing a fresh lock restores the set, and frees the id for the next request. */
  lemma AcquireReleaseRoundTrip<T>(connections: set<T>, id: T)
    requires id !in connections
    ensures Release(Acquire(connections, id).0, id) == connections
    ensures Acquire(Release(Acquire(connections, id).0, id), id).1 == Ok(ConnectionLock(id))
  {
  }

  /** Dropping one lock leaves every other id's lock in place. */
  lemma ReleaseIsLocal<T>(connections: set<T>, id: T, other: T)
    requires other != id
    ensures other in Release(connections, id) <==> other in connections
    ensures id !in Release(connections, id)
  {
  }

  class ConnectionManager<T(==)> {
    var connections: set<T>
    const pingDelayMillis: nat

    constructor (pingDelayMillis: nat)
      ensures connections == {} && this.pingDelayMillis == pingDelayMillis
    {
      connections := {};
      this.pingDelayMillis := pingDelayMillis;
    }

    /** `is_connection_locked`. */
    predicate IsConnectionLocked(id: T)
      reads this
    {
      id in connections
    }

    /** `get_connection_lock`. */
    method GetConnectionLock(id: T) returns (r: Result<ConnectionLock<T>, T>)
      modifies this
      ensures (connections, r) == Acquire(old(connections), id)
      ensures r.Ok? <==> !old(IsConnectionLocked(id))
      ensures IsConnectionLocked(id)
    {
      if id in connections {
        r := Err(id);
      } else {
        connections := connections + {id};
        r := Ok(ConnectionLock(id));
      }
    }

    /** `ConnectionLock::drop`. */
    method DropLock(lock: ConnectionLock<T>)
      modifies this
      ensures connections == Release(old(connections), lock.id)
      ensures !IsConnectionLocked(lock.id)
    {
      connections := connections - {lock.id};
    }
  }
}
