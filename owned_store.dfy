/**
 * The `mangledb` crate's uniquely owned records. Namespaces are registered
 * through handles that share one array of names; each registered namespace
 * keeps, per owned record name, a lock flag and a FIFO waitlist of blocked
 * readers. Releasing a record hands the lock to the first waiter, or unlocks
 * it when nobody waits.
 *
 * A waiter is named by the id of its `AliveFlag`; dropping the flag (when it
 * is popped from the queue) wakes the waiter. Blocking itself is not
 * modelled: `GetRecord` returns `Blocked` and the woken caller continues with
 * `ReadAfterWake`.
 */
module OwnedStore {
  import opened Wrappers
  import opened Bytes
  import opened PersyStore

  /** `MangleDB` of the crate: the store and the sibling addresses. */
  class Db {
    const persy: Persy
    const siblings: seq<string>

    constructor (persy: Persy, siblings: seq<string>)
      ensures this.persy == persy && this.siblings == siblings
    {
      this.persy := persy;
      this.siblings := siblings;
    }
  }

  /** `OwnedNameEntry`: whether a holder has the record, and who waits for it, oldest first. */
  datatype OwnedNameEntry = OwnedNameEntry(isLocked: bool, waitlist: seq<nat>)

  /** `waitlist.push_back(flag)`. */
  function Enqueue(e: OwnedNameEntry, flag: nat): OwnedNameEntry {
    e.(waitlist := e.waitlist + [flag])
  }

  /** The drop of a holder: the entry afterwards, and the waiter woken, if any. */
  function Release(e: OwnedNameEntry): (OwnedNameEntry, Option<nat>) {
    if |e.waitlist| == 0 then (e.(isLocked := false), None)
    else (e.(waitlist := e.waitlist[1..]), Some(e.waitlist[0]))
  }

  /** A release pops the front: with a waiter the lock passes on, without one it is freed. */
  lemma ReleaseCases(e: OwnedNameEntry)
    ensures |e.waitlist| == 0 ==> Release(e).1 == None && !Release(e).0.isLocked && Release(e).0.waitlist == []
    ensures |e.waitlist| > 0 ==>
      && Release(e).1 == Some(e.waitlist[0])
      && Release(e).0.isLocked == e.isLocked
      && [e.waitlist[0]] + Release(e).0.waitlist == e.waitlist
  {
  }

  /** `k` releases in a row: the entry afterwards and the waiters woken, in order. */
  function Drain(e: OwnedNameEntry, k: nat): (OwnedNameEntry, seq<nat>)
    decreases k
  {
    if k == 0 then (e, [])
    else
      var (next, woken) := Release(e);
      var (last, rest) := Drain(next, k - 1);
      (last, (if woken.Some? then [woken.value] else []) + rest)
  }

  /** Waiters are woken in the order they queued, and the lock stays held while anyone waits. */
  lemma {:induction false} DrainWakesInOrder(e: OwnedNameEntry, k: nat)
    requires k <= |e.waitlist|
    ensures Drain(e, k).1 == e.waitlist[..k]
    ensures Drain(e, k).0 == e.(waitlist := e.waitlist[k..])
    decreases k
  {
    if k > 0 {
      var next := Release(e).0;
      assert next == e.(waitlist := e.waitlist[1..]);
      DrainWakesInOrder(next, k - 1);
      assert e.waitlist[1..][k - 1..] == e.waitlist[k..];
      assert [e.waitlist[0]] + e.waitlist[1..][..k - 1] == e.waitlist[..k];
    }
  }

  /** FIFO: flags queued one after another on a held record are woken in that order, then it unlocks. */
  lemma FifoHandOff(queued: seq<nat>)
    ensures var e := OwnedNameEntry(true, queued);
      && Drain(e, |queued|).1 == queued
      && Drain(e, |queued|).0 == OwnedNameEntry(true, [])
      && Release(Drain(e, |queued|).0) == (OwnedNameEntry(false, []), None)
  {
    var e := OwnedNameEntry(true, queued);
    DrainWakesInOrder(e, |queued|);
    assert queued[..|queued|] == queued;
  }

  /** A record handed out by `get_record` (`UniquelyOwnedRecord`). */
  datatype UniquelyOwnedRecord<T> = UniquelyOwnedRecord(namespace: RecordNamespace, name: string, record: T)

  /** What `get_record` does first: queue behind the holder, or run to completion. */
  datatype GetStep<T> = Blocked(flag: nat) | Done(outcome: Outcome<Result<UniquelyOwnedRecord<T>, ReadError>>)

  /** `UniquelyOwnedRecordNamespace`; its clones share the owned-name table, so it is one object. */
  class RecordNamespace {
    const namespace: string
    const db: Db
    var ownedNames: map<string, OwnedNameEntry>

    constructor (namespace: string, db: Db)
      ensures this.namespace == namespace && this.db == db && ownedNames == map[]
    {
      this.namespace := namespace;
      this.db := db;
      ownedNames := map[];
    }

    /** The read at the end of `get_record`: the record under this namespace and `name`. */
    function ReadAfterWake<T>(name: string, decode: seq<byte> -> Option<T>): (o: Outcome<Result<UniquelyOwnedRecord<T>, ReadError>>)
      reads this, db, db.persy
      ensures o.Returned? && o.value.Ok? ==>
        && o.value.value.name == name && o.value.value.namespace == this
        && db.persy.ReadRecord(namespace, name, decode) == Returned(Ok(o.value.value.record))
      ensures o.Returned? && o.value.Err? ==> db.persy.ReadRecord(namespace, name, decode) == Returned(Err(o.value.error))
      ensures o.Panicked? <==> db.persy.ReadRecord(namespace, name, decode).Panicked?
    {
      match db.persy.ReadRecord(namespace, name, decode)
      case Panicked(m) => Panicked(m)
      case Returned(Err(e)) => Returned(Err(e))
      case Returned(Ok(v)) => Returned(Ok(UniquelyOwnedRecord(this, name, v)))
    }

    /**
     * `get_record`: an unknown name reaches `todo!("get ownership")`; a
     * locked one queues `flag` at the back; an unlocked one is read at once,
     * and is left unlocked.
     */
    method GetRecord<T>(name: string, flag: nat, decode: seq<byte> -> Option<T>) returns (step: GetStep<T>)
      modifies this
      ensures name !in old(ownedNames) ==>
        step == Done(Panicked("not yet implemented: get ownership")) && ownedNames == old(ownedNames)
      ensures name in old(ownedNames) && old(ownedNames)[name].isLocked ==>
        step == Blocked(flag) && ownedNames == old(ownedNames)[name := Enqueue(old(ownedNames)[name], flag)]
      ensures name in old(ownedNames) && !old(ownedNames)[name].isLocked ==>
        step == Done(ReadAfterWake(name, decode)) && ownedNames == old(ownedNames)
    {
      if name !in ownedNames {
        return Done(Panicked("not yet implemented: get ownership"));
      }
      var entry := ownedNames[name];
      if entry.isLocked {
        ownedNames := ownedNames[name := Enqueue(entry, flag)];
        return Blocked(flag);
      }
      step := Done(ReadAfterWake(name, decode));
    }

    /** `UniquelyOwnedRecord::drop`: the entry must exist (`expect("queue to exist")`). */
    method Drop(name: string) returns (woken: Outcome<Option<nat>>)
      modifies this
      ensures name !in old(ownedNames) ==> woken.Panicked? && ownedNames == old(ownedNames)
      ensures name in old(ownedNames) ==>
        && woken == Returned(Release(old(ownedNames)[name]).1)
        && ownedNames == old(ownedNames)[name := Release(old(ownedNames)[name]).0]
    {
      if name !in ownedNames {
        return Panicked("queue to exist");
      }
      var entry := ownedNames[name];
      var waitlist := entry.waitlist;
      if |waitlist| == 0 {
        entry := entry.(isLocked := false);
        woken := Returned(None);
      } else {
        woken := Returned(Some(waitlist[0]));
        entry := entry.(waitlist := waitlist[1..]);
      }
      ownedNames := ownedNames[name := entry];
    }

    /**
     * `finalize` of `db.rs`: the record's bytes are written under
     * (namespace, name), then the consumed record is dropped.
     */
    method Finalize<T>(record: UniquelyOwnedRecord<T>, toBytes: T -> seq<byte>, fault: TxFault)
      returns (r: Result<Unit, WriteError>, woken: Outcome<Option<nat>>)
      requires record.namespace == this
      modifies this, db.persy
      ensures db.persy.indexes == old(db.persy.indexes) && db.persy.segments == old(db.persy.segments)
      ensures r.Ok? <==> fault == NoFault && namespace in old(db.persy.indexes)
      ensures db.persy.records ==
        if r.Ok? then old(db.persy.records)[(namespace, record.name) := toBytes(record.record)] else old(db.persy.records)
      ensures record.name in old(ownedNames) ==>
        && woken == Returned(Release(old(ownedNames)[record.name]).1)
        && ownedNames == old(ownedNames)[record.name := Release(old(ownedNames)[record.name]).0]
      ensures record.name !in old(ownedNames) ==> woken.Panicked?
    {
      r := db.persy.WriteRecord(namespace, record.name, toBytes(record.record), fault);
      woken := Drop(record.name);
    }
  }

  /** `UninitializedNamespace`: slot `index` of the shared name array. */
  datatype UninitializedNamespace = UninitializedNamespace(names: array<string>, index: nat, db: Db)

  /** `create_namespaces::<N>`: N handles over one fresh array of N empty names. */
  method CreateNamespaces(db: Db, n: nat) returns (handles: seq<UninitializedNamespace>)
    ensures |handles| == n
    ensures n > 0 ==> fresh(handles[0].names)
    ensures forall i :: 0 <= i < n ==>
      && handles[i].index == i && handles[i].db == db && handles[i].names == handles[0].names
      && handles[i].names.Length == n
    ensures n > 0 ==> forall k :: 0 <= k < n ==> handles[0].names[k] == ""
  {
    var names := new string[n](_ => "");
    handles := [];
    for i := 0 to n
      invariant |handles| == i
      invariant forall j :: 0 <= j < i ==> handles[j] == UninitializedNamespace(names, j, db)
    {
      handles := handles + [UninitializedNamespace(names, i, db)];
    }
  }

  /** The segment listing a namespace's keys. */
  function KeysSegment(namespace: string): (s: string)
    ensures |s| == |namespace| + 6 && s[0] == '_' && s[1..|namespace| + 1] == namespace && s[|namespace| + 1..] == "_keys"
  {
    "_" + namespace + "_keys"
  }

  predicate StartsWithUnderscore(s: string) {
    |s| > 0 && s[0] == '_'
  }

  /**
   * `into_owned_namespace`: a name starting with '_' or already in any slot
   * panics; otherwise the name takes this handle's slot and the namespace's
   * index and keys segment are created when missing (`indexFault` and
   * `segmentFault` stand for the two transactions' I/O).
   */
  method IntoOwnedNamespace(handle: UninitializedNamespace, namespace: string, indexFault: TxFault, segmentFault: TxFault)
    returns (o: Outcome<Result<RecordNamespace, TxFault>>)
    requires handle.index < handle.names.Length
    modifies handle.names, handle.db.persy
    ensures StartsWithUnderscore(namespace) ==> o.Panicked? && handle.names[..] == old(handle.names[..])
    ensures !StartsWithUnderscore(namespace) && namespace in old(handle.names[..]) ==>
      o.Panicked? && handle.names[..] == old(handle.names[..])
    ensures !StartsWithUnderscore(namespace) && namespace !in old(handle.names[..]) ==>
      && o.Returned?
      && handle.names[..] == old(handle.names[..])[handle.index := namespace]
    ensures namespace == "" && old(handle.names[handle.index]) == "" ==> o.Panicked?
    ensures o.Returned? && o.value.Ok? ==>
      && fresh(o.value.value)
      && o.value.value.namespace == namespace && o.value.value.ownedNames == map[]
      && o.value.value.db == handle.db
      && namespace in handle.db.persy.indexes
      && KeysSegment(namespace) in handle.db.persy.segments
    ensures handle.db.persy.records == old(handle.db.persy.records)
    ensures o.Panicked? ==>
      handle.db.persy.indexes == old(handle.db.persy.indexes) && handle.db.persy.segments == old(handle.db.persy.segments)
    ensures o.Returned? ==>
      var indexReady := namespace in old(handle.db.persy.indexes) || indexFault == NoFault;
      var keysReady := KeysSegment(namespace) in old(handle.db.persy.segments) || segmentFault == NoFault;
      && (o.value.Ok? <==> indexReady && keysReady)
      && (o.value.Err? ==> o.value.error == if indexReady then segmentFault else indexFault)
      && handle.db.persy.indexes == (if indexReady then old(handle.db.persy.indexes) + {namespace} else old(handle.db.persy.indexes))
      && handle.db.persy.segments ==
           (if indexReady && KeysSegment(namespace) !in old(handle.db.persy.segments) && segmentFault == NoFault
            then old(handle.db.persy.segments)[KeysSegment(namespace) := []]
            else old(handle.db.persy.segments))
  {
    if StartsWithUnderscore(namespace) {
      return Panicked("Namespaces must not start with underscores");
    }
    if namespace in handle.names[..] {
      return Panicked("Namespace: " + namespace + " already taken");
    }
    handle.names[handle.index] := namespace;
    var persy := handle.db.persy;
    if namespace !in persy.indexes {
      if indexFault != NoFault {
        return Returned(Err(indexFault));
      }
      persy.indexes := persy.indexes + {namespace};
    }
    var keys := KeysSegment(namespace);
    if keys !in persy.segments {
      if segmentFault != NoFault {
        return Returned(Err(segmentFault));
      }
      persy.segments := persy.segments[keys := []];
    }
    var ns := new RecordNamespace(namespace, handle.db);
    o := Returned(Ok(ns));
  }
}
