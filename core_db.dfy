/**
 * `MangleDB` of the core: a persy store plus, per namespace, the set of
 * record names this node owns and the mirrored records currently checked
 * out. Owned writes are stored locally and propagated to the siblings.
 *
 * The mirrored-name trackers are named by ids; a caller passes the id of the
 * fresh aliveness pair. Waiting for a tracker's death is not modelled as
 * blocking: the methods report whether they had to wait.
 */
module CoreDb {
  import opened Wrappers
  import opened Bytes
  import opened PersyStore
  import Siblings
  import CoreDbConn

  /** `NamespaceEntry`: the owned names and the mirrored names with their trackers. */
  datatype NamespaceEntry = NamespaceEntry(namespace: string, ownedNames: set<string>, mirroredNames: map<string, nat>)

  /** Why `open` fails once the store is open. */
  datatype OpenError = ScanFailed(error: PersyError) | NotUtf8

  datatype OwnError = UnrecognizedNamespace | UnrecognizedName | IndexOpsError

  /** A checked-out mirrored record (`MirroredStruct`). */
  datatype Mirrored<T> = Mirrored(namespace: string, name: string, data: T, aliveFlag: nat)

  /** The position of the first entry for `namespace` (`iter().find`). */
  function FindNamespace(entries: seq<NamespaceEntry>, namespace: string): (r: Option<nat>)
    ensures r.None? <==> forall i :: 0 <= i < |entries| ==> entries[i].namespace != namespace
    ensures r.Some? ==>
      && r.value < |entries| && entries[r.value].namespace == namespace
      && forall j :: 0 <= j < r.value ==> entries[j].namespace != namespace
  {
    if |entries| == 0 then None
    else if entries[0].namespace == namespace then Some(0)
    else match FindNamespace(entries[1..], namespace)
      case None => None
      case Some(k) => Some(k + 1)
  }

  /** The segment listing a namespace's owned names. */
  function OwnedSegment(namespace: string): string {
    "_" + namespace + "_owned"
  }

  /** The names decoded from a segment's records, or the first decoding failure. */
  function DecodeNames(contents: seq<seq<byte>>, fromUtf8: seq<byte> -> Option<string>): Result<set<string>, OpenError> {
    if |contents| == 0 then Ok({})
    else match DecodeNames(contents[..|contents| - 1], fromUtf8)
      case Err(e) => Err(e)
      case Ok(names) =>
        match fromUtf8(contents[|contents| - 1])
        case None => Err(NotUtf8)
        case Some(n) => Ok(names + {n})
  }

  /** The entry `open` builds for one namespace. */
  function EntryFor(persy: Persy, namespace: string, fromUtf8: seq<byte> -> Option<string>): Result<NamespaceEntry, OpenError>
    reads persy
  {
    match persy.Scan(OwnedSegment(namespace))
    case Err(e) => Err(ScanFailed(e))
    case Ok(contents) =>
      match DecodeNames(contents, fromUtf8)
      case Err(e) => Err(e)
      case Ok(names) => Ok(NamespaceEntry(namespace, names, map[]))
  }

  /** The entries `open` builds, in order, or the first failure. */
  function BuildEntries(persy: Persy, namespaces: seq<string>, fromUtf8: seq<byte> -> Option<string>): Result<seq<NamespaceEntry>, OpenError>
    reads persy
  {
    if |namespaces| == 0 then Ok([])
    else match BuildEntries(persy, namespaces[..|namespaces| - 1], fromUtf8)
      case Err(e) => Err(e)
      case Ok(entries) =>
        match EntryFor(persy, namespaces[|namespaces| - 1], fromUtf8)
        case Err(e) => Err(e)
        case Ok(entry) => Ok(entries + [entry])
  }

  /** Once a prefix of the records fails to decode, so does the whole list, with the same error. */
  lemma {:induction false} DecodeErrorPersists(contents: seq<seq<byte>>, k: nat, fromUtf8: seq<byte> -> Option<string>)
    requires k <= |contents|
    requires DecodeNames(contents[..k], fromUtf8).Err?
    ensures DecodeNames(contents, fromUtf8) == DecodeNames(contents[..k], fromUtf8)
  {
    if k < |contents| {
      var init := contents[..|contents| - 1];
      assert init[..k] == contents[..k];
      DecodeErrorPersists(init, k, fromUtf8);
    } else {
      assert contents[..k] == contents;
    }
  }

  lemma {:induction false} BuildErrorPersists(persy: Persy, namespaces: seq<string>, k: nat, fromUtf8: seq<byte> -> Option<string>)
    requires k <= |namespaces|
    requires BuildEntries(persy, namespaces[..k], fromUtf8).Err?
    ensures BuildEntries(persy, namespaces, fromUtf8) == BuildEntries(persy, namespaces[..k], fromUtf8)
  {
    if k < |namespaces| {
      var init := namespaces[..|namespaces| - 1];
      assert init[..k] == namespaces[..k];
      BuildErrorPersists(persy, init, k, fromUtf8);
    } else {
      assert namespaces[..k] == namespaces;
    }
  }

  /** Decoding succeeds iff every record is UTF-8, and then yields exactly the decoded names. */
  lemma {:induction false} DecodeNamesMeaning(contents: seq<seq<byte>>, fromUtf8: seq<byte> -> Option<string>, n: string)
    ensures DecodeNames(contents, fromUtf8).Ok? <==> forall i :: 0 <= i < |contents| ==> fromUtf8(contents[i]).Some?
    ensures DecodeNames(contents, fromUtf8).Ok? ==>
      (n in DecodeNames(contents, fromUtf8).value <==> exists i :: 0 <= i < |contents| && fromUtf8(contents[i]) == Some(n))
  {
    if |contents| > 0 {
      var init := contents[..|contents| - 1];
      DecodeNamesMeaning(init, fromUtf8, n);
      assert forall i :: 0 <= i < |init| ==> init[i] == contents[i];
      if DecodeNames(contents, fromUtf8).Ok? && n in DecodeNames(contents, fromUtf8).value {
        if n !in DecodeNames(init, fromUtf8).value {
          assert fromUtf8(contents[|contents| - 1]) == Some(n);
        }
      }
    }
  }

  /** `open` builds one entry per namespace, in order, each with no mirrored names. */
  lemma {:induction false} BuildEntriesShape(persy: Persy, namespaces: seq<string>, fromUtf8: seq<byte> -> Option<string>)
    ensures BuildEntries(persy, namespaces, fromUtf8).Ok? <==>
      forall i :: 0 <= i < |namespaces| ==> EntryFor(persy, namespaces[i], fromUtf8).Ok?
    ensures BuildEntries(persy, namespaces, fromUtf8).Ok? ==>
      var entries := BuildEntries(persy, namespaces, fromUtf8).value;
      && |entries| == |namespaces|
      && forall i :: 0 <= i < |namespaces| ==> entries[i] == EntryFor(persy, namespaces[i], fromUtf8).value
  {
    if |namespaces| > 0 {
      var init := namespaces[..|namespaces| - 1];
      BuildEntriesShape(persy, init, fromUtf8);
      assert forall i :: 0 <= i < |init| ==> init[i] == namespaces[i];
    }
  }

  /** The entry `open` builds for a namespace: the names decoded from its owned segment, nothing mirrored. */
  lemma EntryForMeaning(persy: Persy, namespace: string, fromUtf8: seq<byte> -> Option<string>, n: string)
    requires EntryFor(persy, namespace, fromUtf8).Ok?
    ensures OwnedSegment(namespace) in persy.segments
    ensures var e := EntryFor(persy, namespace, fromUtf8).value;
      && e.namespace == namespace && e.mirroredNames == map[]
      && (n in e.ownedNames <==>
          exists i :: 0 <= i < |persy.segments[OwnedSegment(namespace)]|
                      && fromUtf8(persy.segments[OwnedSegment(namespace)][i]) == Some(n))
  {
    DecodeNamesMeaning(persy.segments[OwnedSegment(namespace)], fromUtf8, n);
  }

  /** The inner loop of `open`: collect the names of one owned segment. */
  method ScanOwnedNames(contents: seq<seq<byte>>, fromUtf8: seq<byte> -> Option<string>) returns (r: Result<set<string>, OpenError>)
    ensures r == DecodeNames(contents, fromUtf8)
  {
    var names: set<string> := {};
    var i := 0;
    while i < |contents|
      invariant 0 <= i <= |contents|
      invariant DecodeNames(contents[..i], fromUtf8) == Ok(names)
    {
      assert contents[..i + 1][..i] == contents[..i];
      match fromUtf8(contents[i])
      case None =>
        DecodeErrorPersists(contents, i + 1, fromUtf8);
        return Err(NotUtf8);
      case Some(n) =>
        names := names + {n};
      i := i + 1;
    }
    assert contents[..i] == contents;
    r := Ok(names);
  }

  /** The outer loop of `open`: one entry per namespace. */
  method ScanNamespaces(persy: Persy, namespaces: seq<string>, fromUtf8: seq<byte> -> Option<string>)
    returns (r: Result<seq<NamespaceEntry>, OpenError>)
    ensures r == BuildEntries(persy, namespaces, fromUtf8)
  {
    var entries: seq<NamespaceEntry> := [];
    var i := 0;
    while i < |namespaces|
      invariant 0 <= i <= |namespaces|
      invariant BuildEntries(persy, namespaces[..i], fromUtf8) == Ok(entries)
    {
      assert namespaces[..i + 1][..i] == namespaces[..i];
      var namespace := namespaces[i];
      var scanned := persy.Scan(OwnedSegment(namespace));
      if scanned.Err? {
        BuildErrorPersists(persy, namespaces, i + 1, fromUtf8);
        return Err(ScanFailed(scanned.error));
      }
      var names := ScanOwnedNames(scanned.value, fromUtf8);
      if names.Err? {
        BuildErrorPersists(persy, namespaces, i + 1, fromUtf8);
        return Err(names.error);
      }
      entries := entries + [NamespaceEntry(namespace, names.value, map[])];
      i := i + 1;
    }
    assert namespaces[..i] == namespaces;
    r := Ok(entries);
  }

  class MangleDb {
    const persy: Persy
    var entries: seq<NamespaceEntry>
    const siblings: seq<string>
    const serialize: CoreDbConn.OwnedWriteRequest -> seq<byte>

    constructor (persy: Persy, entries: seq<NamespaceEntry>, siblings: seq<string>,
                 serialize: CoreDbConn.OwnedWriteRequest -> seq<byte>)
      ensures this.persy == persy && this.entries == entries
      ensures this.siblings == siblings && this.serialize == serialize
    {
      this.persy := persy;
      this.entries := entries;
      this.siblings := siblings;
      this.serialize := serialize;
    }

    /** `is_record_owned`: false for an unknown namespace, else membership in its owned set. */
    predicate IsRecordOwned(namespace: string, name: string)
      reads this
    {
      match FindNamespace(entries, namespace)
      case None => false
      case Some(i) => name in entries[i].ownedNames
    }

    /** With one entry per namespace, ownership is plain membership. */
    lemma IsRecordOwnedMeaning(namespace: string, name: string)
      requires forall i, j :: 0 <= i < j < |entries| ==> entries[i].namespace != entries[j].namespace
      ensures IsRecordOwned(namespace, name) <==>
        exists i :: 0 <= i < |entries| && entries[i].namespace == namespace && name in entries[i].ownedNames
    {
    }

    /**
     * `checked_write_record`: an unknown namespace writes nothing; an owned
     * name is written and the same triple propagated; any other name reaches
     * `todo!("request ownership")`.
     */
    method CheckedWriteRecord(namespace: string, name: string, data: seq<byte>, fault: TxFault)
      returns (o: Outcome<Result<Unit, WriteError>>, waited: bool, posts: seq<Siblings.Post>)
      modifies persy
      ensures persy.indexes == old(persy.indexes) && persy.segments == old(persy.segments)
      ensures FindNamespace(entries, namespace).None? ==>
        o == Returned(Err(WriteError.UnrecognizedNamespace)) && posts == [] && persy.records == old(persy.records)
      ensures FindNamespace(entries, namespace).Some? ==>
        waited == (name in entries[FindNamespace(entries, namespace).value].mirroredNames)
      ensures FindNamespace(entries, namespace).Some? && !IsRecordOwned(namespace, name) ==>
        o.Panicked? && posts == [] && persy.records == old(persy.records)
      ensures IsRecordOwned(namespace, name) ==>
        && o.Returned?
        && (o.value.Ok? <==> fault == NoFault && namespace in persy.indexes)
        && persy.records == (if o.value.Ok? then old(persy.records)[(namespace, name) := data] else old(persy.records))
        && posts == (if o.value.Ok? then Siblings.Broadcast(siblings, serialize(CoreDbConn.OwnedWriteRequest(namespace, name, data))) else [])
    {
      posts := [];
      waited := false;
      var found := FindNamespace(entries, namespace);
      if found.None? {
        return Returned(Err(WriteError.UnrecognizedNamespace)), false, [];
      }
      var entry := entries[found.value];
      waited := name in entry.mirroredNames;
      if name in entry.ownedNames {
        var written := persy.WriteRecord(namespace, name, data, fault);
        if written.Err? {
          return Returned(written), waited, [];
        }
        posts := CoreDbConn.PropagateOwnedWrite(siblings, serialize, namespace, name, data);
        return Returned(Ok(Unit)), waited, posts;
      }
      o := Panicked("not yet implemented: request ownership");
    }

    /**
     * `try_get_mirrored_data`: the name is registered with its tracker
     * before the record is read, so a failed read leaves it registered.
     */
    method TryGetMirroredData<T>(namespace: string, name: string, tracker: nat, aliveFlag: nat, decode: seq<byte> -> Option<T>)
      returns (o: Outcome<Result<Mirrored<T>, ReadError>>, waited: bool)
      modifies this
      ensures |entries| == |old(entries)|
      ensures FindNamespace(old(entries), namespace).None? ==>
        entries == old(entries) && o == Returned(Err(ReadError.UnrecognizedNamespace)) && !waited
      ensures FindNamespace(old(entries), namespace).Some? ==>
        var i := FindNamespace(old(entries), namespace).value;
        && waited == (name in old(entries)[i].mirroredNames)
        && entries == old(entries)[i := old(entries)[i].(mirroredNames := old(entries)[i].mirroredNames[name := tracker])]
        && o == match persy.ReadRecord(namespace, name, decode)
                case Panicked(m) => Panicked(m)
                case Returned(Err(e)) => Returned(Err(e))
                case Returned(Ok(v)) => Returned(Ok(Mirrored(namespace, name, v, aliveFlag)))
    {
      var found := FindNamespace(entries, namespace);
      if found.None? {
        return Returned(Err(ReadError.UnrecognizedNamespace)), false;
      }
      var i := found.value;
      waited := name in entries[i].mirroredNames;
      entries := entries[i := entries[i].(mirroredNames := entries[i].mirroredNames[name := tracker])];
      var read := persy.ReadRecord(namespace, name, decode);
      o := match read
           case Panicked(m) => Panicked(m)
           case Returned(Err(e)) => Returned(Err(e))
           case Returned(Ok(v)) => Returned(Ok(Mirrored(namespace, name, v, aliveFlag)));
    }

    /** `drop_mirrored_data`: unregisters the name; an unknown namespace changes nothing. */
    method DropMirroredData(namespace: string, name: string)
      modifies this
      ensures FindNamespace(old(entries), namespace).None? ==> entries == old(entries)
      ensures FindNamespace(old(entries), namespace).Some? ==>
        var i := FindNamespace(old(entries), namespace).value;
        entries == old(entries)[i := old(entries)[i].(mirroredNames := old(entries)[i].mirroredNames - {name})]
    {
      var found := FindNamespace(entries, namespace);
      if found.Some? {
        var i := found.value;
        entries := entries[i := entries[i].(mirroredNames := entries[i].mirroredNames - {name})];
      }
    }

    /**
     * `own_record`: the record must exist in the store (checked first), then
     * the name joins that namespace's owned set and no other ownership changes.
     */
    method OwnRecord(namespace: string, name: string) returns (r: Result<Unit, OwnError>)
      modifies this
      ensures persy.One(namespace, name).Err? ==> r == Err(OwnError.IndexOpsError) && entries == old(entries)
      ensures persy.One(namespace, name) == Ok(None) ==> r == Err(UnrecognizedName) && entries == old(entries)
      ensures persy.One(namespace, name).Ok? && persy.One(namespace, name).value.Some? ==>
        && (r.Ok? <==> FindNamespace(old(entries), namespace).Some?)
        && (r.Err? ==> r.error == OwnError.UnrecognizedNamespace && entries == old(entries))
      ensures r.Ok? ==>
        var i := FindNamespace(old(entries), namespace).value;
        entries == old(entries)[i := old(entries)[i].(ownedNames := old(entries)[i].ownedNames + {name})]
      ensures r.Ok? ==> IsRecordOwned(namespace, name)
      ensures forall ns, n :: (ns, n) != (namespace, name) ==> (IsRecordOwned(ns, n) <==> old(IsRecordOwned(ns, n)))
    {
      var one := persy.One(namespace, name);
      if one.Err? {
        return Err(OwnError.IndexOpsError);
      }
      if one.value.None? {
        return Err(UnrecognizedName);
      }
      var found := FindNamespace(entries, namespace);
      if found.None? {
        return Err(OwnError.UnrecognizedNamespace);
      }
      var i := found.value;
      ghost var before := entries;
      entries := entries[i := entries[i].(ownedNames := entries[i].ownedNames + {name})];
      FindIgnoresOwnedNames(before, i, entries[i].ownedNames);
      r := Ok(Unit);
    }
  }

  /** Changing an entry's owned set does not move any namespace's first entry. */
  lemma FindIgnoresOwnedNames(entries: seq<NamespaceEntry>, i: nat, owned: set<string>)
    requires i < |entries|
    ensures forall ns :: FindNamespace(entries[i := entries[i].(ownedNames := owned)], ns) == FindNamespace(entries, ns)
  {
    var after := entries[i := entries[i].(ownedNames := owned)];
    forall ns
      ensures FindNamespace(after, ns) == FindNamespace(entries, ns)
    {
      FindUnchanged(entries, after, ns);
    }
  }

  /** The search depends only on the namespace names. */
  lemma {:induction false} FindUnchanged(a: seq<NamespaceEntry>, b: seq<NamespaceEntry>, ns: string)
    requires |a| == |b| && forall k :: 0 <= k < |a| ==> a[k].namespace == b[k].namespace
    ensures FindNamespace(a, ns) == FindNamespace(b, ns)
  {
    if |a| > 0 && a[0].namespace != ns {
      FindUnchanged(a[1..], b[1..], ns);
    }
  }

  /** `open` (after the store itself is opened): the entries are those `BuildEntries` gives. */
  method Open(persy: Persy, namespaces: seq<string>, siblings: seq<string>,
              serialize: CoreDbConn.OwnedWriteRequest -> seq<byte>, fromUtf8: seq<byte> -> Option<string>)
    returns (r: Result<MangleDb, OpenError>)
    ensures BuildEntries(persy, namespaces, fromUtf8).Err? ==> r == Err(BuildEntries(persy, namespaces, fromUtf8).error)
    ensures BuildEntries(persy, namespaces, fromUtf8).Ok? ==>
      && r.Ok? && fresh(r.value)
      && r.value.entries == BuildEntries(persy, namespaces, fromUtf8).value
      && r.value.persy == persy && r.value.siblings == siblings
  {
    var entries := ScanNamespaces(persy, namespaces, fromUtf8);
    if entries.Err? {
      return Err(entries.error);
    }
    var db := new MangleDb(persy, entries.value, siblings, serialize);
    r := Ok(db);
  }
}
