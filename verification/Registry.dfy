/** The cluster registry: one file per identity, replaced by renaming
    (internal/registry/registry.go). */
module Registry {
  import opened Objects
  import opened Inventory
  import opened Sorting

  datatype Mode = Managed | SelfManaged | Released | Unknown(text: string)

  datatype Id = Id(namespace: string, name: string)

  datatype Record = Record(version: int, id: Id, mode: Mode, endpoint: string, management: string, workload: string, updated: int)

  predicate IsAbs(path: string) {
    path != "" && path[0] == '/'
  }

  predicate Valid(r: Record) {
    && r.version == 1 && r.id.name != "" && r.id.namespace != ""
    && (match r.mode
        case Managed => IsAbs(r.management)
        case SelfManaged => IsAbs(r.management)
        case Released => r.management == ""
        case Unknown(_) => false)
    && IsAbs(r.workload)
  }

  /** A file of the registry directory: a record under its key, or a temporary one. */
  datatype FileName = RecordFile(key: string) | Temporary(number: nat)

  /** What a file holds: a record in JSON, or anything else. */
  datatype Content = Json(record: Record) | Other(text: string)

  type Files = map<FileName, Content>

  type KeyOf = Id -> string

  ghost predicate NoCollisions(key: KeyOf) {
    forall a, b :: key(a) == key(b) ==> a == b
  }

  /** read and the identity check of Get. */
  predicate Holds(key: KeyOf, f: FileName, c: Content) {
    c.Json? && Valid(c.record) && f == RecordFile(key(c.record.id))
  }

  /** Every record file is one that reading accepts. */
  predicate Sound(key: KeyOf, files: Files) {
    forall f :: f in files && f.RecordFile? ==> Holds(key, f, files[f])
  }

  datatype Answer = NotThere | Found(record: Record) | Unreadable

  function Get(key: KeyOf, files: Files, id: Id): Answer {
    var f := RecordFile(key(id));
    if f !in files then NotThere
    else if files[f].Json? && Valid(files[f].record) && files[f].record.id == id then Found(files[f].record)
    else Unreadable
  }

  /** How far a Put gets.  On an error the temporary file is removed; after a crash it
      stays. */
  datatype Fate = NoTemporary | Torn(written: string, crash: bool) | NotRenamed(crash: bool) | Done

  function Stamped(r: Record, now: int): Record {
    r.(version := 1, updated := now)
  }

  predicate Stored(r: Record, now: int, fate: Fate) {
    Valid(Stamped(r, now)) && fate.Done?
  }

  function AfterPut(key: KeyOf, files: Files, r: Record, now: int, temporary: nat, fate: Fate): Files {
    if !Valid(Stamped(r, now)) || fate.NoTemporary? then files
    else
      match fate
      case Torn(text, crash) => if crash then files[Temporary(temporary) := Other(text)] else files
      case NotRenamed(crash) => if crash then files[Temporary(temporary) := Json(Stamped(r, now))] else files
      case Done => files[RecordFile(key(r.id)) := Json(Stamped(r, now))]
  }

  function AfterForget(key: KeyOf, files: Files, id: Id): Files {
    files - {RecordFile(key(id))}
  }

  // ---- the code

  class Store {
    const key: KeyOf
    var files: Files

    constructor (key: KeyOf, files: Files)
      ensures this.key == key && this.files == files
    {
      this.key, this.files := key, files;
    }

    /** Put: a temporary file is written in full before it takes the record's name. */
    method Put(r: Record, now: int, temporary: nat, fate: Fate) returns (ok: bool)
      requires Temporary(temporary) !in files
      modifies this
      ensures files == AfterPut(key, old(files), r, now, temporary, fate)
      ensures ok <==> Stored(r, now, fate)
      ensures ok ==> files == old(files)[RecordFile(key(r.id)) := Json(r.(version := 1, updated := now))]
      ensures !ok ==> files == old(files) || files.Keys == old(files).Keys + {Temporary(temporary)}
      ensures !ok ==> forall f :: f in old(files) ==> f in files && files[f] == old(files)[f]
    {
      var stamped := r.(version := 1, updated := now);
      if !Valid(stamped) { return false; }
      var path, temp := RecordFile(key(stamped.id)), Temporary(temporary);
      if fate.NoTemporary? { return false; }
      ghost var was := files;
      files := files[temp := Other("")];
      if fate.Torn? {
        files := files[temp := Other(fate.written)];
        if !fate.crash { files := files - {temp}; }
        assert !fate.crash ==> files == was;
        return false;
      }
      files := files[temp := Json(stamped)];
      if fate.NotRenamed? {
        if !fate.crash { files := files - {temp}; }
        assert !fate.crash ==> files == was;
        return false;
      }
      files := (files - {temp})[path := files[temp]];
      assert files == was[path := Json(stamped)];
      ok := true;
    }

    method Forget(id: Id)
      modifies this
      ensures files == AfterForget(key, old(files), id)
    {
      files := files - {RecordFile(key(id))};
    }

    /** List: fails on a record it cannot accept; otherwise every record, once, in
        order of namespace and name. */
    method List(entries: seq<FileName>) returns (r: Option<seq<Record>>)
      requires forall f :: f in entries <==> f in files
      requires forall i, j :: 0 <= i < j < |entries| ==> entries[i] != entries[j]
      ensures r.Some? <==> Sound(key, files)
      ensures r.Some? ==> forall x :: x in r.value <==> RecordFile(key(x.id)) in files && files[RecordFile(key(x.id))] == Json(x)
      ensures r.Some? ==> forall i, j :: 0 <= i < j < |r.value| ==> Before(r.value[i].id, r.value[j].id)
    {
      var records: seq<Record> := [];
      for i := 0 to |entries|
        invariant forall j :: 0 <= j < i && entries[j].RecordFile? ==> Holds(key, entries[j], files[entries[j]])
        invariant forall x: Record :: x in records <==> RecordFile(key(x.id)) in entries[..i] && files[RecordFile(key(x.id))] == Json(x)
        invariant forall a, b :: 0 <= a < b < |records| ==> records[a].id != records[b].id
      {
        assert entries[..i + 1] == entries[..i] + [entries[i]];
        if entries[i].Temporary? { continue; }
        var content := files[entries[i]];
        if !Holds(key, entries[i], content) { return None; }
        assert content.record !in records;
        NewIdentity(key, files, entries, i, records, content.record);
        records := records + [content.record];
      }
      assert entries[..|entries|] == entries;
      var sorted := new Record[|records|](i requires 0 <= i < |records| => records[i]);
      assert sorted[..] == records;
      SliceStable(sorted, ById());
      SortedById(records, sorted[..]);
      forall i, j | 0 <= i < j < |sorted[..]| ensures Before(sorted[..][i].id, sorted[..][j].id) {
        BeforeMeans(sorted[..][i].id, sorted[..][j].id);
      }
      r := Some(sorted[..]);
    }
  }

  lemma {:induction false} NewIdentity(key: KeyOf, files: Files, entries: seq<FileName>, i: nat, records: seq<Record>, x: Record)
    requires i < |entries| && entries[i] in files && Holds(key, entries[i], files[entries[i]]) && files[entries[i]].record == x
    requires forall a, b :: 0 <= a < b < |entries| ==> entries[a] != entries[b]
    requires forall y :: y in records <==> RecordFile(key(y.id)) in entries[..i] && RecordFile(key(y.id)) in files && files[RecordFile(key(y.id))] == Json(y)
    ensures forall a :: 0 <= a < |records| ==> records[a].id != x.id
  {
    forall a | 0 <= a < |records| ensures records[a].id != x.id {
      assert records[a] in records;
    }
  }

  // ---- the order of List

  /** By namespace as text, then by name as text. */
  ghost predicate Before(a: Id, b: Id) {
    TextBefore(a.namespace, b.namespace) || (a.namespace == b.namespace && TextBefore(a.name, b.name))
  }

  lemma {:induction false} BeforeMeans(a: Id, b: Id)
    ensures CompareIds(a, b) < 0 <==> Before(a, b)
  {
    TextMeans(a.namespace, b.namespace);
    TextMeans(a.name, b.name);
    TextZero(a.namespace, b.namespace);
  }

  function CompareIds(a: Id, b: Id): int {
    if a.namespace != b.namespace then CompareText(a.namespace, b.namespace) else CompareText(a.name, b.name)
  }

  function ById(): (Record, Record) -> bool {
    (a: Record, b: Record) => CompareIds(a.id, b.id) <= 0
  }

  lemma {:induction false} IdsAntisymmetric(a: Id, b: Id)
    ensures CompareIds(a, b) == -CompareIds(b, a)
    ensures CompareIds(a, b) == 0 <==> a == b
  {
    TextAntisymmetric(a.namespace, b.namespace);
    TextAntisymmetric(a.name, b.name);
    TextZero(a.namespace, b.namespace);
    TextZero(a.name, b.name);
  }

  lemma {:induction false} IdsTransitive(a: Id, b: Id, c: Id)
    requires CompareIds(a, b) < 0 && CompareIds(b, c) < 0
    ensures CompareIds(a, c) < 0
  {
    if a.namespace == b.namespace && b.namespace == c.namespace {
      TextTransitive(a.name, b.name, c.name);
    } else if a.namespace != b.namespace && b.namespace != c.namespace {
      TextTransitive(a.namespace, b.namespace, c.namespace);
      TextZero(a.namespace, c.namespace);
    }
  }

  lemma {:induction false} ByIdIsPreorder()
    ensures Preorder(ById())
  {
    var le := ById();
    forall a: Record, b: Record ensures le(a, b) || le(b, a) { IdsAntisymmetric(a.id, b.id); }
    forall a: Record, b: Record, c: Record | le(a, b) && le(b, c) ensures le(a, c) {
      IdsAntisymmetric(a.id, b.id);
      IdsAntisymmetric(b.id, c.id);
      if a.id != b.id && b.id != c.id { IdsTransitive(a.id, b.id, c.id); }
    }
  }

  lemma {:induction false} SortedById(records: seq<Record>, sorted: seq<Record>)
    requires sorted == Sort(records, ById())
    requires forall a, b :: 0 <= a < b < |records| ==> records[a].id != records[b].id
    ensures forall x :: x in sorted <==> x in records
    ensures forall i, j :: 0 <= i < j < |sorted| ==> CompareIds(sorted[i].id, sorted[j].id) < 0
  {
    ByIdIsPreorder();
    forall i, j | 0 <= i < j < |records| ensures !(ById()(records[i], records[j]) && ById()(records[j], records[i])) {
      IdsAntisymmetric(records[i].id, records[j].id);
    }
    SortCorrect(records, ById(), (x: Record) => false);
    SortStrict(records, ById());
    assert forall x :: x in sorted <==> x in multiset(sorted);
    forall i, j | 0 <= i < j < |sorted| ensures CompareIds(sorted[i].id, sorted[j].id) < 0 {
      IdsAntisymmetric(sorted[i].id, sorted[j].id);
    }
  }

  // ---- the store refines a map

  type Registered = map<Id, Record>

  datatype Op = Put(record: Record, now: int, temporary: nat, fate: Fate) | Forget(id: Id)

  function Perform(key: KeyOf, files: Files, op: Op): Files {
    match op
    case Put(r, now, temporary, fate) => AfterPut(key, files, r, now, temporary, fate)
    case Forget(id) => AfterForget(key, files, id)
  }

  function PerformAll(key: KeyOf, files: Files, ops: seq<Op>): Files
    decreases |ops|
  {
    if ops == [] then files else PerformAll(key, Perform(key, files, ops[0]), ops[1..])
  }

  /** What the same operation is to a map: it happens, or it does not. */
  function Change(m: Registered, op: Op): Registered {
    match op
    case Put(r, now, _, fate) => if Stored(r, now, fate) then m[r.id := Stamped(r, now)] else m
    case Forget(id) => m - {id}
  }

  function ChangeAll(m: Registered, ops: seq<Op>): Registered
    decreases |ops|
  {
    if ops == [] then m else ChangeAll(Change(m, ops[0]), ops[1..])
  }

  /** The files say what the map says, about every identity. */
  ghost predicate Refines(key: KeyOf, files: Files, m: Registered) {
    && Sound(key, files)
    && forall id :: Get(key, files, id) == if id in m then Found(m[id]) else NotThere
  }

  lemma {:induction false} PutRefines(key: KeyOf, files: Files, m: Registered, op: Op)
    requires NoCollisions(key) && Refines(key, files, m) && op.Put?
    ensures Refines(key, Perform(key, files, op), Change(m, op))
  {
    var files' := Perform(key, files, op);
    forall f | f in files' && f.RecordFile? ensures Holds(key, f, files'[f]) {
      if f in files { assert Holds(key, f, files[f]); }
    }
    forall id ensures Get(key, files', id) == if id in Change(m, op) then Found(Change(m, op)[id]) else NotThere {
      assert Get(key, files, id) == if id in m then Found(m[id]) else NotThere;
    }
  }

  lemma {:induction false} ForgetRefines(key: KeyOf, files: Files, m: Registered, id: Id)
    requires NoCollisions(key) && Refines(key, files, m)
    ensures Refines(key, AfterForget(key, files, id), m - {id})
  {
    var files' := AfterForget(key, files, id);
    forall f | f in files' && f.RecordFile? ensures Holds(key, f, files'[f]) {
      assert Holds(key, f, files[f]);
    }
    forall k ensures Get(key, files', k) == if k in m - {id} then Found((m - {id})[k]) else NotThere {
      assert Get(key, files, k) == if k in m then Found(m[k]) else NotThere;
    }
  }

  /** Over any sequence of operations, wherever each is cut, the directory is a map
      from identities to valid records: a Put happened entirely or not at all, and
      touched no other identity. */
  lemma {:induction false} StoreRefinesMap(key: KeyOf, files: Files, m: Registered, ops: seq<Op>)
    requires NoCollisions(key) && Refines(key, files, m)
    ensures Refines(key, PerformAll(key, files, ops), ChangeAll(m, ops))
    decreases |ops|
  {
    if ops != [] {
      if ops[0].Put? { PutRefines(key, files, m, ops[0]); } else { ForgetRefines(key, files, m, ops[0].id); }
      StoreRefinesMap(key, Perform(key, files, ops[0]), Change(m, ops[0]), ops[1..]);
    }
  }

  /** From an empty directory, every record that can ever be read is valid and was put
      under the identity it names. */
  lemma {:induction false} EveryRecordIsValid(key: KeyOf, ops: seq<Op>, id: Id)
    requires NoCollisions(key)
    ensures Get(key, PerformAll(key, map[], ops), id) != Unreadable
    ensures Get(key, PerformAll(key, map[], ops), id).Found? ==>
              var r := Get(key, PerformAll(key, map[], ops), id).record;
              Valid(r) && r.id == id && r.version == 1 && id.name != "" && id.namespace != ""
              && (r.mode == Managed || r.mode == SelfManaged || r.mode == Released)
  {
    StoreRefinesMap(key, map[], map[], ops);
  }

  /** Which records Put accepts, and reading does: named, with an absolute kubeconfig of
      the cluster, and one of its management exactly unless it is released. */
  lemma {:induction false} AcceptedIff(r: Record, now: int)
    ensures Valid(Stamped(r, now)) <==>
            && r.id.name != "" && r.id.namespace != ""
            && r.workload != "" && r.workload[0] == '/'
            && (r.mode == Managed || r.mode == SelfManaged || r.mode == Released)
            && (r.mode == Released ==> r.management == "")
            && (r.mode != Released ==> r.management != "" && r.management[0] == '/')
    ensures Stamped(r, now) == r.(version := 1, updated := now)
    ensures Valid(r) ==> r.version == 1
  {
  }
}
