/** The commands over the registry's real files: a record is read with Get, written
    with a Put that can be cut anywhere inside, and removed with Forget. */
module GenesisOnDisk {
  import opened Objects
  import opened Registry
  import opened Genesis
  import opened GenesisTheorems

  datatype Place = Place(files: Files, up: bool, clusters: map<Id, bool>)

  /** The absolute paths and the endpoint a record is made from. */
  datatype Settings = Settings(management: string, workload: Id -> string, endpoint: Id -> string)

  /** recordFor. */
  function RecordFor(c: Settings, id: Id, mode: Mode): Record {
    var management := match mode
      case SelfManaged => c.workload(id)
      case Released => ""
      case _ => c.management;
    Record(1, id, mode, c.endpoint(id), management, c.workload(id), 0)
  }

  /** What recordFor makes of a named cluster is a record Put accepts: managed by the genesis
      node, by the cluster itself, or by nobody. */
  lemma {:induction false} RecordForIsValid(c: Settings, id: Id, mode: Mode, now: int)
    requires IsAbs(c.management) && IsAbs(c.workload(id)) && !mode.Unknown?
    ensures Valid(Stamped(RecordFor(c, id, mode), now)) <==> id.name != "" && id.namespace != ""
    ensures RecordFor(c, id, mode).id == id && RecordFor(c, id, mode).mode == mode
    ensures RecordFor(c, id, mode).workload == c.workload(id) && RecordFor(c, id, mode).endpoint == c.endpoint(id)
    ensures mode == Managed ==> RecordFor(c, id, mode).management == c.management
    ensures mode == SelfManaged ==> RecordFor(c, id, mode).management == c.workload(id)
    ensures mode == Released ==> RecordFor(c, id, mode).management == ""
  {
  }

  // ---- what the files say

  function Ids(files: Files): set<Id> {
    set f | f in files && f.RecordFile? && files[f].Json? :: files[f].record.id
  }

  function MapOf(key: KeyOf, files: Files): Registered {
    map id | id in Ids(files) && Get(key, files, id).Found? :: Get(key, files, id).record
  }

  function Modes(m: Registered): map<Id, Mode> {
    map id | id in m :: m[id].mode
  }

  /** The state the commands work on, as they read it. */
  function Seen(key: KeyOf, p: Place): State {
    State(Modes(MapOf(key, p.files)), p.up, p.clusters)
  }

  lemma {:induction false} SoundRefines(key: KeyOf, files: Files)
    requires NoCollisions(key) && Sound(key, files)
    ensures Refines(key, files, MapOf(key, files))
  {
    forall id ensures Get(key, files, id) == if id in MapOf(key, files) then Found(MapOf(key, files)[id]) else NotThere {
      var f := RecordFile(key(id));
      if f in files {
        assert Holds(key, f, files[f]);
        assert files[f].record.id in Ids(files);
      }
    }
  }

  lemma {:induction false} OnlyOneMap(key: KeyOf, files: Files, m: Registered)
    requires Refines(key, files, m)
    ensures MapOf(key, files) == m
  {
    forall id ensures id in MapOf(key, files) <==> id in m {
      assert Get(key, files, id) == if id in m then Found(m[id]) else NotThere;
      if id in m { assert files[RecordFile(key(id))].record.id in Ids(files); }
    }
    forall id | id in m ensures MapOf(key, files)[id] == m[id] {
      assert Get(key, files, id) == if id in m then Found(m[id]) else NotThere;
    }
  }

  // ---- a command's writes, one attempt each

  /** How one write goes: in full, or not, and for a record how far its Put got. */
  datatype Try = Try(fate: Fate, now: int, temporary: nat)

  predicate Happens(c: Settings, w: Write, t: Try) {
    if w.Remember? then Stored(RecordFor(c, w.id, w.mode), t.now, t.fate) else t.fate.Done?
  }

  function Attempt(key: KeyOf, c: Settings, p: Place, w: Write, t: Try): Place {
    match w
    case Remember(id, mode) => p.(files := AfterPut(key, p.files, RecordFor(c, id, mode), t.now, t.temporary, t.fate))
    case Erase(id) => if t.fate.Done? then p.(files := AfterForget(key, p.files, id)) else p
    case _ =>
      if t.fate.Done? then p.(up := Do(Seen(key, p), w).up, clusters := Do(Seen(key, p), w).clusters) else p
  }

  /** The writes in order, up to the first that does not happen. */
  function Carry(key: KeyOf, c: Settings, p: Place, writes: seq<Write>, tries: seq<Try>): Place
    decreases |writes|
  {
    if writes == [] || tries == [] then p
    else
      var next := Attempt(key, c, p, writes[0], tries[0]);
      if Happens(c, writes[0], tries[0]) then Carry(key, c, next, writes[1..], tries[1..]) else next
  }

  datatype Call = Call(command: Command, tries: seq<Try>)

  function Execute(key: KeyOf, c: Settings, p: Place, call: Call): Place {
    Carry(key, c, p, Writes(Seen(key, p), call.command), call.tries)
  }

  function ExecuteAll(key: KeyOf, c: Settings, p: Place, calls: seq<Call>): Place
    decreases |calls|
  {
    if calls == [] then p else ExecuteAll(key, c, Execute(key, c, p, calls[0]), calls[1..])
  }

  // ---- the files follow the model

  lemma {:induction false} ChangeModes(m: Registered, op: Op)
    ensures Modes(Change(m, op)) ==
            match op
            case Put(r, now, _, fate) => if Stored(r, now, fate) then Modes(m)[r.id := r.mode] else Modes(m)
            case Forget(id) => Modes(m) - {id}
  {
  }

  lemma {:induction false} RecordAttempt(key: KeyOf, p: Place, op: Op)
    requires NoCollisions(key) && Sound(key, p.files)
    ensures
      var p' := p.(files := Perform(key, p.files, op));
      Sound(key, p'.files) && Seen(key, p') == State(Modes(Change(MapOf(key, p.files), op)), p.up, p.clusters)
  {
    var m := MapOf(key, p.files);
    SoundRefines(key, p.files);
    if op.Put? { PutRefines(key, p.files, m, op); } else { ForgetRefines(key, p.files, m, op.id); }
    OnlyOneMap(key, Perform(key, p.files, op), Change(m, op));
  }

  /** A write that happens is the model's write; one that is cut, inside Put or before
      it, leaves what the files say as it was. */
  lemma {:induction false} AttemptFollows(key: KeyOf, c: Settings, p: Place, w: Write, t: Try)
    requires NoCollisions(key) && Sound(key, p.files)
    ensures Sound(key, Attempt(key, c, p, w, t).files)
    ensures Seen(key, Attempt(key, c, p, w, t)) == if Happens(c, w, t) then Do(Seen(key, p), w) else Seen(key, p)
  {
    var m := MapOf(key, p.files);
    match w
    case Remember(id, mode) =>
      var op := Op.Put(RecordFor(c, id, mode), t.now, t.temporary, t.fate);
      RecordAttempt(key, p, op);
      ChangeModes(m, op);
    case Erase(id) =>
      RecordAttempt(key, p, Op.Forget(id));
      ChangeModes(m, Op.Forget(id));
    case _ =>
  }

  lemma {:induction false} DoFirst(s: State, w: Write, rest: seq<Write>)
    ensures DoAll(s, [w] + rest) == DoAll(Do(s, w), rest)
    decreases |rest|
  {
    var all := [w] + rest;
    if rest == [] {
      assert all == [] + [w];
      DoAppend(s, [], w);
    } else {
      var n := |rest| - 1;
      assert all[..|all| - 1] == [w] + rest[..n];
      DoFirst(s, w, rest[..n]);
    }
  }

  lemma {:induction false} CarryFollows(key: KeyOf, c: Settings, p: Place, writes: seq<Write>, tries: seq<Try>) returns (n: nat)
    requires NoCollisions(key) && Sound(key, p.files)
    ensures n <= |writes| && Sound(key, Carry(key, c, p, writes, tries).files)
    ensures Seen(key, Carry(key, c, p, writes, tries)) == DoAll(Seen(key, p), writes[..n])
    decreases |writes|
  {
    n := 0;
    if writes != [] && tries != [] {
      AttemptFollows(key, c, p, writes[0], tries[0]);
      if Happens(c, writes[0], tries[0]) {
        var k := CarryFollows(key, c, Attempt(key, c, p, writes[0], tries[0]), writes[1..], tries[1..]);
        n := k + 1;
        assert writes[..n] == [writes[0]] + writes[1..][..k];
        DoFirst(Seen(key, p), writes[0], writes[1..][..k]);
      }
    }
  }

  /** A command over the files is a command of the model, cut somewhere. */
  lemma {:induction false} ExecuteFollows(key: KeyOf, c: Settings, p: Place, call: Call) returns (t: Turn)
    requires NoCollisions(key) && Sound(key, p.files)
    ensures t.command == call.command && Sound(key, Execute(key, c, p, call).files)
    ensures Seen(key, Execute(key, c, p, call)) == Take(Seen(key, p), t)
  {
    var writes := Writes(Seen(key, p), call.command);
    var n := CarryFollows(key, c, p, writes, call.tries);
    t := Turn(call.command, n);
    assert Prefix(writes, n) == writes[..n];
  }

  /** Any sequence of commands over the files is a run of the model with the same
      commands, each cut somewhere. */
  lemma {:induction false} FilesFollowModel(key: KeyOf, c: Settings, p: Place, calls: seq<Call>) returns (turns: seq<Turn>)
    requires NoCollisions(key) && Sound(key, p.files)
    ensures |turns| == |calls| && forall i :: 0 <= i < |calls| ==> turns[i].command == calls[i].command
    ensures Sound(key, ExecuteAll(key, c, p, calls).files)
    ensures Seen(key, ExecuteAll(key, c, p, calls)) == TakeAll(Seen(key, p), turns)
    decreases |calls|
  {
    if calls == [] {
      turns := [];
    } else {
      var t := ExecuteFollows(key, c, p, calls[0]);
      var rest := FilesFollowModel(key, c, Execute(key, c, p, calls[0]), calls[1..]);
      turns := [t] + rest;
      assert turns[1..] == rest;
    }
  }

  /** On disk: a record that says released or self-managed is found, valid and saying
      so, after every sequence of commands that does not forget it, wherever each of
      them and each of their writes is cut. */
  lemma {:induction false} LetGoSurvivesOnDisk(key: KeyOf, c: Settings, p: Place, calls: seq<Call>, id: Id)
    requires NoCollisions(key) && Sound(key, p.files)
    requires Get(key, p.files, id).Found?
    requires Get(key, p.files, id).record.mode == Released || Get(key, p.files, id).record.mode == SelfManaged
    requires forall i :: 0 <= i < |calls| ==> calls[i].command != Command.Forget(id)
    ensures
      var after := Get(key, ExecuteAll(key, c, p, calls).files, id);
      after.Found? && Valid(after.record) && after.record.id == id && after.record.mode == Get(key, p.files, id).record.mode
  {
    var turns := FilesFollowModel(key, c, p, calls);
    assert id in Ids(p.files) by {
      assert p.files[RecordFile(key(id))].record.id == id;
    }
    LetGoStaysLetGo(Seen(key, p), turns, id);
  }
}
