/** Patching kubeadm configuration documents (internal/cloudinit/kubeadm.go): trees
    rewritten in place. */
module Kubeadm {
  import opened Objects

  type Fields = map<string, Value>

  /** A parsed YAML value. */
  datatype Value =
    | Null
    | Bool(truth: bool)
    | Number(number: int)
    | Text(text: string)
    | List(items: seq<Value>)
    | Map(fields: map<string, Value>)

  /** What is at a path of mapping keys. */
  function Get(v: Value, path: seq<string>): Option<Value>
    decreases |path|
  {
    if path == [] then Some(v)
    else if v.Map? && path[0] in v.fields then Get(v.fields[path[0]], path[1..])
    else None
  }

  predicate AbsentOrNull(fields: Fields, key: string) {
    key !in fields || fields[key].Null?
  }

  // ---- setNested

  /** The document with value at path and mappings created along the way; None when
      something on the way is not a mapping. */
  function SetAt(fields: Fields, path: seq<string>, value: string): Option<Fields>
    requires path != []
    decreases |path|
  {
    var key := path[0];
    if |path| == 1 then Some(fields[key := Text(value)])
    else if AbsentOrNull(fields, key) then
      match SetAt(map[], path[1..], value)
      case None => None
      case Some(inner) => Some(fields[key := Map(inner)])
    else if fields[key].Map? then
      match SetAt(fields[key].fields, path[1..], value)
      case None => None
      case Some(inner) => Some(fields[key := Map(inner)])
    else None
  }

  /** Every step of the path but the last leads to a mapping. */
  predicate Leads(fields: Fields, path: seq<string>)
    requires path != []
    decreases |path|
  {
    |path| == 1 || (path[0] in fields && fields[path[0]].Map? && Leads(fields[path[0]].fields, path[1..]))
  }

  /** An assignment through a reference to the mapping at path but its last key. */
  function Assign(fields: Fields, path: seq<string>, v: Value): Fields
    requires path != [] && Leads(fields, path)
    decreases |path|
  {
    if |path| == 1 then fields[path[0] := v]
    else fields[path[0] := Map(Assign(fields[path[0]].fields, path[1..], v))]
  }

  /** The mapping such a reference points to. */
  function Target(fields: Fields, path: seq<string>): Fields
    requires path != [] && Leads(fields, path)
    decreases |path|
  {
    if |path| == 1 then fields else Target(fields[path[0]].fields, path[1..])
  }

  lemma {:induction false} OverwriteOnTheWay(fields: Fields, path: seq<string>, inner: Fields, value: string)
    requires |path| > 1
    ensures SetAt(fields[path[0] := Map(inner)], path, value) ==
            match SetAt(inner, path[1..], value)
            case None => None
            case Some(end) => Some(fields[path[0] := Map(end)])
  {
    var end := SetAt(inner, path[1..], value);
    if end.Some? { assert fields[path[0] := Map(inner)][path[0] := Map(end.value)] == fields[path[0] := Map(end.value)]; }
  }

  /** Creating an empty mapping on the way does not change where the walk ends. */
  lemma {:induction false} CreateOnTheWay(fields: Fields, path: seq<string>, i: nat, value: string)
    requires 0 < i < |path| && Leads(fields, path[..i])
    requires AbsentOrNull(Target(fields, path[..i]), path[i - 1])
    ensures
      var created := Assign(fields, path[..i], Map(map[]));
      && SetAt(created, path, value) == SetAt(fields, path, value)
      && Leads(created, path[..i + 1]) && Target(created, path[..i + 1]) == map[]
    decreases i
  {
    if i > 1 {
      var inner := fields[path[0]].fields;
      assert path[..i][1..] == path[1..][..i - 1] && path[..i + 1][1..] == path[1..][..i];
      assert path[1..][i - 2] == path[i - 1];
      CreateOnTheWay(inner, path[1..], i - 1, value);
      var created := Assign(inner, path[1..][..i - 1], Map(map[]));
      OverwriteOnTheWay(fields, path, created, value);
    } else {
      assert path[..2][1..] == [path[1]];
      OverwriteOnTheWay(fields, path, map[], value);
    }
  }

  /** The walk fails at a step that holds something other than a mapping. */
  lemma {:induction false} BlockedOnTheWay(fields: Fields, path: seq<string>, i: nat, value: string)
    requires 0 < i < |path| && Leads(fields, path[..i])
    requires !AbsentOrNull(Target(fields, path[..i]), path[i - 1])
    ensures !Target(fields, path[..i])[path[i - 1]].Map? ==> SetAt(fields, path, value) == None
    ensures Target(fields, path[..i])[path[i - 1]].Map? ==>
              Leads(fields, path[..i + 1]) && Target(fields, path[..i + 1]) == Target(fields, path[..i])[path[i - 1]].fields
    decreases i
  {
    if i > 1 {
      assert path[..i][1..] == path[1..][..i - 1] && path[..i + 1][1..] == path[1..][..i];
      assert path[1..][i - 2] == path[i - 1];
      BlockedOnTheWay(fields[path[0]].fields, path[1..], i - 1, value);
    } else {
      assert path[..2][1..] == [path[1]];
    }
  }

  lemma {:induction false} AssignAtTheEnd(fields: Fields, path: seq<string>, value: string)
    requires path != [] && Leads(fields, path)
    ensures SetAt(fields, path, value) == Some(Assign(fields, path, Text(value)))
    decreases |path|
  {
    if |path| > 1 { AssignAtTheEnd(fields[path[0]].fields, path[1..], value); }
  }

  // ---- kubelet arguments

  predicate IsFlag(item: Value, name: string) {
    item.Map? && "name" in item.fields && item.fields["name"] == Text(name)
  }

  /** The first entry of that name gets the value; without one, a new entry does. */
  function Upsert(args: seq<Value>, name: string, value: string): seq<Value> {
    if args == [] then [Map(map["name" := Text(name), "value" := Text(value)])]
    else if IsFlag(args[0], name) then [Map(args[0].fields["value" := Text(value)])] + args[1..]
    else [args[0]] + Upsert(args[1..], name, value)
  }

  method UpsertArgList(args: seq<Value>, name: string, value: string) returns (r: seq<Value>)
    ensures r == Upsert(args, name, value)
  {
    for i := 0 to |args|
      invariant args[..i] + Upsert(args[i..], name, value) == Upsert(args, name, value)
    {
      if IsFlag(args[i], name) {
        r := args[i := Map(args[i].fields["value" := Text(value)])];
        assert r == args[..i] + ([Map(args[i].fields["value" := Text(value)])] + args[i..][1..]);
        return;
      }
      assert args[i..][1..] == args[i + 1..];
      assert args[..i] + ([args[i]] + Upsert(args[i + 1..], name, value)) == args[..i + 1] + Upsert(args[i + 1..], name, value);
    }
    r := args + [Map(map["name" := Text(name), "value" := Text(value)])];
    assert args[|args|..] == [] && args[..|args|] == args;
  }

  const ApiGroup := "kubeadm.k8s.io/"

  predicate UsesArgList(apiVersion: string) {
    var version := if ApiGroup <= apiVersion then apiVersion[|ApiGroup|..] else apiVersion;
    version != "v1beta1" && version != "v1beta2" && version != "v1beta3"
  }

  /** kubeletExtraArgs with the flag set; None for a value of another type. */
  function SetFlag(args: Value, list: bool, name: string, value: string): Option<Value> {
    match args
    case List(items) => Some(List(Upsert(items, name, value)))
    case Map(fields) => Some(Map(fields[name := Text(value)]))
    case Null => if list then Some(List(Upsert([], name, value))) else Some(Map(map[name := Text(value)]))
    case _ => None
  }

  /** nodeRegistration, or an empty mapping in place of anything that is not one. */
  function Registration(doc: Fields): Fields {
    if "nodeRegistration" in doc && doc["nodeRegistration"].Map? then doc["nodeRegistration"].fields else map[]
  }

  function ExtraArgs(doc: Fields): Value {
    var r := Registration(doc);
    if "kubeletExtraArgs" in r then r["kubeletExtraArgs"] else Null
  }

  function SetArg(doc: Fields, apiVersion: string, name: string, value: string): Option<Fields> {
    match SetFlag(ExtraArgs(doc), UsesArgList(apiVersion), name, value)
    case None => None
    case Some(args) => Some(doc["nodeRegistration" := Map(Registration(doc)["kubeletExtraArgs" := args])])
  }

  // ---- a document

  datatype KubeletArg = KubeletArg(name: string, value: string)

  datatype Patch = Patch(kubeletArgs: seq<KubeletArg>, advertiseAddress: string)

  /** What Render pins on a machine: its provider ID and the address kg reaches it on. */
  function PatchFor(providerID: string, address: string): Patch {
    Patch((if providerID != "" then [KubeletArg("provider-id", providerID)] else [])
          + (if address != "" then [KubeletArg("node-ip", address)] else []),
          address)
  }

  function SetArgs(doc: Fields, apiVersion: string, args: seq<KubeletArg>): Option<Fields>
    decreases |args|
  {
    if args == [] then Some(doc)
    else
      match SetArg(doc, apiVersion, args[0].name, args[0].value)
      case None => None
      case Some(next) => SetArgs(next, apiVersion, args[1..])
  }

  const InitEndpoint: seq<string> := ["localAPIEndpoint", "advertiseAddress"]
  const JoinEndpoint: seq<string> := ["controlPlane", "localAPIEndpoint", "advertiseAddress"]

  /** Where this document says what address its API server has, if it has one. */
  function EndpointPath(doc: Fields, kind: string): Option<seq<string>> {
    if kind == "InitConfiguration" then Some(InitEndpoint)
    else if kind == "JoinConfiguration" && "controlPlane" in doc then Some(JoinEndpoint)
    else None
  }

  function SetAdvertiseAddress(doc: Fields, kind: string, address: string): Option<Fields> {
    match EndpointPath(doc, kind)
    case None => Some(doc)
    case Some(path) => SetAt(doc, path, address)
  }

  function TextOf(doc: Fields, key: string): string {
    if key in doc && doc[key].Text? then doc[key].text else ""
  }

  predicate IsKubeadmConfig(doc: Fields) {
    && ApiGroup <= TextOf(doc, "apiVersion")
    && (TextOf(doc, "kind") == "InitConfiguration" || TextOf(doc, "kind") == "JoinConfiguration")
  }

  function PatchDocument(doc: Fields, patch: Patch): Option<Fields> {
    match SetArgs(doc, TextOf(doc, "apiVersion"), patch.kubeletArgs)
    case None => None
    case Some(next) =>
      if patch.advertiseAddress == "" then Some(next)
      else SetAdvertiseAddress(next, TextOf(doc, "kind"), patch.advertiseAddress)
  }

  // ---- the code: one document, changed in place

  class Document {
    var root: Fields

    constructor (fields: Fields)
      ensures root == fields
    {
      root := fields;
    }

    /** setNested: a reference walks down, creating mappings; a failure changes nothing. */
    method SetNested(value: string, path: seq<string>) returns (ok: bool)
      requires path != []
      modifies this
      ensures ok <==> SetAt(old(root), path, value).Some?
      ensures root == if ok then SetAt(old(root), path, value).value else old(root)
    {
      for i := 1 to |path|
        invariant Leads(root, path[..i])
        invariant SetAt(root, path, value) == SetAt(old(root), path, value)
        invariant root == old(root) || Target(root, path[..i]) == map[]
      {
        var current := Target(root, path[..i]);
        var key := path[i - 1];
        if AbsentOrNull(current, key) {
          CreateOnTheWay(root, path, i, value);
          root := Assign(root, path[..i], Map(map[]));
        } else {
          BlockedOnTheWay(root, path, i, value);
          if !current[key].Map? { return false; }
        }
      }
      assert path[..|path|] == path;
      AssignAtTheEnd(root, path, value);
      root := Assign(root, path, Text(value));
      ok := true;
    }

    /** setKubeletExtraArg.  A value of an unexpected type is an error that changes
        nothing: it can only be found in a registration that was there. */
    method SetKubeletExtraArg(apiVersion: string, name: string, value: string) returns (ok: bool)
      modifies this
      ensures ok <==> SetArg(old(root), apiVersion, name, value).Some?
      ensures root == if ok then SetArg(old(root), apiVersion, name, value).value else old(root)
    {
      if "nodeRegistration" !in root || !root["nodeRegistration"].Map? {
        root := root["nodeRegistration" := Map(map[])];
      }
      var registration := root["nodeRegistration"].fields;
      var existing := if "kubeletExtraArgs" in registration then registration["kubeletExtraArgs"] else Null;
      var args: Value;
      match existing {
        case List(items) =>
          var r := UpsertArgList(items, name, value);
          args := List(r);
        case Map(fields) => args := Map(fields[name := Text(value)]);
        case Null =>
          if UsesArgList(apiVersion) {
            var r := UpsertArgList([], name, value);
            args := List(r);
          } else {
            args := Map(map[name := Text(value)]);
          }
        case _ => return false;
      }
      root := root["nodeRegistration" := Map(registration["kubeletExtraArgs" := args])];
      assert root == old(root)["nodeRegistration" := root["nodeRegistration"]];
      ok := true;
    }

    method SetAddress(kind: string, address: string) returns (ok: bool)
      modifies this
      ensures ok <==> SetAdvertiseAddress(old(root), kind, address).Some?
      ensures root == if ok then SetAdvertiseAddress(old(root), kind, address).value else old(root)
    {
      if kind == "InitConfiguration" {
        ok := SetNested(address, InitEndpoint);
      } else if kind == "JoinConfiguration" {
        if "controlPlane" !in root { return true; }
        ok := SetNested(address, JoinEndpoint);
      } else {
        ok := true;
      }
    }

    /** What patchKubeadmConfig does to a document it recognises. */
    method Apply(patch: Patch) returns (ok: bool)
      modifies this
      ensures ok <==> PatchDocument(old(root), patch).Some?
      ensures ok ==> root == PatchDocument(old(root), patch).value
    {
      var apiVersion, kind := TextOf(root, "apiVersion"), TextOf(root, "kind");
      for i := 0 to |patch.kubeletArgs|
        invariant SetArgs(root, apiVersion, patch.kubeletArgs[i..]) == SetArgs(old(root), apiVersion, patch.kubeletArgs)
      {
        assert patch.kubeletArgs[i..][1..] == patch.kubeletArgs[i + 1..];
        ok := SetKubeletExtraArg(apiVersion, patch.kubeletArgs[i].name, patch.kubeletArgs[i].value);
        if !ok { return; }
      }
      ok := true;
      if patch.advertiseAddress != "" {
        ok := SetAddress(kind, patch.advertiseAddress);
      }
    }
  }

  // ---- the code: all files

  /** One document of a file: a tree, or something that is no mapping or empty. */
  datatype Part = Other(raw: string) | Tree(fields: Fields)

  /** A file and what it parses as; a file that is not YAML has no documents. */
  datatype ConfigFile = ConfigFile(path: string, encoding: string, parts: seq<Part>)

  predicate Concerned(part: Part) {
    part.Tree? && IsKubeadmConfig(part.fields)
  }

  function PatchPart(part: Part, patch: Patch): Option<Part> {
    if !Concerned(part) then Some(part)
    else
      match PatchDocument(part.fields, patch)
      case None => None
      case Some(fields) => Some(Tree(fields))
  }

  function PatchParts(parts: seq<Part>, patch: Patch): Option<seq<Part>> {
    if parts == [] then Some([])
    else
      var n := |parts| - 1;
      var before, last := PatchParts(parts[..n], patch), PatchPart(parts[n], patch);
      if before.Some? && last.Some? then Some(before.value + [last.value]) else None
  }

  predicate AnyConcerned(parts: seq<Part>) {
    parts != [] && (AnyConcerned(parts[..|parts| - 1]) || Concerned(parts[|parts| - 1]))
  }

  lemma {:induction false} PartsKeepLength(parts: seq<Part>, patch: Patch)
    requires PatchParts(parts, patch).Some?
    ensures |PatchParts(parts, patch).value| == |parts|
    decreases |parts|
  {
    if parts != [] { PartsKeepLength(parts[..|parts| - 1], patch); }
  }

  lemma {:induction false} AnyConcernedMeans(parts: seq<Part>)
    ensures AnyConcerned(parts) <==> exists i :: 0 <= i < |parts| && Concerned(parts[i])
    decreases |parts|
  {
    if parts != [] {
      var n := |parts| - 1;
      AnyConcernedMeans(parts[..n]);
      if AnyConcerned(parts[..n]) {
        var i :| 0 <= i < n && Concerned(parts[..n][i]);
        assert Concerned(parts[i]);
      }
      if exists i :: 0 <= i < |parts| && Concerned(parts[i]) {
        var i :| 0 <= i < |parts| && Concerned(parts[i]);
        if i < n { assert Concerned(parts[..n][i]); }
      }
    }
  }

  /** A file that holds a kubeadm configuration is plain YAML afterwards. */
  function PatchFile(f: ConfigFile, patch: Patch): Option<ConfigFile> {
    match PatchParts(f.parts, patch)
    case None => None
    case Some(parts) => Some(if AnyConcerned(f.parts) then f.(encoding := "", parts := parts) else f)
  }

  /** A patched file is where it was and plain; a file without a configuration is as it was. */
  ghost predicate PlainAfter(f: ConfigFile, g: ConfigFile) {
    && g.path == f.path
    && (if AnyConcerned(f.parts) then g.encoding == "" && |g.parts| == |f.parts| else g == f)
  }

  lemma {:induction false} PatchedIsPlain(f: ConfigFile, g: ConfigFile, patch: Patch)
    requires PatchFile(f, patch) == Some(g)
    ensures PlainAfter(f, g)
  {
    PartsKeepLength(f.parts, patch);
  }

  method PatchOne(part: Part, patch: Patch) returns (r: Option<Part>, changed: bool)
    ensures r == PatchPart(part, patch) && changed == Concerned(part)
    ensures changed <==>
              && part.Tree? && "apiVersion" in part.fields && part.fields["apiVersion"].Text? && "kind" in part.fields
              && "kubeadm.k8s.io/" <= part.fields["apiVersion"].text
              && (part.fields["kind"] == Text("InitConfiguration") || part.fields["kind"] == Text("JoinConfiguration"))
  {
    if !Concerned(part) { return Some(part), false; }
    var doc := new Document(part.fields);
    var ok := doc.Apply(patch);
    return if ok then Some(Tree(doc.root)) else None, true;
  }

  method PatchContent(parts: seq<Part>, patch: Patch) returns (r: Option<seq<Part>>, changed: bool)
    ensures r == PatchParts(parts, patch)
    ensures r.Some? ==> (changed <==> AnyConcerned(parts)) && (!changed ==> r == Some(parts))
  {
    changed := false;
    var rendered := [];
    for i := 0 to |parts|
      invariant PatchParts(parts[..i], patch) == Some(rendered)
      invariant changed == AnyConcerned(parts[..i])
      invariant !changed ==> rendered == parts[..i]
    {
      assert parts[..i + 1][..i] == parts[..i];
      var part, touched := PatchOne(parts[i], patch);
      if part.None? {
        FailsLater(parts, i + 1, patch);
        return None, false;
      }
      rendered := rendered + [part.value];
      changed := changed || touched;
    }
    assert parts[..|parts|] == parts;
    r := Some(rendered);
  }

  lemma {:induction false} FailsLater(parts: seq<Part>, i: nat, patch: Patch)
    requires i <= |parts| && PatchParts(parts[..i], patch) == None
    ensures PatchParts(parts, patch) == None
    decreases |parts|
  {
    if i == |parts| {
      assert parts[..i] == parts;
    } else {
      var n := |parts| - 1;
      assert parts[..n][..i] == parts[..i];
      FailsLater(parts[..n], i, patch);
    }
  }

  /** patchKubeadmConfigs: every file is patched in place, and a run that finds no
      kubeadm configuration at all is an error. */
  method PatchKubeadmConfigs(files: array<ConfigFile>, patch: Patch) returns (ok: bool)
    modifies files
    ensures ok <==>
              && (forall i :: 0 <= i < files.Length ==> PatchFile(old(files[i]), patch).Some?)
              && (exists i :: 0 <= i < files.Length && AnyConcerned(old(files[i].parts)))
    ensures ok ==> forall i :: 0 <= i < files.Length ==> PatchFile(old(files[i]), patch) == Some(files[i])
    ensures ok ==> forall i :: 0 <= i < files.Length ==> PlainAfter(old(files[i]), files[i])
    ensures forall i :: 0 <= i < files.Length ==> files[i] == old(files[i]) || PatchFile(old(files[i]), patch) == Some(files[i])
  {
    var patched := 0;
    for i := 0 to files.Length
      invariant forall j :: 0 <= j < i ==> PatchFile(old(files[j]), patch) == Some(files[j])
      invariant forall j :: i <= j < files.Length ==> files[j] == old(files[j])
      invariant 0 <= patched <= i
      invariant patched > 0 <==> exists j :: 0 <= j < i && AnyConcerned(old(files[j].parts))
    {
      var content, changed := PatchContent(files[i].parts, patch);
      if content.None? {
        assert PatchFile(old(files[i]), patch).None?;
        return false;
      }
      if changed {
        files[i] := files[i].(encoding := "", parts := content.value);
        patched := patched + 1;
      }
    }
    ok := patched != 0;
    forall i | 0 <= i < files.Length ensures PlainAfter(old(files[i]), files[i]) { PatchedIsPlain(old(files[i]), files[i], patch); }
  }
}
