/** What a patch does to a kubeadm document, whatever the document is: it reads back,
    it leaves every other path alone, and doing it twice is doing it once. */
module KubeadmLaws {
  import opened Objects
  import opened Kubeadm

  /** Neither path leads to or through the other. */
  predicate Apart(p: seq<string>, q: seq<string>) {
    !(p <= q) && !(q <= p)
  }

  // ---- setNested

  lemma {:induction false} SetReadsBack(doc: Fields, path: seq<string>, value: string)
    requires path != [] && SetAt(doc, path, value).Some?
    ensures Get(Map(SetAt(doc, path, value).value), path) == Some(Text(value))
    decreases |path|
  {
    if |path| == 1 {
      assert path[1..] == [];
    } else {
      SetReadsBack(if AbsentOrNull(doc, path[0]) then map[] else doc[path[0]].fields, path[1..], value);
    }
  }

  lemma {:induction false} SetKeepsOthers(doc: Fields, path: seq<string>, value: string, q: seq<string>)
    requires path != [] && SetAt(doc, path, value).Some? && Apart(path, q)
    ensures Get(Map(SetAt(doc, path, value).value), q) == Get(Map(doc), q)
    decreases |path|
  {
    if q[0] == path[0] {
      assert path == [path[0]] + path[1..] && q == [q[0]] + q[1..];
      assert |path| > 1 && q[1..] != [];
      SetKeepsOthers(if AbsentOrNull(doc, path[0]) then map[] else doc[path[0]].fields, path[1..], value, q[1..]);
    }
  }

  /** Something at a proper, non-empty beginning of the path is in the way. */
  predicate Blocked(doc: Fields, path: seq<string>)
    decreases |path|
  {
    |path| > 1 && !AbsentOrNull(doc, path[0]) && (doc[path[0]].Map? ==> Blocked(doc[path[0]].fields, path[1..]))
  }

  lemma {:induction false} EmptyIsFree(path: seq<string>, value: string)
    requires path != []
    ensures SetAt(map[], path, value).Some?
    decreases |path|
  {
    if |path| > 1 { EmptyIsFree(path[1..], value); }
  }

  lemma {:induction false} SetFailsIffBlocked(doc: Fields, path: seq<string>, value: string)
    requires path != []
    ensures SetAt(doc, path, value).None? <==> Blocked(doc, path)
    decreases |path|
  {
    if |path| > 1 {
      if AbsentOrNull(doc, path[0]) {
        EmptyIsFree(path[1..], value);
      } else if doc[path[0]].Map? {
        SetFailsIffBlocked(doc[path[0]].fields, path[1..], value);
      }
    }
  }

  /** Blocked, by what reading the document shows. */
  lemma {:induction false} BlockedMeans(doc: Fields, path: seq<string>)
    ensures Blocked(doc, path) <==>
            exists i :: 0 < i < |path| && Get(Map(doc), path[..i]).Some?
                        && !Get(Map(doc), path[..i]).value.Null? && !Get(Map(doc), path[..i]).value.Map?
    decreases |path|
  {
    if Blocked(doc, path) {
      var i := BlockedAt(doc, path);
    }
    forall i | 0 < i < |path| && Get(Map(doc), path[..i]).Some?
               && !Get(Map(doc), path[..i]).value.Null? && !Get(Map(doc), path[..i]).value.Map?
      ensures Blocked(doc, path)
    {
      BlocksFrom(doc, path, i);
    }
  }

  lemma {:induction false} BlockedAt(doc: Fields, path: seq<string>) returns (i: nat)
    requires Blocked(doc, path)
    ensures 0 < i < |path| && Get(Map(doc), path[..i]).Some?
    ensures !Get(Map(doc), path[..i]).value.Null? && !Get(Map(doc), path[..i]).value.Map?
    decreases |path|
  {
    if doc[path[0]].Map? {
      var j := BlockedAt(doc[path[0]].fields, path[1..]);
      i := j + 1;
      assert path[..i][1..] == path[1..][..j];
    } else {
      i := 1;
      assert path[..1][1..] == [];
    }
  }

  lemma {:induction false} BlocksFrom(doc: Fields, path: seq<string>, i: nat)
    requires 0 < i < |path| && Get(Map(doc), path[..i]).Some?
    requires !Get(Map(doc), path[..i]).value.Null? && !Get(Map(doc), path[..i]).value.Map?
    ensures Blocked(doc, path)
    decreases i
  {
    if i == 1 {
      assert path[..1][1..] == [];
    } else {
      assert path[..i][1..] == path[1..][..i - 1];
      BlocksFrom(doc[path[0]].fields, path[1..], i - 1);
    }
  }

  lemma {:induction false} SetAgainIsNothing(doc: Fields, path: seq<string>, value: string)
    requires path != [] && Get(Map(doc), path) == Some(Text(value))
    ensures SetAt(doc, path, value) == Some(doc)
    decreases |path|
  {
    if |path| == 1 {
      assert path[1..] == [];
      assert doc[path[0] := Text(value)] == doc;
    } else {
      assert path[1..] != [];
      SetAgainIsNothing(doc[path[0]].fields, path[1..], value);
      assert doc[path[0] := doc[path[0]]] == doc;
    }
  }

  // ---- flags

  /** What a flag is set to, once per occurrence; an entry may lack a value. */
  function ListValues(items: seq<Value>, name: string): seq<Option<Value>> {
    if items == [] then []
    else if IsFlag(items[0], name) then
      [if "value" in items[0].fields then Some(items[0].fields["value"]) else None] + ListValues(items[1..], name)
    else ListValues(items[1..], name)
  }

  function FlagValues(args: Value, name: string): seq<Option<Value>> {
    match args
    case List(items) => ListValues(items, name)
    case Map(fields) => if name in fields then [Some(fields[name])] else []
    case _ => []
  }

  /** A flag that was there has its first occurrence replaced; one that was not is
      there once. */
  function Replaced(before: seq<Option<Value>>, value: string): seq<Option<Value>> {
    if before == [] then [Some(Text(value))] else [Some(Text(value))] + before[1..]
  }

  lemma {:induction false} UpsertReads(items: seq<Value>, name: string, value: string, other: string)
    ensures ListValues(Upsert(items, name, value), name) == Replaced(ListValues(items, name), value)
    ensures other != name ==> ListValues(Upsert(items, name, value), other) == ListValues(items, other)
    decreases |items|
  {
    if items == [] {
      var entry := Map(map["name" := Text(name), "value" := Text(value)]);
      assert [entry][1..] == [];
      assert ListValues([entry], name) == [Some(Text(value))] + ListValues([], name);
    } else if IsFlag(items[0], name) {
      var entry := Map(items[0].fields["value" := Text(value)]);
      assert ([entry] + items[1..])[1..] == items[1..];
      assert IsFlag(entry, name);
    } else {
      var rest := Upsert(items[1..], name, value);
      assert ([items[0]] + rest)[1..] == rest;
      UpsertReads(items[1..], name, value, other);
    }
  }

  /** Entries of other names stay as they are and in order. */
  function Others(items: seq<Value>, name: string): seq<Value> {
    if items == [] then []
    else (if IsFlag(items[0], name) then [] else [items[0]]) + Others(items[1..], name)
  }

  lemma {:induction false} UpsertKeepsOthers(items: seq<Value>, name: string, value: string)
    ensures Others(Upsert(items, name, value), name) == Others(items, name)
    decreases |items|
  {
    if items == [] {
      var entry := Map(map["name" := Text(name), "value" := Text(value)]);
      assert [entry][1..] == [];
      assert IsFlag(entry, name);
    } else if IsFlag(items[0], name) {
      var entry := Map(items[0].fields["value" := Text(value)]);
      assert ([entry] + items[1..])[1..] == items[1..];
      assert IsFlag(entry, name);
    } else {
      var rest := Upsert(items[1..], name, value);
      assert ([items[0]] + rest)[1..] == rest;
      UpsertKeepsOthers(items[1..], name, value);
    }
  }

  lemma {:induction false} SameValue(fields: Fields, v: Value)
    requires "value" in fields && fields["value"] == v
    ensures fields["value" := v] == fields
  {
  }

  lemma {:induction false} UpsertAgainIsNothing(items: seq<Value>, name: string, value: string)
    requires ListValues(items, name) != [] && ListValues(items, name)[0] == Some(Text(value))
    ensures Upsert(items, name, value) == items
    decreases |items|
  {
    assert items == [items[0]] + items[1..];
    if IsFlag(items[0], name) {
      SameValue(items[0].fields, Text(value));
    } else {
      UpsertAgainIsNothing(items[1..], name, value);
    }
  }

  function Flags(doc: Fields, name: string): seq<Option<Value>> {
    FlagValues(ExtraArgs(doc), name)
  }

  const ArgsPath: seq<string> := ["nodeRegistration", "kubeletExtraArgs"]

  /** In list or map form: the flag reads back, and every other flag is as before. */
  lemma {:induction false} SetArgReads(doc: Fields, apiVersion: string, name: string, value: string, other: string)
    requires SetArg(doc, apiVersion, name, value).Some?
    ensures Flags(SetArg(doc, apiVersion, name, value).value, name) == Replaced(Flags(doc, name), value)
    ensures other != name ==> Flags(SetArg(doc, apiVersion, name, value).value, other) == Flags(doc, other)
  {
    var args := ExtraArgs(doc);
    var after := SetFlag(args, UsesArgList(apiVersion), name, value).value;
    assert ExtraArgs(SetArg(doc, apiVersion, name, value).value) == after;
    SetFlagReads(args, UsesArgList(apiVersion), name, value, other);
  }

  lemma {:induction false} SetFlagReads(args: Value, list: bool, name: string, value: string, other: string)
    requires SetFlag(args, list, name, value).Some?
    ensures FlagValues(SetFlag(args, list, name, value).value, name) == Replaced(FlagValues(args, name), value)
    ensures other != name ==> FlagValues(SetFlag(args, list, name, value).value, other) == FlagValues(args, other)
  {
    match args
    case List(items) => UpsertReads(items, name, value, other);
    case Null => UpsertReads([], name, value, other);
    case _ =>
  }

  /** Paths beside kubeletExtraArgs are untouched; a nodeRegistration that was not a
      mapping is replaced, and has no paths below it to lose. */
  lemma {:induction false} SetArgKeepsOthers(doc: Fields, apiVersion: string, name: string, value: string, q: seq<string>)
    requires SetArg(doc, apiVersion, name, value).Some? && Apart(ArgsPath, q)
    ensures Get(Map(SetArg(doc, apiVersion, name, value).value), q) == Get(Map(doc), q)
  {
    var after := SetArg(doc, apiVersion, name, value).value;
    if q[0] == "nodeRegistration" {
      assert q[1..] != [] && q[1] != "kubeletExtraArgs";
    }
  }

  lemma {:induction false} SetArgAgainIsNothing(doc: Fields, apiVersion: string, name: string, value: string)
    requires Flags(doc, name) != [] && Flags(doc, name)[0] == Some(Text(value))
    ensures SetArg(doc, apiVersion, name, value) == Some(doc)
  {
    var args := ExtraArgs(doc);
    assert SetFlag(args, UsesArgList(apiVersion), name, value) == Some(args) by {
      match args
      case List(items) => UpsertAgainIsNothing(items, name, value);
      case Map(fields) => assert fields[name := Text(value)] == fields;
      case _ =>
    }
    assert Registration(doc)["kubeletExtraArgs" := args] == Registration(doc);
    assert doc["nodeRegistration" := doc["nodeRegistration"]] == doc;
  }

  // ---- the flags of a patch

  predicate Distinct(args: seq<KubeletArg>) {
    forall i, j :: 0 <= i < j < |args| ==> args[i].name != args[j].name
  }

  predicate Named(args: seq<KubeletArg>, name: string) {
    exists i :: 0 <= i < |args| && args[i].name == name
  }

  lemma {:induction false} SetArgsKeepFlag(doc: Fields, apiVersion: string, args: seq<KubeletArg>, name: string)
    requires SetArgs(doc, apiVersion, args).Some? && !Named(args, name)
    ensures Flags(SetArgs(doc, apiVersion, args).value, name) == Flags(doc, name)
    decreases |args|
  {
    if args != [] {
      assert args[0].name != name;
      SetArgReads(doc, apiVersion, args[0].name, args[0].value, name);
      var next := SetArg(doc, apiVersion, args[0].name, args[0].value).value;
      assert forall i :: 0 <= i < |args[1..]| ==> args[1..][i] == args[i + 1];
      SetArgsKeepFlag(next, apiVersion, args[1..], name);
    }
  }

  lemma {:induction false} SetArgsRead(doc: Fields, apiVersion: string, args: seq<KubeletArg>, k: nat)
    requires SetArgs(doc, apiVersion, args).Some? && Distinct(args) && k < |args|
    ensures Flags(SetArgs(doc, apiVersion, args).value, args[k].name) == Replaced(Flags(doc, args[k].name), args[k].value)
    decreases |args|
  {
    var next := SetArg(doc, apiVersion, args[0].name, args[0].value).value;
    assert forall i :: 0 <= i < |args[1..]| ==> args[1..][i] == args[i + 1];
    SetArgReads(doc, apiVersion, args[0].name, args[0].value, args[k].name);
    if k == 0 {
      SetArgsKeepFlag(next, apiVersion, args[1..], args[0].name);
    } else {
      SetArgsRead(next, apiVersion, args[1..], k - 1);
    }
  }

  lemma {:induction false} SetArgsKeepOthers(doc: Fields, apiVersion: string, args: seq<KubeletArg>, q: seq<string>)
    requires SetArgs(doc, apiVersion, args).Some? && Apart(ArgsPath, q)
    ensures Get(Map(SetArgs(doc, apiVersion, args).value), q) == Get(Map(doc), q)
    decreases |args|
  {
    if args != [] {
      SetArgKeepsOthers(doc, apiVersion, args[0].name, args[0].value, q);
      SetArgsKeepOthers(SetArg(doc, apiVersion, args[0].name, args[0].value).value, apiVersion, args[1..], q);
    }
  }

  lemma {:induction false} SetArgsAgainIsNothing(doc: Fields, apiVersion: string, args: seq<KubeletArg>)
    requires forall k :: 0 <= k < |args| ==> Flags(doc, args[k].name) != [] && Flags(doc, args[k].name)[0] == Some(Text(args[k].value))
    ensures SetArgs(doc, apiVersion, args) == Some(doc)
    decreases |args|
  {
    if args != [] {
      SetArgAgainIsNothing(doc, apiVersion, args[0].name, args[0].value);
      SetArgsAgainIsNothing(doc, apiVersion, args[1..]);
    }
  }

  predicate TakesFlags(doc: Fields) {
    ExtraArgs(doc).List? || ExtraArgs(doc).Map? || ExtraArgs(doc).Null?
  }

  lemma {:induction false} SetArgsSucceedIff(doc: Fields, apiVersion: string, args: seq<KubeletArg>)
    ensures SetArgs(doc, apiVersion, args).Some? <==> args == [] || TakesFlags(doc)
    decreases |args|
  {
    if args != [] && TakesFlags(doc) {
      SetArgsSucceedIff(SetArg(doc, apiVersion, args[0].name, args[0].value).value, apiVersion, args[1..]);
    }
  }

  // ---- the whole patch

  /** Only nodeRegistration is touched by flags, so the endpoint is where it was. */
  lemma {:induction false} FlagsKeepKeys(doc: Fields, apiVersion: string, args: seq<KubeletArg>, key: string)
    requires SetArgs(doc, apiVersion, args).Some? && key != "nodeRegistration"
    ensures
      var after := SetArgs(doc, apiVersion, args).value;
      (key in after <==> key in doc) && (key in doc ==> after[key] == doc[key])
    decreases |args|
  {
    if args != [] {
      FlagsKeepKeys(SetArg(doc, apiVersion, args[0].name, args[0].value).value, apiVersion, args[1..], key);
    }
  }

  lemma {:induction false} SetKeepsKeys(doc: Fields, path: seq<string>, value: string, key: string)
    requires path != [] && SetAt(doc, path, value).Some? && key != path[0]
    ensures
      var after := SetAt(doc, path, value).value;
      (key in after <==> key in doc) && (key in doc ==> after[key] == doc[key])
  {
  }

  lemma {:induction false} EndpointStays(doc: Fields, patch: Patch)
    requires SetArgs(doc, TextOf(doc, "apiVersion"), patch.kubeletArgs).Some?
    ensures
      var flagged := SetArgs(doc, TextOf(doc, "apiVersion"), patch.kubeletArgs).value;
      var kind := TextOf(doc, "kind");
      && EndpointPath(flagged, kind) == EndpointPath(doc, kind)
      && (EndpointPath(doc, kind).Some? ==> Blocked(flagged, EndpointPath(doc, kind).value) == Blocked(doc, EndpointPath(doc, kind).value))
  {
    var kind := TextOf(doc, "kind");
    var flagged := SetArgs(doc, TextOf(doc, "apiVersion"), patch.kubeletArgs).value;
    FlagsKeepKeys(doc, TextOf(doc, "apiVersion"), patch.kubeletArgs, "controlPlane");
    FlagsKeepKeys(doc, TextOf(doc, "apiVersion"), patch.kubeletArgs, "localAPIEndpoint");
  }

  /** A patch succeeds exactly when kubeletExtraArgs is a list, a mapping or nothing,
      and nothing stands in the way of the address it has to write. */
  lemma {:induction false} PatchSucceedsIff(doc: Fields, patch: Patch)
    ensures PatchDocument(doc, patch).Some? <==>
            && (patch.kubeletArgs == [] || TakesFlags(doc))
            && (patch.advertiseAddress == "" || EndpointPath(doc, TextOf(doc, "kind")).None?
                || !Blocked(doc, EndpointPath(doc, TextOf(doc, "kind")).value))
  {
    var apiVersion, kind := TextOf(doc, "apiVersion"), TextOf(doc, "kind");
    SetArgsSucceedIff(doc, apiVersion, patch.kubeletArgs);
    if SetArgs(doc, apiVersion, patch.kubeletArgs).Some? {
      var flagged := SetArgs(doc, apiVersion, patch.kubeletArgs).value;
      EndpointStays(doc, patch);
      if EndpointPath(doc, kind).Some? { SetFailsIffBlocked(flagged, EndpointPath(doc, kind).value, patch.advertiseAddress); }
    }
  }

  /** Writing the address leaves nodeRegistration, and with it every flag, alone. */
  lemma {:induction false} AddressKeepsFlags(doc: Fields, kind: string, address: string, name: string)
    requires SetAdvertiseAddress(doc, kind, address).Some?
    ensures Flags(SetAdvertiseAddress(doc, kind, address).value, name) == Flags(doc, name)
  {
    if EndpointPath(doc, kind).Some? { SetKeepsKeys(doc, EndpointPath(doc, kind).value, address, "nodeRegistration"); }
  }

  /** A successful patch reads back, flag by flag: each holds its value, exactly once
      if it occurred at most once before, and no other flag changes. */
  lemma {:induction false} PatchedFlagsReadBack(doc: Fields, patch: Patch, k: nat, other: string)
    requires PatchDocument(doc, patch).Some? && Distinct(patch.kubeletArgs)
    ensures k < |patch.kubeletArgs| ==>
              Flags(PatchDocument(doc, patch).value, patch.kubeletArgs[k].name)
              == Replaced(Flags(doc, patch.kubeletArgs[k].name), patch.kubeletArgs[k].value)
    ensures k < |patch.kubeletArgs| && |Flags(doc, patch.kubeletArgs[k].name)| <= 1 ==>
              Flags(PatchDocument(doc, patch).value, patch.kubeletArgs[k].name) == [Some(Text(patch.kubeletArgs[k].value))]
    ensures !Named(patch.kubeletArgs, other) ==> Flags(PatchDocument(doc, patch).value, other) == Flags(doc, other)
  {
    var apiVersion, kind := TextOf(doc, "apiVersion"), TextOf(doc, "kind");
    var flagged := SetArgs(doc, apiVersion, patch.kubeletArgs).value;
    if k < |patch.kubeletArgs| {
      SetArgsRead(doc, apiVersion, patch.kubeletArgs, k);
      if patch.advertiseAddress != "" { AddressKeepsFlags(flagged, kind, patch.advertiseAddress, patch.kubeletArgs[k].name); }
    }
    if !Named(patch.kubeletArgs, other) {
      SetArgsKeepFlag(doc, apiVersion, patch.kubeletArgs, other);
      if patch.advertiseAddress != "" { AddressKeepsFlags(flagged, kind, patch.advertiseAddress, other); }
    }
  }

  /** The address is written for an init and for a control-plane join, and nowhere else. */
  lemma {:induction false} PatchedAddressReadsBack(doc: Fields, patch: Patch)
    requires PatchDocument(doc, patch).Some? && patch.advertiseAddress != ""
    ensures
      var after, kind := PatchDocument(doc, patch).value, TextOf(doc, "kind");
      && (kind == "InitConfiguration" ==>
            Get(Map(after), ["localAPIEndpoint", "advertiseAddress"]) == Some(Text(patch.advertiseAddress)))
      && (kind == "JoinConfiguration" && "controlPlane" in doc ==>
            Get(Map(after), ["controlPlane", "localAPIEndpoint", "advertiseAddress"]) == Some(Text(patch.advertiseAddress)))
      && (kind == "JoinConfiguration" && "controlPlane" !in doc ==> "controlPlane" !in after)
  {
    var apiVersion, kind := TextOf(doc, "apiVersion"), TextOf(doc, "kind");
    var flagged := SetArgs(doc, apiVersion, patch.kubeletArgs).value;
    EndpointStays(doc, patch);
    FlagsKeepKeys(doc, apiVersion, patch.kubeletArgs, "controlPlane");
    if EndpointPath(doc, kind).Some? { SetReadsBack(flagged, EndpointPath(doc, kind).value, patch.advertiseAddress); }
  }

  /** Every path apart from kubeletExtraArgs, if there are flags to set, and from the
      address, if there is one to write, is as it was. */
  lemma {:induction false} PatchKeepsOthers(doc: Fields, patch: Patch, q: seq<string>)
    requires PatchDocument(doc, patch).Some?
    requires patch.kubeletArgs != [] ==> Apart(ArgsPath, q)
    requires patch.advertiseAddress != "" && EndpointPath(doc, TextOf(doc, "kind")).Some? ==>
               Apart(EndpointPath(doc, TextOf(doc, "kind")).value, q)
    ensures Get(Map(PatchDocument(doc, patch).value), q) == Get(Map(doc), q)
  {
    var apiVersion, kind := TextOf(doc, "apiVersion"), TextOf(doc, "kind");
    var flagged := SetArgs(doc, apiVersion, patch.kubeletArgs).value;
    if patch.kubeletArgs != [] { SetArgsKeepOthers(doc, apiVersion, patch.kubeletArgs, q); }
    EndpointStays(doc, patch);
    if patch.advertiseAddress != "" && EndpointPath(doc, kind).Some? {
      SetKeepsOthers(flagged, EndpointPath(doc, kind).value, patch.advertiseAddress, q);
    }
  }

  lemma {:induction false} PatchKeepsIdentity(doc: Fields, patch: Patch)
    requires PatchDocument(doc, patch).Some?
    ensures
      var after := PatchDocument(doc, patch).value;
      TextOf(after, "apiVersion") == TextOf(doc, "apiVersion") && TextOf(after, "kind") == TextOf(doc, "kind")
  {
    var apiVersion, kind := TextOf(doc, "apiVersion"), TextOf(doc, "kind");
    var flagged := SetArgs(doc, apiVersion, patch.kubeletArgs).value;
    FlagsKeepKeys(doc, apiVersion, patch.kubeletArgs, "apiVersion");
    FlagsKeepKeys(doc, apiVersion, patch.kubeletArgs, "kind");
    EndpointStays(doc, patch);
    if patch.advertiseAddress != "" && EndpointPath(doc, kind).Some? {
      SetKeepsKeys(flagged, EndpointPath(doc, kind).value, patch.advertiseAddress, "apiVersion");
      SetKeepsKeys(flagged, EndpointPath(doc, kind).value, patch.advertiseAddress, "kind");
    }
  }

  lemma {:induction false} EndpointPathStays(doc: Fields, patch: Patch)
    requires PatchDocument(doc, patch).Some?
    ensures EndpointPath(PatchDocument(doc, patch).value, TextOf(doc, "kind")) == EndpointPath(doc, TextOf(doc, "kind"))
  {
    var apiVersion, kind := TextOf(doc, "apiVersion"), TextOf(doc, "kind");
    FlagsKeepKeys(doc, apiVersion, patch.kubeletArgs, "controlPlane");
    EndpointStays(doc, patch);
  }

  /** Patching a patched document changes nothing. */
  lemma {:induction false} PatchTwiceIsPatchOnce(doc: Fields, patch: Patch)
    requires PatchDocument(doc, patch).Some? && Distinct(patch.kubeletArgs)
    ensures PatchDocument(PatchDocument(doc, patch).value, patch) == PatchDocument(doc, patch)
  {
    var after, kind := PatchDocument(doc, patch).value, TextOf(doc, "kind");
    PatchKeepsIdentity(doc, patch);
    forall k | 0 <= k < |patch.kubeletArgs|
      ensures Flags(after, patch.kubeletArgs[k].name) != []
              && Flags(after, patch.kubeletArgs[k].name)[0] == Some(Text(patch.kubeletArgs[k].value))
    {
      PatchedFlagsReadBack(doc, patch, k, "");
    }
    SetArgsAgainIsNothing(after, TextOf(after, "apiVersion"), patch.kubeletArgs);
    if patch.advertiseAddress != "" {
      EndpointPathStays(doc, patch);
      if EndpointPath(doc, kind).Some? {
        PatchedAddressReadsBack(doc, patch);
        SetAgainIsNothing(after, EndpointPath(doc, kind).value, patch.advertiseAddress);
      }
    }
  }

  /** A document that set neither flag twice ends up with the provider ID and the node
      address pinned, once each, with every other flag it had, and with its own address
      where it has an API server. */
  lemma {:induction false} MachineIsPinned(doc: Fields, providerID: string, address: string, other: string)
    requires PatchDocument(doc, PatchFor(providerID, address)).Some? && providerID != "" && address != ""
    requires |Flags(doc, "provider-id")| <= 1 && |Flags(doc, "node-ip")| <= 1
    ensures
      var after := PatchDocument(doc, PatchFor(providerID, address)).value;
      && Flags(after, "provider-id") == [Some(Text(providerID))]
      && Flags(after, "node-ip") == [Some(Text(address))]
      && (other != "provider-id" && other != "node-ip" ==> Flags(after, other) == Flags(doc, other))
      && (TextOf(doc, "kind") == "InitConfiguration" ==>
            Get(Map(after), ["localAPIEndpoint", "advertiseAddress"]) == Some(Text(address)))
      && (TextOf(doc, "kind") == "JoinConfiguration" && "controlPlane" in doc ==>
            Get(Map(after), ["controlPlane", "localAPIEndpoint", "advertiseAddress"]) == Some(Text(address)))
      && PatchDocument(after, PatchFor(providerID, address)) == Some(after)
  {
    var patch := PatchFor(providerID, address);
    assert patch.kubeletArgs == [KubeletArg("provider-id", providerID), KubeletArg("node-ip", address)];
    PatchedFlagsReadBack(doc, patch, 0, other);
    PatchedFlagsReadBack(doc, patch, 1, other);
    PatchedAddressReadsBack(doc, patch);
    PatchTwiceIsPatchOnce(doc, patch);
  }

  /** What is not known is not pinned. */
  lemma {:induction false} PatchForMeans(providerID: string, address: string)
    ensures Named(PatchFor(providerID, address).kubeletArgs, "provider-id") <==> providerID != ""
    ensures Named(PatchFor(providerID, address).kubeletArgs, "node-ip") <==> address != ""
    ensures PatchFor(providerID, address).advertiseAddress == address
    ensures Distinct(PatchFor(providerID, address).kubeletArgs)
  {
    var args := PatchFor(providerID, address).kubeletArgs;
    if providerID != "" { assert args[0].name == "provider-id"; }
    if address != "" { assert args[|args| - 1].name == "node-ip"; }
  }

  // ---- list or mapping

  /** The API versions whose kubeletExtraArgs is a mapping. */
  predicate MapVersion(apiVersion: string) {
    apiVersion == "kubeadm.k8s.io/v1beta1" || apiVersion == "kubeadm.k8s.io/v1beta2" || apiVersion == "kubeadm.k8s.io/v1beta3"
  }

  /** What stands at nodeRegistration.kubeletExtraArgs. */
  function ArgsAt(doc: Fields): Option<Value> {
    Get(Map(doc), ["nodeRegistration", "kubeletExtraArgs"])
  }

  /** The form kubeletExtraArgs ends up in: what it was, and where there was nothing, a
      mapping for the versions that read one and a list for all others. */
  ghost predicate RightForm(before: Option<Value>, apiVersion: string, after: Option<Value>) {
    && (before.Some? && before.value.List? ==> after.Some? && after.value.List?)
    && (before.Some? && before.value.Map? ==> after.Some? && after.value.Map?)
    && (before.None? || before.value.Null? ==> after.Some? && (if MapVersion(apiVersion) then after.value.Map? else after.value.List?))
  }

  lemma {:induction false} VersionDecides(apiVersion: string)
    requires ApiGroup <= apiVersion
    ensures UsesArgList(apiVersion) <==> !MapVersion(apiVersion)
  {
    var version := apiVersion[|ApiGroup|..];
    assert apiVersion == ApiGroup + version;
    assert ApiGroup + "v1beta1" == "kubeadm.k8s.io/v1beta1";
    assert ApiGroup + "v1beta2" == "kubeadm.k8s.io/v1beta2";
    assert ApiGroup + "v1beta3" == "kubeadm.k8s.io/v1beta3";
    assert "kubeadm.k8s.io/v1beta1"[|ApiGroup|..] == "v1beta1";
    assert "kubeadm.k8s.io/v1beta2"[|ApiGroup|..] == "v1beta2";
    assert "kubeadm.k8s.io/v1beta3"[|ApiGroup|..] == "v1beta3";
  }

  lemma {:induction false} ArgsAtMeans(doc: Fields)
    ensures ArgsAt(doc) == None ==> ExtraArgs(doc) == Null
    ensures ArgsAt(doc).Some? ==> ExtraArgs(doc) == ArgsAt(doc).value
  {
    var path := ["nodeRegistration", "kubeletExtraArgs"];
    assert path[1..] == ["kubeletExtraArgs"] && path[1..][1..] == [];
  }

  lemma {:induction false} SetArgForm(doc: Fields, apiVersion: string, name: string, value: string)
    requires ApiGroup <= apiVersion && SetArg(doc, apiVersion, name, value).Some?
    ensures RightForm(ArgsAt(doc), apiVersion, ArgsAt(SetArg(doc, apiVersion, name, value).value))
  {
    VersionDecides(apiVersion);
    ArgsAtMeans(doc);
    var after := SetArg(doc, apiVersion, name, value).value;
    var path := ["nodeRegistration", "kubeletExtraArgs"];
    assert path[1..] == ["kubeletExtraArgs"] && path[1..][1..] == [];
    assert ArgsAt(after).Some?;
    ArgsAtMeans(after);
  }

  lemma {:induction false} SetArgsForm(doc: Fields, apiVersion: string, args: seq<KubeletArg>)
    requires ApiGroup <= apiVersion && SetArgs(doc, apiVersion, args).Some? && args != []
    ensures RightForm(ArgsAt(doc), apiVersion, ArgsAt(SetArgs(doc, apiVersion, args).value))
    decreases |args|
  {
    var next := SetArg(doc, apiVersion, args[0].name, args[0].value).value;
    SetArgForm(doc, apiVersion, args[0].name, args[0].value);
    if |args| > 1 { SetArgsForm(next, apiVersion, args[1..]); } else { assert args[1..] == []; }
  }

  /** A patch with flags leaves kubeletExtraArgs in the form kubeadm reads. */
  lemma {:induction false} PatchedArgsHaveRightForm(doc: Fields, patch: Patch)
    requires PatchDocument(doc, patch).Some? && IsKubeadmConfig(doc) && patch.kubeletArgs != []
    ensures RightForm(ArgsAt(doc), TextOf(doc, "apiVersion"), ArgsAt(PatchDocument(doc, patch).value))
  {
    var apiVersion, kind := TextOf(doc, "apiVersion"), TextOf(doc, "kind");
    var flagged := SetArgs(doc, apiVersion, patch.kubeletArgs).value;
    SetArgsForm(doc, apiVersion, patch.kubeletArgs);
    if patch.advertiseAddress != "" && EndpointPath(flagged, kind).Some? {
      SetKeepsKeys(flagged, EndpointPath(flagged, kind).value, patch.advertiseAddress, "nodeRegistration");
      KeysDecide(flagged, PatchDocument(doc, patch).value);
    }
  }

  lemma {:induction false} KeysDecide(doc: Fields, after: Fields)
    requires "nodeRegistration" in after <==> "nodeRegistration" in doc
    requires "nodeRegistration" in doc ==> after["nodeRegistration"] == doc["nodeRegistration"]
    ensures ArgsAt(after) == ArgsAt(doc)
  {
  }
}
