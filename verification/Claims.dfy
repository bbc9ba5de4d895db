/** The host claim protocol: every API call of HostMachineReconciler
    (internal/controller/hostmachine_controller.go) and of HostReconciler
    (internal/controller/host_controller.go) is one step of one world, and steps of
    different objects interleave freely. */
module Claims {
  import opened Objects
  import Inventory

  /** Where one reconcile of a HostMachine stands.  `seen` is the Host object it
      last read or wrote, with the resourceVersion of that moment. */
  datatype Pass =
    | Begun(read: Machine)                                              // machine read, host not looked for
    | Walking(selector: Selector, list: map<string, Host>, rest: seq<string>) // fresh-claim loop
    | Recording(host: string, seen: Host)                               // about to write status.claimRef
    | Holding(host: string, seen: Host)                                 // claimHost returned this host
    | Finishing(ref: Option<string>)                                    // only the deferred patch is left
    | Deleting(ref: Option<string>)                                     // reconcileDelete entered
    | Resetting(host: string, seen: Host)                               // host read, reset over SSH
    | Clearing(host: string, seen: Host)                                // labels removed
    | Released(host: string)                                            // status cleared, machine not patched
    | Leaving                                                           // nothing left to release

  /** Where one reconcile of a Host stands. */
  datatype Probe =
    | Checking(seen: Host)              // being deleted and claimed: looking up the claimant
    | Probing(seen: Host)               // SSH probe running
    | Writing(seen: Host, phase: Phase) // phase decided, patch not sent
    | Removing                          // finalizer about to go

  datatype World = World(
    era: nat,
    clock: nat,
    hosts: map<string, Host>,
    hostNames: set<string>,
    machines: map<string, Machine>,
    machineNames: set<string>,
    passes: map<string, Pass>,
    probes: map<string, Probe>,
    confirmed: set<string>)  // hosts a probe answered on since they were last released

  /** What operators, Cluster API and clusterctl do to the store. */
  datatype Operation =
    | AddHost(host: string, labels: Labels, unhealthy: bool)
    | EditHost(host: string, labels: Labels, unhealthy: bool)
    | DeleteHost(host: string)
    | AddMachine(machine: string, selector: Selector)
    | DeleteMachine(machine: string)
    | Move

  /** The API calls of a HostMachine reconcile, and the ways it can end early. */
  datatype Call =
    | Begin
    | Look(order: seq<string>)
    | Walk
    | Record
    | MarkProvisioned
    | GiveUp
    | Patch
    | Crash
    | Fetch
    | Unlabel
    | Clear
    | Drop
    | LosePatch

  /** The steps of a Host reconcile. */
  datatype HostCall =
    | HostBegin
    | HostCheck
    | HostProbe(answers: bool)
    | HostWrite
    | HostRemove
    | HostCrash

  datatype Action =
    | Operate(op: Operation)
    | Reconcile(machine: string, call: Call)
    | Watch(host: string, step: HostCall)

  const Empty := World(0, 0, map[], {}, map[], {}, map[], map[], {})

  function Me(w: World, m: string): Uid {
    Uid(m, w.era)
  }

  // ---- reading the store

  predicate Ascending(order: seq<string>) {
    forall i, j :: 0 <= i < j < |order| ==> Inventory.Compare(order[i], order[j]) < 0
  }

  /** The pool in inventory order (SortHosts). */
  predicate InOrder(order: seq<string>, names: set<string>) {
    && Ascending(order)
    && (forall i :: 0 <= i < |order| ==> order[i] in names)
    && (forall h :: h in names ==> h in order)
  }

  function FirstClaimed(order: seq<string>, hosts: map<string, Host>, uid: Uid): (r: Option<string>)
    ensures r.Some? ==> r.value in order && r.value in hosts && hosts[r.value].claimRef == Some(uid)
    ensures r.None? ==> forall h :: h in order && h in hosts ==> hosts[h].claimRef != Some(uid)
  {
    if order == [] then None
    else if order[0] in hosts && hosts[order[0]].claimRef == Some(uid) then Some(order[0])
    else FirstClaimed(order[1..], hosts, uid)
  }

  function FirstLabelled(order: seq<string>, hosts: map<string, Host>, m: string): (r: Option<string>)
    ensures r.Some? ==> r.value in order && r.value in hosts && hosts[r.value].claimedBy == Some(m)
    ensures r.None? ==> forall h :: h in order && h in hosts ==> hosts[h].claimedBy != Some(m)
  {
    if order == [] then None
    else if order[0] in hosts && hosts[order[0]].claimedBy == Some(m) then Some(order[0])
    else FirstLabelled(order[1..], hosts, m)
  }

  /** Update and Status().Update commit only on the resourceVersion last seen. */
  predicate Fresh(w: World, h: string, seen: Host) {
    h in w.hosts && w.hosts[h].version == seen.version
  }

  // ---- writing the store

  function PutHost(w: World, h: string, host: Host): World {
    w.(hosts := w.hosts[h := host.(version := w.clock)], clock := w.clock + 1)
  }

  function SetPass(w: World, m: string, p: Pass): World {
    w.(passes := w.passes[m := p])
  }

  function EndPass(w: World, m: string): World {
    w.(passes := w.passes - {m})
  }

  function SetProbe(w: World, h: string, p: Probe): World {
    w.(probes := w.probes[h := p])
  }

  function EndProbe(w: World, h: string): World {
    w.(probes := w.probes - {h})
  }

  // ---- a HostMachine reconcile, one API call at a time

  function DoBegin(w: World, m: string): World
    requires m in w.machines
  {
    SetPass(w, m, if w.machines[m].deleting then Deleting(w.machines[m].hostRef) else Begun(w.machines[m]))
  }

  /** The reads of claimHost: the recorded host, or the list with both recoveries. */
  function LookPass(w: World, m: string, read: Machine, order: seq<string>): Pass {
    if read.hostRef.Some? then
      var h := read.hostRef.value;
      if h in w.hosts then Holding(h, w.hosts[h]) else Finishing(None)
    else
      match FirstClaimed(order, w.hosts, Me(w, m))
      case Some(h) => Holding(h, w.hosts[h])
      case None =>
        match FirstLabelled(order, w.hosts, m)
        case Some(h) => Recording(h, w.hosts[h])
        case None => Walking(read.selector, w.hosts, order)
  }

  function DoLook(w: World, m: string, order: seq<string>): World
    requires m in w.passes && w.passes[m].Begun?
  {
    SetPass(w, m, LookPass(w, m, w.passes[m].read, order))
  }

  /** One turn of the fresh-claim loop: skip, lose the race, or take the label. */
  function DoWalk(w: World, m: string): World
    requires m in w.passes && w.passes[m].Walking?
    requires forall h :: h in w.passes[m].rest ==> h in w.passes[m].list
  {
    var Walking(selector, list, rest) := w.passes[m];
    if rest == [] then SetPass(w, m, Finishing(None))
    else
      var h := rest[0];
      var seen := list[h];
      if !Eligible(seen, selector) then SetPass(w, m, Walking(selector, list, rest[1..]))
      else if h !in w.hosts then SetPass(w, m, Finishing(None))
      else if !Fresh(w, h, seen) then SetPass(w, m, Walking(selector, list, rest[1..]))
      else
        var w' := PutHost(w, h, seen.(claimedBy := Some(m)));
        SetPass(w', m, Recording(h, w'.hosts[h]))
  }

  function DoRecord(w: World, m: string): World
    requires m in w.passes && w.passes[m].Recording?
  {
    var Recording(h, seen) := w.passes[m];
    if Fresh(w, h, seen) then
      var w' := PutHost(w, h, seen.(claimRef := Some(Me(w, m)), phase := Claimed));
      SetPass(w', m, Holding(h, w'.hosts[h]))
    else SetPass(w, m, Finishing(None))
  }

  function DoMarkProvisioned(w: World, m: string): World
    requires m in w.passes && w.passes[m].Holding?
  {
    var Holding(h, seen) := w.passes[m];
    if seen.phase != Provisioned && Fresh(w, h, seen) then
      SetPass(PutHost(w, h, seen.(phase := Provisioned)), m, Finishing(Some(h)))
    else SetPass(w, m, Finishing(Some(h)))
  }

  /** What the reconcile's own copy of status.hostRef says at this point. */
  function LocalRef(p: Pass): Option<string> {
    match p
    case Begun(read) => read.hostRef
    case Walking(_, _, _) => None
    case Recording(_, _) => None
    case Holding(h, _) => Some(h)
    case Finishing(ref) => ref
    case Deleting(ref) => ref
    case Resetting(h, _) => Some(h)
    case Clearing(h, _) => Some(h)
    case Released(_) => None
    case Leaving => None
  }

  /** The deferred patch of a pass that is not a finished delete. */
  function DoPatch(w: World, m: string): World
    requires m in w.passes && w.passes[m].Finishing?
  {
    var w' := EndPass(w, m);
    if m in w.machines then
      w'.(machines := w.machines[m := w.machines[m].(hostRef := w.passes[m].ref, finalizer := true)])
    else w'
  }

  function DoFetch(w: World, m: string): World
    requires m in w.passes && w.passes[m].Deleting?
  {
    var ref := w.passes[m].ref;
    if ref.Some? && ref.value in w.hosts then SetPass(w, m, Resetting(ref.value, w.hosts[ref.value]))
    else SetPass(w, m, Leaving)
  }

  function DoUnlabel(w: World, m: string): World
    requires m in w.passes && w.passes[m].Resetting?
  {
    var Resetting(h, seen) := w.passes[m];
    if h !in w.hosts then SetPass(w, m, Clearing(h, seen.(claimedBy := None)))
    else if Fresh(w, h, seen) then
      var w' := PutHost(w, h, seen.(claimedBy := None));
      SetPass(w', m, Clearing(h, w'.hosts[h]))
    else SetPass(w, m, Finishing(Some(h)))
  }

  function DoClear(w: World, m: string): World
    requires m in w.passes && w.passes[m].Clearing?
  {
    var Clearing(h, seen) := w.passes[m];
    if h !in w.hosts then SetPass(w, m, Released(h))
    else if Fresh(w, h, seen) then
      var w' := PutHost(w, h, seen.(claimRef := None, phase := Pending));
      SetPass(w'.(confirmed := w.confirmed - {h}), m, Released(h))
    else SetPass(w, m, Finishing(Some(h)))
  }

  /** The patch that ends a delete: the finalizer goes, and with it the object. */
  function DoDrop(w: World, m: string): World {
    EndPass(w, m).(machines := w.machines - {m})
  }

  // ---- a Host reconcile

  function DoHostBegin(w: World, h: string): World
    requires h in w.hosts
  {
    var seen := w.hosts[h];
    if seen.deleting then SetProbe(w, h, if seen.claimRef.Some? then Checking(seen) else Removing)
    else if seen.claimRef.Some? then w
    else if seen.unhealthy then SetProbe(w, h, Writing(seen, Unreachable))
    else SetProbe(w, h, Probing(seen))
  }

  function DoHostCheck(w: World, h: string): World
    requires h in w.probes && w.probes[h].Checking?
  {
    var claim := w.probes[h].seen.claimRef;
    if claim.Some? && claim.value.machine in w.machines then EndProbe(w, h) else SetProbe(w, h, Removing)
  }

  function DoHostProbe(w: World, h: string, answers: bool): World
    requires h in w.probes && w.probes[h].Probing?
  {
    var seen := w.probes[h].seen;
    if !answers then SetProbe(w, h, Writing(seen, Unreachable))
    else
      SetProbe(w, h, Writing(seen, if seen.claimedBy.Some? then Claimed else Available))
        .(confirmed := w.confirmed + {h})
  }

  /** The Host patch carries only what changed since the read, and no version. */
  function DoHostWrite(w: World, h: string): World
    requires h in w.probes && w.probes[h].Writing?
  {
    var Writing(seen, phase) := w.probes[h];
    if h !in w.hosts then EndProbe(w, h)
    else if phase == seen.phase then EndProbe(PutHost(w, h, w.hosts[h]), h)
    else EndProbe(PutHost(w, h, w.hosts[h].(phase := phase)), h)
  }

  function DoHostRemove(w: World, h: string): World {
    EndProbe(w, h).(hosts := w.hosts - {h})
  }

  /** clusterctl move: every object is created again, without status. */
  function DoMove(w: World): World {
    w.(era := w.era + 1,
       clock := w.clock + 1,
       hosts := map h | h in w.hosts :: w.hosts[h].(version := w.clock, claimRef := None, phase := Unset),
       machines := map m | m in w.machines :: w.machines[m].(hostRef := None),
       passes := map[],
       probes := map[],
       confirmed := {})
  }

  predicate CanOperate(w: World, op: Operation) {
    match op
    case AddHost(h, _, _) => h !in w.hostNames
    case EditHost(h, _, _) => h in w.hosts
    case DeleteHost(h) => h in w.hosts
    case AddMachine(m, _) => m !in w.machineNames
    case DeleteMachine(m) => m in w.machines
    case Move =>
      && (forall m :: m in w.machines ==> !w.machines[m].deleting)
      && (forall h :: h in w.hosts ==> !w.hosts[h].deleting)
  }

  function DoOperate(w: World, op: Operation): World
    requires CanOperate(w, op)
  {
    match op
    case AddHost(h, labels, unhealthy) =>
      PutHost(w, h, Host(0, labels, None, unhealthy, false, None, Unset)).(hostNames := w.hostNames + {h})
    case EditHost(h, labels, unhealthy) =>
      PutHost(w, h, w.hosts[h].(labels := labels, unhealthy := unhealthy))
    case DeleteHost(h) => PutHost(w, h, w.hosts[h].(deleting := true))
    case AddMachine(m, selector) =>
      w.(machines := w.machines[m := Machine(selector, false, false, None)],
         machineNames := w.machineNames + {m})
    case DeleteMachine(m) =>
      if w.machines[m].finalizer then w.(machines := w.machines[m := w.machines[m].(deleting := true)])
      else w.(machines := w.machines - {m})
    case Move => DoMove(w)
  }

  predicate CanReconcile(w: World, m: string, c: Call) {
    if c.Begin? then m in w.machines && m !in w.passes
    else
      && m in w.passes
      && match c
         case Look(order) => w.passes[m].Begun? && (w.passes[m].read.hostRef.None? ==> InOrder(order, w.hosts.Keys))
         case Walk => w.passes[m].Walking? && forall h :: h in w.passes[m].rest ==> h in w.passes[m].list
         case Record => w.passes[m].Recording?
         case MarkProvisioned => w.passes[m].Holding?
         case GiveUp => !w.passes[m].Released? && !w.passes[m].Leaving? && !w.passes[m].Finishing?
         case Patch => w.passes[m].Finishing?
         case Crash => !w.passes[m].Released?
         case Fetch => w.passes[m].Deleting?
         case Unlabel => w.passes[m].Resetting?
         case Clear => w.passes[m].Clearing?
         case Drop => w.passes[m].Released? || w.passes[m].Leaving?
         case LosePatch => w.passes[m].Released?
         case Begin => true
  }

  function DoReconcile(w: World, m: string, c: Call): World
    requires CanReconcile(w, m, c)
  {
    match c
    case Begin => DoBegin(w, m)
    case Look(order) => DoLook(w, m, order)
    case Walk => DoWalk(w, m)
    case Record => DoRecord(w, m)
    case MarkProvisioned => DoMarkProvisioned(w, m)
    case GiveUp => SetPass(w, m, Finishing(LocalRef(w.passes[m])))
    case Patch => DoPatch(w, m)
    case Crash => EndPass(w, m)
    case Fetch => DoFetch(w, m)
    case Unlabel => DoUnlabel(w, m)
    case Clear => DoClear(w, m)
    case Drop => DoDrop(w, m)
    case LosePatch => EndPass(w, m)
  }

  predicate CanWatch(w: World, h: string, c: HostCall) {
    if c.HostBegin? then h in w.hosts && h !in w.probes
    else
      && h in w.probes
      && match c
         case HostCheck => w.probes[h].Checking?
         case HostProbe(_) => w.probes[h].Probing?
         case HostWrite => w.probes[h].Writing?
         case HostRemove => w.probes[h].Removing?
         case _ => true
  }

  function DoWatch(w: World, h: string, c: HostCall): World
    requires CanWatch(w, h, c)
  {
    match c
    case HostBegin => DoHostBegin(w, h)
    case HostCheck => DoHostCheck(w, h)
    case HostProbe(answers) => DoHostProbe(w, h, answers)
    case HostWrite => DoHostWrite(w, h)
    case HostRemove => DoHostRemove(w, h)
    case HostCrash => EndProbe(w, h)
  }

  predicate Enabled(w: World, a: Action) {
    match a
    case Operate(op) => CanOperate(w, op)
    case Reconcile(m, c) => CanReconcile(w, m, c)
    case Watch(h, c) => CanWatch(w, h, c)
  }

  function Next(w: World, a: Action): World
    requires Enabled(w, a)
  {
    match a
    case Operate(op) => DoOperate(w, op)
    case Reconcile(m, c) => DoReconcile(w, m, c)
    case Watch(h, c) => DoWatch(w, h, c)
  }

  /** A step that cannot happen changes nothing. */
  function Step(w: World, a: Action): World {
    if Enabled(w, a) then Next(w, a) else w
  }

  function Run(w: World, actions: seq<Action>): World
    decreases |actions|
  {
    if actions == [] then w else Run(Step(w, actions[0]), actions[1..])
  }

  predicate LosesPatch(a: Action) {
    a.Reconcile? && a.call.LosePatch?
  }

  /** No reconcile died between clearing a host's status and patching its machine. */
  predicate NoLostPatch(actions: seq<Action>) {
    forall i :: 0 <= i < |actions| ==> !LosesPatch(actions[i])
  }
}
