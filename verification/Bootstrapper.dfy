/** Status, Start and Reset as the code they are: remote commands one after another,
    each of which may fail or be cut, while launched scripts exit when they like
    (internal/provisioner/provisioner.go).  Every command is an event of the host-side
    machine, so what holds of every run of that machine holds of this code. */
module Bootstrapper {
  import opened Objects
  import opened Provisioner

  /** How a remote command goes: it works, or the connection is lost before it, in the
      middle of a write, or after it but before the answer. */
  datatype Outcome = Works | LostBefore | LostDuring(kept: nat) | LostAfter

  /** The scripts that exit before a command, and how the command goes. */
  datatype Fate = Fate(exits: seq<(nat, int)>, outcome: Outcome)

  datatype Answer = Present | Absent | NoAnswer

  /** What a host must have before anything is written to it. */
  const requiredCommands := ["bash", "base64", "install", "setsid", "systemctl", "kubeadm", "kubelet"]

  datatype Readiness = Ready | NotRoot | Lacks(commands: seq<string>) | Broken

  function Lacking(commands: seq<string>, has: string -> Answer): seq<string> {
    if commands == [] then []
    else
      var last := commands[|commands| - 1];
      Lacking(commands[..|commands| - 1], has) + (if has(last) == Absent then [last] else [])
  }

  /** The login is root's, and every required command answers. */
  predicate MayStart(uid: Option<string>, has: string -> Answer) {
    && uid == Some("0")
    && has("bash") == Present && has("base64") == Present && has("install") == Present && has("setsid") == Present
    && has("systemctl") == Present && has("kubeadm") == Present && has("kubelet") == Present
  }

  lemma {:induction false} MayStartMeans(uid: Option<string>, has: string -> Answer)
    ensures MayStart(uid, has) <==> uid == Some("0") && forall i :: 0 <= i < |requiredCommands| ==> has(requiredCommands[i]) == Present
  {
    var c := requiredCommands;
    assert c[0] == "bash" && c[1] == "base64" && c[2] == "install" && c[3] == "setsid";
    assert c[4] == "systemctl" && c[5] == "kubeadm" && c[6] == "kubelet" && |c| == 7;
  }

  /** The commands a host lacks, in order; None when a probe gets no answer. */
  method FindMissing(commands: seq<string>, has: string -> Answer) returns (missing: Option<seq<string>>)
    ensures missing.None? <==> exists i :: 0 <= i < |commands| && has(commands[i]) == NoAnswer
    ensures missing.Some? ==> missing.value == Lacking(commands, has)
    ensures missing.Some? ==> forall c :: c in missing.value <==> c in commands && has(c) == Absent
    ensures missing == Some([]) <==> forall i :: 0 <= i < |commands| ==> has(commands[i]) == Present
  {
    var found := [];
    for i := 0 to |commands|
      invariant found == Lacking(commands[..i], has)
      invariant forall j :: 0 <= j < i ==> has(commands[j]) != NoAnswer
      invariant forall c :: c in found <==> c in commands[..i] && has(c) == Absent
      invariant found == [] <==> forall j :: 0 <= j < i ==> has(commands[j]) == Present
    {
      assert commands[..i + 1][..i] == commands[..i];
      assert commands[..i + 1] == commands[..i] + [commands[i]];
      var answer := has(commands[i]);
      if answer == NoAnswer { return None; }
      if answer == Absent { found := found + [commands[i]]; }
    }
    assert commands[..|commands|] == commands;
    missing := Some(found);
  }

  /** preflight: ready exactly for root with every required command there; what is
      missing is listed in full and in order. */
  method Preflight(uid: Option<string>, has: string -> Answer) returns (r: Readiness)
    ensures r == Ready <==> MayStart(uid, has)
    ensures r == NotRoot <==> uid.Some? && uid != Some("0")
    ensures r.Lacks? ==> r.commands == Lacking(requiredCommands, has) && r.commands != []
    ensures r.Lacks? ==> forall c :: c in r.commands <==> c in requiredCommands && has(c) == Absent
    ensures r == Broken <==> uid.None? || (uid == Some("0") && exists i :: 0 <= i < |requiredCommands| && has(requiredCommands[i]) == NoAnswer)
  {
    MayStartMeans(uid, has);
    if uid.None? { return Broken; }
    if uid.value != "0" { return NotRoot; }
    var missing := FindMissing(requiredCommands, has);
    if missing.None? { return Broken; }
    return if |missing.value| > 0 then Lacks(missing.value) else Ready;
  }

  /** A connection to one host, on which one script is wanted. */
  class Connection {
    var site: Site
    var fates: seq<Fate>
    const script: string
    const sum: string
    ghost const origin: Site
    ghost var trace: seq<Event>

    ghost predicate Valid()
      reads this
    {
      sum != "" && origin.stage == None && site == Play(origin, script, sum, trace)
    }

    constructor (site: Site, script: string, sum: string, fates: seq<Fate>)
      requires sum != "" && site.stage == None
      ensures Valid() && this.site == site && this.script == script && this.sum == sum
    {
      this.site, this.fates, this.script, this.sum := site, fates, script, sum;
      this.origin, this.trace := site, [];
    }

    /** The host was clean of this checksum, and no older script was still running. */
    ghost predicate Clean()
      reads this
    {
      Valid() && AllExited(origin.launches) && origin.disk.checksum != sum
    }

    /** The script's own launch, if there was one. */
    ghost predicate Launched()
      reads this
    {
      |site.launches| == |origin.launches| + 1
    }

    /** Whatever this code did on the host since it was clean of this checksum: at
        most one launch, of this script, and Status reports exactly what became of it. */
    lemma {:induction false} Sound()
      requires Clean()
      ensures |site.launches| <= |origin.launches| + 1
      ensures |site.launches| > |origin.launches| ==> site.launches[|origin.launches|].script == script
      ensures StatusOf(site.disk, sum) == Succeeded <==> Launched() && site.launches[|origin.launches|].exited == Some(0)
      ensures Launched() && site.launches[|origin.launches|].exited == None ==> StatusOf(site.disk, sum) == Running
      ensures StatusOf(site.disk, sum) == Idle <==> site.disk.checksum != sum
    {
      LaunchedAtMostOnce(origin, script, sum, trace);
      OutcomeIsTheScripts(origin, script, sum, trace);
      OutcomeIsReported(origin, script, sum, trace);
    }

    /** Something happens on the host. */
    method Occur(e: Event)
      requires Valid()
      modifies this`site, this`trace
      ensures Valid() && site == Happen(old(site), script, sum, e)
    {
      PlayConcat(origin, script, sum, trace, [e]);
      PlayOne(site, script, sum, e);
      site := Happen(site, script, sum, e);
      trace := trace + [e];
    }

    /** The time before a command: scripts may exit, and the command may never run.
        Only the runners' own records change. */
    method Await() returns (fate: Fate)
      requires Valid()
      modifies this`site, this`trace, this`fates
      ensures Valid() && site.stage == old(site).stage
      ensures site.disk == old(site).disk.(exit := site.disk.exit)
      ensures |site.launches| == |old(site).launches|
      ensures old(site).disk.exit.Missing? || old(site).disk.exit.Code? ==> site.disk.exit.Missing? || site.disk.exit.Code?
      ensures old(fates) == [] ==> site == old(site) && fates == [] && fate.outcome == Works
    {
      fate := Fate([], Works);
      if fates == [] { return; }
      fate := fates[0];
      fates := fates[1..];
      for i := 0 to |fate.exits|
        invariant Valid() && site.stage == old(site).stage
        invariant site.disk == old(site).disk.(exit := site.disk.exit)
        invariant |site.launches| == |old(site).launches|
        invariant old(site).disk.exit.Missing? || old(site).disk.exit.Code? ==> site.disk.exit.Missing? || site.disk.exit.Code?
      {
        Occur(Exit(fate.exits[i].0, fate.exits[i].1));
      }
    }

    /** Status: two reads, with the run free to end between them.  What it says is
        what the files say when it returns; None is a lost connection. */
    method Status() returns (r: Option<Provisioner.Status>)
      requires Valid()
      modifies this`site, this`trace, this`fates
      ensures Valid() && site.stage == old(site).stage && |site.launches| == |old(site).launches|
      ensures site.disk.checksum == old(site).disk.checksum
      ensures r.Some? ==> r.value == StatusOf(site.disk, sum)
      ensures Clean() && r.Some? ==> (r.value == Succeeded <==> Launched() && site.launches[|origin.launches|].exited == Some(0))
      ensures Clean() && r.Some? && Launched() ==>
                (match site.launches[|origin.launches|].exited
                 case None => r.value == Running
                 case Some(code) => code != 0 ==> r.value == Failed(code))
      ensures old(fates) == [] ==> r.Some? && site == old(site) && fates == []
    {
      r := Look();
      if Clean() { OutcomeIsReported(origin, script, sum, trace); Sound(); }
    }

    /** The two reads. */
    method Look() returns (r: Option<Provisioner.Status>)
      requires Valid()
      modifies this`site, this`trace, this`fates
      ensures Valid() && site.stage == old(site).stage && |site.launches| == |old(site).launches|
      ensures site.disk.checksum == old(site).disk.checksum
      ensures r.Some? ==> r.value == StatusOf(site.disk, sum)
      ensures old(fates) == [] ==> r.Some? && site == old(site) && fates == []
    {
      var fate := Await();
      if fate.outcome != Works { return None; }
      var recorded := site.disk.checksum;
      if recorded == "" || recorded != sum { return Some(Idle); }
      fate := Await();
      if fate.outcome != Works { return None; }
      match site.disk.exit
      case Missing => return Some(Running);
      case Unreadable => return Some(Error);
      case Code(code) => return Some(if code == 0 then Succeeded else Failed(code));
    }

    /** One remote command of Start, or the end of the attempt. */
    method Command() returns (ok: bool)
      requires Valid() && site.stage.Some?
      modifies this`site, this`trace, this`fates
      ensures Valid()
      ensures ok ==> site.stage == (if old(site).stage == Some(Marked) then None else Some(After(old(site).stage.value)))
      ensures |site.launches| <= |old(site).launches| + (if old(site).stage == Some(Marked) then 1 else 0)
      ensures ok ==> |site.launches| == |old(site).launches| + (if old(site).stage == Some(Marked) then 1 else 0)
      ensures !ok ==> site.stage == None && |site.launches| >= |old(site).launches|
      ensures old(fates) == [] ==> ok && fates == []
    {
      var fate := Await();
      match fate.outcome
      case Works =>
        Occur(Provisioner.Command);
        return true;
      case LostBefore =>
        Occur(Cut);
        return false;
      case LostDuring(kept) =>
        Occur(Torn(kept));
        return false;
      case LostAfter =>
        Occur(Provisioner.Command);
        Occur(Cut);
        return false;
    }

    /** What Start does once preflight has passed. */
    method Upload() returns (ok: bool)
      requires Valid() && site.stage == Some(Checked)
      modifies this`site, this`trace, this`fates
      ensures Valid() && site.stage == None
      ensures |old(site).launches| <= |site.launches| <= |old(site).launches| + 1
      ensures ok ==> |site.launches| == |old(site).launches| + 1
      ensures old(fates) == [] ==> ok
    {
      ok := Command();             // rm: the exit code
      if ok { ok := Command(); }   // and the checksum
      if ok { ok := Command(); }   // bootstrap.sh
      if ok { ok := Command(); }   // run.sh
      if ok { ok := Command(); }   // checksum
      if ok { ok := Command(); }   // launch
    }

    /** Start: runBootstrap calls it when Status has said Idle.  When it reports success
        the wanted script has been launched, and Status no longer says Idle. */
    method Start(uid: Option<string>, has: string -> Answer) returns (ok: bool)
      requires Valid() && site.stage == None && StatusOf(site.disk, sum) == Idle
      modifies this`site, this`trace, this`fates
      ensures Valid() && site.stage == None
      ensures |old(site).launches| <= |site.launches| <= |old(site).launches| + 1
      ensures |site.launches| > |old(site).launches| ==> site.launches[|old(site).launches|].script == script
      ensures ok ==> |site.launches| == |old(site).launches| + 1 && StatusOf(site.disk, sum) != Idle
      ensures old(fates) == [] && MayStart(uid, has) ==> ok
    {
      PlayOnce(origin, script, sum, |origin.launches|, trace);
      var readiness := Preflight(uid, has);
      if readiness != Ready { return false; }
      Occur(Check);
      ok := Upload();
      PlayOnce(origin, script, sum, |origin.launches|, trace);
    }

    /** runBootstrap: look, and start only what is not there. */
    method RunBootstrap(uid: Option<string>, has: string -> Answer) returns (provisioned: bool)
      requires Valid() && site.stage == None
      modifies this`site, this`trace, this`fates
      ensures Valid() && site.stage == None
      ensures provisioned ==> StatusOf(site.disk, sum) == Succeeded
      ensures StatusOf(old(site).disk, sum) != Idle ==> |site.launches| == |old(site).launches|
      ensures |old(site).launches| <= |site.launches| <= |old(site).launches| + 1
      ensures |site.launches| > |old(site).launches| ==> site.launches[|old(site).launches|].script == script
      ensures old(fates) == [] && old(site).disk.checksum != sum && MayStart(uid, has) ==>
                |site.launches| == |old(site).launches| + 1
      ensures Clean() && provisioned ==> Launched() && site.launches[|origin.launches|].exited == Some(0)
      ensures Clean() && old(fates) == [] && |old(site).launches| == |origin.launches| + 1 ==>
                old(site).launches[|origin.launches|].exited == Some(0) ==> provisioned
    {
      var status := Status();
      provisioned := status == Some(Succeeded);
      if status == Some(Idle) {
        var ok := Start(uid, has);
      }
    }
  }

  function After(stage: Stage): Stage {
    match stage
    case Checked => ExitRemoved
    case ExitRemoved => Cleared
    case Cleared => ScriptWritten
    case ScriptWritten => RunnerWritten
    case RunnerWritten => Marked
    case Marked => Marked
  }
}
