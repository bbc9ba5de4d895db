/** The detached bootstrap run (internal/provisioner/provisioner.go): a state machine
    whose whole state is files on the host.  Every remote command is a step, and every
    step may be the last one of its attempt. */
module Provisioner {
  import opened Objects

  /** The exit-code file: absent or empty, a number, or something else. */
  datatype ExitFile = Missing | Code(code: int) | Unreadable

  /** The state directory; "" is a file that is absent or empty. */
  datatype Disk = Disk(checksum: string, exit: ExitFile, script: string, runner: string)

  /** A launched runner: its own text, the script it runs, and how that ended. */
  datatype Launch = Launch(runner: string, script: string, exited: Option<int>)

  datatype Status = Idle | Running | Succeeded | Failed(code: int) | Error

  /** How far the current Start got: after which of its commands. */
  datatype Stage = Checked | ExitRemoved | Cleared | ScriptWritten | RunnerWritten | Marked

  /** One host, and the attempt under way on it, if any. */
  datatype Site = Site(disk: Disk, launches: seq<Launch>, stage: Option<Stage>)

  /** Status: what the files say about the desired checksum. */
  function StatusOf(d: Disk, sum: string): Status {
    if d.checksum == "" || d.checksum != sum then Idle
    else
      match d.exit
      case Missing => Running
      case Unreadable => Error
      case Code(code) => if code == 0 then Succeeded else Failed(code)
  }

  /** The runner script Start writes names the checksum in its log line. */
  function RunnerFor(sum: string): string {
    "run.sh checksum=" + sum
  }

  datatype Event =
    | Check                    // Status; Start begins if it says Idle
    | Command                  // the next remote command of Start
    | Torn(kept: nat)          // the next write lands in part, and the attempt is cut
    | Cut                      // the attempt is cut between two commands
    | Exit(run: nat, code: int) // a launched script exits and its runner records it

  /** The commands of Start, in order. */
  function DoCommand(s: Site, script: string, sum: string): Site
    requires s.stage.Some?
  {
    match s.stage.value
    case Checked => s.(disk := s.disk.(exit := Missing), stage := Some(ExitRemoved))
    case ExitRemoved => s.(disk := s.disk.(checksum := ""), stage := Some(Cleared))
    case Cleared => s.(disk := s.disk.(script := script), stage := Some(ScriptWritten))
    case ScriptWritten => s.(disk := s.disk.(runner := RunnerFor(sum)), stage := Some(RunnerWritten))
    case RunnerWritten => s.(disk := s.disk.(checksum := sum), stage := Some(Marked))
    case Marked => s.(launches := s.launches + [Launch(s.disk.runner, s.disk.script, None)], stage := None)
  }

  function Prefix(text: string, kept: nat): string {
    if kept < |text| then text[..kept] else text
  }

  /** A write that is cut leaves a proper prefix behind. */
  function DoTorn(s: Site, script: string, sum: string, kept: nat): Site
    requires s.stage.Some?
  {
    var cut := s.(stage := None);
    match s.stage.value
    case Cleared => cut.(disk := s.disk.(script := Prefix(script, kept)))
    case ScriptWritten => cut.(disk := s.disk.(runner := Prefix(RunnerFor(sum), kept)))
    case RunnerWritten => if kept < |sum| then cut.(disk := s.disk.(checksum := Prefix(sum, kept))) else cut
    case _ => cut
  }

  function DoExit(s: Site, run: nat, code: int): Site
    requires run < |s.launches|
  {
    s.(launches := s.launches[run := s.launches[run].(exited := Some(code))], disk := s.disk.(exit := Code(code)))
  }

  /** One event on a host where script, with checksum sum, is what is wanted. */
  function Happen(s: Site, script: string, sum: string, e: Event): Site {
    match e
    case Check => if s.stage.None? && StatusOf(s.disk, sum) == Idle then s.(stage := Some(Checked)) else s
    case Command => if s.stage.Some? then DoCommand(s, script, sum) else s
    case Torn(kept) => if s.stage.Some? then DoTorn(s, script, sum, kept) else s
    case Cut => s.(stage := None)
    case Exit(run, code) => if run < |s.launches| && s.launches[run].exited.None? then DoExit(s, run, code) else s
  }

  function Play(s: Site, script: string, sum: string, events: seq<Event>): Site
    decreases |events|
  {
    if events == [] then s else Play(Happen(s, script, sum, events[0]), script, sum, events[1..])
  }

  // ---- at most one launch

  /** n launches are old.  A new one is there only if the checksum says so, and while
      an attempt has not written the checksum it has not launched either. */
  ghost predicate OnceInv(s: Site, script: string, sum: string, n: nat) {
    && (|s.launches| == n || (|s.launches| == n + 1 && s.disk.checksum == sum && s.stage.None? && s.launches[n].runner == RunnerFor(sum) && s.launches[n].script == script))
    && (s.stage.Some? ==>
          && |s.launches| == n
          && (s.stage.value == Marked <==> s.disk.checksum == sum)
          && (s.stage.value.ScriptWritten? || s.stage.value.RunnerWritten? || s.stage.value.Marked? ==> s.disk.script == script)
          && (s.stage.value.RunnerWritten? || s.stage.value.Marked? ==> s.disk.runner == RunnerFor(sum)))
  }

  lemma {:induction false} HappenOnce(s: Site, script: string, sum: string, n: nat, e: Event)
    requires sum != "" && OnceInv(s, script, sum, n)
    ensures OnceInv(Happen(s, script, sum, e), script, sum, n)
  {
  }

  lemma {:induction false} PlayOnce(s: Site, script: string, sum: string, n: nat, events: seq<Event>)
    requires sum != "" && OnceInv(s, script, sum, n)
    ensures OnceInv(Play(s, script, sum, events), script, sum, n)
    decreases |events|
  {
    if events != [] {
      PlayOnce(Happen(s, script, sum, events[0]), script, sum, n, events[1..]);
    }
  }

  /** Whatever older files are on the disk and wherever attempts are cut, a script is
      launched at most once for its checksum between two resets, it is that script,
      and not at all if the checksum was there to begin with. */
  lemma {:induction false} LaunchedAtMostOnce(s: Site, script: string, sum: string, events: seq<Event>)
    requires sum != "" && s.stage == None
    ensures
      var after := Play(s, script, sum, events);
      && |s.launches| <= |after.launches| <= |s.launches| + 1
      && (|after.launches| > |s.launches| ==> after.launches[|s.launches|].runner == RunnerFor(sum) && after.launches[|s.launches|].script == script)
      && (s.disk.checksum == sum ==> |after.launches| == |s.launches|)
  {
    PlayOnce(s, script, sum, |s.launches|, events);
    if s.disk.checksum == sum { PlayMarked(s, script, sum, events); }
  }

  lemma {:induction false} PlayMarked(s: Site, script: string, sum: string, events: seq<Event>)
    requires sum != "" && s.stage == None && s.disk.checksum == sum
    ensures
      var after := Play(s, script, sum, events);
      |after.launches| == |s.launches| && after.stage == None && after.disk.checksum == sum
    decreases |events|
  {
    if events != [] { PlayMarked(Happen(s, script, sum, events[0]), script, sum, events[1..]); }
  }

  // ---- the status only moves forward

  ghost predicate AllExited(launches: seq<Launch>) {
    forall i :: 0 <= i < |launches| ==> launches[i].exited.Some?
  }

  /** With no older run still going, the exit file says what the new run did. */
  ghost predicate OutcomeInv(s: Site, script: string, sum: string, n: nat) {
    && OnceInv(s, script, sum, n)
    && AllExited(s.launches[..n])
    && (s.stage.Some? && s.stage.value != Checked ==> s.disk.exit == Missing)
    && (|s.launches| == n + 1 ==>
          s.disk.exit == match s.launches[n].exited
                         case None => Missing
                         case Some(code) => Code(code))
  }

  /** Status moves from Idle to Running to one outcome, and stays there. */
  predicate Forward(a: Status, b: Status) {
    a == Idle || (a == Running && b != Idle) || a == b
  }

  lemma {:induction false} OldHaveExited(s: Site, n: nat)
    requires n <= |s.launches| && AllExited(s.launches[..n])
    ensures forall i :: 0 <= i < n ==> s.launches[i].exited.Some?
  {
    forall i | 0 <= i < n ensures s.launches[i].exited.Some? {
      assert s.launches[..n][i] == s.launches[i];
    }
  }

  lemma {:induction false} HappenForward(s: Site, script: string, sum: string, n: nat, e: Event)
    requires sum != "" && OutcomeInv(s, script, sum, n)
    ensures OutcomeInv(Happen(s, script, sum, e), script, sum, n)
    ensures Forward(StatusOf(s.disk, sum), StatusOf(Happen(s, script, sum, e).disk, sum))
  {
    var s' := Happen(s, script, sum, e);
    if e.Exit? && s' != s {
      OldHaveExited(s, n);
      assert s'.launches[..n] == s.launches[..n];
    } else {
      assert s'.launches[..n] == s.launches[..n];
    }
  }

  lemma {:induction false} PlayForward(s: Site, script: string, sum: string, n: nat, events: seq<Event>)
    requires sum != "" && OutcomeInv(s, script, sum, n)
    ensures OutcomeInv(Play(s, script, sum, events), script, sum, n)
    ensures Forward(StatusOf(s.disk, sum), StatusOf(Play(s, script, sum, events).disk, sum))
    decreases |events|
  {
    if events != [] {
      HappenForward(s, script, sum, n, events[0]);
      PlayForward(Happen(s, script, sum, events[0]), script, sum, n, events[1..]);
    }
  }

  lemma {:induction false} PlayConcat(s: Site, script: string, sum: string, a: seq<Event>, b: seq<Event>)
    ensures Play(s, script, sum, a + b) == Play(Play(s, script, sum, a), script, sum, b)
    decreases |a|
  {
    if a == [] {
      assert a + b == b;
    } else {
      assert (a + b)[0] == a[0] && (a + b)[1..] == a[1..] + b;
      PlayConcat(Happen(s, script, sum, a[0]), script, sum, a[1..], b);
    }
  }

  lemma {:induction false} PlayOne(s: Site, script: string, sum: string, e: Event)
    ensures Play(s, script, sum, [e]) == Happen(s, script, sum, e)
  {
    assert Play(Happen(s, script, sum, e), script, sum, [e][1..]) == Happen(s, script, sum, e);
  }

  /** Between any two moments the status only moves forward. */
  lemma {:induction false} StatusOnlyMovesForward(s: Site, script: string, sum: string, before: seq<Event>, after: seq<Event>)
    requires sum != "" && s.stage == None && AllExited(s.launches)
    ensures Forward(StatusOf(Play(s, script, sum, before).disk, sum), StatusOf(Play(s, script, sum, before + after).disk, sum))
  {
    var n := |s.launches|;
    assert s.launches[..n] == s.launches;
    PlayForward(s, script, sum, n, before);
    PlayForward(Play(s, script, sum, before), script, sum, n, after);
    PlayConcat(s, script, sum, before, after);
  }

  /** From a disk without this checksum, an outcome is the outcome of this script. */
  lemma {:induction false} OutcomeIsTheScripts(s: Site, script: string, sum: string, events: seq<Event>)
    requires sum != "" && s.stage == None && AllExited(s.launches) && s.disk.checksum != sum
    ensures
      var after := Play(s, script, sum, events);
      var n := |s.launches|;
      && (StatusOf(after.disk, sum) == Succeeded ==> |after.launches| == n + 1 && after.launches[n] == Launch(RunnerFor(sum), script, Some(0)))
      && (StatusOf(after.disk, sum).Failed? ==>
            |after.launches| == n + 1 && after.launches[n] == Launch(RunnerFor(sum), script, Some(StatusOf(after.disk, sum).code)))
      && StatusOf(after.disk, sum) != Error
  {
    var n := |s.launches|;
    assert s.launches[..n] == s.launches;
    PlayForward(s, script, sum, n, events);
    PlayUnlaunched(s, script, sum, n, events);
  }

  /** Without a launch, the checksum on the disk means no exit code beside it. */
  ghost predicate BareInv(s: Site, sum: string, n: nat) {
    |s.launches| == n && s.disk.checksum == sum ==> s.disk.exit == Missing
  }

  lemma {:induction false} PlayUnlaunched(s: Site, script: string, sum: string, n: nat, events: seq<Event>)
    requires sum != "" && OutcomeInv(s, script, sum, n) && BareInv(s, sum, n)
    ensures BareInv(Play(s, script, sum, events), sum, n)
    decreases |events|
  {
    if events != [] {
      HappenForward(s, script, sum, n, events[0]);
      HappenBare(s, script, sum, n, events[0]);
      PlayUnlaunched(Happen(s, script, sum, events[0]), script, sum, n, events[1..]);
    }
  }

  lemma {:induction false} HappenBare(s: Site, script: string, sum: string, n: nat, e: Event)
    requires sum != "" && OutcomeInv(s, script, sum, n) && BareInv(s, sum, n)
    ensures BareInv(Happen(s, script, sum, e), sum, n)
  {
    OldHaveExited(s, n);
  }

  /** And every outcome is reported: from a disk without this checksum, Status is Idle as long as the
      checksum is not there; after the launch it is Running until the script exits, then
      Succeeded if it exited 0, and otherwise Failed with its code. */
  lemma {:induction false} OutcomeIsReported(s: Site, script: string, sum: string, events: seq<Event>)
    requires sum != "" && s.stage == None && AllExited(s.launches) && s.disk.checksum != sum
    ensures
      var after := Play(s, script, sum, events);
      var n := |s.launches|;
      && (StatusOf(after.disk, sum) == Idle <==> after.disk.checksum != sum)
      && (|after.launches| == n ==> StatusOf(after.disk, sum) == Idle || StatusOf(after.disk, sum) == Running)
      && (|after.launches| == n + 1 ==>
            && (after.launches[n].exited == None ==> StatusOf(after.disk, sum) == Running)
            && (after.launches[n].exited == Some(0) ==> StatusOf(after.disk, sum) == Succeeded)
            && (after.launches[n].exited.Some? && after.launches[n].exited != Some(0) ==>
                  StatusOf(after.disk, sum) == Failed(after.launches[n].exited.value)))
  {
    var n := |s.launches|;
    assert s.launches[..n] == s.launches;
    PlayForward(s, script, sum, n, events);
    PlayUnlaunched(s, script, sum, n, events);
  }
}
