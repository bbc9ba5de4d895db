/** What the guard around an entry is for, and what it costs: under set -e alone a
    failure inside an AND-OR list goes unnoticed; inside a guard set -e itself is off. */
module GuardLimits {
  import opened Objects
  import opened Shell
  import opened ShellReading
  import opened CloudInitScript

  // ---- why entries are guarded

  /** Under set -e alone a failure before the last command of an AND-OR list is not
      noticed: the list fails and the script goes on. */
  lemma {:induction false} UnguardedListGoesOn(m: Tools, first: Command, second: Command, s: State)
    requires !s.exited && m(s.ran, first).Returns? && m(s.ran, first).status != 0
    ensures
      var list := Chain([Link(AndThen, Simple(first)), Link(AndThen, Simple(second))]);
      && RunChain(m, list, 0, s, true) == State(s.ran + [first], m(s.ran, first).status, false)
      && RunChain(m, OrExit([list]), 0, s, true) == State(s.ran + [first], m(s.ran, first).status, true)
  {
    var list := Chain([Link(AndThen, Simple(first)), Link(AndThen, Simple(second))]);
    var after := State(s.ran + [first], m(s.ran, first).status, false);
    FirstOfTwo(m, first, second, s, true);
    FirstOfTwo(m, first, second, s, false);
    RunGuard(m, [list], s);
    RunOneLine(m, list, s, false);
  }

  lemma {:induction false} FirstOfTwo(m: Tools, first: Command, second: Command, s: State, strict: bool)
    requires !s.exited && m(s.ran, first).Returns? && m(s.ran, first).status != 0
    ensures RunChain(m, Chain([Link(AndThen, Simple(first)), Link(AndThen, Simple(second))]), 0, s, strict)
         == State(s.ran + [first], m(s.ran, first).status, false)
  {
    var list := Chain([Link(AndThen, Simple(first)), Link(AndThen, Simple(second))]);
    var after := State(s.ran + [first], m(s.ran, first).status, false);
    assert list.links[0].item == Simple(first) && list.links[1] == Link(AndThen, Simple(second));
    assert RunItem(m, Simple(first), s, false) == after;
    assert RunChain(m, list, 0, s, strict) == RunChain(m, list, 1, after, strict);
    assert RunChain(m, list, 1, after, strict) == RunChain(m, list, 2, after, strict);
    assert RunChain(m, list, 2, after, strict) == after;
  }

  /** The price: inside a guard set -e is off, so in an entry of several lines only the
      last one's status counts, unless an earlier one ends the shell.  Unguarded, the
      first failing line would end the script. */
  lemma {:induction false} GuardHidesEarlierLines(m: Tools, first: Command, second: Command, s: State)
    requires !s.exited && m(s.ran, first).Returns? && m(s.ran, first).status != 0
    requires m(s.ran + [first], second) == Returns(0)
    ensures RunChain(m, OrExit([Just(first), Just(second)]), 0, s, true) == State(s.ran + [first] + [second], 0, false)
    ensures RunLines(m, [Just(first), Just(second)], s, true) == State(s.ran + [first], m(s.ran, first).status, true)
  {
    var g := Group([Just(first), Just(second)]);
    var after := State(s.ran + [first], m(s.ran, first).status, false);
    var end := State(s.ran + [first] + [second], 0, false);
    RunGuard(m, g.body, s);
    RunJust(m, first, s, false);
    RunJust(m, second, after, false);
    assert RunGroup(m, g, 0, s, false) == RunGroup(m, g, 1, after, false);
    assert RunGroup(m, g, 1, after, false) == RunGroup(m, g, 2, end, false);
    RunJust(m, first, s, true);
    var gone := after.(exited := true);
    assert RunGroup(m, g, 0, s, true) == RunGroup(m, g, 1, gone, true);
  }

  /** Lines made of commands: AND-OR lists of simple commands and of groups of such
      lines, none of them empty, and no `exit $?`. */
  predicate MadeOfCommands(item: Item)
    decreases item
  {
    match item
    case Simple(_) => true
    case Group(body) => body != [] && forall i :: 0 <= i < |body| ==> LineOfCommands(body[i])
    case Exit => false
  }

  predicate LineOfCommands(line: Chain)
    decreases line
  {
    line.links != [] && forall i :: 0 <= i < |line.links| ==> MadeOfCommands(line.links[i].item)
  }

  /** One line, and if it ends in a group, that group is again one such line. */
  predicate FlatItem(item: Item)
    decreases item
  {
    match item
    case Group(body) => |body| == 1 && FlatLine(body[0])
    case _ => true
  }

  predicate FlatLine(line: Chain)
    decreases line
  {
    line.links != [] && FlatItem(line.links[|line.links| - 1].item)
  }

  predicate Flat(body: seq<Chain>) {
    |body| == 1 && FlatLine(body[0])
  }

  /** Whenever set -e alone would end the script inside the entry, the guarded entry
      ends it there too, and with the same status. */
  ghost predicate HidesNothing(body: seq<Chain>) {
    forall m: Tools, s: State :: !s.exited && RunLines(m, body, s, true).exited ==>
      RunChain(m, OrExit(body), 0, s, true) == RunLines(m, body, s, true)
  }

  // ---- what running commands does to the history

  lemma {:induction false} ItemGrows(m: Tools, item: Item, s: State, strict: bool)
    ensures |RunItem(m, item, s, strict).ran| >= |s.ran|
    decreases item, 2, 0
  {
    if item.Group? { GroupGrows(m, item, 0, s, strict); }
  }

  lemma {:induction false} GroupGrows(m: Tools, group: Item, i: nat, s: State, strict: bool)
    requires group.Group? && i <= |group.body|
    ensures |RunGroup(m, group, i, s, strict).ran| >= |s.ran|
    decreases group, 1, |group.body| - i
  {
    if !s.exited && i < |group.body| {
      LineGrows(m, group.body[i], 0, s, strict);
      GroupGrows(m, group, i + 1, RunChain(m, group.body[i], 0, s, strict), strict);
    }
  }

  lemma {:induction false} LineGrows(m: Tools, line: Chain, i: nat, s: State, strict: bool)
    requires i <= |line.links|
    ensures |RunChain(m, line, i, s, strict).ran| >= |s.ran|
    decreases line, 0, |line.links| - i
  {
    if !s.exited && i < |line.links| {
      if Taken(line.links[i], i, s) {
        var last := strict && i + 1 == |line.links|;
        ItemGrows(m, line.links[i].item, s, last);
        LineGrows(m, line, i + 1, RunItem(m, line.links[i].item, s, last), strict);
      } else {
        LineGrows(m, line, i + 1, s, strict);
      }
    }
  }

  /** Two worlds that answer alike after lo and before hi commands. */
  ghost predicate Agree(m: Tools, n: Tools, lo: nat, hi: nat) {
    forall ran: seq<Command>, c: Command :: lo <= |ran| < hi ==> m(ran, c) == n(ran, c)
  }

  lemma {:induction false} ItemLocal(m: Tools, n: Tools, item: Item, s: State, strict: bool, hi: nat)
    requires Agree(m, n, |s.ran|, hi) && |RunItem(m, item, s, strict).ran| <= hi
    ensures RunItem(n, item, s, strict) == RunItem(m, item, s, strict)
    decreases item, 2, 0
  {
    match item
    case Simple(c) => assert m(s.ran, c) == n(s.ran, c);
    case Group(body) => GroupLocal(m, n, item, 0, s, strict, hi);
    case Exit =>
  }

  lemma {:induction false} GroupLocal(m: Tools, n: Tools, group: Item, i: nat, s: State, strict: bool, hi: nat)
    requires group.Group? && i <= |group.body|
    requires Agree(m, n, |s.ran|, hi) && |RunGroup(m, group, i, s, strict).ran| <= hi
    ensures RunGroup(n, group, i, s, strict) == RunGroup(m, group, i, s, strict)
    decreases group, 1, |group.body| - i
  {
    if !s.exited && i < |group.body| {
      var t := RunChain(m, group.body[i], 0, s, strict);
      LineGrows(m, group.body[i], 0, s, strict);
      GroupGrows(m, group, i + 1, t, strict);
      LineLocal(m, n, group.body[i], 0, s, strict, hi);
      GroupLocal(m, n, group, i + 1, t, strict, hi);
    }
  }

  lemma {:induction false} LineLocal(m: Tools, n: Tools, line: Chain, i: nat, s: State, strict: bool, hi: nat)
    requires i <= |line.links| && Agree(m, n, |s.ran|, hi) && |RunChain(m, line, i, s, strict).ran| <= hi
    ensures RunChain(n, line, i, s, strict) == RunChain(m, line, i, s, strict)
    decreases line, 0, |line.links| - i
  {
    if !s.exited && i < |line.links| {
      if Taken(line.links[i], i, s) {
        var last := strict && i + 1 == |line.links|;
        var t := RunItem(m, line.links[i].item, s, last);
        ItemGrows(m, line.links[i].item, s, last);
        LineGrows(m, line, i + 1, t, strict);
        ItemLocal(m, n, line.links[i].item, s, last, hi);
        LineLocal(m, n, line, i + 1, t, strict, hi);
      } else {
        LineLocal(m, n, line, i + 1, s, strict, hi);
      }
    }
  }

  // ---- worlds to choose from

  /** No command ends the shell. */
  ghost predicate Tame(m: Tools) {
    forall ran: seq<Command>, c: Command :: m(ran, c).Returns?
  }

  function Always(status: nat): Tools {
    (ran: seq<Command>, c: Command) => Returns(status)
  }

  /** m for the first n commands, then k. */
  function Switch(n: nat, m: Tools, k: Tools): Tools {
    (ran: seq<Command>, c: Command) => if |ran| < n then m(ran, c) else k(ran, c)
  }

  /** With set -e off, nothing ends a tame entry, and it runs something. */
  ghost predicate GoesOn(s: State, after: State) {
    !after.exited && |after.ran| > |s.ran|
  }

  lemma {:induction false} ItemGoesOn(m: Tools, item: Item, s: State)
    requires Tame(m) && !s.exited && MadeOfCommands(item)
    ensures GoesOn(s, RunItem(m, item, s, false))
    decreases item, 2, 0
  {
    match item
    case Simple(c) => assert m(s.ran, c).Returns?;
    case Group(body) => GroupGoesOn(m, item, 0, s);
  }

  lemma {:induction false} GroupGoesOn(m: Tools, group: Item, i: nat, s: State)
    requires Tame(m) && !s.exited && group.Group? && i <= |group.body|
    requires forall j :: 0 <= j < |group.body| ==> LineOfCommands(group.body[j])
    ensures
      var after := RunGroup(m, group, i, s, false);
      !after.exited && (i < |group.body| ==> |after.ran| > |s.ran|)
    decreases group, 1, |group.body| - i
  {
    if i < |group.body| {
      var t := RunChain(m, group.body[i], 0, s, false);
      LineGoesOn(m, group.body[i], 0, s);
      GroupGoesOn(m, group, i + 1, t);
      GroupGrows(m, group, i + 1, t, false);
    }
  }

  lemma {:induction false} LineGoesOn(m: Tools, line: Chain, i: nat, s: State)
    requires Tame(m) && !s.exited && LineOfCommands(line) && i <= |line.links|
    ensures
      var after := RunChain(m, line, i, s, false);
      !after.exited && (i == 0 ==> |after.ran| > |s.ran|)
    decreases line, 0, |line.links| - i
  {
    if i < |line.links| {
      if Taken(line.links[i], i, s) {
        var t := RunItem(m, line.links[i].item, s, false);
        ItemGoesOn(m, line.links[i].item, s);
        LineGoesOn(m, line, i + 1, t);
        LineGrows(m, line, i + 1, t, false);
      } else {
        LineGoesOn(m, line, i + 1, s);
      }
    }
  }

  /** Where every command has the same status, every line and group has it too. */
  lemma {:induction false} ItemSettles(status: nat, item: Item, s: State)
    requires !s.exited && MadeOfCommands(item)
    ensures
      var after := RunItem(Always(status), item, s, false);
      !after.exited && after.status == status
    decreases item, 2, 0
  {
    if item.Group? { GroupSettles(status, item, 0, s); }
  }

  lemma {:induction false} GroupSettles(status: nat, group: Item, i: nat, s: State)
    requires !s.exited && group.Group? && i <= |group.body| && (i == |group.body| ==> s.status == status)
    requires forall j :: 0 <= j < |group.body| ==> LineOfCommands(group.body[j])
    ensures
      var after := RunGroup(Always(status), group, i, s, false);
      !after.exited && after.status == status
    decreases group, 1, |group.body| - i
  {
    if i < |group.body| {
      LineSettles(status, group.body[i], 0, s);
      GroupSettles(status, group, i + 1, RunChain(Always(status), group.body[i], 0, s, false));
    }
  }

  lemma {:induction false} LineSettles(status: nat, line: Chain, i: nat, s: State)
    requires !s.exited && LineOfCommands(line) && i <= |line.links| && (i > 0 ==> s.status == status)
    ensures
      var after := RunChain(Always(status), line, i, s, false);
      !after.exited && after.status == status
    decreases line, 0, |line.links| - i
  {
    if i < |line.links| {
      if Taken(line.links[i], i, s) {
        ItemSettles(status, line.links[i].item, s);
        LineSettles(status, line, i + 1, RunItem(Always(status), line.links[i].item, s, false));
      } else {
        LineSettles(status, line, i + 1, s);
      }
    }
  }

  // ---- getting to the last item of a line

  /** The state after the first j items of a line, none of them its last. */
  function Upto(m: Tools, line: Chain, j: nat, s: State): State
    requires j < |line.links|
    decreases j
  {
    if j == 0 then s
    else
      var t := Upto(m, line, j - 1, s);
      if t.exited || !Taken(line.links[j - 1], j - 1, t) then t else RunItem(m, line.links[j - 1].item, t, false)
  }

  lemma {:induction false} LineFrom(m: Tools, line: Chain, j: nat, s: State, strict: bool)
    requires j < |line.links|
    ensures RunChain(m, line, 0, s, strict) == RunChain(m, line, j, Upto(m, line, j, s), strict)
    decreases j
  {
    if j > 0 { LineFrom(m, line, j - 1, s, strict); }
  }

  lemma {:induction false} UptoLocal(m: Tools, n: Tools, line: Chain, j: nat, s: State, hi: nat)
    requires j < |line.links| && Agree(m, n, |s.ran|, hi) && |Upto(m, line, j, s).ran| <= hi
    ensures Upto(n, line, j, s) == Upto(m, line, j, s) && |s.ran| <= |Upto(m, line, j, s).ran|
    decreases j
  {
    if j > 0 {
      var t := Upto(m, line, j - 1, s);
      UptoGrows(m, line, j - 1, s);
      ItemGrows(m, line.links[j - 1].item, t, false);
      UptoLocal(m, n, line, j - 1, s, hi);
      if !t.exited && Taken(line.links[j - 1], j - 1, t) {
        ItemLocal(m, n, line.links[j - 1].item, t, false, hi);
      }
    }
  }

  lemma {:induction false} UptoGrows(m: Tools, line: Chain, j: nat, s: State)
    requires j < |line.links|
    ensures |Upto(m, line, j, s).ran| >= |s.ran|
    decreases j
  {
    if j > 0 {
      UptoGrows(m, line, j - 1, s);
      ItemGrows(m, line.links[j - 1].item, Upto(m, line, j - 1, s), false);
    }
  }

  /** A world in which item j of the line gets its turn. */
  lemma {:induction false} Steer(line: Chain, s: State, j: nat) returns (m: Tools)
    requires LineOfCommands(line) && !s.exited && j < |line.links|
    ensures Tame(m) && !Upto(m, line, j, s).exited && Taken(line.links[j], j, Upto(m, line, j, s))
    decreases j
  {
    if j == 0 {
      m := Always(0);
    } else {
      var before := Steer(line, s, j - 1);
      var t := Upto(before, line, j - 1, s);
      var status := if line.links[j].connective == AndThen then 0 else 1;
      m := Switch(|t.ran|, before, Always(status));
      UptoLocal(before, m, line, j - 1, s, |t.ran|);
      var item := line.links[j - 1].item;
      ItemSettles(status, item, t);
      ItemLocal(Always(status), m, item, t, false, |RunItem(Always(status), item, t, false).ran|);
    }
  }

  /** Any world for the last item of a line can be had, from some state on. */
  lemma {:induction false} Arrive(line: Chain, s: State) returns (before: Tools, t: State)
    requires LineOfCommands(line) && !s.exited
    ensures Tame(before) && !t.exited && t == Upto(before, line, |line.links| - 1, s)
    ensures Taken(line.links[|line.links| - 1], |line.links| - 1, t)
  {
    before := Steer(line, s, |line.links| - 1);
    t := Upto(before, line, |line.links| - 1, s);
  }

  lemma {:induction false} LastItemDecides(line: Chain, s: State, before: Tools, t: State, m: Tools, strict: bool)
    requires LineOfCommands(line) && !s.exited && !t.exited && t == Upto(before, line, |line.links| - 1, s)
    requires Taken(line.links[|line.links| - 1], |line.links| - 1, t)
    ensures RunChain(Switch(|t.ran|, before, m), line, 0, s, strict) == RunItem(m, line.links[|line.links| - 1].item, t, strict)
  {
    var n := |line.links| - 1;
    var both := Switch(|t.ran|, before, m);
    UptoLocal(before, both, line, n, s, |t.ran|);
    LineFrom(both, line, n, s, strict);
    ItemLocal(m, both, line.links[n].item, t, strict, |RunItem(m, line.links[n].item, t, strict).ran|);
    var after := RunItem(both, line.links[n].item, t, strict);
    assert RunChain(both, line, n + 1, after, strict) == after;
  }

  // ---- several lines hide something

  /** Some failure ends any entry under set -e. */
  lemma {:induction false} ItemCanStop(item: Item, s: State) returns (m: Tools)
    requires MadeOfCommands(item) && !s.exited
    ensures Tame(m) && RunItem(m, item, s, true).exited
    decreases item
  {
    match item {
      case Simple(c) => m := Always(1);
      case Group(body) =>
        m := LineCanStop(body[0], s);
        assert RunGroup(m, item, 0, s, true) == RunGroup(m, item, 1, RunChain(m, item.body[0], 0, s, true), true);
    }
  }

  lemma {:induction false} LineCanStop(line: Chain, s: State) returns (m: Tools)
    requires LineOfCommands(line) && !s.exited
    ensures Tame(m) && RunChain(m, line, 0, s, true).exited
    decreases line
  {
    var before, t := Arrive(line, s);
    var last := ItemCanStop(line.links[|line.links| - 1].item, t);
    m := Switch(|t.ran|, before, last);
    LastItemDecides(line, s, before, t, last, true);
  }

  /** With set -e off a line gets at least as far as with it on. */
  lemma {:induction false} LooseGoesFurther(m: Tools, item: Item, s: State)
    ensures |RunItem(m, item, s, true).ran| <= |RunItem(m, item, s, false).ran|
    ensures !RunItem(m, item, s, true).exited ==> RunItem(m, item, s, true) == RunItem(m, item, s, false)
    decreases item, 2, 0
  {
    if item.Group? { LooseGroupGoesFurther(m, item, 0, s); }
  }

  lemma {:induction false} LooseGroupGoesFurther(m: Tools, group: Item, i: nat, s: State)
    requires group.Group? && i <= |group.body|
    ensures |RunGroup(m, group, i, s, true).ran| <= |RunGroup(m, group, i, s, false).ran|
    ensures !RunGroup(m, group, i, s, true).exited ==> RunGroup(m, group, i, s, true) == RunGroup(m, group, i, s, false)
    decreases group, 1, |group.body| - i
  {
    if !s.exited && i < |group.body| {
      LooseLineGoesFurther(m, group.body[i], 0, s);
      var t, u := RunChain(m, group.body[i], 0, s, true), RunChain(m, group.body[i], 0, s, false);
      if t.exited {
        GroupGrows(m, group, i + 1, u, false);
      } else {
        LooseGroupGoesFurther(m, group, i + 1, t);
      }
    }
  }

  lemma {:induction false} LooseLineGoesFurther(m: Tools, line: Chain, i: nat, s: State)
    requires i <= |line.links|
    ensures |RunChain(m, line, i, s, true).ran| <= |RunChain(m, line, i, s, false).ran|
    ensures !RunChain(m, line, i, s, true).exited ==> RunChain(m, line, i, s, true) == RunChain(m, line, i, s, false)
    decreases line, 0, |line.links| - i
  {
    if !s.exited && i < |line.links| {
      if !Taken(line.links[i], i, s) {
        LooseLineGoesFurther(m, line, i + 1, s);
      } else if i + 1 < |line.links| {
        LooseLineGoesFurther(m, line, i + 1, RunItem(m, line.links[i].item, s, false));
      } else {
        LooseGoesFurther(m, line.links[i].item, s);
      }
    }
  }

  /** set -e would have ended it, and without it something more was run. */
  ghost predicate Overruns(strict: State, loose: State) {
    strict.exited && |loose.ran| > |strict.ran|
  }

  lemma {:induction false} ItemCanOverrun(item: Item, s: State) returns (m: Tools)
    requires MadeOfCommands(item) && !FlatItem(item) && !s.exited
    ensures Overruns(RunItem(m, item, s, true), RunItem(m, item, s, false))
    ensures Tame(m)
    decreases item
  {
    var first := item.body[0];
    if |item.body| == 1 {
      m := LineCanOverrun(first, s);
      OneLineGroup(m, item, s, true);
      OneLineGroup(m, item, s, false);
    } else {
      m := LineCanStop(first, s);
      var t, u := RunChain(m, item.body[0], 0, s, true), RunChain(m, item.body[0], 0, s, false);
      LooseLineGoesFurther(m, first, 0, s);
      LineGoesOn(m, first, 0, s);
      assert RunGroup(m, item, 0, s, true) == RunGroup(m, item, 1, t, true);
      assert RunGroup(m, item, 0, s, false) == RunGroup(m, item, 1, u, false);
      GroupGoesOn(m, item, 1, u);
    }
  }

  lemma {:induction false} LineCanOverrun(line: Chain, s: State) returns (m: Tools)
    requires LineOfCommands(line) && !FlatLine(line) && !s.exited
    ensures Overruns(RunChain(m, line, 0, s, true), RunChain(m, line, 0, s, false))
    ensures Tame(m)
    decreases line
  {
    var before, t := Arrive(line, s);
    var last := ItemCanOverrun(line.links[|line.links| - 1].item, t);
    m := Switch(|t.ran|, before, last);
    LastItemDecides(line, s, before, t, last, true);
    LastItemDecides(line, s, before, t, last, false);
  }

  lemma {:induction false} OneLineGroup(m: Tools, group: Item, s: State, strict: bool)
    requires group.Group? && |group.body| == 1 && !s.exited
    ensures RunItem(m, group, s, strict) == RunChain(m, group.body[0], 0, s, strict)
  {
    var after := RunChain(m, group.body[0], 0, s, strict);
    assert RunGroup(m, group, 1, after, strict) == after;
    assert RunGroup(m, group, 0, s, strict) == RunGroup(m, group, 1, after, strict);
  }

  // ---- one flat line hides nothing

  /** set -e adds at most that the failure ends the script. */
  ghost predicate SameButEnded(strict: State, loose: State) {
    strict == loose || (!loose.exited && loose.status != 0 && strict == loose.(exited := true))
  }

  lemma {:induction false} FlatItemAgrees(m: Tools, item: Item, s: State)
    requires FlatItem(item) && !s.exited
    ensures SameButEnded(RunItem(m, item, s, true), RunItem(m, item, s, false))
    decreases item
  {
    if item.Group? {
      FlatLineAgrees(m, item.body[0], s);
      OneLineGroup(m, item, s, true);
      OneLineGroup(m, item, s, false);
    }
  }

  lemma {:induction false} FlatLineAgrees(m: Tools, line: Chain, s: State)
    requires FlatLine(line) && !s.exited
    ensures SameButEnded(RunChain(m, line, 0, s, true), RunChain(m, line, 0, s, false))
    decreases line
  {
    var n := |line.links| - 1;
    var t := Upto(m, line, n, s);
    LineFrom(m, line, n, s, true);
    LineFrom(m, line, n, s, false);
    if !t.exited {
      FlatItemAgrees(m, line.links[n].item, t);
      LastStep(m, line, t, true);
      LastStep(m, line, t, false);
    }
  }

  lemma {:induction false} LastStep(m: Tools, line: Chain, t: State, strict: bool)
    requires line.links != [] && !t.exited
    ensures
      var n := |line.links| - 1;
      RunChain(m, line, n, t, strict) == if Taken(line.links[n], n, t) then RunItem(m, line.links[n].item, t, strict) else t
  {
    var n := |line.links| - 1;
    var after := if Taken(line.links[n], n, t) then RunItem(m, line.links[n].item, t, strict) else t;
    assert RunChain(m, line, n + 1, after, strict) == after;
  }

  lemma {:induction false} FlatHidesNothing(body: seq<Chain>)
    requires Flat(body)
    ensures HidesNothing(body)
  {
    forall m: Tools, s: State | !s.exited && RunLines(m, body, s, true).exited
      ensures RunChain(m, OrExit(body), 0, s, true) == RunLines(m, body, s, true)
    {
      RunGuard(m, body, s);
      FlatLineAgrees(m, body[0], s);
      OneLineGroup(m, Group(body), s, true);
      OneLineGroup(m, Group(body), s, false);
    }
  }

  /** The guard hides no failure that set -e would have caught, whatever the commands
      do, if and only if the entry is one line and so is any group that line ends in. */
  lemma {:induction false} GuardHidesNothingIff(body: seq<Chain>)
    requires body != [] && forall i :: 0 <= i < |body| ==> LineOfCommands(body[i])
    ensures HidesNothing(body) <==> Flat(body)
  {
    if Flat(body) {
      FlatHidesNothing(body);
    } else {
      var s := State([], 0, false);
      var m := ItemCanOverrun(Group(body), s);
      RunGuard(m, body, s);
      assert RunLines(m, body, s, true).exited;
      assert RunChain(m, OrExit(body), 0, s, true) != RunLines(m, body, s, true);
    }
  }
}
