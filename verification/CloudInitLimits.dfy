/** Where rendered scripts end being readable. */
module CloudInitLimits {
  import opened Objects
  import opened Shell
  import opened ShellReading
  import opened CloudInit
  import opened CloudInitMeaning
  import opened CloudInitScript

  // ---- empty entries

  /** A text that is complete and not a program spoils every text it is part of. */
  lemma {:induction false} SpoiltByPart(a: string, b: string, c: string, tokens: seq<Token>)
    requires Lines(a).Some? && Read(AtLineStart([]), b) == AtLineStart(tokens)
    requires Parse(Between([], []), tokens) == Wrong
    ensures Lines(a + b + c) == None
  {
    var s := LinesAreRead(a);
    var x := Lines(a).value;
    ReadConcat(AtLineStart([]), a + b, c);
    ReadConcat(AtLineStart([]), a, b);
    ReadBehind(s, AtLineStart([]), b);
    assert Behind(s, AtLineStart([])) == AtLineStart(s) by { assert s + [] == s; }
    ReadBehind(s + tokens, AtLineStart([]), c);
    assert Behind(s + tokens, AtLineStart([])) == AtLineStart(s + tokens) by { assert s + tokens + [] == s + tokens; }
    var more := Read(AtLineStart([]), c).tokens;
    assert Read(AtLineStart([]), a + b + c).tokens == s + tokens + more;
    ParseConcat(Between([], []), s + tokens, more);
    ParseConcat(Between([], []), s, tokens);
    ParseOver(x, Between([], []), tokens);
    assert Over(x, Between([], [])) == Between([], x) by { assert x + [] == x; }
    StaysWrong(more);
  }

  function GuardTokens(tokens: seq<Token>): seq<Token> {
    [Open, Newline] + tokens + GuardEnd
  }

  /** A guard around a text that holds no command: blank, a comment, or nothing. */
  lemma {:induction false} EmptyGuardReads(line: string) returns (tokens: seq<Token>)
    requires Lines(line + "\n") == Some([])
    ensures Read(AtLineStart([]), Guarded(line) + "\n") == AtLineStart(GuardTokens(tokens))
    ensures Parse(Between([], []), GuardTokens(tokens)) == Wrong
  {
    tokens := LinesAreRead(line + "\n");
    var end := GuardPieces(line);
    ReadGuard(line + "\n", end, tokens, []);
    ParseEmptyGuard(tokens);
  }

  lemma {:induction false} ParseEmptyGuard(tokens: seq<Token>)
    requires Parse(Between([], []), tokens) == Between([], [])
    ensures Parse(Between([], []), GuardTokens(tokens)) == Wrong
  {
    var p := Between([], []);
    var open := [Frame([], [], None)];
    var rest := [Or, Word("exit"), Status, Newline];
    OpenGuard();
    ParseConcat(p, [Open, Newline] + tokens, GuardEnd);
    ParseConcat(p, [Open, Newline], tokens);
    ParseUnder(open, p, tokens);
    assert Under(open, p) == Between(open, []) by { assert open + [] == open; }
    assert GuardEnd == [Close] + rest;
    ParseConcat(Between(open, []), [Close], rest);
    ParseOne(Between(open, []), Close);
    StaysWrong(rest);
  }

  lemma {:induction false} OpenGuard()
    ensures Parse(Between([], []), [Open, Newline]) == Between([Frame([], [], None)], [])
  {
    var p := Between([], []);
    assert [Open, Newline] == [Open] + [Newline];
    ParseConcat(p, [Open], [Newline]);
    ParseOne(p, Open);
    assert [] + [Frame([], [], None)] == [Frame([], [], None)];
    ParseOne(Between([Frame([], [], None)], []), Newline);
  }

  /** An entry a shell can read by itself, whether or not it holds a command. */
  predicate Legible(e: Entry) {
    Meaning(e).Some?
  }

  predicate AllLegible(entries: seq<Entry>) {
    forall i :: 0 <= i < |entries| ==> Legible(entries[i])
  }

  predicate HoldsCommand(e: Entry)
    requires Legible(e)
  {
    Meaning(e).value != []
  }

  predicate AllHoldCommands(entries: seq<Entry>)
    requires AllLegible(entries)
  {
    forall i :: 0 <= i < |entries| ==> HoldsCommand(entries[i])
  }

  /** Blank text and a comment are legible and hold no command. */
  lemma {:induction false} BlankEntryHoldsNothing(comment: string)
    requires '\n' !in comment
    ensures Legible(Line("")) && !HoldsCommand(Line(""))
    ensures Legible(Line("#" + comment)) && !HoldsCommand(Line("#" + comment))
  {
    BlankIsNoLine();
    assert "" + "\n" == "\n";
    CommentIsNoLine(comment);
  }

  /** An entry given as a vector of NUL-free strings. */
  predicate CleanArgv(e: Entry) {
    e.Argv? && AllStrings(e.args) && forall i :: 0 <= i < |e.args| ==> Clean(e.args[i].text)
  }

  predicate AllCleanArgv(entries: seq<Entry>) {
    forall i :: 0 <= i < |entries| ==> CleanArgv(entries[i])
  }

  predicate NoneEmpty(entries: seq<Entry>) {
    forall i :: 0 <= i < |entries| ==> entries[i] != Argv([])
  }

  lemma {:induction false} AllArgvLegible(entries: seq<Entry>)
    requires AllCleanArgv(entries)
    ensures AllLegible(entries) && (AllHoldCommands(entries) <==> NoneEmpty(entries))
  {
    forall i | 0 <= i < |entries| ensures Legible(entries[i]) && (HoldsCommand(entries[i]) <==> entries[i] != Argv([])) {
      assert CleanArgv(entries[i]);
    }
  }

  lemma {:induction false} AllLegibleRender(entries: seq<Entry>)
    requires AllLegible(entries)
    ensures AllRender(entries)
  {
    forall i | 0 <= i < |entries| ensures CommandText(entries[i]).Some? { TextHasMeaning(entries[i]); }
  }

  /** The entries up to and including an empty one, and those after it. */
  lemma {:induction false} EntriesSplit(entries: seq<Entry>, k: nat) returns (rest: string)
    requires AllRender(entries) && k < |entries|
    ensures AllRender(entries[..k])
    ensures EntriesText(entries) == EntriesText(entries[..k]) + (Guarded(CommandText(entries[k]).value) + "\n") + rest
    decreases |entries|
  {
    var n := |entries| - 1;
    if k == n {
      rest := "";
    } else {
      var rest' := EntriesSplit(entries[..n], k);
      assert entries[..n][..k] == entries[..k];
      rest := rest' + (Guarded(CommandText(entries[n]).value) + "\n");
    }
  }

  lemma {:induction false} FirstEmpty(entries: seq<Entry>) returns (k: nat)
    requires AllLegible(entries) && !AllHoldCommands(entries)
    ensures k < |entries| && !HoldsCommand(entries[k]) && AllReadable(entries[..k])
    decreases |entries|
  {
    var n := |entries| - 1;
    if AllHoldCommands(entries[..n]) {
      k := n;
    } else {
      k := FirstEmpty(entries[..n]);
      assert entries[..n][..k] == entries[..k];
    }
  }

  lemma {:induction false} EmptyEntrySpoilsSection(before: string, title: string, entries: seq<Entry>, after: string)
    requires Lines(before).Some? && '\n' !in title && AllLegible(entries) && !AllHoldCommands(entries) && AllRender(entries)
    ensures Lines(before + SectionText(title, entries) + after) == None
  {
    var k := FirstEmpty(entries);
    TextHasMeaning(entries[k]);
    var line := CommandText(entries[k]).value;
    var rest := EntriesSplit(entries, k);
    EntriesRead(entries[..k]);
    var tokens := EmptyGuardReads(line);
    CommentIsNoLine(title);
    var head := EntriesText(entries[..k]);
    LinesConcat(before, "#" + title + "\n");
    LinesConcat(before + ("#" + title + "\n"), head);
    SpoiltByPart(before + ("#" + title + "\n") + head, Guarded(line) + "\n", rest + "\n" + after, GuardTokens(tokens));
    SectionPieces(before, title, entries, head, Guarded(line) + "\n", rest, after);
  }

  lemma {:induction false} SectionPieces(before: string, title: string, entries: seq<Entry>, head: string, guard: string, rest: string, after: string)
    requires AllRender(entries) && entries != [] && EntriesText(entries) == head + guard + rest
    ensures before + SectionText(title, entries) + after
         == before + ("#" + title + "\n") + head + guard + (rest + "\n" + after)
  {
  }

  lemma {:induction false} BeginningReads(files: seq<File>, boot: seq<Entry>)
    requires forall i :: 0 <= i < |files| ==> CleanFile(files[i])
    requires AllReadable(boot)
    ensures AllRender(boot) && Lines(Shebang + Notice + SetLine + "\n" + FileSection(files) + SectionText(BootTitle, boot)).Some?
  {
    ScriptReads(files, boot, []);
    NoSection(Shebang + Notice + SetLine + "\n" + FileSection(files) + SectionText(BootTitle, boot), RunTitle);
  }

  lemma {:induction false} NoSection(text: string, title: string)
    ensures text + SectionText(title, []) == text
  {
  }

  lemma {:induction false} EmptyInRun(files: seq<File>, boot: seq<Entry>, run: seq<Entry>)
    requires forall i :: 0 <= i < |files| ==> CleanFile(files[i])
    requires AllReadable(boot) && AllRender(boot) && AllLegible(run) && AllRender(run) && !AllHoldCommands(run)
    ensures Lines(Shebang + Notice + SetLine + "\n" + FileSection(files) + SectionText(BootTitle, boot) + SectionText(RunTitle, run)) == None
  {
    BeginningReads(files, boot);
    TitlesAreComments();
    var before := Shebang + Notice + SetLine + "\n" + FileSection(files) + SectionText(BootTitle, boot);
    EmptyEntrySpoilsSection(before, RunTitle, run, "");
    assert before + SectionText(RunTitle, run) + "" == before + SectionText(RunTitle, run);
  }

  lemma {:induction false} EmptyInBoot(files: seq<File>, boot: seq<Entry>, after: string)
    requires forall i :: 0 <= i < |files| ==> CleanFile(files[i])
    requires AllLegible(boot) && AllRender(boot) && !AllHoldCommands(boot)
    ensures Lines(Shebang + Notice + SetLine + "\n" + FileSection(files) + SectionText(BootTitle, boot) + after) == None
  {
    BeginningReads(files, []);
    NoSection(Shebang + Notice + SetLine + "\n" + FileSection(files), BootTitle);
    TitlesAreComments();
    EmptyEntrySpoilsSection(Shebang + Notice + SetLine + "\n" + FileSection(files), BootTitle, boot, after);
  }

  /** For entries, text or vectors, that a shell can read by themselves: it can read the
      script exactly when each of them holds a command.  The guard of one that does not
      is a syntax error. */
  lemma {:induction false} ReadableIffAllHoldCommands(files: seq<File>, boot: seq<Entry>, run: seq<Entry>)
    requires forall i :: 0 <= i < |files| ==> CleanFile(files[i])
    requires AllLegible(boot) && AllLegible(run)
    ensures ScriptText(files, boot, run).Some?
    ensures Lines(ScriptText(files, boot, run).value).Some? <==> AllHoldCommands(boot) && AllHoldCommands(run)
  {
    AllLegibleRender(boot);
    AllLegibleRender(run);
    if AllHoldCommands(boot) && AllHoldCommands(run) {
      ScriptReads(files, boot, run);
    } else if AllHoldCommands(boot) {
      EmptyInRun(files, boot, run);
    } else {
      EmptyInBoot(files, boot, SectionText(RunTitle, run));
    }
  }

  /** With entries given as vectors: exactly when no vector is empty. */
  lemma {:induction false} ReadableIffNoEmptyVector(files: seq<File>, boot: seq<Entry>, run: seq<Entry>)
    requires forall i :: 0 <= i < |files| ==> CleanFile(files[i])
    requires AllCleanArgv(boot) && AllCleanArgv(run)
    ensures ScriptText(files, boot, run).Some?
    ensures Lines(ScriptText(files, boot, run).value).Some? <==> NoneEmpty(boot) && NoneEmpty(run)
  {
    AllArgvLegible(boot);
    AllArgvLegible(run);
    ReadableIffAllHoldCommands(files, boot, run);
  }
}
