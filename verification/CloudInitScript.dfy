/** The whole rendered script: how a shell reads it, and how it ends. */
module CloudInitScript {
  import opened Objects
  import opened Shell
  import opened ShellReading
  import opened Base64
  import opened CloudInit
  import opened CloudInitMeaning

  // ---- reading

  function FileLines(files: seq<File>): seq<Chain> {
    if files == [] then [] else FileLines(files[..|files| - 1]) + Justs(FileCommands(files[|files| - 1]))
  }

  lemma {:induction false} FilesRead(files: seq<File>)
    requires forall i :: 0 <= i < |files| ==> CleanFile(files[i])
    ensures Lines(FilesText(files)) == Some(FileLines(files))
    decreases |files|
  {
    if files == [] {
      assert Parse(Between([], []), []) == Between([], []);
    } else {
      var n := |files| - 1;
      FilesRead(files[..n]);
      FileRoundTrip(files[n]);
      LinesConcat(FilesText(files[..n]), FileText(files[n]));
    }
  }

  /** What an entry means by itself: text is what the shell reads it as, unchanged; a
      list of NUL-free strings is one command with these words, or nothing. */
  function Meaning(e: Entry): Option<seq<Chain>> {
    match e
    case Line(text) => Lines(text + "\n")
    case Argv(args) =>
      if (forall i :: 0 <= i < |args| ==> args[i].Str?) && (forall i :: 0 <= i < |args| ==> Clean(args[i].text)) then
        Some(if args == [] then []
             else [Just(Command(seq(|args|, i requires 0 <= i < |args| => args[i].text), None, None))])
      else None
    case NeitherStringNorList => None
  }

  /** The entry's rendered text means what the entry means. */
  lemma {:induction false} TextHasMeaning(e: Entry)
    requires Meaning(e).Some?
    ensures CommandText(e).Some? && Lines(CommandText(e).value + "\n") == Meaning(e)
  {
    if e.Argv? {
      ArgvRoundTrip(Strings(e.args));
      assert Strings(e.args) == seq(|e.args|, i requires 0 <= i < |e.args| => e.args[i].text);
    }
  }

  /** An entry the shell can read, and that holds a command. */
  predicate Readable(e: Entry) {
    Meaning(e).Some? && Meaning(e).value != []
  }

  predicate AllReadable(entries: seq<Entry>) {
    forall i :: 0 <= i < |entries| ==> Readable(entries[i])
  }

  function BodyOf(e: Entry): seq<Chain>
    requires Readable(e)
  {
    Meaning(e).value
  }

  function Bodies(entries: seq<Entry>): seq<seq<Chain>>
    requires AllReadable(entries)
  {
    seq(|entries|, i requires 0 <= i < |entries| => BodyOf(entries[i]))
  }

  function Guards(bodies: seq<seq<Chain>>): seq<Chain> {
    seq(|bodies|, i requires 0 <= i < |bodies| => OrExit(bodies[i]))
  }

  lemma {:induction false} GuardsOneMore(entries: seq<Entry>)
    requires AllReadable(entries) && entries != []
    ensures
      var n := |entries| - 1;
      Guards(Bodies(entries)) == Guards(Bodies(entries[..n])) + [OrExit(BodyOf(entries[n]))]
  {
  }

  lemma {:induction false} EntriesRead(entries: seq<Entry>)
    requires AllReadable(entries)
    ensures AllRender(entries) && Lines(EntriesText(entries)) == Some(Guards(Bodies(entries)))
    decreases |entries|
  {
    if entries == [] {
      assert Parse(Between([], []), []) == Between([], []);
      assert Guards(Bodies(entries)) == [];
    } else {
      var n := |entries| - 1;
      EntriesRead(entries[..n]);
      TextHasMeaning(entries[n]);
      GuardKeepsEntry(CommandText(entries[n]).value);
      LinesConcat(EntriesText(entries[..n]), Guarded(CommandText(entries[n]).value) + "\n");
      GuardsOneMore(entries);
    }
  }

  lemma {:induction false} CommentedRead(title: string, text: string)
    requires '\n' !in title && Lines(text).Some?
    ensures Lines("#" + title + "\n" + text + "\n") == Lines(text)
  {
    CommentIsNoLine(title);
    BlankIsNoLine();
    LinesConcat("#" + title + "\n", text);
    LinesConcat("#" + title + "\n" + text, "\n");
    assert [] + Lines(text).value + [] == Lines(text).value;
  }

  lemma {:induction false} NothingReadsAsNothing()
    ensures Lines("") == Some([])
  {
    assert Parse(Between([], []), []) == Between([], []);
  }

  lemma {:induction false} SectionReads(title: string, entries: seq<Entry>)
    requires '\n' !in title && AllReadable(entries)
    ensures AllRender(entries) && Lines(SectionText(title, entries)) == Some(Guards(Bodies(entries)))
  {
    EntriesRead(entries);
    if entries == [] { NothingReadsAsNothing(); } else { CommentedRead(title, EntriesText(entries)); }
  }

  lemma {:induction false} FileSectionReads(files: seq<File>, title: string)
    requires forall i :: 0 <= i < |files| ==> CleanFile(files[i])
    requires "### write_files\n" == "#" + title + "\n" && '\n' !in title
    ensures Lines(FileSection(files)) == Some(FileLines(files))
  {
    FilesRead(files);
    if files == [] { NothingReadsAsNothing(); } else { CommentedRead(title, FilesText(files)); }
  }

  lemma {:induction false} ReadLastBareWord(tokens: seq<Token>, word: string)
    requires Bare(word)
    ensures Read(AtLineStart(tokens), word + "\n") == AtLineStart(tokens + [Word(word)] + [Newline])
  {
    var s := AtLineStart(tokens);
    ReadConcat(s, word, "\n");
    assert ReadChar(s, word[0]) == s.(mode := InWord([word[0]], false));
    ReadPlain(ReadChar(s, word[0]), [word[0]], false, word[1..]);
    assert [word[0]] + word[1..] == word;
    ReadOne(Read(s, word), '\n');
  }

  lemma {:induction false} SetLetters(a: string, b: string, c: string)
    requires a == "set" && b == "-euo" && c == "pipefail"
    ensures Bare(a) && Bare(b) && Bare(c) && SetLine == a + " " + (b + " ") + (c + "\n")
  {
  }

  lemma {:induction false} BareLine(a: string, b: string, c: string, text: string)
    requires Bare(a) && Bare(b) && Bare(c) && text == a + " " + (b + " ") + (c + "\n")
    ensures Lines(text) == Some([Just(Command([a, b, c], None, None))])
  {
    var s := AtLineStart([]);
    ReadConcat(s, a + " " + (b + " "), c + "\n");
    ReadConcat(s, a + " ", b + " ");
    ReadBareWord(s, a);
    ReadBareWord(AtLineStart([] + [Word(a)]), b);
    ReadLastBareWord([] + [Word(a)] + [Word(b)], c);
    assert [] + [Word(a)] + [Word(b)] + [Word(c)] + [Newline] == WordTokens([a, b, c]) + [Newline];
    ParseCommand([a, b, c]);
    ReadsAsLines(text, WordTokens([a, b, c]) + [Newline], [Just(Command([a, b, c], None, None))]);
  }

  predicate IsComment(line: string, text: string) {
    line == "#" + text + "\n" && '\n' !in text
  }

  lemma {:induction false} HeaderReads(shebang: string, notice: string, set_: string, texts: (string, string), words: (string, string, string))
    requires IsComment(shebang, texts.0) && IsComment(notice, texts.1)
    requires Bare(words.0) && Bare(words.1) && Bare(words.2)
    requires set_ == words.0 + " " + (words.1 + " ") + (words.2 + "\n")
    ensures Lines(shebang + notice + set_ + "\n") == Some([Just(Command([words.0, words.1, words.2], None, None))])
  {
    CommentIsNoLine(texts.0);
    CommentIsNoLine(texts.1);
    BareLine(words.0, words.1, words.2, set_);
    BlankIsNoLine();
    Assemble(shebang, notice, set_, "\n");
    var c := Just(Command([words.0, words.1, words.2], None, None));
    assert [] + [] + [c] + [] == [c];
  }

  lemma {:induction false} WholeReads(shebang: string, notice: string, set_: string, texts: (string, string), words: (string, string, string),
                   b: string, c: string, d: string)
    requires IsComment(shebang, texts.0) && IsComment(notice, texts.1)
    requires Bare(words.0) && Bare(words.1) && Bare(words.2)
    requires set_ == words.0 + " " + (words.1 + " ") + (words.2 + "\n")
    requires Lines(b).Some? && Lines(c).Some? && Lines(d).Some?
    ensures Lines(shebang + notice + set_ + "\n" + b + c + d) ==
            Some([Just(Command([words.0, words.1, words.2], None, None))] + Lines(b).value + Lines(c).value + Lines(d).value)
  {
    HeaderReads(shebang, notice, set_, texts, words);
    Assemble(shebang + notice + set_ + "\n", b, c, d);
  }

  lemma {:induction false} HeaderIsComments()
    ensures IsComment(Shebang, Interpreter) && IsComment(Notice, Origin)
  {
    assert '\n' !in " Generated by kg from Cluster API " && '\n' !in "bootstrap data. Do not edit.";
  }

  lemma {:induction false} TitlesAreComments()
    ensures "### write_files\n" == "#" + "## write_files" + "\n"
    ensures '\n' !in "## write_files" && '\n' !in BootTitle && '\n' !in RunTitle
  {
  }

  /** The rendered script is read as: set -e, the commands that write the files, and
      each entry, unchanged, in a guard of its own. */
  lemma {:induction false} ScriptReads(files: seq<File>, boot: seq<Entry>, run: seq<Entry>)
    requires forall i :: 0 <= i < |files| ==> CleanFile(files[i])
    requires AllReadable(boot) && AllReadable(run)
    ensures ScriptText(files, boot, run).Some?
    ensures Lines(ScriptText(files, boot, run).value) == Some([SetE] + FileLines(files) + Guards(Bodies(boot)) + Guards(Bodies(run)))
    ensures SetE == Just(Command(["set", "-euo", "pipefail"], None, None))
  {
    HeaderIsComments();
    TitlesAreComments();
    SetLetters("set", "-euo", "pipefail");
    FileSectionReads(files, "## write_files");
    SectionReads(BootTitle, boot);
    SectionReads(RunTitle, run);
    WholeReads(Shebang, Notice, SetLine,
               (Interpreter, Origin), ("set", "-euo", "pipefail"),
               FileSection(files), SectionText(BootTitle, boot), SectionText(RunTitle, run));
  }

  lemma {:induction false} Assemble(a: string, b: string, c: string, d: string)
    requires Lines(a).Some? && Lines(b).Some? && Lines(c).Some? && Lines(d).Some?
    ensures Lines(a + b + c + d) == Some(Lines(a).value + Lines(b).value + Lines(c).value + Lines(d).value)
  {
    LinesConcat(a, b);
    LinesConcat(a + b, c);
    LinesConcat(a + b + c, d);
  }

  // ---- running

  /** A part of the script as if it were a script of its own, without set -e; whatever
      status it then has is what the script goes by. */
  function Own(m: Tools, body: seq<Chain>, s: State): State {
    var after := RunLines(m, body, s, false);
    if after.status != 0 then after.(exited := true) else after
  }

  /** One part after the other, until one fails or ends the shell. */
  function InTurn(m: Tools, parts: seq<seq<Chain>>, i: nat, s: State): State
    requires i <= |parts|
    decreases |parts| - i
  {
    if s.exited || i == |parts| then s else InTurn(m, parts, i + 1, Own(m, parts[i], s))
  }

  /** The line of the script that stands for a part: a bare command, or a guard. */
  ghost predicate LineFor(line: Chain, part: seq<Chain>) {
    line == OrExit(part) || (exists c :: line == Just(c) && part == [line])
  }

  lemma {:induction false} RunJust(m: Tools, c: Command, s: State, strict: bool)
    requires !s.exited
    ensures RunChain(m, Just(c), 0, s, strict) == RunCommand(m, c, s, strict)
  {
    var chain := Just(c);
    assert chain.links[0].item == Simple(c);
    assert RunItem(m, Simple(c), s, strict) == RunCommand(m, c, s, strict);
    assert RunChain(m, chain, 1, RunCommand(m, c, s, strict), strict) == RunCommand(m, c, s, strict);
  }

  lemma {:induction false} RunOneLine(m: Tools, line: Chain, s: State, strict: bool)
    requires !s.exited
    ensures RunLines(m, [line], s, strict) == RunChain(m, line, 0, s, strict)
  {
    var g := Group([line]);
    var after := RunChain(m, g.body[0], 0, s, strict);
    assert RunGroup(m, g, 1, after, strict) == after;
    assert RunGroup(m, g, 0, s, strict) == RunGroup(m, g, 1, after, strict);
  }

  /** The guard turns a failure of the entry, wherever in it, into the script's end. */
  lemma {:induction false} RunGuard(m: Tools, body: seq<Chain>, s: State)
    requires !s.exited
    ensures RunChain(m, OrExit(body), 0, s, true) == Own(m, body, s)
  {
    var chain := OrExit(body);
    var after := RunItem(m, Group(body), s, false);
    assert chain.links[0].item == Group(body) && chain.links[1] == Link(OrElse, Exit);
    assert RunChain(m, chain, 0, s, true) == RunChain(m, chain, 1, after, true);
    if !after.exited && after.status != 0 {
      var gone := after.(exited := true);
      assert RunItem(m, Exit, after, true) == gone;
      assert RunChain(m, chain, 1, after, true) == RunChain(m, chain, 2, gone, true);
      assert RunChain(m, chain, 2, gone, true) == gone;
    } else if !after.exited {
      assert RunChain(m, chain, 1, after, true) == RunChain(m, chain, 2, after, true);
      assert RunChain(m, chain, 2, after, true) == after;
    }
  }

  lemma {:induction false} RunLine(m: Tools, line: Chain, part: seq<Chain>, s: State)
    requires !s.exited && LineFor(line, part)
    ensures RunChain(m, line, 0, s, true) == Own(m, part, s)
  {
    if line == OrExit(part) {
      RunGuard(m, part, s);
    } else {
      var c :| line == Just(c) && part == [line];
      RunJust(m, c, s, true);
      RunJust(m, c, s, false);
      RunOneLine(m, line, s, false);
    }
  }

  lemma {:induction false} RunInTurn(m: Tools, lines: seq<Chain>, parts: seq<seq<Chain>>, i: nat, s: State)
    requires |lines| == |parts| && i <= |lines|
    requires forall j :: 0 <= j < |lines| ==> LineFor(lines[j], parts[j])
    ensures RunGroup(m, Group(lines), i, s, true) == InTurn(m, parts, i, s)
    decreases |lines| - i
  {
    if !s.exited && i < |lines| {
      RunLine(m, lines[i], parts[i], s);
      RunInTurn(m, lines, parts, i + 1, Own(m, parts[i], s));
    }
  }

  function Singles(lines: seq<Chain>): seq<seq<Chain>> {
    seq(|lines|, i requires 0 <= i < |lines| => [lines[i]])
  }

  /** What the script is to do: write the files, then run the entries. */
  function Parts(files: seq<File>, boot: seq<Entry>, run: seq<Entry>): seq<seq<Chain>>
    requires AllReadable(boot) && AllReadable(run)
  {
    Singles(FileLines(files)) + Bodies(boot) + Bodies(run)
  }

  lemma {:induction false} FileLinesAreBare(files: seq<File>, i: nat)
    requires i < |FileLines(files)|
    ensures exists c :: FileLines(files)[i] == Just(c)
    decreases |files|
  {
    var n := |files| - 1;
    var before := FileLines(files[..n]);
    if i < |before| {
      FileLinesAreBare(files[..n], i);
    } else {
      assert FileLines(files)[i] == Just(FileCommands(files[n])[i - |before|]);
    }
  }

  lemma {:induction false} LinesForParts(files: seq<File>, boot: seq<Entry>, run: seq<Entry>, lines: seq<Chain>)
    requires AllReadable(boot) && AllReadable(run)
    requires lines == FileLines(files) + Guards(Bodies(boot)) + Guards(Bodies(run))
    ensures |lines| == |Parts(files, boot, run)|
    ensures forall j :: 0 <= j < |lines| ==> LineFor(lines[j], Parts(files, boot, run)[j])
  {
    forall j | 0 <= j < |lines| ensures LineFor(lines[j], Parts(files, boot, run)[j]) {
      if j < |FileLines(files)| { FileLinesAreBare(files, j); }
    }
  }

  /** Executed, the rendered script does its parts in turn: it writes the files and
      runs the entries until the first failure. */
  lemma {:induction false} ScriptRuns(files: seq<File>, boot: seq<Entry>, run: seq<Entry>, m: Tools)
    requires forall i :: 0 <= i < |files| ==> CleanFile(files[i])
    requires AllReadable(boot) && AllReadable(run)
    ensures ScriptText(files, boot, run).Some? && Lines(ScriptText(files, boot, run).value).Some?
    ensures RunScript(m, Lines(ScriptText(files, boot, run).value).value) == InTurn(m, Parts(files, boot, run), 0, State([], 0, false))
  {
    ScriptReads(files, boot, run);
    var f, b, r := FileLines(files), Guards(Bodies(boot)), Guards(Bodies(run));
    LinesForParts(files, boot, run, f + b + r);
    SetFirst(f, b, r);
    RunAfterSet(m, f + b + r, Parts(files, boot, run));
  }

  lemma {:induction false} SetFirst(a: seq<Chain>, b: seq<Chain>, c: seq<Chain>)
    ensures [SetE] + a + b + c == [SetE] + (a + b + c)
  {
  }

  lemma {:induction false} RunAfterSet(m: Tools, lines: seq<Chain>, parts: seq<seq<Chain>>)
    requires |lines| == |parts| && forall j :: 0 <= j < |lines| ==> LineFor(lines[j], parts[j])
    ensures RunScript(m, [SetE] + lines) == InTurn(m, parts, 0, State([], 0, false))
  {
    assert ([SetE] + lines)[0] == SetE && ([SetE] + lines)[1..] == lines;
    RunInTurn(m, lines, parts, 0, State([], 0, false));
  }

  // ---- what that means

  /** The first n parts, run as scripts of their own with nothing stopping them. */
  function Unchecked(m: Tools, parts: seq<seq<Chain>>, n: nat): State
    requires n <= |parts|
  {
    if n == 0 then State([], 0, false) else RunLines(m, parts[n - 1], Unchecked(m, parts, n - 1), false)
  }

  predicate Fine(s: State) {
    !s.exited && s.status == 0
  }

  lemma {:induction false} InTurnWhileFine(m: Tools, parts: seq<seq<Chain>>, k: nat)
    requires k <= |parts| && forall j :: 0 <= j <= k ==> Fine(Unchecked(m, parts, j))
    ensures InTurn(m, parts, 0, State([], 0, false)) == InTurn(m, parts, k, Unchecked(m, parts, k))
  {
    if k > 0 {
      InTurnWhileFine(m, parts, k - 1);
      assert Fine(Unchecked(m, parts, k - 1)) && Fine(Unchecked(m, parts, k));
      assert Own(m, parts[k - 1], Unchecked(m, parts, k - 1)) == Unchecked(m, parts, k);
    }
  }

  lemma {:induction false} InTurnStops(m: Tools, parts: seq<seq<Chain>>, k: nat)
    requires k <= |parts| && forall j :: 0 <= j <= k ==> Fine(Unchecked(m, parts, j))
    requires k < |parts| ==> !Fine(Unchecked(m, parts, k + 1))
    ensures
      var end := InTurn(m, parts, 0, State([], 0, false));
      if k < |parts| then end == Unchecked(m, parts, k + 1).(exited := true)
      else end == Unchecked(m, parts, k) && end.status == 0
  {
    InTurnWhileFine(m, parts, k);
    assert Fine(Unchecked(m, parts, k));
    if k < |parts| {
      var end := Own(m, parts[k], Unchecked(m, parts, k));
      assert InTurn(m, parts, k + 1, end) == end;
    }
  }

  /** The script exits with the status of the first part that fails or ends the shell
      and runs nothing after it; if none does, it runs them all and exits 0. */
  lemma {:induction false} ScriptStopsAtFirstFailure(files: seq<File>, boot: seq<Entry>, run: seq<Entry>, m: Tools, k: nat)
    requires forall i :: 0 <= i < |files| ==> CleanFile(files[i])
    requires AllReadable(boot) && AllReadable(run)
    requires k <= |Parts(files, boot, run)|
    requires forall j :: 0 <= j <= k ==> Fine(Unchecked(m, Parts(files, boot, run), j))
    requires k < |Parts(files, boot, run)| ==> !Fine(Unchecked(m, Parts(files, boot, run), k + 1))
    ensures ScriptText(files, boot, run).Some? && Lines(ScriptText(files, boot, run).value).Some?
    ensures
      var end := RunScript(m, Lines(ScriptText(files, boot, run).value).value);
      var parts := Parts(files, boot, run);
      if k < |parts| then
        end == Unchecked(m, parts, k + 1).(exited := true)
      else
        end == Unchecked(m, parts, k) && end.status == 0
  {
    ScriptRuns(files, boot, run, m);
    InTurnStops(m, Parts(files, boot, run), k);
  }
}
