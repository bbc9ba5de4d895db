/** How a shell reads the pieces that rendered scripts are made of. */
module ShellReading {
  import opened Objects
  import opened Shell

  // ---- texts read one after the other

  /** Lines already read, put in front of what a parser has at the bottom. */
  function Over(before: seq<Chain>, p: Parser): Parser {
    if p.Wrong? then Wrong
    else if p.open == [] then p.(lines := before + p.lines)
    else p.(open := [p.open[0].(lines := before + p.open[0].lines)] + p.open[1..])
  }

  lemma {:induction false} FinishLineOver(before: seq<Chain>, p: Parser, item: Item)
    requires p.Parser?
    ensures FinishLine(Over(before, p), item) == Over(before, FinishLine(p, item))
  {
    var c := Chain(p.links + [Link(Joining(p), item)]);
    assert before + p.lines + [c] == before + (p.lines + [c]);
  }

  lemma {:induction false} CloseOver(before: seq<Chain>, p: Parser)
    requires p.Parser?
    ensures ParseClose(Over(before, p)) == Over(before, ParseClose(p))
  {
    if p.open != [] {
      var n := |p.open| - 1;
      var q := Over(before, p);
      assert q.open[1..] == p.open[1..];
      if n > 0 { assert q.open[..n] == [q.open[0]] + p.open[..n][1..]; }
    }
  }

  lemma {:induction false} ParseTokenOver(before: seq<Chain>, p: Parser, t: Token)
    requires p.Parser?
    ensures ParseToken(Over(before, p), t) == Over(before, ParseToken(p, t))
  {
    match t
    case Open =>
      var f := Frame(p.lines, p.links, p.joining);
      if p.open != [] { assert (p.open + [f])[1..] == p.open[1..] + [f]; }
    case Close => CloseOver(before, p);
    case Newline =>
      if p.part.Words? { FinishLineOver(before, p, Simple(p.part.command)); }
      if p.part.Whole? { FinishLineOver(before, p, p.part.item); }
    case Document(text) =>
      if p.part.Awaiting? { FinishLineOver(before, p, Simple(p.part.command.(document := Some(text)))); }
    case _ =>
  }

  lemma {:induction false} ParseOver(before: seq<Chain>, p: Parser, tokens: seq<Token>)
    ensures Parse(Over(before, p), tokens) == Over(before, Parse(p, tokens))
    decreases |tokens|
  {
    if tokens != [] {
      if p.Parser? { ParseTokenOver(before, p, tokens[0]); }
      ParseOver(before, ParseToken(p, tokens[0]), tokens[1..]);
    }
  }

  /** The tokens and lines a complete text is read as. */
  ghost predicate Reads(text: string, tokens: seq<Token>, lines: seq<Chain>) {
    Read(AtLineStart([]), text) == AtLineStart(tokens) && Parse(Between([], []), tokens) == Between([], lines)
  }

  lemma {:induction false} ReadsAsLines(text: string, tokens: seq<Token>, lines: seq<Chain>)
    requires Reads(text, tokens, lines)
    ensures Lines(text) == Some(lines)
  {
  }

  lemma {:induction false} LinesAreRead(text: string) returns (tokens: seq<Token>)
    requires Lines(text).Some?
    ensures Reads(text, tokens, Lines(text).value)
  {
    tokens := Read(AtLineStart([]), text).tokens;
  }

  lemma {:induction false} ReadAfterOthers(before: seq<Token>, text: string, tokens: seq<Token>, lines: seq<Chain>)
    requires Reads(text, tokens, lines)
    ensures Read(AtLineStart(before), text) == AtLineStart(before + tokens)
  {
    ReadBehind(before, AtLineStart([]), text);
    assert Behind(before, AtLineStart([])) == AtLineStart(before) by { assert before + [] == before; }
  }

  /** A text that is complete by itself reads the same after another one. */
  lemma {:induction false} LinesConcat(a: string, b: string)
    requires Lines(a).Some? && Lines(b).Some?
    ensures Lines(a + b) == Some(Lines(a).value + Lines(b).value)
  {
    var s := LinesAreRead(a);
    var t := LinesAreRead(b);
    var x, y := Lines(a).value, Lines(b).value;
    ReadConcat(AtLineStart([]), a, b);
    ReadAfterOthers(s, b, t, y);
    ParseConcat(Between([], []), s, t);
    ParseOver(x, Between([], []), t);
    assert Over(x, Between([], [])) == Between([], x) by { assert x + [] == x; }
    ReadsAsLines(a + b, s + t, x + y);
  }

  // ---- words

  lemma {:induction false} ReadPlain(s: Lexer, text: string, quoted: bool, more: string)
    requires s.mode == InWord(text, quoted)
    requires forall i :: 0 <= i < |more| ==> Plain(more[i])
    ensures Read(s, more) == s.(mode := InWord(text + more, quoted))
    decreases |more|
  {
    if more == "" {
      assert text + more == text;
    } else {
      var s' := ReadChar(s, more[0]);
      assert s' == s.(mode := InWord(text + [more[0]], quoted));
      ReadPlain(s', text + [more[0]], quoted, more[1..]);
      assert text + [more[0]] + more[1..] == text + more;
    }
  }

  /** A bare word and the blank after it. */
  lemma {:induction false} ReadBareWord(s: Lexer, word: string)
    requires s.mode == Blank && !s.delimiting
    requires word != "" && word !in ReservedWords && forall i :: 0 <= i < |word| ==> Plain(word[i])
    ensures Read(s, word + " ") == s.(tokens := s.tokens + [Word(word)])
  {
    ReadConcat(s, word, " ");
    assert ReadChar(s, word[0]) == s.(mode := InWord([word[0]], false));
    ReadPlain(ReadChar(s, word[0]), [word[0]], false, word[1..]);
    assert [word[0]] + word[1..] == word;
    ReadOne(Read(s, word), ' ');
  }

  /** Single quotes keep everything but a single quote, which is escaped between two
      quoted stretches. */
  function QuoteBody(s: string): string {
    if s == "" then ""
    else (if s[0] == '\'' then "'\\''" else [s[0]]) + QuoteBody(s[1..])
  }

  lemma {:induction false} ReadEscapedQuote(s: Lexer, text: string)
    requires s.mode == Quoted(text)
    ensures Read(s, "'\\''") == s.(mode := Quoted(text + "'"))
  {
    var s1 := s.(mode := InWord(text, true));
    var s2 := s.(mode := Escaped(InWord(text, true)));
    var s3 := s.(mode := InWord(text + "'", true));
    assert ReadChar(s, '\'') == s1 && ReadChar(s1, '\\') == s2 && ReadChar(s2, '\'') == s3;
    assert "'\\''" == "'" + ("\\" + ("'" + "'"));
    ReadConcat(s, "'", "\\" + ("'" + "'"));
    ReadConcat(s1, "\\", "'" + "'");
    ReadConcat(s2, "'", "'");
    ReadOne(s, '\'');
    ReadOne(s1, '\\');
    ReadOne(s2, '\'');
    ReadOne(s3, '\'');
  }

  lemma {:induction false} ReadQuoteBody(s: Lexer, text: string, arg: string)
    requires s.mode == Quoted(text) && '\0' !in arg
    ensures Read(s, QuoteBody(arg)) == s.(mode := Quoted(text + arg))
    decreases |arg|
  {
    if arg == "" {
      assert text + arg == text;
    } else {
      var piece := if arg[0] == '\'' then "'\\''" else [arg[0]];
      var s' := s.(mode := Quoted(text + [arg[0]]));
      ReadConcat(s, piece, QuoteBody(arg[1..]));
      if arg[0] == '\'' { ReadEscapedQuote(s, text); } else { ReadOne(s, arg[0]); }
      assert Read(s, piece) == s';
      ReadQuoteBody(s', text + [arg[0]], arg[1..]);
      assert text + [arg[0]] + arg[1..] == text + arg;
    }
  }

  /** A quoted argument is read as one word with exactly its characters. */
  lemma {:induction false} ReadQuoted(s: Lexer, arg: string)
    requires s.mode == Blank && '\0' !in arg
    ensures Read(s, "'" + QuoteBody(arg) + "'") == s.(mode := InWord(arg, true))
  {
    var open := s.(mode := Quoted(""));
    assert "'" + QuoteBody(arg) + "'" == "'" + (QuoteBody(arg) + "'");
    ReadConcat(s, "'", QuoteBody(arg) + "'");
    ReadOne(s, '\'');
    ReadConcat(open, QuoteBody(arg), "'");
    ReadQuoteBody(open, "", arg);
    assert "" + arg == arg;
    ReadOne(s.(mode := Quoted(arg)), '\'');
  }

  function WordTokens(args: seq<string>): seq<Token> {
    seq(|args|, i requires 0 <= i < |args| => Word(args[i]))
  }

  // ---- comments and blank lines

  lemma {:induction false} ReadComment(s: Lexer, text: string)
    requires s.mode == Comment && '\n' !in text
    ensures Read(s, text) == s
    decreases |text|
  {
    if text != "" { ReadComment(s, text[1..]); }
  }

  lemma {:induction false} CommentIsNoLine(text: string)
    requires '\n' !in text
    ensures Lines("#" + text + "\n") == Some([])
  {
    var s := AtLineStart([]);
    var c := s.(mode := Comment);
    assert "#" + text + "\n" == "#" + (text + "\n");
    ReadConcat(s, "#", text + "\n");
    ReadOne(s, '#');
    ReadConcat(c, text, "\n");
    ReadComment(c, text);
    ReadOne(c, '\n');
    ParseOne(Between([], []), Newline);
    ReadsAsLines("#" + text + "\n", [Newline], []);
  }

  lemma {:induction false} BlankIsNoLine()
    ensures Lines("\n") == Some([])
  {
    ReadOne(AtLineStart([]), '\n');
    ParseOne(Between([], []), Newline);
    ReadsAsLines("\n", [Newline], []);
  }

  // ---- simple commands

  function Just(c: Command): Chain {
    Chain([Link(AndThen, Simple(c))])
  }

  lemma {:induction false} ParseWords(p: Parser, c: Command, args: seq<string>)
    requires p.Parser? && p.part == Words(c, None, false)
    ensures Parse(p, WordTokens(args)) == p.(part := Words(c.(words := c.words + args), None, false))
    decreases |args|
  {
    if args == [] {
      assert WordTokens(args) == [] && c.words + args == c.words;
    } else {
      var c' := c.(words := c.words + [args[0]]);
      assert WordTokens(args)[0] == Word(args[0]) && WordTokens(args)[1..] == WordTokens(args[1..]);
      ParseWords(p.(part := Words(c', None, false)), c', args[1..]);
      assert c.words + [args[0]] + args[1..] == c.words + args;
    }
  }

  lemma {:induction false} ParseFirstWords(p: Parser, args: seq<string>)
    requires p.Parser? && p.part.Nothing? && args != []
    ensures Parse(p, WordTokens(args)) == p.(part := Words(Command(args, None, None), None, false))
  {
    var c := Command([args[0]], None, None);
    assert WordTokens(args)[0] == Word(args[0]) && WordTokens(args)[1..] == WordTokens(args[1..]);
    ParseWords(p.(part := Words(c, None, false)), c, args[1..]);
    assert [args[0]] + args[1..] == args;
  }

  lemma {:induction false} ParseCommand(args: seq<string>)
    ensures Parse(Between([], []), WordTokens(args) + [Newline]) ==
            Between([], if args == [] then [] else [Just(Command(args, None, None))])
  {
    var p := Between([], []);
    ParseConcat(p, WordTokens(args), [Newline]);
    if args == [] {
      assert WordTokens(args) == [];
      ParseOne(p, Newline);
    } else {
      ParseFirstWords(p, args);
      ParseOne(Parse(p, WordTokens(args)), Newline);
      assert [] + [Link(AndThen, Simple(Command(args, None, None)))] == [Link(AndThen, Simple(Command(args, None, None)))];
    }
  }

  // ---- guards

  /** { body } || exit $? */
  function OrExit(body: seq<Chain>): Chain {
    Chain([Link(AndThen, Group(body)), Link(OrElse, Exit)])
  }

  const GuardEnd: seq<Token> := [Close, Or, Word("exit"), Status, Newline]

  lemma {:induction false} ReadExit(tokens: seq<Token>)
    ensures Read(AtLineStart(tokens), "exit " + "$?\n") == AtLineStart(tokens + [Word("exit"), Status, Newline])
  {
    ReadConcat(AtLineStart(tokens), "exit ", "$?\n");
    assert "exit " == "exit" + " ";
    ReadBareWord(AtLineStart(tokens), "exit");
    ReadStatusSign(tokens + [Word("exit")]);
    assert tokens + [Word("exit")] + [Status, Newline] == tokens + [Word("exit"), Status, Newline];
  }

  lemma {:induction false} ReadClose(tokens: seq<Token>)
    ensures Read(AtLineStart(tokens), "} ") == AtLineStart(tokens + [Close])
  {
    ReadPair(AtLineStart(tokens), '}', ' ');
  }

  lemma {:induction false} ReadGuardEnd(tokens: seq<Token>, text: string)
    requires text == "} " + ("|| " + ("exit " + "$?\n"))
    ensures Read(AtLineStart(tokens), text) == AtLineStart(tokens + GuardEnd)
  {
    var exit := "exit " + "$?\n";
    ReadConcat(AtLineStart(tokens), "} ", "|| " + exit);
    ReadClose(tokens);
    ReadConcat(AtLineStart(tokens + [Close]), "|| ", exit);
    ReadOrSign(tokens + [Close]);
    ReadExit(tokens + [Close] + [Or]);
    assert tokens + [Close] + [Or] + [Word("exit"), Status, Newline] == tokens + GuardEnd;
  }

  lemma {:induction false} ReadPair(s: Lexer, a: char, b: char)
    ensures Read(s, [a, b]) == ReadChar(ReadChar(s, a), b)
  {
    assert [a, b] == [a] + [b];
    ReadConcat(s, [a], [b]);
    ReadOne(s, a);
    ReadOne(ReadChar(s, a), b);
  }

  lemma {:induction false} ReadOrSign(tokens: seq<Token>)
    ensures Read(AtLineStart(tokens), "|| ") == AtLineStart(tokens + [Or])
  {
    assert "|| " == "||" + " ";
    ReadConcat(AtLineStart(tokens), "||", " ");
    ReadPair(AtLineStart(tokens), '|', '|');
    ReadOne(AtLineStart(tokens + [Or]), ' ');
  }

  lemma {:induction false} ReadStatusSign(tokens: seq<Token>)
    ensures Read(AtLineStart(tokens), "$?\n") == AtLineStart(tokens + [Status, Newline])
  {
    assert "$?\n" == "$?" + "\n";
    ReadConcat(AtLineStart(tokens), "$?", "\n");
    ReadPair(AtLineStart(tokens), '$', '?');
    ReadOne(AtLineStart(tokens + [Status]), '\n');
    assert tokens + [Status] + [Newline] == tokens + [Status, Newline];
  }

  lemma {:induction false} ParseGuardEnd(body: seq<Chain>)
    requires body != []
    ensures Parse(Between([Frame([], [], None)], body), GuardEnd) == Between([], [OrExit(body)])
  {
    var p := Between([Frame([], [], None)], body);
    var p1 := Parser([], [], [], None, Whole(Group(body)));
    var p2 := Parser([], [], [Link(AndThen, Group(body))], Some(OrElse), Nothing);
    var p3 := p2.(part := Words(Command(["exit"], None, None), None, false));
    var p4 := p2.(part := Whole(Exit));
    assert ParseToken(p, Close) == p1 && ParseToken(p1, Or) == p2 && ParseToken(p2, Word("exit")) == p3;
    assert p4.links + [Link(OrElse, Exit)] == OrExit(body).links;
    assert ParseToken(p3, Status) == p4 && ParseToken(p4, Newline) == Between([], [OrExit(body)]);
    assert GuardEnd == [Close] + ([Or] + ([Word("exit")] + ([Status] + [Newline])));
    ParseConcat(p, [Close], [Or] + ([Word("exit")] + ([Status] + [Newline])));
    ParseConcat(p1, [Or], [Word("exit")] + ([Status] + [Newline]));
    ParseConcat(p2, [Word("exit")], [Status] + [Newline]);
    ParseConcat(p3, [Status], [Newline]);
    ParseOne(p, Close);
    ParseOne(p1, Or);
    ParseOne(p2, Word("exit"));
    ParseOne(p3, Status);
    ParseOne(p4, Newline);
  }

  lemma {:induction false} ParseGuard(tokens: seq<Token>, body: seq<Chain>)
    requires Parse(Between([], []), tokens) == Between([], body) && body != []
    ensures Parse(Between([], []), [Open, Newline] + tokens + GuardEnd) == Between([], [OrExit(body)])
  {
    var inside := [Frame([], [], None)];
    var p := Between([], []);
    ParseConcat(p, [Open, Newline] + tokens, GuardEnd);
    ParseConcat(p, [Open, Newline], tokens);
    assert [Open, Newline] == [Open] + [Newline];
    ParseConcat(p, [Open], [Newline]);
    ParseOne(p, Open);
    assert [] + inside == inside;
    ParseOne(Between(inside, []), Newline);
    ParseUnder(inside, p, tokens);
    assert Under(inside, p) == Between(inside, []) by { assert inside + [] == inside; }
    ParseGuardEnd(body);
  }

  lemma {:induction false} GuardPieces(line: string) returns (end: string)
    ensures end == "} " + ("|| " + ("exit " + "$?\n"))
    ensures "{\n" + line + "\n} || exit $?" + "\n" == "{\n" + ((line + "\n") + end)
  {
    end := "} || exit $?\n";
  }

  lemma {:induction false} ReadGuard(entry: string, end: string, tokens: seq<Token>, body: seq<Chain>)
    requires Reads(entry, tokens, body) && end == "} " + ("|| " + ("exit " + "$?\n"))
    ensures Read(AtLineStart([]), "{\n" + (entry + end)) == AtLineStart([Open, Newline] + tokens + GuardEnd)
  {
    var s := AtLineStart([]);
    ReadConcat(s, "{\n", entry + end);
    ReadPair(s, '{', '\n');
    assert [] + [Open] + [Newline] == [Open, Newline];
    assert Read(s, "{\n") == AtLineStart([Open, Newline]);
    ReadConcat(AtLineStart([Open, Newline]), entry, end);
    ReadAfterOthers([Open, Newline], entry, tokens, body);
    ReadGuardEnd([Open, Newline] + tokens, end);
  }

  /** Whatever an entry is by itself, with comments, quotes or here-documents of its
      own, inside its guard it is the same, and the guard stays whole. */
  lemma {:induction false} GuardKeepsEntry(line: string)
    requires Lines(line + "\n").Some? && Lines(line + "\n").value != []
    ensures Lines("{\n" + line + "\n} || exit $?" + "\n") == Some([OrExit(Lines(line + "\n").value)])
  {
    var tokens := LinesAreRead(line + "\n");
    var body := Lines(line + "\n").value;
    var end := GuardPieces(line);
    ReadGuard(line + "\n", end, tokens, body);
    ParseGuard(tokens, body);
    ReadsAsLines("{\n" + ((line + "\n") + end), [Open, Newline] + tokens + GuardEnd, [OrExit(body)]);
  }
}
