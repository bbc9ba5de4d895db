/** What a shell makes of a rendered script: the files it writes and the commands it
    runs are those of the cloud-config. */
module CloudInitMeaning {
  import opened Objects
  import opened Shell
  import opened ShellReading
  import opened Base64
  import opened CloudInit

  predicate Clean(s: string) {
    '\0' !in s
  }

  // ---- argument vectors

  lemma {:induction false} ReadJoined(tokens: seq<Token>, args: seq<string>)
    requires forall i :: 0 <= i < |args| ==> Clean(args[i])
    ensures Read(AtLineStart(tokens), Joined(Quotes(args)) + "\n") == AtLineStart(tokens + WordTokens(args) + [Newline])
    decreases |args|
  {
    var s := AtLineStart(tokens);
    if |args| == 0 {
      assert Joined(Quotes(args)) + "\n" == "\n";
      assert tokens + WordTokens(args) + [Newline] == tokens + [Newline];
      ReadOne(s, '\n');
    } else if |args| == 1 {
      ReadLastWord(tokens, args[0]);
      assert WordTokens(args) == [Word(args[0])];
      assert tokens + [Word(args[0])] + [Newline] == tokens + WordTokens(args) + [Newline];
    } else {
      var rest := Joined(Quotes(args[1..])) + "\n";
      assert Quotes(args)[1..] == Quotes(args[1..]);
      assert Joined(Quotes(args)) + "\n" == (ShellQuote(args[0]) + " ") + rest;
      ReadConcat(s, ShellQuote(args[0]) + " ", rest);
      ReadMiddleWord(tokens, args[0]);
      ReadJoined(tokens + [Word(args[0])], args[1..]);
      assert tokens + [Word(args[0])] + WordTokens(args[1..]) == tokens + WordTokens(args);
    }
  }

  lemma {:induction false} ReadMiddleWord(tokens: seq<Token>, arg: string)
    requires Clean(arg)
    ensures Read(AtLineStart(tokens), ShellQuote(arg) + " ") == AtLineStart(tokens + [Word(arg)])
  {
    ReadConcat(AtLineStart(tokens), ShellQuote(arg), " ");
    ReadQuoted(AtLineStart(tokens), arg);
    ReadOne(AtLineStart(tokens).(mode := InWord(arg, true)), ' ');
  }

  lemma {:induction false} ReadLastWord(tokens: seq<Token>, arg: string)
    requires Clean(arg)
    ensures Read(AtLineStart(tokens), ShellQuote(arg) + "\n") == AtLineStart(tokens + [Word(arg)] + [Newline])
  {
    ReadConcat(AtLineStart(tokens), ShellQuote(arg), "\n");
    ReadQuoted(AtLineStart(tokens), arg);
    ReadOne(AtLineStart(tokens).(mode := InWord(arg, true)), '\n');
  }

  /** For every vector of NUL-free arguments, empty ones and any mix of quotes
      included, the shell reads the rendered line as exactly that vector. */
  lemma {:induction false} ArgvRoundTrip(args: seq<string>)
    requires forall i :: 0 <= i < |args| ==> Clean(args[i])
    ensures Read(AtLineStart([]), Joined(Quotes(args)) + "\n") == AtLineStart(WordTokens(args) + [Newline])
    ensures Lines(Joined(Quotes(args)) + "\n") == Some(if args == [] then [] else [Just(Command(args, None, None))])
  {
    ReadJoined([], args);
    assert [] + WordTokens(args) == WordTokens(args);
    ParseCommand(args);
    ReadsAsLines(Joined(Quotes(args)) + "\n", WordTokens(args) + [Newline], if args == [] then [] else [Just(Command(args, None, None))]);
  }

  // ---- files

  function BareText(words: seq<string>): string {
    if words == [] then "" else words[0] + " " + BareText(words[1..])
  }

  predicate Bare(word: string) {
    word != "" && word !in ReservedWords && forall i :: 0 <= i < |word| ==> Plain(word[i])
  }

  lemma {:induction false} ReadBareText(tokens: seq<Token>, words: seq<string>)
    requires forall i :: 0 <= i < |words| ==> Bare(words[i])
    ensures Read(AtLineStart(tokens), BareText(words)) == AtLineStart(tokens + WordTokens(words))
    decreases |words|
  {
    if words == [] {
      assert tokens + WordTokens(words) == tokens;
    } else {
      ReadConcat(AtLineStart(tokens), words[0] + " ", BareText(words[1..]));
      ReadBareWord(AtLineStart(tokens), words[0]);
      ReadBareText(tokens + [Word(words[0])], words[1..]);
      assert tokens + [Word(words[0])] + WordTokens(words[1..]) == tokens + WordTokens(words);
    }
  }

  /** A line of bare words and quoted ones. */
  lemma {:induction false} CommandLine(words: seq<string>, args: seq<string>, text: string)
    requires forall i :: 0 <= i < |words| ==> Bare(words[i])
    requires forall i :: 0 <= i < |args| ==> Clean(args[i])
    requires words != [] && text == BareText(words) + (Joined(Quotes(args)) + "\n")
    ensures Lines(text) == Some([Just(Command(words + args, None, None))])
  {
    ReadMixed(words, args, text);
    ParseCommand(words + args);
    ReadsAsLines(text, WordTokens(words + args) + [Newline], [Just(Command(words + args, None, None))]);
  }

  lemma {:induction false} WordTokensConcat(words: seq<string>, args: seq<string>)
    ensures [] + WordTokens(words) == WordTokens(words)
    ensures WordTokens(words) + WordTokens(args) == WordTokens(words + args)
  {
  }

  lemma {:induction false} ReadMixed(words: seq<string>, args: seq<string>, text: string)
    requires forall i :: 0 <= i < |words| ==> Bare(words[i])
    requires forall i :: 0 <= i < |args| ==> Clean(args[i])
    requires text == BareText(words) + (Joined(Quotes(args)) + "\n")
    ensures Read(AtLineStart([]), text) == AtLineStart(WordTokens(words + args) + [Newline])
  {
    ReadConcat(AtLineStart([]), BareText(words), Joined(Quotes(args)) + "\n");
    ReadBareText([], words);
    ReadJoined(WordTokens(words), args);
    WordTokensConcat(words, args);
  }

  lemma {:induction false} DirLineReads(path: string)
    requires Clean(path)
    ensures Lines(DirLine(path)) == Some([Just(Command(["install", "-d", "-m", "0755", DirOf(path)], None, None))])
  {
    DirLineOf("install", "-d", "-m", "0755", path);
  }

  lemma {:induction false} DirLineOf(a: string, b: string, c: string, d: string, path: string)
    requires a == "install" && b == "-d" && c == "-m" && d == "0755" && Clean(path)
    ensures Lines(DirLine(path)) == Some([Just(Command([a, b, c, d, DirOf(path)], None, None))])
  {
    var dir := DirOf(path);
    InstallText(a, b, c, d);
    InstallLetters(a, b, c, d);
    assert Joined(Quotes([dir])) == ShellQuote(dir);
    CommandLine([a, b, c, d], [dir], DirLine(path));
    assert [a, b, c, d] + [dir] == [a, b, c, d, dir];
  }

  lemma {:induction false} InstallLetters(a: string, b: string, c: string, d: string)
    requires a == "install" && b == "-d" && c == "-m" && d == "0755"
    ensures a + " " + b + " " + c + " " + d + " " == "install -d -m 0755 "
    ensures Bare(a) && Bare(b) && Bare(c) && Bare(d)
  {
  }

  lemma {:induction false} InstallText(a: string, b: string, c: string, d: string)
    ensures BareText([a, b, c, d]) == a + " " + b + " " + c + " " + d + " "
  {
    assert [a, b, c, d][1..] == [b, c, d] && [b, c, d][1..] == [c, d] && [c, d][1..] == [d] && [d][1..] == [];
    assert BareText([d]) == d + " ";
    assert BareText([c, d]) == c + " " + BareText([d]);
    assert BareText([b, c, d]) == b + " " + BareText([c, d]);
  }

  lemma {:induction false} SettingLineReads(tool: string, value: string, path: string)
    requires Bare(tool) && Clean(value) && Clean(path)
    ensures Lines(SettingLine(tool, value, path)) ==
            Some(if value == "" then [] else [Just(Command([tool, value, path], None, None))])
  {
    if value == "" {
      assert Parse(Between([], []), []) == Between([], []);
    } else {
      var text := SettingLine(tool, value, path);
      assert Quotes([value, path])[1..] == [ShellQuote(path)];
      assert Joined(Quotes([value, path])) + "\n" == ShellQuote(value) + " " + ShellQuote(path) + "\n";
      assert [tool][1..] == [];
      assert BareText([tool]) == tool + " ";
      CommandLine([tool], [value, path], text);
      assert [tool] + [value, path] == [tool, value, path];
    }
  }

  // ---- the here-document

  /** A delimiter no payload line can be, and that quotes as itself. */
  predicate Safe(delimiter: string) {
    '_' in delimiter && '\n' !in delimiter && '\'' !in delimiter && '\0' !in delimiter
  }

  lemma {:induction false} DelimiterIsSafe()
    ensures Safe(HeredocDelimiter)
  {
    assert HeredocDelimiter[8] == '_';
  }

  /** What a here-document's reader has after the lines of text. */
  function InBody(d: string, tokens: seq<Token>, text: string, line: string): Lexer {
    Lexer(Body(d, text, line), tokens, false, None)
  }

  lemma {:induction false} ReadInLine(d: string, tokens: seq<Token>, text: string, line: string, more: string)
    requires '\n' !in more
    ensures Read(InBody(d, tokens, text, line), more) == InBody(d, tokens, text, line + more)
    decreases |more|
  {
    if more == "" {
      assert line + more == line;
    } else {
      ReadInLine(d, tokens, text, line + [more[0]], more[1..]);
      assert line + [more[0]] + more[1..] == line + more;
    }
  }

  predicate Payload(line: string) {
    forall i :: 0 <= i < |line| ==> IsDigit(line[i])
  }

  /** No line of payload can be the delimiter: it has an underscore. */
  lemma {:induction false} PayloadIsNotDelimiter(d: string, line: string)
    requires Payload(line) && Safe(d)
    ensures line != d && '\n' !in line
  {
    assert '_' !in line;
  }

  lemma {:induction false} ReadPayloadLine(d: string, tokens: seq<Token>, text: string, line: string)
    requires Payload(line) && Safe(d)
    ensures Read(InBody(d, tokens, text, ""), line + "\n") == InBody(d, tokens, text + line + "\n", "")
  {
    PayloadIsNotDelimiter(d, line);
    ReadConcat(InBody(d, tokens, text, ""), line, "\n");
    ReadInLine(d, tokens, text, "", line);
    assert "" + line == line;
    ReadOne(InBody(d, tokens, text, line), '\n');
  }

  lemma {:induction false} ReadWrapped(d: string, tokens: seq<Token>, text: string, encoded: string)
    requires Payload(encoded) && Safe(d)
    ensures Read(InBody(d, tokens, text, ""), Wrapped(encoded)) == InBody(d, tokens, text + Wrapped(encoded), "")
    decreases |encoded|
  {
    if |encoded| > Width {
      var head, tail := encoded[..Width], encoded[Width..];
      ReadConcat(InBody(d, tokens, text, ""), head + "\n", Wrapped(tail));
      ReadPayloadLine(d, tokens, text, head);
      ReadWrapped(d, tokens, text + head + "\n", tail);
    } else {
      ReadPayloadLine(d, tokens, text, encoded);
    }
    WrappedAfter(text, encoded);
  }

  lemma {:induction false} WrappedAfter(text: string, encoded: string)
    ensures |encoded| > Width ==> text + encoded[..Width] + "\n" + Wrapped(encoded[Width..]) == text + Wrapped(encoded)
    ensures |encoded| <= Width ==> text + encoded + "\n" == text + Wrapped(encoded)
  {
  }

  lemma {:induction false} ReadDelimiter(d: string, tokens: seq<Token>, text: string)
    requires Safe(d)
    ensures Read(InBody(d, tokens, text, ""), d + "\n") == AtLineStart(tokens + [Document(text)])
  {
    ReadConcat(InBody(d, tokens, text, ""), d, "\n");
    ReadInLine(d, tokens, text, "", d);
    assert "" + d == d;
    ReadOne(InBody(d, tokens, text, d), '\n');
  }

  function Unwrapped(text: string): string {
    if text == "" then "" else (if text[0] == '\n' then "" else [text[0]]) + Unwrapped(text[1..])
  }

  lemma {:induction false} UnwrappedConcat(a: string, b: string)
    ensures Unwrapped(a + b) == Unwrapped(a) + Unwrapped(b)
    decreases |a|
  {
    if a == "" {
      assert a + b == b;
    } else {
      assert (a + b)[0] == a[0] && (a + b)[1..] == a[1..] + b;
      UnwrappedConcat(a[1..], b);
    }
  }

  lemma {:induction false} UnwrappedLine(a: string)
    requires '\n' !in a
    ensures Unwrapped(a) == a
    decreases |a|
  {
    if a != "" { UnwrappedLine(a[1..]); }
  }

  lemma {:induction false} UnwrapsBack(encoded: string)
    requires Payload(encoded)
    ensures Unwrapped(Wrapped(encoded)) == encoded
    decreases |encoded|
  {
    assert Unwrapped("\n") == "" by { assert "\n"[1..] == ""; }
    if |encoded| > Width {
      var head, tail := encoded[..Width], encoded[Width..];
      UnwrappedLine(head);
      UnwrappedConcat(head, "\n");
      UnwrappedConcat(head + "\n", Wrapped(tail));
      UnwrapsBack(tail);
    } else {
      UnwrappedLine(encoded);
      UnwrappedConcat(encoded, "\n");
    }
  }

  /** base64 -d: the lines are one encoding. */
  function DecodeDocument(text: string): Option<seq<Byte>> {
    Decode(Unwrapped(text))
  }

  lemma {:induction false} DocumentHoldsContent(content: seq<Byte>)
    ensures DecodeDocument(Wrapped(Encode(content))) == Some(content)
  {
    forall i | 0 <= i < |Encode(content)| ensures IsDigit(Encode(content)[i]) { EncodedIsDigits(content, i); }
    UnwrapsBack(Encode(content));
    RoundTrip(content);
  }

  /** The payload's lines: all but the last are exactly 76 characters, the last is not
      longer, and together they are the encoding. */
  ghost predicate WrappedInto(d: string, encoded: string, lines: seq<string>) {
    && lines != []
    && (forall i :: 0 <= i < |lines| - 1 ==> |lines[i]| == 76)
    && |lines[|lines| - 1]| <= 76
    && (forall i :: 0 <= i < |lines| ==> Payload(lines[i]) && lines[i] != d)
    && Concat(lines, "") == encoded
    && Concat(lines, "\n") == Wrapped(encoded)
  }

  function Concat(lines: seq<string>, end: string): string {
    if lines == [] then "" else lines[0] + end + Concat(lines[1..], end)
  }

  lemma {:induction false} WrapLines(d: string, encoded: string) returns (lines: seq<string>)
    requires Payload(encoded) && Safe(d)
    ensures WrappedInto(d, encoded, lines)
    decreases |encoded|
  {
    if |encoded| > Width {
      var head, tail := encoded[..Width], encoded[Width..];
      var rest := WrapLines(d, tail);
      lines := [head] + rest;
      PayloadIsNotDelimiter(d, head);
      assert lines[1..] == rest;
      assert head + "" + tail == encoded;
    } else {
      lines := [encoded];
      PayloadIsNotDelimiter(d, encoded);
      assert lines[1..] == [];
      assert Concat(lines[1..], "") == "" && Concat(lines[1..], "\n") == "";
    }
  }

  /** The lines wrapBase64 emits, for every content. */
  lemma {:induction false} PayloadLines(content: seq<Byte>) returns (lines: seq<string>)
    ensures WrappedInto(HeredocDelimiter, Encode(content), lines)
  {
    DelimiterIsSafe();
    forall i | 0 <= i < |Encode(content)| ensures IsDigit(Encode(content)[i]) { EncodedIsDigits(content, i); }
    lines := WrapLines(HeredocDelimiter, Encode(content));
  }

  // ---- one file

  function BlockCommand(f: File): Command {
    Command(["base64", "-d"], Some(Wrapped(Encode(f.content))), Some(Redirect(f.append, f.path)))
  }

  /** Reading << 'delimiter' and the blank after it. */
  lemma {:induction false} ReadHere(d: string, tokens: seq<Token>)
    requires Safe(d)
    ensures Read(AtLineStart(tokens), "<<" + ("'" + d + "'") + " ") == Lexer(Blank, tokens + [Here(d)], false, Some(d))
  {
    HerePieces(d);
    ReadConcat(AtLineStart(tokens), "<<", "'" + (d + "' "));
    ReadPair(AtLineStart(tokens), '<', '<');
    ReadHereWord(d, tokens);
  }

  lemma {:induction false} HerePieces(d: string)
    ensures "<<" + ("'" + d + "'") + " " == "<<" + ("'" + (d + "' "))
  {
  }

  lemma {:induction false} ReadHereWord(d: string, tokens: seq<Token>)
    requires Safe(d)
    ensures Read(Lexer(After('h'), tokens, true, None), "'" + (d + "' ")) == Lexer(Blank, tokens + [Here(d)], false, Some(d))
  {
    var s1 := Lexer(After('h'), tokens, true, None);
    var s2 := Lexer(Quoted(d), tokens, true, None);
    ReadConcat(s1, "'", d + "' ");
    ReadOne(s1, '\'');
    ReadConcat(s1.(mode := Quoted("")), d, "' ");
    PlainQuotesItself(d);
    ReadQuoteBody(s1.(mode := Quoted("")), "", d);
    assert "" + d == d;
    ReadPair(s2, '\'', ' ');
  }

  lemma {:induction false} PlainQuotesItself(s: string)
    requires '\'' !in s
    ensures QuoteBody(s) == s
    decreases |s|
  {
    if s != "" { PlainQuotesItself(s[1..]); }
  }

  lemma {:induction false} ReadRedirect(s: Lexer, append: bool)
    requires s.mode == Blank && !s.delimiting
    ensures Read(s, (if append then ">>" else ">") + " ") == s.(tokens := s.tokens + [Out(append)])
  {
    if append {
      ReadConcat(s, ">>", " ");
      ReadPair(s, '>', '>');
      ReadOne(s.(tokens := s.tokens + [Out(true)]), ' ');
    } else {
      assert ">" + " " == ['>', ' '];
      ReadPair(s, '>', ' ');
    }
  }

  lemma {:induction false} ReadPath(d: string, tokens: seq<Token>, path: string)
    requires Clean(path)
    ensures Read(Lexer(Blank, tokens, false, Some(d)), ShellQuote(path) + "\n") ==
            InBody(d, tokens + [Word(path), Newline], "", "")
  {
    var s := Lexer(Blank, tokens, false, Some(d));
    ReadConcat(s, ShellQuote(path), "\n");
    ReadQuoted(s, path);
    ReadOne(s.(mode := InWord(path, true)), '\n');
    assert tokens + [Word(path)] + [Newline] == tokens + [Word(path), Newline];
  }

  lemma {:induction false} ReadBase64(tokens: seq<Token>)
    ensures Read(AtLineStart(tokens), "base64 -d ") == AtLineStart(tokens + [Word("base64"), Word("-d")])
  {
    var words := ["base64", "-d"];
    assert words[1..] == ["-d"] && words[1..][1..] == [];
    assert BareText(["-d"]) == "-d ";
    assert BareText(words) == "base64 -d ";
    ReadBareText(tokens, words);
    assert WordTokens(words) == [Word("base64"), Word("-d")];
  }

  function BlockTokens(d: string, append: bool, path: string): seq<Token> {
    [Word("base64"), Word("-d")] + [Here(d)] + [Out(append)] + [Word(path), Newline]
  }

  lemma {:induction false} ReadRedirection(d: string, tokens: seq<Token>, append: bool, path: string)
    requires Clean(path)
    ensures Read(Lexer(Blank, tokens, false, Some(d)), ((if append then ">>" else ">") + " ") + (ShellQuote(path) + "\n")) ==
            InBody(d, tokens + [Out(append)] + [Word(path), Newline], "", "")
  {
    var s := Lexer(Blank, tokens, false, Some(d));
    ReadConcat(s, (if append then ">>" else ">") + " ", ShellQuote(path) + "\n");
    ReadRedirect(s, append);
    ReadPath(d, tokens + [Out(append)], path);
  }

  lemma {:induction false} ReadBlockHead(d: string, append: bool, path: string)
    requires Clean(path) && Safe(d)
    ensures Read(AtLineStart([]), BlockHead(d, if append then ">>" else ">", path)) == InBody(d, BlockTokens(d, append, path), "", "")
  {
    var redirect := if append then ">>" else ">";
    var here := "<<" + ("'" + d + "'") + " ";
    var end := (redirect + " ") + (ShellQuote(path) + "\n");
    var t := [Word("base64"), Word("-d")];
    BlockHeadPieces(d, redirect, path, here, end);
    ReadConcat(AtLineStart([]), "base64 -d ", here + end);
    ReadBase64([]);
    assert [] + t == t;
    ReadConcat(AtLineStart(t), here, end);
    ReadHere(d, t);
    ReadRedirection(d, t + [Here(d)], append, path);
  }

  lemma {:induction false} BlockHeadPieces(d: string, redirect: string, path: string, here: string, end: string)
    requires here == "<<" + ("'" + d + "'") + " " && end == (redirect + " ") + (ShellQuote(path) + "\n")
    ensures BlockHead(d, redirect, path) == "base64 -d " + (here + end)
  {
  }

  lemma {:induction false} ReadBlock(d: string, f: File)
    requires Clean(f.path) && Safe(d)
    ensures Read(AtLineStart([]), BlockText(d, f)) ==
            AtLineStart(BlockTokens(d, f.append, f.path) + [Document(Wrapped(Encode(f.content)))])
  {
    var head := BlockHead(d, if f.append then ">>" else ">", f.path);
    var encoded := Encode(f.content);
    var payload := Wrapped(encoded);
    var t := BlockTokens(d, f.append, f.path);
    assert BlockText(d, f) == head + (payload + (d + "\n"));
    ReadConcat(AtLineStart([]), head, payload + (d + "\n"));
    ReadBlockHead(d, f.append, f.path);
    ReadConcat(InBody(d, t, "", ""), payload, d + "\n");
    forall i | 0 <= i < |encoded| ensures IsDigit(encoded[i]) { EncodedIsDigits(f.content, i); }
    ReadWrapped(d, t, "", encoded);
    assert "" + payload == payload;
    ReadDelimiter(d, t, payload);
  }

  lemma {:induction false} ParseHereWords(d: string)
    ensures Parse(Between([], []), [Word("base64"), Word("-d")] + [Here(d)]) ==
            Between([], []).(part := Words(Command(["base64", "-d"], None, None), None, true))
  {
    var p := Between([], []);
    var words := [Word("base64"), Word("-d")];
    assert words == WordTokens(["base64", "-d"]);
    ParseFirstWords(p, ["base64", "-d"]);
    ParseConcat(p, words, [Here(d)]);
    ParseOne(p.(part := Words(Command(["base64", "-d"], None, None), None, false)), Here(d));
  }

  lemma {:induction false} ParseRedirection(c: Command, append: bool, path: string)
    requires c.out.None?
    ensures Parse(Parser([], [], [], None, Words(c, None, true)), [Out(append)] + [Word(path), Newline]) ==
            Parser([], [], [], None, Awaiting(c.(out := Some(Redirect(append, path)))))
  {
    var p := Parser([], [], [], None, Words(c, None, true));
    var p1 := p.(part := Words(c, Some(append), true));
    var p2 := p.(part := Words(c.(out := Some(Redirect(append, path))), None, true));
    ParseConcat(p, [Out(append)], [Word(path), Newline]);
    ParseOne(p, Out(append));
    assert [Word(path), Newline] == [Word(path)] + [Newline];
    ParseConcat(p1, [Word(path)], [Newline]);
    ParseOne(p1, Word(path));
    ParseOne(p2, Newline);
  }

  lemma {:induction false} ParseBlockHead(d: string, append: bool, path: string)
    ensures Parse(Between([], []), BlockTokens(d, append, path)) ==
            Between([], []).(part := Awaiting(Command(["base64", "-d"], None, Some(Redirect(append, path)))))
  {
    var head, tail := [Word("base64"), Word("-d")] + [Here(d)], [Out(append)] + [Word(path), Newline];
    assert BlockTokens(d, append, path) == head + tail;
    ParseConcat(Between([], []), head, tail);
    ParseHereWords(d);
    ParseRedirection(Command(["base64", "-d"], None, None), append, path);
  }

  lemma {:induction false} BlockReads(d: string, f: File)
    requires Clean(f.path) && Safe(d)
    ensures Lines(BlockText(d, f)) == Some([Just(BlockCommand(f))])
  {
    var t, doc := BlockTokens(d, f.append, f.path), Document(Wrapped(Encode(f.content)));
    var c := Command(["base64", "-d"], None, Some(Redirect(f.append, f.path)));
    ReadBlock(d, f);
    ParseBlockHead(d, f.append, f.path);
    ParseConcat(Between([], []), t, [doc]);
    ParseOne(Between([], []).(part := Awaiting(c)), doc);
    assert [] + [Link(AndThen, Simple(BlockCommand(f)))] == [Link(AndThen, Simple(BlockCommand(f)))];
    ReadsAsLines(BlockText(d, f), t + [doc], [Just(BlockCommand(f))]);
  }

  /** The commands that put one file in place. */
  function FileCommands(f: File): seq<Command> {
    [Command(["install", "-d", "-m", "0755", DirOf(f.path)], None, None), BlockCommand(f)]
    + (if f.owner == "" then [] else [Command(["chown", f.owner, f.path], None, None)])
    + (if f.permissions == "" then [] else [Command(["chmod", f.permissions, f.path], None, None)])
  }

  function Justs(commands: seq<Command>): seq<Chain> {
    seq(|commands|, i requires 0 <= i < |commands| => Just(commands[i]))
  }

  predicate CleanFile(f: File) {
    Clean(f.path) && Clean(f.owner) && Clean(f.permissions)
  }

  /** A rendered file, whatever its bytes, is read as the commands that write those
      bytes to its path. */
  lemma {:induction false} FileRoundTrip(f: File)
    requires CleanFile(f)
    ensures Lines(FileText(f)) == Some(Justs(FileCommands(f)))
    ensures Justs(FileCommands(f)) ==
            [Just(Command(["install", "-d", "-m", "0755", DirOf(f.path)], None, None))]
            + [Just(Command(["base64", "-d"], BlockCommand(f).document, Some(Redirect(f.append, f.path))))]
            + (if f.owner == "" then [] else [Just(Command(["chown", f.owner, f.path], None, None))])
            + (if f.permissions == "" then [] else [Just(Command(["chmod", f.permissions, f.path], None, None))])
    ensures BlockCommand(f).document.Some? && DecodeDocument(BlockCommand(f).document.value) == Some(f.content)
  {
    DelimiterIsSafe();
    FileReads(HeredocDelimiter, f);
    FileChains(f);
    DocumentHoldsContent(f.content);
  }

  lemma {:induction false} FileReads(d: string, f: File)
    requires CleanFile(f) && Safe(d)
    ensures Lines(DirLine(f.path) + BlockText(d, f) + SettingLine("chown", f.owner, f.path) + SettingLine("chmod", f.permissions, f.path))
         == Some(Justs(FileCommands(f)))
  {
    var dir, block := DirLine(f.path), BlockText(d, f);
    var chown, chmod := SettingLine("chown", f.owner, f.path), SettingLine("chmod", f.permissions, f.path);
    DirLineReads(f.path);
    BlockReads(d, f);
    SettingsRead(f);
    LinesConcat(dir, block);
    LinesConcat(dir + block, chown);
    LinesConcat(dir + block + chown, chmod);
    FileChains(f);
  }

  lemma {:induction false} FileChains(f: File)
    ensures [Just(Command(["install", "-d", "-m", "0755", DirOf(f.path)], None, None))] + [Just(BlockCommand(f))]
            + (if f.owner == "" then [] else [Just(Command(["chown", f.owner, f.path], None, None))])
            + (if f.permissions == "" then [] else [Just(Command(["chmod", f.permissions, f.path], None, None))])
            == Justs(FileCommands(f))
  {
  }

  lemma {:induction false} SettingsRead(f: File)
    requires CleanFile(f)
    ensures Lines(SettingLine("chown", f.owner, f.path)) ==
            Some(if f.owner == "" then [] else [Just(Command(["chown", f.owner, f.path], None, None))])
    ensures Lines(SettingLine("chmod", f.permissions, f.path)) ==
            Some(if f.permissions == "" then [] else [Just(Command(["chmod", f.permissions, f.path], None, None))])
  {
    SettingLineReads("chown", f.owner, f.path);
    SettingLineReads("chmod", f.permissions, f.path);
  }
}
