/** The part of the POSIX Shell Command Language that rendered bootstrap scripts use:
    quoting (sections 2.2.1 and 2.2.2), tokens (2.3), here-documents (2.7.4), AND-OR
    lists and groups (2.9), and the -e rule of the set built-in.  A text outside this
    part is refused, never read as something else. */
module Shell {
  import opened Objects

  // ---- tokens

  datatype Token =
    | Word(text: string)            // after quote removal
    | And | Or | Open | Close       // && || { }
    | Status                        // $?
    | Newline
    | Out(append: bool)             // > and >>
    | Here(delimiter: string)       // <<'delimiter'
    | Document(text: string)        // the lines of a here-document

  datatype Mode =
    | Blank
    | InWord(text: string, quoted: bool)
    | Quoted(text: string)
    | Escaped(before: Mode)
    | Comment
    | After(operator: char)
    | Body(delimiter: string, text: string, line: string)
    | Broken

  /** delimiting: the next word is a here-document delimiter. */
  datatype Lexer = Lexer(mode: Mode, tokens: seq<Token>, delimiting: bool, pending: Option<string>)

  const ReservedWords: set<string> :=
    {"if", "then", "else", "elif", "fi", "do", "done", "case", "esac", "while", "until", "for", "in",
     "function", "select", "time", "coproc"}

  /** Characters that mean themselves outside quotes. */
  predicate Plain(c: char) {
    'a' <= c <= 'z' || 'A' <= c <= 'Z' || '0' <= c <= '9' || c == '-' || c == '_' || c == '/' || c == '.'
    || c == ':' || c == ',' || c == '+' || c == '@' || c == '%'
  }

  predicate IsBlank(c: char) {
    c == ' ' || c == '\t'
  }

  function AtLineStart(tokens: seq<Token>): Lexer {
    Lexer(Blank, tokens, false, None)
  }

  function Emit(s: Lexer, t: Token): Lexer {
    s.(mode := Blank, tokens := s.tokens + [t])
  }

  function Break(s: Lexer): Lexer {
    s.(mode := Broken)
  }

  function EndLine(s: Lexer): Lexer {
    if s.delimiting then Break(s)
    else
      var s' := Emit(s, Newline);
      if s.pending.Some? then s'.(mode := Body(s.pending.value, "", ""), pending := None) else s'
  }

  function EndWord(s: Lexer, text: string, quoted: bool): Lexer {
    if s.delimiting then Emit(s, Here(text)).(delimiting := false, pending := Some(text))
    else if !quoted && text in ReservedWords then Break(s)
    else Emit(s, Word(text))
  }

  function ReadBlank(s: Lexer, c: char): Lexer {
    if IsBlank(c) then s.(mode := Blank)
    else if c == '\n' then EndLine(s)
    else if c == '#' then s.(mode := Comment)
    else if c == '\'' then s.(mode := Quoted(""))
    else if c == '\\' then s.(mode := Escaped(Blank))
    else if Plain(c) then s.(mode := InWord([c], false))
    else if (c == '&' || c == '|' || c == '>' || c == '<' || c == '$' || c == '{' || c == '}') && !s.delimiting then s.(mode := After(c))
    else Break(s)
  }

  /** A word that starts with a dash cannot be an assignment, so it may hold '='. */
  function ReadInWord(s: Lexer, text: string, quoted: bool, c: char): Lexer {
    if c == '\'' then s.(mode := Quoted(text))
    else if c == '\\' then s.(mode := Escaped(s.mode))
    else if Plain(c) || (c == '=' && text != "" && text[0] == '-') then s.(mode := InWord(text + [c], quoted))
    else if IsBlank(c) || c == '\n' || c == '&' || c == '|' then
      var s' := EndWord(s, text, quoted);
      if s'.mode.Broken? then s' else ReadBlank(s', c)
    else Break(s)
  }

  function ReadEscaped(s: Lexer, before: Mode, c: char): Lexer {
    if c == '\n' then s.(mode := before)
    else if c == '\0' then Break(s)
    else s.(mode := InWord((if before.InWord? then before.text else "") + [c], true))
  }

  function ReadAfter(s: Lexer, operator: char, c: char): Lexer {
    if operator == '&' && c == '&' then Emit(s, And)
    else if operator == '|' && c == '|' then Emit(s, Or)
    else if operator == '>' && c == '>' then Emit(s, Out(true))
    else if operator == '>' && IsBlank(c) then Emit(s, Out(false))
    else if operator == '<' && c == '<' && s.pending.None? then s.(mode := After('h'), delimiting := true)
    else if operator == 'h' && c == '\'' then s.(mode := Quoted(""))
    else if operator == '$' && c == '?' then Emit(s, Status)
    else if (operator == '{' || operator == '}') && (IsBlank(c) || c == '\n') then
      ReadBlank(Emit(s, if operator == '{' then Open else Close), c)
    else Break(s)
  }

  function ReadBody(s: Lexer, delimiter: string, text: string, line: string, c: char): Lexer {
    if c != '\n' then s.(mode := Body(delimiter, text, line + [c]))
    else if line == delimiter then Emit(s, Document(text))
    else s.(mode := Body(delimiter, text + line + "\n", ""))
  }

  function ReadChar(s: Lexer, c: char): Lexer {
    match s.mode
    case Blank => ReadBlank(s, c)
    case InWord(text, quoted) => ReadInWord(s, text, quoted, c)
    case Quoted(text) =>
      if c == '\'' then s.(mode := InWord(text, true))
      else if c == '\0' then Break(s)
      else s.(mode := Quoted(text + [c]))
    case Escaped(before) => ReadEscaped(s, before, c)
    case Comment => if c == '\n' then EndLine(s) else s
    case After(operator) => ReadAfter(s, operator, c)
    case Body(delimiter, text, line) => ReadBody(s, delimiter, text, line, c)
    case Broken => s
  }

  function Read(s: Lexer, text: string): Lexer
    decreases |text|
  {
    if text == "" then s else Read(ReadChar(s, text[0]), text[1..])
  }

  // ---- syntax

  datatype Redirect = Redirect(append: bool, path: string)

  datatype Command = Command(words: seq<string>, document: Option<string>, out: Option<Redirect>)

  datatype Connective = AndThen | OrElse

  datatype Item = Simple(command: Command) | Group(body: seq<Chain>) | Exit

  datatype Link = Link(connective: Connective, item: Item)

  /** An AND-OR list; the first link's connective means nothing. */
  datatype Chain = Chain(links: seq<Link>)

  /** What has been read of the current item. */
  datatype Part =
    | Nothing
    | Words(command: Command, redirecting: Option<bool>, here: bool)
    | Awaiting(command: Command)
    | Whole(item: Item)

  /** What was read before a group that is still open. */
  datatype Frame = Frame(lines: seq<Chain>, links: seq<Link>, joining: Option<Connective>)

  datatype Parser =
    | Parser(open: seq<Frame>, lines: seq<Chain>, links: seq<Link>, joining: Option<Connective>, part: Part)
    | Wrong

  /** Between two lines, inside the groups that are open. */
  function Between(open: seq<Frame>, lines: seq<Chain>): Parser {
    Parser(open, lines, [], None, Nothing)
  }

  function Joining(p: Parser): Connective
    requires p.Parser?
  {
    if p.joining.Some? then p.joining.value else AndThen
  }

  function Join(p: Parser, item: Item, next: Connective): Parser
    requires p.Parser?
  {
    p.(links := p.links + [Link(Joining(p), item)], joining := Some(next), part := Nothing)
  }

  function FinishLine(p: Parser, item: Item): Parser
    requires p.Parser?
  {
    p.(lines := p.lines + [Chain(p.links + [Link(Joining(p), item)])], links := [], joining := None, part := Nothing)
  }

  predicate Ready(p: Part) {
    p.Words? && p.redirecting.None? && !p.here
  }

  /** A group ends after a full line, and has at least one. */
  function ParseClose(p: Parser): Parser
    requires p.Parser?
  {
    if p == Between(p.open, p.lines) && p.open != [] && p.lines != [] then
      var n := |p.open| - 1;
      Parser(p.open[..n], p.open[n].lines, p.open[n].links, p.open[n].joining, Whole(Group(p.lines)))
    else Wrong
  }

  function ParseWord(p: Parser, text: string): Parser
    requires p.Parser?
  {
    match p.part
    case Nothing => p.(part := Words(Command([text], None, None), None, false))
    case Words(command, redirecting, here) =>
      if redirecting.Some? then
        p.(part := Words(command.(out := Some(Redirect(redirecting.value, text))), None, here))
      else p.(part := Words(command.(words := command.words + [text]), None, here))
    case _ => Wrong
  }

  function ParseNewline(p: Parser): Parser
    requires p.Parser?
  {
    match p.part
    case Nothing => if p.joining.None? then p else Wrong
    case Words(command, redirecting, here) =>
      if redirecting.Some? then Wrong
      else if here then p.(part := Awaiting(command))
      else FinishLine(p, Simple(command))
    case Awaiting(_) => Wrong
    case Whole(item) => FinishLine(p, item)
  }

  function ParseJoin(p: Parser, next: Connective): Parser
    requires p.Parser?
  {
    match p.part
    case Words(command, redirecting, here) => if Ready(p.part) then Join(p, Simple(command), next) else Wrong
    case Whole(item) => Join(p, item, next)
    case _ => Wrong
  }

  function ParseToken(p: Parser, t: Token): Parser {
    if p.Wrong? then Wrong
    else
      match t
      case Word(text) => ParseWord(p, text)
      case Newline => ParseNewline(p)
      case And => ParseJoin(p, AndThen)
      case Or => ParseJoin(p, OrElse)
      case Open => if p.part.Nothing? then Between(p.open + [Frame(p.lines, p.links, p.joining)], []) else Wrong
      case Close => ParseClose(p)
      case Status => if p.part == Words(Command(["exit"], None, None), None, false) then p.(part := Whole(Exit)) else Wrong
      case Out(append) =>
        if p.part.Words? && p.part.redirecting.None? && p.part.command.out.None? then
          p.(part := p.part.(redirecting := Some(append)))
        else Wrong
      case Here(_) => if Ready(p.part) then p.(part := p.part.(here := true)) else Wrong
      case Document(text) =>
        if p.part.Awaiting? then FinishLine(p, Simple(p.part.command.(document := Some(text)))) else Wrong
  }

  function Parse(p: Parser, tokens: seq<Token>): Parser
    decreases |tokens|
  {
    if tokens == [] then p else Parse(ParseToken(p, tokens[0]), tokens[1..])
  }

  /** A text as the lines the shell sees, if it is complete and in this part of the language. */
  function Lines(text: string): Option<seq<Chain>> {
    var s := Read(AtLineStart([]), text);
    if s != AtLineStart(s.tokens) then None
    else
      var p := Parse(Between([], []), s.tokens);
      if p.Parser? && p == Between([], p.lines) then Some(p.lines) else None
  }

  // ---- execution

  /** What a command does to the shell: it returns a status, or (like exit, exec or a
      signal) ends the shell with one. */
  datatype Reply = Returns(status: nat) | Ends(status: nat)

  /** Everything that ran so far decides how a command goes. */
  type Tools = (seq<Command>, Command) -> Reply

  datatype State = State(ran: seq<Command>, status: nat, exited: bool)

  function RunCommand(m: Tools, c: Command, s: State, strict: bool): State {
    match m(s.ran, c)
    case Returns(status) => State(s.ran + [c], status, strict && status != 0)
    case Ends(status) => State(s.ran + [c], status, true)
  }

  /** strict: -e is on and not being ignored here. */
  function RunItem(m: Tools, item: Item, s: State, strict: bool): State
    decreases item, 2, 0
  {
    match item
    case Simple(c) => RunCommand(m, c, s, strict)
    case Group(body) => RunGroup(m, item, 0, s, strict)
    case Exit => s.(exited := true)
  }

  /** The lines of a group, from line i on. */
  function RunGroup(m: Tools, group: Item, i: nat, s: State, strict: bool): State
    requires group.Group? && i <= |group.body|
    decreases group, 1, |group.body| - i
  {
    if s.exited || i == |group.body| then s
    else RunGroup(m, group, i + 1, RunChain(m, group.body[i], 0, s, strict), strict)
  }

  predicate Taken(link: Link, i: nat, s: State) {
    i == 0 || (link.connective == AndThen && s.status == 0) || (link.connective == OrElse && s.status != 0)
  }

  /** -e is ignored in every command of an AND-OR list but the last. */
  function RunChain(m: Tools, chain: Chain, i: nat, s: State, strict: bool): State
    requires i <= |chain.links|
    decreases chain, 0, |chain.links| - i
  {
    if s.exited || i == |chain.links| then s
    else if !Taken(chain.links[i], i, s) then RunChain(m, chain, i + 1, s, strict)
    else RunChain(m, chain, i + 1, RunItem(m, chain.links[i].item, s, strict && i + 1 == |chain.links|), strict)
  }

  function RunLines(m: Tools, lines: seq<Chain>, s: State, strict: bool): State {
    RunItem(m, Group(lines), s, strict)
  }

  const SetE := Chain([Link(AndThen, Simple(Command(["set", "-euo", "pipefail"], None, None)))])

  /** A script, from a shell that has run nothing. */
  function RunScript(m: Tools, lines: seq<Chain>): State {
    if lines != [] && lines[0] == SetE then RunLines(m, lines[1..], State([], 0, false), true)
    else RunLines(m, lines, State([], 0, false), false)
  }

  // ---- reading piece by piece

  lemma {:induction false} ReadConcat(s: Lexer, a: string, b: string)
    ensures Read(s, a + b) == Read(Read(s, a), b)
    decreases |a|
  {
    if a == "" {
      assert a + b == b;
    } else {
      assert (a + b)[0] == a[0] && (a + b)[1..] == a[1..] + b;
      ReadConcat(ReadChar(s, a[0]), a[1..], b);
    }
  }

  lemma {:induction false} ReadOne(s: Lexer, c: char)
    ensures Read(s, [c]) == ReadChar(s, c)
  {
    assert [c][1..] == "";
    assert Read(ReadChar(s, c), "") == ReadChar(s, c);
  }

  lemma {:induction false} ParseConcat(p: Parser, a: seq<Token>, b: seq<Token>)
    ensures Parse(p, a + b) == Parse(Parse(p, a), b)
    decreases |a|
  {
    if a == [] {
      assert a + b == b;
    } else {
      assert (a + b)[0] == a[0] && (a + b)[1..] == a[1..] + b;
      ParseConcat(ParseToken(p, a[0]), a[1..], b);
    }
  }

  lemma {:induction false} ParseOne(p: Parser, t: Token)
    ensures Parse(p, [t]) == ParseToken(p, t)
  {
    assert [t][1..] == [];
    assert Parse(ParseToken(p, t), []) == ParseToken(p, t);
  }

  /** Tokens already read do not change how a text is read. */
  function Behind(tokens: seq<Token>, s: Lexer): Lexer {
    s.(tokens := tokens + s.tokens)
  }

  lemma {:induction false} ReadCharBehind(tokens: seq<Token>, s: Lexer, c: char)
    ensures ReadChar(Behind(tokens, s), c) == Behind(tokens, ReadChar(s, c))
  {
    assert forall t :: tokens + s.tokens + [t] == tokens + (s.tokens + [t]);
    match s.mode
    case InWord(text, quoted) => ReadInWordBehind(tokens, s, text, quoted, c);
    case After(operator) => ReadAfterBehind(tokens, s, operator, c);
    case _ =>
  }

  lemma {:induction false} ReadBlankBehind(tokens: seq<Token>, s: Lexer, c: char)
    ensures ReadBlank(Behind(tokens, s), c) == Behind(tokens, ReadBlank(s, c))
  {
    assert tokens + s.tokens + [Newline] == tokens + (s.tokens + [Newline]);
  }

  lemma {:induction false} EmitBehind(tokens: seq<Token>, s: Lexer, t: Token)
    ensures Emit(Behind(tokens, s), t) == Behind(tokens, Emit(s, t))
  {
    assert tokens + s.tokens + [t] == tokens + (s.tokens + [t]);
  }

  lemma {:induction false} ReadInWordBehind(tokens: seq<Token>, s: Lexer, text: string, quoted: bool, c: char)
    ensures ReadInWord(Behind(tokens, s), text, quoted, c) == Behind(tokens, ReadInWord(s, text, quoted, c))
  {
    EmitBehind(tokens, s, Here(text));
    EmitBehind(tokens, s, Word(text));
    var s' := EndWord(s, text, quoted);
    assert EndWord(Behind(tokens, s), text, quoted) == Behind(tokens, s');
    ReadBlankBehind(tokens, s', c);
  }

  lemma {:induction false} ReadAfterBehind(tokens: seq<Token>, s: Lexer, operator: char, c: char)
    ensures ReadAfter(Behind(tokens, s), operator, c) == Behind(tokens, ReadAfter(s, operator, c))
  {
    EmitBehind(tokens, s, And);
    EmitBehind(tokens, s, Or);
    EmitBehind(tokens, s, Out(true));
    EmitBehind(tokens, s, Out(false));
    EmitBehind(tokens, s, Status);
    EmitBehind(tokens, s, Open);
    EmitBehind(tokens, s, Close);
    ReadBlankBehind(tokens, Emit(s, Open), c);
    ReadBlankBehind(tokens, Emit(s, Close), c);
  }

  lemma {:induction false} ReadBehind(tokens: seq<Token>, s: Lexer, text: string)
    ensures Read(Behind(tokens, s), text) == Behind(tokens, Read(s, text))
    decreases |text|
  {
    if text != "" {
      ReadCharBehind(tokens, s, text[0]);
      ReadBehind(tokens, ReadChar(s, text[0]), text[1..]);
    }
  }

  /** Groups already open do not change how tokens are parsed. */
  function Under(open: seq<Frame>, p: Parser): Parser {
    if p.Wrong? then Wrong else p.(open := open + p.open)
  }

  lemma {:induction false} ParseTokenUnder(open: seq<Frame>, p: Parser, t: Token)
    requires ParseToken(p, t).Parser?
    ensures ParseToken(Under(open, p), t) == Under(open, ParseToken(p, t))
  {
    if t.Open? {
      assert open + p.open + [Frame(p.lines, p.links, p.joining)] == open + (p.open + [Frame(p.lines, p.links, p.joining)]);
    } else if t.Close? {
      var n := |p.open| - 1;
      assert (open + p.open)[..|open| + n] == open + p.open[..n];
    }
  }

  lemma {:induction false} ParseUnder(open: seq<Frame>, p: Parser, tokens: seq<Token>)
    requires Parse(p, tokens).Parser?
    ensures Parse(Under(open, p), tokens) == Under(open, Parse(p, tokens))
    decreases |tokens|
  {
    if tokens != [] {
      if ParseToken(p, tokens[0]).Wrong? { StaysWrong(tokens[1..]); }
      ParseTokenUnder(open, p, tokens[0]);
      ParseUnder(open, ParseToken(p, tokens[0]), tokens[1..]);
    }
  }

  lemma {:induction false} StaysWrong(tokens: seq<Token>)
    ensures Parse(Wrong, tokens) == Wrong
    decreases |tokens|
  {
    if tokens != [] { StaysWrong(tokens[1..]); }
  }
}
