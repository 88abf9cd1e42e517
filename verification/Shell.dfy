/** Shell words after sections 2.2 and 2.3 of the POSIX.1-2017 Shell Command Language, one
    character at a time, and the quoting that recipe rendering relies on (shlex.quote of
    the Python standard library). Operators are kept as single characters. */
module Shell {
  import opened Options

  // --------------------------------------------------------------- the lexer

  /** A piece of a word: a character that stands for itself, one that the shell may still
      expand, or a parameter expansion. */
  datatype Piece = Lit(c: char) | Meta(c: char) | Param(name: string, quoted: bool)

  datatype Token = Word(pieces: seq<Piece>) | Operator(c: char)

  datatype Mode =
    | Unquoted
    | Escaped
    | Single
    | Double
    | DoubleEscaped
    | Dollar(inDouble: bool)
    | Name(inDouble: bool, name: string)
    | Comment

  datatype Lexer = Lexer(mode: Mode, tokens: seq<Token>, current: Option<seq<Piece>>)

  const Start := Lexer(Unquoted, [], None)

  predicate IsNameStart(c: char) {
    'a' <= c <= 'z' || 'A' <= c <= 'Z' || c == '_'
  }

  predicate IsNameChar(c: char) {
    IsNameStart(c) || '0' <= c <= '9'
  }

  predicate IsOperator(c: char) {
    c == '\n' || c == ';' || c == '|' || c == '&' || c == '<' || c == '>' || c == '(' || c == ')'
  }

  predicate IsMeta(c: char) {
    c == '*' || c == '?' || c == '[' || c == '~' || c == '`'
  }

  function Pieces(l: Lexer): seq<Piece> {
    if l.current.Some? then l.current.value else []
  }

  function Add(l: Lexer, pieces: seq<Piece>): Lexer {
    l.(current := Some(Pieces(l) + pieces))
  }

  function EndWord(l: Lexer): Lexer {
    if l.current.Some? then l.(tokens := l.tokens + [Word(l.current.value)], current := None) else l
  }

  function Emit(l: Lexer, operator: char): Lexer {
    var l1 := EndWord(l);
    l1.(tokens := l1.tokens + [Operator(operator)])
  }

  function InUnquoted(l: Lexer, c: char): Lexer {
    if c == '\\' then l.(mode := Escaped)
    else if c == '\'' then Add(l, []).(mode := Single)
    else if c == '"' then Add(l, []).(mode := Double)
    else if c == '$' then l.(mode := Dollar(false))
    else if c == ' ' || c == '\t' then EndWord(l)
    else if IsOperator(c) then Emit(l, c)
    else if c == '#' && l.current.None? then l.(mode := Comment)
    else Add(l, [if IsMeta(c) then Meta(c) else Lit(c)])
  }

  function InDouble(l: Lexer, c: char): Lexer {
    if c == '"' then l.(mode := Unquoted)
    else if c == '\\' then l.(mode := DoubleEscaped)
    else if c == '$' then l.(mode := Dollar(true))
    else Add(l, [if c == '`' then Meta(c) else Lit(c)])
  }

  /** The lexer goes on after a `$` or a parameter name inside or outside double quotes. */
  function Resume(l: Lexer, inDouble: bool, piece: Piece): Lexer {
    Add(l, [piece]).(mode := if inDouble then Double else Unquoted)
  }

  function Base(l: Lexer, inDouble: bool, c: char): Lexer {
    if inDouble then InDouble(l, c) else InUnquoted(l, c)
  }

  function Step(l: Lexer, c: char): Lexer {
    match l.mode
    case Unquoted => InUnquoted(l, c)
    case Escaped => if c == '\n' then l.(mode := Unquoted) else Add(l, [Lit(c)]).(mode := Unquoted)
    case Single => if c == '\'' then l.(mode := Unquoted) else Add(l, [Lit(c)])
    case Double => InDouble(l, c)
    case DoubleEscaped =>
      if c == '\n' then l.(mode := Double)
      else if c == '$' || c == '`' || c == '"' || c == '\\' then Add(l, [Lit(c)]).(mode := Double)
      else Add(l, [Lit('\\'), Lit(c)]).(mode := Double)
    case Dollar(d) =>
      if IsNameStart(c) then l.(mode := Name(d, [c])) else Base(Resume(l, d, Meta('$')), d, c)
    case Name(d, name) =>
      if IsNameChar(c) then l.(mode := Name(d, name + [c])) else Base(Resume(l, d, Param(name, d)), d, c)
    case Comment => if c == '\n' then Emit(l, c).(mode := Unquoted) else l
  }

  function Run(l: Lexer, text: string): Lexer
    decreases |text|
  {
    if text == [] then l else Run(Step(l, text[0]), text[1..])
  }

  /** The tokens of a command, if its quotes are closed. */
  function Finish(l: Lexer): Option<seq<Token>> {
    match l.mode
    case Unquoted => Some(EndWord(l).tokens)
    case Comment => Some(l.tokens)
    case Dollar(false) => Some(EndWord(Resume(l, false, Meta('$'))).tokens)
    case Name(false, name) => Some(EndWord(Resume(l, false, Param(name, false))).tokens)
    case _ => None
  }

  function Tokens(command: string): Option<seq<Token>> {
    Finish(Run(Start, command))
  }

  lemma {:induction false} RunAppend(l: Lexer, a: string, b: string)
    ensures Run(l, a + b) == Run(Run(l, a), b)
    decreases |a|
  {
    if a == [] {
      assert a + b == b;
    } else {
      assert (a + b)[0] == a[0] && (a + b)[1..] == a[1..] + b;
      RunAppend(Step(l, a[0]), a[1..], b);
    }
  }

  // -------------------------------------------------------------------- quoting

  /** The characters shlex.quote leaves alone: \w in ASCII, and @%+=:,./- */
  predicate IsSafe(c: char) {
    IsNameChar(c) || c == '@' || c == '%' || c == '+' || c == '=' || c == ':' || c == ',' || c == '.' || c == '/' || c == '-'
  }

  predicate AllSafe(s: string) {
    forall i :: 0 <= i < |s| ==> IsSafe(s[i])
  }

  /** s.replace("'", "'\"'\"'") */
  function Escape(s: string): string {
    if s == [] then [] else (if s[0] == '\'' then "'\"'\"'" else [s[0]]) + Escape(s[1..])
  }

  function Quote(s: string): string {
    if s == [] then "''" else if AllSafe(s) then s else "'" + Escape(s) + "'"
  }

  function Lits(s: string): seq<Piece> {
    if s == [] then [] else [Lit(s[0])] + Lits(s[1..])
  }

  lemma AddNothing(l: Lexer)
    requires l.current.Some?
    ensures Add(l, []) == l
  {
    assert Pieces(l) + [] == Pieces(l);
  }

  lemma AddTwice(l: Lexer, a: seq<Piece>, b: seq<Piece>)
    ensures Add(Add(l, a), b) == Add(l, a + b)
  {
    assert Pieces(l) + a + b == Pieces(l) + (a + b);
  }

  lemma {:induction false} RunSafe(l: Lexer, s: string)
    requires l.mode.Unquoted? && AllSafe(s) && (s == [] ==> l.current.Some?)
    ensures Run(l, s) == Add(l, Lits(s))
    decreases |s|
  {
    if s == [] {
      AddNothing(l);
    } else {
      RunSafe(Add(l, [Lit(s[0])]), s[1..]);
      AddTwice(l, [Lit(s[0])], Lits(s[1..]));
    }
  }

  /** A quote inside single quotes: out of them, the quote in double quotes, back in. */
  lemma RunQuoteMark(l: Lexer)
    requires l.mode.Single? && l.current.Some?
    ensures Run(l, "'\"'\"'") == Add(l, [Lit('\'')])
  {
    var q := "'\"'\"'";
    var l1, l2 := l.(mode := Unquoted), l.(mode := Double);
    AddNothing(l1);
    assert Add(l1, []).(mode := Double) == l2;
    var l3 := Add(l2, [Lit('\'')]);
    var l4 := l3.(mode := Unquoted);
    AddNothing(l4);
    assert Add(l4, []).(mode := Single) == Add(l, [Lit('\'')]);
    assert q[1..] == "\"'\"'" && q[1..][1..] == "'\"'" && q[1..][1..][1..] == "\"'";
    assert Run(l4, "'") == Run(Add(l, [Lit('\'')]), []);
    assert Run(l3, "\"'") == Run(l4, "'");
    assert Run(l2, "'\"'") == Run(l3, "\"'");
    assert Run(l1, "\"'\"'") == Run(l2, "'\"'");
    assert Run(l, q) == Run(l1, "\"'\"'");
  }

  lemma {:induction false} RunEscape(l: Lexer, s: string)
    requires l.mode.Single? && l.current.Some?
    ensures Run(l, Escape(s)) == Add(l, Lits(s))
    decreases |s|
  {
    if s == [] {
      AddNothing(l);
    } else {
      var first := if s[0] == '\'' then "'\"'\"'" else [s[0]];
      var l1 := Add(l, [Lit(s[0])]);
      if s[0] == '\'' { RunQuoteMark(l); } else { assert Run(l, [s[0]]) == Run(l1, []); }
      RunAppend(l, first, Escape(s[1..]));
      RunEscape(l1, s[1..]);
      AddTwice(l, [Lit(s[0])], Lits(s[1..]));
    }
  }

  /** Unquoting undoes quoting: wherever the lexer is outside quotes, a quoted string adds
      exactly its characters to the current word, each standing for itself. */
  lemma QuoteIsLiteral(l: Lexer, s: string)
    requires l.mode.Unquoted?
    ensures Run(l, Quote(s)) == Add(l, Lits(s))
  {
    if s == [] {
      assert Run(l, "''") == Run(Add(l, []).(mode := Single), "'") == Run(Add(l, []), []);
    } else if AllSafe(s) {
      RunSafe(l, s);
    } else {
      var l1 := Add(l, []).(mode := Single);
      RunAppend(l, "'", Escape(s) + "'");
      assert "'" + (Escape(s) + "'") == Quote(s);
      assert Run(l, "'") == Run(l1, []);
      RunAppend(l1, Escape(s), "'");
      RunEscape(l1, s);
      assert Pieces(l1) == Pieces(l);
      assert Run(Add(l1, Lits(s)), "'") == Run(Add(l, Lits(s)), []);
    }
  }

  lemma {:induction false} LitsText(s: string, t: string)
    requires Lits(s) == Lits(t)
    ensures s == t
    decreases |s|
  {
    if s != [] && t != [] {
      assert Lits(s)[0] == Lits(t)[0] && Lits(s)[1..] == Lits(s[1..]) && Lits(t)[1..] == Lits(t[1..]);
      LitsText(s[1..], t[1..]);
    }
  }

  /** A quoted string alone is one word, the string itself; and no two strings are quoted
      alike. */
  lemma QuoteIsOneWord(s: string)
    ensures Tokens(Quote(s)) == Some([Word(Lits(s))])
  {
    QuoteIsLiteral(Start, s);
    assert Pieces(Start) + Lits(s) == Lits(s);
    assert [] + [Word(Lits(s))] == [Word(Lits(s))];
  }

  lemma QuoteInjective(s: string, t: string)
    requires Quote(s) == Quote(t)
    ensures s == t
  {
    QuoteIsOneWord(s);
    QuoteIsOneWord(t);
    LitsText(s, t);
  }
}
