/** When rendering is safe. For every template: its rendered command is read as meant for
    all values exactly when each of its placeholders stands in a mode that suits its kind;
    then no value can add, join or drop a word or an operator, and a value that travels as
    an environment variable expands to itself. */
module RecipeSafety {
  import opened Options
  import opened Shell
  import opened Recipe
  import opened RecipeResults

  // ------------------------------------------------ comparing two readings

  /** What of a reading is compared: only its outline of words and operators, or its words
      once quoted parameters of `env` are expanded. */
  datatype View = Outline | Expanded(env: map<string, string>)

  function Expand(pieces: seq<Piece>, env: map<string, string>): seq<Piece> {
    if pieces == [] then []
    else (match pieces[0]
          case Param(name, true) => if name in env then Lits(env[name]) else [pieces[0]]
          case _ => [pieces[0]]) + Expand(pieces[1..], env)
  }

  function See(view: View, pieces: seq<Piece>): seq<Piece> {
    if view.Outline? then [] else Expand(pieces, view.env)
  }

  predicate AlikeTokens(view: View, a: Token, b: Token) {
    if a.Word? then b.Word? && See(view, a.pieces) == See(view, b.pieces) else a == b
  }

  ghost predicate Alike(view: View, l: Lexer, m: Lexer) {
    && l.mode == m.mode && |l.tokens| == |m.tokens| && l.current.Some? == m.current.Some?
    && (l.current.Some? ==> See(view, l.current.value) == See(view, m.current.value))
    && forall i :: 0 <= i < |l.tokens| ==> AlikeTokens(view, l.tokens[i], m.tokens[i])
  }

  /** Two commands are both unfinished, or have as many tokens, alike one by one. */
  predicate AlikeCommands(view: View, a: Option<seq<Token>>, b: Option<seq<Token>>) {
    if a.None? then b.None?
    else b.Some? && |a.value| == |b.value| && forall i :: 0 <= i < |a.value| ==> AlikeTokens(view, a.value[i], b.value[i])
  }

  lemma {:induction false} ExpandAppend(a: seq<Piece>, b: seq<Piece>, env: map<string, string>)
    ensures Expand(a + b, env) == Expand(a, env) + Expand(b, env)
  {
    if a == [] {
      assert a + b == b;
    } else {
      assert (a + b)[0] == a[0] && (a + b)[1..] == a[1..] + b;
      ExpandAppend(a[1..], b, env);
    }
  }

  lemma SeeAppend(view: View, a: seq<Piece>, b: seq<Piece>)
    ensures See(view, a + b) == See(view, a) + See(view, b)
  {
    if view.Expanded? { ExpandAppend(a, b, view.env); }
  }

  lemma AddAlike(view: View, l: Lexer, m: Lexer, p: seq<Piece>, q: seq<Piece>)
    requires Alike(view, l, m) && See(view, p) == See(view, q)
    ensures Alike(view, Add(l, p), Add(m, q))
  {
    SeeAppend(view, Pieces(l), p);
    SeeAppend(view, Pieces(m), q);
  }

  lemma ModeAlike(view: View, l: Lexer, m: Lexer, mode: Mode)
    requires Alike(view, l, m)
    ensures Alike(view, l.(mode := mode), m.(mode := mode))
  {
  }

  lemma EndWordAlike(view: View, l: Lexer, m: Lexer)
    requires Alike(view, l, m)
    ensures Alike(view, EndWord(l), EndWord(m))
  {
  }

  lemma EmitAlike(view: View, l: Lexer, m: Lexer, c: char)
    requires Alike(view, l, m)
    ensures Alike(view, Emit(l, c), Emit(m, c))
  {
    EndWordAlike(view, l, m);
  }

  lemma UnquotedAlike(view: View, l: Lexer, m: Lexer, c: char)
    requires Alike(view, l, m)
    ensures Alike(view, InUnquoted(l, c), InUnquoted(m, c))
  {
    AddAlike(view, l, m, [], []);
    AddAlike(view, l, m, [if IsMeta(c) then Meta(c) else Lit(c)], [if IsMeta(c) then Meta(c) else Lit(c)]);
    EndWordAlike(view, l, m);
    EmitAlike(view, l, m, c);
  }

  lemma DoubleAlike(view: View, l: Lexer, m: Lexer, c: char)
    requires Alike(view, l, m)
    ensures Alike(view, InDouble(l, c), InDouble(m, c))
  {
    var p := [if c == '`' then Meta(c) else Lit(c)];
    AddAlike(view, l, m, p, p);
  }

  lemma ResumeAlike(view: View, l: Lexer, m: Lexer, d: bool, piece: Piece)
    requires Alike(view, l, m)
    ensures Alike(view, Resume(l, d, piece), Resume(m, d, piece))
  {
    AddAlike(view, l, m, [piece], [piece]);
  }

  lemma BaseAlike(view: View, l: Lexer, m: Lexer, d: bool, c: char, piece: Piece)
    requires Alike(view, l, m)
    ensures Alike(view, Base(Resume(l, d, piece), d, c), Base(Resume(m, d, piece), d, c))
  {
    ResumeAlike(view, l, m, d, piece);
    if d { DoubleAlike(view, Resume(l, d, piece), Resume(m, d, piece), c); }
    else { UnquotedAlike(view, Resume(l, d, piece), Resume(m, d, piece), c); }
  }

  lemma StepAlike(view: View, l: Lexer, m: Lexer, c: char)
    requires Alike(view, l, m)
    ensures Alike(view, Step(l, c), Step(m, c))
  {
    match l.mode
    case Unquoted => UnquotedAlike(view, l, m, c);
    case Escaped => AddAlike(view, l, m, [Lit(c)], [Lit(c)]);
    case Single => AddAlike(view, l, m, [Lit(c)], [Lit(c)]);
    case Double => DoubleAlike(view, l, m, c);
    case DoubleEscaped =>
      AddAlike(view, l, m, [Lit(c)], [Lit(c)]);
      AddAlike(view, l, m, [Lit('\\'), Lit(c)], [Lit('\\'), Lit(c)]);
    case Dollar(d) => BaseAlike(view, l, m, d, c, Meta('$'));
    case Name(d, name) => BaseAlike(view, l, m, d, c, Param(name, d));
    case Comment => EmitAlike(view, l, m, c);
  }

  lemma ContributeAlike(view: View, l: Lexer, m: Lexer, p: seq<Piece>, q: seq<Piece>)
    requires Alike(view, l, m) && See(view, p) == See(view, q)
    ensures Alike(view, Contribute(l, p), Contribute(m, q))
  {
    SettleAlike(view, l, m);
    if !l.mode.Comment? { AddAlike(view, Settle(l), Settle(m), p, q); }
  }

  lemma SettleAlike(view: View, l: Lexer, m: Lexer)
    requires Alike(view, l, m)
    ensures Alike(view, Settle(l), Settle(m))
  {
    match l.mode
    case Dollar(d) => ResumeAlike(view, l, m, d, Meta('$'));
    case Name(d, name) => ResumeAlike(view, l, m, d, Param(name, d));
    case _ => ModeAlike(view, l, m, Settle(l).mode);
  }

  lemma FinishAlike(view: View, l: Lexer, m: Lexer)
    requires Alike(view, l, m)
    ensures AlikeCommands(view, Finish(l), Finish(m))
  {
    EndWordAlike(view, l, m);
    match l.mode
    case Dollar(d) =>
      ResumeAlike(view, l, m, d, Meta('$'));
      EndWordAlike(view, Resume(l, d, Meta('$')), Resume(m, d, Meta('$')));
    case Name(d, name) =>
      ResumeAlike(view, l, m, d, Param(name, d));
      EndWordAlike(view, Resume(l, d, Param(name, d)), Resume(m, d, Param(name, d)));
    case _ =>
  }

  /** Two readings of a template stay alike if its placeholders contribute alike. */
  ghost predicate AlikeHoles(view: View, segs: seq<Segment>, vars: map<string, Variable>, values: map<string, string>,
                             vars': map<string, Variable>, values': map<string, string>) {
    forall k :: 0 <= k < |segs| && segs[k].Hole? ==>
      See(view, Contribution(segs[k].name, vars, values)) == See(view, Contribution(segs[k].name, vars', values'))
  }

  lemma {:induction false} IntendedAlike(view: View, l: Lexer, m: Lexer, segs: seq<Segment>, vars: map<string, Variable>,
                                         values: map<string, string>, vars': map<string, Variable>,
                                         values': map<string, string>)
    requires Alike(view, l, m) && AlikeHoles(view, segs, vars, values, vars', values')
    ensures Alike(view, Intended(l, segs, vars, values), Intended(m, segs, vars', values'))
    ensures vars == vars' ==> (HolesOk(l, segs, vars, values) <==> HolesOk(m, segs, vars', values'))
    decreases |segs|
  {
    if segs != [] {
      match segs[0] {
        case Text(c) => StepAlike(view, l, m, c);
        case Hole(name, _) =>
          ContributeAlike(view, l, m, Contribution(name, vars, values), Contribution(name, vars', values'));
      }
      IntendedAlike(view, Meant(l, segs[0], vars, values), Meant(m, segs[0], vars', values'), segs[1..], vars, values,
                    vars', values');
    }
  }

  /** The condition does not depend on the values. */
  lemma HolesOkForAll(segs: seq<Segment>, vars: map<string, Variable>, values: map<string, string>,
                      values': map<string, string>)
    ensures HolesOk(Start, segs, vars, values) <==> HolesOk(Start, segs, vars, values')
  {
    IntendedAlike(Outline, Start, Start, segs, vars, values, vars, values');
  }

  /** Every placeholder of the template stands outside quotes (and, for a literal value,
      not behind a backslash, a `$`, a parameter name or the start of a comment). */
  predicate SafeTemplate(command: string, vars: map<string, Variable>) {
    HolesOk(Start, Scan(command), vars, map[])
  }

  // --------------------------------------------------------- safe templates

  /** The command rendered from a safe template is read, for all values, as the template
      with each placeholder standing for its value. */
  lemma RenderedReadsAsMeant(command: string, vars: map<string, Variable>, values: map<string, string>)
    requires SafeTemplate(command, vars)
    ensures Tokens(Render(Scan(command), vars, values)) == Finish(Intended(Start, Scan(command), vars, values))
  {
    ScanNamed(command);
    HolesOkForAll(Scan(command), vars, map[], values);
    RenderMeans(Start, Scan(command), vars, values);
  }

  /** Values cannot change the structure of the command: whatever two sets of values are
      rendered, the words and operators are as many and in the same order. */
  lemma ValuesKeepStructure(command: string, vars: map<string, Variable>, values: map<string, string>,
                            values': map<string, string>)
    requires SafeTemplate(command, vars)
    ensures AlikeCommands(Outline, Tokens(Render(Scan(command), vars, values)), Tokens(Render(Scan(command), vars, values')))
  {
    RenderedReadsAsMeant(command, vars, values);
    RenderedReadsAsMeant(command, vars, values');
    IntendedAlike(Outline, Start, Start, Scan(command), vars, values, vars, values');
    FinishAlike(Outline, Intended(Start, Scan(command), vars, values), Intended(Start, Scan(command), vars, values'));
  }

  lemma {:induction false} HoleNamed(segs: seq<Segment>, k: nat)
    requires k < |segs| && segs[k].Hole?
    ensures segs[k].name in Names(segs)
  {
    if k > 0 { HoleNamed(segs[1..], k - 1); }
  }

  lemma {:induction false} ExpandLits(s: string, env: map<string, string>)
    ensures Expand(Lits(s), env) == Lits(s)
    decreases |s|
  {
    if s != [] {
      assert ([Lit(s[0])] + Lits(s[1..]))[1..] == Lits(s[1..]);
      ExpandLits(s[1..], env);
    }
  }

  /** Under the environment that goes with the command, quoted references expand to the
      values: the words are those of the template with every placeholder, of either kind,
      replaced by its literal value. */
  lemma EnvironmentCarriesValues(command: string, vars: map<string, Variable>, values: map<string, string>)
    requires SafeTemplate(command, vars)
    ensures var env := Environment(Scan(command), vars, values);
            AlikeCommands(Expanded(env), Tokens(Render(Scan(command), vars, values)),
                          Finish(Intended(Start, Scan(command), map[], values)))
  {
    var segs, env := Scan(command), Environment(Scan(command), vars, values);
    RenderedReadsAsMeant(command, vars, values);
    forall k | 0 <= k < |segs| && segs[k].Hole?
      ensures See(Expanded(env), Contribution(segs[k].name, vars, values))
           == See(Expanded(env), Contribution(segs[k].name, map[], values))
    {
      HoleNamed(segs, k);
      ContributionExpands(segs[k].name, vars, values, env);
    }
    IntendedAlike(Expanded(env), Start, Start, segs, vars, values, map[], values);
    FinishAlike(Expanded(env), Intended(Start, segs, vars, values), Intended(Start, segs, map[], values));
  }

  lemma ContributionExpands(name: string, vars: map<string, Variable>, values: map<string, string>,
                            env: map<string, string>)
    requires KindOf(vars, name).Env? ==> name in env && env[name] == ValueOf(values, name)
    ensures Expand(Contribution(name, vars, values), env) == Lits(ValueOf(values, name))
         == Expand(Contribution(name, map[], values), env)
  {
    ExpandLits(ValueOf(values, name), env);
    if KindOf(vars, name).Env? {
      assert Expand([Param(name, true)], env) == Lits(env[name]) + [];
    }
  }
}
