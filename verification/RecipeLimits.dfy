/** The condition of RecipeSafety is exact: a placeholder anywhere else has a value that
    is misread. Also what the check of variable names really accepts. */
module RecipeLimits {
  import opened Sequences
  import opened Shell
  import opened Recipe
  import opened RecipeResults
  import opened RecipeSafety

  // ------------------------------------------------------ values that are misread

  lemma RunTwo(l: Lexer, a: char, b: char)
    ensures Run(l, [a, b]) == Step(Step(l, a), b)
  {
    assert [a, b][1..] == [b];
    assert Run(Step(l, a), [b]) == Run(Step(Step(l, a), b), []);
  }

  lemma RunThree(l: Lexer, a: char, b: char, c: char)
    ensures Run(l, [a, b, c]) == Step(Step(Step(l, a), b), c)
  {
    assert [a, b, c][1..] == [b, c];
    RunTwo(Step(l, a), b, c);
  }

  lemma QuotedOne(c: char)
    requires !IsSafe(c) && c != '\''
    ensures Quote([c]) == ['\'', c, '\'']
  {
    assert Escape([c]) == [c];
  }

  /** A value with a space, in quotes or behind a backslash. */
  lemma SpaceMisread(l: Lexer)
    requires l.mode.Escaped? || l.mode.Single? || l.mode.Double? || l.mode.DoubleEscaped?
    ensures Run(l, Quote(" ")) != Contribute(l, Lits(" "))
  {
    QuotedOne(' ');
    RunThree(l, '\'', ' ', '\'');
    var meant := Contribute(l, [Lit(' ')]);
    assert Lits(" ") == [Lit(' ')] && meant.current.value == Pieces(l) + [Lit(' ')];
    if l.mode.Double? || l.mode.DoubleEscaped? {
      SpaceInDouble(l);
    } else {
      assert l.mode.Single? ==> Step(Step(Step(l, '\''), ' '), '\'').current.value == [];
    }
  }

  /** In double quotes the single quotes are read as characters. */
  lemma SpaceInDouble(l: Lexer)
    requires l.mode.Double? || l.mode.DoubleEscaped?
    ensures Step(Step(Step(l, '\''), ' '), '\'').current.Some?
    ensures |Step(Step(Step(l, '\''), ' '), '\'').current.value| >= |Pieces(l)| + 3
  {
    var l1 := Step(l, '\'');
    assert l1.mode.Double? && l1.current.Some? && |l1.current.value| >= |Pieces(l)| + 1;
    var l2 := Step(l1, ' ');
    assert l2 == Add(l1, [Lit(' ')]);
    assert Step(l2, '\'') == Add(l2, [Lit('\'')]);
  }

  /** A value that continues a parameter name, or starts one behind a `$`. */
  lemma LetterMisread(l: Lexer)
    requires l.mode.Dollar? || l.mode.Name?
    ensures Run(l, Quote("A")) != Contribute(l, Lits("A"))
  {
    assert Quote("A") == "A";
    assert Run(l, "A") == Run(Step(l, 'A'), []);
  }

  /** A value with a newline, in a comment. */
  lemma NewlineMisread(l: Lexer)
    requires l.mode.Comment?
    ensures Run(l, Quote("\n")) != Contribute(l, Lits("\n"))
  {
    QuotedOne('\n');
    RunThree(l, '\'', '\n', '\'');
  }

  lemma {:induction false} RunSingle(l: Lexer, text: string)
    requires l.mode.Single? && '\'' !in text
    ensures Run(l, text).mode.Single?
    decreases |text|
  {
    if text != [] { RunSingle(Step(l, text[0]), text[1..]); }
  }

  /** Inside single quotes a reference to the environment is not a reference. */
  lemma SingleEnvMisread(l: Lexer, name: string)
    requires l.mode.Single? && IsName(name)
    ensures Run(l, EnvText(name)) != Contribute(l, [Param(name, true)])
  {
    var front := "\"$" + name;
    RunAppend(l, front, "\"");
    RunSingle(l, front);
    var l1 := Run(l, front);
    assert Run(l1, "\"") == Run(Step(l1, '"'), []);
    assert Step(l1, '"').current.value[|Pieces(l1)|] == Lit('"');
    var meant := Contribute(l, [Param(name, true)]);
    assert meant.current.value[|meant.current.value| - 1] == Param(name, true);
  }

  /** Inside double quotes, or behind a backslash, the quotes of `"$NAME"` do not quote it. */
  lemma QuotedEnvMisread(l: Lexer, name: string)
    requires IsName(name) && !l.mode.Single? && !HoleOk(l.mode, Env)
    ensures Run(l, EnvText(name)) != Contribute(l, [Param(name, true)])
  {
    RunEnvText(l, name);
    var l2 := Step(Step(l, '"'), '$');
    var d := l2.mode.inDouble;
    RunDollarName(l2, d, name);
    var read, meant := Run(l, EnvText(name)), Contribute(l, [Param(name, true)]);
    if !d {
      assert read.current.value == Pieces(l2) + [Param(name, false)] + [];
      assert read.current.value[|Pieces(l2)|] == Param(name, false);
      assert |read.current.value| == |Pieces(l2)| + 1;
    }
    assert meant.current.value[|meant.current.value| - 1] == Param(name, true);
  }

  /** In every other mode some value is misread. */
  lemma BadHole(mode: Mode, kind: Kind, name: string) returns (value: string)
    requires IsName(name) && !HoleOk(mode, kind)
    ensures forall l: Lexer :: l.mode == mode ==>
              if kind.Env? then Run(l, EnvText(name)) != Contribute(l, [Param(name, true)])
              else Run(l, Quote(value)) != Contribute(l, Lits(value))
  {
    value := if mode.Comment? then "\n" else if mode.Dollar? || mode.Name? then "A" else " ";
    forall l: Lexer | l.mode == mode
      ensures if kind.Env? then Run(l, EnvText(name)) != Contribute(l, [Param(name, true)])
              else Run(l, Quote(value)) != Contribute(l, Lits(value))
    {
      if kind.Env? {
        if mode.Single? { SingleEnvMisread(l, name); } else { QuotedEnvMisread(l, name); }
      } else if mode.Comment? {
        NewlineMisread(l);
      } else if mode.Dollar? || mode.Name? {
        LetterMisread(l);
      } else {
        SpaceMisread(l);
      }
    }
  }

  // ------------------------------------------------------- the exact condition

  /** Up to every point of the template, the rendered text is read as meant. */
  ghost predicate ReadsAsMeant(segs: seq<Segment>, vars: map<string, Variable>, values: map<string, string>) {
    forall k :: 0 <= k <= |segs| ==> MeansSoFar(segs, k, vars, values)
  }

  predicate MeansSoFar(segs: seq<Segment>, k: nat, vars: map<string, Variable>, values: map<string, string>)
    requires k <= |segs|
  {
    Run(Start, Render(segs[..k], vars, values)) == Intended(Start, segs[..k], vars, values)
  }

  lemma {:induction false} HolesOkPrefix(l: Lexer, segs: seq<Segment>, k: nat, vars: map<string, Variable>,
                                         values: map<string, string>)
    requires HolesOk(l, segs, vars, values) && k <= |segs|
    ensures HolesOk(l, segs[..k], vars, values)
    decreases |segs|
  {
    if k > 0 {
      HolesOkPrefix(Meant(l, segs[0], vars, values), segs[1..], k - 1, vars, values);
      assert segs[..k][1..] == segs[1..][..k - 1];
    }
  }

  /** The first placeholder that stands in a wrong mode. */
  lemma {:induction false} FirstBadHole(l: Lexer, segs: seq<Segment>, vars: map<string, Variable>,
                                        values: map<string, string>) returns (k: nat)
    requires !HolesOk(l, segs, vars, values)
    ensures k < |segs| && segs[k].Hole? && HolesOk(l, segs[..k], vars, values)
    ensures !HoleOk(Intended(l, segs[..k], vars, values).mode, KindOf(vars, segs[k].name))
    decreases |segs|
  {
    if segs[0].Hole? && !HoleOk(l.mode, KindOf(vars, segs[0].name)) {
      k := 0;
    } else {
      var m := FirstBadHole(Meant(l, segs[0], vars, values), segs[1..], vars, values);
      k := m + 1;
      assert segs[..k][1..] == segs[1..][..m] && segs[..k][0] == segs[0];
    }
  }

  lemma {:induction false} RenderAppend(a: seq<Segment>, b: seq<Segment>, vars: map<string, Variable>,
                                        values: map<string, string>)
    ensures Render(a + b, vars, values) == Render(a, vars, values) + Render(b, vars, values)
    decreases |a|
  {
    if a == [] {
      assert a + b == b;
    } else {
      assert (a + b)[0] == a[0] && (a + b)[1..] == a[1..] + b;
      RenderAppend(a[1..], b, vars, values);
      Regroup(RenderSegment(a[0], vars, values), Render(a[1..], vars, values), Render(b, vars, values));
    }
  }

  lemma RenderLast(segs: seq<Segment>, k: nat, vars: map<string, Variable>, values: map<string, string>)
    requires k < |segs|
    ensures Render(segs[..k + 1], vars, values)
         == Render(segs[..k], vars, values) + RenderSegment(segs[k], vars, values)
  {
    assert segs[..k + 1] == segs[..k] + [segs[k]];
    RenderAppend(segs[..k], [segs[k]], vars, values);
    RenderCons(segs[k], [], vars, values);
    assert [segs[k]] + [] == [segs[k]];
  }

  lemma IntendedCons(l: Lexer, seg: Segment, segs: seq<Segment>, vars: map<string, Variable>,
                     values: map<string, string>)
    ensures Intended(l, [seg] + segs, vars, values) == Intended(Meant(l, seg, vars, values), segs, vars, values)
  {
    assert ([seg] + segs)[1..] == segs;
  }

  lemma {:induction false} IntendedLast(l: Lexer, segs: seq<Segment>, k: nat, vars: map<string, Variable>,
                                        values: map<string, string>)
    requires k < |segs|
    ensures Intended(l, segs[..k + 1], vars, values) == Meant(Intended(l, segs[..k], vars, values), segs[k], vars, values)
    decreases |segs|
  {
    if k == 0 {
      assert segs[..1] == [segs[0]] + [];
      IntendedCons(l, segs[0], [], vars, values);
    } else {
      IntendedLast(Meant(l, segs[0], vars, values), segs[1..], k - 1, vars, values);
      assert segs[..k] == [segs[0]] + segs[1..][..k - 1] && segs[..k + 1] == [segs[0]] + segs[1..][..k];
      IntendedCons(l, segs[0], segs[1..][..k - 1], vars, values);
      IntendedCons(l, segs[0], segs[1..][..k], vars, values);
    }
  }

  /** Some value for a placeholder in a wrong mode is misread. */
  lemma UnsafeIsMisread(segs: seq<Segment>, vars: map<string, Variable>) returns (values: map<string, string>)
    requires Named(segs) && !HolesOk(Start, segs, vars, map[])
    ensures !ReadsAsMeant(segs, vars, values)
  {
    var k := FirstBadHole(Start, segs, vars, map[]);
    var name, kind := segs[k].name, KindOf(vars, segs[k].name);
    var value := BadHole(Intended(Start, segs[..k], vars, map[]).mode, kind, name);
    values := map[name := value];
    IntendedAlike(Outline, Start, Start, segs[..k], vars, map[], vars, values);
    RenderMeans(Start, segs[..k], vars, values);
    IntendedLast(Start, segs, k, vars, values);
    RenderLast(segs, k, vars, values);
    RunAppend(Start, Render(segs[..k], vars, values), RenderSegment(segs[k], vars, values));
    assert !MeansSoFar(segs, k + 1, vars, values);
  }

  /** Rendering is safe for all values if and only if every placeholder stands in a mode
      that suits its kind. */
  lemma SafeExactly(command: string, vars: map<string, Variable>)
    ensures SafeTemplate(command, vars) <==> forall values :: ReadsAsMeant(Scan(command), vars, values)
  {
    var segs := Scan(command);
    ScanNamed(command);
    if SafeTemplate(command, vars) {
      forall values ensures ReadsAsMeant(segs, vars, values) {
        HolesOkForAll(segs, vars, map[], values);
        forall k | 0 <= k <= |segs| ensures MeansSoFar(segs, k, vars, values) {
          HolesOkPrefix(Start, segs, k, vars, values);
          RenderMeans(Start, segs[..k], vars, values);
        }
      }
    } else {
      var values := UnsafeIsMisread(segs, vars);
      assert !ReadsAsMeant(Scan(command), vars, values);
    }
  }

  // ----------------------------------------------------------------- names

  /** A declaration's name is checked with `$`, which also matches before a final newline:
      apart from shell names it accepts exactly those with a newline appended. Placeholders
      refer to shell names only, so such a declaration can never be referenced. */
  lemma NewlineNameUnreferenced(name: string, command: string)
    ensures AcceptsName(name) && !IsName(name) ==> name !in Names(Scan(command))
    ensures IsName(name) ==> AcceptsName(name + "\n") && !IsName(name + "\n")
  {
    if name in Names(Scan(command)) {
      var k := NameIsHole(Scan(command), name);
      ScanIsExact(command, k);
    }
    assert (name + "\n")[..|name + "\n"| - 1] == name;
    assert (name + "\n")[|name|] == '\n';
  }

  lemma {:induction false} NameIsHole(segs: seq<Segment>, name: string) returns (k: nat)
    requires name in Names(segs)
    ensures k < |segs| && segs[k].Hole? && segs[k].name == name
  {
    if segs[0].Hole? && segs[0].name == name {
      k := 0;
    } else {
      var m := NameIsHole(segs[1..], name);
      k := m + 1;
    }
  }

  predicate Refers(segs: seq<Segment>, k: nat, name: string) {
    k < |segs| && segs[k].Hole? && segs[k].name == name
  }

  /** The environment holds exactly the referenced variables of kind env, and its keys are
      shell names. */
  lemma EnvironmentIsReferenced(command: string, vars: map<string, Variable>, values: map<string, string>, name: string)
    ensures var env := Environment(Scan(command), vars, values);
            && (name in env <==> KindOf(vars, name).Env? && exists k: nat :: Refers(Scan(command), k, name))
            && (name in env ==> IsName(name) && env[name] == ValueOf(values, name))
  {
    if name in Names(Scan(command)) {
      var k := NameIsHole(Scan(command), name);
      assert Refers(Scan(command), k, name);
      ScanIsExact(command, k);
    }
    if k: nat :| Refers(Scan(command), k, name) {
      HoleNamed(Scan(command), k);
    }
  }
}
