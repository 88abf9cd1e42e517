/** What recipe rendering promises: the scanner finds exactly the placeholders, and a value
    reaches the shell as exactly itself wherever its placeholder stands outside quotes. */
module RecipeResults {
  import opened Options
  import opened Shell
  import opened Recipe

  // ------------------------------------------------------------- the scanner

  /** The scanner accepts only placeholders. */
  lemma PlaceholderSound(s: string)
    requires Placeholder(s).Some?
    ensures var (name, n) := Placeholder(s).value; IsPlaceholder(s[..n], name) && IsName(name)
  {
    var (name, n) := Placeholder(s).value;
    var i := SkipSpaces(s, 2);
    var j := SkipName(s, i);
    assert Spans(s[..n], i, j);
    assert name == s[..n][i..j];
  }

  /** It accepts every placeholder, whole, whatever text follows. */
  lemma PlaceholderComplete(text: string, name: string, rest: string)
    requires IsPlaceholder(text, name)
    ensures Placeholder(text + rest) == Some((name, |text|))
  {
    var i: nat, j: nat :| Spans(text, i, j) && name == text[i..j];
    var s, k := text + rest, |text| - 2;
    assert forall m :: 0 <= m < |text| ==> s[m] == text[m];
    assert IsNameStart(s[i]) && s[k] == '}' && s[k + 1] == '}';
    assert SkipSpaces(s, 2) == i;
    assert !IsNameChar(s[j]) && !IsSpace(s[i]) && !IsSpace(s[k]);
    assert SkipName(s, i) == j;
    assert SkipSpaces(s, j) == k;
    assert s[i..j] == text[i..j];
  }

  function SegmentText(seg: Segment): string {
    match seg
    case Text(c) => [c]
    case Hole(_, text) => text
  }

  function Source(segs: seq<Segment>): string {
    if segs == [] then [] else SegmentText(segs[0]) + Source(segs[1..])
  }

  lemma NextSplits(s: string)
    requires s != []
    ensures SegmentText(Next(s).0) + Next(s).1 == s
  {
  }

  lemma {:induction false} ScanSource(s: string)
    ensures Source(Scan(s)) == s
    decreases |s|
  {
    if s != [] {
      var (seg, after) := Next(s);
      ScanNext(s);
      NextSplits(s);
      ScanSource(after);
      assert ([seg] + Scan(after))[1..] == Scan(after);
    }
  }

  /** Splitting a template loses nothing, every hole is a placeholder for its name, and no
      placeholder starts at a character that is taken as text. */
  lemma {:induction false} ScanIsExact(s: string, k: nat)
    requires k < |Scan(s)|
    ensures Source(Scan(s)) == s
    ensures match Scan(s)[k]
            case Hole(name, text) => IsPlaceholder(text, name)
            case Text(c) => forall text, name, rest :: text + rest == Source(Scan(s)[k..]) ==> !IsPlaceholder(text, name)
    decreases |s|
  {
    ScanSource(s);
    ScanNext(s);
    var (seg, after) := Next(s);
    if k > 0 {
      ScanIsExact(after, k - 1);
      assert Scan(s)[k] == Scan(after)[k - 1] && Scan(s)[k..] == Scan(after)[k - 1..];
    } else if seg.Hole? {
      PlaceholderSound(s);
    } else {
      assert Scan(s)[0..] == Scan(s);
      forall text, name, rest | text + rest == s ensures !IsPlaceholder(text, name) {
        if IsPlaceholder(text, name) { PlaceholderComplete(text, name, rest); }
      }
    }
  }

  // -------------------------------------------------- what a placeholder means

  /** Whatever is pending before a placeholder is taken as it stands. */
  function Settle(l: Lexer): Lexer {
    match l.mode
    case Escaped => l.(mode := Unquoted)
    case DoubleEscaped => l.(mode := Double)
    case Dollar(d) => Resume(l, d, Meta('$'))
    case Name(d, name) => Resume(l, d, Param(name, d))
    case _ => l
  }

  /** A placeholder adds `pieces` to the current word and leaves the quoting around it as
      it is; in a comment it means nothing. */
  function Contribute(l: Lexer, pieces: seq<Piece>): Lexer {
    if l.mode.Comment? then l else Add(Settle(l), pieces)
  }

  /** The literal value, or a quoted reference to the environment variable. */
  function Contribution(name: string, variables: map<string, Variable>, values: map<string, string>): seq<Piece> {
    if KindOf(variables, name).Env? then [Param(name, true)] else Lits(ValueOf(values, name))
  }

  function Meant(l: Lexer, seg: Segment, variables: map<string, Variable>, values: map<string, string>): Lexer {
    match seg
    case Text(c) => Step(l, c)
    case Hole(name, _) => Contribute(l, Contribution(name, variables, values))
  }

  /** The reading of a template in which placeholders are not text at all. */
  function Intended(l: Lexer, segs: seq<Segment>, variables: map<string, Variable>, values: map<string, string>): Lexer
    decreases |segs|
  {
    if segs == [] then l else Intended(Meant(l, segs[0], variables, values), segs[1..], variables, values)
  }

  /** The modes in which the rendered text of a placeholder means what it should. */
  predicate HoleOk(mode: Mode, kind: Kind) {
    mode.Unquoted? || (kind.Env? && (mode.Comment? || ((mode.Dollar? || mode.Name?) && !mode.inDouble)))
  }

  predicate HolesOk(l: Lexer, segs: seq<Segment>, variables: map<string, Variable>, values: map<string, string>)
    decreases |segs|
  {
    segs != [] ==>
      && (segs[0].Hole? ==> HoleOk(l.mode, KindOf(variables, segs[0].name)))
      && HolesOk(Meant(l, segs[0], variables, values), segs[1..], variables, values)
  }

  lemma {:induction false} RunName(l: Lexer, d: bool, n: string, more: string)
    requires l.mode == Name(d, n) && forall i :: 0 <= i < |more| ==> IsNameChar(more[i])
    ensures Run(l, more) == l.(mode := Name(d, n + more))
    decreases |more|
  {
    if more == [] {
      assert n + more == n;
    } else {
      RunName(l.(mode := Name(d, n + [more[0]])), d, n + [more[0]], more[1..]);
      assert n + [more[0]] + more[1..] == n + more;
    }
  }

  /** After a `$`, a name and a closing double quote are a parameter. */
  lemma RunDollarName(l: Lexer, d: bool, name: string)
    requires l.mode == Dollar(d) && IsName(name)
    ensures Run(l, name + "\"") == Base(Resume(l, d, Param(name, d)), d, '"')
  {
    var l1 := l.(mode := Name(d, [name[0]]));
    RunName(l1, d, [name[0]], name[1..]);
    assert [name[0]] + name[1..] == name;
    assert Run(l, name) == Run(l1, name[1..]);
    RunAppend(l, name, "\"");
    var l2 := l.(mode := Name(d, name));
    assert Run(l2, "\"") == Run(Step(l2, '"'), []);
  }

  function EnvText(name: string): string {
    "\"$" + name + "\""
  }

  /** Reading `"$NAME"` from the state in which the first quote has been seen. */
  lemma RunEnvText(l: Lexer, name: string)
    requires IsName(name)
    ensures Run(l, EnvText(name)) == Run(Step(Step(l, '"'), '$'), name + "\"")
  {
    assert EnvText(name)[1..] == "$" + (name + "\"");
    assert EnvText(name)[1..][1..] == name + "\"";
  }

  /** Outside quotes `"$NAME"` is one quoted parameter. */
  lemma EnvTextMeans(l: Lexer, name: string)
    requires IsName(name) && HoleOk(l.mode, Env)
    ensures Run(l, EnvText(name)) == Contribute(l, [Param(name, true)])
  {
    if l.mode.Comment? {
      RunComment(l, EnvText(name));
    } else {
      var l1 := Settle(l);
      var l2 := Add(l1, []).(mode := Double);
      RunEnvText(l, name);
      assert Step(l, '"') == l2;
      RunDollarName(l2.(mode := Dollar(true)), true, name);
      AddTwice(l1, [], [Param(name, true)]);
      assert [] + [Param(name, true)] == [Param(name, true)];
    }
  }

  lemma {:induction false} RunComment(l: Lexer, text: string)
    requires l.mode.Comment? && '\n' !in text
    ensures Run(l, text) == l
    decreases |text|
  {
    if text != [] { RunComment(l, text[1..]); }
  }

  /** In the right mode, the text of a placeholder is read as what the placeholder means. */
  lemma HoleMeans(l: Lexer, seg: Segment, variables: map<string, Variable>, values: map<string, string>)
    requires seg.Hole? && IsName(seg.name) && HoleOk(l.mode, KindOf(variables, seg.name))
    ensures Run(l, RenderSegment(seg, variables, values)) == Meant(l, seg, variables, values)
  {
    if KindOf(variables, seg.name).Env? {
      EnvTextMeans(l, seg.name);
    } else {
      QuoteIsLiteral(l, ValueOf(values, seg.name));
    }
  }

  ghost predicate Named(segs: seq<Segment>) {
    forall k :: 0 <= k < |segs| && segs[k].Hole? ==> IsName(segs[k].name)
  }

  lemma ScanNamed(s: string)
    ensures Named(Scan(s))
  {
    forall k | 0 <= k < |Scan(s)| && Scan(s)[k].Hole? ensures IsName(Scan(s)[k].name) {
      ScanIsExact(s, k);
    }
  }

  lemma {:induction false} RenderMeans(l: Lexer, segs: seq<Segment>, variables: map<string, Variable>,
                                       values: map<string, string>)
    requires Named(segs) && HolesOk(l, segs, variables, values)
    ensures Run(l, Render(segs, variables, values)) == Intended(l, segs, variables, values)
    decreases |segs|
  {
    if segs != [] {
      var text, l1 := RenderSegment(segs[0], variables, values), Meant(l, segs[0], variables, values);
      if segs[0].Hole? { HoleMeans(l, segs[0], variables, values); } else { assert Run(l, text) == Run(l1, []); }
      RunAppend(l, text, Render(segs[1..], variables, values));
      RenderMeans(l1, segs[1..], variables, values);
    }
  }
}
