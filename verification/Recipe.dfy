/** Command recipes (remote_cmd/core/recipe.py): a template with `{{ name }}` placeholders,
    declared variables, and rendering. */
module Recipe {
  import opened Options
  import opened Shell

  datatype Kind = ShellArg | Env

  datatype Variable = Variable(kind: Kind, required: bool, defaultValue: Option<string>)

  datatype Recipe = Recipe(command: string, variables: map<string, Variable>)

  datatype Rendered = Rendered(command: string, environment: map<string, string>)

  datatype Error =
    | BadName
    | BlankCommand
    | BadTags
    | BadVariables
    | NotADeclaration(key: string)
    | WrongKey(key: string)
    | Undeclared(names: set<string>)
    | Unknown(names: set<string>)
    | Missing(names: set<string>)

  datatype Result<+T> = Ok(value: T) | Err(error: Error)

  // ------------------------------------------------------------------- names

  predicate IsName(s: string) {
    s != "" && IsNameStart(s[0]) && forall i :: 0 <= i < |s| ==> IsNameChar(s[i])
  }

  /** `^[A-Za-z_][A-Za-z0-9_]*$` used with match: `$` also matches before a final newline. */
  predicate AcceptsName(s: string) {
    IsName(s) || (s != "" && s[|s| - 1] == '\n' && IsName(s[..|s| - 1]))
  }

  // ------------------------------------------------------------ placeholders

  /** What `\s` matches in a str pattern, and what str.strip removes. */
  predicate IsSpace(c: char) {
    || '\t' <= c <= '\r' || '\U{1c}' <= c <= ' ' || c == '\U{85}' || c == '\U{a0}' || c == '\U{1680}'
    || '\U{2000}' <= c <= '\U{200a}' || c == '\U{2028}' || c == '\U{2029}' || c == '\U{202f}' || c == '\U{205f}'
    || c == '\U{3000}'
  }

  predicate AllSpace(s: string) {
    forall i :: 0 <= i < |s| ==> IsSpace(s[i])
  }

  /** Where the white space that starts at `i` ends. */
  function SkipSpaces(s: string, i: nat): (j: nat)
    requires i <= |s|
    ensures i <= j <= |s| && (forall k :: i <= k < j ==> IsSpace(s[k])) && (j < |s| ==> !IsSpace(s[j]))
    decreases |s| - i
  {
    if i == |s| || !IsSpace(s[i]) then i else SkipSpaces(s, i + 1)
  }

  function SkipName(s: string, i: nat): (j: nat)
    requires i <= |s|
    ensures i <= j <= |s| && (forall k :: i <= k < j ==> IsNameChar(s[k])) && (j < |s| ==> !IsNameChar(s[j]))
    decreases |s| - i
  {
    if i == |s| || !IsNameChar(s[i]) then i else SkipName(s, i + 1)
  }

  /** A placeholder at the front of `s`: its name and its length. */
  function Placeholder(s: string): (r: Option<(string, nat)>)
    ensures r.Some? ==> 0 < r.value.1 <= |s|
  {
    if |s| < 2 || s[0] != '{' || s[1] != '{' then None
    else
      var i := SkipSpaces(s, 2);
      if i == |s| || !IsNameStart(s[i]) then None
      else
        var j := SkipName(s, i);
        var k := SkipSpaces(s, j);
        if k + 2 <= |s| && s[k] == '}' && s[k + 1] == '}' then Some((s[i..j], k + 2)) else None
  }

  /** `text` is two braces, white space, a name between `i` and `j`, white space, two braces. */
  predicate Spans(text: string, i: nat, j: nat) {
    && 2 <= i < j && j + 2 <= |text|
    && text[0] == '{' && text[1] == '{' && text[|text| - 2] == '}' && text[|text| - 1] == '}'
    && IsNameStart(text[i])
    && (forall k :: 2 <= k < i ==> IsSpace(text[k]))
    && (forall k :: i <= k < j ==> IsNameChar(text[k]))
    && (forall k :: j <= k < |text| - 2 ==> IsSpace(text[k]))
  }

  ghost predicate IsPlaceholder(text: string, name: string) {
    exists i: nat, j: nat :: Spans(text, i, j) && name == text[i..j]
  }

  datatype Segment = Text(c: char) | Hole(name: string, text: string)

  /** The template as the placeholder pattern splits it, from left to right. */
  function Scan(s: string): seq<Segment>
    decreases |s|
  {
    if s == [] then []
    else
      match Placeholder(s)
      case Some((name, n)) => [Hole(name, s[..n])] + Scan(s[n..])
      case None => [Text(s[0])] + Scan(s[1..])
  }

  function Names(segs: seq<Segment>): set<string> {
    if segs == [] then {} else (if segs[0].Hole? then {segs[0].name} else {}) + Names(segs[1..])
  }

  /** The first segment of a template and the text behind it. */
  function Next(s: string): (r: (Segment, string))
    requires s != []
    ensures |r.1| < |s|
  {
    match Placeholder(s)
    case Some((name, n)) => (Hole(name, s[..n]), s[n..])
    case None => (Text(s[0]), s[1..])
  }

  lemma ScanNext(s: string)
    requires s != []
    ensures Scan(s) == [Next(s).0] + Scan(Next(s).1)
  {
  }

  lemma NamesCons(seg: Segment, segs: seq<Segment>)
    ensures Names([seg] + segs) == (if seg.Hole? then {seg.name} else {}) + Names(segs)
  {
    assert ([seg] + segs)[1..] == segs;
  }

  // --------------------------------------------------------------- rendering

  /** Recipe.__post_init__: the template is not blank and declares what it references. */
  ghost predicate Valid(recipe: Recipe) {
    !AllSpace(recipe.command) && Names(Scan(recipe.command)) <= recipe.variables.Keys
  }

  /** The names that a template references and `variables` does not declare. */
  method FindUndeclared(command: string, variables: map<string, Variable>) returns (undeclared: set<string>)
    ensures undeclared == Names(Scan(command)) - variables.Keys
  {
    undeclared := {};
    var rest := command;
    while rest != []
      invariant undeclared + (Names(Scan(rest)) - variables.Keys) == Names(Scan(command)) - variables.Keys
      decreases |rest|
    {
      var (seg, after) := Next(rest);
      ScanNext(rest);
      NamesCons(seg, Scan(after));
      if seg.Hole? && seg.name !in variables {
        undeclared := undeclared + {seg.name};
      }
      rest := after;
    }
  }

  lemma NothingLeft(a: set<string>, b: set<string>)
    ensures a - b == {} <==> a <= b
  {
    if a - b == {} {
      forall x | x in a ensures x in b {
        assert x !in a - b;
      }
    }
  }

  datatype TagsGiven = NoTags | NotAList | TagList(tags: seq<Option<string>>)

  datatype Declared = Declared(name: string, variable: Variable)

  /** What a caller may hand in; None is a value of a type that is not expected there. The
      variables are the items of a dictionary, in its order. */
  datatype Draft = Draft(
    name: Option<string>,
    command: Option<string>,
    tags: TagsGiven,
    variables: Option<seq<(string, Option<Declared>)>>)

  predicate IsText(s: Option<string>) {
    s.Some? && !AllSpace(s.value)
  }

  predicate GoodTags(tags: TagsGiven) {
    !tags.NotAList? && (tags.TagList? ==> forall i :: 0 <= i < |tags.tags| ==> tags.tags[i].Some?)
  }

  /** The entry is a declaration under its own name. */
  predicate GoodEntry(entry: (string, Option<Declared>)) {
    entry.1.Some? && entry.1.value.name == entry.0
  }

  ghost predicate IsDict(items: seq<(string, Option<Declared>)>) {
    forall i, j :: 0 <= i < j < |items| ==> items[i].0 != items[j].0
  }

  function KeysOf(items: seq<(string, Option<Declared>)>): set<string> {
    set i | 0 <= i < |items| :: items[i].0
  }

  ghost predicate AllGood(items: seq<(string, Option<Declared>)>) {
    forall i :: 0 <= i < |items| ==> GoodEntry(items[i])
  }

  /** `variables` is what the entries declare. */
  ghost predicate Declares(items: seq<(string, Option<Declared>)>, variables: map<string, Variable>) {
    && AllGood(items) && variables.Keys == KeysOf(items)
    && forall i :: 0 <= i < |items| ==> items[i].0 in variables && variables[items[i].0] == items[i].1.value.variable
  }

  lemma DeclaresNext(items: seq<(string, Option<Declared>)>, i: nat, variables: map<string, Variable>)
    requires IsDict(items) && i < |items| && GoodEntry(items[i]) && Declares(items[..i], variables)
    ensures Declares(items[..i + 1], variables[items[i].0 := items[i].1.value.variable])
  {
    assert items[..i + 1] == items[..i] + [items[i]];
    forall j | 0 <= j < i ensures items[j].0 in variables && items[..i][j] == items[j] {
    }
    assert KeysOf(items[..i + 1]) == KeysOf(items[..i]) + {items[i].0} by {
      forall j | 0 <= j < i ensures items[j].0 in KeysOf(items[..i]) {
        assert items[..i][j].0 == items[j].0;
      }
      assert items[..i + 1][i].0 == items[i].0;
    }
  }

  /** `error` is about entry `i`, the first one that is no declaration or has another name. */
  ghost predicate FirstBad(items: seq<(string, Option<Declared>)>, i: nat, error: Error)
    requires i < |items|
  {
    && (forall j :: 0 <= j < i ==> items[j].1.Some? && items[j].1.value.name == items[j].0)
    && match items[i].1
       case None => error == NotADeclaration(items[i].0)
       case Some(declared) => declared.name != items[i].0 && error == WrongKey(items[i].0)
  }

  /** The loop over the declarations: the first bad one is reported. */
  method CheckEntries(items: seq<(string, Option<Declared>)>) returns (r: Result<map<string, Variable>>)
    requires IsDict(items)
    ensures r.Ok? ==> Declares(items, r.value)
    ensures r.Err? ==> exists i :: 0 <= i < |items| && FirstBad(items, i, r.error)
  {
    var variables: map<string, Variable> := map[];
    for i := 0 to |items|
      invariant Declares(items[..i], variables)
    {
      assert forall j :: 0 <= j < i ==> items[..i][j] == items[j];
      if items[i].1.None? {
        r := Err(NotADeclaration(items[i].0));
        assert FirstBad(items, i, r.error);
        return;
      }
      if items[i].0 != items[i].1.value.name {
        r := Err(WrongKey(items[i].0));
        assert FirstBad(items, i, r.error);
        return;
      }
      DeclaresNext(items, i, variables);
      variables := variables[items[i].0 := items[i].1.value.variable];
    }
    assert items[..|items|] == items;
    r := Ok(variables);
  }

  /** The checks that come before the template is searched. */
  ghost predicate WellFormed(draft: Draft) {
    && IsText(draft.name) && IsText(draft.command) && GoodTags(draft.tags)
    && draft.variables.Some? && AllGood(draft.variables.value)
  }

  /** A recipe is made exactly when its name and template are not blank, its tags are
      strings, each variable is declared under its own name, and the template references
      declared variables only; the error is that of the first of these that fails. */
  method CreateRecipe(draft: Draft) returns (r: Result<Recipe>)
    requires draft.variables.Some? ==> IsDict(draft.variables.value)
    ensures r.Ok? <==> WellFormed(draft) && Names(Scan(draft.command.value)) <= KeysOf(draft.variables.value)
    ensures r.Ok? ==>
              && Valid(r.value) && r.value.command == draft.command.value
              && Declares(draft.variables.value, r.value.variables)
    ensures r.Err? && WellFormed(draft) ==>
              r.error == Undeclared(Names(Scan(draft.command.value)) - KeysOf(draft.variables.value))
    ensures r == Err(BadName) <==>
              draft.name.None? || forall i :: 0 <= i < |draft.name.value| ==> IsSpace(draft.name.value[i])
    ensures r == Err(BlankCommand) <==>
              && IsText(draft.name)
              && (draft.command.None? || forall i :: 0 <= i < |draft.command.value| ==> IsSpace(draft.command.value[i]))
    ensures r == Err(BadTags) <==>
              && IsText(draft.name) && IsText(draft.command)
              && (draft.tags.NotAList?
                  || (draft.tags.TagList? && exists i :: 0 <= i < |draft.tags.tags| && draft.tags.tags[i].None?))
    ensures r == Err(BadVariables) <==>
              IsText(draft.name) && IsText(draft.command) && GoodTags(draft.tags) && draft.variables.None?
    ensures r.Err? && (r.error.NotADeclaration? || r.error.WrongKey?) <==>
              && IsText(draft.name) && IsText(draft.command) && GoodTags(draft.tags)
              && draft.variables.Some? && !AllGood(draft.variables.value)
    ensures r.Err? && (r.error.NotADeclaration? || r.error.WrongKey?) ==>
              exists i :: 0 <= i < |draft.variables.value| && FirstBad(draft.variables.value, i, r.error)
  {
    if !IsText(draft.name) {
      return Err(BadName);
    }
    if !IsText(draft.command) {
      return Err(BlankCommand);
    }
    if !GoodTags(draft.tags) {
      return Err(BadTags);
    }
    if draft.variables.None? {
      return Err(BadVariables);
    }
    var checked := CheckEntries(draft.variables.value);
    if checked.Err? {
      return Err(checked.error);
    }
    var undeclared := FindUndeclared(draft.command.value, checked.value);
    NothingLeft(Names(Scan(draft.command.value)), checked.value.Keys);
    r := if undeclared != {} then Err(Undeclared(undeclared)) else Ok(Recipe(draft.command.value, checked.value));
  }

  /** The variables without a value, a default or leave to be absent. */
  function MissingNames(variables: map<string, Variable>, supplied: map<string, string>): set<string> {
    set name | name in variables && name !in supplied && variables[name].defaultValue.None? && variables[name].required
  }

  function Resolve(variable: Variable, supplied: Option<string>): string {
    if supplied.Some? then supplied.value
    else if variable.defaultValue.Some? then variable.defaultValue.value
    else ""
  }

  function Lookup(values: map<string, string>, name: string): Option<string> {
    if name in values then Some(values[name]) else None
  }

  function Resolved(variables: map<string, Variable>, supplied: map<string, string>): map<string, string> {
    map name | name in variables :: Resolve(variables[name], Lookup(supplied, name))
  }

  function KindOf(variables: map<string, Variable>, name: string): Kind {
    if name in variables then variables[name].kind else ShellArg
  }

  function ValueOf(values: map<string, string>, name: string): string {
    if name in values then values[name] else ""
  }

  function RenderSegment(seg: Segment, variables: map<string, Variable>, values: map<string, string>): string {
    match seg
    case Text(c) => [c]
    case Hole(name, _) => if KindOf(variables, name).Env? then "\"$" + name + "\"" else Quote(ValueOf(values, name))
  }

  function Render(segs: seq<Segment>, variables: map<string, Variable>, values: map<string, string>): string {
    if segs == [] then [] else RenderSegment(segs[0], variables, values) + Render(segs[1..], variables, values)
  }

  /** The environment variables a template references. */
  function EnvNames(segs: seq<Segment>, variables: map<string, Variable>): set<string> {
    set name | name in Names(segs) && KindOf(variables, name).Env?
  }

  function Environment(segs: seq<Segment>, variables: map<string, Variable>, values: map<string, string>)
    : map<string, string>
  {
    map name | name in EnvNames(segs, variables) :: ValueOf(values, name)
  }

  lemma RenderCons(seg: Segment, segs: seq<Segment>, variables: map<string, Variable>, values: map<string, string>)
    ensures Render([seg] + segs, variables, values)
         == RenderSegment(seg, variables, values) + Render(segs, variables, values)
  {
    assert ([seg] + segs)[1..] == segs;
  }

  lemma EnvironmentCons(seg: Segment, segs: seq<Segment>, variables: map<string, Variable>, values: map<string, string>)
    ensures Environment([seg] + segs, variables, values) ==
            if seg.Hole? && KindOf(variables, seg.name).Env?
            then Environment(segs, variables, values)[seg.name := ValueOf(values, seg.name)]
            else Environment(segs, variables, values)
  {
    NamesCons(seg, segs);
  }

  /** The loop over the declarations. */
  method ResolveValues(variables: map<string, Variable>, supplied: map<string, string>)
      returns (resolved: map<string, string>, missing: set<string>)
    ensures missing == MissingNames(variables, supplied)
    ensures missing == {} ==> resolved == Resolved(variables, supplied)
    ensures forall name :: name in missing <==>
              name in variables && name !in supplied && variables[name].defaultValue == None && variables[name].required
    ensures resolved.Keys == variables.Keys - missing
    ensures forall name :: name in resolved ==>
              resolved[name] == if name in supplied then supplied[name]
                                else if variables[name].defaultValue.Some? then variables[name].defaultValue.value else ""
  {
    resolved, missing := map[], {};
    var left := variables.Keys;
    while left != {}
      invariant left <= variables.Keys
      invariant missing == MissingNames(variables, supplied) - left
      invariant resolved.Keys == variables.Keys - left - missing
      invariant forall name :: name in resolved ==> resolved[name] == Resolved(variables, supplied)[name]
      decreases left
    {
      var name :| name in left;
      left := left - {name};
      var v := variables[name];
      if name in supplied {
        resolved := resolved[name := supplied[name]];
      } else if v.defaultValue.Some? {
        resolved := resolved[name := v.defaultValue.value];
      } else if v.required {
        missing := missing + {name};
      } else {
        resolved := resolved[name := ""];
      }
    }
  }

  /** What a segment adds to the environment. */
  function Exported(seg: Segment, variables: map<string, Variable>, values: map<string, string>): map<string, string> {
    if seg.Hole? && KindOf(variables, seg.name).Env? then map[seg.name := ValueOf(values, seg.name)] else map[]
  }

  lemma ExportedCons(environment: map<string, string>, seg: Segment, segs: seq<Segment>,
                     variables: map<string, Variable>, values: map<string, string>)
    ensures environment + Exported(seg, variables, values) + Environment(segs, variables, values)
         == environment + Environment([seg] + segs, variables, values)
  {
    EnvironmentCons(seg, segs, variables, values);
  }

  /** The substitution function handed to the pattern's sub. */
  method SubstituteSegment(seg: Segment, variables: map<string, Variable>, values: map<string, string>)
      returns (text: string, exported: map<string, string>)
    requires seg.Hole? ==> seg.name in variables && seg.name in values
    ensures text == RenderSegment(seg, variables, values) && exported == Exported(seg, variables, values)
  {
    exported := map[];
    match seg {
      case Text(c) =>
        text := [c];
      case Hole(name, _) =>
        if variables[name].kind.Env? {
          exported := exported[name := values[name]];
          text := "\"$" + name + "\"";
        } else {
          text := Quote(values[name]);
        }
    }
  }

  /** `rest` is what is left of the template once `rendered` and `environment` are done. */
  ghost predicate OnTrack(command: string, rest: string, variables: map<string, Variable>, values: map<string, string>,
                          rendered: string, environment: map<string, string>) {
    && Names(Scan(rest)) <= variables.Keys
    && rendered + Render(Scan(rest), variables, values) == Render(Scan(command), variables, values)
    && environment + Environment(Scan(rest), variables, values) == Environment(Scan(command), variables, values)
  }

  lemma OnTrackNext(command: string, rest: string, variables: map<string, Variable>, values: map<string, string>,
                    rendered: string, environment: map<string, string>)
    requires rest != [] && OnTrack(command, rest, variables, values, rendered, environment)
    ensures var (seg, after) := Next(rest);
            && (seg.Hole? ==> seg.name in variables)
            && OnTrack(command, after, variables, values, rendered + RenderSegment(seg, variables, values),
                       environment + Exported(seg, variables, values))
  {
    var (seg, after) := Next(rest);
    var segs, text := Scan(after), RenderSegment(seg, variables, values);
    ScanNext(rest);
    NamesCons(seg, segs);
    RenderCons(seg, segs, variables, values);
    ExportedCons(environment, seg, segs, variables, values);
    assert (rendered + text) + Render(segs, variables, values) == rendered + (text + Render(segs, variables, values));
  }

  lemma OnTrackEnds(command: string, variables: map<string, Variable>, values: map<string, string>,
                    rendered: string, environment: map<string, string>)
    ensures Names(Scan(command)) <= variables.Keys ==> OnTrack(command, command, variables, values, [], map[])
    ensures OnTrack(command, [], variables, values, rendered, environment) ==>
              && rendered == Render(Scan(command), variables, values)
              && environment == Environment(Scan(command), variables, values)
  {
    var text, env := Render(Scan(command), variables, values), Environment(Scan(command), variables, values);
    assert [] + text == text && map[] + env == env;
    assert Render(Scan([]), variables, values) == [] && Environment(Scan([]), variables, values) == map[];
  }

  /** The pass over the template: nothing that was substituted is looked at again. */
  method Substitute(command: string, variables: map<string, Variable>, values: map<string, string>)
      returns (rendered: string, environment: map<string, string>)
    requires Names(Scan(command)) <= variables.Keys && variables.Keys <= values.Keys
    ensures rendered == Render(Scan(command), variables, values)
    ensures environment == Environment(Scan(command), variables, values)
  {
    rendered, environment := [], map[];
    OnTrackEnds(command, variables, values, rendered, environment);
    var rest := command;
    while rest != []
      invariant OnTrack(command, rest, variables, values, rendered, environment)
      decreases |rest|
    {
      OnTrackNext(command, rest, variables, values, rendered, environment);
      var (seg, after) := Next(rest);
      var text, exported := SubstituteSegment(seg, variables, values);
      rendered := rendered + text;
      environment := environment + exported;
      rest := after;
    }
    OnTrackEnds(command, variables, values, rendered, environment);
  }

  /** render_recipe: names that are not declared are refused first; then every required
      variable without a default must be supplied; else each placeholder is rendered with
      the supplied value, the default, or nothing. */
  method RenderRecipe(recipe: Recipe, supplied: map<string, string>) returns (r: Result<Rendered>)
    requires Valid(recipe)
    ensures r.Err? && r.error.Unknown? <==> exists name :: name in supplied && name !in recipe.variables
    ensures r.Err? && r.error.Unknown? ==>
              forall name :: name in r.error.names <==> name in supplied && name !in recipe.variables
    ensures r.Err? && r.error.Missing? ==>
              forall name :: name in r.error.names <==>
                && name in recipe.variables && name !in supplied
                && recipe.variables[name].defaultValue == None && recipe.variables[name].required
    ensures r.Ok? <==>
              && (forall name :: name in supplied ==> name in recipe.variables)
              && (forall name :: name in recipe.variables && recipe.variables[name].required ==>
                    name in supplied || recipe.variables[name].defaultValue.Some?)
    ensures r.Err? ==> r.error.Unknown? || r.error.Missing?
    ensures forall name :: name in recipe.variables ==>
              Resolved(recipe.variables, supplied)[name]
              == if name in supplied then supplied[name]
                 else if recipe.variables[name].defaultValue.Some? then recipe.variables[name].defaultValue.value else ""
    ensures var vars := recipe.variables;
            if !(supplied.Keys <= vars.Keys) then r == Err(Unknown(supplied.Keys - vars.Keys))
            else if MissingNames(vars, supplied) != {} then r == Err(Missing(MissingNames(vars, supplied)))
            else r == Ok(Rendered(Render(Scan(recipe.command), vars, Resolved(vars, supplied)),
                                  Environment(Scan(recipe.command), vars, Resolved(vars, supplied))))
  {
    var unknown := supplied.Keys - recipe.variables.Keys;
    NothingLeft(supplied.Keys, recipe.variables.Keys);
    if unknown != {} {
      ghost var name :| name in unknown;
      return Err(Unknown(unknown));
    }
    var resolved, missing := ResolveValues(recipe.variables, supplied);
    if missing != {} {
      ghost var name :| name in missing;
      return Err(Missing(missing));
    }
    var command, environment := Substitute(recipe.command, recipe.variables, resolved);
    r := Ok(Rendered(command, environment));
  }
}
