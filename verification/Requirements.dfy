/**
 A requirement line is printed by the parent (`format_requirement`) and taken
 apart again in the worker by a chain of splits that knows nothing of the printer.
 */
module Requirements {
  import opened Text
  import opened PackageNames
  import V = VersionSpecifiers

  datatype Printed = Line(text: string) | BadName(nameError: NameError) | BadSpec(specError: V.SpecError)

  /** `format_requirement` */
  function Format(packageName: string, specifier: Option<string>): Printed {
    match ValidateName(packageName)
    case Invalid(e) => BadName(e)
    case Valid(name) =>
      match V.ValidateSpecifier(specifier)
      case Rejected(e) => BadSpec(e)
      case Accepted(None) => Line(name)
      case Accepted(Some(spec)) => Line(name + spec)
  }

  /** `s.split(sep)[0]` */
  function Before(s: string, sep: string): string
    requires sep != ""
  {
    if s == "" || sep <= s then "" else [s[0]] + Before(s[1..], sep)
  }

  function Cut(line: string): string {
    Before(Before(Before(Before(Before(line, "=="), ">="), "<="), "<"), ">")
  }

  /** How the worker recovers the package name from a requirement line. */
  function RecoveredName(line: string): string {
    Strip(Cut(line))
  }

  predicate Plain(s: string) {
    forall i :: 0 <= i < |s| ==> s[i] !in {'=', '<', '>', '~'}
  }

  lemma {:induction false} BeforeSkips(name: string, rest: string, sep: string)
    requires sep != "" && sep[0] in {'=', '<', '>'} && Plain(name)
    ensures Before(name + rest, sep) == name + Before(rest, sep)
  {
    if name == "" {
      assert name + rest == rest;
    } else {
      assert (name + rest)[1..] == name[1..] + rest;
      assert (name + rest)[0] == name[0];
      BeforeSkips(name[1..], rest, sep);
      assert !(sep <= name + rest);
    }
  }

  lemma CutSkips(name: string, rest: string)
    requires Plain(name)
    ensures Cut(name + rest) == name + Cut(rest)
  {
    hide Before;
    BeforeSkips(name, rest, "==");
    var r1 := Before(rest, "==");
    BeforeSkips(name, r1, ">=");
    var r2 := Before(r1, ">=");
    BeforeSkips(name, r2, "<=");
    var r3 := Before(r2, "<=");
    BeforeSkips(name, r3, "<");
    BeforeSkips(name, Before(r3, "<"), ">");
  }

  /** A split removes everything from a separator at the start, and keeps any
      other first character. */
  lemma BeforeStart(s: string, sep: string)
    requires s != "" && sep != ""
    ensures sep <= s ==> Before(s, sep) == ""
    ensures !(sep <= s) ==> Before(s, sep) != "" && Before(s, sep)[0] == s[0]
  {
  }

  /** The chain leaves nothing of a specifier that begins with any operator but
      "~=", and leaves the "~" of that one. */
  lemma CutOfSpec(op: V.Op, spec: string)
    requires V.OpText(op) <= spec && op != V.NotEqual
    ensures op != V.Compatible ==> Cut(spec) == ""
    ensures op == V.Compatible ==> Cut(spec) != "" && Cut(spec)[0] == '~'
  {
    assert spec[0] == V.OpText(op)[0];
    hide Before;
    EmptyCut();
    BeforeStart(spec, "==");
    var r1 := Before(spec, "==");
    if r1 != "" {
      BeforeStart(r1, ">=");
      var r2 := Before(r1, ">=");
      if r2 != "" {
        BeforeStart(r2, "<=");
        var r3 := Before(r2, "<=");
        if r3 != "" {
          BeforeStart(r3, "<");
          var r4 := Before(r3, "<");
          if r4 != "" {
            BeforeStart(r4, ">");
          }
        }
      }
    }
  }

  lemma EmptyCut()
    ensures Before("", ">=") == "" && Before("", "<=") == "" && Before("", "<") == "" && Before("", ">") == ""
  {
  }

  /** The round trip: for every accepted name and specifier, the worker gets back
      exactly the name unless the specifier begins with "~=", and then never. */
  lemma RoundTrip(packageName: string, specifier: Option<string>)
    requires Format(packageName, specifier).Line?
    ensures var name, spec := ValidateName(packageName).name, V.ValidateSpecifier(specifier).spec;
      && (spec.Some? ==> V.Scan(spec.value).Some?)
      && (RecoveredName(Format(packageName, specifier).text) == name
          <==> spec == None || V.FirstClause(spec.value).op != V.Compatible)
  {
    var name, spec := ValidateName(packageName).name, V.ValidateSpecifier(specifier).spec;
    NameParts(packageName);
    hide V.ValidateSpecifier, V.Scan, Cut, Plain, Stripped, ValidateName, Strip;
    if spec == None {
      CutSkips(name, "");
      assert name + "" == name;
      NothingToCut();
    } else {
      var op := FirstOp(specifier);
      CutSkips(name, spec.value);
      CutOfSpec(op, spec.value);
      if op == V.Compatible {
        TildeStays(name, Cut(spec.value));
      } else {
        assert name + "" == name;
      }
    }
  }

  lemma NameParts(packageName: string)
    requires ValidateName(packageName).Valid?
    ensures var name := ValidateName(packageName).name; Plain(name) && Strip(name) == name
  {
    StripStripped(ValidateName(packageName).name);
  }

  lemma TildeStays(name: string, left: string)
    requires Plain(name) && left != "" && left[0] == '~'
    ensures Strip(name + left) != name
  {
    StripKeeps(name + left, |name|);
    assert '~' !in name;
  }

  lemma NothingToCut()
    ensures Cut("") == ""
  {
  }

  lemma NoExclusion(spec: string)
    requires V.NoneForbidden(spec)
    ensures !(V.OpText(V.NotEqual) <= spec)
  {
    assert V.OpText(V.NotEqual)[0] in V.FORBIDDEN;
  }

  /** The operator at the start of an accepted specifier. */
  lemma FirstOp(specifier: Option<string>) returns (op: V.Op)
    requires V.ValidateSpecifier(specifier).Accepted? && V.ValidateSpecifier(specifier).spec.Some?
    ensures var spec := V.ValidateSpecifier(specifier).spec.value;
      V.Scan(spec).Some? && op == V.FirstClause(spec).op && op != V.NotEqual && V.OpText(op) <= spec
  {
    V.AcceptedIsNormal(specifier);
    var spec := V.ValidateSpecifier(specifier).spec.value;
    hide V.ValidateSpecifier, V.Scan, V.IsBare, V.NoneForbidden, Stripped;
    op := V.FirstClause(spec).op;
    NoExclusion(spec);
  }
}
