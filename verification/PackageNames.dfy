/** Package names: the validator's language, and the resolver's canonical form. */
module PackageNames {
  import opened Regex
  import opened Text

  datatype NameError = EmptyName | ForbiddenCharacter | BadSyntax
  datatype NameResult = Valid(name: string) | Invalid(error: NameError)

  predicate IsNameChar(c: char) {
    IsAlnum(c) || c == '_' || c == '-' || c == '.'
  }

  const NAME := Seq(One(IsAlnum), Optional(Seq(Star(One(IsNameChar)), One(IsAlnum))))

  const FORBIDDEN := {';', '&', '|', '$', '`', '\n', '\r', '\\', '/', '(', ')', '{', '}', '<', '>', '!', '=', ' '}

  /** PEP 508, section "Names": a letter or digit, or several name characters
      between a letter or digit at either end. */
  const PEP508_NAME := Alt(One(IsAlnum), Seq(One(IsAlnum), Seq(Star(One(IsNameChar)), One(IsAlnum))))

  predicate IsName(s: string) {
    s != "" && All(IsNameChar, s) && IsAlnum(s[0]) && IsAlnum(s[|s| - 1])
  }

  /** `validate_package_name`; the pattern test is the decidable form that
      `NameLanguage` proves equal to the pattern. */
  function ValidateName(packageName: string): NameResult {
    if packageName == "" then Invalid(EmptyName)
    else
      var name := Strip(packageName);
      if exists i :: 0 <= i < |name| && name[i] in FORBIDDEN then Invalid(ForbiddenCharacter)
      else if !IsName(name) then Invalid(BadSyntax)
      else Valid(name)
  }

  lemma NameTail(s: string)
    ensures Matches(Seq(Star(One(IsNameChar)), One(IsAlnum)), s)
            <==> s != "" && All(IsNameChar, s) && IsAlnum(s[|s| - 1])
  {
    if Matches(Seq(Star(One(IsNameChar)), One(IsAlnum)), s) {
      var x, y := SeqElim(Star(One(IsNameChar)), One(IsAlnum), s);
      StarOne(IsNameChar, x);
    }
    if s != "" && All(IsNameChar, s) && IsAlnum(s[|s| - 1]) {
      var x, y := s[..|s| - 1], s[|s| - 1..];
      StarOne(IsNameChar, x);
      SeqIntro(Star(One(IsNameChar)), One(IsAlnum), x, y);
      assert s == x + y;
    }
  }

  /** The pattern accepts exactly the names, and so does PEP 508. */
  lemma NameLanguage(s: string)
    ensures Matches(NAME, s) <==> IsName(s)
    ensures Matches(PEP508_NAME, s) <==> IsName(s)
  {
    var tail := Seq(Star(One(IsNameChar)), One(IsAlnum));
    if Matches(NAME, s) {
      var x, y := SeqElim(One(IsAlnum), Optional(tail), s);
      assert y == "" || Matches(tail, y);
      NameFrom(x, y);
    }
    if Matches(PEP508_NAME, s) {
      if Matches(One(IsAlnum), s) {
        NameFrom(s, "");
        assert s + "" == s;
      } else {
        var x, y := SeqElim(One(IsAlnum), tail, s);
        NameFrom(x, y);
      }
    }
    if IsName(s) {
      NameParts(s);
      SeqIntro(One(IsAlnum), Optional(tail), s[..1], s[1..]);
      if s[1..] == "" {
        assert s == s[..1];
      } else {
        SeqIntro(One(IsAlnum), tail, s[..1], s[1..]);
      }
    }
  }

  lemma NameFrom(x: string, y: string)
    requires Matches(One(IsAlnum), x) && (y == "" || Matches(Seq(Star(One(IsNameChar)), One(IsAlnum)), y))
    ensures IsName(x + y)
  {
    NameTail(y);
    hide Matches;
    assert AlnumOne(x) by { AlnumIs(x); }
    assert forall i :: 1 <= i < |x + y| ==> (x + y)[i] == y[i - 1];
  }

  predicate AlnumOne(x: string) {
    |x| == 1 && IsAlnum(x[0])
  }

  lemma AlnumIs(x: string)
    ensures Matches(One(IsAlnum), x) <==> AlnumOne(x)
  {
  }

  lemma NameParts(s: string)
    requires IsName(s)
    ensures s == s[..1] + s[1..] && Matches(One(IsAlnum), s[..1])
    ensures s[1..] == "" || Matches(Seq(Star(One(IsNameChar)), One(IsAlnum)), s[1..])
  {
    NameTail(s[1..]);
    AlnumIs(s[..1]);
    hide Matches;
    assert forall i :: 0 <= i < |s[1..]| ==> s[1..][i] == s[i + 1];
  }

  /** The accepted inputs are exactly those whose stripped form is a PEP 508 name,
      so the loop over forbidden characters rejects nothing that the pattern would
      have let through. */
  lemma AcceptedNames(packageName: string)
    ensures ValidateName(packageName).Valid? <==> Matches(PEP508_NAME, Strip(packageName))
    ensures ValidateName(packageName).Valid? ==> ValidateName(packageName).name == Strip(packageName)
  {
    NameLanguage(Strip(packageName));
  }

  /** Why an input is rejected: it is empty, it holds a character of the shell between
      its outer blanks, or it is no name. */
  lemma RejectedNames(packageName: string)
    ensures var r, name := ValidateName(packageName), Strip(packageName);
      var shell := exists i :: 0 <= i < |name| && name[i] in FORBIDDEN;
      && (r == Invalid(EmptyName) <==> packageName == "")
      && (r == Invalid(ForbiddenCharacter) <==> shell)
      && (r == Invalid(BadSyntax) <==> packageName != "" && !shell && !Matches(PEP508_NAME, name))
  {
    hide Matches, IsName;
    NameLanguage(Strip(packageName));
    if packageName == "" {
      EmptyStrips();
    }
    hide Strip;
  }

  lemma EmptyStrips()
    ensures Strip("") == ""
  {
  }

  lemma NameIsStripped(name: string)
    requires IsName(name)
    ensures ValidateName(name) == Valid(name)
  {
    StripStripped(name);
  }

  // ---------------------------------------------------------------------------
  // Canonical names
  // ---------------------------------------------------------------------------

  function Lower(c: char): char {
    if 'A' <= c <= 'Z' then (c as int + 32) as char else c
  }

  function MapChars(f: char -> char, s: string): string {
    seq(|s|, i requires 0 <= i < |s| => f(s[i]))
  }

  /** `name.lower().replace("_", "-")` on a validated name. */
  function Canonical(name: string): string {
    MapChars(c => if c == '_' then '-' else Lower(c), name)
  }

  predicate IsSeparator(c: char) {
    c == '-' || c == '_' || c == '.'
  }

  /** PEP 503, section "Normalized Names": every run of separators becomes one
      hyphen, then everything is lower-cased. */
  function Pep503(name: string): string {
    Collapse(name, false)
  }

  function Collapse(s: string, inRun: bool): string {
    if s == "" then ""
    else if IsSeparator(s[0]) then (if inRun then "" else "-") + Collapse(s[1..], true)
    else [Lower(s[0])] + Collapse(s[1..], false)
  }

  lemma {:induction false} CollapseCanonical(s: string, inRun: bool)
    ensures Collapse(Canonical(s), inRun) == Collapse(s, inRun)
  {
    if s != "" {
      assert Canonical(s)[1..] == Canonical(s[1..]);
      CollapseCanonical(s[1..], true);
      CollapseCanonical(s[1..], false);
    }
  }

  /** The resolver's canonical form refines the standard's: packages it takes for
      the same are the same under PEP 503, and the form is stable. */
  lemma CanonicalRefinesPep503(a: string, b: string)
    ensures Canonical(a) == Canonical(b) ==> Pep503(a) == Pep503(b)
    ensures Canonical(Canonical(a)) == Canonical(a)
    ensures Pep503(Canonical(a)) == Pep503(a)
  {
    CollapseCanonical(a, false);
    CollapseCanonical(b, false);
  }

  /** It does not merge everything the standard merges. */
  lemma CanonicalIsFiner()
    ensures IsName("a.b") && IsName("a-b") && IsName("a--b")
    ensures Pep503("a.b") == Pep503("a-b") == Pep503("a--b")
    ensures Canonical("a.b") != Canonical("a-b") && Canonical("a--b") != Canonical("a-b")
  {
    assert Canonical("a.b")[1] == '.' && Canonical("a-b")[1] == '-' && |Canonical("a--b")| == 4;
    assert "a.b"[1..] == ".b" && ".b"[1..] == "b" && "a-b"[1..] == "-b" && "-b"[1..] == "b";
    assert "a--b"[1..] == "--b" && "--b"[1..] == "-b";
    assert Collapse(".b", false) == Collapse("-b", false);
    assert Collapse("--b", false) == "-" + Collapse("-b", true) && Collapse("-b", true) == Collapse("b", true);
  }
}
