/**
 What the accepted specifiers have in common with PEP 440: its version scheme
 (Appendix B), and the versions that its section "Version specifiers" allows after
 each operator.
 */
module Pep440 {
  import opened Regex
  import opened Text
  import PackageNames
  import V = VersionSpecifiers

  // ---------------------------------------------------------------------------
  // The version scheme, in any case of letters
  // ---------------------------------------------------------------------------

  function Letter(c: char): Re {
    One(x => PackageNames.Lower(x) == c)
  }

  function Word(w: string): Re {
    if w == "" then Empty else Seq(Letter(w[0]), Word(w[1..]))
  }

  const DIGITS := Plus(One(IsDigit))
  const SEPARATOR := Optional(One(PackageNames.IsSeparator))
  const EPOCH := Optional(Seq(DIGITS, Char('!')))
  const SEGMENT := Seq(Char('.'), DIGITS)
  const RELEASE := Seq(DIGITS, Star(SEGMENT))

  /** A word with optional separators around it, and an optional number. */
  function Tagged(words: Re): Re {
    Optional(Seq(SEPARATOR, Seq(words, Seq(SEPARATOR, Optional(DIGITS)))))
  }

  const EARLY := Alt(Word("alpha"), Alt(Word("a"), Alt(Word("beta"), Word("b"))))
  const LATE := Alt(Word("preview"), Alt(Word("pre"), Alt(Word("rc"), Word("c"))))
  const PRE := Tagged(Alt(EARLY, LATE))
  const POST := Alt(Seq(Char('-'), DIGITS), Tagged(Alt(Word("post"), Alt(Word("rev"), Word("r")))))
  const DEV := Tagged(Word("dev"))
  const LOCAL :=
    Optional(Seq(Char('+'), Seq(Plus(One(IsAlnum)), Star(Seq(One(PackageNames.IsSeparator), Plus(One(IsAlnum)))))))

  const LEAD := Seq(Optional(Letter('v')), EPOCH)
  const TAIL := Seq(PRE, Seq(POST, DEV))

  /** A public version, and one of at least two release segments. */
  const PUBLIC := Seq(LEAD, Seq(RELEASE, TAIL))
  const PUBLIC_OF_TWO := Seq(LEAD, Seq(Seq(RELEASE, SEGMENT), TAIL))
  const LOCAL_VERSION := Seq(PUBLIC, LOCAL)
  /** A version without a development or local part, and ".*" behind it. */
  const PREFIX := Seq(Seq(LEAD, Seq(RELEASE, Seq(PRE, POST))), Seq(Char('.'), Char('*')))

  /** The versions that may follow an operator. */
  ghost predicate Allows(op: V.Op, version: string) {
    match op
    case Equal => Matches(LOCAL_VERSION, version) || Matches(PREFIX, version)
    case NotEqual => Matches(LOCAL_VERSION, version) || Matches(PREFIX, version)
    case Compatible => Matches(PUBLIC_OF_TWO, version)
    case _ => Matches(PUBLIC, version)
  }

  ghost predicate IsClause(c: V.Clause) {
    V.Blank(c.lead) && V.Blank(c.gap) && V.Blank(c.trail) && Allows(c.op, c.version)
  }

  ghost predicate AreClauses(cs: seq<V.Clause>) {
    forall i :: 0 <= i < |cs| ==> IsClause(cs[i])
  }

  /** A specifier set of PEP 440 that does not use arbitrary equality. */
  ghost predicate IsSpecifierSet(s: string) {
    exists cs :: cs != [] && AreClauses(cs) && V.Print(cs) == s
  }

  // ---------------------------------------------------------------------------
  // The characters of a version
  // ---------------------------------------------------------------------------

  /** Every character of the pattern is of the class. */
  ghost predicate Within(r: Re, p: char -> bool) {
    match r
    case Empty => true
    case One(accepts) => forall c :: accepts(c) ==> p(c)
    case Seq(a, b) => Within(a, p) && Within(b, p)
    case Alt(a, b) => Within(a, p) && Within(b, p)
    case Star(a) => Within(a, p)
  }

  lemma AllAppend(p: char -> bool, x: string, y: string)
    ensures All(p, x) && All(p, y) ==> All(p, x + y)
  {
  }

  lemma {:induction false} WithinAll(r: Re, p: char -> bool, s: string)
    requires Within(r, p) && Matches(r, s)
    ensures All(p, s)
    decreases r, |s|
  {
    match r
    case Empty =>
    case One(_) =>
    case Seq(a, b) =>
      var x, y := SeqElim(a, b, s);
      WithinAll(a, p, x);
      WithinAll(b, p, y);
      AllAppend(p, x, y);
    case Alt(a, b) =>
      if Matches(a, s) {
        WithinAll(a, p, s);
      } else {
        WithinAll(b, p, s);
      }
    case Star(a) =>
      if s != "" {
        var x, y := StarElim(a, s);
        WithinAll(a, p, x);
        WithinAll(r, p, y);
        AllAppend(p, x, y);
      }
  }

  /** A character of a version without ".*". */
  predicate IsPublicChar(c: char) {
    IsAlnum(c) || c == '_' || c == '-' || c == '.' || c == '!' || c == '+'
  }

  lemma {:induction false} WordWithin(w: string)
    requires forall i :: 0 <= i < |w| ==> 'a' <= w[i] <= 'z'
    ensures Within(Word(w), IsPublicChar)
  {
    if w != "" {
      WordWithin(w[1..]);
    }
  }

  lemma OneWithin(accepts: char -> bool)
    requires forall c :: accepts(c) ==> IsPublicChar(c)
    ensures Within(One(accepts), IsPublicChar) && Within(Plus(One(accepts)), IsPublicChar)
  {
  }

  lemma OptionalWithin(r: Re)
    requires Within(r, IsPublicChar)
    ensures Within(Optional(r), IsPublicChar) && Within(Star(r), IsPublicChar)
  {
  }

  lemma CharWithin(c: char)
    requires IsPublicChar(c)
    ensures Within(Char(c), IsPublicChar)
  {
  }

  lemma PartsWithin()
    ensures Within(DIGITS, IsPublicChar) && Within(SEPARATOR, IsPublicChar) && Within(LEAD, IsPublicChar)
    ensures Within(SEGMENT, IsPublicChar) && Within(RELEASE, IsPublicChar) && Within(LOCAL, IsPublicChar)
  {
    OneWithin(IsDigit);
    OneWithin(IsAlnum);
    OneWithin(PackageNames.IsSeparator);
    CharWithin('!');
    CharWithin('.');
    CharWithin('+');
    WordWithin("v");
    assert Word("v") == Seq(Letter('v'), Word("v"[1..]));
    hide IsPublicChar, Word;
    assert Within(Letter('v'), IsPublicChar);
    hide Within, Letter;
    OptionalWithin(One(PackageNames.IsSeparator));
    SeqWithin(DIGITS, Char('!'));
    OptionalWithin(Seq(DIGITS, Char('!')));
    OptionalWithin(Letter('v'));
    SeqWithin(Optional(Letter('v')), EPOCH);
    SeqWithin(Char('.'), DIGITS);
    OptionalWithin(SEGMENT);
    SeqWithin(DIGITS, Star(SEGMENT));
    var words := Plus(One(IsAlnum));
    SeqWithin(One(PackageNames.IsSeparator), words);
    OptionalWithin(Seq(One(PackageNames.IsSeparator), words));
    SeqWithin(words, Star(Seq(One(PackageNames.IsSeparator), words)));
    SeqWithin(Char('+'), Seq(words, Star(Seq(One(PackageNames.IsSeparator), words))));
    OptionalWithin(Seq(Char('+'), Seq(words, Star(Seq(One(PackageNames.IsSeparator), words)))));
  }

  lemma TaggedWithin(words: Re)
    requires Within(words, IsPublicChar)
    ensures Within(Tagged(words), IsPublicChar)
  {
    PartsWithin();
    hide Within, IsPublicChar;
    OptionalWithin(DIGITS);
    SeqWithin(SEPARATOR, Optional(DIGITS));
    SeqWithin(words, Seq(SEPARATOR, Optional(DIGITS)));
    SeqWithin(SEPARATOR, Seq(words, Seq(SEPARATOR, Optional(DIGITS))));
    OptionalWithin(Seq(SEPARATOR, Seq(words, Seq(SEPARATOR, Optional(DIGITS)))));
  }

  lemma AltWithin(a: Re, b: Re)
    requires Within(a, IsPublicChar) && Within(b, IsPublicChar)
    ensures Within(Alt(a, b), IsPublicChar)
  {
  }

  lemma EarlyWithin()
    ensures Within(EARLY, IsPublicChar)
  {
    WordWithin("alpha");
    WordWithin("a");
    WordWithin("beta");
    WordWithin("b");
    hide Within, Word;
    AltWithin(Word("beta"), Word("b"));
    AltWithin(Word("a"), Alt(Word("beta"), Word("b")));
    AltWithin(Word("alpha"), Alt(Word("a"), Alt(Word("beta"), Word("b"))));
  }

  lemma LateWithin()
    ensures Within(LATE, IsPublicChar)
  {
    WordWithin("preview");
    WordWithin("pre");
    WordWithin("rc");
    WordWithin("c");
    hide Within, Word;
    AltWithin(Word("rc"), Word("c"));
    AltWithin(Word("pre"), Alt(Word("rc"), Word("c")));
    AltWithin(Word("preview"), Alt(Word("pre"), Alt(Word("rc"), Word("c"))));
  }

  lemma PreWithin()
    ensures Within(PRE, IsPublicChar)
  {
    EarlyWithin();
    LateWithin();
    hide Within, Word;
    AltWithin(EARLY, LATE);
    TaggedWithin(Alt(EARLY, LATE));
  }

  lemma PostWithin()
    ensures Within(POST, IsPublicChar) && Within(DEV, IsPublicChar)
  {
    WordWithin("post");
    WordWithin("rev");
    WordWithin("r");
    WordWithin("dev");
    PartsWithin();
    DashWithin();
    hide Within, Word;
    AltWithin(Word("rev"), Word("r"));
    AltWithin(Word("post"), Alt(Word("rev"), Word("r")));
    TaggedWithin(Alt(Word("post"), Alt(Word("rev"), Word("r"))));
    TaggedWithin(Word("dev"));
    AltWithin(Seq(Char('-'), DIGITS), Tagged(Alt(Word("post"), Alt(Word("rev"), Word("r")))));
  }

  lemma DashWithin()
    ensures Within(Seq(Char('-'), DIGITS), IsPublicChar)
  {
    PartsWithin();
    CharWithin('-');
    hide Within;
    SeqWithin(Char('-'), DIGITS);
  }

  lemma SeqWithin(a: Re, b: Re)
    requires Within(a, IsPublicChar) && Within(b, IsPublicChar)
    ensures Within(Seq(a, b), IsPublicChar)
  {
  }

  lemma VersionsWithin()
    ensures Within(PUBLIC, IsPublicChar) && Within(PUBLIC_OF_TWO, IsPublicChar) && Within(LOCAL_VERSION, IsPublicChar)
    ensures Within(Seq(LEAD, Seq(RELEASE, Seq(PRE, POST))), IsPublicChar)
  {
    PartsWithin();
    PreWithin();
    PostWithin();
    hide Within, Tagged, Word;
    SeqWithin(POST, DEV);
    SeqWithin(PRE, Seq(POST, DEV));
    SeqWithin(RELEASE, TAIL);
    SeqWithin(LEAD, Seq(RELEASE, TAIL));
    SeqWithin(RELEASE, SEGMENT);
    SeqWithin(Seq(RELEASE, SEGMENT), TAIL);
    SeqWithin(LEAD, Seq(Seq(RELEASE, SEGMENT), TAIL));
    SeqWithin(PUBLIC, LOCAL);
    SeqWithin(PRE, POST);
    SeqWithin(RELEASE, Seq(PRE, POST));
    SeqWithin(LEAD, Seq(RELEASE, Seq(PRE, POST)));
  }

  predicate IsPrefixChar(c: char) {
    IsPublicChar(c) || c == '*'
  }

  /** The characters of an allowed version; only "==" and "!=" allow a "*". */
  lemma VersionChars(op: V.Op, version: string)
    requires Allows(op, version)
    ensures version != "" && All(IsPrefixChar, version)
    ensures op != V.Equal && op != V.NotEqual ==> All(IsPublicChar, version)
  {
    VersionsWithin();
    NoEmptyVersion(version);
    hide Within, Tagged, Word, Matches;
    match op
    case Compatible => WithinAll(PUBLIC_OF_TWO, IsPublicChar, version);
    case Equal => ExactChars(version);
    case NotEqual => ExactChars(version);
    case _ => WithinAll(PUBLIC, IsPublicChar, version);
  }

  lemma ExactChars(version: string)
    requires Matches(LOCAL_VERSION, version) || Matches(PREFIX, version)
    ensures All(IsPrefixChar, version)
  {
    VersionsWithin();
    hide Within, Tagged, Word;
    if Matches(LOCAL_VERSION, version) {
      WithinAll(LOCAL_VERSION, IsPublicChar, version);
    } else {
      var x, y := SeqElim(Seq(LEAD, Seq(RELEASE, Seq(PRE, POST))), Seq(Char('.'), Char('*')), version);
      WithinAll(Seq(LEAD, Seq(RELEASE, Seq(PRE, POST))), IsPublicChar, x);
      var dot, star := SeqElim(Char('.'), Char('*'), y);
      assert y == ".*";
    }
  }

  lemma ReleaseIsNotEmpty(s: string)
    ensures Matches(RELEASE, s) ==> s != ""
  {
    if Matches(RELEASE, s) {
      var x, y := SeqElim(DIGITS, Star(SEGMENT), s);
      PlusOne(IsDigit, x);
    }
  }

  lemma LeadRelease(rest: Re, s: string)
    requires Matches(Seq(LEAD, Seq(RELEASE, rest)), s)
    ensures s != ""
  {
    var x, y := SeqElim(LEAD, Seq(RELEASE, rest), s);
    var z, r := SeqElim(RELEASE, rest, y);
    hide Matches;
    ReleaseIsNotEmpty(z);
  }

  lemma NoEmptyVersion(s: string)
    ensures Matches(PUBLIC, s) || Matches(PUBLIC_OF_TWO, s) || Matches(LOCAL_VERSION, s) || Matches(PREFIX, s) ==>
      s != ""
  {
    hide Matches, Tagged, Word;
    if Matches(PUBLIC, s) {
      LeadRelease(TAIL, s);
    } else if Matches(PUBLIC_OF_TWO, s) {
      var x, y := SeqElim(LEAD, Seq(Seq(RELEASE, SEGMENT), TAIL), s);
      var z, r := SeqElim(Seq(RELEASE, SEGMENT), TAIL, y);
      var a, b := SeqElim(RELEASE, SEGMENT, z);
      ReleaseIsNotEmpty(a);
    } else if Matches(LOCAL_VERSION, s) {
      var x, y := SeqElim(PUBLIC, LOCAL, s);
      LeadRelease(TAIL, x);
    } else if Matches(PREFIX, s) {
      var x, y := SeqElim(Seq(LEAD, Seq(RELEASE, Seq(PRE, POST))), Seq(Char('.'), Char('*')), s);
      LeadRelease(Seq(PRE, POST), x);
    }
  }

  lemma EmptyParts()
    ensures Matches(LEAD, "") && Matches(TAIL, "") && Matches(LOCAL, "")
  {
    assert Matches(Empty, "");
    assert Matches(Optional(Letter('v')), "") && Matches(EPOCH, "");
    assert Matches(PRE, "") && Matches(DEV, "") && Matches(POST, "");
    SeqIntro(Optional(Letter('v')), EPOCH, "", "");
    SeqIntro(POST, DEV, "", "");
    SeqIntro(PRE, Seq(POST, DEV), "", "");
    assert "" + "" == "";
  }

  /** A plain number is a version for every operator but "~=". */
  lemma NumberIsVersion(op: V.Op, s: string)
    requires s != "" && All(IsDigit, s) && op != V.Compatible
    ensures Allows(op, s)
  {
    EmptyParts();
    PlusOne(IsDigit, s);
    StarOfNone();
    hide Matches, All;
    SeqIntro(DIGITS, Star(SEGMENT), s, "");
    assert s + "" == s && "" + s == s;
    SeqIntro(RELEASE, TAIL, s, "");
    SeqIntro(LEAD, Seq(RELEASE, TAIL), "", s);
    SeqIntro(PUBLIC, LOCAL, s, "");
  }

  lemma StarOfNone()
    ensures Matches(Star(SEGMENT), "")
  {
  }

  // ---------------------------------------------------------------------------
  // The comparison
  // ---------------------------------------------------------------------------

  /** The version has neither an epoch nor a local part. */
  predicate Plain(version: string) {
    '!' !in version && '+' !in version
  }

  predicate NotPlus(c: char) {
    c != '+'
  }

  lemma ClauseHasNoPlus(c: V.Clause)
    requires V.WellFormed(c)
    ensures All(NotPlus, V.PrintClause(c))
  {
    var op := V.OpText(c.op);
    assert All(NotPlus, op) && All(NotPlus, c.lead) && All(NotPlus, c.gap);
    assert All(NotPlus, c.version) && All(NotPlus, c.trail);
    hide All, V.OpText;
    AllAppend(NotPlus, c.version, c.trail);
    AllAppend(NotPlus, c.gap, c.version + c.trail);
    AllAppend(NotPlus, op, c.gap + (c.version + c.trail));
    AllAppend(NotPlus, c.lead, op + (c.gap + (c.version + c.trail)));
  }

  lemma {:induction false} PrintHasNoPlus(cs: seq<V.Clause>)
    requires cs != [] && V.AllWellFormed(cs)
    ensures All(NotPlus, V.Print(cs))
    decreases |cs|
  {
    var more := cs[1..];
    assert cs == [cs[0]] + more;
    ClauseHasNoPlus(cs[0]);
    CommaHasNoPlus();
    hide All, V.Print, V.PrintMore, V.PrintClause, V.WellFormed;
    V.PrintCons(cs[0], more);
    if more != [] {
      PrintHasNoPlus(more);
      AllAppend(NotPlus, ",", V.Print(more));
    }
    AllAppend(NotPlus, V.PrintClause(cs[0]), V.PrintMore(more));
  }

  lemma CommaHasNoPlus()
    ensures All(NotPlus, ",") && All(NotPlus, "")
  {
  }

  /** The versions of a clause list are parts of its print. */
  lemma {:induction false} VersionInPrint(cs: seq<V.Clause>, i: nat, c: char)
    requires cs != [] && i < |cs| && c in cs[i].version
    ensures c in V.Print(cs)
    decreases |cs|
  {
    var more := cs[1..];
    assert cs == [cs[0]] + more;
    VersionInClause(cs[0], c);
    hide V.Print, V.PrintMore, V.PrintClause;
    V.PrintCons(cs[0], more);
    if i > 0 {
      VersionInPrint(more, i - 1, c);
      InRight(",", V.Print(more), c);
      InRight(V.PrintClause(cs[0]), V.PrintMore(more), c);
    } else {
      InLeft(V.PrintClause(cs[0]), V.PrintMore(more), c);
    }
  }

  lemma InLeft(x: string, y: string, c: char)
    ensures c in x ==> c in x + y
  {
    if i :| 0 <= i < |x| && x[i] == c {
      assert (x + y)[i] == c;
    }
  }

  lemma InRight(x: string, y: string, c: char)
    ensures c in y ==> c in x + y
  {
    if i :| 0 <= i < |y| && y[i] == c {
      assert (x + y)[|x| + i] == c;
    }
  }

  lemma VersionInClause(cl: V.Clause, c: char)
    ensures c in cl.version ==> c in V.PrintClause(cl)
  {
    InLeft(cl.version, cl.trail, c);
    InRight(cl.gap, cl.version + cl.trail, c);
    InRight(V.OpText(cl.op), cl.gap + (cl.version + cl.trail), c);
    InRight(cl.lead, V.OpText(cl.op) + (cl.gap + (cl.version + cl.trail)), c);
  }

  lemma PlainIsWellFormed(c: V.Clause)
    requires IsClause(c)
    ensures Plain(c.version) <==> V.WellFormed(c)
  {
    VersionChars(c.op, c.version);
    hide Allows, Matches, V.OpText;
    PlainChars(c.version);
  }

  lemma PlainChars(version: string)
    requires All(IsPrefixChar, version)
    ensures Plain(version) <==> All(V.IsVersionChar, version)
  {
    if Plain(version) {
      assert forall i :: 0 <= i < |version| ==> version[i] in version;
    }
  }

  ghost predicate AllPlain(cs: seq<V.Clause>) {
    forall i :: 0 <= i < |cs| ==> Plain(cs[i].version)
  }

  lemma PlainAreWellFormed(cs: seq<V.Clause>)
    requires AreClauses(cs)
    ensures AllPlain(cs) <==> V.AllWellFormed(cs)
  {
    hide IsClause, V.WellFormed, Plain;
    forall i | 0 <= i < |cs| ensures Plain(cs[i].version) <==> V.WellFormed(cs[i]) {
      PlainIsWellFormed(cs[i]);
    }
  }

  /** A specifier set of PEP 440, stripped, is accepted exactly if none of its
      versions has an epoch or a local part, none of its clauses is an exclusion, and
      no line break is among its blanks. */
  lemma AcceptedOfPep440(cs: seq<V.Clause>)
    requires cs != [] && AreClauses(cs) && Stripped(V.Print(cs))
    ensures V.Normal(V.Print(cs)) <==> AllPlain(cs) && V.AllAllowed(cs)
  {
    PlainAreWellFormed(cs);
    hide V.Normal, V.Print, V.Scan, V.NoneForbidden, Stripped, All, AllPlain, AreClauses, V.AllWellFormed, V.AllAllowed;
    var s := V.Print(cs);
    if V.Normal(s) {
      V.NormalParts(s);
      V.ScanThenPrint(s);
      PrintHasNoPlus(V.Scan(s).value);
      NoEpochsOrLocals(cs);
      V.ForbiddenInPrint(cs);
    }
    if AllPlain(cs) && V.AllAllowed(cs) {
      V.GrammarOfAccepted(s);
    }
  }

  lemma NoEpochsOrLocals(cs: seq<V.Clause>)
    requires cs != [] && V.NoneForbidden(V.Print(cs)) && All(NotPlus, V.Print(cs))
    ensures AllPlain(cs)
  {
    hide V.Print, V.NoneForbidden, All, Plain;
    forall i | 0 <= i < |cs| ensures Plain(cs[i].version) {
      NoEpochOrLocal(cs, i);
    }
  }

  lemma NoEpochOrLocal(cs: seq<V.Clause>, i: nat)
    requires cs != [] && i < |cs| && V.NoneForbidden(V.Print(cs)) && All(NotPlus, V.Print(cs))
    ensures Plain(cs[i].version)
  {
    assert '!' in V.FORBIDDEN;
    hide V.Print;
    if '!' in cs[i].version {
      VersionInPrint(cs, i, '!');
    }
    if '+' in cs[i].version {
      VersionInPrint(cs, i, '+');
    }
  }

  /** PEP 440 allows the version of every clause after that clause's operator. */
  ghost predicate AllAllow(cs: seq<V.Clause>) {
    forall i :: 0 <= i < |cs| ==> Allows(cs[i].op, cs[i].version)
  }

  lemma WellFormedAreClauses(cs: seq<V.Clause>)
    requires V.AllWellFormed(cs)
    ensures AreClauses(cs) <==> AllAllow(cs)
  {
    hide Allows, V.Blank, All;
  }

  /** An accepted specifier is a specifier set of PEP 440 exactly if PEP 440 allows
      the version of every one of its clauses after that clause's operator. */
  lemma Pep440OfAccepted(spec: string)
    requires V.Normal(spec)
    ensures V.Scan(spec).Some? && (IsSpecifierSet(spec) <==> AllAllow(V.Scan(spec).value))
  {
    hide V.Normal, V.Print, V.Scan, V.NoneForbidden, Stripped;
    hide AllAllow, AreClauses, AllPlain, V.AllWellFormed, V.AllAllowed;
    V.NormalParts(spec);
    V.ScanThenPrint(spec);
    var ds := V.Scan(spec).value;
    WellFormedAreClauses(ds);
    if cs :| cs != [] && AreClauses(cs) && V.Print(cs) == spec {
      AcceptedOfPep440(cs);
      PlainAreWellFormed(cs);
      V.PrintThenScan(cs);
    }
  }

  /** So every accepted specifier with a "*" in a clause other than "==" lies outside
      PEP 440. */
  lemma OrderedPrefixes(spec: string, i: nat)
    requires V.Normal(spec) && V.Scan(spec).Some? && i < |V.Scan(spec).value|
    requires var c := V.Scan(spec).value[i]; c.op != V.Equal && c.op != V.NotEqual && '*' in c.version
    ensures !IsSpecifierSet(spec)
  {
    hide V.Normal, V.Scan, Allows, IsSpecifierSet;
    Pep440OfAccepted(spec);
    NoStar(V.Scan(spec).value[i].op, V.Scan(spec).value[i].version);
  }

  lemma NoStar(op: V.Op, version: string)
    requires op != V.Equal && op != V.NotEqual && '*' in version
    ensures !Allows(op, version)
  {
    hide Allows;
    if Allows(op, version) {
      VersionChars(op, version);
    }
  }

  // ---------------------------------------------------------------------------
  // Arbitrary equality
  // ---------------------------------------------------------------------------

  /** No three equals signs stand in a row. */
  predicate NoTriple(s: string) {
    forall k :: 0 <= k < |s| - 2 ==> !(s[k] == '=' && s[k + 1] == '=' && s[k + 2] == '=')
  }

  lemma TripleJoin(x: string, y: string)
    requires NoTriple(x) && NoTriple(y) && (x == "" || x[|x| - 1] != '=')
    ensures NoTriple(x + y)
  {
    var s := x + y;
    forall k | 0 <= k < |s| - 2 ensures !(s[k] == '=' && s[k + 1] == '=' && s[k + 2] == '=') {
      assert k < |x| ==> s[k] == x[k];
      assert k + 1 < |x| ==> s[k + 1] == x[k + 1];
      assert k + 2 < |x| ==> s[k + 2] == x[k + 2];
      assert k >= |x| ==> s[k] == y[k - |x|] && s[k + 1] == y[k + 1 - |x|] && s[k + 2] == y[k + 2 - |x|];
    }
  }

  lemma ClauseNoTriple(c: V.Clause)
    requires V.WellFormed(c)
    ensures NoTriple(V.PrintClause(c))
    ensures V.PrintClause(c) != "" && V.PrintClause(c)[|V.PrintClause(c)| - 1] != '='
  {
    var rest := c.gap + (c.version + c.trail);
    assert forall i :: 0 <= i < |rest| ==> rest[i] != '=';
    assert NoTriple(V.OpText(c.op) + rest);
    assert V.PrintClause(c) == c.lead + (V.OpText(c.op) + rest);
    var s := V.PrintClause(c);
    assert s[|s| - 1] == rest[|rest| - 1];
    assert c.lead != "" ==> IsSpace(c.lead[|c.lead| - 1]);
    TripleJoin(c.lead, V.OpText(c.op) + rest);
  }

  lemma {:induction false} PrintNoTriple(cs: seq<V.Clause>)
    requires cs != [] && V.AllWellFormed(cs)
    ensures NoTriple(V.Print(cs))
    decreases |cs|
  {
    var more := cs[1..];
    assert cs == [cs[0]] + more;
    ClauseNoTriple(cs[0]);
    hide V.Print, V.PrintMore, V.PrintClause, V.WellFormed;
    V.PrintCons(cs[0], more);
    if more != [] {
      PrintNoTriple(more);
      TripleJoin(",", V.Print(more));
    }
    TripleJoin(V.PrintClause(cs[0]), V.PrintMore(more));
  }

  lemma HasTriple(before: string, after: string)
    ensures !NoTriple(before + ("===" + after))
  {
    var s, k := before + ("===" + after), |before|;
    assert s[k] == '=' && s[k + 1] == '=' && s[k + 2] == '=';
  }

  /** No accepted specifier uses arbitrary equality, in any of its clauses. */
  lemma NoArbitraryEquality(spec: string, before: string, after: string)
    requires spec == before + ("===" + after)
    ensures !V.Normal(spec)
  {
    HasTriple(before, after);
    hide NoTriple, V.Normal, V.Print, V.Scan, V.AllWellFormed, Stripped, V.NoneForbidden;
    if V.Normal(spec) {
      V.NormalParts(spec);
      V.ScanThenPrint(spec);
      PrintNoTriple(V.Scan(spec).value);
    }
  }
}
