/** Version specifiers: the validator's pattern, its clause grammar, and a scanner. */
module VersionSpecifiers {
  import opened Regex
  import opened Text

  datatype Op = Equal | AtLeast | AtMost | Greater | Less | Compatible | NotEqual

  /** One clause with the blanks around its parts. */
  datatype Clause = Clause(lead: string, op: Op, gap: string, version: string, trail: string)

  predicate IsVersionChar(c: char) {
    IsAlnum(c) || c == '_' || c == '-' || c == '.' || c == '*'
  }

  function OpText(op: Op): (t: string)
    ensures t != ""
  {
    match op
    case Equal => "==" case AtLeast => ">=" case AtMost => "<=" case Greater => ">" case Less => "<"
    case Compatible => "~=" case NotEqual => "!="
  }

  // ---------------------------------------------------------------------------
  // The patterns
  // ---------------------------------------------------------------------------

  const BLANKS := Star(One(IsSpace))
  const VERSION := Plus(One(IsVersionChar))
  const OPERATOR :=
    Alt(Pair('=', '='), Alt(Pair('>', '='), Alt(Pair('<', '='), Alt(Char('>'), Alt(Char('<'),
    Alt(Pair('~', '='), Pair('!', '=')))))))
  /** `op \s* version` */
  const COMPARISON := Seq(OPERATOR, Seq(BLANKS, VERSION))
  /** `(\s* , \s* op \s* version)*` and the closing `\s*` */
  const NEXT := Seq(BLANKS, Seq(Char(','), Seq(BLANKS, COMPARISON)))
  const REST := Seq(Star(NEXT), BLANKS)
  const SPECIFIER := Seq(BLANKS, Seq(COMPARISON, REST))

  function Pair(a: char, b: char): Re {
    Seq(Char(a), Char(b))
  }

  // ---------------------------------------------------------------------------
  // The clause grammar
  // ---------------------------------------------------------------------------

  predicate Blank(s: string) {
    All(IsSpace, s)
  }

  predicate WellFormed(c: Clause) {
    Blank(c.lead) && Blank(c.gap) && Blank(c.trail) && c.version != "" && All(IsVersionChar, c.version)
  }

  function PrintClause(c: Clause): string {
    c.lead + (OpText(c.op) + (c.gap + (c.version + c.trail)))
  }

  /** The clauses separated by commas. */
  function Print(cs: seq<Clause>): string
    requires cs != []
    decreases |cs|, 0
  {
    PrintClause(cs[0]) + PrintMore(cs[1..])
  }

  function PrintMore(cs: seq<Clause>): string
    decreases |cs|, 1
  {
    if cs == [] then "" else "," + Print(cs)
  }

  // ---------------------------------------------------------------------------
  // The scanner
  // ---------------------------------------------------------------------------

  /** The operator at the start of `s`; two characters are tried before one. */
  function ScanOp(s: string): Option<Op> {
    if "==" <= s then Some(Equal)
    else if ">=" <= s then Some(AtLeast)
    else if "<=" <= s then Some(AtMost)
    else if "~=" <= s then Some(Compatible)
    else if "!=" <= s then Some(NotEqual)
    else if ">" <= s then Some(Greater)
    else if "<" <= s then Some(Less)
    else None
  }

  lemma ScanOpIsPrefix(s: string)
    ensures ScanOp(s).Some? ==> OpText(ScanOp(s).value) <= s
  {
  }

  datatype Piece = Piece(c: Clause, rest: string)

  /** Reads one clause, each part as long as it goes, and never goes back. */
  function ScanClause(s: string): Option<Piece> {
    var s1 := Tail(IsSpace, s);
    var op := ScanOp(s1);
    if op == None then None else ScanVersion(Head(IsSpace, s), op.value, AfterOp(s1))
  }

  function AfterOp(s1: string): (s2: string)
    requires ScanOp(s1).Some?
    ensures s1 == OpText(ScanOp(s1).value) + s2
  {
    ScanOpIsPrefix(s1);
    s1[|OpText(ScanOp(s1).value)|..]
  }

  function ScanVersion(lead: string, op: Op, s2: string): Option<Piece> {
    var s3 := Tail(IsSpace, s2);
    var s4 := Tail(IsVersionChar, s3);
    if Head(IsVersionChar, s3) == "" then None
    else Some(Piece(Clause(lead, op, Head(IsSpace, s2), Head(IsVersionChar, s3), Head(IsSpace, s4)), Tail(IsSpace, s4)))
  }

  lemma ScanVersionReads(lead: string, op: Op, s2: string)
    requires ScanVersion(lead, op, s2).Some?
    ensures var p := ScanVersion(lead, op, s2).value;
      && p.c.lead == lead && p.c.op == op && s2 == p.c.gap + (p.c.version + (p.c.trail + p.rest))
      && Blank(p.c.gap) && Blank(p.c.trail) && p.c.version != "" && All(IsVersionChar, p.c.version)
  {
    hide Head, Tail, All;
  }

  lemma ScanClauseReads(s: string)
    requires ScanClause(s).Some?
    ensures var p := ScanClause(s).value; s == PrintClause(p.c) + p.rest && WellFormed(p.c) && |p.rest| < |s|
  {
    var s1 := Tail(IsSpace, s);
    ScanVersionReads(Head(IsSpace, s), ScanOp(s1).value, AfterOp(s1));
    var p := ScanClause(s).value;
    hide ScanVersion, ScanOp, Head, Tail, All, AfterOp;
    PrintClauseThen(p.c, p.rest);
  }

  lemma PrintClauseThen(c: Clause, after: string)
    ensures PrintClause(c) + after == c.lead + (OpText(c.op) + (c.gap + (c.version + (c.trail + after))))
    ensures c.version != "" ==> |after| < |PrintClause(c) + after|
  {
  }

  lemma OpThenNoEquals(op: Op, rest: string)
    requires rest != "" && rest[0] != '='
    ensures ScanOp(OpText(op) + rest) == Some(op) && AfterOp(OpText(op) + rest) == rest
  {
    var s := OpText(op) + rest;
    assert |OpText(op)| == 1 ==> s[1] == rest[0];
    assert s[0] == OpText(op)[0];
    assert ScanOp(s) == Some(op);
  }

  lemma ScanVersionBack(c: Clause, after: string)
    requires WellFormed(c) && (after == "" || after[0] == ',')
    ensures ScanVersion(c.lead, c.op, c.gap + (c.version + (c.trail + after))) == Some(Piece(c, after))
  {
    var s4 := c.trail + after;
    var s3 := c.version + s4;
    assert s4 != "" ==> s4[0] == (if c.trail != "" then c.trail[0] else after[0]);
    assert s3[0] == c.version[0];
    CutIs(IsSpace, c.trail, after);
    CutIs(IsVersionChar, c.version, s4);
    CutIs(IsSpace, c.gap, s3);
  }

  lemma ScanFromOp(lead: string, op: Op, s2: string)
    requires All(IsSpace, lead) && s2 != "" && s2[0] != '='
    ensures ScanClause(lead + (OpText(op) + s2)) == ScanVersion(lead, op, s2)
  {
    var s1 := OpText(op) + s2;
    OpThenNoEquals(op, s2);
    assert s1[0] == OpText(op)[0];
    CutIs(IsSpace, lead, s1);
    hide ScanVersion, Head, Tail, All, AfterOp, ScanOp;
  }

  /** A clause in front of a comma or of the end is read back as it was printed. */
  lemma ScanClauseBack(c: Clause, after: string)
    requires WellFormed(c) && (after == "" || after[0] == ',')
    ensures ScanClause(PrintClause(c) + after) == Some(Piece(c, after))
  {
    hide ScanClause, ScanVersion, PrintClause;
    var s2 := c.gap + (c.version + (c.trail + after));
    PrintClauseThen(c, after);
    assert s2[0] == if c.gap != "" then c.gap[0] else c.version[0];
    ScanFromOp(c.lead, c.op, s2);
    ScanVersionBack(c, after);
  }

  /** Reads clauses from left to right up to the end. */
  function Scan(s: string): (r: Option<seq<Clause>>)
    ensures r.Some? ==> r.value != []
    decreases |s|
  {
    var p := ScanClause(s);
    if p == None then None
    else if p.value.rest == "" then Some([p.value.c])
    else if p.value.rest[0] != ',' then None
    else
      ScanClauseReads(s);
      var more := Scan(p.value.rest[1..]);
      if more == None then None else Some([p.value.c] + more.value)
  }

  ghost predicate AllWellFormed(cs: seq<Clause>) {
    forall i :: 0 <= i < |cs| ==> WellFormed(cs[i])
  }

  lemma PrintCons(c: Clause, more: seq<Clause>)
    ensures Print([c] + more) == PrintClause(c) + PrintMore(more)
    ensures more != [] ==> PrintMore(more) == "," + Print(more) && PrintMore(more)[1..] == Print(more)
    ensures PrintMore([]) == ""
  {
    assert ([c] + more)[1..] == more;
  }

  /** `Scan` unfolded once. */
  lemma ScanStep(s: string)
    ensures Scan(s) ==
      match ScanClause(s)
      case None => None
      case Some(p) =>
        if p.rest == "" then Some([p.c])
        else if p.rest[0] != ',' then None
        else match Scan(p.rest[1..])
          case None => None
          case Some(more) => Some([p.c] + more)
  {
    hide ScanClause;
  }

  /** What the scanner reads, printed again, is what it read. */
  lemma {:induction false} ScanThenPrint(s: string)
    requires Scan(s).Some?
    ensures var cs := Scan(s).value; cs != [] && AllWellFormed(cs) && Print(cs) == s
    decreases |s|
  {
    hide ScanClause, WellFormed, PrintClause, Print, PrintMore, Scan;
    ScanStep(s);
    ScanClauseReads(s);
    var p := ScanClause(s).value;
    if p.rest == "" {
      PrintCons(p.c, []);
      assert [p.c] + [] == [p.c];
    } else {
      var tail := p.rest[1..];
      ScanThenPrint(tail);
      PrintCons(p.c, Scan(tail).value);
      assert p.rest == "," + tail;
    }
  }

  /** What is printed is read back, so every accepted string has one clause list. */
  lemma {:induction false} PrintThenScan(cs: seq<Clause>)
    requires cs != [] && AllWellFormed(cs)
    ensures Scan(Print(cs)) == Some(cs)
  {
    hide ScanClause, WellFormed, PrintClause, Print, PrintMore, Scan;
    var more := cs[1..];
    assert cs == [cs[0]] + more;
    PrintCons(cs[0], more);
    ScanClauseBack(cs[0], PrintMore(more));
    ScanStep(Print(cs));
    if more == [] {
      assert cs == [cs[0]];
    } else {
      PrintThenScan(more);
    }
  }

  // ---------------------------------------------------------------------------
  // The scanner recognises the pattern
  // ---------------------------------------------------------------------------

  lemma BlanksLanguage(s: string)
    ensures Matches(BLANKS, s) <==> Blank(s)
  {
    StarOne(IsSpace, s);
  }

  lemma PairLanguage(a: char, b: char, s: string)
    ensures Matches(Pair(a, b), s) <==> s == [a, b]
  {
    if Matches(Pair(a, b), s) {
      var x, y := SeqElim(Char(a), Char(b), s);
    }
    if s == [a, b] {
      SeqIntro(Char(a), Char(b), [a], [b]);
      assert [a] + [b] == s;
    }
  }

  lemma OperatorLanguage(s: string)
    ensures Matches(OPERATOR, s) <==> exists op :: s == OpText(op)
  {
    PairLanguage('=', '=', s);
    PairLanguage('>', '=', s);
    PairLanguage('<', '=', s);
    PairLanguage('~', '=', s);
    PairLanguage('!', '=', s);
    var r0 := Alt(Pair('~', '='), Pair('!', '='));
    var r1 := Alt(Char('<'), r0);
    var r2 := Alt(Char('>'), r1);
    var r3 := Alt(Pair('<', '='), r2);
    var r4 := Alt(Pair('>', '='), r3);
    hide Pair;
    assert Matches(r0, s) <==> s == "~=" || s == "!=";
    assert Matches(r1, s) <==> s == "<" || Matches(r0, s);
    assert Matches(r2, s) <==> s == ">" || Matches(r1, s);
    assert Matches(r3, s) <==> s == "<=" || Matches(r2, s);
    assert Matches(r4, s) <==> s == ">=" || Matches(r3, s);
    assert Matches(OPERATOR, s) <==> s == "==" || Matches(r4, s);
    assert OpText(Equal) == "==" && OpText(AtLeast) == ">=" && OpText(AtMost) == "<=" && OpText(Greater) == ">";
    assert OpText(Less) == "<" && OpText(Compatible) == "~=" && OpText(NotEqual) == "!=";
  }

  /** The parts of a comparison in a string that matches one. */
  lemma ComparisonElim(s: string) returns (op: Op, gap: string, version: string)
    requires Matches(COMPARISON, s)
    ensures s == OpText(op) + (gap + version) && Blank(gap) && version != "" && All(IsVersionChar, version)
  {
    var o, r := SeqElim(OPERATOR, Seq(BLANKS, VERSION), s);
    OperatorLanguage(o);
    op :| o == OpText(op);
    gap, version := SeqElim(BLANKS, VERSION, r);
    BlanksLanguage(gap);
    PlusOne(IsVersionChar, version);
  }

  lemma ComparisonIntro(op: Op, gap: string, version: string)
    requires Blank(gap) && version != "" && All(IsVersionChar, version)
    ensures Matches(COMPARISON, OpText(op) + (gap + version))
  {
    OperatorLanguage(OpText(op));
    BlanksLanguage(gap);
    PlusOne(IsVersionChar, version);
    SeqIntro(BLANKS, VERSION, gap, version);
    SeqIntro(OPERATOR, Seq(BLANKS, VERSION), OpText(op), gap + version);
  }

  /** `\s* , \s* op \s* version`, before the blanks that end its clause. */
  function PrintNext(trail: string, c: Clause): string {
    trail + ("," + (c.lead + (OpText(c.op) + (c.gap + c.version))))
  }

  lemma NextElim(x: string, after: string) returns (trail: string, c: Clause)
    requires Matches(NEXT, x) && Blank(after)
    ensures Blank(trail) && WellFormed(c) && c.trail == after && x == PrintNext(trail, c)
  {
    var r0, comma, r1, lead, r2;
    trail, r0 := SeqElim(BLANKS, Seq(Char(','), Seq(BLANKS, COMPARISON)), x);
    BlanksLanguage(trail);
    comma, r1 := SeqElim(Char(','), Seq(BLANKS, COMPARISON), r0);
    assert comma == ",";
    lead, r2 := SeqElim(BLANKS, COMPARISON, r1);
    BlanksLanguage(lead);
    var op, gap, version := ComparisonElim(r2);
    c := Clause(lead, op, gap, version, after);
  }

  lemma NextIntro(trail: string, c: Clause)
    requires Blank(trail) && WellFormed(c)
    ensures Matches(NEXT, PrintNext(trail, c))
  {
    BlanksLanguage(trail);
    BlanksLanguage(c.lead);
    ComparisonIntro(c.op, c.gap, c.version);
    var r2 := OpText(c.op) + (c.gap + c.version);
    SeqIntro(BLANKS, COMPARISON, c.lead, r2);
    SeqIntro(Char(','), Seq(BLANKS, COMPARISON), ",", c.lead + r2);
    SeqIntro(BLANKS, Seq(Char(','), Seq(BLANKS, COMPARISON)), trail, "," + (c.lead + r2));
  }

  /** A clause whose trail starts the remainder, printed after a comma. */
  lemma RestGlue(trail: string, c: Clause, more: seq<Clause>, remainder: string)
    requires remainder == c.trail + PrintMore(more)
    ensures PrintNext(trail, c) + remainder == trail + PrintMore([c] + more)
  {
    PrintCons(c, more);
    PrintCons(c, [c] + more);
    hide PrintMore, Print;
    PrintClauseThen(c, PrintMore(more));
    hide PrintClause;
    var m := PrintMore(more);
    assert (c.lead + (OpText(c.op) + (c.gap + c.version))) + (c.trail + m)
        == c.lead + (OpText(c.op) + (c.gap + (c.version + (c.trail + m))));
  }

  lemma PrintMoreNone()
    ensures PrintMore([]) == ""
  {
  }

  /** What matches the rest of the pattern is a trail of blanks and more clauses. */
  lemma {:induction false} RestElim(tails: string, last: string) returns (trail: string, cs: seq<Clause>)
    requires Matches(Star(NEXT), tails) && Blank(last)
    ensures Blank(trail) && AllWellFormed(cs) && tails + last == trail + PrintMore(cs)
    decreases |tails|
  {
    hide Matches, Print, PrintMore, PrintClause, WellFormed, PrintNext, Blank;
    if tails == "" {
      trail, cs := last, [];
      PrintMoreNone();
    } else {
      var x, y := StarElim(NEXT, tails);
      var after, more := RestElim(y, last);
      var c: Clause;
      trail, c := NextElim(x, after);
      cs := [c] + more;
      RestGlue(trail, c, more, y + last);
      assert tails + last == x + (y + last);
    }
  }

  lemma {:induction false} RestIntro(trail: string, cs: seq<Clause>) returns (tails: string, last: string)
    requires Blank(trail) && AllWellFormed(cs)
    ensures Matches(Star(NEXT), tails) && Blank(last) && tails + last == trail + PrintMore(cs)
    decreases |cs|
  {
    if cs == [] {
      tails, last := "", trail;
    } else {
      var c, more := cs[0], cs[1..];
      var y: string;
      y, last := RestIntro(c.trail, more);
      NextIntro(trail, c);
      StarIntro(NEXT, PrintNext(trail, c), y);
      hide Matches, PrintMore, WellFormed, PrintNext, Blank;
      tails := PrintNext(trail, c) + y;
      assert cs == [c] + more;
      RestGlue(trail, c, more, y + last);
      assert tails + last == PrintNext(trail, c) + (y + last);
    }
  }

  /** The pattern accepts exactly what the scanner reads to the end: the language
      is the clause grammar, and each string of it has one clause list. */
  lemma SpecifierLanguage(s: string)
    ensures Matches(SPECIFIER, s) <==> Scan(s).Some?
    ensures Scan(s).Some? <==> exists cs :: cs != [] && AllWellFormed(cs) && Print(cs) == s
    ensures forall cs :: cs != [] && AllWellFormed(cs) && Print(cs) == s ==> Scan(s) == Some(cs)
  {
    hide Scan;
    forall cs | cs != [] && AllWellFormed(cs) && Print(cs) == s ensures Scan(s) == Some(cs) {
      PrintThenScan(cs);
    }
    if Matches(SPECIFIER, s) {
      var cs := SpecifierElim(s);
    }
    if Scan(s).Some? {
      ScanThenPrint(s);
      SpecifierIntro(Scan(s).value);
    }
  }

  lemma SpecifierElim(s: string) returns (cs: seq<Clause>)
    requires Matches(SPECIFIER, s)
    ensures cs != [] && AllWellFormed(cs) && Print(cs) == s
  {
    var lead, r0 := SeqElim(BLANKS, Seq(COMPARISON, REST), s);
    BlanksLanguage(lead);
    var r1, r2 := SeqElim(COMPARISON, REST, r0);
    var op, gap, version := ComparisonElim(r1);
    var tails, last := SeqElim(Star(NEXT), BLANKS, r2);
    BlanksLanguage(last);
    var trail, more := RestElim(tails, last);
    var c := Clause(lead, op, gap, version, trail);
    cs := [c] + more;
    hide *;
    PrintGlue(c, more);
  }

  /** The print of a list, cut where the pattern cuts it. */
  lemma PrintGlue(c: Clause, more: seq<Clause>)
    ensures Print([c] + more) == c.lead + ((OpText(c.op) + (c.gap + c.version)) + (c.trail + PrintMore(more)))
  {
    hide Print, PrintMore;
    PrintCons(c, more);
    PrintClauseThen(c, PrintMore(more));
    hide PrintClause;
    assert (OpText(c.op) + (c.gap + c.version)) + (c.trail + PrintMore(more))
        == OpText(c.op) + (c.gap + (c.version + (c.trail + PrintMore(more))));
  }

  lemma SpecifierIntro(cs: seq<Clause>)
    requires cs != [] && AllWellFormed(cs)
    ensures Matches(SPECIFIER, Print(cs))
  {
    var c, more := cs[0], cs[1..];
    var tails, last := RestIntro(c.trail, more);
    BlanksLanguage(c.lead);
    BlanksLanguage(last);
    ComparisonIntro(c.op, c.gap, c.version);
    SeqIntro(Star(NEXT), BLANKS, tails, last);
    var r1 := OpText(c.op) + (c.gap + c.version);
    SeqIntro(COMPARISON, REST, r1, tails + last);
    SeqIntro(BLANKS, Seq(COMPARISON, REST), c.lead, r1 + (tails + last));
    hide *;
    assert cs == [c] + more;
    PrintGlue(c, more);
  }

  // ---------------------------------------------------------------------------
  // The validator
  // ---------------------------------------------------------------------------

  datatype SpecError = ForbiddenCharacter | BadSyntax
  datatype SpecResult = Accepted(spec: Option<string>) | Rejected(error: SpecError)

  const FORBIDDEN := {';', '&', '|', '$', '`', '\n', '\r', '\\', '/', '(', ')', '{', '}', '!'}

  /** `[0-9]+(\.[0-9a-zA-Z]+)*`, a version without an operator. */
  const BARE := Seq(Plus(One(IsDigit)), Star(BARE_PART))

  predicate IsBare(s: string) {
    Head(IsDigit, s) != "" && IsBareRest(Tail(IsDigit, s))
  }

  predicate IsBareRest(s: string)
    decreases |s|
  {
    s == "" || (s[0] == '.' && Head(IsAlnum, s[1..]) != "" && IsBareRest(Tail(IsAlnum, s[1..])))
  }

  predicate NoneForbidden(s: string) {
    forall i :: 0 <= i < |s| ==> s[i] !in FORBIDDEN
  }

  /** `validate_version_specifier`; the pattern tests are the decidable forms that
      `BareLanguage` and `SpecifierLanguage` prove equal to the patterns. */
  function ValidateSpecifier(specifier: Option<string>): SpecResult {
    if specifier == None || Strip(specifier.value) == "" then Accepted(None)
    else
      var spec := Strip(specifier.value);
      if !NoneForbidden(spec) then Rejected(ForbiddenCharacter)
      else
        var full := if IsBare(spec) then "==" + spec else spec;
        if Scan(full) == None then Rejected(BadSyntax) else Accepted(Some(full))
  }

  const BARE_PART := Seq(Char('.'), Plus(One(IsAlnum)))

  lemma BarePart(x: string) returns (word: string)
    requires Matches(BARE_PART, x)
    ensures x == "." + word && word != "" && All(IsAlnum, word)
  {
    var dot;
    dot, word := SeqElim(Char('.'), Plus(One(IsAlnum)), x);
    PlusOne(IsAlnum, word);
    assert dot == ".";
  }

  lemma {:induction false} BareRestElim(s: string)
    requires Matches(Star(BARE_PART), s)
    ensures IsBareRest(s)
    decreases |s|
  {
    hide Matches, All;
    if s != "" {
      var x, y := StarElim(BARE_PART, s);
      var word := BarePart(x);
      BareRestElim(y);
      assert s[1..] == word + y;
      BareRestStarts(y);
      CutIs(IsAlnum, word, y);
    }
  }

  lemma BareRestStarts(s: string)
    requires IsBareRest(s)
    ensures s == "" || !IsAlnum(s[0])
  {
  }

  lemma {:induction false} BareRestIntro(s: string)
    requires IsBareRest(s)
    ensures Matches(Star(BARE_PART), s)
    decreases |s|
  {
    if s != "" {
      var word, y := Head(IsAlnum, s[1..]), Tail(IsAlnum, s[1..]);
      hide Head, Tail, IsBareRest, Matches, All;
      BareRestIntro(y);
      PlusOne(IsAlnum, word);
      CharMatches('.');
      SeqIntro(Char('.'), Plus(One(IsAlnum)), ".", word);
      StarIntro(BARE_PART, "." + word, y);
      assert s == ("." + word) + y;
    }
  }

  lemma CharMatches(c: char)
    ensures Matches(Char(c), [c])
  {
  }

  lemma BareLanguage(s: string)
    ensures Matches(BARE, s) <==> IsBare(s)
  {
    var rest := Star(BARE_PART);
    if Matches(BARE, s) {
      var x, y := SeqElim(Plus(One(IsDigit)), rest, s);
      PlusOne(IsDigit, x);
      BareRestElim(y);
      CutIs(IsDigit, x, y);
    }
    if IsBare(s) {
      PlusOne(IsDigit, Head(IsDigit, s));
      BareRestIntro(Tail(IsDigit, s));
      SeqIntro(Plus(One(IsDigit)), rest, Head(IsDigit, s), Tail(IsDigit, s));
    }
  }

  lemma BareRestChars(s: string)
    requires IsBareRest(s)
    ensures All(IsVersionChar, s)
    decreases |s|
  {
    if s != "" {
      BareRestChars(Tail(IsAlnum, s[1..]));
      assert s[1..] == Head(IsAlnum, s[1..]) + Tail(IsAlnum, s[1..]);
      assert forall i :: 1 <= i < |s| ==> s[i] == s[1..][i - 1];
    }
  }

  lemma BareChars(s: string)
    requires IsBare(s)
    ensures s != "" && All(IsVersionChar, s)
  {
    BareRestChars(Tail(IsDigit, s));
  }

  /** A bare version with "==" in front is one clause. */
  lemma BareIsExact(s: string)
    requires IsBare(s)
    ensures Scan("==" + s).Some?
  {
    hide Scan, Print, PrintMore, IsBare, All, PrintClause, WellFormed;
    BareChars(s);
    var c := Clause("", Equal, "", s, "");
    OneClause(c);
    PrintThenScan([c]);
  }

  lemma OneClause(c: Clause)
    requires c.lead == c.gap == c.trail == "" && c.version != "" && All(IsVersionChar, c.version)
    ensures WellFormed(c) && Print([c]) == OpText(c.op) + c.version
  {
    hide Print, PrintMore, OpText;
    PrintCons(c, []);
    assert [c] + [] == [c];
    var op, v := OpText(c.op), c.version;
    assert v + "" == v && "" + v == v && "" + (op + v) == op + v && (op + v) + "" == op + v;
  }

  function FirstClause(s: string): Clause
    requires Scan(s).Some?
  {
    Scan(s).value[0]
  }

  lemma PrintStart(c: Clause, after: string)
    ensures c.lead <= PrintClause(c) + after
    ensures OpText(c.op) <= (PrintClause(c) + after)[|c.lead|..]
    ensures c.lead == "" ==> OpText(c.op) <= PrintClause(c) + after
  {
    var more := c.gap + (c.version + c.trail);
    assert PrintClause(c) + after == c.lead + (OpText(c.op) + (more + after));
  }

  lemma ScanStartsWithOp(s: string)
    requires Scan(s).Some? && Stripped(s)
    ensures s != "" && FirstClause(s).lead == "" && OpText(FirstClause(s).op) <= s && !IsBare(s)
  {
    hide Scan, ScanClause, PrintClause, IsBare;
    ScanStep(s);
    ScanClauseReads(s);
    var p := ScanClause(s).value;
    PrintStart(p.c, p.rest);
    LeadIsFirst(p.c.lead, s);
    OpIsFirst(p.c.op, s);
    BareStartsWithDigit(s);
  }

  lemma LeadIsFirst(lead: string, s: string)
    ensures lead <= s && Blank(lead) && lead != "" ==> s != "" && IsSpace(s[0])
  {
    assert lead <= s && lead != "" ==> s[0] == lead[0];
  }

  lemma OpIsFirst(op: Op, s: string)
    ensures OpText(op) <= s ==> s != "" && !IsDigit(s[0])
  {
    assert OpText(op) <= s ==> s[0] == OpText(op)[0];
  }

  lemma BareStartsWithDigit(s: string)
    ensures IsBare(s) ==> s != "" && IsDigit(s[0])
  {
    if IsBare(s) {
      assert Head(IsDigit, s)[0] == s[0];
    }
  }

  /** What is accepted, for every input: blanks, and text that is free of the
      forbidden characters and matches one of the two patterns. */
  lemma AcceptedSpecifiers(specifier: string)
    ensures var t, r := Strip(specifier), ValidateSpecifier(Some(specifier));
      && (r == Accepted(None) <==> t == "")
      && (r.Accepted? && r.spec.Some? <==> t != "" && NoneForbidden(t) && (Matches(BARE, t) || Matches(SPECIFIER, t)))
      && (r.Accepted? && r.spec.Some? ==> r.spec.value == if Matches(BARE, t) then "==" + t else t)
  {
    var t := Strip(specifier);
    hide Matches, Strip, IsBare, Scan, AllWellFormed, Print, NoneForbidden;
    BareLanguage(t);
    SpecifierLanguage(t);
    if IsBare(t) {
      BareIsExact(t);
    }
  }

  /** And why the rest is rejected: for a forbidden character, or else for its syntax. */
  lemma RejectedSpecifiers(specifier: string)
    ensures var t, r := Strip(specifier), ValidateSpecifier(Some(specifier));
      && (r == Rejected(ForbiddenCharacter) <==> exists i :: 0 <= i < |t| && t[i] in FORBIDDEN)
      && (r == Rejected(BadSyntax) <==>
            && t != "" && (forall i :: 0 <= i < |t| ==> t[i] !in FORBIDDEN)
            && !Matches(BARE, t) && !Matches(SPECIFIER, t))
  {
    AcceptedSpecifiers(specifier);
    hide Matches, Strip, IsBare, Scan;
  }

  lemma ExactKeeps(t: string)
    requires t != "" && Stripped(t) && NoneForbidden(t)
    ensures Stripped("==" + t) && NoneForbidden("==" + t)
  {
  }

  /** What holds of every accepted specifier. */
  ghost predicate Normal(spec: string) {
    && Stripped(spec) && NoneForbidden(spec) && Scan(spec).Some?
    && FirstClause(spec).lead == "" && OpText(FirstClause(spec).op) <= spec && !IsBare(spec)
  }

  lemma AcceptedIsNormal(specifier: Option<string>)
    requires ValidateSpecifier(specifier).Accepted? && ValidateSpecifier(specifier).spec.Some?
    ensures Normal(ValidateSpecifier(specifier).spec.value)
  {
    hide Strip, IsBare, Scan, Stripped, NoneForbidden;
    StripStripped(specifier.value);
    ExactKeeps(Strip(specifier.value));
    ScanStartsWithOp(ValidateSpecifier(specifier).spec.value);
  }

  lemma NormalIsAccepted(spec: string)
    requires Normal(spec)
    ensures ValidateSpecifier(Some(spec)) == Accepted(Some(spec))
  {
    hide Strip, IsBare, Scan, NoneForbidden, FirstClause;
    StripStripped(spec);
    assert spec != "" by { OpTextNonEmpty(spec); }
  }

  lemma OpTextNonEmpty(spec: string)
    requires Normal(spec)
    ensures spec != ""
  {
    hide Scan, IsBare;
  }

  /** An accepted specifier is stripped, begins with an operator, is accepted again
      and left as it is: validating twice is validating once. */
  lemma ValidationIsStable(specifier: Option<string>)
    requires ValidateSpecifier(specifier).Accepted?
    ensures var r := ValidateSpecifier(specifier);
      ValidateSpecifier(r.spec) == r && (r.spec.Some? ==> Normal(r.spec.value))
  {
    hide Normal, Strip, Scan, IsBare, NoneForbidden;
    if ValidateSpecifier(specifier).spec.Some? {
      AcceptedIsNormal(specifier);
      NormalIsAccepted(ValidateSpecifier(specifier).spec.value);
    }
  }

  /** A clause without "!=" and without line breaks among its blanks. */
  predicate Allowed(c: Clause) {
    c.op != NotEqual && NoneForbidden(c.lead) && NoneForbidden(c.gap) && NoneForbidden(c.trail)
  }

  ghost predicate AllAllowed(cs: seq<Clause>) {
    forall i :: 0 <= i < |cs| ==> Allowed(cs[i])
  }

  lemma ForbiddenSplits(x: string, y: string)
    ensures NoneForbidden(x + y) <==> NoneForbidden(x) && NoneForbidden(y)
  {
    if NoneForbidden(x + y) {
      assert forall i :: 0 <= i < |y| ==> y[i] == (x + y)[|x| + i];
      assert forall i :: 0 <= i < |x| ==> x[i] == (x + y)[i];
    }
  }

  lemma ForbiddenInClause(c: Clause)
    requires WellFormed(c)
    ensures NoneForbidden(PrintClause(c)) <==> Allowed(c)
  {
    assert NoneForbidden(c.version);
    assert NoneForbidden(OpText(c.op)) <==> c.op != NotEqual by {
      assert c.op == NotEqual ==> OpText(c.op)[0] in FORBIDDEN;
    }
    hide NoneForbidden;
    ForbiddenSplits(c.version, c.trail);
    ForbiddenSplits(c.gap, c.version + c.trail);
    ForbiddenSplits(OpText(c.op), c.gap + (c.version + c.trail));
    ForbiddenSplits(c.lead, OpText(c.op) + (c.gap + (c.version + c.trail)));
  }

  lemma {:induction false} ForbiddenInPrint(cs: seq<Clause>)
    requires cs != [] && AllWellFormed(cs)
    ensures NoneForbidden(Print(cs)) <==> AllAllowed(cs)
  {
    var more := cs[1..];
    ForbiddenInClause(cs[0]);
    CommaAllowed();
    hide NoneForbidden, Allowed, Print, PrintMore, PrintClause, WellFormed;
    assert cs == [cs[0]] + more;
    PrintCons(cs[0], more);
    ForbiddenSplits(PrintClause(cs[0]), PrintMore(more));
    if more != [] {
      ForbiddenInPrint(more);
      ForbiddenSplits(",", Print(more));
    }
    assert AllAllowed(cs) <==> Allowed(cs[0]) && AllAllowed(more);
  }

  lemma CommaAllowed()
    ensures NoneForbidden(",") && NoneForbidden("")
  {
  }

  /** The accepted specifiers are exactly the stripped prints of clause lists
      without "!=": the pattern's branch for it can never be reached. */
  lemma GrammarOfAccepted(spec: string)
    ensures Normal(spec) <==>
      Stripped(spec) && exists cs :: cs != [] && AllWellFormed(cs) && AllAllowed(cs) && Print(cs) == spec
  {
    hide NoneForbidden, Allowed, Print, WellFormed, Scan, IsBare, Stripped, Normal;
    if Normal(spec) {
      NormalParts(spec);
      ScanThenPrint(spec);
      ForbiddenInPrint(Scan(spec).value);
    }
    if cs :| Stripped(spec) && cs != [] && AllWellFormed(cs) && AllAllowed(cs) && Print(cs) == spec {
      PrintThenScan(cs);
      ForbiddenInPrint(cs);
      ScanStartsWithOp(spec);
      NormalFrom(spec);
    }
  }

  lemma NormalParts(spec: string)
    requires Normal(spec)
    ensures Stripped(spec) && NoneForbidden(spec) && Scan(spec).Some?
  {
    hide NoneForbidden, Scan, IsBare, Stripped;
  }

  lemma NormalFrom(spec: string)
    requires Stripped(spec) && NoneForbidden(spec) && Scan(spec).Some?
    ensures Normal(spec)
  {
    hide NoneForbidden, Scan, IsBare;
    ScanStartsWithOp(spec);
  }
}
