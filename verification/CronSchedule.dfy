/** Cron expressions: validation, and the time of the next run. */
module CronSchedule {
  import opened Regex
  import opened Text
  import opened CronFields

  /** A reading of the clock of one zone, in microseconds. */
  type Time = int

  const MINUTE: Time := 60_000_000
  /** The last instant of the year 9999. */
  const LATEST: Time := 253_402_300_799_999_999

  // ---------------------------------------------------------------------------
  // Validation
  // ---------------------------------------------------------------------------

  predicate NotSpace(c: char) {
    !IsSpace(c)
  }

  /** `str.split()`: the longest pieces without blanks. */
  function SplitBlanks(s: string): seq<string>
    decreases |s|
  {
    var t := Tail(IsSpace, s);
    if t == "" then [] else
    assert Head(NotSpace, t)[0] == t[0];
    [Head(NotSpace, t)] + SplitBlanks(Tail(NotSpace, t))
  }

  /** `s` is blanks, a part, blanks, a part, and so on. */
  ghost predicate Joins(s: string, parts: seq<string>)
    decreases |parts|
  {
    if parts == [] then All(IsSpace, s)
    else exists lead, rest :: JoinsFirst(s, lead, parts[0], rest) && Joins(rest, parts[1..])
  }

  ghost predicate JoinsFirst(s: string, lead: string, part: string, rest: string) {
    && s == lead + (part + rest) && All(IsSpace, lead)
    && part != "" && All(NotSpace, part) && (rest == "" || IsSpace(rest[0]))
  }

  lemma FirstPart(s: string, lead: string, part: string, rest: string)
    requires JoinsFirst(s, lead, part, rest)
    ensures SplitBlanks(s) == [part] + SplitBlanks(rest)
  {
    assert (part + rest)[0] == part[0];
    CutIs(IsSpace, lead, part + rest);
    CutIs(NotSpace, part, rest);
  }

  lemma NoPart(s: string)
    ensures All(IsSpace, s) <==> SplitBlanks(s) == []
  {
    if All(IsSpace, s) {
      CutIs(IsSpace, s, "");
      assert s + "" == s;
    }
    assert Tail(IsSpace, s) == "" ==> s == Head(IsSpace, s);
  }

  /** A text has exactly one splitting. */
  lemma {:induction false} SplitIs(s: string, parts: seq<string>)
    ensures Joins(s, parts) <==> SplitBlanks(s) == parts
    decreases |parts|
  {
    hide SplitBlanks, JoinsFirst, Head, Tail, All;
    if parts == [] {
      NoPart(s);
    } else {
      if Joins(s, parts) {
        var lead, rest :| JoinsFirst(s, lead, parts[0], rest) && Joins(rest, parts[1..]);
        SplitIs(rest, parts[1..]);
        FirstPart(s, lead, parts[0], rest);
      }
      if SplitBlanks(s) == parts {
        var lead, rest := SplitFirst(s);
        SplitIs(rest, parts[1..]);
      }
    }
  }

  lemma SplitFirst(s: string) returns (lead: string, rest: string)
    requires SplitBlanks(s) != []
    ensures JoinsFirst(s, lead, SplitBlanks(s)[0], rest) && SplitBlanks(rest) == SplitBlanks(s)[1..]
  {
    var t := Tail(IsSpace, s);
    lead, rest := Head(IsSpace, s), Tail(NotSpace, t);
    assert Head(NotSpace, t)[0] == t[0];
  }

  predicate IsField(s: string) {
    Scan(s, true).Some?
  }

  /** `validate_cron_expression`; the pattern test is the scanner that
      `CronFields.FieldLanguage` proves equal to the pattern. A part holds no line
      break, so that the pattern's "$" stands for the end of the part. */
  predicate ValidCron(cron: string) {
    var parts := SplitBlanks(Strip(cron));
    cron != "" && |parts| == 5 && forall i :: 0 <= i < 5 ==> IsField(parts[i])
  }

  /** A valid expression is five printed fields between blanks, and no others. */
  lemma CronLanguage(cron: string)
    ensures ValidCron(cron) <==>
      exists parts: seq<string> ::
        |parts| == 5 && Joins(Strip(cron), parts) && forall i :: 0 <= i < 5 ==> Matches(FIELD, parts[i])
  {
    hide Matches, Scan, SplitBlanks, Joins;
    forall s ensures Matches(FIELD, s) <==> IsField(s) {
      FieldLanguage(s);
    }
    forall parts ensures Joins(Strip(cron), parts) <==> SplitBlanks(Strip(cron)) == parts {
      SplitIs(Strip(cron), parts);
    }
    if cron == "" {
      EmptySplits();
    }
  }

  lemma EmptySplits()
    ensures SplitBlanks(Strip("")) == []
  {
  }

  // ---------------------------------------------------------------------------
  // The fallback step
  // ---------------------------------------------------------------------------

  /** The number that a digit string writes. */
  function Decimal(s: string): nat
    requires All(IsDigit, s)
  {
    if s == "" then 0 else 10 * Decimal(s[..|s| - 1]) + (s[|s| - 1] as int - '0' as int)
  }

  /** `int(s)` for a piece of a valid field, which holds digits, "-", "," and "*"
      only and does not begin with "-"; None for a `ValueError`. */
  function ToInt(s: string): Option<nat> {
    if IsNumber(s) then Some(Decimal(s)) else None
  }

  predicate NotSlash(c: char) {
    c != '/'
  }

  predicate NotComma(c: char) {
    c != ','
  }

  /** `minute.split("/")[1]` */
  function SecondPiece(minute: string): string
    requires '/' in minute
  {
    SlashFollows(minute);
    Head(NotSlash, Tail(NotSlash, minute)[1..])
  }

  lemma SlashFollows(minute: string)
    requires '/' in minute
    ensures Tail(NotSlash, minute) != "" && Tail(NotSlash, minute)[0] == '/'
  {
    assert Tail(NotSlash, minute) == "" ==> minute == Head(NotSlash, minute);
  }

  /** `step_minutes` of the fallback. */
  function StepMinutes(minute: string): nat {
    if '/' in minute then
      match ToInt(SecondPiece(minute)) case None => 1 case Some(n) => n
    else if minute != "*" then
      match ToInt(Head(NotComma, minute)) case None => 1 case Some(n) => if n > 1 then n else 1
    else 1
  }

  predicate IsZero(c: char) {
    c == '0'
  }

  /** The field has one "/", followed to the end by zeros alone, such as a step of 0. */
  ghost predicate ZeroStep(minute: string) {
    exists p :: 0 <= p < |minute| - 1 && minute[p] == '/' && All(NotSlash, minute[..p]) && All(IsZero, minute[p + 1..])
  }

  lemma DecimalZero(s: string)
    requires All(IsDigit, s)
    ensures Decimal(s) == 0 <==> All(IsZero, s)
  {
    if s != "" {
      DecimalZero(s[..|s| - 1]);
    }
  }

  lemma AfterTheSlash(s: string)
    requires '/' in s && SlashesApart(s)
    ensures var rest := Tail(NotSlash, s)[1..];
      SecondPiece(s) == rest || ',' in SecondPiece(s)
  {
    SlashFollows(s);
    var p := |Head(NotSlash, s)|;
    var rest := Tail(NotSlash, s)[1..];
    var piece := Head(NotSlash, rest);
    assert s[p] == '/' && rest == s[p + 1..];
    if piece != rest {
      var q := p + 1 + |piece|;
      assert s[q] == rest[|piece|] == '/';
      assert ',' in s[p..q];
      var k :| 0 <= k < |s[p..q]| && s[p..q][k] == ',';
      assert piece[k - 1] == s[p..q][k];
    }
  }

  /** For every valid field the fallback steps by nothing exactly when the field's
      only "/" is followed to its end by zeros. */
  lemma StepIsZero(minute: string)
    requires IsField(minute)
    ensures StepMinutes(minute) == 0 <==> ZeroStep(minute)
  {
    ScanThenPrint(minute, true);
    PrintSlashesApart(Scan(minute, true).value, true);
    hide Scan, Print, SlashesApart;
    if '/' in minute {
      AfterTheSlash(minute);
      SlashFollows(minute);
      var p := |Head(NotSlash, minute)|;
      var rest := Tail(NotSlash, minute)[1..];
      assert minute[p] == '/' && minute[..p] == Head(NotSlash, minute) && minute[p + 1..] == rest;
      OnlySlash(minute, p);
      assert IsNumber(SecondPiece(minute)) ==> SecondPiece(minute) == rest;
      assert All(IsZero, rest) && rest != "" ==> SecondPiece(minute) == rest && IsNumber(rest);
      if IsNumber(rest) {
        DecimalZero(rest);
      }
    }
  }

  lemma OnlySlash(minute: string, p: nat)
    requires p < |minute| && minute[p] == '/' && All(NotSlash, minute[..p])
    ensures ZeroStep(minute) <==> p < |minute| - 1 && All(IsZero, minute[p + 1..])
  {
    if q :| 0 <= q < |minute| - 1 && minute[q] == '/' && All(NotSlash, minute[..q]) && All(IsZero, minute[q + 1..]) {
      assert p < q ==> minute[..q][p] == '/';
      assert q < p ==> minute[..p][q] == '/';
    }
  }

  // ---------------------------------------------------------------------------
  // The next run
  // ---------------------------------------------------------------------------

  /** What the surroundings answer: the cron library, which may fail, and the
      database of time zones. */
  datatype Clockwork = Clockwork(croniter: (string, string, Time) -> Option<Time>, isZone: string -> bool)

  /** All that is known of the library: a result lies after its base. */
  ghost predicate Sound(w: Clockwork) {
    forall cron, tz, base :: w.croniter(cron, tz, base).Some? ==> w.croniter(cron, tz, base).value > base
  }

  predicate ValidZone(w: Clockwork, tz: string) {
    tz != "" && w.isZone(tz)
  }

  datatype Next = NoRun | At(time: Time) | InvalidSchedule | Overflow

  /** `calculate_next_run` */
  function NextRun(w: Clockwork, cron: Option<string>, tz: string, base: Time): Next {
    if cron == None || cron.value == "" then NoRun
    else if !ValidZone(w, tz) || !ValidCron(cron.value) then InvalidSchedule
    else match w.croniter(cron.value, tz, base)
      case Some(t) => At(t)
      case None =>
        var t := base + MINUTE * StepMinutes(MinuteField(cron.value));
        if t > LATEST then Overflow else At(t)
  }

  function MinuteField(cron: string): string
    requires ValidCron(cron)
  {
    SplitBlanks(Strip(cron))[0]
  }

  /** A next run is never before its base, and it is after it unless the library
      fails and the minute field steps by zero. */
  lemma NextRunAdvances(w: Clockwork, cron: string, tz: string, base: Time)
    requires Sound(w) && NextRun(w, Some(cron), tz, base).At?
    ensures ValidCron(cron) && ValidZone(w, tz)
    ensures var t := NextRun(w, Some(cron), tz, base).time;
      t >= base && (t > base <==> w.croniter(cron, tz, base).Some? || !ZeroStep(MinuteField(cron)))
  {
    hide ZeroStep, StepMinutes, SplitBlanks, IsField;
    StepIsZero(MinuteField(cron));
  }

  /** A refusal is exactly an invalid expression or zone. */
  lemma RefusalMeans(w: Clockwork, cron: string, tz: string, base: Time)
    ensures NextRun(w, Some(cron), tz, base) == InvalidSchedule
      <==> cron != "" && !(ValidZone(w, tz) && ValidCron(cron))
    ensures NextRun(w, Some(cron), tz, base) == NoRun <==> cron == ""
  {
    hide ValidCron;
  }

  function DigitChar(d: nat): (c: char)
    requires d < 10
    ensures IsDigit(c) && c as int - '0' as int == d
  {
    ('0' as int + d) as char
  }

  /** A number as it is written. */
  function Numeral(n: nat): string {
    (if n < 10 then "" else Numeral(n / 10)) + [DigitChar(n % 10)]
  }

  lemma {:induction false} NumeralBack(n: nat)
    ensures IsNumber(Numeral(n)) && Decimal(Numeral(n)) == n
    ensures All(NotSlash, Numeral(n)) && All(NotComma, Numeral(n))
  {
    var init := if n < 10 then "" else Numeral(n / 10);
    if n >= 10 {
      NumeralBack(n / 10);
    }
    hide Numeral, Decimal;
    NumeralSnoc(init, n % 10);
    assert Numeral(n) == init + [DigitChar(n % 10)] by { NumeralIs(n); }
    assert n >= 10 ==> n == 10 * (n / 10) + n % 10;
  }

  lemma NumeralIs(n: nat)
    ensures Numeral(n) == (if n < 10 then "" else Numeral(n / 10)) + [DigitChar(n % 10)]
  {
  }

  lemma NumeralSnoc(s: string, d: nat)
    requires d < 10 && All(IsDigit, s)
    ensures var t := s + [DigitChar(d)];
      IsNumber(t) && Decimal(t) == 10 * Decimal(s) + d
  {
    assert (s + [DigitChar(d)])[..|s|] == s;
  }

  /** The fallback steps by the number behind the only "/" of the minute field. */
  lemma StepBehindSlash(before: string, n: nat)
    requires All(NotSlash, before)
    ensures StepMinutes(before + ("/" + Numeral(n))) == n
  {
    NumeralBack(n);
    hide Numeral, Decimal;
    var num := Numeral(n);
    var minute := before + ("/" + num);
    assert minute[|before|] == '/';
    CutIs(NotSlash, before, "/" + num);
    assert num + "" == num;
    CutIs(NotSlash, num, "");
  }

  /** By the number at the start of a field without "/", or of its list, but by one at
      least. */
  lemma StepAtStart(n: nat, after: string)
    requires after == "" || after[0] == ','
    requires All(NotSlash, after)
    ensures StepMinutes(Numeral(n) + after) == if n > 1 then n else 1
  {
    NumeralBack(n);
    hide Numeral, Decimal;
    var minute := Numeral(n) + after;
    CutIs(NotComma, Numeral(n), after);
    assert minute[0] == Numeral(n)[0] && minute[0] != '*';
  }

  /** And by one minute for "*", and where that is not a number: a range, or a step that
      is followed by a list. */
  lemma StepOtherwise(before: string, after: string)
    requires All(NotSlash, before)
    ensures !IsNumber(Head(NotSlash, after)) ==> StepMinutes(before + ("/" + after)) == 1
    ensures !IsNumber(Head(NotComma, before)) ==> StepMinutes(before) == 1
  {
    var minute := before + ("/" + after);
    assert minute[|before|] == '/';
    CutIs(NotSlash, before, "/" + after);
  }

  /** The next run is the library's where it answers, and otherwise as many minutes after
      its base as the minute field steps, or an overflow behind the year 9999. */
  lemma NextRunTold(w: Clockwork, cron: string, tz: string, base: Time)
    requires ValidCron(cron) && ValidZone(w, tz)
    ensures var r := NextRun(w, Some(cron), tz, base);
      match w.croniter(cron, tz, base)
      case Some(t) => r == At(t)
      case None =>
        var t := base + 60_000_000 * StepMinutes(MinuteField(cron));
        r == if t <= 253_402_300_799_999_999 then At(t) else Overflow
  {
    hide StepMinutes, SplitBlanks, IsField;
  }

  const STANDSTILL := "*/0" + (" " + ("*" + (" " + ("*" + (" " + ("*" + (" " + "*")))))))

  /** Without the library, "*" with a zero step is due again at once. */
  lemma ZeroStepStandsStill(tz: string, base: Time)
    requires tz != "" && base <= LATEST
    ensures NextRun(Clockwork((c, z, t) => None, z => true), Some(STANDSTILL), tz, base) == At(base)
  {
    StandstillSplits();
    StandstillFields();
    hide Scan, SplitBlanks, Strip, StepMinutes, ZeroStep;
    assert ValidCron(STANDSTILL);
    StepIsZero("*/0");
  }

  lemma StandstillFields()
    ensures IsField("*") && IsField("*/0") && ZeroStep("*/0")
  {
    var s := "*/0";
    assert s[1] == '/' && All(NotSlash, s[..1]) && All(IsZero, s[2..]);
    assert IsNumber("0");
    var star, zero := Item(Any, None), Item(Any, Some("0"));
    assert GoodItem(star, true) && GoodItem(zero, true);
    assert ItemText(star) == "*" && ItemText(zero) == "*/0";
    PrintCons(star, []);
    PrintCons(zero, []);
    hide Scan, Print, PrintMore, ItemText, GoodItem;
    assert "*" + "" == "*" && "*/0" + "" == "*/0";
    PrintThenScan([star], true);
    PrintThenScan([zero], true);
  }

  lemma StandstillSplits()
    ensures SplitBlanks(Strip(STANDSTILL)) == ["*/0", "*", "*", "*", "*"]
    ensures STANDSTILL != ""
  {
    hide SplitBlanks, Strip;
    StripStripped(STANDSTILL);
    var s4 := " " + "*";
    var s3 := " " + ("*" + s4);
    var s2 := " " + ("*" + s3);
    var s1 := " " + ("*" + s2);
    NoPart("");
    assert s4 == " " + ("*" + "");
    FirstPart(s4, " ", "*", "");
    FirstPart(s3, " ", "*", s4);
    FirstPart(s2, " ", "*", s3);
    FirstPart(s1, " ", "*", s2);
    assert STANDSTILL == "" + ("*/0" + s1);
    FirstPart(STANDSTILL, "", "*/0", s1);
  }
}
