/** The language of one cron field: its pattern, its grammar, and a scanner. */
module CronFields {
  import opened Regex
  import opened Text

  datatype Range = Any | Point(n: string) | Between(lo: string, hi: string)
  datatype Item = Item(range: Range, step: Option<string>)

  // ---------------------------------------------------------------------------
  // The pattern
  // ---------------------------------------------------------------------------

  const NUMBER := Plus(One(IsDigit))
  const NUMBERS := Seq(NUMBER, Optional(Seq(Char('-'), NUMBER)))
  const STEP := Optional(Seq(Char('/'), NUMBER))
  const FIRST := Seq(Alt(Char('*'), NUMBERS), STEP)
  const OTHER := Seq(Char(','), Seq(NUMBERS, STEP))
  const FIELD := Seq(FIRST, Star(OTHER))

  // ---------------------------------------------------------------------------
  // The grammar
  // ---------------------------------------------------------------------------

  predicate IsNumber(s: string) {
    s != "" && All(IsDigit, s)
  }

  /** Only the first item of a field may be "*". */
  predicate GoodRange(r: Range, first: bool) {
    match r
    case Any => first
    case Point(n) => IsNumber(n)
    case Between(lo, hi) => IsNumber(lo) && IsNumber(hi)
  }

  predicate GoodItem(i: Item, first: bool) {
    GoodRange(i.range, first) && (i.step.Some? ==> IsNumber(i.step.value))
  }

  ghost predicate GoodItems(items: seq<Item>, first: bool) {
    forall i :: 0 <= i < |items| ==> GoodItem(items[i], first && i == 0)
  }

  function RangeText(r: Range): string {
    match r
    case Any => "*"
    case Point(n) => n
    case Between(lo, hi) => lo + ("-" + hi)
  }

  function StepText(step: Option<string>): string {
    if step == None then "" else "/" + step.value
  }

  function ItemText(i: Item): string {
    RangeText(i.range) + StepText(i.step)
  }

  function Print(items: seq<Item>): string
    requires items != []
    decreases |items|, 0
  {
    ItemText(items[0]) + PrintMore(items[1..])
  }

  function PrintMore(items: seq<Item>): string
    decreases |items|, 1
  {
    if items == [] then "" else "," + Print(items)
  }

  // ---------------------------------------------------------------------------
  // The scanner
  // ---------------------------------------------------------------------------

  datatype Read<T> = Read(what: T, rest: string)

  function ScanNumber(s: string): (r: Option<Read<string>>)
    ensures r.Some? ==> IsNumber(r.value.what) && s == r.value.what + r.value.rest
  {
    if Head(IsDigit, s) == "" then None else Some(Read(Head(IsDigit, s), Tail(IsDigit, s)))
  }

  function ScanRange(s: string, first: bool): (r: Option<Read<Range>>)
    ensures r.Some? ==> GoodRange(r.value.what, first) && s == RangeText(r.value.what) + r.value.rest
  {
    if first && s != "" && s[0] == '*' then Some(Read(Any, s[1..])) else
    match ScanNumber(s)
    case None => None
    case Some(lo) =>
      if lo.rest == "" || lo.rest[0] != '-' then Some(Read(Point(lo.what), lo.rest)) else
      match ScanNumber(lo.rest[1..])
      case None => None
      case Some(hi) => Some(Read(Between(lo.what, hi.what), hi.rest))
  }

  function ScanStep(s: string): (r: Option<Read<Option<string>>>)
    ensures r.Some? ==>
              (r.value.what.Some? ==> IsNumber(r.value.what.value)) && s == StepText(r.value.what) + r.value.rest
  {
    if s == "" || s[0] != '/' then Some(Read(None, s)) else
    match ScanNumber(s[1..])
    case None => None
    case Some(n) => Some(Read(Some(n.what), n.rest))
  }

  function ScanItem(s: string, first: bool): Option<Read<Item>> {
    match ScanRange(s, first)
    case None => None
    case Some(r) =>
      match ScanStep(r.rest)
      case None => None
      case Some(t) => Some(Read(Item(r.what, t.what), t.rest))
  }

  lemma ScanItemReads(s: string, first: bool)
    requires ScanItem(s, first).Some?
    ensures var r := ScanItem(s, first).value;
      GoodItem(r.what, first) && s == ItemText(r.what) + r.rest && |r.rest| < |s|
  {
    hide ScanRange, ScanStep, All;
  }

  /** Reads items from left to right up to the end of the field. */
  function Scan(s: string, first: bool): (r: Option<seq<Item>>)
    ensures r.Some? ==> r.value != []
    decreases |s|
  {
    match ScanItem(s, first)
    case None => None
    case Some(i) =>
      if i.rest == "" then Some([i.what])
      else if i.rest[0] != ',' then None
      else
        ScanItemReads(s, first);
        match Scan(i.rest[1..], false)
        case None => None
        case Some(more) => Some([i.what] + more)
  }

  lemma PrintCons(i: Item, more: seq<Item>)
    ensures Print([i] + more) == ItemText(i) + PrintMore(more)
    ensures more != [] ==> PrintMore(more) == "," + Print(more) && PrintMore(more)[1..] == Print(more)
    ensures PrintMore([]) == "" && [i] + [] == [i]
  {
    assert ([i] + more)[1..] == more;
  }

  lemma ScanUnfold(s: string, first: bool)
    ensures Scan(s, first) ==
      match ScanItem(s, first)
      case None => None
      case Some(i) =>
        if i.rest == "" then Some([i.what])
        else if i.rest[0] != ',' then None
        else match Scan(i.rest[1..], false)
          case None => None
          case Some(more) => Some([i.what] + more)
  {
    hide ScanItem;
  }

  /** Printing what was read gives back what was read. */
  lemma {:induction false} ScanThenPrint(s: string, first: bool)
    requires Scan(s, first).Some?
    ensures GoodItems(Scan(s, first).value, first) && Print(Scan(s, first).value) == s
    decreases |s|
  {
    hide Scan, ScanItem, GoodItem, ItemText, Print, PrintMore;
    ScanUnfold(s, first);
    ScanItemReads(s, first);
    var i := ScanItem(s, first).value;
    if i.rest == "" {
      PrintCons(i.what, []);
    } else {
      var tail := i.rest[1..];
      ScanThenPrint(tail, false);
      PrintCons(i.what, Scan(tail, false).value);
      assert i.rest == "," + tail;
    }
  }

  lemma NumberBack(n: string, after: string)
    requires IsNumber(n) && (after == "" || !IsDigit(after[0]))
    ensures ScanNumber(n + after) == Some(Read(n, after))
  {
    CutIs(IsDigit, n, after);
  }

  lemma RangeBack(r: Range, first: bool, after: string)
    requires GoodRange(r, first) && (after == "" || after[0] == '/' || after[0] == ',')
    ensures ScanRange(RangeText(r) + after, first) == Some(Read(r, after))
  {
    match r
    case Any =>
      assert ("*" + after)[1..] == after;
    case Point(n) =>
      assert (n + after)[0] == n[0];
      NumberBack(n, after);
    case Between(lo, hi) =>
      var rest := "-" + (hi + after);
      assert RangeText(r) + after == lo + rest;
      assert (lo + rest)[0] == lo[0];
      NumberBack(lo, rest);
      assert rest[1..] == hi + after;
      NumberBack(hi, after);
  }

  lemma StepBack(step: Option<string>, after: string)
    requires (step.Some? ==> IsNumber(step.value)) && (after == "" || after[0] == ',')
    ensures ScanStep(StepText(step) + after) == Some(Read(step, after))
    ensures var rest := StepText(step) + after; rest == "" || rest[0] == '/' || rest[0] == ','
  {
    if step == None {
      assert StepText(step) + after == after;
    } else {
      assert (StepText(step) + after)[1..] == step.value + after;
      NumberBack(step.value, after);
    }
  }

  lemma ItemBack(i: Item, first: bool, after: string)
    requires GoodItem(i, first) && (after == "" || after[0] == ',')
    ensures ScanItem(ItemText(i) + after, first) == Some(Read(i, after))
  {
    hide ScanRange, ScanStep, RangeText, StepText;
    var rest := StepText(i.step) + after;
    StepBack(i.step, after);
    RangeBack(i.range, first, rest);
    assert ItemText(i) + after == RangeText(i.range) + rest;
  }

  /** Reading what was printed gives back the items: each field has one reading. */
  lemma {:induction false} PrintThenScan(items: seq<Item>, first: bool)
    requires items != [] && GoodItems(items, first)
    ensures Scan(Print(items), first) == Some(items)
    decreases |items|
  {
    hide Scan, ScanItem, GoodItem, ItemText, Print, PrintMore;
    var more := items[1..];
    assert items == [items[0]] + more;
    assert GoodItem(items[0], first);
    assert forall k :: 0 <= k < |more| ==> more[k] == items[k + 1];
    PrintCons(items[0], more);
    ItemBack(items[0], first, PrintMore(more));
    ScanUnfold(Print(items), first);
    if more != [] {
      PrintThenScan(more, false);
    }
  }

  // ---------------------------------------------------------------------------
  // The scanner recognises the pattern
  // ---------------------------------------------------------------------------

  lemma NumberLanguage(s: string)
    ensures Matches(NUMBER, s) <==> IsNumber(s)
  {
    PlusOne(IsDigit, s);
  }

  lemma MarkedNumber(mark: char, s: string)
    ensures Matches(Seq(Char(mark), NUMBER), s) <==> s != "" && s[0] == mark && IsNumber(s[1..])
  {
    if Matches(Seq(Char(mark), NUMBER), s) {
      var x, y := SeqElim(Char(mark), NUMBER, s);
      NumberLanguage(y);
      assert y == s[1..];
    }
    if s != "" && s[0] == mark && IsNumber(s[1..]) {
      NumberLanguage(s[1..]);
      assert [mark] + s[1..] == s;
      SeqIntro(Char(mark), NUMBER, [mark], s[1..]);
    }
  }

  lemma StepLanguage(s: string) returns (step: Option<string>)
    requires Matches(STEP, s)
    ensures s == StepText(step) && (step.Some? ==> IsNumber(step.value))
  {
    MarkedNumber('/', s);
    step := if s == "" then None else Some(s[1..]);
  }

  lemma StepMatches(step: Option<string>)
    requires step.Some? ==> IsNumber(step.value)
    ensures Matches(STEP, StepText(step))
  {
    MarkedNumber('/', StepText(step));
    assert step.Some? ==> StepText(step)[1..] == step.value;
  }

  lemma NumbersLanguage(s: string) returns (r: Range)
    requires Matches(NUMBERS, s)
    ensures s == RangeText(r) && GoodRange(r, false)
  {
    var lo, rest := SeqElim(NUMBER, Optional(Seq(Char('-'), NUMBER)), s);
    NumberLanguage(lo);
    MarkedNumber('-', rest);
    r := if rest == "" then Point(lo) else Between(lo, rest[1..]);
  }

  lemma NumbersMatches(r: Range)
    requires GoodRange(r, false)
    ensures Matches(NUMBERS, RangeText(r))
  {
    match r
    case Point(n) =>
      NumberLanguage(n);
      SeqIntro(NUMBER, Optional(Seq(Char('-'), NUMBER)), n, "");
      assert n + "" == n;
    case Between(lo, hi) =>
      NumberLanguage(lo);
      MarkedNumber('-', "-" + hi);
      assert ("-" + hi)[1..] == hi;
      SeqIntro(NUMBER, Optional(Seq(Char('-'), NUMBER)), lo, "-" + hi);
  }

  lemma OthersNone(s: string)
    requires s == ""
    ensures PrintMore([]) == s && Matches(Star(OTHER), s)
  {
  }

  lemma MoreCons(i: Item, more: seq<Item>)
    ensures PrintMore([i] + more) == ("," + ItemText(i)) + PrintMore(more)
  {
    hide Print, PrintMore, ItemText;
    PrintCons(i, more);
    PrintCons(i, [i] + more);
    assert ("," + ItemText(i)) + PrintMore(more) == "," + (ItemText(i) + PrintMore(more));
  }

  lemma {:induction false} OthersElim(s: string) returns (items: seq<Item>)
    requires Matches(Star(OTHER), s)
    ensures GoodItems(items, false) && s == PrintMore(items)
    decreases |s|
  {
    hide Matches, Print, PrintMore, ItemText, GoodItem;
    if s == "" {
      items := [];
      OthersNone(s);
    } else {
      var x, y := StarElim(OTHER, s);
      var i := OtherElim(x);
      var more := OthersElim(y);
      items := [i] + more;
      MoreCons(i, more);
    }
  }

  lemma OtherElim(x: string) returns (i: Item)
    requires Matches(OTHER, x)
    ensures GoodItem(i, false) && x == "," + ItemText(i)
  {
    var comma, y := SeqElim(Char(','), Seq(NUMBERS, STEP), x);
    var a, b := SeqElim(NUMBERS, STEP, y);
    var r := NumbersLanguage(a);
    var step := StepLanguage(b);
    i := Item(r, step);
  }

  lemma OtherMatches(i: Item)
    requires GoodItem(i, false)
    ensures Matches(OTHER, "," + ItemText(i))
  {
    NumbersMatches(i.range);
    StepMatches(i.step);
    SeqIntro(NUMBERS, STEP, RangeText(i.range), StepText(i.step));
    SeqIntro(Char(','), Seq(NUMBERS, STEP), ",", ItemText(i));
  }

  lemma {:induction false} OthersMatch(items: seq<Item>)
    requires GoodItems(items, false)
    ensures Matches(Star(OTHER), PrintMore(items))
    decreases |items|
  {
    hide Matches, Print, PrintMore, ItemText, GoodItem;
    if items == [] {
      OthersNone("");
    } else {
      var i, more := items[0], items[1..];
      assert items == [i] + more;
      OtherMatches(i);
      OthersMatch(more);
      StarIntro(OTHER, "," + ItemText(i), PrintMore(more));
      MoreCons(i, more);
    }
  }

  lemma FirstElim(s: string) returns (i: Item)
    requires Matches(FIRST, s)
    ensures GoodItem(i, true) && s == ItemText(i)
  {
    var a, b := SeqElim(Alt(Char('*'), NUMBERS), STEP, s);
    var step := StepLanguage(b);
    if Matches(NUMBERS, a) {
      var r := NumbersLanguage(a);
      i := Item(r, step);
    } else {
      assert Matches(Char('*'), a) && a == "*";
      i := Item(Any, step);
    }
  }

  lemma FirstMatches(i: Item)
    requires GoodItem(i, true)
    ensures Matches(FIRST, ItemText(i))
  {
    StepMatches(i.step);
    if i.range != Any {
      NumbersMatches(i.range);
    } else {
      assert Matches(Char('*'), "*");
    }
    assert Matches(Alt(Char('*'), NUMBERS), RangeText(i.range));
    SeqIntro(Alt(Char('*'), NUMBERS), STEP, RangeText(i.range), StepText(i.step));
  }

  /** The pattern accepts exactly the comma-separated items that the scanner reads,
      and reading and printing undo each other. */
  lemma FieldLanguage(s: string)
    ensures Matches(FIELD, s) <==> Scan(s, true).Some?
    ensures Scan(s, true).Some? ==> GoodItems(Scan(s, true).value, true) && Print(Scan(s, true).value) == s
    ensures forall items :: items != [] && GoodItems(items, true) && Print(items) == s ==> Scan(s, true) == Some(items)
  {
    hide Scan, Print;
    forall items | items != [] && GoodItems(items, true) && Print(items) == s ensures Scan(s, true) == Some(items) {
      PrintThenScan(items, true);
    }
    if Matches(FIELD, s) {
      var items := FieldElim(s);
    }
    if Scan(s, true).Some? {
      ScanThenPrint(s, true);
      FieldMatches(Scan(s, true).value);
    }
  }

  lemma FieldElim(s: string) returns (items: seq<Item>)
    requires Matches(FIELD, s)
    ensures items != [] && GoodItems(items, true) && Print(items) == s
  {
    var a, b := SeqElim(FIRST, Star(OTHER), s);
    hide Matches, Print, PrintMore, ItemText;
    var i := FirstElim(a);
    var more := OthersElim(b);
    items := [i] + more;
    PrintCons(i, more);
    assert forall k :: 0 < k < |items| ==> items[k] == more[k - 1];
  }

  lemma FieldMatches(items: seq<Item>)
    requires items != [] && GoodItems(items, true)
    ensures Matches(FIELD, Print(items))
  {
    var i, more := items[0], items[1..];
    assert forall k :: 0 <= k < |more| ==> more[k] == items[k + 1];
    assert GoodItem(i, true);
    FirstMatches(i);
    OthersMatch(more);
    SeqIntro(FIRST, Star(OTHER), ItemText(i), PrintMore(more));
    hide Matches, Print, PrintMore, ItemText;
    assert items == [i] + more;
    PrintCons(i, more);
  }

  // ---------------------------------------------------------------------------
  // Where a field has its slashes
  // ---------------------------------------------------------------------------

  /** Between two slashes there is a comma. */
  ghost predicate SlashesApart(s: string) {
    forall i, j :: 0 <= i < j < |s| && s[i] == '/' && s[j] == '/' ==> ',' in s[i..j]
  }

  lemma ItemHasOneSlash(i: Item, first: bool)
    requires GoodItem(i, first)
    ensures forall a, b :: 0 <= a < b < |ItemText(i)| ==> ItemText(i)[a] != '/' || ItemText(i)[b] != '/'
    ensures ',' !in ItemText(i)
  {
    var r, t := RangeText(i.range), StepText(i.step);
    RangeHasNoSlash(i.range, first);
    assert forall k :: 1 <= k < |t| ==> IsDigit(t[k]) by {
      assert forall k :: 1 <= k < |t| ==> t[k] == i.step.value[k - 1];
    }
    hide RangeText, StepText;
    assert forall k :: 0 <= k < |r + t| ==> (r + t)[k] == if k < |r| then r[k] else t[k - |r|];
  }

  lemma RangeHasNoSlash(r: Range, first: bool)
    requires GoodRange(r, first)
    ensures forall k :: 0 <= k < |RangeText(r)| ==> RangeText(r)[k] != '/' && RangeText(r)[k] != ','
  {
    match r
    case Any =>
    case Point(n) =>
    case Between(lo, hi) =>
      var s := RangeText(r);
      assert forall k :: 0 <= k < |s| ==>
        s[k] == if k < |lo| then lo[k] else if k == |lo| then '-' else hi[k - |lo| - 1];
  }

  lemma {:induction false} PrintSlashesApart(items: seq<Item>, first: bool)
    requires items != [] && GoodItems(items, first)
    ensures SlashesApart(Print(items))
    decreases |items|
  {
    var i, more := items[0], items[1..];
    assert GoodItem(i, first);
    ItemHasOneSlash(i, first);
    assert items == [i] + more;
    assert forall k :: 0 <= k < |more| ==> more[k] == items[k + 1];
    PrintCons(i, more);
    if more != [] {
      PrintSlashesApart(more, false);
    }
    hide Print, PrintMore, ItemText, GoodItem;
    var x := ItemText(i);
    if more != [] {
      CommaKeepsApart(x, Print(more));
    } else {
      assert x + "" == x;
    }
  }

  lemma CommaKeepsApart(x: string, y: string)
    requires forall a, b :: 0 <= a < b < |x| ==> x[a] != '/' || x[b] != '/'
    requires SlashesApart(y)
    ensures SlashesApart(x + ("," + y))
  {
    var s := x + ("," + y);
    forall i, j | 0 <= i < j < |s| && s[i] == '/' && s[j] == '/' ensures ',' in s[i..j] {
      assert s[|x|] == ',';
      if i < |x| {
        assert j > |x| && s[i..j][|x| - i] == ',';
      } else {
        var k := |x| + 1;
        assert s[i] == y[i - k] && s[j] == y[j - k];
        assert s[i..j] == y[i - k..j - k];
      }
    }
  }
}
