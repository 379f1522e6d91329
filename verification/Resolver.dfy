/**
 The resolver folds a list of declared packages into an insertion-ordered map
 keyed by canonical name.
 */
module Resolver {
  import opened Text
  import opened PackageNames
  import V = VersionSpecifiers
  import R = Requirements

  /** A declared package: a string that may pin with "==", or a dictionary whose
      entries may be missing. */
  datatype Item = Text(s: string) | Entry(packageName: Option<string>, specifier: Option<string>) | Malformed

  datatype Resolved = Resolved(packageName: string, specifier: string, requirement: string)

  datatype Error = BadItem | MissingName | BadName(n: NameError) | BadSpec(s: V.SpecError) | Conflict
  datatype Result<T> = Ok(value: T) | Err(error: Error)

  /** A validated item: its name, and its specifier, "" when it has none. */
  datatype Pin = Pin(name: string, spec: string)

  function SplitOnce(s: string): (string, Option<string>) {
    var head := R.Before(s, "==");
    if |head| + 2 <= |s| then (head, Some(s[|head| + 2..])) else (s, None)
  }

  /** What the loop does with one item before it looks at the map. */
  function ReadItem(item: Item): Result<Pin> {
    match item
    case Malformed => Err(BadItem)
    case Text(s) =>
      var (name, version) := SplitOnce(s);
      Validate(name, if version == None then None else Some("==" + version.value))
    case Entry(name, specifier) =>
      Validate(if name == None then "" else name.value, specifier)
  }

  function Validate(name: string, specifier: Option<string>): Result<Pin> {
    if name == "" then Err(MissingName) else
    match ValidateName(name)
    case Invalid(e) => Err(BadName(e))
    case Valid(validName) =>
      match V.ValidateSpecifier(specifier)
      case Rejected(e) => Err(BadSpec(e))
      case Accepted(spec) => Ok(Pin(validName, if spec == None then "" else spec.value))
  }

  function Key(p: Pin): string {
    Canonical(p.name)
  }

  function Show(p: Pin): Resolved {
    Resolved(p.name, p.spec, p.name + p.spec)
  }

  /** The printed requirement is what `format_requirement` gives for the pin, so
      its second validation changes nothing. */
  lemma ShowIsFormatted(item: Item)
    requires ReadItem(item).Ok?
    ensures var p := ReadItem(item).value;
      R.Format(p.name, if p.spec == "" then None else Some(p.spec)) == R.Line(Show(p).requirement)
  {
    var name := match item
      case Text(s) => SplitOnce(s).0
      case Entry(n, _) => if n == None then "" else n.value
      case Malformed => "";
    var specifier := match item
      case Text(s) => (if SplitOnce(s).1 == None then None else Some("==" + SplitOnce(s).1.value))
      case Entry(_, sp) => sp
      case Malformed => None;
    assert ReadItem(item) == Validate(name, specifier);
    StripStripped(name);
    NameIsStripped(ValidateName(name).name);
    V.ValidationIsStable(specifier);
    var p := ReadItem(item).value;
    hide V.ValidateSpecifier, ValidateName;
    assert p.name + "" == p.name;
  }

  // ---------------------------------------------------------------------------
  // The loop
  // ---------------------------------------------------------------------------

  /** `resolved_map`, with its keys in the order they were first inserted. */
  datatype Table = Table(order: seq<string>, pins: map<string, Pin>)

  const EMPTY := Table([], map[])

  function Add(t: Table, p: Pin): Result<Table> {
    var k := Key(p);
    if k in t.pins then
      if t.pins[k].spec != "" && p.spec != "" && t.pins[k].spec != p.spec then Err(Conflict)
      else Ok(Table(t.order, t.pins[k := p]))
    else Ok(Table(t.order + [k], t.pins[k := p]))
  }

  function Fold(items: seq<Item>): Result<Table> {
    if items == [] then Ok(EMPTY) else
    match Fold(items[..|items| - 1])
    case Err(e) => Err(e)
    case Ok(t) =>
      match ReadItem(items[|items| - 1])
      case Err(e) => Err(e)
      case Ok(p) => Add(t, p)
  }

  lemma {:induction false} FoldStops(items: seq<Item>, n: nat)
    requires n <= |items| && Fold(items[..n]).Err?
    ensures Fold(items) == Fold(items[..n])
  {
    if n < |items| {
      assert items[..|items| - 1][..n] == items[..n];
      FoldStops(items[..|items| - 1], n);
    } else {
      assert items[..n] == items;
    }
  }

  /** `resolve_requirements` */
  method Resolve(items: seq<Item>) returns (r: Result<seq<Resolved>>)
    ensures match Fold(items)
            case Err(e) => r == Err(e)
            case Ok(t) =>
              && r.Ok? && |r.value| == |t.order|
              && forall i :: 0 <= i < |t.order| ==> t.order[i] in t.pins && r.value[i] == Show(t.pins[t.order[i]])
  {
    var order: seq<string> := [];
    var resolvedMap: map<string, Pin> := map[];
    for n := 0 to |items|
      invariant Fold(items[..n]) == Ok(Table(order, resolvedMap))
      invariant forall k :: k in order ==> k in resolvedMap
    {
      assert items[..n + 1][..n] == items[..n];
      var p;
      match ReadItem(items[n]) {
        case Err(e) => FoldStops(items, n + 1); return Err(e);
        case Ok(pin) => p := pin;
      }
      var canonicalName := Key(p);
      if canonicalName in resolvedMap {
        var existingSpec := resolvedMap[canonicalName].spec;
        if existingSpec != "" && p.spec != "" && existingSpec != p.spec {
          FoldStops(items, n + 1);
          return Err(Conflict);
        }
      } else {
        order := order + [canonicalName];
      }
      resolvedMap := resolvedMap[canonicalName := p];
    }
    assert items[..|items|] == items;
    r := Ok(seq(|order|, i requires 0 <= i < |order| => Show(resolvedMap[order[i]])));
  }

  // ---------------------------------------------------------------------------
  // What the loop computes
  // ---------------------------------------------------------------------------

  predicate Readable(items: seq<Item>) {
    forall i :: 0 <= i < |items| ==> ReadItem(items[i]).Ok?
  }

  function Pins(items: seq<Item>): seq<Pin>
    requires Readable(items)
  {
    seq(|items|, i requires 0 <= i < |items| => ReadItem(items[i]).value)
  }

  function LastIndex(ps: seq<Pin>, k: string): (r: int)
    ensures -1 <= r < |ps|
    ensures r >= 0 ==> Key(ps[r]) == k
    ensures forall i :: r < i < |ps| ==> Key(ps[i]) != k
  {
    if ps == [] then -1
    else if Key(ps[|ps| - 1]) == k then |ps| - 1
    else LastIndex(ps[..|ps| - 1], k)
  }

  function FirstIndex(ps: seq<Pin>, k: string): (r: int)
    ensures -1 <= r < |ps|
    ensures r >= 0 ==> Key(ps[r]) == k
    ensures forall i :: 0 <= i < (if r >= 0 then r else |ps|) ==> Key(ps[i]) != k
  {
    if ps == [] then -1
    else
      var f := FirstIndex(ps[..|ps| - 1], k);
      if f >= 0 then f else if Key(ps[|ps| - 1]) == k then |ps| - 1 else -1
  }

  /** An occurrence disagrees with the previous occurrence of its package. */
  predicate Clash(ps: seq<Pin>, j: nat)
    requires j < |ps|
  {
    var i := LastIndex(ps[..j], Key(ps[j]));
    i >= 0 && ps[i].spec != "" && ps[j].spec != "" && ps[i].spec != ps[j].spec
  }

  predicate Consistent(ps: seq<Pin>) {
    forall j :: 0 <= j < |ps| ==> !Clash(ps, j)
  }

  /** One entry for each package, in the order of first occurrence, holding the
      last occurrence. */
  ghost predicate Describes(ps: seq<Pin>, t: Table) {
    && (forall k :: k in t.order <==> LastIndex(ps, k) >= 0)
    && (forall k :: k in t.pins <==> LastIndex(ps, k) >= 0)
    && (forall k :: k in t.pins ==> t.pins[k] == ps[LastIndex(ps, k)])
    && (forall a, b :: 0 <= a < b < |t.order| ==> FirstIndex(ps, t.order[a]) < FirstIndex(ps, t.order[b]))
  }

  lemma IndexAppend(ps: seq<Pin>, p: Pin, k: string)
    ensures LastIndex(ps + [p], k) == if Key(p) == k then |ps| else LastIndex(ps, k)
    ensures FirstIndex(ps + [p], k)
            == if FirstIndex(ps, k) >= 0 then FirstIndex(ps, k) else if Key(p) == k then |ps| else -1
    ensures FirstIndex(ps, k) >= 0 <==> LastIndex(ps, k) >= 0
  {
    hide Key;
    assert (ps + [p])[..|ps|] == ps;
  }

  lemma AddShape(t: Table, p: Pin)
    requires Add(t, p).Ok?
    ensures Add(t, p).value
            == Table(if Key(p) in t.pins then t.order else t.order + [Key(p)], t.pins[Key(p) := p])
  {
  }

  lemma AddDescribes(ps: seq<Pin>, t: Table, p: Pin)
    requires Describes(ps, t) && Add(t, p).Ok?
    ensures Describes(ps + [p], Add(t, p).value)
  {
    hide Key, LastIndex, FirstIndex, Add;
    AddShape(t, p);
    OrderGrows(ps, t, p, Add(t, p).value);
    EntriesGrow(ps, t, p, Add(t, p).value);
  }

  lemma EntriesGrow(ps: seq<Pin>, t: Table, p: Pin, u: Table)
    requires Describes(ps, t)
    requires u == Table(if Key(p) in t.pins then t.order else t.order + [Key(p)], t.pins[Key(p) := p])
    ensures forall k :: k in u.order <==> LastIndex(ps + [p], k) >= 0
    ensures forall k :: k in u.pins <==> LastIndex(ps + [p], k) >= 0
    ensures forall k :: k in u.pins ==> u.pins[k] == (ps + [p])[LastIndex(ps + [p], k)]
  {
    hide Key, LastIndex, FirstIndex;
    forall k ensures LastIndex(ps + [p], k) == if Key(p) == k then |ps| else LastIndex(ps, k) {
      IndexAppend(ps, p, k);
    }
  }

  lemma OrderGrows(ps: seq<Pin>, t: Table, p: Pin, u: Table)
    requires Describes(ps, t)
    requires u == Table(if Key(p) in t.pins then t.order else t.order + [Key(p)], t.pins[Key(p) := p])
    ensures forall a, b :: 0 <= a < b < |u.order| ==>
      FirstIndex(ps + [p], u.order[a]) < FirstIndex(ps + [p], u.order[b])
  {
    hide Key, LastIndex, FirstIndex;
    forall a, b | 0 <= a < b < |u.order| ensures FirstIndex(ps + [p], u.order[a]) < FirstIndex(ps + [p], u.order[b]) {
      assert u.order[a] == t.order[a] && t.order[a] in t.order;
      assert b < |t.order| ==> u.order[b] == t.order[b] && t.order[b] in t.order;
      IndexAppend(ps, p, u.order[a]);
      IndexAppend(ps, p, u.order[b]);
    }
  }

  lemma ClashesPrefix(ps: seq<Pin>, p: Pin)
    ensures Consistent(ps + [p]) <==> Consistent(ps) && !Clash(ps + [p], |ps|)
  {
    hide Key, LastIndex;
    var qs := ps + [p];
    assert forall j :: 0 <= j < |ps| ==> qs[..j] == ps[..j];
    assert forall j :: 0 <= j < |ps| ==> Clash(qs, j) == Clash(ps, j);
  }

  /** One more item. */
  lemma FoldStep(items: seq<Item>)
    requires items != []
    ensures var init, last := items[..|items| - 1], items[|items| - 1];
      && Fold(items) == (match Fold(init)
                         case Err(e) => Err(e)
                         case Ok(t) => match ReadItem(last) case Err(e) => Err(e) case Ok(p) => Add(t, p))
      && (Readable(items) <==> Readable(init) && ReadItem(last).Ok?)
      && (Readable(items) ==> Pins(items) == Pins(init) + [ReadItem(last).value])
  {
    hide ReadItem, Add;
    var init := items[..|items| - 1];
    assert forall i :: 0 <= i < |init| ==> init[i] == items[i];
    if Readable(items) {
      assert Pins(items) == Pins(init) + [ReadItem(items[|items| - 1]).value];
    }
  }

  lemma AddFailsOnClash(ps: seq<Pin>, t: Table, p: Pin)
    requires Describes(ps, t)
    ensures Add(t, p) == Err(Conflict) <==> Clash(ps + [p], |ps|)
    ensures Add(t, p).Err? ==> Add(t, p) == Err(Conflict)
  {
    hide Key, LastIndex, FirstIndex;
    assert (ps + [p])[..|ps|] == ps;
  }

  /** The resolver succeeds exactly when every item is valid and no occurrence of a
      package carries a specifier that differs from the one its previous occurrence
      carries; and then its table describes the list. */
  lemma {:induction false} Resolution(items: seq<Item>)
    ensures Fold(items).Ok? <==> Readable(items) && Consistent(Pins(items))
    ensures Fold(items).Ok? ==> Describes(Pins(items), Fold(items).value)
  {
    if items == [] {
      EmptyList();
    } else {
      hide Fold, Readable, Pins, Consistent, Describes, Clash, Add, ReadItem;
      var init, last := items[..|items| - 1], items[|items| - 1];
      Resolution(init);
      FoldStep(items);
      if Readable(items) {
        var ps, p := Pins(init), ReadItem(last).value;
        ClashesPrefix(ps, p);
        if Fold(init).Ok? {
          var t := Fold(init).value;
          AddFailsOnClash(ps, t, p);
          if Add(t, p).Ok? {
            AddDescribes(ps, t, p);
          }
        }
      }
    }
  }

  lemma EmptyList()
    ensures Fold([]) == Ok(EMPTY) && Readable([]) && Consistent(Pins([])) && Describes(Pins([]), EMPTY)
  {
  }

  /** A failure is that of the first item that cannot be read or that clashes, and
      it is reported as a conflict exactly when that item can be read. */
  lemma {:induction false} FirstFailure(items: seq<Item>) returns (j: nat)
    requires Fold(items).Err?
    ensures j < |items| && Readable(items[..j]) && Consistent(Pins(items[..j]))
    ensures match ReadItem(items[j])
            case Err(e) => Fold(items) == Err(e)
            case Ok(_) => Fold(items) == Err(Conflict) && Readable(items[..j + 1]) && Clash(Pins(items[..j + 1]), j)
  {
    hide Fold, Readable, Consistent, Describes, Clash, Add, ReadItem;
    if items == [] {
      EmptyList();
      assert false;
    } else {
      var init := items[..|items| - 1];
      FoldStep(items);
      if Fold(init).Err? {
        j := FirstFailure(init);
        assert init[..j] == items[..j] && init[..j + 1] == items[..j + 1] && init[j] == items[j];
      } else {
        j := |items| - 1;
        Resolution(init);
        assert items[..j + 1] == items;
        if ReadItem(items[j]).Ok? {
          AddFailsOnClash(Pins(init), Fold(init).value, ReadItem(items[j]).value);
        }
      }
    }
  }

  // ---------------------------------------------------------------------------
  // What becomes of a pin
  // ---------------------------------------------------------------------------

  /** Every occurrence of the package of `ps[i]` from there to `j` carries a specifier. */
  predicate PinnedFrom(ps: seq<Pin>, i: nat, j: nat)
    requires i <= j < |ps|
  {
    forall m :: i <= m <= j && Key(ps[m]) == Key(ps[i]) ==> ps[m].spec != ""
  }

  lemma {:induction false} PinTravels(ps: seq<Pin>, i: nat, j: nat)
    requires i <= j < |ps| && Consistent(ps) && Key(ps[j]) == Key(ps[i]) && PinnedFrom(ps, i, j)
    ensures ps[j].spec == ps[i].spec
    decreases j
  {
    hide Key, LastIndex;
    if i < j {
      var m := LastIndex(ps[..j], Key(ps[j]));
      assert ps[..j][i] == ps[i];
      assert !Clash(ps, j);
      PinTravels(ps, i, m);
    }
  }

  /** On success a specifier survives to the result unless an occurrence without
      one comes after it. */
  lemma PinSurvives(items: seq<Item>, i: nat)
    requires Fold(items).Ok? && i < |items|
    ensures Readable(items)
    ensures var ps, t := Pins(items), Fold(items).value;
      && Key(ps[i]) in t.pins
      && (PinnedFrom(ps, i, |ps| - 1) ==> t.pins[Key(ps[i])].spec == ps[i].spec)
  {
    hide Fold, LastIndex, Consistent, ReadItem, Key;
    Resolution(items);
    var ps := Pins(items);
    var j := LastIndex(ps, Key(ps[i]));
    if PinnedFrom(ps, i, |ps| - 1) {
      PinTravels(ps, i, j);
    }
  }

  /** The same package three times: pinned, not pinned, pinned otherwise. */
  function LostPin(name: string, spec1: string, spec2: string): seq<Item> {
    [Entry(Some(name), Some(spec1)), Entry(Some(name), None), Entry(Some(name), Some(spec2))]
  }

  /** An occurrence without a specifier in between hides a conflict: any two
      accepted specifiers then resolve to the second one. */
  lemma PinLost(name: string, spec1: string, spec2: string)
    requires IsName(name) && V.Normal(spec1) && V.Normal(spec2)
    ensures Fold(LostPin(name, spec1, spec2)) == Ok(Table([Canonical(name)], map[Canonical(name) := Pin(name, spec2)]))
    ensures spec1 != spec2 ==>
              Fold([Entry(Some(name), Some(spec1)), Entry(Some(name), Some(spec2))]) == Err(Conflict)
  {
    ReadEntry(name, Some(spec1));
    ReadEntry(name, Some(spec2));
    ReadEntry(name, None);
    V.OpTextNonEmpty(spec1);
    V.OpTextNonEmpty(spec2);
    hide Fold, ReadItem, IsName, V.Normal;
    LastOneWins(Entry(Some(name), Some(spec1)), Entry(Some(name), None), Entry(Some(name), Some(spec2)),
                Pin(name, spec1), Pin(name, ""), Pin(name, spec2));
  }

  lemma FoldAppend(items: seq<Item>, x: Item, t: Table, p: Pin)
    requires Fold(items) == Ok(t) && ReadItem(x) == Ok(p)
    ensures Fold(items + [x]) == Add(t, p)
  {
    hide ReadItem, Add;
    assert (items + [x])[..|items|] == items;
  }

  lemma LastOneWins(a: Item, b: Item, c: Item, p: Pin, q: Pin, r: Pin)
    requires ReadItem(a) == Ok(p) && ReadItem(b) == Ok(q) && ReadItem(c) == Ok(r)
    requires Key(p) == Key(q) == Key(r) && p.spec != "" && q.spec == "" && r.spec != ""
    ensures Fold([a, b, c]) == Ok(Table([Key(p)], map[Key(p) := r]))
    ensures p.spec != r.spec ==> Fold([a, c]) == Err(Conflict)
  {
    hide Fold, ReadItem, Key, Add;
    var k := Key(p);
    EmptyList();
    FoldTwo(a, b, p, q);
    FoldTwo(a, c, p, r);
    AddTo(p, q);
    AddTo(p, r);
    AddTo(q, r);
    FoldAppend([a, b], c, Just(q), r);
    assert [a, b] + [c] == [a, b, c];
  }

  lemma FoldTwo(a: Item, b: Item, p: Pin, q: Pin)
    requires ReadItem(a) == Ok(p) && ReadItem(b) == Ok(q)
    ensures Fold([a, b]) == Add(Just(p), q)
  {
    hide Fold, ReadItem, Key, Add, Just;
    EmptyList();
    AddTo(p, p);
    FoldAppend([], a, EMPTY, p);
    assert [] + [a] == [a];
    FoldAppend([a], b, Just(p), q);
    assert [a] + [b] == [a, b];
  }

  /** The table of one package. */
  function Just(p: Pin): Table {
    Table([Key(p)], map[Key(p) := p])
  }

  lemma AddTo(p: Pin, q: Pin)
    requires Key(p) == Key(q)
    ensures Add(EMPTY, p) == Ok(Just(p))
    ensures Add(Just(p), q) == if p.spec != "" && q.spec != "" && p.spec != q.spec then Err(Conflict) else Ok(Just(q))
  {
    hide Key;
    var k := Key(p);
    assert EMPTY.order + [k] == [k] && EMPTY.pins[k := p] == map[k := p];
    assert map[k := p][k := q] == map[k := q];
  }

  lemma ReadEntry(name: string, specifier: Option<string>)
    requires IsName(name) && (specifier.Some? ==> V.Normal(specifier.value))
    ensures ReadItem(Entry(Some(name), specifier)) == Ok(Pin(name, if specifier == None then "" else specifier.value))
  {
    hide ValidateName, V.Normal, V.ValidateSpecifier;
    NameIsStripped(name);
    if specifier.Some? {
      V.NormalIsAccepted(specifier.value);
    } else {
      NoSpecifier();
    }
  }

  lemma NoSpecifier()
    ensures V.ValidateSpecifier(None) == V.Accepted(None)
  {
  }

  // ---------------------------------------------------------------------------
  // What an item says
  // ---------------------------------------------------------------------------

  lemma {:induction false} BeforeIs(name: string, rest: string)
    requires '=' !in name
    ensures R.Before(name, "==") == name
    ensures R.Before(name + ("==" + rest), "==") == name
  {
    if name == "" {
      assert name + ("==" + rest) == "==" + rest;
    } else {
      assert '=' !in name[1..];
      BeforeIs(name[1..], rest);
      assert (name + ("==" + rest))[1..] == name[1..] + ("==" + rest);
      assert (name + ("==" + rest))[0] == name[0] == name[..][0];
    }
  }

  /** A text is read as the dictionary it abbreviates: a name alone, or a name and the
      version behind its first "==". */
  lemma TextIsEntry(name: string, version: string)
    requires '=' !in name
    ensures ReadItem(Text(name)) == ReadItem(Entry(Some(name), None))
    ensures ReadItem(Text(name + ("==" + version))) == ReadItem(Entry(Some(name), Some("==" + version)))
  {
    BeforeIs(name, version);
    hide Validate, R.Before;
    var s := name + ("==" + version);
    assert s[|name| + 2..] == version;
    assert SplitOnce(s) == (name, Some(version));
    assert SplitOnce(name) == (name, None);
  }

  /** What a dictionary is read as, and why not: it has no name, its name is no name, or
      its specifier is none. */
  lemma EntryMeans(name: Option<string>, specifier: Option<string>)
    ensures var r := ReadItem(Entry(name, specifier));
      if name == None || name.value == "" then r == Err(MissingName)
      else if !IsName(Strip(name.value)) then r.Err? && r.error == BadName(ValidateName(name.value).error)
      else match V.ValidateSpecifier(specifier)
        case Rejected(e) => r == Err(BadSpec(e))
        case Accepted(None) => r == Ok(Pin(Strip(name.value), ""))
        case Accepted(Some(spec)) => r == Ok(Pin(Strip(name.value), spec))
    ensures ReadItem(Malformed) == Err(BadItem)
  {
    if name.Some? {
      AcceptedNames(name.value);
      NameLanguage(Strip(name.value));
    }
    hide IsName, V.ValidateSpecifier, Strip, ValidateName;
  }
}
