/**
 Regular expressions by what they denote. A pattern of the program is written
 here as a term, and `Matches` says which whole strings it accepts, whatever way
 a matcher finds it.
 */
module Regex {
  datatype Re =
    | Empty
    | One(accepts: char -> bool)
    | Seq(first: Re, second: Re)
    | Alt(left: Re, right: Re)
    | Star(body: Re)

  ghost predicate Matches(r: Re, s: string)
    decreases r, |s|
  {
    match r
    case Empty => s == ""
    case One(accepts) => |s| == 1 && accepts(s[0])
    case Seq(a, b) => exists i :: 0 <= i <= |s| && Matches(a, s[..i]) && Matches(b, s[i..])
    case Alt(a, b) => Matches(a, s) || Matches(b, s)
    case Star(a) => s == "" || exists i :: 0 < i <= |s| && Matches(a, s[..i]) && Matches(r, s[i..])
  }

  function Char(c: char): Re {
    One(x => x == c)
  }

  function Optional(r: Re): Re {
    Alt(r, Empty)
  }

  function Plus(r: Re): Re {
    Seq(r, Star(r))
  }

  predicate All(accepts: char -> bool, s: string) {
    forall i :: 0 <= i < |s| ==> accepts(s[i])
  }

  lemma SeqIntro(a: Re, b: Re, x: string, y: string)
    requires Matches(a, x) && Matches(b, y)
    ensures Matches(Seq(a, b), x + y)
  {
    assert (x + y)[..|x|] == x && (x + y)[|x|..] == y;
  }

  lemma SeqElim(a: Re, b: Re, s: string) returns (x: string, y: string)
    requires Matches(Seq(a, b), s)
    ensures s == x + y && Matches(a, x) && Matches(b, y)
  {
    var i :| 0 <= i <= |s| && Matches(a, s[..i]) && Matches(b, s[i..]);
    x, y := s[..i], s[i..];
  }

  lemma StarIntro(a: Re, x: string, y: string)
    requires Matches(a, x) && Matches(Star(a), y)
    ensures Matches(Star(a), x + y)
  {
    if x == "" {
      assert x + y == y;
    } else {
      assert (x + y)[..|x|] == x && (x + y)[|x|..] == y;
    }
  }

  lemma StarElim(a: Re, s: string) returns (x: string, y: string)
    requires Matches(Star(a), s) && s != ""
    ensures s == x + y && x != "" && Matches(a, x) && Matches(Star(a), y)
  {
    var i :| 0 < i <= |s| && Matches(a, s[..i]) && Matches(Star(a), s[i..]);
    x, y := s[..i], s[i..];
  }

  /** `[...]*` accepts exactly the strings of such characters. */
  lemma {:induction false} StarOne(accepts: char -> bool, s: string)
    ensures Matches(Star(One(accepts)), s) <==> All(accepts, s)
    decreases |s|
  {
    if s != "" {
      StarOne(accepts, s[1..]);
      if Matches(Star(One(accepts)), s) {
        var x, y := StarElim(One(accepts), s);
        assert y == s[1..] && s[0] == x[0];
      }
      if All(accepts, s) {
        assert s[..1] == [s[0]];
        StarIntro(One(accepts), s[..1], s[1..]);
        assert s == s[..1] + s[1..];
      }
    }
  }

  lemma PlusOne(accepts: char -> bool, s: string)
    ensures Matches(Plus(One(accepts)), s) <==> s != "" && All(accepts, s)
  {
    if Matches(Plus(One(accepts)), s) {
      var x, y := SeqElim(One(accepts), Star(One(accepts)), s);
      StarOne(accepts, y);
    }
    if s != "" && All(accepts, s) {
      assert s == s[..1] + s[1..];
      StarOne(accepts, s[1..]);
      SeqIntro(One(accepts), Star(One(accepts)), s[..1], s[1..]);
    }
  }
}

/** Character classes and the string operations of the program. */
module Text {
  import opened Regex

  datatype Option<+T> = None | Some(value: T)

  /** What `str.strip`, `str.split` and `\s` take for whitespace. */
  predicate IsSpace(c: char) {
    || 9 <= c as int <= 13 || 28 <= c as int <= 32
    || c as int in {0x85, 0xA0, 0x1680, 0x2028, 0x2029, 0x202F, 0x205F, 0x3000}
    || 0x2000 <= c as int <= 0x200A
  }

  predicate IsDigit(c: char) {
    '0' <= c <= '9'
  }

  predicate IsAlnum(c: char) {
    'a' <= c <= 'z' || 'A' <= c <= 'Z' || IsDigit(c)
  }

  function LStrip(s: string): string {
    if s != "" && IsSpace(s[0]) then LStrip(s[1..]) else s
  }

  function RStrip(s: string): string {
    if s != "" && IsSpace(s[|s| - 1]) then RStrip(s[..|s| - 1]) else s
  }

  function Strip(s: string): string {
    RStrip(LStrip(s))
  }

  predicate Stripped(s: string) {
    s == "" || (!IsSpace(s[0]) && !IsSpace(s[|s| - 1]))
  }

  lemma RStripKeepsStart(s: string)
    ensures RStrip(s) <= s
    ensures RStrip(s) == "" || !IsSpace(RStrip(s)[|RStrip(s)| - 1])
    ensures s != "" && !IsSpace(s[0]) ==> RStrip(s) != ""
  {
  }

  lemma LStripStart(s: string)
    ensures LStrip(s) == "" || !IsSpace(LStrip(s)[0])
    ensures Stripped(s) ==> LStrip(s) == s
  {
  }

  lemma StripStripped(s: string)
    ensures Stripped(Strip(s))
    ensures Stripped(s) ==> Strip(s) == s
  {
    LStripStart(s);
    RStripKeepsStart(LStrip(s));
  }

  /** The longest prefix of characters that satisfy `p`. */
  function Head(p: char -> bool, s: string): (h: string)
    ensures All(p, h) && |h| <= |s| && h == s[..|h|]
    ensures |h| < |s| ==> !p(s[|h|])
  {
    if s != "" && p(s[0]) then [s[0]] + Head(p, s[1..]) else ""
  }

  /** What follows it. */
  function Tail(p: char -> bool, s: string): (t: string)
    ensures s == Head(p, s) + t
    ensures t == "" || !p(t[0])
  {
    s[|Head(p, s)|..]
  }

  /** There is only one such way to cut a string. */
  lemma CutIs(p: char -> bool, x: string, y: string)
    requires All(p, x) && (y == "" || !p(y[0]))
    ensures Head(p, x + y) == x && Tail(p, x + y) == y
  {
    var s := x + y;
    assert s[..|x|] == x && s[|x|..] == y;
  }

  lemma StripKeeps(s: string, i: nat)
    requires i < |s| && !IsSpace(s[i])
    ensures s[i] in Strip(s)
  {
    LStripKeeps(s, i);
    var j :| 0 <= j < |LStrip(s)| && LStrip(s)[j] == s[i];
    RStripKeeps(LStrip(s), j);
  }

  lemma LStripKeeps(s: string, i: nat)
    requires i < |s| && !IsSpace(s[i])
    ensures s[i] in LStrip(s)
  {
    if i > 0 && IsSpace(s[0]) {
      LStripKeeps(s[1..], i - 1);
    }
  }

  lemma RStripKeeps(s: string, i: nat)
    requires i < |s| && !IsSpace(s[i])
    ensures s[i] in RStrip(s)
  {
    if i < |s| - 1 && IsSpace(s[|s| - 1]) {
      RStripKeeps(s[..|s| - 1], i);
    }
  }
}
