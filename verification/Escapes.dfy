/**
  Strings as `json.dumps` prints them (python/scientific_protocol_client.py, with Python's default
  `ensure_ascii`), and the reader of section 7 of RFC 8259.

  A Python string is a sequence of code points, surrogates included; the printed text denotes
  UTF-16 code units, so code points above 0xFFFF become surrogate pairs.
*/
module Escapes {
  import opened Common

  type CodePoint = c: nat | c < 0x110000
  type Unit = u: nat | u < 0x10000
  type Str = seq<CodePoint>

  predicate High(u: nat) { 0xD800 <= u < 0xDC00 }
  predicate Low(u: nat) { 0xDC00 <= u < 0xE000 }

  function HexDigit(d: nat): char
    requires d < 16
  {
    if d < 10 then ('0' as int + d) as char else ('a' as int + d - 10) as char
  }

  function HexValue(c: char): (r: Option<nat>)
    ensures r.Some? ==> r.value < 16
  {
    if '0' <= c <= '9' then Some(c as int - '0' as int)
    else if 'a' <= c <= 'f' then Some(c as int - 'a' as int + 10)
    else if 'A' <= c <= 'F' then Some(c as int - 'A' as int + 10)
    else None
  }

  /** `\uXXXX` in lower-case hex. */
  function Hex4(u: Unit): seq<char> {
    ['\\', 'u', HexDigit(u / 4096), HexDigit(u / 256 % 16), HexDigit(u / 16 % 16), HexDigit(u % 16)]
  }

  /** One character of `json.dumps`: printable ASCII as it is, everything else escaped. */
  function Escape(c: CodePoint): seq<char> {
    if c == 0x5C then ['\\', '\\']
    else if c == 0x22 then ['\\', '"']
    else if c == 0x08 then ['\\', 'b']
    else if c == 0x0C then ['\\', 'f']
    else if c == 0x0A then ['\\', 'n']
    else if c == 0x0D then ['\\', 'r']
    else if c == 0x09 then ['\\', 't']
    else if 0x20 <= c <= 0x7E then [c as char]
    else if c < 0x10000 then Hex4(c)
    else
      var n := c - 0x10000;
      Hex4(0xD800 + n / 1024) + Hex4(0xDC00 + n % 1024)
  }

  function EscapeAll(s: Str): seq<char> {
    if s == [] then [] else Escape(s[0]) + EscapeAll(s[1..])
  }

  function Quote(s: Str): seq<char> {
    ['"'] + EscapeAll(s) + ['"']
  }

  // ----- what the text denotes -----

  function PointUnits(c: CodePoint): (us: seq<Unit>)
    ensures 1 <= |us| <= 2
  {
    if c < 0x10000 then [c] else [0xD800 + (c - 0x10000) / 1024, 0xDC00 + (c - 0x10000) % 1024]
  }

  /** The UTF-16 code units of a string. */
  function Units(s: Str): seq<Unit> {
    if s == [] then [] else PointUnits(s[0]) + Units(s[1..])
  }

  // ----- the reader -----

  function ReadHex4(t: seq<char>): (r: Option<Unit>)
    requires |t| >= 4
  {
    var a, b, c, d := HexValue(t[0]), HexValue(t[1]), HexValue(t[2]), HexValue(t[3]);
    if a.Some? && b.Some? && c.Some? && d.Some?
    then Some(a.value * 4096 + b.value * 256 + c.value * 16 + d.value) else None
  }

  function SimpleEscape(c: char): Option<Unit> {
    if c == '"' then Some(0x22) else if c == '\\' then Some(0x5C) else if c == '/' then Some(0x2F)
    else if c == 'b' then Some(0x08) else if c == 'f' then Some(0x0C) else if c == 'n' then Some(0x0A)
    else if c == 'r' then Some(0x0D) else if c == 't' then Some(0x09) else None
  }

  /** One code unit at the front of the text, and what follows. */
  function ReadUnit(t: seq<char>): (r: Option<(Unit, seq<char>)>)
    ensures r.Some? ==> |r.value.1| < |t|
  {
    if t == [] || t[0] == '"' then None
    else if t[0] != '\\' then
      if 0x20 <= t[0] as int < 0x10000 then Some((t[0] as int, t[1..])) else None
    else if |t| >= 2 && t[1] != 'u' then
      var u := SimpleEscape(t[1]);
      if u.Some? then Some((u.value, t[2..])) else None
    else if |t| >= 6 then
      var u := ReadHex4(t[2..6]);
      if u.Some? then Some((u.value, t[6..])) else None
    else None
  }

  /** The code units up to the closing quote. */
  function ReadString(t: seq<char>): (r: Option<(seq<Unit>, seq<char>)>)
    ensures r.Some? ==> |r.value.1| < |t|
    decreases |t|
  {
    if t != [] && t[0] == '"' then Some(([], t[1..]))
    else
      var u := ReadUnit(t);
      if u.None? then None
      else
        var more := ReadString(u.value.1);
        if more.None? then None else Some(([u.value.0] + more.value.0, more.value.1))
  }

  lemma DigitRoundTrip(d: nat)
    requires d < 16
    ensures HexValue(HexDigit(d)) == Some(d)
  {
  }

  lemma FourDigits(a: nat, b: nat, c: nat, d: nat, rest: seq<char>)
    requires a < 16 && b < 16 && c < 16 && d < 16
    ensures var t := ['\\', 'u', HexDigit(a), HexDigit(b), HexDigit(c), HexDigit(d)] + rest;
      ReadUnit(t) == Some((a * 4096 + b * 256 + c * 16 + d, rest))
  {
    hide HexDigit, HexValue;
    var t := ['\\', 'u', HexDigit(a), HexDigit(b), HexDigit(c), HexDigit(d)] + rest;
    DigitRoundTrip(a);
    DigitRoundTrip(b);
    DigitRoundTrip(c);
    DigitRoundTrip(d);
    assert t[2..6] == [HexDigit(a), HexDigit(b), HexDigit(c), HexDigit(d)];
    assert t[6..] == rest;
  }

  lemma HexRoundTrip(u: Unit, rest: seq<char>)
    ensures ReadUnit(Hex4(u) + rest) == Some((u, rest))
  {
    hide ReadUnit, HexDigit;
    HexSum(u);
    FourDigits(u / 4096, u / 256 % 16, u / 16 % 16, u % 16, rest);
  }

  lemma HexSum(u: Unit)
    ensures u / 4096 * 4096 + u / 256 % 16 * 256 + u / 16 % 16 * 16 + u % 16 == u
  {
    assert u / 256 / 16 == u / 4096 && u / 16 / 16 == u / 256;
  }

  /** A character that prints as one unit reads back as that unit. */
  lemma SmallRoundTrip(c: CodePoint, rest: seq<char>)
    requires c < 0x10000
    ensures ReadUnit(Escape(c) + rest) == Some((c, rest))
  {
    var t := Escape(c) + rest;
    if Escape(c) == Hex4(c) { HexRoundTrip(c, rest); }
    else if |Escape(c)| == 1 { assert t[1..] == rest; }
    else { assert t[2..] == rest; }
  }

  /** Reading a quoted string gives its code units and leaves the rest of the text. */
  lemma {:induction false} StringRoundTrip(s: Str, rest: seq<char>)
    ensures ReadString(EscapeAll(s) + ['"'] + rest) == Some((Units(s), rest))
  {
    var tail := ['"'] + rest;
    if s == [] {
      assert EscapeAll(s) + ['"'] + rest == tail && tail[1..] == rest;
    } else {
      var more := EscapeAll(s[1..]) + ['"'] + rest;
      StringRoundTrip(s[1..], rest);
      assert EscapeAll(s) + ['"'] + rest == Escape(s[0]) + more;
      ReadPoint(s[0], more);
    }
  }

  lemma ReadPoint(c: CodePoint, more: seq<char>)
    requires ReadString(more).Some?
    ensures ReadString(Escape(c) + more) == Some((PointUnits(c) + ReadString(more).value.0, ReadString(more).value.1))
  {
    hide ReadUnit, Hex4, ReadString, Escape;
    if c < 0x10000 {
      SmallRoundTrip(c, more);
      ReadMore(Escape(c), c, more);
    } else {
      var hi: Unit, lo: Unit := 0xD800 + (c - 0x10000) / 1024, 0xDC00 + (c - 0x10000) % 1024;
      PairEscape(c, hi, lo);
      HexRoundTrip(lo, more);
      ReadMore(Hex4(lo), lo, more);
      HexRoundTrip(hi, Hex4(lo) + more);
      ReadMore(Hex4(hi), hi, Hex4(lo) + more);
      assert Escape(c) + more == Hex4(hi) + (Hex4(lo) + more);
      assert [hi] + ([lo] + ReadString(more).value.0) == PointUnits(c) + ReadString(more).value.0;
    }
  }

  lemma PairEscape(c: CodePoint, hi: Unit, lo: Unit)
    requires c >= 0x10000 && hi == 0xD800 + (c - 0x10000) / 1024 && lo == 0xDC00 + (c - 0x10000) % 1024
    ensures Escape(c) == Hex4(hi) + Hex4(lo)
  {
  }

  lemma ReadMore(text: seq<char>, u: Unit, more: seq<char>)
    requires ReadUnit(text + more) == Some((u, more)) && ReadString(more).Some?
    ensures ReadString(text + more) == Some(([u] + ReadString(more).value.0, ReadString(more).value.1))
  {
  }

  // ----- when the code units determine the string -----

  /** No high surrogate directly followed by a low one. */
  ghost predicate Clean(s: Str) {
    forall i :: 0 <= i < |s| - 1 ==> !(High(s[i]) && Low(s[i + 1]))
  }

  /** Surrogate pairs become code points again. */
  function Points(us: seq<Unit>): Str {
    if us == [] then []
    else if |us| >= 2 && High(us[0]) && Low(us[1])
    then [Combine(us[0], us[1])] + Points(us[2..])
    else [us[0]] + Points(us[1..])
  }

  function Combine(hi: nat, lo: nat): CodePoint
    requires High(hi) && Low(lo)
  {
    0x10000 + (hi - 0xD800) * 1024 + (lo - 0xDC00)
  }

  lemma {:induction false} PointsRoundTrip(s: Str)
    requires Clean(s)
    ensures Points(Units(s)) == s
  {
    if s != [] {
      var rest := s[1..];
      assert Clean(rest) by {
        forall i | 0 <= i < |rest| - 1 ensures !(High(rest[i]) && Low(rest[i + 1])) {
          assert rest[i] == s[i + 1] && rest[i + 1] == s[i + 2];
          assert !(High(s[i + 1]) && Low(s[i + 2]));
        }
      }
      PointsRoundTrip(rest);
      var us := Units(s);
      if s[0] < 0x10000 {
        assert us[1..] == Units(rest);
        if |us| >= 2 {
          assert us[1] == PointUnits(rest[0])[0];
          assert !(High(s[0]) && Low(s[1]));
        }
      } else {
        assert us[2..] == Units(rest);
      }
    }
  }

  lemma UnitsCons(c: CodePoint, s: Str)
    ensures Units([c] + s) == PointUnits(c) + Units(s)
  {
    hide PointUnits;
    assert ([c] + s)[1..] == s;
  }

  /** Joining surrogate pairs does not change the code units. */
  lemma {:induction false} UnitsOfPoints(us: seq<Unit>)
    ensures Units(Points(us)) == us
    decreases |us|
  {
    hide Units, Combine, PointUnits;
    if us == [] {
      assert Units([]) == [] by { NoUnits(); }
    } else if |us| >= 2 && High(us[0]) && Low(us[1]) {
      UnitsOfPoints(us[2..]);
      UnitsCons(Combine(us[0], us[1]), Points(us[2..]));
      SplitOfCombine(us[0], us[1]);
      assert us == [us[0], us[1]] + us[2..];
    } else {
      UnitsOfPoints(us[1..]);
      UnitsCons(us[0], Points(us[1..]));
      SingleUnit(us[0]);
      assert us == [us[0]] + us[1..];
    }
  }

  lemma NoUnits()
    ensures Units([]) == []
  {
  }

  lemma SingleUnit(u: Unit)
    ensures PointUnits(u) == [u]
  {
  }

  lemma SplitOfCombine(hi: Unit, lo: Unit)
    requires High(hi) && Low(lo)
    ensures PointUnits(Combine(hi, lo)) == [hi, lo]
  {
  }

  /** What is joined has no split pair left. */
  lemma {:induction false} PointsAreClean(us: seq<Unit>)
    ensures Clean(Points(us))
    ensures us != [] ==> Points(us) != [] && (Points(us)[0] == us[0] || Points(us)[0] >= 0x10000)
    decreases |us|
  {
    if us == [] {
    } else if |us| >= 2 && High(us[0]) && Low(us[1]) {
      PointsAreClean(us[2..]);
      CleanCons(Points(us)[0], Points(us[2..]));
    } else {
      PointsAreClean(us[1..]);
      CleanCons(us[0], Points(us[1..]));
    }
  }

  lemma CleanCons(c: CodePoint, s: Str)
    requires Clean(s) && (s != [] ==> !(High(c) && Low(s[0])))
    ensures Clean([c] + s)
  {
    var t := [c] + s;
    forall i | 0 <= i < |t| - 1 ensures !(High(t[i]) && Low(t[i + 1])) {
      if i > 0 { assert t[i] == s[i - 1] && t[i + 1] == s[i]; }
    }
  }

  /** A pair of surrogates and the code point they stand for print alike. */
  lemma SplitPairCollides()
    ensures EscapeAll([0x1F600]) == EscapeAll([0xD83D, 0xDE00])
    ensures !Clean([0xD83D, 0xDE00])
  {
    assert [0xD83D, 0xDE00][1..] == [0xDE00] && [0xDE00][1..] == [] && [0x1F600][1..] == [];
    var s: Str := [0xD83D, 0xDE00];
    assert High(s[0]) && Low(s[1]);
  }
}
