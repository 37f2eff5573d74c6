/**
  Which text the canonical one is (python/scientific_protocol_client.py, `_stable_serialize`): of
  all printable texts that a JSON reader takes for the value, the shortest, with its keys in the
  order of their code points and its integers without leading zeros.
*/
module ShortestText {
  import opened Common
  import opened Escapes
  import opened Serializer

  predicate Printable(t: seq<char>) {
    forall i :: 0 <= i < |t| ==> ' ' <= t[i] <= '~'
  }

  /** The same character, or a capital hex digit and its small form. */
  predicate SameChar(c: char, small: char) {
    c == small || ('A' <= c <= 'F' && small as int == c as int + 32)
  }

  ghost predicate Alike(t: seq<char>, s: seq<char>) {
    |t| == |s| && forall i :: 0 <= i < |t| ==> SameChar(t[i], s[i])
  }

  /** `s` is shorter than `t`, or it is `t` with its hex digits in lower case. */
  ghost predicate NoLonger(s: seq<char>, t: seq<char>) {
    |s| < |t| || Alike(t, s)
  }

  lemma NoLongerConcat(a: seq<char>, t: seq<char>, b: seq<char>, u: seq<char>)
    requires NoLonger(a, t) && NoLonger(b, u)
    ensures NoLonger(a + b, t + u)
  {
  }

  lemma NoLongerSame(a: seq<char>)
    ensures NoLonger(a, a)
  {
  }

  /** The text `used` stands for something of which `s` is a shortest text, and `rest` follows it. */
  ghost predicate Reads(t: seq<char>, s: seq<char>, rest: seq<char>) {
    |rest| <= |t| && t[|t| - |rest|..] == rest && NoLonger(s, t[..|t| - |rest|])
  }

  lemma ReadsThen(t: seq<char>, a: seq<char>, mid: seq<char>, b: seq<char>, rest: seq<char>)
    requires Reads(t, a, mid) && Reads(mid, b, rest)
    ensures Reads(t, a + b, rest)
  {
    hide NoLonger;
    var x, y := t[..|t| - |mid|], mid[..|mid| - |rest|];
    assert t == x + mid && mid == y + rest;
    assert t[..|t| - |rest|] == x + y;
    NoLongerConcat(a, x, b, y);
  }

  lemma ReadsChars(t: seq<char>, s: seq<char>)
    requires s <= t
    ensures Reads(t, s, t[|s|..])
  {
    NoLongerSame(s);
  }

  lemma PrintableRest(t: seq<char>, s: seq<char>, rest: seq<char>)
    requires Printable(t) && Reads(t, s, rest)
    ensures Printable(rest)
  {
    forall i | 0 <= i < |rest| ensures ' ' <= rest[i] <= '~' { assert rest[i] == t[|t| - |rest| + i]; }
  }

  // ----- one character -----

  lemma HexAlike(c: char, d: nat)
    requires d < 16 && HexValue(c) == Some(d)
    ensures SameChar(c, HexDigit(d))
  {
  }

  lemma DigitsOf(a: nat, b: nat, c: nat, d: nat)
    requires a < 16 && b < 16 && c < 16 && d < 16
    ensures var u := a * 4096 + b * 256 + c * 16 + d;
      u < 0x10000 && u / 4096 == a && u / 256 % 16 == b && u / 16 % 16 == c && u % 16 == d
  {
    var u := a * 4096 + b * 256 + c * 16 + d;
    assert u / 16 == a * 256 + b * 16 + c;
    assert u / 256 == a * 16 + b;
  }

  lemma LongEscape(t: seq<char>)
    requires |t| >= 6 && t[0] == '\\' && t[1] == 'u' && ReadHex4(t[2..6]).Some?
    ensures NoLonger(Hex4(ReadHex4(t[2..6]).value), t[..6])
  {
    hide HexValue, HexDigit;
    var h, u := t[2..6], ReadHex4(t[2..6]).value;
    var a, b, c, d := HexValue(h[0]).value, HexValue(h[1]).value, HexValue(h[2]).value, HexValue(h[3]).value;
    DigitsOf(a, b, c, d);
    assert Hex4(u) == ['\\', 'u', HexDigit(a), HexDigit(b), HexDigit(c), HexDigit(d)];
    HexAlike(h[0], a);
    HexAlike(h[1], b);
    HexAlike(h[2], c);
    HexAlike(h[3], d);
  }

  lemma EscapeLength(u: Unit)
    ensures |Escape(u)| == 6 ==> Escape(u) == Hex4(u)
    ensures |Escape(u)| <= 6
  {
  }

  /** No printable text of a code unit is shorter than its escape. */
  lemma UnitShortest(t: seq<char>)
    requires Printable(t) && ReadUnit(t).Some?
    ensures var r := ReadUnit(t).value; Reads(t, Escape(r.0), r.1)
  {
    hide Hex4, ReadHex4;
    var (u, rest) := ReadUnit(t).value;
    if t[0] != '\\' {
      assert t[..1] == [t[0]] && Escape(u) == [t[0]];
    } else if t[1] != 'u' {
      assert t[..2] == ['\\', t[1]];
      assert |Escape(u)| == 1 || Escape(u) == t[..2];
    } else {
      LongEscape(t);
      EscapeLength(u);
      assert |t[..6]| == 6;
    }
  }

  lemma {:induction false} StringShortest(t: seq<char>)
    requires Printable(t) && ReadString(t).Some?
    ensures var r := ReadString(t).value; Reads(t, EscapeAll(r.0) + ['"'], r.1)
    decreases |t|
  {
    hide ReadUnit, Escape, Reads, Printable;
    var (us, rest) := ReadString(t).value;
    if t != [] && t[0] == '"' {
      ReadsChars(t, ['"']);
      assert EscapeAll([]) + ['"'] == ['"'];
    } else {
      var (u, mid) := ReadUnit(t).value;
      UnitShortest(t);
      PrintableRest(t, Escape(u), mid);
      StringShortest(mid);
      var more := ReadString(mid).value.0;
      assert us == [u] + more && us[1..] == more;
      ReadsThen(t, Escape(u), mid, EscapeAll(more) + ['"'], rest);
      assert Escape(u) + (EscapeAll(more) + ['"']) == EscapeAll(us) + ['"'];
    }
  }

  lemma QuoteShortest(t: seq<char>)
    requires Printable(t) && Starts(t, '"') && ReadString(t[1..]).Some?
    ensures var r := ReadString(t[1..]).value; Reads(t, Quote(r.0), r.1)
  {
    hide Reads, Printable, ReadString, EscapeAll;
    var r := ReadString(t[1..]).value;
    ReadsChars(t, ['"']);
    PrintableRest(t, ['"'], t[1..]);
    StringShortest(t[1..]);
    ReadsThen(t, ['"'], t[1..], EscapeAll(r.0) + ['"'], r.1);
    assert ['"'] + (EscapeAll(r.0) + ['"']) == Quote(r.0);
  }

  // ----- values -----

  lemma AtomShortest(t: seq<char>)
    requires ReadValue(t).Some? && (ReadValue(t).value.0.Null? || ReadValue(t).value.0.Bool?)
    ensures var r := ReadValue(t).value; Reads(t, Print(r.0), r.1)
  {
    hide ReadString, ReadItems, ReadEntries, Reads;
    var v := ReadValue(t).value.0;
    ReadsChars(t, if v.Null? then "null" else if v.b then "true" else "false");
  }

  lemma NothingToJoin()
    ensures Print(List([])) == ['[', ']'] && Print(Dict([])) == ['{', '}']
  {
    assert Join([]) == [];
  }

  lemma JoinCons(part: seq<char>, parts: seq<seq<char>>)
    ensures Join([part] + parts) == if parts == [] then part else part + [','] + Join(parts)
  {
    assert ([part] + parts)[1..] == parts;
  }

  /** No printable text that the reader takes for a value is shorter than the printed one. */
  lemma {:induction false} ValueShortest(t: seq<char>)
    requires Printable(t) && ReadValue(t).Some?
    ensures var r := ReadValue(t).value; Reads(t, Print(r.0), r.1)
    decreases |t|, 1
  {
    hide Reads, Printable, ReadString, ReadItems, ReadEntries, Print, Join, Quote;
    var (v, rest) := ReadValue(t).value;
    if t[0] == '"' {
      QuoteShortest(t);
      assert Print(v) == Quote(v.s) by { PrintsQuoted(v.s); }
    } else if t[0] == '[' {
      PrintList(v);
      NothingToJoin();
      if Starts(t[1..], ']') {
        assert ['[', ']'] <= t;
        ReadsChars(t, ['[', ']']);
      } else {
        ReadsChars(t, ['[']);
        PrintableRest(t, ['['], t[1..]);
        ItemsShortest(t[1..]);
        ReadsThen(t, ['['], t[1..], Join(ItemTexts(v.items)) + [']'], rest);
        assert ['['] + (Join(ItemTexts(v.items)) + [']']) == Print(v);
      }
    } else if t[0] == '{' {
      PrintList(v);
      NothingToJoin();
      if Starts(t[1..], '}') {
        assert ['{', '}'] <= t;
        ReadsChars(t, ['{', '}']);
      } else {
        ReadsChars(t, ['{']);
        PrintableRest(t, ['{'], t[1..]);
        EntriesShortest(t[1..]);
        ReadsThen(t, ['{'], t[1..], Join(EntryTexts(v.entries)) + ['}'], rest);
        assert ['{'] + (Join(EntryTexts(v.entries)) + ['}']) == Print(v);
      }
    } else {
      AtomShortest(t);
    }
  }

  lemma PrintsQuoted(s: Str)
    ensures Print(Str(s)) == Quote(s)
  {
  }

  /** One part, the closing bracket. */
  lemma LastPart(t: seq<char>, part: seq<char>, mid: seq<char>, close: char)
    requires Reads(t, part, mid) && Starts(mid, close)
    ensures Reads(t, Join([part]) + [close], mid[1..])
  {
    hide Reads;
    ReadsChars(mid, [close]);
    ReadsThen(t, part, mid, [close], mid[1..]);
  }

  /** One part, a comma, the other parts with the closing bracket. */
  lemma NextPart(t: seq<char>, part: seq<char>, mid: seq<char>, parts: seq<seq<char>>, close: char, rest: seq<char>)
    requires Reads(t, part, mid) && Starts(mid, ',') && parts != [] && Reads(mid[1..], Join(parts) + [close], rest)
    ensures Reads(t, Join([part] + parts) + [close], rest)
  {
    hide Reads, Join;
    ReadsChars(mid, [',']);
    ReadsThen(mid, [','], mid[1..], Join(parts) + [close], rest);
    ReadsThen(t, part, mid, [','] + (Join(parts) + [close]), rest);
    JoinCons(part, parts);
    assert part + ([','] + (Join(parts) + [close])) == Join([part] + parts) + [close];
  }

  lemma PrintableAfter(t: seq<char>, part: seq<char>, mid: seq<char>)
    requires Printable(t) && Reads(t, part, mid) && mid != []
    ensures Printable(mid[1..])
  {
    hide Printable, Reads;
    PrintableRest(t, part, mid);
    ReadsChars(mid, mid[..1]);
    PrintableRest(mid, mid[..1], mid[1..]);
  }

  lemma ItemTextsCons(v: Value, items: seq<Value>)
    ensures ItemTexts([v] + items) == [Print(v)] + ItemTexts(items)
  {
    hide Print;
  }

  lemma {:induction false} ItemsShortest(t: seq<char>)
    requires Printable(t) && ReadItems(t).Some?
    ensures var r := ReadItems(t).value; Reads(t, Join(ItemTexts(r.0)) + [']'], r.1)
    decreases |t|, 2
  {
    hide Reads, Printable, ReadValue, Print, Join, ItemTexts;
    var (v, mid) := ReadValue(t).value;
    ValueShortest(t);
    if Starts(mid, ']') {
      LastPart(t, Print(v), mid, ']');
      assert ItemTexts([v]) == [Print(v)];
    } else {
      var (more, rest) := ReadItems(mid[1..]).value;
      PrintableAfter(t, Print(v), mid);
      ItemsShortest(mid[1..]);
      SomeItems(mid[1..]);
      NextPart(t, Print(v), mid, ItemTexts(more), ']', rest);
      ItemTextsCons(v, more);
    }
  }

  lemma SomeItems(t: seq<char>)
    ensures ReadItems(t).Some? ==> ReadItems(t).value.0 != []
    ensures ReadEntries(t).Some? ==> ReadEntries(t).value.0 != []
  {
    hide ReadValue, ReadEntry;
  }

  lemma EntryShortest(t: seq<char>)
    requires Printable(t) && ReadEntry(t).Some?
    ensures var r := ReadEntry(t).value; Reads(t, EntryText(r.0), r.1)
    decreases |t|, 2
  {
    hide Reads, Printable, ReadValue, Print, ReadString, Quote;
    var (e, rest) := ReadEntry(t).value;
    var mid := ReadString(t[1..]).value.1;
    QuoteShortest(t);
    PrintableAfter(t, Quote(e.0), mid);
    ValueShortest(mid[1..]);
    ReadsChars(mid, [':']);
    ReadsThen(mid, [':'], mid[1..], Print(e.1), rest);
    ReadsThen(t, Quote(e.0), mid, [':'] + Print(e.1), rest);
    assert Quote(e.0) + ([':'] + Print(e.1)) == EntryText(e);
  }

  lemma EntryTextsCons(e: (Str, Value), es: seq<(Str, Value)>)
    ensures EntryTexts([e] + es) == [EntryText(e)] + EntryTexts(es)
  {
    hide EntryText;
  }

  lemma {:induction false} EntriesShortest(t: seq<char>)
    requires Printable(t) && ReadEntries(t).Some?
    ensures var r := ReadEntries(t).value; Reads(t, Join(EntryTexts(r.0)) + ['}'], r.1)
    decreases |t|, 3
  {
    hide Reads, Printable, ReadEntry, EntryText, Join, EntryTexts;
    var (e, mid) := ReadEntry(t).value;
    EntryShortest(t);
    if Starts(mid, '}') {
      LastPart(t, EntryText(e), mid, '}');
      assert EntryTexts([e]) == [EntryText(e)];
    } else {
      var (more, rest) := ReadEntries(mid[1..]).value;
      PrintableAfter(t, EntryText(e), mid);
      EntriesShortest(mid[1..]);
      SomeItems(mid[1..]);
      NextPart(t, EntryText(e), mid, EntryTexts(more), '}', rest);
      EntryTextsCons(e, more);
    }
  }

  // ----- printable -----

  lemma EscapePrintable(c: CodePoint)
    ensures Printable(Escape(c))
  {
  }

  lemma {:induction false} QuotePrintable(s: Str)
    ensures Printable(EscapeAll(s)) && Printable(Quote(s))
  {
    hide Escape;
    if s != [] {
      EscapePrintable(s[0]);
      QuotePrintable(s[1..]);
    }
  }

  lemma {:induction false} JoinPrintable(parts: seq<seq<char>>)
    requires forall i :: 0 <= i < |parts| ==> Printable(parts[i])
    ensures Printable(Join(parts))
  {
    if |parts| > 1 { JoinPrintable(parts[1..]); }
  }

  lemma {:induction false} PrintPrintable(v: Value)
    ensures Printable(Print(v))
    decreases v
  {
    hide Quote, Join, EntryText;
    PrintList(v);
    match v {
      case Int(n) => QuotePrintable(Decimal(n));
      case Str(s) => QuotePrintable(s);
      case List(items) =>
        forall i | 0 <= i < |items| ensures Printable(ItemTexts(items)[i]) { PrintPrintable(items[i]); }
        JoinPrintable(ItemTexts(items));
      case Dict(es) =>
        forall i | 0 <= i < |es| ensures Printable(EntryTexts(es)[i]) {
          QuotePrintable(es[i].0);
          PrintPrintable(es[i].1);
          EntryPrintable(es[i]);
        }
        JoinPrintable(EntryTexts(es));
      case _ =>
    }
  }

  lemma EntryPrintable(e: (Str, Value))
    requires Printable(Quote(e.0)) && Printable(Print(e.1))
    ensures Printable(EntryText(e))
  {
  }

  /**
    The canonical text is printable ASCII, and of all printable texts that the reader takes for the
    same value it is the shortest; one of the same length differs at most in the case of hex digits.
  */
  lemma CanonicalIsShortest(v: Value, t: seq<char>)
    requires Printable(t) && ReadValue(t) == Some((Normal(v), []))
    ensures Printable(Text(v)) && |Text(v)| <= |t|
    ensures |Text(v)| == |t| ==> forall i :: 0 <= i < |t| ==> SameChar(t[i], Text(v)[i])
  {
    hide Print, Normal, ReadValue;
    PrintPrintable(Normal(v));
    ValueShortest(t);
    assert t[..|t|] == t;
  }

  // ----- integers and key order -----

  lemma {:induction false} NoLeadingZero(n: nat)
    ensures Digits(n)[0] == 48 ==> n == 0
  {
    if n >= 10 { NoLeadingZero(n / 10); }
  }

  /** An integer prints as its sign and its decimal digits, without a leading zero. */
  lemma DecimalIs(n: int)
    ensures var digits := if n < 0 then Decimal(n)[1..] else Decimal(n);
      && digits != [] && (forall i :: 0 <= i < |digits| ==> 48 <= digits[i] <= 57)
      && Number(digits) == (if n < 0 then -n else n)
      && (n != 0 ==> digits[0] != 48) && (n < 0 ==> Decimal(n)[0] == '-' as int)
  {
    var m: nat := if n < 0 then -n else n;
    NumberOfDigits(m);
    NoLeadingZero(m);
    assert ([45] + Digits(m))[1..] == Digits(m);
  }

  /** `a` ends, or has the smaller code point, where the two first differ. */
  ghost predicate Before(a: Str, b: Str) {
    exists k: nat :: DiffersAt(a, b, k)
  }

  predicate DiffersAt(a: Str, b: Str, k: nat) {
    k <= |a| && k < |b| && a[..k] == b[..k] && (k == |a| || a[k] < b[k])
  }

  lemma SameFirst(a: Str, b: Str, k: nat)
    requires 0 < k <= |a| && k <= |b| && a[..k] == b[..k]
    ensures a[0] == b[0]
  {
    assert a[..k][0] == b[..k][0];
  }

  lemma {:induction false} LessIsBefore(a: Str, b: Str)
    ensures Less(a, b) <==> Before(a, b)
  {
    if b != [] && a != [] && a[0] == b[0] {
      LessIsBefore(a[1..], b[1..]);
      if Before(a[1..], b[1..]) {
        var k: nat :| DiffersAt(a[1..], b[1..], k);
        assert a[..k + 1] == [a[0]] + a[1..][..k] && b[..k + 1] == [b[0]] + b[1..][..k];
        assert DiffersAt(a, b, k + 1);
      }
      if Before(a, b) {
        var k: nat :| DiffersAt(a, b, k);
        assert k > 0;
        assert a[1..][..k - 1] == a[..k][1..] && b[1..][..k - 1] == b[..k][1..];
        assert DiffersAt(a[1..], b[1..], k - 1);
      }
    } else if Less(a, b) {
      assert DiffersAt(a, b, 0);
    } else if Before(a, b) {
      var k: nat :| DiffersAt(a, b, k);
      if k > 0 { SameFirst(a, b, k); }
    }
  }

  /** The entries of a dictionary appear once each, keys rising by code point, each with its own value. */
  lemma EntriesRise(es: seq<(Str, Value)>) returns (ks: seq<Str>)
    requires Distinct(Keys(es))
    ensures |ks| == |es| && |Normal(Dict(es)).entries| == |es| && multiset(ks) == multiset(Keys(es))
    ensures forall i :: 0 <= i < |es| ==>
      exists v :: (ks[i], v) in es && Normal(Dict(es)).entries[i] == (Units(ks[i]), Normal(v))
    ensures forall i, j :: 0 <= i < j < |ks| ==> Before(ks[i], ks[j])
  {
    hide Less, Before, Normal, Get, Units;
    SortedKeys(es);
    SortedInOrder(Keys(es));
    ks := Sorted(Keys(es));
    NormalDict(es);
    forall i | 0 <= i < |es|
      ensures exists v :: (ks[i], v) in es && Normal(Dict(es)).entries[i] == (Units(ks[i]), Normal(v))
    {
      assert (ks[i], Get(es, ks[i])) in es;
    }
    forall i, j | 0 <= i < j < |ks| ensures Before(ks[i], ks[j]) {
      SortedDistinct(Keys(es), i, j);
      LessTotal(ks[i], ks[j]);
      LessIsBefore(ks[i], ks[j]);
    }
  }

  lemma NormalDict(es: seq<(Str, Value)>)
    requires forall i :: 0 <= i < |es| ==> Sorted(Keys(es))[i] in Keys(es)
    ensures Normal(Dict(es)).Dict? && |Normal(Dict(es)).entries| == |es|
    ensures forall i :: 0 <= i < |es| ==>
      var k := Sorted(Keys(es))[i]; Normal(Dict(es)).entries[i] == (Units(k), Normal(Get(es, k)))
  {
    hide Get, Units, Sorted;
  }

  lemma CountedTwice(r: seq<Str>, i: nat, j: nat)
    requires i < j < |r| && r[i] == r[j]
    ensures multiset(r)[r[i]] >= 2
  {
    assert r == r[..j] + r[j..];
    assert r[..j][i] == r[i] && r[j..][0] == r[i];
    assert r[i] in multiset(r[..j]) && r[i] in multiset(r[j..]);
  }

  lemma SortedDistinct(ks: seq<Str>, i: nat, j: nat)
    requires Distinct(ks) && i < j < |ks|
    ensures Sorted(ks)[i] != Sorted(ks)[j]
  {
    var r := Sorted(ks);
    CountDistinct(ks, r[i]);
    if r[i] == r[j] { CountedTwice(r, i, j); }
  }
}
