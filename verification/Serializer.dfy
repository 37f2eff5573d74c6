/**
  The canonical text that agents sign (python/scientific_protocol_client.py, `_stable_serialize`).

  `StableSerialize` is the program. `Normal` is the value its text denotes: dictionaries in key
  order, integers as decimal strings, strings as UTF-16 code units. `ReadValue` is a JSON reader
  that recovers the normal value from the text, whatever follows it.
*/
module Serializer {
  import opened Common
  import opened Escapes

  /** A Python value; `Dict` lists its entries in insertion order. */
  datatype Value =
    | Null
    | Bool(b: bool)
    | Int(n: int)
    | Str(s: Str)
    | List(items: seq<Value>)
    | Dict(entries: seq<(Str, Value)>)

  // ----- integers -----

  function Digits(n: nat): (r: Str)
    ensures r != [] && forall i :: 0 <= i < |r| ==> 48 <= r[i] <= 57
  {
    if n < 10 then [48 + n] else Digits(n / 10) + [48 + n % 10]
  }

  /** Python's `str(n)`. */
  function Decimal(n: int): Str {
    if n < 0 then [45] + Digits(-n) else Digits(n)
  }

  function Number(ds: Str): int {
    if ds == [] then 0 else Number(ds[..|ds| - 1]) * 10 + ds[|ds| - 1] - 48
  }

  lemma {:induction false} NumberOfDigits(n: nat)
    ensures Number(Digits(n)) == n
  {
    var ds := Digits(n);
    if n >= 10 {
      assert ds[..|ds| - 1] == Digits(n / 10);
      NumberOfDigits(n / 10);
    } else {
      assert ds[..0] == [];
    }
  }

  lemma DecimalInjective(m: int, n: int)
    ensures Decimal(m) == Decimal(n) ==> m == n
  {
    NumberOfDigits(if m < 0 then -m else m);
    NumberOfDigits(if n < 0 then -n else n);
    if Decimal(m) == Decimal(n) {
      assert (m < 0) == (Decimal(m)[0] == 45) && (n < 0) == (Decimal(n)[0] == 45);
      if m < 0 { assert Decimal(m)[1..] == Digits(-m) && Decimal(n)[1..] == Digits(-n); }
    }
  }

  // ----- key order -----

  /** Python compares strings by code point. */
  predicate Less(a: Str, b: Str) {
    b != [] && (a == [] || a[0] < b[0] || (a[0] == b[0] && Less(a[1..], b[1..])))
  }

  lemma {:induction false} LessTotal(a: Str, b: Str)
    ensures Less(a, b) || Less(b, a) || a == b
    ensures !(Less(a, b) && Less(b, a))
  {
    if a != [] && b != [] {
      LessTotal(a[1..], b[1..]);
      assert a == [a[0]] + a[1..] && b == [b[0]] + b[1..];
    }
  }

  lemma {:induction false} LessTransitive(a: Str, b: Str, c: Str)
    requires Less(a, b) && Less(b, c)
    ensures Less(a, c)
  {
    if a != [] && a[0] == b[0] && b[0] == c[0] { LessTransitive(a[1..], b[1..], c[1..]); }
  }

  /** No key is larger than a later one. */
  ghost predicate InOrder(ks: seq<Str>) {
    forall i, j :: 0 <= i < j < |ks| ==> !Less(ks[j], ks[i])
  }

  function Insert(k: Str, ks: seq<Str>): (r: seq<Str>)
    ensures multiset(r) == multiset(ks) + multiset{k}
    ensures |r| == |ks| + 1
  {
    if ks == [] || Less(k, ks[0]) then [k] + ks
    else
      assert ks == [ks[0]] + ks[1..];
      [ks[0]] + Insert(k, ks[1..])
  }

  function Sorted(ks: seq<Str>): (r: seq<Str>)
    ensures multiset(r) == multiset(ks)
    ensures |r| == |ks|
  {
    if ks == [] then []
    else
      assert ks == [ks[0]] + ks[1..];
      Insert(ks[0], Sorted(ks[1..]))
  }

  lemma {:induction false} InsertInOrder(k: Str, ks: seq<Str>)
    requires InOrder(ks)
    ensures InOrder(Insert(k, ks))
  {
    hide Less;
    var r := Insert(k, ks);
    if ks == [] {
    } else if Less(k, ks[0]) {
      forall j | 1 <= j < |r| ensures !Less(r[j], k) {
        LessTotal(k, r[j]);
        if Less(r[j], k) { LessTransitive(r[j], k, ks[0]); }
      }
    } else {
      InsertInOrder(k, ks[1..]);
      forall j | 1 <= j < |r| ensures !Less(r[j], ks[0]) {
        assert r[j] in multiset(Insert(k, ks[1..]));
        if r[j] != k {
          assert r[j] in ks[1..];
          var m :| 1 <= m < |ks| && ks[m] == r[j];
        }
      }
    }
  }

  lemma {:induction false} SortedInOrder(ks: seq<Str>)
    ensures InOrder(Sorted(ks))
  {
    if ks != [] {
      SortedInOrder(ks[1..]);
      InsertInOrder(ks[0], Sorted(ks[1..]));
    }
  }

  lemma DropFirst(a: seq<Str>)
    requires a != []
    ensures multiset(a[1..]) == multiset(a) - multiset{a[0]} && a == [a[0]] + a[1..]
    ensures InOrder(a) ==> InOrder(a[1..])
  {
    assert a == [a[0]] + a[1..];
  }

  /** There is one way to put a bag of keys in order. */
  lemma {:induction false} OneOrder(a: seq<Str>, b: seq<Str>)
    requires InOrder(a) && InOrder(b) && multiset(a) == multiset(b)
    ensures a == b
  {
    hide Less;
    assert |a| == |multiset(a)| == |multiset(b)| == |b|;
    if a != [] {
      assert a[0] in multiset(a) && b[0] in multiset(b);
      var i :| 0 <= i < |b| && b[i] == a[0];
      var j :| 0 <= j < |a| && a[j] == b[0];
      LessTotal(a[0], b[0]);
      assert a[0] == b[0];
      DropFirst(a);
      DropFirst(b);
      OneOrder(a[1..], b[1..]);
    }
  }

  // ----- the normal value and its text -----

  function Keys(es: seq<(Str, Value)>): (r: seq<Str>)
    ensures |r| == |es| && forall i :: 0 <= i < |es| ==> r[i] == es[i].0
  {
    seq(|es|, i requires 0 <= i < |es| => es[i].0)
  }

  /** `value[key]`. */
  function Get(es: seq<(Str, Value)>, k: Str): (v: Value)
    requires k in Keys(es)
    ensures (k, v) in es
  {
    if es[0].0 == k then es[0].1
    else
      assert k in Keys(es[1..]) by {
        var i :| 0 <= i < |es| && Keys(es)[i] == k;
        assert Keys(es[1..])[i - 1] == k;
      }
      Get(es[1..], k)
  }

  lemma SortedKeys(es: seq<(Str, Value)>)
    ensures forall i :: 0 <= i < |es| ==> Sorted(Keys(es))[i] in Keys(es)
  {
    var ks := Sorted(Keys(es));
    forall i | 0 <= i < |es| ensures ks[i] in Keys(es) { assert ks[i] in multiset(ks); }
  }

  function Normal(v: Value): Value {
    match v
    case Null => Null
    case Bool(b) => Bool(b)
    case Int(n) => Str(Decimal(n))
    case Str(s) => Str(Units(s))
    case List(items) => List(seq(|items|, i requires 0 <= i < |items| => Normal(items[i])))
    case Dict(es) =>
      SortedKeys(es);
      var ks := Sorted(Keys(es));
      Dict(seq(|es|, i requires 0 <= i < |es| => (Units(ks[i]), Normal(Get(es, ks[i])))))
  }

  function Join(parts: seq<seq<char>>): seq<char> {
    if parts == [] then [] else if |parts| == 1 then parts[0] else parts[0] + [','] + Join(parts[1..])
  }

  /** JSON text without blanks, entries in the order they are listed. */
  function Print(v: Value): seq<char> {
    match v
    case Null => "null"
    case Bool(b) => if b then "true" else "false"
    case Int(n) => Quote(Decimal(n))
    case Str(s) => Quote(s)
    case List(items) => ['['] + Join(seq(|items|, i requires 0 <= i < |items| => Print(items[i]))) + [']']
    case Dict(es) =>
      ['{'] + Join(seq(|es|, i requires 0 <= i < |es| => Quote(es[i].0) + [':'] + Print(es[i].1))) + ['}']
  }

  /** The canonical text. */
  function Text(v: Value): seq<char> {
    Print(Normal(v))
  }

  lemma {:induction false} EscapeConcat(a: Str, b: Str)
    ensures EscapeAll(a + b) == EscapeAll(a) + EscapeAll(b)
  {
    if a == [] {
      assert a + b == b;
    } else {
      assert (a + b)[1..] == a[1..] + b;
      EscapeConcat(a[1..], b);
    }
  }

  /** A string and its code units print alike. */
  lemma {:induction false} UnitsPrintAlike(s: Str)
    ensures EscapeAll(Units(s)) == EscapeAll(s)
  {
    if s != [] {
      UnitsPrintAlike(s[1..]);
      EscapeConcat(PointUnits(s[0]), Units(s[1..]));
      PointPrintsAlike(s[0]);
    }
  }

  lemma PointPrintsAlike(c: CodePoint)
    ensures EscapeAll(PointUnits(c)) == Escape(c)
  {
    hide Hex4;
    var us := PointUnits(c);
    assert EscapeAll([]) == [];
    if |us| == 2 {
      assert us[1..] == [us[1]] && us[1..][1..] == [];
      assert EscapeAll(us) == Escape(us[0]) + (Escape(us[1]) + []);
    } else {
      assert us[1..] == [];
    }
  }

  // ----- the program -----

  /**
    `_stable_serialize`: recursion over lists, a loop over the sorted keys of a dictionary, and
    `json.dumps` for the rest.
  */
  method StableSerialize(value: Value) returns (text: seq<char>)
    ensures text == Text(value)
    decreases value
  {
    match value {
      case Null => text := "null";
      case Bool(b) => text := if b then "true" else "false";
      case Int(n) =>
        text := Quote(Decimal(n));
      case Str(s) =>
        UnitsPrintAlike(s);
        text := Quote(s);
      case List(items) =>
        var parts: seq<seq<char>> := [];
        for i := 0 to |items|
          invariant |parts| == i && forall k :: 0 <= k < i ==> parts[k] == Text(items[k])
        {
          var part := StableSerialize(items[i]);
          parts := parts + [part];
        }
        ghost var normal := Normal(value).items;
        assert parts == seq(|normal|, i requires 0 <= i < |normal| => Print(normal[i]));
        text := ['['] + Join(parts) + [']'];
      case Dict(es) =>
        SortedKeys(es);
        var keys := Sorted(Keys(es));
        var entries: seq<seq<char>> := [];
        for i := 0 to |keys|
          invariant |entries| == i
          invariant forall k :: 0 <= k < i ==> entries[k] == Quote(keys[k]) + [':'] + Text(Get(es, keys[k]))
        {
          var part := StableSerialize(Get(es, keys[i]));
          entries := entries + [Quote(keys[i]) + [':'] + part];
        }
        ghost var normal := Normal(value).entries;
        forall k | 0 <= k < |keys| ensures entries[k] == Quote(normal[k].0) + [':'] + Print(normal[k].1) {
          UnitsPrintAlike(keys[k]);
        }
        assert entries == seq(|normal|, i requires 0 <= i < |normal| => Quote(normal[i].0) + [':'] + Print(normal[i].1));
        text := ['{'] + Join(entries) + ['}'];
    }
  }

  // ----- the reader -----

  predicate Starts(t: seq<char>, c: char) {
    t != [] && t[0] == c
  }

  function ReadValue(t: seq<char>): (r: Option<(Value, seq<char>)>)
    ensures r.Some? ==> |r.value.1| < |t|
    decreases |t|, 1
  {
    if t == [] then None
    else if t[0] == '"' then
      var s := ReadString(t[1..]);
      if s.Some? then Some((Str(s.value.0), s.value.1)) else None
    else if t[0] == '[' then
      if Starts(t[1..], ']') then Some((List([]), t[2..]))
      else
        var r := ReadItems(t[1..]);
        if r.Some? then Some((List(r.value.0), r.value.1)) else None
    else if t[0] == '{' then
      if Starts(t[1..], '}') then Some((Dict([]), t[2..]))
      else
        var r := ReadEntries(t[1..]);
        if r.Some? then Some((Dict(r.value.0), r.value.1)) else None
    else if "null" <= t then Some((Null, t[4..]))
    else if "true" <= t then Some((Bool(true), t[4..]))
    else if "false" <= t then Some((Bool(false), t[5..]))
    else None
  }

  function ReadItems(t: seq<char>): (r: Option<(seq<Value>, seq<char>)>)
    ensures r.Some? ==> |r.value.1| < |t|
    decreases |t|, 2
  {
    var v := ReadValue(t);
    if v.None? then None
    else if Starts(v.value.1, ']') then Some(([v.value.0], v.value.1[1..]))
    else if Starts(v.value.1, ',') then
      var more := ReadItems(v.value.1[1..]);
      if more.Some? then Some(([v.value.0] + more.value.0, more.value.1)) else None
    else None
  }

  function ReadEntry(t: seq<char>): (r: Option<((Str, Value), seq<char>)>)
    ensures r.Some? ==> |r.value.1| < |t|
    decreases |t|, 0
  {
    if !Starts(t, '"') then None
    else
      var k := ReadString(t[1..]);
      if k.None? || !Starts(k.value.1, ':') then None
      else
        var v := ReadValue(k.value.1[1..]);
        if v.None? then None else Some(((k.value.0, v.value.0), v.value.1))
  }

  function ReadEntries(t: seq<char>): (r: Option<(seq<(Str, Value)>, seq<char>)>)
    ensures r.Some? ==> |r.value.1| < |t|
    decreases |t|, 2
  {
    var e := ReadEntry(t);
    if e.None? then None
    else if Starts(e.value.1, '}') then Some(([e.value.0], e.value.1[1..]))
    else if Starts(e.value.1, ',') then
      var more := ReadEntries(e.value.1[1..]);
      if more.Some? then Some(([e.value.0] + more.value.0, more.value.1)) else None
    else None
  }

  // ----- reading back what was printed -----

  /** Values that print and read back unchanged: no integers, only code units in strings. */
  ghost predicate Plain(v: Value) {
    match v
    case Null => true
    case Bool(_) => true
    case Int(_) => false
    case Str(s) => Units(s) == s
    case List(items) => forall i :: 0 <= i < |items| ==> Plain(items[i])
    case Dict(es) => forall i :: 0 <= i < |es| ==> Units(es[i].0) == es[i].0 && Plain(es[i].1)
  }

  lemma {:induction false} UnitsAreUnits(s: Str)
    ensures forall i :: 0 <= i < |Units(s)| ==> Units(s)[i] < 0x10000
  {
    if s != [] { UnitsAreUnits(s[1..]); }
  }

  lemma {:induction false} UnitsOfUnits(us: Str)
    requires forall i :: 0 <= i < |us| ==> us[i] < 0x10000
    ensures Units(us) == us
  {
    if us != [] { UnitsOfUnits(us[1..]); }
  }

  lemma UnitsIdempotent(s: Str)
    ensures Units(Units(s)) == Units(s)
  {
    UnitsAreUnits(s);
    UnitsOfUnits(Units(s));
  }

  lemma {:induction false} NormalIsPlain(v: Value)
    ensures Plain(Normal(v))
    decreases v
  {
    match v {
      case Int(n) => UnitsOfUnits(Decimal(n));
      case Str(s) => UnitsIdempotent(s);
      case List(items) =>
        forall i | 0 <= i < |items| ensures Plain(Normal(items[i])) { NormalIsPlain(items[i]); }
      case Dict(es) =>
        SortedKeys(es);
        var ks := Sorted(Keys(es));
        forall i | 0 <= i < |es| ensures Units(Units(ks[i])) == Units(ks[i]) && Plain(Normal(Get(es, ks[i]))) {
          UnitsIdempotent(ks[i]);
          NormalIsPlain(Get(es, ks[i]));
        }
      case _ =>
    }
  }

  function ItemTexts(items: seq<Value>): (r: seq<seq<char>>)
    ensures |r| == |items| && forall i :: 0 <= i < |items| ==> r[i] == Print(items[i])
  {
    seq(|items|, i requires 0 <= i < |items| => Print(items[i]))
  }

  function EntryText(e: (Str, Value)): seq<char> {
    Quote(e.0) + [':'] + Print(e.1)
  }

  function EntryTexts(es: seq<(Str, Value)>): (r: seq<seq<char>>)
    ensures |r| == |es| && forall i :: 0 <= i < |es| ==> r[i] == EntryText(es[i])
  {
    seq(|es|, i requires 0 <= i < |es| => EntryText(es[i]))
  }

  lemma PrintList(v: Value)
    ensures v.List? ==> Print(v) == ['['] + Join(ItemTexts(v.items)) + [']']
    ensures v.Dict? ==> Print(v) == ['{'] + Join(EntryTexts(v.entries)) + ['}']
  {
    if v.List? {
      assert ItemTexts(v.items) == seq(|v.items|, i requires 0 <= i < |v.items| => Print(v.items[i]));
    }
    if v.Dict? {
      assert EntryTexts(v.entries) == seq(|v.entries|, i requires 0 <= i < |v.entries| => Quote(v.entries[i].0) + [':'] + Print(v.entries[i].1));
    }
  }

  lemma PrintStart(v: Value)
    ensures Print(v) != [] && Print(v)[0] != ']'
  {
  }

  lemma {:induction false} JoinStart(parts: seq<seq<char>>)
    requires parts != [] && parts[0] != []
    ensures Join(parts) != [] && Join(parts)[0] == parts[0][0]
  {
  }

  lemma ReadAtom(v: Value, rest: seq<char>)
    requires Plain(v) && (v.Null? || v.Bool? || v.Str?)
    ensures ReadValue(Print(v) + rest) == Some((v, rest))
  {
    hide ReadString, EscapeAll, Units, ReadItems, ReadEntries, Join;
    var t := Print(v) + rest;
    match v {
      case Null => assert t[4..] == rest;
      case Bool(b) => assert t[(if b then 4 else 5)..] == rest;
      case Str(s) =>
        StringRoundTrip(s, rest);
        assert t[1..] == EscapeAll(s) + ['"'] + rest;
    }
  }

  lemma ReadList(body: seq<char>, items: seq<Value>, rest: seq<char>)
    requires body != [] && body[0] != ']' && ReadItems(body) == Some((items, rest))
    ensures ReadValue(['['] + body) == Some((List(items), rest))
  {
    hide ReadItems, ReadEntries, ReadString;
    assert (['['] + body)[1..] == body;
  }

  lemma ReadDict(body: seq<char>, es: seq<(Str, Value)>, rest: seq<char>)
    requires body != [] && body[0] != '}' && ReadEntries(body) == Some((es, rest))
    ensures ReadValue(['{'] + body) == Some((Dict(es), rest))
  {
    hide ReadItems, ReadEntries, ReadString;
    assert (['{'] + body)[1..] == body;
  }

  lemma ReadEmpty(rest: seq<char>)
    ensures ReadValue(['[', ']'] + rest) == Some((List([]), rest))
    ensures ReadValue(['{', '}'] + rest) == Some((Dict([]), rest))
  {
    assert (['[', ']'] + rest)[2..] == rest && (['{', '}'] + rest)[2..] == rest;
  }

  /** The reader recovers a printed value, whatever text follows it. */
  lemma {:induction false} ReadPrint(v: Value, rest: seq<char>)
    requires Plain(v)
    ensures ReadValue(Print(v) + rest) == Some((v, rest))
    decreases v, 1, 0
  {
    hide ReadValue, ReadItems, ReadEntries, Print, Quote;
    PrintList(v);
    match v {
      case List(items) =>
        if items == [] {
          ReadEmpty(rest);
          assert Print(v) + rest == ['[', ']'] + rest;
        } else {
          var body := Join(ItemTexts(items)) + [']'] + rest;
          PrintStart(items[0]);
          JoinStart(ItemTexts(items));
          assert items[0..] == items;
          ReadPrintItems(v, 0, rest);
          ReadList(body, items, rest);
          assert Print(v) + rest == ['['] + body;
        }
      case Dict(es) =>
        if es == [] {
          ReadEmpty(rest);
          assert Print(v) + rest == ['{', '}'] + rest;
        } else {
          var body := Join(EntryTexts(es)) + ['}'] + rest;
          EntryStart(es[0]);
          JoinStart(EntryTexts(es));
          assert es[0..] == es;
          ReadPrintEntries(v, 0, rest);
          ReadDict(body, es, rest);
          assert Print(v) + rest == ['{'] + body;
        }
      case _ => ReadAtom(v, rest);
    }
  }

  lemma EntryStart(e: (Str, Value))
    ensures EntryText(e) != [] && EntryText(e)[0] == '"'
  {
  }

  lemma {:induction false} ReadPrintItems(v: Value, i: nat, rest: seq<char>)
    requires Plain(v) && v.List? && i < |v.items|
    ensures ReadItems(Join(ItemTexts(v.items[i..])) + [']'] + rest) == Some((v.items[i..], rest))
    decreases v, 0, |v.items| - i
  {
    hide ReadValue, Plain, Print;
    var items := v.items[i..];
    var parts, t := ItemTexts(items), Join(ItemTexts(items)) + [']'] + rest;
    assert Plain(items[0]) by { ItemPlain(v, i); }
    if |items| == 1 {
      assert t == Print(items[0]) + ([']'] + rest);
      ReadPrint(v.items[i], [']'] + rest);
      assert ([']'] + rest)[1..] == rest && items == [items[0]];
    } else {
      var more := Join(ItemTexts(v.items[i + 1..])) + [']'] + rest;
      assert parts[1..] == ItemTexts(v.items[i + 1..]);
      assert t == Print(items[0]) + ([','] + more);
      ReadPrint(v.items[i], [','] + more);
      assert ([','] + more)[1..] == more;
      ReadPrintItems(v, i + 1, rest);
      assert items == [items[0]] + v.items[i + 1..];
    }
  }

  lemma ItemPlain(v: Value, i: nat)
    requires Plain(v) && ((v.List? && i < |v.items|) || (v.Dict? && i < |v.entries|))
    ensures v.List? ==> Plain(v.items[i])
    ensures v.Dict? ==> Plain(v.entries[i].1) && Units(v.entries[i].0) == v.entries[i].0
  {
  }

  lemma {:induction false} ReadPrintEntries(v: Value, i: nat, rest: seq<char>)
    requires Plain(v) && v.Dict? && i < |v.entries|
    ensures ReadEntries(Join(EntryTexts(v.entries[i..])) + ['}'] + rest) == Some((v.entries[i..], rest))
    decreases v, 0, |v.entries| - i
  {
    hide ReadEntry, EntryText, Plain;
    var es := v.entries[i..];
    var parts, t := EntryTexts(es), Join(EntryTexts(es)) + ['}'] + rest;
    ItemPlain(v, i);
    if |es| == 1 {
      assert t == EntryText(es[0]) + (['}'] + rest);
      ReadPrint(v.entries[i].1, ['}'] + rest);
      ReadPrintEntry(es[0], ['}'] + rest);
      assert (['}'] + rest)[1..] == rest && es == [es[0]];
    } else {
      var more := Join(EntryTexts(v.entries[i + 1..])) + ['}'] + rest;
      assert parts[1..] == EntryTexts(v.entries[i + 1..]);
      assert t == EntryText(es[0]) + ([','] + more);
      ReadPrint(v.entries[i].1, [','] + more);
      ReadPrintEntry(es[0], [','] + more);
      assert ([','] + more)[1..] == more;
      ReadPrintEntries(v, i + 1, rest);
      assert es == [es[0]] + v.entries[i + 1..];
    }
  }

  lemma ReadPrintEntry(e: (Str, Value), rest: seq<char>)
    requires Units(e.0) == e.0 && ReadValue(Print(e.1) + rest) == Some((e.1, rest))
    ensures ReadEntry(EntryText(e) + rest) == Some((e, rest))
  {
    hide ReadValue, Print, ReadString, EscapeAll, Units;
    var text := Print(e.1) + rest;
    var after := [':'] + text;
    var body := EscapeAll(e.0) + ['"'] + after;
    StringRoundTrip(e.0, after);
    assert EntryText(e) + rest == ['"'] + body;
    assert (['"'] + body)[1..] == body && after[1..] == text;
  }

  // ----- main results -----

  /**
    Unique decodability: from the canonical text of any value, with any text after it, the reader
    recovers the normal value and where the text ends. So no canonical text is a proper prefix of
    another.
  */
  lemma TextRoundTrip(v: Value, rest: seq<char>)
    ensures ReadValue(Text(v) + rest) == Some((Normal(v), rest))
  {
    NormalIsPlain(v);
    ReadPrint(Normal(v), rest);
  }

  /** Two values have the same canonical text exactly when they have the same normal value. */
  lemma SameTextIffSameNormal(v: Value, w: Value)
    ensures Text(v) == Text(w) <==> Normal(v) == Normal(w)
  {
    TextRoundTrip(v, []);
    TextRoundTrip(w, []);
    assert Text(v) + [] == Text(v) && Text(w) + [] == Text(w);
  }

  ghost predicate Distinct(ks: seq<Str>) {
    forall i, j :: 0 <= i < j < |ks| ==> ks[i] != ks[j]
  }

  /** What Python guarantees of a dictionary: a key occurs once. */
  ghost predicate WellFormed(v: Value) {
    match v
    case List(items) => forall i :: 0 <= i < |items| ==> WellFormed(items[i])
    case Dict(es) => Distinct(Keys(es)) && forall i :: 0 <= i < |es| ==> WellFormed(es[i].1)
    case _ => true
  }

  /** No string in the value splits a code point above 0xFFFF into two surrogates. */
  ghost predicate CleanValue(v: Value) {
    match v
    case Str(s) => Clean(s)
    case List(items) => forall i :: 0 <= i < |items| ==> CleanValue(items[i])
    case Dict(es) => forall i :: 0 <= i < |es| ==> Clean(es[i].0) && CleanValue(es[i].1)
    case _ => true
  }

  function Scalar(v: Value): Option<Str> {
    match v
    case Int(n) => Some(Decimal(n))
    case Str(s) => Some(s)
    case _ => None
  }

  /** Python equality that ignores insertion order and takes an integer for its decimal string. */
  ghost predicate Same(v: Value, w: Value) {
    match v
    case Null => w.Null?
    case Bool(b) => w == v
    case Int(n) => Scalar(v) == Scalar(w)
    case Str(s) => Scalar(v) == Scalar(w)
    case List(items) =>
      w.List? && |items| == |w.items| && forall i :: 0 <= i < |items| ==> Same(items[i], w.items[i])
    case Dict(es) =>
      w.Dict? && (forall k :: k in Keys(es) <==> k in Keys(w.entries))
      && forall k :: k in Keys(es) ==> Same(Get(es, k), Get(w.entries, k))
  }

  lemma {:induction false} CountDistinct(ks: seq<Str>, k: Str)
    requires Distinct(ks)
    ensures multiset(ks)[k] == if k in ks then 1 else 0
  {
    if ks != [] {
      assert ks == [ks[0]] + ks[1..];
      CountDistinct(ks[1..], k);
    }
  }

  /** The order of insertion does not matter to the sorted keys. */
  lemma SameSortedKeys(a: seq<Str>, b: seq<Str>)
    requires Distinct(a) && Distinct(b) && forall k :: k in a <==> k in b
    ensures Sorted(a) == Sorted(b)
  {
    forall k ensures multiset(a)[k] == multiset(b)[k] {
      CountDistinct(a, k);
      CountDistinct(b, k);
    }
    assert multiset(a) == multiset(b);
    SortedInOrder(a);
    SortedInOrder(b);
    OneOrder(Sorted(a), Sorted(b));
  }

  lemma GetMember(v: Value, k: Str)
    requires v.Dict? && k in Keys(v.entries)
    ensures WellFormed(v) ==> WellFormed(Get(v.entries, k))
    ensures CleanValue(v) ==> CleanValue(Get(v.entries, k)) && Clean(k)
  {
    var i :| 0 <= i < |v.entries| && v.entries[i] == (k, Get(v.entries, k));
  }

  lemma SameDicts(a: seq<(Str, Value)>, b: seq<(Str, Value)>)
    requires Distinct(Keys(a)) && Distinct(Keys(b)) && forall k :: k in Keys(a) <==> k in Keys(b)
    requires forall k :: k in Keys(a) ==> Normal(Get(a, k)) == Normal(Get(b, k))
    ensures Normal(Dict(a)) == Normal(Dict(b))
  {
    hide Get, Units, Sorted;
    SortedKeys(a);
    SortedKeys(b);
    SameSortedKeys(Keys(a), Keys(b));
    var x, y, ks := Normal(Dict(a)).entries, Normal(Dict(b)).entries, Sorted(Keys(a));
    assert |x| == |y| by { assert |Sorted(Keys(b))| == |b|; }
    forall i | 0 <= i < |x| ensures x[i] == y[i] { assert ks[i] in Keys(a); }
  }

  lemma {:induction false} SameNormal(v: Value, w: Value)
    requires WellFormed(v) && WellFormed(w) && Same(v, w)
    ensures Normal(v) == Normal(w)
    decreases v
  {
    match v {
      case List(items) =>
        forall i | 0 <= i < |items| ensures Normal(items[i]) == Normal(w.items[i]) { SameNormal(items[i], w.items[i]); }
      case Dict(es) =>
        forall k | k in Keys(es) ensures Normal(Get(es, k)) == Normal(Get(w.entries, k)) {
          GetMember(v, k);
          GetMember(w, k);
          SameNormal(Get(es, k), Get(w.entries, k));
        }
        SameDicts(es, w.entries);
      case Int(n) => ScalarNormal(v); ScalarNormal(w);
      case Str(s) => ScalarNormal(v); ScalarNormal(w);
      case _ =>
    }
  }

  lemma {:induction false} AsciiUnits(s: Str)
    requires forall i :: 0 <= i < |s| ==> s[i] < 0x10000
    ensures Units(s) == s
  {
    UnitsOfUnits(s);
  }

  lemma ScalarNormal(v: Value)
    requires Scalar(v).Some?
    ensures Normal(v) == Str(Units(Scalar(v).value))
    ensures CleanValue(v) ==> Clean(Scalar(v).value)
  {
    if v.Int? { AsciiUnits(Decimal(v.n)); }
  }

  lemma {:induction false} NormalSame(v: Value, w: Value)
    requires CleanValue(v) && CleanValue(w) && Normal(v) == Normal(w)
    ensures Same(v, w)
    decreases v
  {
    match v {
      case List(items) =>
        var a, b := Normal(v).items, Normal(w).items;
        forall i | 0 <= i < |items| ensures Same(items[i], w.items[i]) {
          assert a[i] == Normal(items[i]) && b[i] == Normal(w.items[i]);
          NormalSame(items[i], w.items[i]);
        }
      case Dict(es) => NormalSameEntries(v, w);
      case Int(n) => ScalarSame(v, w);
      case Str(s) => ScalarSame(v, w);
      case _ =>
    }
  }

  lemma ScalarSame(v: Value, w: Value)
    requires CleanValue(v) && CleanValue(w) && Normal(v) == Normal(w) && Scalar(v).Some?
    ensures Scalar(w) == Scalar(v)
  {
    ScalarNormal(v);
    ScalarNormal(w);
    PointsRoundTrip(Scalar(v).value);
    PointsRoundTrip(Scalar(w).value);
  }

  lemma {:induction false} NormalSameEntries(v: Value, w: Value)
    requires v.Dict? && CleanValue(v) && CleanValue(w) && Normal(v) == Normal(w)
    ensures Same(v, w)
    decreases v, 0
  {
    hide Get, Sorted, Units;
    var es, fs := v.entries, w.entries;
    SortedKeys(es);
    SortedKeys(fs);
    var a, b, ks, ls := Normal(v).entries, Normal(w).entries, Sorted(Keys(es)), Sorted(Keys(fs));
    forall i | 0 <= i < |ks| ensures ks[i] == ls[i] && Normal(Get(es, ks[i])) == Normal(Get(fs, ls[i])) {
      assert a[i] == (Units(ks[i]), Normal(Get(es, ks[i]))) && b[i] == (Units(ls[i]), Normal(Get(fs, ls[i])));
      GetMember(v, ks[i]);
      GetMember(w, ls[i]);
      PointsRoundTrip(ks[i]);
      PointsRoundTrip(ls[i]);
    }
    assert ks == ls;
    forall k ensures k in Keys(es) <==> k in Keys(fs) {
      assert k in multiset(ks) <==> k in multiset(Keys(es));
      assert k in multiset(ls) <==> k in multiset(Keys(fs));
    }
    forall k | k in Keys(es) ensures Same(Get(es, k), Get(fs, k)) {
      assert k in multiset(ks);
      var i :| 0 <= i < |ks| && ks[i] == k;
      GetMember(v, k);
      GetMember(w, k);
      NormalSame(Get(es, k), Get(fs, k));
    }
  }

  /**
    Two values have the same canonical text exactly when they are the same up to insertion order,
    at every depth, and up to writing an integer as its decimal string.
  */
  lemma SameTextIffSame(v: Value, w: Value)
    requires WellFormed(v) && WellFormed(w) && CleanValue(v) && CleanValue(w)
    ensures Text(v) == Text(w) <==> Same(v, w)
  {
    SameTextIffSameNormal(v, w);
    if Same(v, w) { SameNormal(v, w); }
    if Normal(v) == Normal(w) { NormalSame(v, w); }
  }

  /** Independence of insertion order needs no assumption on the strings. */
  lemma InsertionOrderInvisible(v: Value, w: Value)
    requires WellFormed(v) && WellFormed(w) && Same(v, w)
    ensures Text(v) == Text(w)
  {
    SameNormal(v, w);
  }

  /** Outside clean strings the text is ambiguous: a split surrogate pair reads as one character. */
  lemma SplitPairAmbiguous()
    ensures Text(Str([0x1F600])) == Text(Str([0xD83D, 0xDE00])) && !Same(Str([0x1F600]), Str([0xD83D, 0xDE00]))
  {
    SplitPairCollides();
    UnitsPrintAlike([0x1F600]);
    UnitsPrintAlike([0xD83D, 0xDE00]);
  }

  /** The string with its surrogate pairs joined. */
  function Joined(s: Str): Str {
    Points(Units(s))
  }

  /** Strings print alike exactly when joining their surrogate pairs makes them equal. */
  lemma SameTextIffJoined(s: Str, t: Str)
    ensures Text(Str(s)) == Text(Str(t)) <==> Joined(s) == Joined(t)
  {
    SameTextIffSameNormal(Str(s), Str(t));
    ScalarNormal(Str(s));
    ScalarNormal(Str(t));
    UnitsOfPoints(Units(s));
    UnitsOfPoints(Units(t));
  }

  /**
    Exactly the unclean strings print like another, clean string: a string contains a split
    surrogate pair if and only if some other string that contains none has the same text.
  */
  lemma CollidesIffUnclean(s: Str)
    ensures !Clean(s) <==> exists c :: Clean(c) && c != s && Text(Str(c)) == Text(Str(s))
    ensures Clean(Joined(s)) && Text(Str(Joined(s))) == Text(Str(s))
  {
    hide Units, Points, Clean, Text;
    PointsAreClean(Units(s));
    UnitsOfPoints(Units(s));
    SameTextIffJoined(Joined(s), s);
    if Clean(s) {
      PointsRoundTrip(s);
      forall c | Clean(c) && Text(Str(c)) == Text(Str(s)) ensures c == s {
        SameTextIffJoined(c, s);
        PointsRoundTrip(c);
      }
    }
  }
}
