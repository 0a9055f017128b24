/** The canonical text determines the value it was made from. */
module JsonLaws {
  import opened Text
  import opened Keys
  import opened Json

  // ------------------------------------------------------------- concatenation

  lemma SamePrefix(p: string, q: string, r: string, s: string)
    requires p + r == q + s && |p| == |q|
    ensures p == q && r == s
  {
    assert p == (p + r)[..|p|] && q == (q + s)[..|q|];
    assert r == (p + r)[|p|..] && s == (q + s)[|q|..];
  }

  lemma Assoc(a: string, b: string, c: string)
    ensures (a + b) + c == a + (b + c)
  {}

  // ---------------------------------------------------------------- characters

  lemma HexCharInjective(a: nat, b: nat)
    requires a < 16 && b < 16 && HexChar(a) == HexChar(b)
    ensures a == b
  {}

  lemma Hex4Injective(m: nat, n: nat)
    requires m < 0x10000 && n < 0x10000 && Hex4(m) == Hex4(n)
    ensures m == n
  {
    var x, y := Hex4(m), Hex4(n);
    assert x[0] == y[0] && x[1] == y[1] && x[2] == y[2] && x[3] == y[3];
    HexCharInjective(m / 4096, n / 4096);
    HexCharInjective(m / 256 % 16, n / 256 % 16);
    HexCharInjective(m / 16 % 16, n / 16 % 16);
    HexCharInjective(m % 16, n % 16);
    HexDigitsOf(m);
    HexDigitsOf(n);
  }

  lemma HexDigitsOf(n: nat)
    ensures n == 4096 * (n / 4096) + 256 * (n / 256 % 16) + 16 * (n / 16 % 16) + n % 16
  {
    assert n == 16 * (n / 16) + n % 16;
    assert n / 16 == 16 * (n / 256) + n / 16 % 16;
    assert n / 256 == 16 * (n / 4096) + n / 256 % 16;
  }

  /** The scalar values a character can have leave out the surrogates. */
  predicate Scalar(n: nat) {
    n < 0xD800 || 0xE000 <= n
  }

  function Unit(n: nat): nat
    requires n < 0x110000
  {
    if n < 0x10000 then n else 0xD800 + (n - 0x10000) / 0x400
  }

  function Pair(n: nat): string
    requires n < 0x110000
  {
    if n < 0x10000 then "" else "\\u" + Hex4(0xDC00 + (n - 0x10000) % 0x400)
  }

  lemma UnicodeEscapeParts(n: nat)
    requires n < 0x110000
    ensures UnicodeEscape(n) == ("\\u" + Hex4(Unit(n))) + Pair(n)
  {}

  lemma UnitReads(x: nat, y: nat, r: string, s: string)
    requires x < 0x10000 && y < 0x10000 && ("\\u" + Hex4(x)) + r == ("\\u" + Hex4(y)) + s
    ensures x == y && r == s
  {
    SamePrefix("\\u" + Hex4(x), "\\u" + Hex4(y), r, s);
    SamePrefix("\\u", "\\u", Hex4(x), Hex4(y));
    Hex4Injective(x, y);
  }

  lemma PairReads(m: nat, n: nat, r: string, s: string)
    requires m < 0x110000 && n < 0x110000 && Scalar(m) && Scalar(n) && Unit(m) == Unit(n) && Pair(m) + r == Pair(n) + s
    ensures m == n && r == s
  {
    if m < 0x10000 {
      assert n < 0x10000;
      SamePrefix("", "", r, s);
    } else {
      assert n >= 0x10000;
      UnitReads(0xDC00 + (m - 0x10000) % 0x400, 0xDC00 + (n - 0x10000) % 0x400, r, s);
    }
  }

  /** A unicode escape can be told from what follows it. */
  lemma UnicodeEscapeReads(m: nat, n: nat, r: string, s: string)
    requires m < 0x110000 && n < 0x110000 && Scalar(m) && Scalar(n)
    requires UnicodeEscape(m) + r == UnicodeEscape(n) + s
    ensures m == n && r == s
  {
    UnicodeEscapeParts(m);
    UnicodeEscapeParts(n);
    Assoc("\\u" + Hex4(Unit(m)), Pair(m), r);
    Assoc("\\u" + Hex4(Unit(n)), Pair(n), s);
    UnitReads(Unit(m), Unit(n), Pair(m) + r, Pair(n) + s);
    PairReads(m, n, r, s);
  }

  lemma ShortEscapeInjective(c: char, d: char)
    requires ShortEscape(c) == ShortEscape(d) != ""
    ensures c == d
  {
    assert ShortEscape(c)[0] == ShortEscape(d)[0];
  }

  lemma ShortEscapeIsNotUnicode(c: char)
    ensures ShortEscape(c) != "" ==> |ShortEscape(c)| == 1 && ShortEscape(c)[0] != 'u'
  {}

  datatype Kind = Short | Unicode | Raw

  function KindOf(ascii: bool, c: char): Kind {
    if ShortEscape(c) != "" then Short else if c < ' ' || (ascii && c > '~') then Unicode else Raw
  }

  /** The first two characters tell the kinds of escape apart. */
  lemma EscapeLead(ascii: bool, c: char, r: string)
    ensures var t := Escape(ascii, c) + r;
            && t != "" && t[0] != '"'
            && match KindOf(ascii, c)
               case Raw => t[0] == c && c != '\\'
               case Short => |t| > 1 && t[0] == '\\' && t[1] == ShortEscape(c)[0] && t[1] != 'u'
               case Unicode => |t| > 1 && t[0] == '\\' && t[1] == 'u' && Escape(ascii, c) == UnicodeEscape(c as int)
  {
    ShortEscapeIsNotUnicode(c);
  }

  lemma EscapeReads(ascii: bool, c: char, d: char, r: string, s: string)
    requires Escape(ascii, c) + r == Escape(ascii, d) + s
    ensures c == d && r == s
  {
    EscapeLead(ascii, c, r);
    EscapeLead(ascii, d, s);
    match KindOf(ascii, c)
    case Raw => SamePrefix([c], [d], r, s);
    case Short =>
      ShortEscapeIsNotUnicode(c);
      ShortEscapeIsNotUnicode(d);
      SamePrefix("\\" + ShortEscape(c), "\\" + ShortEscape(d), r, s);
      SamePrefix("\\", "\\", ShortEscape(c), ShortEscape(d));
      ShortEscapeInjective(c, d);
    case Unicode => UnicodeEscapeReads(c as int, d as int, r, s);
  }

  lemma {:induction false} EscapesRead(ascii: bool, s: string, t: string, r: string, u: string)
    requires EscapeAll(ascii, s) + ("\"" + r) == EscapeAll(ascii, t) + ("\"" + u)
    ensures s == t && r == u
    decreases |s|
  {
    if s == "" && t == "" {
      assert "" + ("\"" + r) == "\"" + r && "" + ("\"" + u) == "\"" + u;
      SamePrefix("\"", "\"", r, u);
    } else if s == "" {
      Assoc(Escape(ascii, t[0]), EscapeAll(ascii, t[1..]), "\"" + u);
      EscapeLead(ascii, t[0], EscapeAll(ascii, t[1..]) + ("\"" + u));
      assert false;
    } else if t == "" {
      Assoc(Escape(ascii, s[0]), EscapeAll(ascii, s[1..]), "\"" + r);
      EscapeLead(ascii, s[0], EscapeAll(ascii, s[1..]) + ("\"" + r));
      assert false;
    } else {
      Assoc(Escape(ascii, s[0]), EscapeAll(ascii, s[1..]), "\"" + r);
      Assoc(Escape(ascii, t[0]), EscapeAll(ascii, t[1..]), "\"" + u);
      EscapeReads(ascii, s[0], t[0], EscapeAll(ascii, s[1..]) + ("\"" + r), EscapeAll(ascii, t[1..]) + ("\"" + u));
      EscapesRead(ascii, s[1..], t[1..], r, u);
    }
  }

  lemma QuoteReads(ascii: bool, s: string, t: string, r: string, u: string)
    requires Quote(ascii, s) + r == Quote(ascii, t) + u
    ensures s == t && r == u
  {
    var p, q := EscapeAll(ascii, s) + ("\"" + r), EscapeAll(ascii, t) + ("\"" + u);
    assert Quote(ascii, s) + r == "\"" + p && Quote(ascii, t) + u == "\"" + q;
    SamePrefix("\"", "\"", p, q);
    EscapesRead(ascii, s, t, r, u);
  }

  // ------------------------------------------------------------------- numbers

  /** What can stand after a value. */
  predicate Ends(t: string) {
    t == "" || t[0] == ',' || t[0] == ']' || t[0] == '}'
  }

  predicate NumberText(t: string) {
    t != "" && forall i :: 0 <= i < |t| ==> NumberChar(t[i])
  }

  lemma NumberIsNoLonger(p: string, q: string, r: string, s: string)
    requires NumberText(q) && Ends(r) && p + r == q + s
    ensures |q| <= |p|
  {
    if r != "" { assert (q + s)[|p|] == r[0]; }
  }

  lemma NumbersRead(p: string, q: string, r: string, s: string)
    requires NumberText(p) && NumberText(q) && Ends(r) && Ends(s) && p + r == q + s
    ensures p == q && r == s
  {
    NumberIsNoLonger(p, q, r, s);
    NumberIsNoLonger(q, p, s, r);
    SamePrefix(p, q, r, s);
  }

  lemma NumberIsText(i: int)
    ensures NumberText(Number(i)) && !FloatText(Number(i))
  {}

  lemma NumberInjective(i: int, j: int)
    requires Number(i) == Number(j)
    ensures i == j
  {
    var a, b := if i < 0 then -i else i, if j < 0 then -j else j;
    assert IsDigit(Decimal(a)[0]) && IsDigit(Decimal(b)[0]);
    if i < 0 { assert Number(i)[0] == '-' && Number(i)[1..] == Decimal(a); }
    if j < 0 { assert Number(j)[0] == '-' && Number(j)[1..] == Decimal(b); }
    assert Decimal(a) == Decimal(b);
    NumberOfDecimal(a);
    NumberOfDecimal(b);
  }

  function NumberOr(j: Json): string {
    if j.Int? then Number(j.i) else if j.Float? then j.text else ""
  }

  lemma NumbersTell(a: Json, b: Json, r: string, s: string)
    requires (a.Int? || (a.Float? && FloatText(a.text))) && (b.Int? || (b.Float? && FloatText(b.text)))
    requires Ends(r) && Ends(s) && NumberOr(a) + r == NumberOr(b) + s
    ensures a == b && r == s
  {
    if a.Int? { NumberIsText(a.i); }
    if b.Int? { NumberIsText(b.i); }
    NumbersRead(NumberOr(a), NumberOr(b), r, s);
    if a.Int? && b.Int? { NumberInjective(a.i, b.i); }
  }

  // -------------------------------------------------------------------- values

  datatype Class = Nulls | Trues | Falses | Numbers | Strings | Arrays | Objects

  function ClassOf(j: Json): Class {
    match j
    case Null => Nulls
    case Bool(b) => if b then Trues else Falses
    case Str(_) => Strings
    case Arr(_) => Arrays
    case Obj(_) => Objects
    case _ => Numbers
  }

  predicate LeadsWith(c: char, k: Class) {
    match k
    case Nulls => c == 'n'
    case Trues => c == 't'
    case Falses => c == 'f'
    case Numbers => NumberChar(c)
    case Strings => c == '"'
    case Arrays => c == '['
    case Objects => c == '{'
  }

  lemma CanonicalLead(ascii: bool, j: Json)
    requires Proper(j)
    ensures Canonical(ascii, j) != "" && LeadsWith(Canonical(ascii, j)[0], ClassOf(j))
  {
    if j.Int? { NumberIsText(j.i); }
  }

  lemma SameClass(ascii: bool, a: Json, b: Json, r: string, s: string)
    requires Proper(a) && Proper(b) && Canonical(ascii, a) + r == Canonical(ascii, b) + s
    ensures ClassOf(a) == ClassOf(b)
  {
    CanonicalLead(ascii, a);
    CanonicalLead(ascii, b);
    assert Canonical(ascii, a)[0] == (Canonical(ascii, a) + r)[0] == Canonical(ascii, b)[0];
  }

  lemma ItemsAfterEnds(ascii: bool, items: seq<Json>, r: string)
    ensures Ends(ItemsAfter(ascii, items) + r)
  {
    assert (ItemsAfter(ascii, items) + r)[0] == ItemsAfter(ascii, items)[0];
  }

  lemma MembersAfterEnds(ascii: bool, j: Json, keys: seq<string>, r: string)
    requires j.Obj? && forall k :: k in keys ==> k in j.fields
    ensures Ends(MembersAfter(ascii, j, keys) + r)
  {
    assert (MembersAfter(ascii, j, keys) + r)[0] == MembersAfter(ascii, j, keys)[0];
  }

  /** Values told apart by their first characters. */
  lemma ScalarsRead(ascii: bool, a: Json, b: Json, r: string, s: string)
    requires Proper(a) && Proper(b) && Ends(r) && Ends(s) && !a.Arr? && !a.Obj?
    requires Canonical(ascii, a) + r == Canonical(ascii, b) + s
    ensures a == b && r == s
  {
    SameClass(ascii, a, b, r, s);
    match a
    case Str(_) => QuoteReads(ascii, a.s, b.s, r, s);
    case Int(_) => NumbersTell(a, b, r, s);
    case Float(_) => NumbersTell(a, b, r, s);
    case _ => SamePrefix(Canonical(ascii, a), Canonical(ascii, b), r, s);
  }

  lemma ArrayReads(ascii: bool, a: Json, b: Json, r: string, s: string)
    requires Proper(a) && Proper(b) && a.Arr? && Canonical(ascii, a) + r == Canonical(ascii, b) + s
    ensures b.Arr? && Items(ascii, a.items) + r == Items(ascii, b.items) + s
  {
    SameClass(ascii, a, b, r, s);
    Assoc("[", Items(ascii, a.items), r);
    Assoc("[", Items(ascii, b.items), s);
    SamePrefix("[", "[", Items(ascii, a.items) + r, Items(ascii, b.items) + s);
  }

  function Body(ascii: bool, j: Json): string
    requires j.Obj?
  {
    SortedKeysFacts(j.fields.Keys);
    Members(ascii, j, SortedKeys(j.fields.Keys))
  }

  lemma ObjectReads(ascii: bool, a: Json, b: Json, r: string, s: string)
    requires Proper(a) && Proper(b) && a.Obj? && Canonical(ascii, a) + r == Canonical(ascii, b) + s
    ensures b.Obj? && Body(ascii, a) + r == Body(ascii, b) + s
  {
    SameClass(ascii, a, b, r, s);
    Assoc("{", Body(ascii, a), r);
    Assoc("{", Body(ascii, b), s);
    SamePrefix("{", "{", Body(ascii, a) + r, Body(ascii, b) + s);
  }

  /** The text of a value can be told from what follows it, so it determines the
      value. */
  lemma {:induction false} ValuesRead(ascii: bool, a: Json, b: Json, r: string, s: string)
    requires Proper(a) && Proper(b) && Ends(r) && Ends(s)
    requires Canonical(ascii, a) + r == Canonical(ascii, b) + s
    ensures a == b && r == s
    decreases a, 1, 0
  {
    if a.Arr? {
      ArrayReads(ascii, a, b, r, s);
      ItemsRead(ascii, a.items, b.items, r, s);
    } else if a.Obj? {
      ObjectReads(ascii, a, b, r, s);
      SortedKeysFacts(a.fields.Keys);
      SortedKeysFacts(b.fields.Keys);
      MembersRead(ascii, a, b, SortedKeys(a.fields.Keys), SortedKeys(b.fields.Keys), r, s);
      SameFields(a, b);
    } else {
      ScalarsRead(ascii, a, b, r, s);
    }
  }

  lemma SameFields(a: Json, b: Json)
    requires a.Obj? && b.Obj? && SortedKeys(a.fields.Keys) == SortedKeys(b.fields.Keys)
    requires forall k :: k in SortedKeys(a.fields.Keys) && k in a.fields && k in b.fields ==> a.fields[k] == b.fields[k]
    ensures a == b
  {
    SortedKeysFacts(a.fields.Keys);
    SortedKeysFacts(b.fields.Keys);
    assert forall k :: k in a.fields <==> k in b.fields;
    assert a.fields == b.fields;
  }

  lemma ItemsStep(ascii: bool, items: seq<Json>, r: string)
    requires items != []
    ensures Items(ascii, items) + r == Canonical(ascii, items[0]) + (ItemsAfter(ascii, items[1..]) + r)
  {}

  /** Either both lists are empty or neither is. */
  lemma ItemsBegin(ascii: bool, a: seq<Json>, b: seq<Json>, r: string, s: string)
    requires (forall i :: 0 <= i < |a| ==> Proper(a[i])) && (forall i :: 0 <= i < |b| ==> Proper(b[i]))
    requires Items(ascii, a) + r == Items(ascii, b) + s
    ensures a == [] <==> b == []
  {
    assert (Items(ascii, a) + r)[0] == Items(ascii, a)[0] && (Items(ascii, b) + s)[0] == Items(ascii, b)[0];
    if a != [] { CanonicalLead(ascii, a[0]); assert Items(ascii, a)[0] == Canonical(ascii, a[0])[0]; }
    if b != [] { CanonicalLead(ascii, b[0]); assert Items(ascii, b)[0] == Canonical(ascii, b[0])[0]; }
  }

  lemma {:induction false} ItemsRead(ascii: bool, a: seq<Json>, b: seq<Json>, r: string, s: string)
    requires (forall i :: 0 <= i < |a| ==> Proper(a[i])) && (forall i :: 0 <= i < |b| ==> Proper(b[i]))
    requires Items(ascii, a) + r == Items(ascii, b) + s
    ensures a == b && r == s
    decreases a, 0, 0
  {
    ItemsBegin(ascii, a, b, r, s);
    if a == [] {
      SamePrefix("]", "]", r, s);
    } else {
      ItemsStep(ascii, a, r);
      ItemsStep(ascii, b, s);
      ItemsAfterEnds(ascii, a[1..], r);
      ItemsAfterEnds(ascii, b[1..], s);
      ValuesRead(ascii, a[0], b[0], ItemsAfter(ascii, a[1..]) + r, ItemsAfter(ascii, b[1..]) + s);
      ItemsAfterRead(ascii, a[1..], b[1..], r, s);
      assert a == [a[0]] + a[1..] && b == [b[0]] + b[1..];
    }
  }

  lemma {:induction false} ItemsAfterRead(ascii: bool, a: seq<Json>, b: seq<Json>, r: string, s: string)
    requires (forall i :: 0 <= i < |a| ==> Proper(a[i])) && (forall i :: 0 <= i < |b| ==> Proper(b[i]))
    requires ItemsAfter(ascii, a) + r == ItemsAfter(ascii, b) + s
    ensures a == b && r == s
    decreases a, 1, 0
  {
    assert (ItemsAfter(ascii, a) + r)[0] == ItemsAfter(ascii, a)[0];
    assert (ItemsAfter(ascii, b) + s)[0] == ItemsAfter(ascii, b)[0];
    if a == [] {
      SamePrefix("]", "]", r, s);
    } else {
      Assoc(",", Items(ascii, a), r);
      Assoc(",", Items(ascii, b), s);
      SamePrefix(",", ",", Items(ascii, a) + r, Items(ascii, b) + s);
      ItemsRead(ascii, a, b, r, s);
    }
  }

  predicate KeysOf(j: Json, keys: seq<string>) {
    j.Obj? && forall k :: k in keys ==> k in j.fields
  }

  lemma MembersStep(ascii: bool, j: Json, keys: seq<string>, r: string)
    requires KeysOf(j, keys) && keys != []
    ensures Members(ascii, j, keys) + r ==
            Quote(ascii, keys[0]) + (":" + (Canonical(ascii, j.fields[keys[0]]) + (MembersAfter(ascii, j, keys[1..]) + r)))
  {}

  lemma {:induction false} MembersRead(ascii: bool, a: Json, b: Json, ka: seq<string>, kb: seq<string>, r: string, s: string)
    requires Proper(a) && Proper(b) && KeysOf(a, ka) && KeysOf(b, kb)
    requires Members(ascii, a, ka) + r == Members(ascii, b, kb) + s
    ensures ka == kb && r == s && forall k :: k in ka ==> a.fields[k] == b.fields[k]
    decreases a, 0, 2 * |ka|
  {
    assert (Members(ascii, a, ka) + r)[0] == Members(ascii, a, ka)[0];
    assert (Members(ascii, b, kb) + s)[0] == Members(ascii, b, kb)[0];
    if ka == [] {
      SamePrefix("}", "}", r, s);
    } else {
      var x, y := ka[0], kb[0];
      var ra, rb := MembersAfter(ascii, a, ka[1..]) + r, MembersAfter(ascii, b, kb[1..]) + s;
      var va, vb := Canonical(ascii, a.fields[x]) + ra, Canonical(ascii, b.fields[y]) + rb;
      MembersStep(ascii, a, ka, r);
      MembersStep(ascii, b, kb, s);
      QuoteReads(ascii, x, y, ":" + va, ":" + vb);
      SamePrefix(":", ":", va, vb);
      MembersAfterEnds(ascii, a, ka[1..], r);
      MembersAfterEnds(ascii, b, kb[1..], s);
      ValuesRead(ascii, a.fields[x], b.fields[y], ra, rb);
      MembersAfterRead(ascii, a, b, ka[1..], kb[1..], r, s);
      assert ka == [x] + ka[1..] && kb == [y] + kb[1..];
    }
  }

  lemma {:induction false} MembersAfterRead(
      ascii: bool, a: Json, b: Json, ka: seq<string>, kb: seq<string>, r: string, s: string)
    requires Proper(a) && Proper(b) && KeysOf(a, ka) && KeysOf(b, kb)
    requires MembersAfter(ascii, a, ka) + r == MembersAfter(ascii, b, kb) + s
    ensures ka == kb && r == s && forall k :: k in ka ==> a.fields[k] == b.fields[k]
    decreases a, 0, 2 * |ka| + 1
  {
    assert (MembersAfter(ascii, a, ka) + r)[0] == MembersAfter(ascii, a, ka)[0];
    assert (MembersAfter(ascii, b, kb) + s)[0] == MembersAfter(ascii, b, kb)[0];
    if ka == [] {
      SamePrefix("}", "}", r, s);
    } else {
      Assoc(",", Members(ascii, a, ka), r);
      Assoc(",", Members(ascii, b, kb), s);
      SamePrefix(",", ",", Members(ascii, a, ka) + r, Members(ascii, b, kb) + s);
      MembersRead(ascii, a, b, ka, kb, r, s);
    }
  }

  /** Two finite values have the same canonical text exactly when they are equal. */
  lemma CanonicalTextDecides(ascii: bool, a: Json, b: Json)
    requires Proper(a) && Proper(b)
    ensures Canonical(ascii, a) == Canonical(ascii, b) <==> a == b
  {
    if Canonical(ascii, a) == Canonical(ascii, b) {
      assert Canonical(ascii, a) + "" == Canonical(ascii, b) + "";
      ValuesRead(ascii, a, b, "", "");
    }
  }
}
