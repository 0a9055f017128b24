/** When the scorer's escaped text and the host's unescaped text are the same. */
module JsonText {
  import opened Text
  import opened Keys
  import opened Json
  import opened JsonLaws

  predicate Printable(t: string) {
    forall i :: 0 <= i < |t| ==> ' ' <= t[i] <= '~'
  }

  predicate PlainString(s: string) {
    forall i :: 0 <= i < |s| ==> s[i] <= '~'
  }

  /** No key or string in it has a character beyond the tilde. */
  predicate Plain(j: Json) {
    match j
    case Str(s) => PlainString(s)
    case Arr(items) => forall i :: 0 <= i < |items| ==> Plain(items[i])
    case Obj(fields) => forall k :: k in fields ==> PlainString(k) && Plain(fields[k])
    case _ => true
  }

  lemma PrintableParts(a: string, b: string)
    ensures Printable(a + b) <==> Printable(a) && Printable(b)
  {
    if Printable(a + b) {
      forall i | 0 <= i < |a| ensures ' ' <= a[i] <= '~' { assert (a + b)[i] == a[i]; }
      forall i | 0 <= i < |b| ensures ' ' <= b[i] <= '~' { assert (a + b)[|a| + i] == b[i]; }
    }
  }

  // ------------------------------------------------- the scorer's text is ASCII

  lemma Hex4IsPrintable(n: nat)
    requires n < 0x10000
    ensures Printable("\\u" + Hex4(n))
  {}

  lemma EscapeIsPrintable(c: char)
    ensures Printable(Escape(true, c))
  {
    if KindOf(true, c) == Unicode {
      var n := c as int;
      UnicodeEscapeParts(n);
      Hex4IsPrintable(Unit(n));
      if n >= 0x10000 { Hex4IsPrintable(0xDC00 + (n - 0x10000) % 0x400); }
      PrintableParts("\\u" + Hex4(Unit(n)), Pair(n));
    }
  }

  lemma {:induction false} QuoteIsPrintable(s: string)
    ensures Printable(EscapeAll(true, s)) && Printable(Quote(true, s))
  {
    if s != "" {
      EscapeIsPrintable(s[0]);
      QuoteIsPrintable(s[1..]);
      PrintableParts(Escape(true, s[0]), EscapeAll(true, s[1..]));
    }
  }

  lemma {:induction false} CanonicalIsPrintable(j: Json)
    requires Proper(j)
    ensures Printable(Canonical(true, j))
    decreases j, 1, 0
  {
    match j
    case Int(i) => NumberIsText(i);
    case Str(s) => QuoteIsPrintable(s);
    case Arr(items) =>
      ItemsArePrintable(items);
      PrintableParts("[", Items(true, items));
    case Obj(fields) =>
      SortedKeysFacts(fields.Keys);
      MembersArePrintable(j, SortedKeys(fields.Keys));
      PrintableParts("{", Body(true, j));
    case _ =>
  }

  lemma {:induction false} ItemsArePrintable(items: seq<Json>)
    requires forall i :: 0 <= i < |items| ==> Proper(items[i])
    ensures Printable(Items(true, items)) && Printable(ItemsAfter(true, items))
    decreases items, 0, 0
  {
    if items != [] {
      CanonicalIsPrintable(items[0]);
      ItemsArePrintable(items[1..]);
      PrintableParts(Canonical(true, items[0]), ItemsAfter(true, items[1..]));
      PrintableParts(",", Items(true, items));
    }
  }

  lemma MemberIsPrintable(k: string, value: string, after: string)
    requires Printable(value) && Printable(after)
    ensures Printable(Quote(true, k) + ":" + (value + after))
  {
    QuoteIsPrintable(k);
    PrintableParts(value, after);
    PrintableParts(Quote(true, k), ":");
    PrintableParts(Quote(true, k) + ":", value + after);
  }

  lemma {:induction false} MembersArePrintable(j: Json, keys: seq<string>)
    requires Proper(j) && KeysOf(j, keys)
    ensures Printable(Members(true, j, keys)) && Printable(MembersAfter(true, j, keys))
    decreases j, 0, |keys|
  {
    if keys != [] {
      CanonicalIsPrintable(j.fields[keys[0]]);
      MembersArePrintable(j, keys[1..]);
      MemberIsPrintable(keys[0], Canonical(true, j.fields[keys[0]]), MembersAfter(true, j, keys[1..]));
      PrintableParts(",", Members(true, j, keys));
    }
  }

  // ---------------------------------------------------- plain values look the same

  lemma {:induction false} PlainQuotes(s: string)
    requires PlainString(s)
    ensures EscapeAll(true, s) == EscapeAll(false, s)
  {
    if s != "" {
      assert PlainString(s[1..]);
      PlainQuotes(s[1..]);
    }
  }

  lemma {:induction false} PlainTexts(j: Json)
    requires Plain(j)
    ensures Canonical(true, j) == Canonical(false, j)
    decreases j, 1, 0
  {
    match j
    case Str(s) => PlainQuotes(s);
    case Arr(items) => PlainItems(items);
    case Obj(fields) =>
      SortedKeysFacts(fields.Keys);
      PlainMembers(j, SortedKeys(fields.Keys));
    case _ =>
  }

  lemma {:induction false} PlainItems(items: seq<Json>)
    requires forall i :: 0 <= i < |items| ==> Plain(items[i])
    ensures Items(true, items) == Items(false, items) && ItemsAfter(true, items) == ItemsAfter(false, items)
    decreases items, 0, 0
  {
    if items != [] {
      PlainTexts(items[0]);
      PlainItems(items[1..]);
    }
  }

  lemma {:induction false} PlainMembers(j: Json, keys: seq<string>)
    requires Plain(j) && KeysOf(j, keys)
    ensures Members(true, j, keys) == Members(false, j, keys) && MembersAfter(true, j, keys) == MembersAfter(false, j, keys)
    decreases j, 0, |keys|
  {
    if keys != [] {
      PlainQuotes(keys[0]);
      PlainTexts(j.fields[keys[0]]);
      PlainMembers(j, keys[1..]);
    }
  }

  // ------------------------------------------------ printable host text is plain

  lemma HighCharactersShow(c: char)
    requires Printable(Escape(false, c))
    ensures c <= '~'
  {
    assert ' ' <= Escape(false, c)[0] <= '~';
  }

  lemma {:induction false} PrintableQuotes(s: string)
    requires Printable(EscapeAll(false, s))
    ensures PlainString(s)
  {
    if s != "" {
      PrintableParts(Escape(false, s[0]), EscapeAll(false, s[1..]));
      PrintableQuotes(s[1..]);
      HighCharactersShow(s[0]);
      forall i | 0 <= i < |s| ensures s[i] <= '~' {
        if i > 0 { assert s[i] == s[1..][i - 1]; }
      }
    }
  }

  lemma PrintableQuote(s: string)
    requires Printable(Quote(false, s))
    ensures PlainString(s)
  {
    PrintableParts("\"" + EscapeAll(false, s), "\"");
    PrintableParts("\"", EscapeAll(false, s));
    PrintableQuotes(s);
  }

  lemma {:induction false} PrintableIsPlain(j: Json)
    requires Printable(Canonical(false, j))
    ensures Plain(j)
    decreases j, 1, 0
  {
    match j
    case Str(s) => PrintableQuote(s);
    case Arr(items) =>
      PrintableParts("[", Items(false, items));
      PrintableItems(items);
    case Obj(fields) =>
      SortedKeysFacts(fields.Keys);
      PrintableParts("{", Body(false, j));
      PrintableMembers(j, SortedKeys(fields.Keys));
    case _ =>
  }

  lemma {:induction false} PrintableItems(items: seq<Json>)
    requires Printable(Items(false, items))
    ensures forall i :: 0 <= i < |items| ==> Plain(items[i])
    decreases items, 0, 0
  {
    if items != [] {
      var rest := items[1..];
      PrintableParts(Canonical(false, items[0]), ItemsAfter(false, rest));
      PrintableIsPlain(items[0]);
      if rest != [] {
        PrintableParts(",", Items(false, rest));
        PrintableItems(rest);
      }
      forall i | 0 <= i < |items| ensures Plain(items[i]) {
        if i > 0 { assert items[i] == rest[i - 1]; }
      }
    }
  }

  lemma PrintableMember(k: string, value: string, after: string)
    requires Printable(Quote(false, k) + ":" + (value + after))
    ensures PlainString(k) && Printable(value) && Printable(after)
  {
    PrintableParts(Quote(false, k) + ":", value + after);
    PrintableParts(Quote(false, k), ":");
    PrintableParts(value, after);
    PrintableQuote(k);
  }

  lemma {:induction false} PrintableMembers(j: Json, keys: seq<string>)
    requires KeysOf(j, keys) && Printable(Members(false, j, keys))
    ensures forall k :: k in keys ==> PlainString(k) && Plain(j.fields[k])
    decreases j, 0, |keys|
  {
    if keys != [] {
      var k, rest := keys[0], keys[1..];
      PrintableMember(k, Canonical(false, j.fields[k]), MembersAfter(false, j, rest));
      PrintableIsPlain(j.fields[k]);
      if rest != [] {
        PrintableParts(",", Members(false, j, rest));
        PrintableMembers(j, rest);
      }
    }
  }

  /** The scorer and the host render a value alike exactly when no string in it goes
      beyond the tilde. */
  lemma TextsAgreeOnPlainValues(j: Json)
    requires Proper(j)
    ensures Canonical(true, j) == Canonical(false, j) <==> Plain(j)
  {
    CanonicalIsPrintable(j);
    if Plain(j) { PlainTexts(j); }
    if Canonical(true, j) == Canonical(false, j) { PrintableIsPlain(j); }
  }

  /** Text in one escaping is never the text of another value in the other one: who
      decodes it need not know which was used. */
  lemma EitherTextDecides(f: bool, g: bool, a: Json, b: Json)
    requires Proper(a) && Proper(b) && Canonical(f, a) == Canonical(g, b)
    ensures a == b
  {
    if f == g {
      CanonicalTextDecides(f, a, b);
    } else {
      var escaped, bare := if f then a else b, if f then b else a;
      CanonicalIsPrintable(escaped);
      PrintableIsPlain(bare);
      PlainTexts(bare);
      CanonicalTextDecides(true, escaped, bare);
    }
  }
}
