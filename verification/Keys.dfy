/** Texts in code point order. */
module Keys {

  /** Strictly earlier in code point order, the order run IDs and object keys are
      sorted by. */
  predicate Before(a: string, b: string) {
    b != "" && (a == "" || a[0] < b[0] || (a[0] == b[0] && Before(a[1..], b[1..])))
  }

  lemma {:induction false} BeforeIsAnOrder(a: string, b: string)
    ensures a == b || Before(a, b) || Before(b, a)
    ensures !(Before(a, b) && Before(b, a)) && !(a == b && Before(a, b))
    decreases |a|
  {
    if a != "" && b != "" {
      BeforeIsAnOrder(a[1..], b[1..]);
      assert a == [a[0]] + a[1..] && b == [b[0]] + b[1..];
    }
  }

  lemma {:induction false} BeforeIsTransitive(a: string, b: string, c: string)
    requires Before(a, b) && Before(b, c)
    ensures Before(a, c)
    decreases |a|
  {
    if a != "" && a[0] == b[0] == c[0] {
      BeforeIsTransitive(a[1..], b[1..], c[1..]);
    }
  }

  predicate IsLeast(k: string, s: set<string>) {
    k in s && forall q :: q in s && q != k ==> Before(k, q)
  }

  lemma {:induction false} LeastExists(s: set<string>)
    requires s != {}
    ensures exists k :: IsLeast(k, s)
    decreases |s|
  {
    var x :| x in s;
    if s == {x} {
      assert IsLeast(x, s);
    } else {
      LeastExists(s - {x});
      var k :| IsLeast(k, s - {x});
      BeforeIsAnOrder(k, x);
      if Before(k, x) {
        assert IsLeast(k, s);
      } else {
        forall q | q in s && q != x ensures Before(x, q) {
          if q != k { BeforeIsTransitive(x, k, q); }
        }
        assert IsLeast(x, s);
      }
    }
  }

  lemma LeastIsUnique(k: string, q: string, s: set<string>)
    requires IsLeast(k, s) && IsLeast(q, s)
    ensures k == q
  {
    if k != q { BeforeIsAnOrder(k, q); }
  }

  lemma OnlyOneIsLeast(s: set<string>)
    ensures forall k, q :: IsLeast(k, s) && IsLeast(q, s) ==> k == q
  {
    forall k, q | IsLeast(k, s) && IsLeast(q, s) ensures k == q { LeastIsUnique(k, q, s); }
  }

  /** The keys of a table or an object in code point order. */
  function SortedKeys(s: set<string>): seq<string>
    decreases |s|
  {
    if s == {} then []
    else
      LeastExists(s);
      OnlyOneIsLeast(s);
      var k :| k in s && IsLeast(k, s);
      [k] + SortedKeys(s - {k})
  }

  lemma SortedKeysStep(s: set<string>, k: string)
    requires IsLeast(k, s)
    ensures SortedKeys(s) == [k] + SortedKeys(s - {k})
  {
    var q :| IsLeast(q, s) && SortedKeys(s) == [q] + SortedKeys(s - {q});
    LeastIsUnique(k, q, s);
  }

  lemma OneKeyOn(keys: seq<string>, done: seq<string>, rest: set<string>, run: string)
    requires keys == done + SortedKeys(rest) && IsLeast(run, rest)
    ensures keys == done + [run] + SortedKeys(rest - {run})
  {
    SortedKeysStep(rest, run);
  }

  lemma {:induction false} SortedKeysFacts(s: set<string>)
    ensures forall k :: k in SortedKeys(s) <==> k in s
    ensures forall i, j :: 0 <= i < j < |SortedKeys(s)| ==> Before(SortedKeys(s)[i], SortedKeys(s)[j])
    decreases |s|
  {
    if s != {} {
      LeastExists(s);
      var k :| IsLeast(k, s);
      SortedKeysStep(s, k);
      SortedKeysFacts(s - {k});
    }
  }
}
