/** The language the patch parser accepts, by what it renders from. */
module PatchLaws {
  import opened Usage
  import opened Patch

  // ---------------------------------------------------------------- the grammar

  function Olds(body: seq<string>): nat {
    if body == [] then 0 else (if InOld(body[0]) then 1 else 0) + Olds(body[1..])
  }

  function News(body: seq<string>): nat {
    if body == [] then 0 else (if InNew(body[0]) then 1 else 0) + News(body[1..])
  }

  function Changes(body: seq<string>): nat {
    if body == [] then 0 else (if IsChange(body[0]) then 1 else 0) + Changes(body[1..])
  }

  predicate BodyShaped(body: seq<string>) {
    forall i :: 0 <= i < |body| ==> IsMarker(body[i]) || BodyLine(body[i])
  }

  datatype Hunk = Hunk(header: string, body: seq<string>)

  /** The body has as many old and new lines as its header declares; a marker may
      stand anywhere but first, unless nothing at all is declared. */
  predicate ValidHunk(r: Headers, h: Hunk) {
    && r.hunk(h.header).Some? && ShortNumbers(r.hunk(h.header).value) && BodyShaped(h.body)
    && Olds(h.body) == CountOf(r.hunk(h.header).value.oldCount)
    && News(h.body) == CountOf(r.hunk(h.header).value.newCount)
    && (h.body != [] && IsMarker(h.body[0]) ==> Olds(h.body) == 0 && News(h.body) == 0)
  }

  predicate ValidHunks(r: Headers, hs: seq<Hunk>) {
    forall i :: 0 <= i < |hs| ==> ValidHunk(r, hs[i])
  }

  function HunkLines(hs: seq<Hunk>): seq<string> {
    if hs == [] then [] else [hs[0].header] + hs[0].body + HunkLines(hs[1..])
  }

  function TotalChanges(hs: seq<Hunk>): nat {
    if hs == [] then 0 else Changes(hs[0].body) + TotalChanges(hs[1..])
  }

  datatype Section = Section(header: string, index: Option<string>, path: string, hunks: seq<Hunk>)

  function IndexLines(index: Option<string>): seq<string> {
    if index == None then [] else [index.value]
  }

  function SectionLines(s: Section): seq<string> {
    [s.header] + IndexLines(s.index) + [OLD_PREFIX + s.path, NEW_PREFIX + s.path] + HunkLines(s.hunks)
  }

  predicate ValidIndex(r: Headers, index: Option<string>) {
    index == None || r.index(index.value) == Some(None) || r.index(index.value) == Some(Some(REGULAR_MODE))
  }

  /** A section that may follow sections for these paths. */
  predicate ValidSection(r: Headers, policy: Policy, paths: seq<string>, s: Section) {
    && r.diff(s.header) == Some(DiffPaths(s.path, s.path)) && Admits(policy, paths, DiffPaths(s.path, s.path))
    && ValidIndex(r, s.index)
    && s.hunks != [] && ValidHunks(r, s.hunks) && TotalChanges(s.hunks) > 0
  }

  predicate ValidSections(r: Headers, policy: Policy, paths: seq<string>, ss: seq<Section>)
    decreases |ss|
  {
    ss == [] || (ValidSection(r, policy, paths, ss[0]) && ValidSections(r, policy, paths + [ss[0].path], ss[1..]))
  }

  function PatchLines(ss: seq<Section>): seq<string> {
    if ss == [] then [] else SectionLines(ss[0]) + PatchLines(ss[1..])
  }

  function PathsOf(ss: seq<Section>): seq<string> {
    if ss == [] then [] else [ss[0].path] + PathsOf(ss[1..])
  }

  // ----------------------------------------------------------------- hunk bodies

  lemma MarkersCountNothing(l: string)
    requires IsMarker(l)
    ensures !InOld(l) && !InNew(l) && !IsChange(l) && !(HUNK_PREFIX <= l)
  {
    assert l[0] == '\\';
  }

  lemma {:induction false} AllMarkers(body: seq<string>)
    requires forall i :: 0 <= i < |body| ==> IsMarker(body[i])
    ensures Olds(body) == 0 && News(body) == 0 && Changes(body) == 0
  {
    if body != [] {
      MarkersCountNothing(body[0]);
      AllMarkers(body[1..]);
    }
  }

  lemma {:induction false} ZeroCounts(body: seq<string>)
    requires BodyShaped(body) && Olds(body) == 0 && News(body) == 0
    ensures forall i :: 0 <= i < |body| ==> IsMarker(body[i])
  {
    if body != [] {
      assert BodyShaped(body[1..]) by { forall i | 0 <= i < |body| - 1 ensures body[1..][i] == body[i + 1] {} }
      ZeroCounts(body[1..]);
      forall i | 0 <= i < |body| ensures IsMarker(body[i]) {
        if i > 0 { assert body[i] == body[1..][i - 1]; }
      }
    }
  }

  lemma {:induction false} CountsConcat(a: seq<string>, b: seq<string>)
    ensures Olds(a + b) == Olds(a) + Olds(b) && News(a + b) == News(a) + News(b)
    ensures Changes(a + b) == Changes(a) + Changes(b)
  {
    if a == [] {
      assert a + b == b;
    } else {
      CountsConcat(a[1..], b);
      assert (a + b)[1..] == a[1..] + b;
    }
  }

  lemma FirstLine(lines: seq<string>, i: nat, j: nat)
    requires i < j <= |lines|
    ensures lines[i..j] == [lines[i]] + lines[i + 1..j]
    ensures lines[i..j][1..] == lines[i + 1..j] && lines[i..j][0] == lines[i]
    ensures BodyShaped(lines[i..j]) <==> (IsMarker(lines[i]) || BodyLine(lines[i])) && BodyShaped(lines[i + 1..j])
  {
    var a, b := lines[i..j], lines[i + 1..j];
    if BodyShaped(a) {
      forall k | 0 <= k < |b| ensures IsMarker(b[k]) || BodyLine(b[k]) { assert b[k] == a[k + 1]; }
    }
    if (IsMarker(lines[i]) || BodyLine(lines[i])) && BodyShaped(b) {
      forall k | 0 <= k < |a| ensures IsMarker(a[k]) || BodyLine(a[k]) {
        if k > 0 { assert a[k] == b[k - 1]; }
      }
    }
  }

  lemma {:induction false} BodyIsSound(lines: seq<string>, start: nat, i: nat, o: nat, n: nat, c: nat)
    requires start <= i <= |lines| && Body(lines, start, i, o, n, c).Some?
    ensures var k := Body(lines, start, i, o, n, c).value;
            var taken := lines[i..k.next];
            && BodyShaped(taken) && Olds(taken) == o && News(taken) == n && k.changes == c + Changes(taken)
            && (i == start && taken != [] ==> !IsMarker(taken[0]))
    decreases |lines| - i
  {
    var k := Body(lines, start, i, o, n, c).value;
    if o == 0 && n == 0 {
      assert lines[i..i] == [];
    } else {
      var l := lines[i];
      if IsMarker(l) {
        MarkersCountNothing(l);
        BodyIsSound(lines, start, i + 1, o, n, c);
      } else {
        BodyIsSound(lines, start, i + 1, if InOld(l) then o - 1 else o, if InNew(l) then n - 1 else n,
                    if IsChange(l) then c + 1 else c);
      }
      FirstLine(lines, i, k.next);
    }
  }

  lemma {:induction false} BodyIsComplete(lines: seq<string>, start: nat, i: nat, j: nat, o: nat, n: nat, c: nat)
    requires start <= i <= j <= |lines| && BodyShaped(lines[i..j])
    requires Olds(lines[i..j]) == o && News(lines[i..j]) == n
    requires i == start && i < j && IsMarker(lines[i]) ==> o == 0 && n == 0
    ensures Body(lines, start, i, o, n, c).Some?
    ensures var k := Body(lines, start, i, o, n, c).value;
            k.next <= j && k.changes == c + Changes(lines[i..j]) && forall x :: k.next <= x < j ==> IsMarker(lines[x])
    decreases j - i
  {
    if o == 0 && n == 0 {
      ZeroCounts(lines[i..j]);
      AllMarkers(lines[i..j]);
      forall x | i <= x < j ensures IsMarker(lines[x]) { assert lines[x] == lines[i..j][x - i]; }
    } else {
      assert i < j;
      FirstLine(lines, i, j);
      var l := lines[i];
      if IsMarker(l) {
        MarkersCountNothing(l);
        BodyIsComplete(lines, start, i + 1, j, o, n, c);
      } else {
        BodyIsComplete(lines, start, i + 1, j, if InOld(l) then o - 1 else o, if InNew(l) then n - 1 else n,
                       if IsChange(l) then c + 1 else c);
      }
    }
  }

  lemma {:induction false} SkippingStops(lines: seq<string>, i: nat, j: nat)
    requires i <= j <= |lines| && (forall k :: i <= k < j ==> IsMarker(lines[k])) && (j < |lines| ==> !IsMarker(lines[j]))
    ensures SkipMarkers(lines, i) == j
    decreases j - i
  {
    if i < j { SkippingStops(lines, i + 1, j); }
  }

  // --------------------------------------------------------------------- slices

  lemma SliceJoins(lines: seq<string>, i: nat, k: nat, j: nat)
    requires i <= k <= j <= |lines|
    ensures lines[i..j] == lines[i..k] + lines[k..j]
  {}

  lemma SliceSplits(lines: seq<string>, i: nat, j: nat, a: seq<string>, b: seq<string>)
    requires i <= j <= |lines| && lines[i..j] == a + b
    ensures i + |a| <= j && lines[i..i + |a|] == a && lines[i + |a|..j] == b
  {
    assert |lines[i..j]| == j - i;
    assert lines[i..i + |a|] == lines[i..j][..|a|] == (a + b)[..|a|] == a;
    assert lines[i + |a|..j] == lines[i..j][|a|..] == (a + b)[|a|..] == b;
  }

  lemma SliceOfOne(lines: seq<string>, i: nat)
    requires i < |lines|
    ensures lines[i..i + 1] == [lines[i]]
  {}

  // ---------------------------------------------------------------------- hunks

  lemma HunkIsSound(r: Headers, lines: seq<string>, i: nat)
    requires i < |lines| && HunkAt(r, lines, i).Some?
    ensures var p := HunkAt(r, lines, i).value;
            var h := Hunk(lines[i], lines[i + 1..p.next]);
            && ValidHunk(r, h) && Changes(h.body) == p.changes && (p.next < |lines| ==> !IsMarker(lines[p.next]))
  {
    var p := HunkAt(r, lines, i).value;
    var n := r.hunk(lines[i]).value;
    var o, w := CountOf(n.oldCount), CountOf(n.newCount);
    BodyIsSound(lines, i + 1, i + 1, o, w, 0);
    var k := Body(lines, i + 1, i + 1, o, w, 0).value.next;
    var body, counted, rest := lines[i + 1..p.next], lines[i + 1..k], lines[k..p.next];
    assert body == counted + rest;
    CountsConcat(counted, rest);
    AllMarkers(rest);
    if counted == [] { assert o == 0 && w == 0; } else { assert body[0] == counted[0]; }
  }

  lemma HunkIsComplete(r: Headers, lines: seq<string>, i: nat, h: Hunk)
    requires ValidHunk(r, h) && i < |lines| && i + 1 + |h.body| <= |lines|
    requires lines[i] == h.header && lines[i + 1..i + 1 + |h.body|] == h.body
    requires i + 1 + |h.body| < |lines| ==> !IsMarker(lines[i + 1 + |h.body|])
    ensures HunkAt(r, lines, i) == Some(Parsed(i + 1 + |h.body|, Changes(h.body)))
  {
    var n := r.hunk(h.header).value;
    var j := i + 1 + |h.body|;
    if h.body != [] { assert lines[i + 1] == h.body[0]; }
    BodyIsComplete(lines, i + 1, i + 1, j, CountOf(n.oldCount), CountOf(n.newCount), 0);
    SkippingStops(lines, Body(lines, i + 1, i + 1, CountOf(n.oldCount), CountOf(n.newCount), 0).value.next, j);
  }

  lemma HunkLinesCons(h: Hunk, rest: seq<Hunk>)
    ensures HunkLines([h] + rest) == ([h.header] + h.body) + HunkLines(rest)
    ensures TotalChanges([h] + rest) == Changes(h.body) + TotalChanges(rest)
  {
    assert ([h] + rest)[1..] == rest;
  }

  lemma JoinHunk(lines: seq<string>, i: nat, k: nat, end: nat, h: Hunk, text: seq<string>)
    requires i < k <= end <= |lines| && h == Hunk(lines[i], lines[i + 1..k]) && lines[k..end] == text
    ensures lines[i..end] == ([h.header] + h.body) + text
  {
    SliceOfOne(lines, i);
    SliceJoins(lines, i, i + 1, k);
    SliceJoins(lines, i, k, end);
  }

  lemma OneMoreHunk(r: Headers, h: Hunk, rest: seq<Hunk>)
    requires ValidHunk(r, h) && ValidHunks(r, rest)
    ensures ValidHunks(r, [h] + rest)
  {
    forall x | 0 <= x < |[h] + rest| ensures ValidHunk(r, ([h] + rest)[x]) {
      if x > 0 { assert ([h] + rest)[x] == rest[x - 1]; }
    }
  }

  lemma HunksAtStep(r: Headers, lines: seq<string>, i: nat, n: nat, c: nat)
    requires i <= |lines| && HunksAt(r, lines, i, n, c).Some?
    ensures if i < |lines| && HUNK_PREFIX <= lines[i] then
              HunkAt(r, lines, i).Some?
              && HunksAt(r, lines, i, n, c) ==
                 HunksAt(r, lines, HunkAt(r, lines, i).value.next, n + 1, c + HunkAt(r, lines, i).value.changes)
            else HunksAt(r, lines, i, n, c) == Some(Counted(i, n, c))
  {}

  lemma {:induction false} HunksAreSound(r: Headers, lines: seq<string>, i: nat, n: nat, c: nat, end: Counted) returns (hs: seq<Hunk>)
    requires i <= |lines| && HunksAt(r, lines, i, n, c) == Some(end)
    ensures i <= end.next <= |lines| && lines[i..end.next] == HunkLines(hs) && ValidHunks(r, hs)
    ensures end.hunks == n + |hs| && end.changes == c + TotalChanges(hs)
    decreases |lines| - i
  {
    HunksAtStep(r, lines, i, n, c);
    if i < |lines| && HUNK_PREFIX <= lines[i] {
      var p := HunkAt(r, lines, i).value;
      HunkIsSound(r, lines, i);
      var h := Hunk(lines[i], lines[i + 1..p.next]);
      var rest := HunksAreSound(r, lines, p.next, n + 1, c + p.changes, end);
      hs := [h] + rest;
      OneMoreHunk(r, h, rest);
      HunkLinesCons(h, rest);
      JoinHunk(lines, i, p.next, end.next, h, HunkLines(rest));
    } else {
      hs := [];
    }
  }

  predicate Stops(lines: seq<string>, j: nat) {
    j < |lines| ==> !(HUNK_PREFIX <= lines[j]) && !IsMarker(lines[j])
  }

  lemma HunkHeadersAreNoMarkers(r: Headers, l: string)
    requires Anchored(r) && r.hunk(l).Some?
    ensures HUNK_PREFIX <= l && !IsMarker(l)
  {
    if IsMarker(l) { MarkersCountNothing(l); }
  }

  lemma FirstHunk(lines: seq<string>, i: nat, j: nat, h: Hunk, text: seq<string>)
    requires i <= j <= |lines| && lines[i..j] == ([h.header] + h.body) + text
    ensures var k := i + 1 + |h.body|;
            k <= j && lines[i] == h.header && lines[i + 1..k] == h.body && lines[k..j] == text
  {
    var k := i + 1 + |h.body|;
    SliceSplits(lines, i, j, [h.header] + h.body, text);
    SliceSplits(lines, i, k, [h.header], h.body);
    SliceOfOne(lines, i);
  }

  lemma FirstHeader(lines: seq<string>, k: nat, j: nat, hs: seq<Hunk>)
    requires k <= j <= |lines| && lines[k..j] == HunkLines(hs) && hs != []
    ensures k < j && lines[k] == hs[0].header
  {
    assert lines[k..j][0] == hs[0].header;
  }

  lemma RestIsValid(r: Headers, hs: seq<Hunk>)
    requires ValidHunks(r, hs) && hs != []
    ensures ValidHunk(r, hs[0]) && ValidHunks(r, hs[1..])
  {
    forall x | 0 <= x < |hs| - 1 ensures ValidHunk(r, hs[1..][x]) { assert hs[1..][x] == hs[x + 1]; }
  }

  /** After a hunk comes another's header, or what stops the hunks; never a marker. */
  lemma NoMarkerFollows(r: Headers, lines: seq<string>, k: nat, j: nat, rest: seq<Hunk>)
    requires Anchored(r) && ValidHunks(r, rest) && k <= j <= |lines| && lines[k..j] == HunkLines(rest) && Stops(lines, j)
    ensures k < |lines| ==> !IsMarker(lines[k])
  {
    if rest != [] {
      FirstHeader(lines, k, j, rest);
      assert ValidHunk(r, rest[0]);
      HunkHeadersAreNoMarkers(r, rest[0].header);
    } else {
      assert |lines[k..j]| == 0;
    }
  }

  lemma HunksAtNext(r: Headers, lines: seq<string>, i: nat, n: nat, c: nat, p: Parsed)
    requires i < |lines| && HUNK_PREFIX <= lines[i] && HunkAt(r, lines, i) == Some(p)
    ensures HunksAt(r, lines, i, n, c) == HunksAt(r, lines, p.next, n + 1, c + p.changes)
  {}

  lemma NoHunks(r: Headers, lines: seq<string>, i: nat, j: nat, n: nat, c: nat)
    requires i <= j <= |lines| && lines[i..j] == [] && Stops(lines, j)
    ensures HunksAt(r, lines, i, n, c) == Some(Counted(j, n, c))
  {
    assert |lines[i..j]| == 0;
  }

  /** A whole hunk ends at k, and no marker comes after it. */
  predicate HunkStands(lines: seq<string>, i: nat, k: nat, h: Hunk) {
    && k == i + 1 + |h.body| <= |lines| && lines[i] == h.header && lines[i + 1..k] == h.body
    && (k < |lines| ==> !IsMarker(lines[k]))
  }

  lemma HunkStep(r: Headers, lines: seq<string>, i: nat, k: nat, h: Hunk, n: nat, c: nat, d: nat)
    requires Anchored(r) && ValidHunk(r, h) && HunkStands(lines, i, k, h) && d == c + Changes(h.body)
    ensures HunksAt(r, lines, i, n, c) == HunksAt(r, lines, k, n + 1, d)
  {
    HunkHeadersAreNoMarkers(r, h.header);
    HunkIsComplete(r, lines, i, h);
    HunksAtNext(r, lines, i, n, c, Parsed(k, Changes(h.body)));
  }

  lemma HunkPlace(r: Headers, lines: seq<string>, i: nat, j: nat, h: Hunk, rest: seq<Hunk>, text: seq<string>) returns (k: nat)
    requires Anchored(r) && ValidHunks(r, rest) && i <= j <= |lines| && Stops(lines, j)
    requires lines[i..j] == ([h.header] + h.body) + text && text == HunkLines(rest)
    ensures k <= j && lines[k..j] == text && HunkStands(lines, i, k, h)
  {
    k := i + 1 + |h.body|;
    FirstHunk(lines, i, j, h, text);
    NoMarkerFollows(r, lines, k, j, rest);
  }

  lemma FirstHunkLines(hs: seq<Hunk>)
    requires hs != []
    ensures HunkLines(hs) == [hs[0].header] + hs[0].body + HunkLines(hs[1..])
  {}

  lemma FirstHunkCounts(hs: seq<Hunk>, j: nat, n: nat, c: nat, d: nat)
    requires hs != [] && d == c + Changes(hs[0].body)
    ensures Counted(j, n + |hs|, c + TotalChanges(hs)) == Counted(j, n + 1 + |hs[1..]|, d + TotalChanges(hs[1..]))
  {}

  ghost predicate HunksStand(r: Headers, lines: seq<string>, i: nat, j: nat, hs: seq<Hunk>) {
    ValidHunks(r, hs) && i <= j <= |lines| && lines[i..j] == HunkLines(hs) && Stops(lines, j)
  }

  lemma NextHunkStands(r: Headers, lines: seq<string>, i: nat, j: nat, hs: seq<Hunk>) returns (k: nat)
    requires Anchored(r) && hs != [] && HunksStand(r, lines, i, j, hs)
    ensures ValidHunk(r, hs[0]) && HunkStands(lines, i, k, hs[0]) && HunksStand(r, lines, k, j, hs[1..])
  {
    RestIsValid(r, hs);
    FirstHunkLines(hs);
    k := HunkPlace(r, lines, i, j, hs[0], hs[1..], HunkLines(hs[1..]));
  }

  /** Reading hs from line i on gives `read`, and should give `total`. */
  ghost predicate Reading(
      r: Headers, lines: seq<string>, i: nat, j: nat, hs: seq<Hunk>, n: nat, c: nat, read: Option<Counted>, total: Counted)
  {
    && HunksStand(r, lines, i, j, hs)
    && read == HunksAt(r, lines, i, n, c) && total == Counted(j, n + |hs|, c + TotalChanges(hs))
  }

  lemma ReadNextHunk(
      r: Headers, lines: seq<string>, i: nat, j: nat, hs: seq<Hunk>, n: nat, c: nat, read: Option<Counted>, total: Counted)
    returns (k: nat, d: nat)
    requires Anchored(r) && hs != [] && Reading(r, lines, i, j, hs, n, c, read, total)
    ensures Reading(r, lines, k, j, hs[1..], n + 1, d, read, total)
  {
    k := NextHunkStands(r, lines, i, j, hs);
    d := c + Changes(hs[0].body);
    HunkStep(r, lines, i, k, hs[0], n, c, d);
    FirstHunkCounts(hs, j, n, c, d);
  }

  lemma ReadAllHunks(r: Headers, lines: seq<string>, i: nat, j: nat, n: nat, c: nat, read: Option<Counted>, total: Counted)
    requires Reading(r, lines, i, j, [], n, c, read, total)
    ensures read == Some(total)
  {
    NoHunks(r, lines, i, j, n, c);
  }

  lemma {:induction false} HunksAreRead(
      r: Headers, lines: seq<string>, i: nat, j: nat, hs: seq<Hunk>, n: nat, c: nat, read: Option<Counted>, total: Counted)
    requires Anchored(r) && Reading(r, lines, i, j, hs, n, c, read, total)
    ensures read == Some(total)
    decreases |hs|
  {
    if hs == [] {
      ReadAllHunks(r, lines, i, j, n, c, read, total);
    } else {
      var k, d := ReadNextHunk(r, lines, i, j, hs, n, c, read, total);
      HunksAreRead(r, lines, k, j, hs[1..], n + 1, d, read, total);
    }
  }

  // ------------------------------------------------------------------- sections

  lemma MarkersAreSound(r: Headers, lines: seq<string>, i: nat, path: string) returns (index: Option<string>)
    requires i < |lines| && MarkersAt(r, lines, i, path).Some?
    ensures ValidIndex(r, index)
    ensures lines[i..MarkersAt(r, lines, i, path).value] ==
            [lines[i]] + IndexLines(index) + [OLD_PREFIX + path, NEW_PREFIX + path]
  {
    var m := AfterIndex(r, lines, i + 1).value;
    index := if m == i + 1 then None else Some(lines[i + 1]);
    assert lines[i..m + 2] == [lines[i]] + lines[i + 1..m] + [lines[m], lines[m + 1]];
    assert lines[i + 1..m] == IndexLines(index);
  }

  lemma IndexPrefixIsNoFileMarker(path: string)
    ensures !(INDEX_PREFIX <= OLD_PREFIX + path)
  {
    assert (OLD_PREFIX + path)[0] == '-' && INDEX_PREFIX[0] == 'i';
  }

  lemma MarkersAreComplete(r: Headers, lines: seq<string>, i: nat, j: nat, index: Option<string>, path: string)
    requires Anchored(r) && ValidIndex(r, index) && i < j <= |lines|
    requires lines[i..j] == [lines[i]] + IndexLines(index) + [OLD_PREFIX + path, NEW_PREFIX + path]
    ensures MarkersAt(r, lines, i, path) == Some(j)
  {
    var slice := lines[i..j];
    IndexPrefixIsNoFileMarker(path);
    assert lines[i + 1] == slice[1] && lines[i + 2] == slice[2];
    if index.Some? { assert lines[i + 3] == slice[3]; }
  }

  lemma SectionIsSound(r: Headers, policy: Policy, lines: seq<string>, i: nat, paths: seq<string>) returns (s: Section)
    requires i < |lines| && SectionAt(r, policy, lines, i, paths).Some?
    ensures ValidSection(r, policy, paths, s) && s.path == r.diff(lines[i]).value.before
    ensures lines[i..SectionAt(r, policy, lines, i, paths).value.next] == SectionLines(s)
  {
    var path := r.diff(lines[i]).value.before;
    var start := MarkersAt(r, lines, i, path).value;
    var index := MarkersAreSound(r, lines, i, path);
    var hunks := HunksAreSound(r, lines, start, 0, 0, HunksAt(r, lines, start, 0, 0).value);
    s := Section(lines[i], index, path, hunks);
    SliceJoins(lines, i, start, HunksAt(r, lines, start, 0, 0).value.next);
  }

  lemma SectionIsComplete(r: Headers, policy: Policy, lines: seq<string>, i: nat, j: nat, paths: seq<string>, s: Section)
    requires Anchored(r) && ValidSection(r, policy, paths, s) && i < j <= |lines| && lines[i..j] == SectionLines(s)
    requires j < |lines| ==> DIFF_PREFIX <= lines[j]
    ensures lines[i] == s.header && SectionAt(r, policy, lines, i, paths) == Some(Counted(j, |s.hunks|, TotalChanges(s.hunks)))
  {
    var opening := [s.header] + IndexLines(s.index) + [OLD_PREFIX + s.path, NEW_PREFIX + s.path];
    var k := i + |opening|;
    SliceSplits(lines, i, j, opening, HunkLines(s.hunks));
    assert lines[i] == lines[i..k][0];
    MarkersAreComplete(r, lines, i, k, s.index, s.path);
    DiffLinesStop(lines, j);
    var read, total := HunksAt(r, lines, k, 0, 0), Counted(j, |s.hunks|, TotalChanges(s.hunks));
    HunksAreRead(r, lines, k, j, s.hunks, 0, 0, read, total);
  }

  lemma DiffLinesStop(lines: seq<string>, j: nat)
    requires j < |lines| ==> DIFF_PREFIX <= lines[j]
    ensures Stops(lines, j)
  {
    if j < |lines| {
      assert lines[j][0] == 'd' && NO_NEWLINE_MARKER[0] == '\\';
    }
  }

  lemma SectionsAtStep(r: Headers, policy: Policy, lines: seq<string>, i: nat, paths: seq<string>, c: Counted)
    requires i < |lines| && SectionAt(r, policy, lines, i, paths) == Some(c)
    ensures r.diff(lines[i]).Some?
    ensures SectionsAt(r, policy, lines, i, paths) ==
            SectionsAt(r, policy, lines, c.next, paths + [r.diff(lines[i]).value.before])
  {}

  lemma PatchLinesCons(s: Section, rest: seq<Section>)
    ensures PatchLines([s] + rest) == SectionLines(s) + PatchLines(rest) && PathsOf([s] + rest) == [s.path] + PathsOf(rest)
  {
    assert ([s] + rest)[1..] == rest;
  }

  lemma ValidSectionsCons(r: Headers, policy: Policy, paths: seq<string>, s: Section, rest: seq<Section>)
    ensures ValidSections(r, policy, paths, [s] + rest) <==>
            ValidSection(r, policy, paths, s) && ValidSections(r, policy, paths + [s.path], rest)
  {
    assert ([s] + rest)[1..] == rest;
  }

  /** One section read, and the rest of the patch after it. */
  lemma SectionThenRest(r: Headers, policy: Policy, lines: seq<string>, i: nat, paths: seq<string>, found: seq<string>)
    returns (s: Section, k: nat)
    requires i < |lines| && SectionsAt(r, policy, lines, i, paths) == Some(found)
    ensures i < k <= |lines| && ValidSection(r, policy, paths, s) && lines[i..k] == SectionLines(s)
    ensures SectionsAt(r, policy, lines, k, paths + [s.path]) == Some(found)
  {
    var c := SectionAt(r, policy, lines, i, paths).value;
    s := SectionIsSound(r, policy, lines, i, paths);
    SectionsAtStep(r, policy, lines, i, paths, c);
    k := c.next;
  }

  lemma JoinSection(lines: seq<string>, i: nat, k: nat, paths: seq<string>, s: Section, rest: seq<Section>)
    requires i <= k <= |lines| && lines[i..k] == SectionLines(s) && lines[k..|lines|] == PatchLines(rest)
    ensures lines[i..|lines|] == PatchLines([s] + rest)
    ensures paths + PathsOf([s] + rest) == paths + [s.path] + PathsOf(rest)
  {
    PatchLinesCons(s, rest);
    SliceJoins(lines, i, k, |lines|);
  }

  lemma {:induction false} SectionsAreSound(
      r: Headers, policy: Policy, lines: seq<string>, i: nat, paths: seq<string>, found: seq<string>)
    returns (ss: seq<Section>)
    requires i <= |lines| && SectionsAt(r, policy, lines, i, paths) == Some(found)
    ensures ValidSections(r, policy, paths, ss) && lines[i..|lines|] == PatchLines(ss) && found == paths + PathsOf(ss)
    decreases |lines| - i
  {
    if i == |lines| {
      ss := [];
    } else {
      var s, k := SectionThenRest(r, policy, lines, i, paths, found);
      var rest := SectionsAreSound(r, policy, lines, k, paths + [s.path], found);
      ss := [s] + rest;
      ValidSectionsCons(r, policy, paths, s, rest);
      JoinSection(lines, i, k, paths, s, rest);
    }
  }

  lemma NextIsDiff(r: Headers, policy: Policy, paths: seq<string>, lines: seq<string>, j: nat, rest: seq<Section>)
    requires Anchored(r) && ValidSections(r, policy, paths, rest) && j <= |lines| && lines[j..|lines|] == PatchLines(rest)
    ensures j < |lines| ==> DIFF_PREFIX <= lines[j]
  {
    if rest != [] {
      assert PatchLines(rest)[0] == rest[0].header;
      assert lines[j..|lines|][0] == rest[0].header;
    } else {
      assert |lines[j..|lines|]| == 0;
    }
  }

  lemma SectionReads(r: Headers, policy: Policy, lines: seq<string>, i: nat, paths: seq<string>, s: Section, rest: seq<Section>)
    returns (k: nat)
    requires Anchored(r) && ValidSection(r, policy, paths, s) && ValidSections(r, policy, paths + [s.path], rest)
    requires i <= |lines| && lines[i..|lines|] == SectionLines(s) + PatchLines(rest)
    ensures k <= |lines| && lines[k..|lines|] == PatchLines(rest)
    ensures SectionsAt(r, policy, lines, i, paths) == SectionsAt(r, policy, lines, k, paths + [s.path])
  {
    k := i + |SectionLines(s)|;
    SliceSplits(lines, i, |lines|, SectionLines(s), PatchLines(rest));
    NextIsDiff(r, policy, paths + [s.path], lines, k, rest);
    SectionIsComplete(r, policy, lines, i, k, paths, s);
    SectionsAtStep(r, policy, lines, i, paths, Counted(k, |s.hunks|, TotalChanges(s.hunks)));
  }

  lemma NoSections(r: Headers, policy: Policy, lines: seq<string>, i: nat, paths: seq<string>)
    requires i <= |lines| && lines[i..|lines|] == []
    ensures SectionsAt(r, policy, lines, i, paths) == Some(paths)
  {
    assert |lines[i..|lines|]| == 0;
  }

  /** Reading ss from line i on gives `read`, and should give `found`. */
  ghost predicate ReadingPatch(
      r: Headers, policy: Policy, lines: seq<string>, i: nat, paths: seq<string>, ss: seq<Section>,
      read: Option<seq<string>>, found: seq<string>)
  {
    && ValidSections(r, policy, paths, ss) && i <= |lines| && lines[i..|lines|] == PatchLines(ss)
    && read == SectionsAt(r, policy, lines, i, paths) && found == paths + PathsOf(ss)
  }

  lemma ReadNextSection(
      r: Headers, policy: Policy, lines: seq<string>, i: nat, paths: seq<string>, ss: seq<Section>,
      read: Option<seq<string>>, found: seq<string>) returns (k: nat, more: seq<string>)
    requires Anchored(r) && ss != [] && ReadingPatch(r, policy, lines, i, paths, ss, read, found)
    ensures ReadingPatch(r, policy, lines, k, more, ss[1..], read, found)
  {
    var s, rest := ss[0], ss[1..];
    more := paths + [s.path];
    k := SectionReads(r, policy, lines, i, paths, s, rest);
    assert paths + PathsOf(ss) == more + PathsOf(rest);
  }

  lemma ReadAllSections(
      r: Headers, policy: Policy, lines: seq<string>, i: nat, paths: seq<string>, read: Option<seq<string>>, found: seq<string>)
    requires ReadingPatch(r, policy, lines, i, paths, [], read, found)
    ensures read == Some(found)
  {
    NoSections(r, policy, lines, i, paths);
    assert found == paths;
  }

  lemma {:induction false} SectionsAreRead(
      r: Headers, policy: Policy, lines: seq<string>, i: nat, paths: seq<string>, ss: seq<Section>,
      read: Option<seq<string>>, found: seq<string>)
    requires Anchored(r) && ReadingPatch(r, policy, lines, i, paths, ss, read, found)
    ensures read == Some(found)
    decreases |ss|
  {
    if ss == [] {
      ReadAllSections(r, policy, lines, i, paths, read, found);
    } else {
      var k, more := ReadNextSection(r, policy, lines, i, paths, ss, read, found);
      SectionsAreRead(r, policy, lines, k, more, ss[1..], read, found);
    }
  }

  lemma SectionsAreComplete(r: Headers, policy: Policy, lines: seq<string>, i: nat, paths: seq<string>, ss: seq<Section>)
    requires Anchored(r) && ValidSections(r, policy, paths, ss) && i <= |lines| && lines[i..|lines|] == PatchLines(ss)
    ensures SectionsAt(r, policy, lines, i, paths) == Some(paths + PathsOf(ss))
  {
    SectionsAreRead(r, policy, lines, i, paths, ss, SectionsAt(r, policy, lines, i, paths), paths + PathsOf(ss));
  }

  // ------------------------------------------------------------------- theorems

  /** The parser accepts exactly the lines that render a nonempty list of valid
      sections, and returns the sections' paths in order. */
  lemma AcceptsExactlyRenderedPatches(r: Headers, policy: Policy, lines: seq<string>, paths: seq<string>)
    requires Anchored(r)
    ensures ParsedPaths(r, policy, lines) == Some(paths) <==>
            exists ss :: ss != [] && ValidSections(r, policy, [], ss) && lines == PatchLines(ss) && paths == PathsOf(ss)
  {
    assert lines[0..|lines|] == lines;
    if ParsedPaths(r, policy, lines) == Some(paths) {
      var ss := SectionsAreSound(r, policy, lines, 0, [], paths);
      assert [] + PathsOf(ss) == PathsOf(ss);
      assert ss != [] && ValidSections(r, policy, [], ss) && lines == PatchLines(ss) && paths == PathsOf(ss);
    }
    if ss :| ss != [] && ValidSections(r, policy, [], ss) && lines == PatchLines(ss) && paths == PathsOf(ss) {
      SectionsAreComplete(r, policy, lines, 0, [], ss);
      assert [] + PathsOf(ss) == PathsOf(ss);
    }
  }

  /** Printing such a patch and parsing it returns its paths. */
  lemma PrintedPatchesParse(r: Headers, policy: Policy, ss: seq<Section>)
    requires Anchored(r) && ss != [] && ValidSections(r, policy, [], ss)
    ensures ParsedPaths(r, policy, PatchLines(ss)) == Some(PathsOf(ss))
  {
    AcceptsExactlyRenderedPatches(r, policy, PatchLines(ss), PathsOf(ss));
  }

  predicate AllDistinct(paths: seq<string>) {
    forall i, j :: 0 <= i < j < |paths| ==> paths[i] != paths[j]
  }

  predicate Permitted(policy: Policy, path: string) {
    ValidPath(path) && path in policy.allowed
  }

  predicate AllPermitted(policy: Policy, paths: seq<string>) {
    forall i :: 0 <= i < |paths| ==> Permitted(policy, paths[i])
  }

  lemma SectionPathIsPermitted(r: Headers, policy: Policy, before: seq<string>, ss: seq<Section>)
    requires ss != [] && ValidSections(r, policy, before, ss)
    ensures Permitted(policy, ss[0].path) && ss[0].path !in before && |before| < policy.maxFiles
    ensures ValidSections(r, policy, before + [ss[0].path], ss[1..])
  {}

  predicate Fit(policy: Policy, paths: seq<string>) {
    AllDistinct(paths) && AllPermitted(policy, paths) && |paths| <= policy.maxFiles
  }

  lemma OneMoreFits(policy: Policy, before: seq<string>, path: string)
    requires Fit(policy, before) && Permitted(policy, path) && path !in before && |before| < policy.maxFiles
    ensures Fit(policy, before + [path])
  {}

  lemma {:induction false} SectionPathsAreFit(
      r: Headers, policy: Policy, before: seq<string>, ss: seq<Section>, found: seq<string>)
    requires ValidSections(r, policy, before, ss) && Fit(policy, before) && found == before + PathsOf(ss)
    ensures Fit(policy, found)
    decreases |ss|
  {
    if ss == [] {
      assert found == before;
    } else {
      SectionPathIsPermitted(r, policy, before, ss);
      OneMoreFits(policy, before, ss[0].path);
      assert found == before + [ss[0].path] + PathsOf(ss[1..]);
      SectionPathsAreFit(r, policy, before + [ss[0].path], ss[1..], found);
    }
  }

  /** The path is these components with slashes between them, each a plain name. */
  predicate MadeOf(path: string, parts: seq<string>) {
    parts != [] && Joined(parts) == path && forall i :: 0 <= i < |parts| ==> '/' !in parts[i] && PlainPart(parts[i])
  }

  ghost predicate Relative(path: string) {
    exists parts :: MadeOf(path, parts)
  }

  ghost predicate AllRelative(paths: seq<string>) {
    forall i :: 0 <= i < |paths| ==> Relative(paths[i])
  }

  lemma ValidPathIsRelative(path: string)
    requires ValidPath(path)
    ensures Relative(path)
  {
    var parts := Parts(path);
    PartsJoin(path);
    forall i | 0 <= i < |parts| ensures '/' !in parts[i] && PlainPart(parts[i]) { assert PlainPart(Parts(path)[i]); }
    assert MadeOf(path, parts);
  }

  lemma PermittedPathsAreRelative(policy: Policy, paths: seq<string>)
    requires AllPermitted(policy, paths)
    ensures AllRelative(paths)
  {
    forall i | 0 <= i < |paths| ensures Relative(paths[i]) {
      assert Permitted(policy, paths[i]);
      ValidPathIsRelative(paths[i]);
    }
  }

  /** An accepted patch touches at least one and at most max_files files, each of
      them allowed and once; every path is relative, and no component of it is empty,
      a dot, two dots or Git's directory in any case. */
  lemma AcceptedPathsAreFit(r: Headers, policy: Policy, lines: seq<string>, paths: seq<string>)
    requires Anchored(r) && ParsedPaths(r, policy, lines) == Some(paths)
    ensures 1 <= |paths| <= policy.maxFiles && AllDistinct(paths) && AllPermitted(policy, paths)
    ensures AllRelative(paths)
  {
    var ss := SectionsAreSound(r, policy, lines, 0, [], paths);
    SectionPathsAreFit(r, policy, [], ss, paths);
    PermittedPathsAreRelative(policy, paths);
  }

  // ------------------------------------------------------- the language of paths

  /** By code point: the two cases of the alphabet, the ten digits, and the full
      stop, the low line, the solidus and the hyphen. */
  predicate PathCharacter(c: char) {
    var code := c as int;
    65 <= code <= 90 || 97 <= code <= 122 || 48 <= code <= 57 || code == 46 || code == 95 || code == 47 || code == 45
  }

  /** Neither a step through the tree nor Git's directory in any case. */
  predicate FileName(part: string) {
    && part !in ["", ".", ".."] && '/' !in part
    && part !in [".git", ".giT", ".gIt", ".gIT", ".Git", ".GiT", ".GIt", ".GIT"]
  }

  ghost predicate RelativePath(path: string) {
    exists parts: seq<string> :: parts != [] && Joined(parts) == path && forall i :: 0 <= i < |parts| ==> FileName(parts[i])
  }

  lemma GitNames(part: string)
    ensures IsGit(part) <==> part in [".git", ".giT", ".gIt", ".gIT", ".Git", ".GiT", ".GIt", ".GIT"]
  {
    if IsGit(part) {
      assert part == ['.', part[1], part[2], part[3]];
      assert (part[1] == 'g' || part[1] == 'G') && (part[2] == 'i' || part[2] == 'I') && (part[3] == 't' || part[3] == 'T');
    }
  }

  lemma FileNamesArePlain(part: string)
    requires '/' !in part
    ensures FileName(part) <==> PlainPart(part)
  {
    GitNames(part);
  }

  lemma {:induction false} PartsOfOne(part: string, rest: string)
    requires '/' !in part
    ensures Parts(part + "/" + rest) == [part] + Parts(rest)
  {
    if part == "" {
      assert ("" + "/" + rest)[1..] == rest;
    } else {
      PartsOfOne(part[1..], rest);
      assert (part + "/" + rest)[1..] == part[1..] + "/" + rest;
      assert part[0] in part && [part[0]] + part[1..] == part;
      assert ([part[1..]] + Parts(rest))[1..] == Parts(rest);
    }
  }

  lemma {:induction false} PartsOfLast(part: string)
    requires '/' !in part
    ensures Parts(part) == [part]
  {
    if part != "" {
      PartsOfLast(part[1..]);
      assert part[0] in part;
      assert [part[0]] + part[1..] == part;
    }
  }

  lemma {:induction false} PartsOfJoined(parts: seq<string>)
    requires parts != [] && forall i :: 0 <= i < |parts| ==> '/' !in parts[i]
    ensures Parts(Joined(parts)) == parts
  {
    if |parts| == 1 {
      PartsOfLast(parts[0]);
    } else {
      PartsOfJoined(parts[1..]);
      PartsOfOne(parts[0], Joined(parts[1..]));
      assert [parts[0]] + parts[1..] == parts;
    }
  }

  /** Exactly the nonempty relative paths in these characters are accepted. */
  lemma ValidPathsAreRelative(path: string)
    ensures ValidPath(path) <==> path != "" && (forall i :: 0 <= i < |path| ==> PathCharacter(path[i])) && RelativePath(path)
  {
    PartsJoin(path);
    if ValidPath(path) {
      forall i | 0 <= i < |Parts(path)| ensures FileName(Parts(path)[i]) { FileNamesArePlain(Parts(path)[i]); }
    }
    if RelativePath(path) {
      var parts: seq<string> :| parts != [] && Joined(parts) == path && forall i :: 0 <= i < |parts| ==> FileName(parts[i]);
      PartsOfJoined(parts);
      forall i | 0 <= i < |parts| ensures PlainPart(parts[i]) { FileNamesArePlain(parts[i]); }
    }
  }
}
