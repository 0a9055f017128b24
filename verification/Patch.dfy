/** The strict unified-diff parser. Lines come already split, and the three header
    expressions are recognizers whose matches carry the captured groups. */
module Patch {
  import opened Usage

  const NO_NEWLINE_MARKER := "\\ No newline at end of file"
  const HUNK_PREFIX := "@@"
  const DIFF_PREFIX := "diff --git "
  const INDEX_PREFIX := "index "
  const OLD_PREFIX := "--- a/"
  const NEW_PREFIX := "+++ b/"
  const REGULAR_MODE := "100644"
  const MAX_HUNK_NUMBER_DIGITS: nat := 9

  /** A decimal group: how many digits it has and what they say. */
  datatype Numeral = Numeral(digits: nat, value: nat)

  datatype HunkNumbers = HunkNumbers(
    oldStart: Numeral, oldCount: Option<Numeral>, newStart: Numeral, newCount: Option<Numeral>)

  datatype DiffPaths = DiffPaths(before: string, after: string)

  /** The header expressions; an index match captures its optional mode. */
  datatype Headers = Headers(
    diff: string -> Option<DiffPaths>, index: string -> Option<Option<string>>, hunk: string -> Option<HunkNumbers>)

  /** What the expressions themselves guarantee of the lines they match. */
  ghost predicate Anchored(r: Headers) {
    && (forall l :: r.diff(l).Some? ==> DIFF_PREFIX <= l)
    && (forall l :: r.hunk(l).Some? ==> HUNK_PREFIX <= l)
    && (forall l :: r.index(l).Some? ==> INDEX_PREFIX <= l)
  }

  datatype Policy = Policy(allowed: seq<string>, maxFiles: nat)

  // --------------------------------------------------------------------- paths

  predicate SafeChar(c: char) {
    'A' <= c <= 'Z' || 'a' <= c <= 'z' || '0' <= c <= '9' || c == '.' || c == '_' || c == '/' || c == '-'
  }

  function Parts(path: string): (parts: seq<string>)
    ensures parts != []
  {
    if path == "" then [""]
    else
      var rest := Parts(path[1..]);
      if path[0] == '/' then [""] + rest else [[path[0]] + rest[0]] + rest[1..]
  }

  function Lower(c: char): char {
    if 'A' <= c <= 'Z' then 'a' + (c - 'A') else c
  }

  predicate IsGit(part: string) {
    |part| == 4 && part[0] == '.' && Lower(part[1]) == 'g' && Lower(part[2]) == 'i' && Lower(part[3]) == 't'
  }

  predicate PlainPart(part: string) {
    part != "" && part != "." && part != ".." && !IsGit(part)
  }

  /** A relative path of plain components that does not enter Git's metadata. */
  predicate ValidPath(path: string) {
    && path != "" && (forall i :: 0 <= i < |path| ==> SafeChar(path[i]))
    && forall i :: 0 <= i < |Parts(path)| ==> PlainPart(Parts(path)[i])
  }

  function Joined(parts: seq<string>): string
    requires parts != []
  {
    if |parts| == 1 then parts[0] else parts[0] + "/" + Joined(parts[1..])
  }

  /** The components are what lies between the slashes. */
  lemma {:induction false} PartsJoin(path: string)
    ensures Joined(Parts(path)) == path
    ensures forall i :: 0 <= i < |Parts(path)| ==> '/' !in Parts(path)[i]
  {
    if path != "" {
      PartsJoin(path[1..]);
      var rest := Parts(path[1..]);
      assert path == [path[0]] + path[1..];
      if path[0] == '/' {
        assert ([""] + rest)[1..] == rest;
      } else if |rest| > 1 {
        assert ([[path[0]] + rest[0]] + rest[1..])[1..] == rest[1..];
      }
    }
  }

  // ---------------------------------------------------------------- hunk bodies

  predicate IsMarker(l: string) {
    l == NO_NEWLINE_MARKER
  }

  predicate InOld(l: string) {
    l != "" && (l[0] == ' ' || l[0] == '-')
  }

  predicate InNew(l: string) {
    l != "" && (l[0] == ' ' || l[0] == '+')
  }

  predicate IsChange(l: string) {
    l != "" && (l[0] == '-' || l[0] == '+')
  }

  predicate BodyLine(l: string) {
    InOld(l) || InNew(l)
  }

  datatype Parsed = Parsed(next: nat, changes: nat)

  /** The counting loop: lines are taken until both declared counts are used up. */
  function Body(lines: seq<string>, start: nat, i: nat, oldLeft: nat, newLeft: nat, changes: nat): (r: Option<Parsed>)
    requires start <= i <= |lines|
    ensures r.Some? ==> i <= r.value.next <= |lines|
    decreases |lines| - i
  {
    if oldLeft == 0 && newLeft == 0 then Some(Parsed(i, changes))
    else if i == |lines| then None
    else
      var l := lines[i];
      if IsMarker(l) then if i == start then None else Body(lines, start, i + 1, oldLeft, newLeft, changes)
      else if !BodyLine(l) then None
      else if (InOld(l) && oldLeft == 0) || (InNew(l) && newLeft == 0) then None
      else
        Body(lines, start, i + 1, if InOld(l) then oldLeft - 1 else oldLeft, if InNew(l) then newLeft - 1 else newLeft,
             if IsChange(l) then changes + 1 else changes)
  }

  function SkipMarkers(lines: seq<string>, i: nat): (j: nat)
    requires i <= |lines|
    ensures i <= j <= |lines|
    ensures forall k :: i <= k < j ==> IsMarker(lines[k])
    ensures j < |lines| ==> !IsMarker(lines[j])
    decreases |lines| - i
  {
    if i < |lines| && IsMarker(lines[i]) then SkipMarkers(lines, i + 1) else i
  }

  predicate Short(n: Numeral) {
    n.digits <= MAX_HUNK_NUMBER_DIGITS
  }

  predicate ShortOption(n: Option<Numeral>) {
    n.Some? ==> Short(n.value)
  }

  predicate ShortNumbers(n: HunkNumbers) {
    Short(n.oldStart) && ShortOption(n.oldCount) && Short(n.newStart) && ShortOption(n.newCount)
  }

  function CountOf(n: Option<Numeral>): nat {
    if n == None then 1 else n.value.value
  }

  function HunkAt(r: Headers, lines: seq<string>, i: nat): (h: Option<Parsed>)
    requires i < |lines|
    ensures h.Some? ==> i < h.value.next <= |lines|
  {
    var header := r.hunk(lines[i]);
    if header == None || !ShortNumbers(header.value) then None
    else
      var body := Body(lines, i + 1, i + 1, CountOf(header.value.oldCount), CountOf(header.value.newCount), 0);
      if body == None then None else Some(Parsed(SkipMarkers(lines, body.value.next), body.value.changes))
  }

  method ParseHunk(r: Headers, lines: seq<string>, headerIndex: nat) returns (h: Option<Parsed>)
    requires headerIndex < |lines|
    ensures h == HunkAt(r, lines, headerIndex)
  {
    var header := r.hunk(lines[headerIndex]);
    if header == None || !ShortNumbers(header.value) {
      return None;
    }
    var oldCount, newCount := CountOf(header.value.oldCount), CountOf(header.value.newCount);
    var oldSeen: nat, newSeen: nat, changes: nat := 0, 0, 0;
    var i := headerIndex + 1;
    ghost var start := i;
    while oldSeen < oldCount || newSeen < newCount
      invariant start <= i <= |lines| && oldSeen <= oldCount && newSeen <= newCount
      invariant Body(lines, start, start, oldCount, newCount, 0)
                == Body(lines, start, i, oldCount - oldSeen, newCount - newSeen, changes)
      decreases |lines| - i
    {
      if i >= |lines| {
        return None;
      }
      var line := lines[i];
      if IsMarker(line) {
        if i == headerIndex + 1 {
          return None;
        }
        i := i + 1;
        continue;
      }
      if line == "" || (line[0] != ' ' && line[0] != '-' && line[0] != '+') {
        return None;
      }
      if line[0] == ' ' {
        oldSeen, newSeen := oldSeen + 1, newSeen + 1;
      } else if line[0] == '-' {
        oldSeen, changes := oldSeen + 1, changes + 1;
      } else {
        newSeen, changes := newSeen + 1, changes + 1;
      }
      if oldSeen > oldCount || newSeen > newCount {
        return None;
      }
      i := i + 1;
    }
    ghost var end := i;
    while i < |lines| && IsMarker(lines[i])
      invariant end <= i <= |lines|
      invariant SkipMarkers(lines, end) == SkipMarkers(lines, i)
    {
      i := i + 1;
    }
    return Some(Parsed(i, changes));
  }

  // ------------------------------------------------------------------- sections

  datatype Counted = Counted(next: nat, hunks: nat, changes: nat)

  function HunksAt(r: Headers, lines: seq<string>, i: nat, hunks: nat, changes: nat): (c: Option<Counted>)
    requires i <= |lines|
    ensures c.Some? ==> i <= c.value.next <= |lines|
    decreases |lines| - i
  {
    if i < |lines| && HUNK_PREFIX <= lines[i] then
      var h := HunkAt(r, lines, i);
      if h == None then None else HunksAt(r, lines, h.value.next, hunks + 1, changes + h.value.changes)
    else Some(Counted(i, hunks, changes))
  }

  /** Where the file markers must stand, after an index line if there is one. */
  function AfterIndex(r: Headers, lines: seq<string>, i: nat): (j: Option<nat>)
    requires i <= |lines|
    ensures j.Some? ==> i <= j.value <= |lines|
  {
    if i < |lines| && INDEX_PREFIX <= lines[i] then
      var matched := r.index(lines[i]);
      if matched == None || (matched.value.Some? && matched.value.value != REGULAR_MODE) then None else Some(i + 1)
    else Some(i)
  }

  /** Where the hunks of the section that starts at i begin. */
  function MarkersAt(r: Headers, lines: seq<string>, i: nat, path: string): (j: Option<nat>)
    requires i < |lines|
    ensures j.Some? ==> i < j.value <= |lines|
  {
    var m := AfterIndex(r, lines, i + 1);
    if m == None then None
    else if m.value >= |lines| || lines[m.value] != OLD_PREFIX + path then None
    else if m.value + 1 >= |lines| || lines[m.value + 1] != NEW_PREFIX + path then None
    else Some(m.value + 2)
  }

  predicate Admits(policy: Policy, paths: seq<string>, p: DiffPaths) {
    && p.before == p.after && ValidPath(p.before) && p.before in policy.allowed && p.before !in paths
    && |paths| + 1 <= policy.maxFiles
  }

  /** One section: where it ends, if it is well formed. */
  function SectionAt(r: Headers, policy: Policy, lines: seq<string>, i: nat, paths: seq<string>): (c: Option<Counted>)
    requires i < |lines|
    ensures c.Some? ==> i < c.value.next <= |lines| && r.diff(lines[i]).Some?
  {
    var header := r.diff(lines[i]);
    if header == None || !Admits(policy, paths, header.value) then None
    else
      var start := MarkersAt(r, lines, i, header.value.before);
      if start == None then None
      else
        var c := HunksAt(r, lines, start.value, 0, 0);
        if c == None || c.value.hunks == 0 || c.value.changes == 0 then None
        else if c.value.next < |lines| && !(DIFF_PREFIX <= lines[c.value.next]) then None
        else c
  }

  function SectionsAt(r: Headers, policy: Policy, lines: seq<string>, i: nat, paths: seq<string>): Option<seq<string>>
    requires i <= |lines|
    decreases |lines| - i
  {
    if i == |lines| then Some(paths)
    else
      var s := SectionAt(r, policy, lines, i, paths);
      if s == None then None
      else SectionsAt(r, policy, lines, s.value.next, paths + [r.diff(lines[i]).value.before])
  }

  function ParsedPaths(r: Headers, policy: Policy, lines: seq<string>): Option<seq<string>> {
    var paths := SectionsAt(r, policy, lines, 0, []);
    if paths == None || paths.value == [] then None else paths
  }

  method ParseHunks(r: Headers, lines: seq<string>, start: nat) returns (c: Option<Counted>)
    requires start <= |lines|
    ensures c == HunksAt(r, lines, start, 0, 0)
  {
    var i := start;
    var hunks: nat, changes: nat := 0, 0;
    while i < |lines| && HUNK_PREFIX <= lines[i]
      invariant start <= i <= |lines|
      invariant HunksAt(r, lines, start, 0, 0) == HunksAt(r, lines, i, hunks, changes)
      decreases |lines| - i
    {
      var h := ParseHunk(r, lines, i);
      if h == None {
        return None;
      }
      hunks, changes, i := hunks + 1, changes + h.value.changes, h.value.next;
    }
    return Some(Counted(i, hunks, changes));
  }

  method ParseUnifiedDiff(r: Headers, policy: Policy, lines: seq<string>) returns (result: Option<seq<string>>)
    ensures result == ParsedPaths(r, policy, lines)
  {
    var paths: seq<string> := [];
    var i := 0;
    var totalChanges: nat := 0;
    while i < |lines|
      invariant 0 <= i <= |lines|
      invariant SectionsAt(r, policy, lines, 0, []) == SectionsAt(r, policy, lines, i, paths)
      invariant paths != [] <==> totalChanges > 0
      decreases |lines| - i
    {
      var header := r.diff(lines[i]);
      if header == None || header.value.before != header.value.after || !ValidPath(header.value.before) {
        return None;
      }
      var path := header.value.before;
      if path !in policy.allowed || path in paths || |paths| + 1 > policy.maxFiles {
        return None;
      }
      var start := MarkersAt(r, lines, i, path);
      if start == None {
        return None;
      }
      var c := ParseHunks(r, lines, start.value);
      if c == None || c.value.hunks == 0 || c.value.changes == 0 {
        return None;
      }
      if c.value.next < |lines| && !(DIFF_PREFIX <= lines[c.value.next]) {
        return None;
      }
      paths, totalChanges, i := paths + [path], totalChanges + c.value.changes, c.value.next;
    }
    if paths == [] || totalChanges == 0 {
      return None;
    }
    return Some(paths);
  }
}
