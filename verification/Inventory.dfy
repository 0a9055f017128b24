/** What the scan of a store comes to: which trees it finds nothing wrong with, how
    many entries it counts and how many bytes it hashes, and what it says of every
    file that no reference names. */
module Inventory {
  import opened Text
  import opened Usage
  import opened Audit
  import opened AuditLaws
  import opened Reaudit
  import A = Artifacts

  // ----------------------------------------------------------------- in the tree

  /** A finalized file that no reference names. */
  predicate Stray(named: set<string>, prefix: string, e: Entry) {
    && e.kind.Regular? && e.kind.links == 1
    && IsSha256(e.name) && prefix <= e.name && !(TEMP_PREFIX <= e.name) && e.name !in named
  }

  predicate FileFits(named: set<string>, prefix: string, e: Entry) {
    && !e.kind.Unstatable?
    && (e.kind.SymbolicLink? || (e.kind.Regular? && e.kind.links != 1) ==> e.name !in named)
    && (Stray(named, prefix, e) ==> e.kind.contents.Known? && |e.kind.contents.bytes| <= MAX_ARTIFACT_BYTES)
  }

  predicate FilesFit(named: set<string>, prefix: string, entries: seq<Entry>) {
    forall i {:trigger FileFits(named, prefix, entries[i])} :: 0 <= i < |entries| ==> FileFits(named, prefix, entries[i])
  }

  predicate ShardFits(t: Tree, named: set<string>, prefix: string) {
    var l := ShardOf(t, prefix);
    l.listable && AllDecodable(l.entries) && FilesFit(named, prefix, l.entries)
  }

  predicate IsShard(e: Entry) {
    PrefixName(e.name) && e.kind.Folder?
  }

  predicate FolderFits(t: Tree, named: set<string>, e: Entry) {
    && !e.kind.Unstatable? && (e.kind.SymbolicLink? ==> forall d :: d in named ==> !(e.name <= d))
    && (IsShard(e) ==> ShardFits(t, named, e.name))
  }

  predicate FoldersFit(t: Tree, named: set<string>, entries: seq<Entry>) {
    forall i {:trigger FolderFits(t, named, entries[i])} :: 0 <= i < |entries| ==> FolderFits(t, named, entries[i])
  }

  predicate IsSha(e: Entry) {
    e.name == SHA_NAME && e.kind.Folder?
  }

  predicate TopFits(t: Tree, named: set<string>, e: Entry) {
    && !e.kind.Unstatable? && (e.name == SHA_NAME && e.kind.SymbolicLink? ==> named == {})
    && (IsSha(e) ==> t.sha.listable && AllDecodable(t.sha.entries) && FoldersFit(t, named, t.sha.entries))
  }

  predicate TopsFit(t: Tree, named: set<string>, entries: seq<Entry>) {
    forall i {:trigger TopFits(t, named, entries[i])} :: 0 <= i < |entries| ==> TopFits(t, named, entries[i])
  }

  /** Everything can be listed and looked at, links lead to nothing that is named,
      and the files that nothing names can be read. */
  predicate TreeFits(t: Tree, named: set<string>) {
    t.root.listable && AllDecodable(t.root.entries) && TopsFit(t, named, t.root.entries)
  }

  function FolderCount(t: Tree, entries: seq<Entry>): nat {
    if entries == [] then 0
    else
      var e := entries[|entries| - 1];
      FolderCount(t, entries[..|entries| - 1]) + (if IsShard(e) then |ShardOf(t, e.name).entries| else 0)
  }

  function TopCount(t: Tree, entries: seq<Entry>): nat {
    if entries == [] then 0
    else
      TopCount(t, entries[..|entries| - 1])
      + (if IsSha(entries[|entries| - 1]) then |t.sha.entries| + FolderCount(t, t.sha.entries) else 0)
  }

  /** The entries of the root, of sha256 and of its shards. */
  function EntryCount(t: Tree): nat {
    |t.root.entries| + TopCount(t, t.root.entries)
  }

  function FileBytes(named: set<string>, prefix: string, e: Entry): nat {
    if Stray(named, prefix, e) then SizeOf(e.kind.contents) else 0
  }

  function ShardBytes(named: set<string>, prefix: string, entries: seq<Entry>): nat {
    if entries == [] then 0
    else ShardBytes(named, prefix, entries[..|entries| - 1]) + FileBytes(named, prefix, entries[|entries| - 1])
  }

  function FolderBytes(t: Tree, named: set<string>, entries: seq<Entry>): nat {
    if entries == [] then 0
    else
      var e := entries[|entries| - 1];
      FolderBytes(t, named, entries[..|entries| - 1])
      + (if IsShard(e) then ShardBytes(named, e.name, ShardOf(t, e.name).entries) else 0)
  }

  function TopBytes(t: Tree, named: set<string>, entries: seq<Entry>): nat {
    if entries == [] then 0
    else
      TopBytes(t, named, entries[..|entries| - 1])
      + (if IsSha(entries[|entries| - 1]) then FolderBytes(t, named, t.sha.entries) else 0)
  }

  /** The bytes of the finalized files that nothing names. */
  function StrayBytes(t: Tree, named: set<string>): nat {
    TopBytes(t, named, t.root.entries)
  }

  // ------------------------------------------------------------- what is reported

  /** An orphan is a file of its shard, and its kind says what the file holds. */
  predicate Explains(env: Env, named: set<string>, prefix: string, e: Entry, kind: FindingKind) {
    && e in ShardOf(env.tree, prefix).entries && e.kind.Regular? && e.kind.links == 1
    && (kind == TempOrphan ==> TEMP_PREFIX <= e.name)
    && (kind == ValidFinalizedOrphan ==>
          Stray(named, prefix, e) && e.kind.contents.Known? && env.hash(e.kind.contents.bytes) == e.name)
    && (kind == CorruptFinalizedOrphan ==>
          Stray(named, prefix, e) && e.kind.contents.Known? && env.hash(e.kind.contents.bytes) != e.name)
  }

  predicate Explained(env: Env, named: set<string>, f: Finding) {
    IsOrphanKind(f.kind) ==>
      f.path.Leaf? && exists e :: e in ShardOf(env.tree, f.path.prefix).entries && e.name == f.path.name
                                  && Explains(env, named, f.path.prefix, e, f.kind)
  }

  predicate AllExplained(env: Env, named: set<string>, fs: seq<Finding>) {
    forall i {:trigger Explained(env, named, fs[i])} :: 0 <= i < |fs| ==> Explained(env, named, fs[i])
  }

  lemma ExplainedOneMore(env: Env, named: set<string>, fs: seq<Finding>, f: Finding)
    requires Explained(env, named, f)
    ensures AllExplained(env, named, fs) ==> AllExplained(env, named, fs + [f])
  {
    var all := fs + [f];
    if AllExplained(env, named, fs) {
      forall i | 0 <= i < |all| ensures Explained(env, named, all[i]) {
        if i < |fs| { assert Explained(env, named, fs[i]); }
      }
    }
  }

  // ----------------------------------------------------------------- the reckoning

  predicate InRange(s: Scan) {
    s.counter <= MAX_INVENTORY_ENTRIES && s.used <= MAX_TOTAL_HASHED_BYTES
  }

  /** What a part of the tree costs, and whether anything is wrong with it. */
  datatype Cost = Cost(fits: bool, entries: nat, bytes: nat)

  function Both(a: Cost, b: Cost): Cost {
    Cost(a.fits && b.fits, a.entries + b.entries, a.bytes + b.bytes)
  }

  predicate Affordable(s: Scan, c: Cost) {
    && AllHarmless(s.findings) && c.fits
    && s.counter + c.entries <= MAX_INVENTORY_ENTRIES && s.used + c.bytes <= MAX_TOTAL_HASHED_BYTES
  }

  /** The scan loses nothing, explains what it reports, and finds nothing wrong
      exactly when the part fits and its cost can be afforded. */
  ghost predicate Reckons(env: Env, named: set<string>, s: Scan, r: Scan, c: Cost) {
    && Later(s, r) && (AllExplained(env, named, s.findings) ==> AllExplained(env, named, r.findings))
    && (InRange(s) ==>
          && (AllHarmless(r.findings) <==> Affordable(s, c))
          && (AllHarmless(r.findings) ==> r.counter == s.counter + c.entries && r.used == s.used + c.bytes))
  }

  lemma ReckonsBoth(env: Env, named: set<string>, s: Scan, m: Scan, r: Scan, a: Cost, b: Cost)
    requires Reckons(env, named, s, m, a) && Reckons(env, named, m, r, b)
    ensures Reckons(env, named, s, r, Both(a, b))
  {
    if AllHarmless(r.findings) { HarmlessPrefix(m.findings, r.findings); }
  }

  /** A part that already went wrong stays wrong, whatever follows. */
  lemma ReckonsWrong(env: Env, named: set<string>, s: Scan, m: Scan, r: Scan, a: Cost, b: Cost, c: Cost)
    requires Reckons(env, named, s, m, a) && Reckons(env, named, m, r, b) && !AllHarmless(m.findings)
    requires (c.fits ==> a.fits) && a.entries <= c.entries && a.bytes <= c.bytes
    ensures Reckons(env, named, s, r, c)
  {
    if AllHarmless(r.findings) { HarmlessPrefix(m.findings, r.findings); }
  }

  lemma ReckonsNothing(env: Env, named: set<string>, s: Scan, observed: set<string>)
    requires s.observed <= observed
    ensures Reckons(env, named, s, s.(observed := observed), Cost(true, 0, 0))
  {}

  lemma ReckonsNote(env: Env, named: set<string>, s: Scan, kind: FindingKind, path: Path, owners: set<Owner>)
    requires Explained(env, named, Finding(kind, path, owners))
    ensures Reckons(env, named, s, Noted(s, kind, path, owners), Cost(Harmless(Finding(kind, path, owners)), 0, 0))
  {
    HarmlessNote(s, kind, path, owners);
    ExplainedOneMore(env, named, s.findings, Finding(kind, path, owners));
  }

  // ------------------------------------------------------------- shard by shard

  lemma HashReckons(env: Env, named: set<string>, prefix: string, e: Entry, s: Scan)
    requires Stray(named, prefix, e) && e in ShardOf(env.tree, prefix).entries
    ensures Reckons(env, named, s, HashOrphan(env, prefix, e, s),
                    Cost(FileFits(named, prefix, e), 0, FileBytes(named, prefix, e)))
  {
    var path, contents := Leaf(prefix, e.name), e.kind.contents;
    ReckonsNote(env, named, s, LimitExceeded, path, {});
    ReckonsNote(env, named, s, ScanError, path, {});
    if contents.Known? {
      var kind := if env.hash(contents.bytes) == e.name then ValidFinalizedOrphan else CorruptFinalizedOrphan;
      var hashed := s.(used := s.used + |contents.bytes|);
      assert Explains(env, named, prefix, e, kind);
      ReckonsNote(env, named, hashed, kind, path, {});
    }
  }

  lemma FileReckons(env: Env, builders: map<string, Builder>, prefix: string, e: Entry, s: Scan)
    requires Owned(builders) && e in ShardOf(env.tree, prefix).entries
    ensures Reckons(env, builders.Keys, s, ShardEntry(env, builders, prefix, e, s),
                    Cost(FileFits(builders.Keys, prefix, e), 0, FileBytes(builders.Keys, prefix, e)))
  {
    var path, named := Leaf(prefix, e.name), builders.Keys;
    if e.kind.Unstatable? {
      ReckonsNote(env, named, s, ScanError, path, {});
    } else if e.kind.SymbolicLink? {
      ReckonsNote(env, named, s, Symlink, path, OwnersOf(builders, e.name));
    } else if e.kind.Regular? && e.kind.links != 1 {
      ReckonsNote(env, named, s, Hardlink, path, OwnersOf(builders, e.name));
    } else if TEMP_PREFIX <= e.name {
      var kind := if e.kind.Regular? then TempOrphan else SpecialFile;
      assert e.kind.Regular? ==> Explains(env, named, prefix, e, kind);
      ReckonsNote(env, named, s, kind, path, {});
    } else if !CanonicalName(prefix, e.name) || !e.kind.Regular? {
      ReckonsNote(env, named, s, Misplaced(e.kind), path, {});
    } else if e.name in builders {
      ReckonsNothing(env, named, s, s.observed + {e.name});
    } else {
      HashReckons(env, named, prefix, e, s);
    }
  }

  lemma FilesFitOneMore(named: set<string>, prefix: string, entries: seq<Entry>)
    requires entries != []
    ensures FilesFit(named, prefix, entries) <==>
            FilesFit(named, prefix, entries[..|entries| - 1]) && FileFits(named, prefix, entries[|entries| - 1])
  {
    var before := entries[..|entries| - 1];
    if FilesFit(named, prefix, before) && FileFits(named, prefix, entries[|entries| - 1]) {
      forall i | 0 <= i < |entries| ensures FileFits(named, prefix, entries[i]) {
        if i < |before| { assert FileFits(named, prefix, before[i]); }
      }
    }
    if FilesFit(named, prefix, entries) {
      forall i | 0 <= i < |before| ensures FileFits(named, prefix, before[i]) { assert FileFits(named, prefix, entries[i]); }
      assert FileFits(named, prefix, entries[|entries| - 1]);
    }
  }

  predicate PartOf(entries: seq<Entry>, whole: seq<Entry>) {
    forall e :: e in entries ==> e in whole
  }

  lemma {:induction false} FilesReckon(env: Env, builders: map<string, Builder>, prefix: string, entries: seq<Entry>, s: Scan)
    requires Owned(builders) && PartOf(entries, ShardOf(env.tree, prefix).entries)
    ensures Reckons(env, builders.Keys, s, ShardEntries(env, builders, prefix, entries, s),
                    Cost(FilesFit(builders.Keys, prefix, entries), 0, ShardBytes(builders.Keys, prefix, entries)))
  {
    var named := builders.Keys;
    if entries == [] {
      ReckonsNothing(env, named, s, s.observed);
    } else {
      var before, e := entries[..|entries| - 1], entries[|entries| - 1];
      var m := ShardEntries(env, builders, prefix, before, s);
      FilesReckon(env, builders, prefix, before, s);
      FileReckons(env, builders, prefix, e, m);
      FilesFitOneMore(named, prefix, entries);
      ReckonsBoth(env, named, s, m, ShardEntry(env, builders, prefix, e, m),
                  Cost(FilesFit(named, prefix, before), 0, ShardBytes(named, prefix, before)),
                  Cost(FileFits(named, prefix, e), 0, FileBytes(named, prefix, e)));
    }
  }

  /** Listing a directory: what it keeps is part of what is there, and when nothing
      is wrong it is all of it. */
  lemma {:induction false} ListedReckons(env: Env, named: set<string>, entries: seq<Entry>, path: Path, s: Scan)
    ensures var l := Listed(entries, path, s);
            && Reckons(env, named, s, l.scan, Cost(AllDecodable(entries), |entries|, 0))
            && (l.entries.Some? ==> PartOf(l.entries.value, entries))
            && (l.entries == None ==> !Completes(l.scan.findings))
            && (Completes(l.scan.findings) ==> l.entries == Some(entries))
  {
    if entries == [] {
      ReckonsNothing(env, named, s, s.observed);
    } else {
      var before, e := entries[..|entries| - 1], entries[|entries| - 1];
      assert before + [e] == entries;
      ListedReckons(env, named, before, path, s);
      ListedOneMore(env, named, before, e, path, s);
    }
  }

  lemma IncompleteNote(s: Scan, kind: FindingKind, path: Path)
    requires kind == ScanError || kind == LimitExceeded
    ensures !Completes(Noted(s, kind, path, {}).findings)
  {
    assert Noted(s, kind, path, {}).findings[|s.findings|].kind == kind;
  }

  lemma CompleteBefore(a: seq<Finding>, b: seq<Finding>)
    requires a <= b && Completes(b)
    ensures Completes(a)
  {
    forall i | 0 <= i < |a| ensures a[i].kind != ScanError && a[i].kind != LimitExceeded { assert a[i] == b[i]; }
  }

  lemma HarmlessIsComplete(fs: seq<Finding>)
    requires AllHarmless(fs)
    ensures Completes(fs)
  {
    forall i | 0 <= i < |fs| ensures fs[i].kind != ScanError && fs[i].kind != LimitExceeded { assert Harmless(fs[i]); }
  }

  /** One more entry of a directory. */
  lemma ListedOneMore(env: Env, named: set<string>, before: seq<Entry>, e: Entry, path: Path, s: Scan)
    requires var l := Listed(before, path, s);
             && Reckons(env, named, s, l.scan, Cost(AllDecodable(before), |before|, 0))
             && (l.entries.Some? ==> PartOf(l.entries.value, before))
             && (l.entries == None ==> !Completes(l.scan.findings))
             && (Completes(l.scan.findings) ==> l.entries == Some(before))
    ensures var l := Listed(before + [e], path, s);
            && Reckons(env, named, s, l.scan, Cost(AllDecodable(before + [e]), |before| + 1, 0))
            && (l.entries.Some? ==> PartOf(l.entries.value, before + [e]))
            && (l.entries == None ==> !Completes(l.scan.findings))
            && (Completes(l.scan.findings) ==> l.entries == Some(before + [e]))
  {
    var all := before + [e];
    assert all[..|all| - 1] == before && all[|all| - 1] == e;
    var b := Listed(before, path, s);
    var counted := b.scan.(counter := b.scan.counter + 1);
    assert AllDecodable(all) <==> AllDecodable(before) && e.decodable by {
      assert AllDecodable(before) && e.decodable ==> AllDecodable(all);
      if AllDecodable(all) {
        forall i | 0 <= i < |before| ensures before[i].decodable { assert all[i].decodable; }
        assert all[|before|].decodable;
      }
    }
    if b.entries == None {
      if AllHarmless(b.scan.findings) { HarmlessIsComplete(b.scan.findings); }
    } else {
      HarmlessNote(counted, LimitExceeded, path, {});
      HarmlessNote(counted, ScanError, path, {});
      IncompleteNote(counted, LimitExceeded, path);
      IncompleteNote(counted, ScanError, path);
      ExplainedOneMore(env, named, counted.findings, Finding(LimitExceeded, path, {}));
      ExplainedOneMore(env, named, counted.findings, Finding(ScanError, path, {}));
    }
  }

  lemma DirectoryReckons(env: Env, named: set<string>, l: Listing, path: Path, s: Scan)
    ensures var d := ScanDirectory(l, path, s);
            && Reckons(env, named, s, d.scan, Cost(l.listable && AllDecodable(l.entries), |l.entries|, 0))
            && (d.entries.Some? ==> PartOf(d.entries.value, l.entries))
            && (d.entries == None ==> !Completes(d.scan.findings))
            && (Completes(d.scan.findings) ==> d.entries == Some(l.entries))
  {
    if l.listable {
      ListedReckons(env, named, l.entries, path, s);
    } else {
      ReckonsNote(env, named, s, ScanError, path, {});
      IncompleteNote(s, ScanError, path);
      HarmlessNote(s, ScanError, path, {});
    }
  }

  /** Listing a directory and then going through what was kept: the whole costs what
      its listing and its entries cost. */
  lemma ListingReckons(
      env: Env, named: set<string>, s: Scan, listed: Scan, r: Scan, whole: bool, listing: Cost, kept: Cost, contents: Cost)
    requires Reckons(env, named, s, listed, listing) && Reckons(env, named, listed, r, kept)
    requires AllHarmless(listed.findings) ==> whole
    requires whole ==> kept == contents
    ensures Reckons(env, named, s, r, Both(listing, contents))
  {
    if whole {
      ReckonsBoth(env, named, s, listed, r, listing, contents);
    } else {
      ReckonsWrong(env, named, s, listed, r, listing, kept, Both(listing, contents));
    }
  }

  function ShardCost(t: Tree, named: set<string>, prefix: string): Cost {
    Cost(ShardFits(t, named, prefix), |ShardOf(t, prefix).entries|, ShardBytes(named, prefix, ShardOf(t, prefix).entries))
  }

  lemma ShardReckons(env: Env, builders: map<string, Builder>, prefix: string, s: Scan)
    requires Owned(builders)
    ensures Reckons(env, builders.Keys, s, Shard(env, builders, prefix, s), ShardCost(env.tree, builders.Keys, prefix))
  {
    var named, l := builders.Keys, ShardOf(env.tree, prefix);
    var d := ScanDirectory(l, ShaEntry(prefix), s);
    var listing := Cost(l.listable && AllDecodable(l.entries), |l.entries|, 0);
    var contents := Cost(FilesFit(named, prefix, l.entries), 0, ShardBytes(named, prefix, l.entries));
    DirectoryReckons(env, named, l, ShaEntry(prefix), s);
    if AllHarmless(d.scan.findings) { HarmlessIsComplete(d.scan.findings); }
    var kept := Cost(true, 0, 0);
    if d.entries == None {
      ReckonsNothing(env, named, d.scan, d.scan.observed);
    } else {
      FilesReckon(env, builders, prefix, d.entries.value, d.scan);
      kept := Cost(FilesFit(named, prefix, d.entries.value), 0, ShardBytes(named, prefix, d.entries.value));
    }
    ListingReckons(env, named, s, d.scan, Shard(env, builders, prefix, s), d.entries == Some(l.entries), listing, kept, contents);
    assert Both(listing, contents) == ShardCost(env.tree, named, prefix);
  }

  // ------------------------------------------------------------ folder by folder

  function FolderCost(t: Tree, named: set<string>, e: Entry): Cost {
    Cost(FolderFits(t, named, e), if IsShard(e) then |ShardOf(t, e.name).entries| else 0,
         if IsShard(e) then ShardBytes(named, e.name, ShardOf(t, e.name).entries) else 0)
  }

  lemma OwnedUnder(builders: map<string, Builder>, prefix: string)
    requires Owned(builders)
    ensures OwnersUnder(builders, prefix) == {} <==> forall d :: d in builders.Keys ==> !(prefix <= d)
  {
    forall d | d in builders && prefix <= d ensures OwnersUnder(builders, prefix) != {} {
      var o :| o in builders[d].owners;
      assert o in OwnersUnder(builders, prefix);
    }
  }

  lemma FolderReckons(env: Env, builders: map<string, Builder>, e: Entry, s: Scan)
    requires Owned(builders)
    ensures Reckons(env, builders.Keys, s, PrefixEntry(env, builders, e, s), FolderCost(env.tree, builders.Keys, e))
  {
    var path, named := ShaEntry(e.name), builders.Keys;
    if e.kind.Unstatable? {
      ReckonsNote(env, named, s, ScanError, path, {});
    } else if e.kind.SymbolicLink? {
      OwnedUnder(builders, e.name);
      ReckonsNote(env, named, s, Symlink, path, OwnersUnder(builders, e.name));
    } else if !IsShard(e) {
      ReckonsNote(env, named, s, Misplaced(e.kind), path, {});
    } else {
      ShardReckons(env, builders, e.name, s);
    }
  }

  lemma FoldersFitOneMore(t: Tree, named: set<string>, entries: seq<Entry>)
    requires entries != []
    ensures FoldersFit(t, named, entries) <==>
            FoldersFit(t, named, entries[..|entries| - 1]) && FolderFits(t, named, entries[|entries| - 1])
  {
    var before := entries[..|entries| - 1];
    if FoldersFit(t, named, before) && FolderFits(t, named, entries[|entries| - 1]) {
      forall i | 0 <= i < |entries| ensures FolderFits(t, named, entries[i]) {
        if i < |before| { assert FolderFits(t, named, before[i]); }
      }
    }
    if FoldersFit(t, named, entries) {
      forall i | 0 <= i < |before| ensures FolderFits(t, named, before[i]) { assert FolderFits(t, named, entries[i]); }
      assert FolderFits(t, named, entries[|entries| - 1]);
    }
  }

  function FoldersCost(t: Tree, named: set<string>, entries: seq<Entry>): Cost {
    Cost(FoldersFit(t, named, entries), FolderCount(t, entries), FolderBytes(t, named, entries))
  }

  lemma {:induction false} FoldersReckon(env: Env, builders: map<string, Builder>, entries: seq<Entry>, s: Scan)
    requires Owned(builders)
    ensures Reckons(env, builders.Keys, s, PrefixEntries(env, builders, entries, s), FoldersCost(env.tree, builders.Keys, entries))
  {
    var named := builders.Keys;
    if entries == [] {
      ReckonsNothing(env, named, s, s.observed);
    } else {
      var before, e := entries[..|entries| - 1], entries[|entries| - 1];
      var m := PrefixEntries(env, builders, before, s);
      FoldersReckon(env, builders, before, s);
      FolderReckons(env, builders, e, m);
      FoldersFitOneMore(env.tree, named, entries);
      ReckonsBoth(env, named, s, m, PrefixEntry(env, builders, e, m),
                  FoldersCost(env.tree, named, before), FolderCost(env.tree, named, e));
    }
  }

  // ------------------------------------------------------------------- the store

  function TopCost(t: Tree, named: set<string>, e: Entry): Cost {
    Cost(TopFits(t, named, e), if IsSha(e) then |t.sha.entries| + FolderCount(t, t.sha.entries) else 0,
         if IsSha(e) then FolderBytes(t, named, t.sha.entries) else 0)
  }

  lemma ShaReckons(env: Env, builders: map<string, Builder>, e: Entry, s: Scan)
    requires Owned(builders) && IsSha(e)
    ensures Reckons(env, builders.Keys, s, TopLevelEntry(env, builders, e, s), TopCost(env.tree, builders.Keys, e))
  {
    var named, l := builders.Keys, env.tree.sha;
    var d := ScanDirectory(l, TopEntry(e.name), s);
    var listing := Cost(l.listable && AllDecodable(l.entries), |l.entries|, 0);
    var contents := FoldersCost(env.tree, named, l.entries);
    DirectoryReckons(env, named, l, TopEntry(e.name), s);
    if AllHarmless(d.scan.findings) { HarmlessIsComplete(d.scan.findings); }
    var kept := Cost(true, 0, 0);
    if d.entries == None {
      ReckonsNothing(env, named, d.scan, d.scan.observed);
    } else {
      FoldersReckon(env, builders, d.entries.value, d.scan);
      kept := FoldersCost(env.tree, named, d.entries.value);
    }
    ListingReckons(env, named, s, d.scan, TopLevelEntry(env, builders, e, s), d.entries == Some(l.entries), listing, kept, contents);
    assert Both(listing, contents) == TopCost(env.tree, named, e);
  }

  lemma TopReckons(env: Env, builders: map<string, Builder>, e: Entry, s: Scan)
    requires Owned(builders)
    ensures Reckons(env, builders.Keys, s, TopLevelEntry(env, builders, e, s), TopCost(env.tree, builders.Keys, e))
  {
    var path, named := TopEntry(e.name), builders.Keys;
    if e.kind.Unstatable? {
      ReckonsNote(env, named, s, ScanError, path, {});
    } else if e.name != SHA_NAME {
      ReckonsNote(env, named, s, if e.kind.SymbolicLink? then Symlink else Misplaced(e.kind), path, {});
    } else if e.kind.SymbolicLink? {
      OwnedUnder(builders, "");
      assert OwnersUnder(builders, "") == {} <==> named == {};
      ReckonsNote(env, named, s, Symlink, path, OwnersUnder(builders, ""));
    } else if !e.kind.Folder? {
      ReckonsNote(env, named, s, NoncanonicalEntry, path, {});
    } else {
      ShaReckons(env, builders, e, s);
    }
  }

  lemma TopsFitOneMore(t: Tree, named: set<string>, entries: seq<Entry>)
    requires entries != []
    ensures TopsFit(t, named, entries) <==>
            TopsFit(t, named, entries[..|entries| - 1]) && TopFits(t, named, entries[|entries| - 1])
  {
    var before := entries[..|entries| - 1];
    if TopsFit(t, named, before) && TopFits(t, named, entries[|entries| - 1]) {
      forall i | 0 <= i < |entries| ensures TopFits(t, named, entries[i]) {
        if i < |before| { assert TopFits(t, named, before[i]); }
      }
    }
    if TopsFit(t, named, entries) {
      forall i | 0 <= i < |before| ensures TopFits(t, named, before[i]) { assert TopFits(t, named, entries[i]); }
      assert TopFits(t, named, entries[|entries| - 1]);
    }
  }

  function TopsCost(t: Tree, named: set<string>, entries: seq<Entry>): Cost {
    Cost(TopsFit(t, named, entries), TopCount(t, entries), TopBytes(t, named, entries))
  }

  lemma {:induction false} TopsReckon(env: Env, builders: map<string, Builder>, entries: seq<Entry>, s: Scan)
    requires Owned(builders)
    ensures Reckons(env, builders.Keys, s, TopLevelEntries(env, builders, entries, s), TopsCost(env.tree, builders.Keys, entries))
  {
    var named := builders.Keys;
    if entries == [] {
      ReckonsNothing(env, named, s, s.observed);
    } else {
      var before, e := entries[..|entries| - 1], entries[|entries| - 1];
      var m := TopLevelEntries(env, builders, before, s);
      TopsReckon(env, builders, before, s);
      TopReckons(env, builders, e, m);
      TopsFitOneMore(env.tree, named, entries);
      ReckonsBoth(env, named, s, m, TopLevelEntry(env, builders, e, m),
                  TopsCost(env.tree, named, before), TopCost(env.tree, named, e));
    }
  }

  function TreeCost(t: Tree, named: set<string>): Cost {
    Cost(TreeFits(t, named), EntryCount(t), StrayBytes(t, named))
  }

  /** The scan of a whole store. */
  lemma InventoryReckons(env: Env, builders: map<string, Builder>, s: Scan)
    requires Owned(builders)
    ensures Reckons(env, builders.Keys, s, Inventoried(env, builders, s), TreeCost(env.tree, builders.Keys))
  {
    var named, l := builders.Keys, env.tree.root;
    var d := ScanDirectory(l, Top, s);
    var listing := Cost(l.listable && AllDecodable(l.entries), |l.entries|, 0);
    var contents := TopsCost(env.tree, named, l.entries);
    DirectoryReckons(env, named, l, Top, s);
    if AllHarmless(d.scan.findings) { HarmlessIsComplete(d.scan.findings); }
    var kept := Cost(true, 0, 0);
    if d.entries == None {
      ReckonsNothing(env, named, d.scan, d.scan.observed);
    } else {
      TopsReckon(env, builders, d.entries.value, d.scan);
      kept := TopsCost(env.tree, named, d.entries.value);
    }
    ListingReckons(env, named, s, d.scan, Inventoried(env, builders, s), d.entries == Some(l.entries), listing, kept, contents);
    assert Both(listing, contents) == TreeCost(env.tree, named);
  }

  // -------------------------------------------- nothing in the tree is passed over

  /** The file stands at this name of a shard, through two real directories. */
  predicate Stands(t: Tree, prefix: string, e: Entry) {
    && (exists top :: top in t.root.entries && IsSha(top))
    && (exists folder :: folder in t.sha.entries && IsShard(folder) && folder.name == prefix)
    && e in ShardOf(t, prefix).entries
  }

  lemma {:induction false} FileIsReached(env: Env, builders: map<string, Builder>, prefix: string, entries: seq<Entry>, e: Entry, s: Scan)
    returns (a: Scan)
    requires e in entries
    ensures Later(ShardEntry(env, builders, prefix, e, a), ShardEntries(env, builders, prefix, entries, s))
  {
    var before, last := entries[..|entries| - 1], entries[|entries| - 1];
    var m := ShardEntries(env, builders, prefix, before, s);
    if e == last {
      a := m;
    } else {
      assert entries == before + [last];
      a := FileIsReached(env, builders, prefix, before, e, s);
      ShardEntryFacts(env, builders, prefix, last, m);
    }
  }

  lemma {:induction false} ShardIsReached(env: Env, builders: map<string, Builder>, entries: seq<Entry>, folder: Entry, s: Scan)
    returns (a: Scan)
    requires folder in entries && IsShard(folder)
    ensures Later(Shard(env, builders, folder.name, a), PrefixEntries(env, builders, entries, s))
  {
    var before, last := entries[..|entries| - 1], entries[|entries| - 1];
    var m := PrefixEntries(env, builders, before, s);
    if folder == last {
      a := m;
    } else {
      assert entries == before + [last];
      a := ShardIsReached(env, builders, before, folder, s);
      PrefixEntryFacts(env, builders, last, m);
    }
  }

  lemma {:induction false} ShaIsReached(env: Env, builders: map<string, Builder>, entries: seq<Entry>, top: Entry, s: Scan)
    returns (a: Scan)
    requires top in entries && IsSha(top)
    ensures Later(TopLevelEntry(env, builders, top, a), TopLevelEntries(env, builders, entries, s))
  {
    var before, last := entries[..|entries| - 1], entries[|entries| - 1];
    var m := TopLevelEntries(env, builders, before, s);
    if top == last {
      a := m;
    } else {
      assert entries == before + [last];
      a := ShaIsReached(env, builders, before, top, s);
      TopLevelEntryFacts(env, builders, last, m);
    }
  }

  /** A directory that a complete scan listed was listed in full. */
  lemma CompleteDirectory(env: Env, named: set<string>, l: Listing, path: Path, s: Scan, r: Scan)
    requires Later(ScanDirectory(l, path, s).scan, r) && Completes(r.findings)
    ensures ScanDirectory(l, path, s).entries == Some(l.entries)
  {
    DirectoryReckons(env, named, l, path, s);
    CompleteBefore(ScanDirectory(l, path, s).scan.findings, r.findings);
  }

  lemma ShardIsScanned(env: Env, builders: map<string, Builder>, prefix: string, s: Scan) returns (a: Scan)
    requires Completes(Inventoried(env, builders, s).findings)
    requires exists top :: top in env.tree.root.entries && IsSha(top)
    requires exists folder :: folder in env.tree.sha.entries && IsShard(folder) && folder.name == prefix
    ensures Later(Shard(env, builders, prefix, a), Inventoried(env, builders, s))
  {
    var top :| top in env.tree.root.entries && IsSha(top);
    var folder :| folder in env.tree.sha.entries && IsShard(folder) && folder.name == prefix;
    var r, d := Inventoried(env, builders, s), ScanDirectory(env.tree.root, Top, s);
    if d.entries.Some? { TopLevelEntriesFacts(env, builders, d.entries.value, d.scan); }
    CompleteDirectory(env, builders.Keys, env.tree.root, Top, s, r);
    var b := ShaIsReached(env, builders, d.entries.value, top, d.scan);
    var sha := ScanDirectory(env.tree.sha, TopEntry(top.name), b);
    if sha.entries.Some? { PrefixEntriesFacts(env, builders, sha.entries.value, sha.scan); }
    CompleteDirectory(env, builders.Keys, env.tree.sha, TopEntry(top.name), b, r);
    a := ShardIsReached(env, builders, sha.entries.value, folder, sha.scan);
  }

  /** A complete scan has looked at every file of every shard. */
  lemma FileIsScanned(env: Env, builders: map<string, Builder>, prefix: string, e: Entry, s: Scan) returns (a: Scan)
    requires Completes(Inventoried(env, builders, s).findings) && Stands(env.tree, prefix, e)
    ensures Later(ShardEntry(env, builders, prefix, e, a), Inventoried(env, builders, s))
  {
    var r, l := Inventoried(env, builders, s), ShardOf(env.tree, prefix);
    var b := ShardIsScanned(env, builders, prefix, s);
    var d := ScanDirectory(l, ShaEntry(prefix), b);
    if d.entries.Some? { ShardEntriesFacts(env, builders, prefix, d.entries.value, d.scan); }
    CompleteDirectory(env, builders.Keys, l, ShaEntry(prefix), b, r);
    a := FileIsReached(env, builders, prefix, l.entries, e, d.scan);
  }
}
