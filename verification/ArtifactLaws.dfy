/** What every interleaving of publishers, deaths and power cuts keeps. */
module ArtifactLaws {
  import opened Usage
  import opened Artifacts

  ghost predicate Injective(hash: Digest) {
    forall a, b :: hash(a) == hash(b) ==> a == b
  }

  // ------------------------------------------------ the file system invariant

  predicate Sealed(fs: Fs, inode: nat) {
    inode in fs.data && inode in fs.savedData && fs.savedData[inode] == fs.data[inode]
  }

  predicate EntryPlaced(fs: Fs, n: Name)
    requires n in fs.names
  {
    && Sha in fs.dirs && Shard(Parent(n)) in fs.dirs
    && fs.names[n] in fs.data && fs.names[n] < fs.next && (n.Temp? ==> fs.names[n] == n.id)
  }

  predicate SavedEntryPlaced(fs: Fs, n: Name)
    requires n in fs.savedNames
  {
    && fs.savedNames[n] in fs.data && fs.savedNames[n] < fs.next && (n.Temp? ==> fs.savedNames[n] == n.id)
    && (n.Canon? ==> n in fs.names && fs.names[n] == fs.savedNames[n])
  }

  predicate SingleLinks(names: map<Name, nat>) {
    forall m, n :: m in names && n in names && names[m] == names[n] ==> m == n
  }

  /** No file is known under two directories, before and after write-back. */
  predicate OneHome(fs: Fs) {
    forall m, n :: m in fs.names && n in fs.savedNames && fs.names[m] == fs.savedNames[n] ==> Parent(m) == Parent(n)
  }

  predicate Original(base: Fs, n: Name) {
    n.Canon? && n in base.names
  }

  /** A canonical entry is the one the store opened with, or holds exactly the
      bytes of its digest; either way its file is on disk. */
  predicate CanonHolds(hash: Digest, base: Fs, fs: Fs, n: Name)
    requires n in fs.names
  {
    && Sealed(fs, fs.names[n])
    && (if Original(base, n) then
          fs.names[n] == base.names[n] && base.names[n] in base.data && fs.data[fs.names[n]] == base.data[base.names[n]]
        else n.Canon? ==> hash(fs.data[fs.names[n]]) == n.digest)
  }

  predicate OriginalKept(base: Fs, fs: Fs, n: Name) {
    && n in fs.names && n in fs.savedNames
    && Sha in fs.savedDirs && Shard(Parent(n)) in fs.savedDirs
  }

  predicate FsInv(hash: Digest, base: Fs, fs: Fs) {
    && fs.savedDirs <= fs.dirs && base.next <= fs.next
    && (forall i :: i in fs.data ==> i < fs.next)
    && (forall n :: n in fs.names ==> EntryPlaced(fs, n))
    && (forall n :: n in fs.savedNames ==> SavedEntryPlaced(fs, n))
    && SingleLinks(fs.names) && SingleLinks(fs.savedNames) && OneHome(fs)
    && (forall n :: n in fs.names && n.Canon? ==> CanonHolds(hash, base, fs, n))
    && (forall n :: n in base.names && n.Canon? ==> OriginalKept(base, fs, n))
  }

  /** What a step may do to entries other than its owner's temporary. */
  predicate EntryKept(fs: Fs, g: Fs, n: Name)
    requires n in fs.names && fs.names[n] in fs.data
  {
    && n in g.names && g.names[n] == fs.names[n]
    && fs.names[n] in g.data && g.data[fs.names[n]] == fs.data[fs.names[n]]
    && (Sealed(fs, fs.names[n]) ==> Sealed(g, fs.names[n]))
  }

  predicate Owns(owner: Option<nat>, n: Name) {
    n.Temp? && owner == Some(n.id)
  }

  predicate Rely(fs: Fs, g: Fs, owner: Option<nat>) {
    && fs.dirs <= g.dirs && fs.savedDirs <= g.savedDirs && fs.next <= g.next
    && (forall n :: n in fs.names && !Owns(owner, n) ==> fs.names[n] in fs.data && EntryKept(fs, g, n))
    && (forall n :: n in g.names && n !in fs.names ==> n.Canon? || n.id >= fs.next)
    && (forall n :: n in g.savedNames && n !in fs.savedNames ==> n in fs.names)
    && (forall n :: n in fs.savedNames && n.Canon? ==> n in g.savedNames)
  }

  // ----------------------------------------------------------- the primitives

  lemma MakeDirKeeps(hash: Digest, base: Fs, fs: Fs, dir: Dir, owner: Option<nat>)
    requires FsInv(hash, base, fs)
    ensures FsInv(hash, base, MakeDir(fs, dir)) && Rely(fs, MakeDir(fs, dir), owner)
  {}

  lemma SyncRootKeeps(hash: Digest, base: Fs, fs: Fs, owner: Option<nat>)
    requires FsInv(hash, base, fs)
    ensures FsInv(hash, base, SyncRootDir(fs)) && Rely(fs, SyncRootDir(fs), owner)
  {}

  lemma SyncShaKeeps(hash: Digest, base: Fs, fs: Fs, owner: Option<nat>)
    requires FsInv(hash, base, fs)
    ensures FsInv(hash, base, SyncShaDir(fs)) && Rely(fs, SyncShaDir(fs), owner)
  {}

  lemma SyncDataKeeps(hash: Digest, base: Fs, fs: Fs, inode: nat, owner: Option<nat>)
    requires FsInv(hash, base, fs)
    ensures FsInv(hash, base, SyncData(fs, inode)) && Rely(fs, SyncData(fs, inode), owner)
  {
    var g := SyncData(fs, inode);
    forall n | n in fs.names && n.Canon? ensures CanonHolds(hash, base, g, n) {
      assert CanonHolds(hash, base, fs, n);
    }
  }

  lemma SyncShardNames(fs: Fs, prefix: string)
    ensures var g := SyncShardDir(fs, prefix);
            && (forall n :: n in g.savedNames <==> if Parent(n) == prefix then n in fs.names else n in fs.savedNames)
            && (forall n :: n in g.savedNames ==>
                  g.savedNames[n] == if Parent(n) == prefix then fs.names[n] else fs.savedNames[n])
            && g == fs.(savedNames := g.savedNames)
  {}

  lemma SyncShardLinks(hash: Digest, base: Fs, fs: Fs, prefix: string)
    requires FsInv(hash, base, fs)
    ensures SingleLinks(SyncShardDir(fs, prefix).savedNames) && OneHome(SyncShardDir(fs, prefix))
  {
    SyncShardNames(fs, prefix);
    var g := SyncShardDir(fs, prefix);
    forall m, n | m in g.savedNames && n in g.savedNames && g.savedNames[m] == g.savedNames[n] ensures m == n {
      if Parent(m) == prefix && Parent(n) != prefix {
        assert fs.names[m] == fs.savedNames[n];
      }
    }
  }

  lemma SyncShardKeeps(hash: Digest, base: Fs, fs: Fs, prefix: string, owner: Option<nat>)
    requires FsInv(hash, base, fs)
    ensures FsInv(hash, base, SyncShardDir(fs, prefix)) && Rely(fs, SyncShardDir(fs, prefix), owner)
  {
    SyncShardNames(fs, prefix);
    SyncShardLinks(hash, base, fs, prefix);
    var g := SyncShardDir(fs, prefix);
    forall n | n in g.savedNames ensures SavedEntryPlaced(g, n) {
      if Parent(n) == prefix { assert EntryPlaced(fs, n); } else { assert SavedEntryPlaced(fs, n); }
    }
    forall n | n in fs.names && n.Canon? ensures CanonHolds(hash, base, g, n) {
      assert CanonHolds(hash, base, fs, n);
    }
  }

  lemma CreateTempLinks(hash: Digest, base: Fs, fs: Fs, prefix: string)
    requires FsInv(hash, base, fs)
    ensures SingleLinks(CreateTemp(fs, prefix).names) && OneHome(CreateTemp(fs, prefix))
  {
    var g := CreateTemp(fs, prefix);
    forall m, n | m in g.names && n in g.names && g.names[m] == g.names[n] ensures m == n {
      if m in fs.names { assert EntryPlaced(fs, m); }
      if n in fs.names { assert EntryPlaced(fs, n); }
    }
    forall m, n | m in g.names && n in g.savedNames && g.names[m] == g.savedNames[n] ensures Parent(m) == Parent(n) {
      assert SavedEntryPlaced(fs, n);
    }
  }

  lemma CreateTempEntries(hash: Digest, base: Fs, fs: Fs, prefix: string)
    requires FsInv(hash, base, fs) && Sha in fs.dirs && Shard(prefix) in fs.dirs
    ensures var g := CreateTemp(fs, prefix);
            && (forall n :: n in g.names ==> EntryPlaced(g, n))
            && (forall n :: n in g.savedNames ==> SavedEntryPlaced(g, n))
            && (forall n :: n in g.names && n.Canon? ==> CanonHolds(hash, base, g, n))
  {
    var g := CreateTemp(fs, prefix);
    forall n | n in g.names ensures EntryPlaced(g, n) {
      if n in fs.names { assert EntryPlaced(fs, n); }
    }
    forall n | n in g.savedNames ensures SavedEntryPlaced(g, n) { assert SavedEntryPlaced(fs, n); }
    forall n | n in g.names && n.Canon? ensures CanonHolds(hash, base, g, n) {
      assert CanonHolds(hash, base, fs, n) && EntryPlaced(fs, n);
    }
  }

  lemma CreateTempKeeps(hash: Digest, base: Fs, fs: Fs, prefix: string)
    requires FsInv(hash, base, fs) && Sha in fs.dirs && Shard(prefix) in fs.dirs
    ensures FsInv(hash, base, CreateTemp(fs, prefix))
  {
    CreateTempLinks(hash, base, fs, prefix);
    CreateTempEntries(hash, base, fs, prefix);
  }

  lemma CreateTempRelies(hash: Digest, base: Fs, fs: Fs, prefix: string)
    requires FsInv(hash, base, fs)
    ensures Rely(fs, CreateTemp(fs, prefix), Some(fs.next))
  {
    var g := CreateTemp(fs, prefix);
    forall n | n in fs.names ensures fs.names[n] in fs.data && EntryKept(fs, g, n) {
      assert EntryPlaced(fs, n);
    }
  }

  lemma WriteDataKeeps(hash: Digest, base: Fs, fs: Fs, prefix: string, inode: nat, bytes: Bytes)
    requires FsInv(hash, base, fs) && Temp(prefix, inode) in fs.names
    ensures FsInv(hash, base, WriteData(fs, inode, bytes)) && Rely(fs, WriteData(fs, inode, bytes), Some(inode))
  {}

  lemma PublishLinks(hash: Digest, base: Fs, fs: Fs, temp: Name, target: Name)
    requires FsInv(hash, base, fs) && temp.Temp? && target.Canon? && Parent(temp) == Parent(target)
    requires temp in fs.names && target !in fs.names
    ensures SingleLinks(Publish(fs, temp, target).names) && OneHome(Publish(fs, temp, target))
  {}

  lemma PublishEntries(hash: Digest, base: Fs, fs: Fs, temp: Name, target: Name)
    requires FsInv(hash, base, fs) && temp.Temp? && target.Canon? && Parent(temp) == Parent(target)
    requires temp in fs.names && target !in fs.names && Sealed(fs, fs.names[temp])
    requires hash(fs.data[fs.names[temp]]) == target.digest
    ensures var g := Publish(fs, temp, target);
            && (forall n :: n in g.names ==> EntryPlaced(g, n))
            && (forall n :: n in g.savedNames ==> SavedEntryPlaced(g, n))
            && (forall n :: n in g.names && n.Canon? ==> CanonHolds(hash, base, g, n))
  {
    var g := Publish(fs, temp, target);
    forall n | n in g.names ensures EntryPlaced(g, n) {
      assert EntryPlaced(fs, if n == target then temp else n);
    }
    forall n | n in g.savedNames ensures SavedEntryPlaced(g, n) { assert SavedEntryPlaced(fs, n); }
    forall n | n in g.names && n.Canon? ensures CanonHolds(hash, base, g, n) {
      if n != target { assert CanonHolds(hash, base, fs, n); }
    }
  }

  lemma PublishKeeps(hash: Digest, base: Fs, fs: Fs, temp: Name, target: Name)
    requires FsInv(hash, base, fs) && temp.Temp? && target.Canon? && Parent(temp) == Parent(target)
    requires temp in fs.names && target !in fs.names && Sealed(fs, fs.names[temp])
    requires hash(fs.data[fs.names[temp]]) == target.digest
    ensures FsInv(hash, base, Publish(fs, temp, target))
  {
    PublishLinks(hash, base, fs, temp, target);
    PublishEntries(hash, base, fs, temp, target);
  }

  lemma PublishRelies(hash: Digest, base: Fs, fs: Fs, temp: Name, target: Name)
    requires FsInv(hash, base, fs) && temp.Temp? && target.Canon? && temp in fs.names && target !in fs.names
    ensures Rely(fs, Publish(fs, temp, target), Some(temp.id))
  {}

  lemma RemoveKeeps(hash: Digest, base: Fs, fs: Fs, temp: Name)
    requires FsInv(hash, base, fs) && temp.Temp?
    ensures FsInv(hash, base, Remove(fs, temp))
  {
    var g := Remove(fs, temp);
    forall n | n in g.names ensures EntryPlaced(g, n) { assert EntryPlaced(fs, n); }
    forall n | n in g.names && n.Canon? ensures CanonHolds(hash, base, g, n) { assert CanonHolds(hash, base, fs, n); }
    forall n | n in g.savedNames ensures SavedEntryPlaced(g, n) { assert SavedEntryPlaced(fs, n); }
  }

  lemma RemoveRelies(hash: Digest, base: Fs, fs: Fs, temp: Name)
    requires FsInv(hash, base, fs) && temp.Temp?
    ensures Rely(fs, Remove(fs, temp), Some(temp.id))
  {
    forall n | n in fs.names && !Owns(Some(temp.id), n) ensures fs.names[n] in fs.data && EntryKept(fs, Remove(fs, temp), n) {
      assert EntryPlaced(fs, n);
    }
  }

  lemma PowerCutKeeps(hash: Digest, base: Fs, fs: Fs, garbage: nat -> Bytes)
    requires FsInv(hash, base, fs)
    ensures FsInv(hash, base, AfterPowerCut(fs, garbage))
  {}

  // --------------------------------------------------- one publisher's invariant

  predicate HasDirs(fs: Fs, home: string) {
    && Sha in fs.dirs && Sha in fs.savedDirs && Shard(home) in fs.dirs && Shard(home) in fs.savedDirs
  }

  predicate TempHolds(fs: Fs, home: string, t: nat, bytes: Bytes) {
    Temp(home, t) in fs.names && t in fs.data && fs.data[t] == bytes
  }

  predicate Gone(fs: Fs, home: string, t: nat) {
    Temp(home, t) !in fs.names
  }

  predicate GoneForGood(fs: Fs, home: string, t: nat) {
    Temp(home, t) !in fs.names && Temp(home, t) !in fs.savedNames
  }

  /** The temporary's number appears in its own directory only. */
  predicate AtHome(fs: Fs, home: string, t: nat) {
    && t < fs.next
    && (forall n :: n in fs.names && n.Temp? && n.id == t ==> n.prefix == home)
    && (forall n :: n in fs.savedNames && n.Temp? && n.id == t ==> n.prefix == home)
  }

  /** The reference resolves now and after a power cut. */
  predicate Durable(hash: Digest, fs: Fs, r: Ref) {
    Verifies(hash, fs, r) && Canon(r.digest) in fs.savedNames && HasDirs(fs, PrefixOf(r.digest))
  }

  predicate BeforeTemp(fs: Fs, home: string, pc: Pc) {
    match pc
    case MkSha => true
    case SyncRoot => Sha in fs.dirs
    case MkShard => Sha in fs.dirs && Sha in fs.savedDirs
    case SyncSha => Sha in fs.dirs && Sha in fs.savedDirs && Shard(home) in fs.dirs
    case Create => HasDirs(fs, home)
    case Failed(_) => true
    case Killed => true
    case _ => false
  }

  predicate WithTemp(hash: Digest, fs: Fs, p: Publisher, t: nat) {
    var home, r := Home(hash, p), RefOf(hash, p);
    HasDirs(fs, home) && AtHome(fs, home, t) &&
    match p.pc
    case Write(n) => n <= |p.data| && TempHolds(fs, home, t, p.data[..n])
    case SyncFile => TempHolds(fs, home, t, p.data)
    case VerifyTemp => TempHolds(fs, home, t, p.data) && Sealed(fs, t)
    case Rename => TempHolds(fs, home, t, p.data) && Sealed(fs, t)
    case VerifyTarget => Canon(r.digest) in fs.names
    case Unlink(e) => e != Preserves && (e == Returns ==> Verifies(hash, fs, r))
    case SyncShard(e) => (e == Returns ==> Verifies(hash, fs, r)) && (e != Preserves ==> Gone(fs, home, t))
    case FinalVerify => Durable(hash, fs, r) && GoneForGood(fs, home, t)
    case Done => GoneForGood(fs, home, t)
    case Failed(preserved) => !preserved ==> GoneForGood(fs, home, t)
    case Killed => true
    case _ => false
  }

  predicate WonHolds(hash: Digest, fs: Fs, p: Publisher) {
    p.won ==>
      p.temp.Some? && Target(hash, p) in fs.names && fs.names[Target(hash, p)] == p.temp.value
      && (p.pc.Unlink? || p.pc.SyncShard? || p.pc.FinalVerify? || p.pc.Done? || p.pc.Failed? || p.pc.Killed?)
  }

  predicate PubInv(hash: Digest, fs: Fs, p: Publisher) {
    && WonHolds(hash, fs, p)
    && (if p.temp.Some? then WithTemp(hash, fs, p, p.temp.value) else BeforeTemp(fs, Home(hash, p), p.pc))
  }

  // ------------------------------------------------------- stability under others

  lemma VerifiesIsStable(hash: Digest, base: Fs, fs: Fs, g: Fs, owner: Option<nat>, r: Ref)
    requires FsInv(hash, base, g) && Rely(fs, g, owner) && Verifies(hash, fs, r)
    ensures Verifies(hash, g, r)
  {
    assert EntryKept(fs, g, Canon(r.digest));
  }

  lemma FailureIsStable(hash: Digest, base: Fs, fs: Fs, g: Fs, owner: Option<nat>, r: Ref)
    requires FsInv(hash, base, fs) && FsInv(hash, base, g) && Rely(fs, g, owner)
    requires Canon(r.digest) in fs.names && !Verifies(hash, fs, r)
    ensures !Verifies(hash, g, r)
  {
    assert EntryKept(fs, g, Canon(r.digest)) && EntryPlaced(fs, Canon(r.digest));
  }

  lemma AtHomeIsStable(fs: Fs, g: Fs, owner: Option<nat>, home: string, t: nat)
    requires Rely(fs, g, owner) && AtHome(fs, home, t)
    ensures AtHome(g, home, t)
  {}

  lemma OtherPublisherKeeps(hash: Digest, base: Fs, fs: Fs, g: Fs, owner: Option<nat>, p: Publisher)
    requires FsInv(hash, base, fs) && FsInv(hash, base, g) && Rely(fs, g, owner)
    requires PubInv(hash, fs, p) && (p.temp.Some? ==> p.temp != owner)
    ensures PubInv(hash, g, p)
  {
    if p.won { assert EntryKept(fs, g, Target(hash, p)); }
    if p.temp.Some? {
      var r, home, t := RefOf(hash, p), Home(hash, p), p.temp.value;
      AtHomeIsStable(fs, g, owner, home, t);
      if Verifies(hash, fs, r) { VerifiesIsStable(hash, base, fs, g, owner, r); }
      if Temp(home, t) in fs.names { assert EntryKept(fs, g, Temp(home, t)) && EntryPlaced(fs, Temp(home, t)); }
      if Canon(r.digest) in fs.names { assert EntryKept(fs, g, Canon(r.digest)); }
    }
  }

  // ----------------------------------------------------------- a publisher's step

  ghost predicate StepKeeps(hash: Digest, base: Fs, fs: Fs, p: Publisher, m: Move) {
    && FsInv(hash, base, m.fs) && Rely(fs, m.fs, m.p.temp) && PubInv(hash, m.fs, m.p)
    && m.p.data == p.data
    && (m.p.temp == p.temp || (p.temp == None && m.p.temp == Some(fs.next) && m.fs.next == fs.next + 1))
  }

  lemma StayingRelies(hash: Digest, base: Fs, fs: Fs, owner: Option<nat>)
    requires FsInv(hash, base, fs)
    ensures Rely(fs, fs, owner)
  {
    forall n | n in fs.names ensures fs.names[n] in fs.data { assert EntryPlaced(fs, n); }
  }

  lemma DirectoryStep(hash: Digest, base: Fs, fs: Fs, p: Publisher, written: nat)
    requires FsInv(hash, base, fs) && PubInv(hash, fs, p)
    requires p.pc.MkSha? || p.pc.SyncRoot? || p.pc.MkShard? || p.pc.SyncSha?
    ensures StepKeeps(hash, base, fs, p, Advance(hash, fs, p, written))
  {
    match p.pc
    case MkSha => MakeDirKeeps(hash, base, fs, Sha, p.temp);
    case SyncRoot => SyncRootKeeps(hash, base, fs, p.temp);
    case MkShard => MakeDirKeeps(hash, base, fs, Shard(Home(hash, p)), p.temp);
    case SyncSha => SyncShaKeeps(hash, base, fs, p.temp);
  }

  lemma CreateStep(hash: Digest, base: Fs, fs: Fs, p: Publisher, written: nat)
    requires FsInv(hash, base, fs) && PubInv(hash, fs, p) && p.pc.Create?
    ensures StepKeeps(hash, base, fs, p, Advance(hash, fs, p, written))
  {
    var home := Home(hash, p);
    CreateTempKeeps(hash, base, fs, home);
    CreateTempRelies(hash, base, fs, home);
    forall n | n in fs.names && n.Temp? ensures n.id < fs.next { assert EntryPlaced(fs, n); }
    forall n | n in fs.savedNames && n.Temp? ensures n.id < fs.next { assert SavedEntryPlaced(fs, n); }
    assert p.data[..0] == [];
  }

  lemma WriteStep(hash: Digest, base: Fs, fs: Fs, p: Publisher, written: nat)
    requires FsInv(hash, base, fs) && PubInv(hash, fs, p) && (p.pc.Write? || p.pc.SyncFile?)
    ensures StepKeeps(hash, base, fs, p, Advance(hash, fs, p, written))
  {
    var home, t := Home(hash, p), p.temp.value;
    StayingRelies(hash, base, fs, p.temp);
    if p.pc.SyncFile? {
      SyncDataKeeps(hash, base, fs, t, p.temp);
    } else if p.pc.written < |p.data| {
      var upto := if p.pc.written < written <= |p.data| then written else |p.data|;
      WriteDataKeeps(hash, base, fs, home, t, p.data[..upto]);
    } else {
      assert p.data[..p.pc.written] == p.data;
    }
  }

  lemma VerifyStep(hash: Digest, base: Fs, fs: Fs, p: Publisher, written: nat)
    requires FsInv(hash, base, fs) && PubInv(hash, fs, p) && (p.pc.VerifyTemp? || p.pc.VerifyTarget?)
    ensures StepKeeps(hash, base, fs, p, Advance(hash, fs, p, written))
  {
    StayingRelies(hash, base, fs, p.temp);
  }

  lemma RenameStep(hash: Digest, base: Fs, fs: Fs, p: Publisher, written: nat)
    requires FsInv(hash, base, fs) && PubInv(hash, fs, p) && p.pc.Rename?
    ensures StepKeeps(hash, base, fs, p, Advance(hash, fs, p, written))
  {
    var temp, target := TempName(hash, p), Target(hash, p);
    assert EntryPlaced(fs, temp);
    if target in fs.names {
      StayingRelies(hash, base, fs, p.temp);
    } else {
      PublishKeeps(hash, base, fs, temp, target);
      PublishRelies(hash, base, fs, temp, target);
      assert AtHome(Publish(fs, temp, target), Home(hash, p), p.temp.value);
    }
  }

  lemma UnlinkStep(hash: Digest, base: Fs, fs: Fs, p: Publisher, written: nat)
    requires FsInv(hash, base, fs) && PubInv(hash, fs, p) && p.pc.Unlink?
    ensures StepKeeps(hash, base, fs, p, Advance(hash, fs, p, written))
  {
    var temp, r, g := TempName(hash, p), RefOf(hash, p), Remove(fs, TempName(hash, p));
    RemoveKeeps(hash, base, fs, temp);
    RemoveRelies(hash, base, fs, temp);
    AtHomeIsStable(fs, g, p.temp, Home(hash, p), p.temp.value);
    if Verifies(hash, fs, r) { VerifiesIsStable(hash, base, fs, g, p.temp, r); }
    if p.won { assert EntryKept(fs, g, Target(hash, p)); }
  }

  lemma SyncForgets(fs: Fs, home: string, t: nat)
    requires Gone(fs, home, t)
    ensures GoneForGood(SyncShardDir(fs, home), home, t)
  {
    SyncShardNames(fs, home);
  }

  lemma SyncMakesDurable(hash: Digest, base: Fs, fs: Fs, r: Ref, owner: Option<nat>)
    requires FsInv(hash, base, fs) && Verifies(hash, fs, r) && HasDirs(fs, PrefixOf(r.digest))
    ensures Durable(hash, SyncShardDir(fs, PrefixOf(r.digest)), r)
  {
    var g := SyncShardDir(fs, PrefixOf(r.digest));
    SyncShardKeeps(hash, base, fs, PrefixOf(r.digest), owner);
    SyncShardNames(fs, PrefixOf(r.digest));
    VerifiesIsStable(hash, base, fs, g, owner, r);
  }

  lemma SyncStep(hash: Digest, base: Fs, fs: Fs, p: Publisher, written: nat)
    requires FsInv(hash, base, fs) && PubInv(hash, fs, p) && p.pc.SyncShard?
    ensures StepKeeps(hash, base, fs, p, Advance(hash, fs, p, written))
  {
    var home, r := Home(hash, p), RefOf(hash, p);
    var g := SyncShardDir(fs, home);
    SyncShardKeeps(hash, base, fs, home, p.temp);
    AtHomeIsStable(fs, g, p.temp, home, p.temp.value);
    if p.pc.ending != Preserves { SyncForgets(fs, home, p.temp.value); }
    if p.pc.ending == Returns { SyncMakesDurable(hash, base, fs, r, p.temp); }
    if p.won { assert EntryKept(fs, g, Target(hash, p)); }
  }

  lemma AdvanceKeeps(hash: Digest, base: Fs, fs: Fs, p: Publisher, written: nat)
    requires FsInv(hash, base, fs) && PubInv(hash, fs, p)
    ensures StepKeeps(hash, base, fs, p, Advance(hash, fs, p, written))
  {
    match p.pc
    case MkSha => DirectoryStep(hash, base, fs, p, written);
    case SyncRoot => DirectoryStep(hash, base, fs, p, written);
    case MkShard => DirectoryStep(hash, base, fs, p, written);
    case SyncSha => DirectoryStep(hash, base, fs, p, written);
    case Create => CreateStep(hash, base, fs, p, written);
    case Write(_) => WriteStep(hash, base, fs, p, written);
    case SyncFile => WriteStep(hash, base, fs, p, written);
    case VerifyTemp => VerifyStep(hash, base, fs, p, written);
    case VerifyTarget => VerifyStep(hash, base, fs, p, written);
    case Rename => RenameStep(hash, base, fs, p, written);
    case Unlink(_) => UnlinkStep(hash, base, fs, p, written);
    case SyncShard(_) => SyncStep(hash, base, fs, p, written);
    case _ => StayingRelies(hash, base, fs, p.temp);
  }

  // ------------------------------------------------------------ the whole system

  predicate Accounted(s: System, id: nat) {
    id in s.orphaned || id in s.kept || id in Temps(s.procs)
  }

  /** Every temporary made in this history belongs to somebody. */
  predicate TempsAccounted(base: Fs, s: System) {
    && (forall n :: n in s.fs.names && n.Temp? && n.id >= base.next ==> Accounted(s, n.id))
    && (forall n :: n in s.fs.savedNames && n.Temp? && n.id >= base.next ==> Accounted(s, n.id))
  }

  predicate DistinctTemps(procs: map<nat, Publisher>) {
    forall i, j :: i in procs && j in procs && procs[i].temp.Some? && procs[i].temp == procs[j].temp ==> i == j
  }

  predicate Registered(hash: Digest, base: Fs, s: System, p: Publisher) {
    && PubInv(hash, s.fs, p)
    && (p.temp.Some? ==> base.next <= p.temp.value < s.fs.next)
    && (p.pc.Done? ==> RefOf(hash, p) in s.returned)
    && (p.pc == SyncShard(Preserves) || p.pc == Failed(true) ==> p.temp.Some? && p.temp.value in s.kept)
  }

  predicate KeptBeside(hash: Digest, base: Fs, fs: Fs, r: Ref) {
    Canon(r.digest) in base.names && !Verifies(hash, fs, r)
  }

  predicate SysInv(hash: Digest, base: Fs, s: System) {
    && FsInv(hash, base, s.fs)
    && (forall pid :: pid in s.procs ==> Registered(hash, base, s, s.procs[pid]))
    && DistinctTemps(s.procs)
    && (forall r :: r in s.returned ==> Durable(hash, s.fs, r))
    && (forall id :: id in s.kept ==> KeptBeside(hash, base, s.fs, s.kept[id]))
    && TempsAccounted(base, s)
  }

  lemma DurableIsStable(hash: Digest, base: Fs, fs: Fs, g: Fs, owner: Option<nat>, r: Ref)
    requires FsInv(hash, base, g) && Rely(fs, g, owner) && Durable(hash, fs, r)
    ensures Durable(hash, g, r)
  {
    VerifiesIsStable(hash, base, fs, g, owner, r);
  }

  lemma KeptBesideIsStable(hash: Digest, base: Fs, fs: Fs, g: Fs, owner: Option<nat>, r: Ref)
    requires FsInv(hash, base, fs) && FsInv(hash, base, g) && Rely(fs, g, owner)
    requires KeptBeside(hash, base, fs, r)
    ensures KeptBeside(hash, base, g, r)
  {
    assert OriginalKept(base, fs, Canon(r.digest));
    FailureIsStable(hash, base, fs, g, owner, r);
  }

  /** A canonical entry that does not verify for its own digest was there before. */
  lemma InvalidTargetsAreOriginal(hash: Digest, base: Fs, fs: Fs, p: Publisher)
    requires Injective(hash) && FsInv(hash, base, fs) && HasDirs(fs, Home(hash, p))
    requires Target(hash, p) in fs.names && !Verifies(hash, fs, RefOf(hash, p))
    ensures KeptBeside(hash, base, fs, RefOf(hash, p))
  {
    var n := Target(hash, p);
    assert EntryPlaced(fs, n) && CanonHolds(hash, base, fs, n);
  }

  /** Kernel write-back at any moment disturbs nobody. */
  lemma WritebackKeeps(hash: Digest, base: Fs, s: System, g: Fs)
    requires SysInv(hash, base, s) && FsInv(hash, base, g) && Rely(s.fs, g, None)
    requires g.names == s.fs.names && g.next == s.fs.next
    ensures SysInv(hash, base, s.(fs := g))
  {
    var u := s.(fs := g);
    forall pid | pid in s.procs ensures Registered(hash, base, u, u.procs[pid]) {
      assert Registered(hash, base, s, s.procs[pid]);
      OtherPublisherKeeps(hash, base, s.fs, g, None, s.procs[pid]);
    }
    forall r | r in s.returned ensures Durable(hash, g, r) { DurableIsStable(hash, base, s.fs, g, None, r); }
    forall id | id in s.kept ensures KeptBeside(hash, base, g, s.kept[id]) {
      KeptBesideIsStable(hash, base, s.fs, g, None, s.kept[id]);
    }
  }

  lemma SteppedOthers(hash: Digest, base: Fs, s: System, pid: nat, written: nat, other: nat)
    requires SysInv(hash, base, s) && pid in s.procs && other in s.procs && other != pid
    ensures Registered(hash, base, Stepped(hash, s, pid, written), s.procs[other])
  {
    var p, q := s.procs[pid], s.procs[other];
    var m := Advance(hash, s.fs, p, written);
    assert Registered(hash, base, s, p) && Registered(hash, base, s, q);
    AdvanceKeeps(hash, base, s.fs, p, written);
    OtherPublisherKeeps(hash, base, s.fs, m.fs, m.p.temp, q);
  }

  lemma SteppedSelf(hash: Digest, base: Fs, s: System, pid: nat, written: nat)
    requires SysInv(hash, base, s) && pid in s.procs
    ensures var u := Stepped(hash, s, pid, written);
            Registered(hash, base, u, u.procs[pid]) && DistinctTemps(u.procs)
  {
    var p := s.procs[pid];
    var u := Stepped(hash, s, pid, written);
    assert Registered(hash, base, s, p);
    AdvanceKeeps(hash, base, s.fs, p, written);
    forall i, j | i in u.procs && j in u.procs && u.procs[i].temp.Some? && u.procs[i].temp == u.procs[j].temp ensures i == j {
      if i != pid { assert Registered(hash, base, s, s.procs[i]); }
      if j != pid { assert Registered(hash, base, s, s.procs[j]); }
    }
  }

  lemma SteppedReturns(hash: Digest, base: Fs, s: System, pid: nat, written: nat, r: Ref)
    requires SysInv(hash, base, s) && pid in s.procs && r in Stepped(hash, s, pid, written).returned
    ensures Durable(hash, Stepped(hash, s, pid, written).fs, r)
  {
    var p := s.procs[pid];
    var m := Advance(hash, s.fs, p, written);
    assert Registered(hash, base, s, p);
    AdvanceKeeps(hash, base, s.fs, p, written);
    if r in s.returned { DurableIsStable(hash, base, s.fs, m.fs, m.p.temp, r); }
  }

  lemma SteppedKeeps(hash: Digest, base: Fs, s: System, pid: nat, written: nat, id: nat)
    requires Injective(hash) && SysInv(hash, base, s) && pid in s.procs && id in Stepped(hash, s, pid, written).kept
    ensures var u := Stepped(hash, s, pid, written); KeptBeside(hash, base, u.fs, u.kept[id])
  {
    var p := s.procs[pid];
    var m := Advance(hash, s.fs, p, written);
    assert Registered(hash, base, s, p);
    if p.pc.VerifyTarget? && m.p.pc.SyncShard? && p.temp == Some(id) {
      InvalidTargetsAreOriginal(hash, base, s.fs, p);
    } else {
      AdvanceKeeps(hash, base, s.fs, p, written);
      KeptBesideIsStable(hash, base, s.fs, m.fs, m.p.temp, s.kept[id]);
    }
  }

  lemma StillAccounted(hash: Digest, base: Fs, s: System, pid: nat, written: nat, id: nat)
    requires SysInv(hash, base, s) && pid in s.procs && Accounted(s, id)
    requires var m := Advance(hash, s.fs, s.procs[pid], written); m.p.temp == Some(id) ==> Active(m.p)
    ensures Accounted(Stepped(hash, s, pid, written), id)
  {
    var u := Stepped(hash, s, pid, written);
    if id in Temps(s.procs) {
      var owner :| owner in s.procs && s.procs[owner].temp.Some? && Active(s.procs[owner]) && s.procs[owner].temp.value == id;
      assert owner in u.procs;
      if owner == pid {
        assert Registered(hash, base, s, s.procs[pid]);
        AdvanceKeeps(hash, base, s.fs, s.procs[pid], written);
      }
      assert u.procs[owner].temp == Some(id) && Active(u.procs[owner]);
    }
  }

  /** A publisher that stopped leaves no entry of its temporary behind, unless it
      died or kept it. */
  lemma StoppedIsGone(hash: Digest, fs: Fs, p: Publisher, n: Name)
    requires PubInv(hash, fs, p) && n.Temp? && p.temp == Some(n.id) && (p.pc.Done? || p.pc == Failed(false))
    ensures n !in fs.names && n !in fs.savedNames
  {
    assert AtHome(fs, Home(hash, p), n.id);
  }

  lemma StoppedIsKept(hash: Digest, base: Fs, u: System, q: Publisher, n: Name)
    requires Registered(hash, base, u, q) && n.Temp? && q.temp == Some(n.id) && !Active(q) && !q.pc.Killed?
    requires n in u.fs.names || n in u.fs.savedNames
    ensures n.id in u.kept
  {
    if q.pc.Done? || q.pc == Failed(false) {
      StoppedIsGone(hash, u.fs, q, n);
    }
  }

  lemma StoppedIsAccounted(hash: Digest, base: Fs, s: System, pid: nat, written: nat, n: Name)
    requires SysInv(hash, base, s) && pid in s.procs && n.Temp? && Accounted(s, n.id)
    requires var m := Advance(hash, s.fs, s.procs[pid], written);
             m.p.temp == Some(n.id) && !Active(m.p) && (n in m.fs.names || n in m.fs.savedNames)
    ensures Accounted(Stepped(hash, s, pid, written), n.id)
  {
    var u := Stepped(hash, s, pid, written);
    if u.procs[pid].pc.Killed? {
      KilledStays(hash, base, s, pid, written, n.id);
    } else {
      SteppedSelf(hash, base, s, pid, written);
      StoppedIsKept(hash, base, u, u.procs[pid], n);
    }
  }

  /** A killed publisher does not move. */
  lemma KilledStays(hash: Digest, base: Fs, s: System, pid: nat, written: nat, id: nat)
    requires SysInv(hash, base, s) && pid in s.procs && Accounted(s, id) && Stepped(hash, s, pid, written).procs[pid].pc.Killed?
    ensures Accounted(Stepped(hash, s, pid, written), id)
  {
    assert Registered(hash, base, s, s.procs[pid]);
    var u := Stepped(hash, s, pid, written);
    assert u.procs == s.procs;
  }

  lemma NewTempIsTaken(hash: Digest, base: Fs, fs: Fs, p: Publisher, written: nat, n: Name)
    requires FsInv(hash, base, fs) && PubInv(hash, fs, p) && n.Temp? && n.id >= fs.next
    requires var m := Advance(hash, fs, p, written); n in m.fs.names || n in m.fs.savedNames
    ensures var m := Advance(hash, fs, p, written); m.p.temp == Some(n.id) && Active(m.p)
  {
    var m := Advance(hash, fs, p, written);
    AdvanceKeeps(hash, base, fs, p, written);
    if n in m.fs.names { assert EntryPlaced(m.fs, n); }
  }

  /** A temporary the step made belongs to the publisher that took it. */
  lemma NewTempIsAccounted(hash: Digest, base: Fs, s: System, pid: nat, written: nat, n: Name)
    requires SysInv(hash, base, s) && pid in s.procs && n.Temp? && n.id >= s.fs.next
    requires var u := Stepped(hash, s, pid, written); n in u.fs.names || n in u.fs.savedNames
    ensures Accounted(Stepped(hash, s, pid, written), n.id)
  {
    assert Registered(hash, base, s, s.procs[pid]);
    NewTempIsTaken(hash, base, s.fs, s.procs[pid], written, n);
    assert pid in Stepped(hash, s, pid, written).procs;
  }

  lemma OldTempWasAccounted(hash: Digest, base: Fs, s: System, pid: nat, written: nat, n: Name)
    requires SysInv(hash, base, s) && pid in s.procs && n.Temp? && base.next <= n.id < s.fs.next
    requires var u := Stepped(hash, s, pid, written); n in u.fs.names || n in u.fs.savedNames
    ensures Accounted(s, n.id)
  {
    assert Registered(hash, base, s, s.procs[pid]);
    AdvanceKeeps(hash, base, s.fs, s.procs[pid], written);
    assert n in s.fs.names || n in s.fs.savedNames;
  }

  lemma SteppedTemps(hash: Digest, base: Fs, s: System, pid: nat, written: nat, n: Name)
    requires SysInv(hash, base, s) && pid in s.procs && n.Temp? && n.id >= base.next
    requires var u := Stepped(hash, s, pid, written); n in u.fs.names || n in u.fs.savedNames
    ensures Accounted(Stepped(hash, s, pid, written), n.id)
  {
    var m := Advance(hash, s.fs, s.procs[pid], written);
    if n.id >= s.fs.next {
      NewTempIsAccounted(hash, base, s, pid, written, n);
    } else {
      OldTempWasAccounted(hash, base, s, pid, written, n);
      if m.p.temp == Some(n.id) && !Active(m.p) {
        StoppedIsAccounted(hash, base, s, pid, written, n);
      } else {
        StillAccounted(hash, base, s, pid, written, n.id);
      }
    }
  }

  lemma StepKeepsSystem(hash: Digest, base: Fs, s: System, pid: nat, written: nat)
    requires Injective(hash) && SysInv(hash, base, s) && pid in s.procs
    ensures SysInv(hash, base, Stepped(hash, s, pid, written))
  {
    var u := Stepped(hash, s, pid, written);
    assert Registered(hash, base, s, s.procs[pid]);
    AdvanceKeeps(hash, base, s.fs, s.procs[pid], written);
    SteppedSelf(hash, base, s, pid, written);
    forall r | r in u.returned ensures Durable(hash, u.fs, r) { SteppedReturns(hash, base, s, pid, written, r); }
    forall id | id in u.kept ensures KeptBeside(hash, base, u.fs, u.kept[id]) {
      SteppedKeeps(hash, base, s, pid, written, id);
    }
    forall other | other in u.procs ensures Registered(hash, base, u, u.procs[other]) {
      if other != pid { SteppedOthers(hash, base, s, pid, written, other); }
    }
    forall n | n in u.fs.names && n.Temp? && n.id >= base.next ensures Accounted(u, n.id) {
      SteppedTemps(hash, base, s, pid, written, n);
    }
    forall n | n in u.fs.savedNames && n.Temp? && n.id >= base.next ensures Accounted(u, n.id) {
      SteppedTemps(hash, base, s, pid, written, n);
    }
  }

  // ------------------------------------------------- arrivals, faults and deaths

  lemma StillOwned(s: System, procs: map<nat, Publisher>, id: nat)
    requires id in Temps(s.procs)
    requires forall pid :: pid in s.procs && Active(s.procs[pid]) && s.procs[pid].temp == Some(id) ==>
               pid in procs && procs[pid].temp == Some(id) && Active(procs[pid])
    ensures id in Temps(procs)
  {
    var owner :| owner in s.procs && s.procs[owner].temp.Some? && Active(s.procs[owner]) && s.procs[owner].temp.value == id;
    assert procs[owner].temp == Some(id);
  }

  /** A change of publishers only: the file system and what was promised stand. */
  predicate OnlyProcs(s: System, u: System) {
    u.fs == s.fs && u.returned == s.returned && u.kept == s.kept
  }

  lemma ProcsChange(hash: Digest, base: Fs, s: System, u: System)
    requires SysInv(hash, base, s) && OnlyProcs(s, u) && DistinctTemps(u.procs)
    requires forall q :: q in u.procs ==> Registered(hash, base, s, u.procs[q])
    requires forall id :: Accounted(s, id) ==> Accounted(u, id)
    ensures SysInv(hash, base, u)
  {
    forall q | q in u.procs ensures Registered(hash, base, u, u.procs[q]) {
      assert Registered(hash, base, s, u.procs[q]);
    }
  }

  lemma SpawnShape(hash: Digest, s: System, pid: nat, bytes: Bytes)
    ensures var u := Apply(hash, s, Spawn(pid, bytes));
            OnlyProcs(s, u) && u.orphaned == s.orphaned
            && u.procs == if pid in s.procs then s.procs else s.procs[pid := Publisher(bytes, MkSha, None, false)]
  {}

  lemma SpawnedIsRegistered(hash: Digest, base: Fs, s: System, bytes: Bytes)
    ensures Registered(hash, base, s, Publisher(bytes, MkSha, None, false))
  {}

  lemma SpawnFacts(hash: Digest, base: Fs, s: System, pid: nat, bytes: Bytes)
    requires SysInv(hash, base, s)
    ensures var u := Apply(hash, s, Spawn(pid, bytes));
            && OnlyProcs(s, u) && u.orphaned == s.orphaned && DistinctTemps(u.procs)
            && (forall q :: q in s.procs ==> q in u.procs && u.procs[q] == s.procs[q])
            && (forall q :: q in u.procs ==> Registered(hash, base, s, u.procs[q]))
  {
    SpawnShape(hash, s, pid, bytes);
    SpawnedIsRegistered(hash, base, s, bytes);
  }

  lemma SpawnKeeps(hash: Digest, base: Fs, s: System, pid: nat, bytes: Bytes)
    requires SysInv(hash, base, s)
    ensures SysInv(hash, base, Apply(hash, s, Spawn(pid, bytes)))
  {
    var u := Apply(hash, s, Spawn(pid, bytes));
    SpawnFacts(hash, base, s, pid, bytes);
    forall id | Accounted(s, id) ensures Accounted(u, id) {
      if id in Temps(s.procs) { StillOwned(s, u.procs, id); }
    }
    ProcsChange(hash, base, s, u);
  }

  lemma InterruptedKeeps(hash: Digest, base: Fs, s: System, p: Publisher)
    requires Registered(hash, base, s, p)
    ensures Registered(hash, base, s, Interrupted(p))
    ensures p.temp.Some? && Active(p) ==> Active(Interrupted(p))
  {}

  lemma FaultKeeps(hash: Digest, base: Fs, s: System, pid: nat)
    requires SysInv(hash, base, s) && pid in s.procs
    ensures SysInv(hash, base, Apply(hash, s, Fault(pid)))
  {
    var u := Apply(hash, s, Fault(pid));
    assert Registered(hash, base, s, s.procs[pid]);
    InterruptedKeeps(hash, base, s, s.procs[pid]);
    assert Interrupted(s.procs[pid]).temp == s.procs[pid].temp;
    forall id | Accounted(s, id) ensures Accounted(u, id) {
      if id in Temps(s.procs) { StillOwned(s, u.procs, id); }
    }
    forall q | q in u.procs ensures Registered(hash, base, s, u.procs[q]) {
      assert Registered(hash, base, s, s.procs[q]);
    }
    ProcsChange(hash, base, s, u);
  }

  lemma KillKeeps(hash: Digest, base: Fs, s: System, pid: nat)
    requires SysInv(hash, base, s) && pid in s.procs && Active(s.procs[pid])
    ensures SysInv(hash, base, Apply(hash, s, Kill(pid)))
  {
    var u := Apply(hash, s, Kill(pid));
    forall id | Accounted(s, id) ensures Accounted(u, id) {
      if id in Temps(s.procs) && s.procs[pid].temp != Some(id) { StillOwned(s, u.procs, id); }
      if id in Temps(s.procs) && s.procs[pid].temp == Some(id) { assert id in u.orphaned; }
    }
    forall q | q in u.procs ensures Registered(hash, base, s, u.procs[q]) {
      assert Registered(hash, base, s, s.procs[q]);
    }
    ProcsChange(hash, base, s, u);
  }

  // ------------------------------------------------------------------ power cuts

  lemma CutKeepsDurable(hash: Digest, base: Fs, fs: Fs, garbage: nat -> Bytes, r: Ref)
    requires FsInv(hash, base, fs) && Durable(hash, fs, r)
    ensures Durable(hash, AfterPowerCut(fs, garbage), r)
  {
    PowerCutKeeps(hash, base, fs, garbage);
    var n := Canon(r.digest);
    assert SavedEntryPlaced(fs, n) && CanonHolds(hash, base, fs, n);
  }

  lemma CutKeepsBeside(hash: Digest, base: Fs, fs: Fs, garbage: nat -> Bytes, r: Ref)
    requires FsInv(hash, base, fs) && KeptBeside(hash, base, fs, r)
    ensures KeptBeside(hash, base, AfterPowerCut(fs, garbage), r)
  {
    PowerCutKeeps(hash, base, fs, garbage);
    var n := Canon(r.digest);
    assert OriginalKept(base, fs, n) && EntryPlaced(fs, n) && SavedEntryPlaced(fs, n) && CanonHolds(hash, base, fs, n);
  }

  lemma PowerCutKeepsSystem(hash: Digest, base: Fs, s: System, garbage: nat -> Bytes)
    requires SysInv(hash, base, s)
    ensures SysInv(hash, base, Apply(hash, s, PowerCut(garbage)))
  {
    var g := AfterPowerCut(s.fs, garbage);
    PowerCutKeeps(hash, base, s.fs, garbage);
    forall r | r in s.returned ensures Durable(hash, g, r) { CutKeepsDurable(hash, base, s.fs, garbage, r); }
    forall id | id in s.kept ensures KeptBeside(hash, base, g, s.kept[id]) {
      CutKeepsBeside(hash, base, s.fs, garbage, s.kept[id]);
    }
  }

  // -------------------------------------------------------------------- theorems

  lemma WrittenKeeps(hash: Digest, base: Fs, fs: Fs, dir: Option<Dir>)
    requires FsInv(hash, base, fs)
    ensures FsInv(hash, base, Written(fs, dir)) && Rely(fs, Written(fs, dir), None)
  {
    match dir
    case None => SyncRootKeeps(hash, base, fs, None);
    case Some(Sha) => SyncShaKeeps(hash, base, fs, None);
    case Some(Shard(prefix)) => SyncShardKeeps(hash, base, fs, prefix, None);
  }

  lemma WritebackDirKeeps(hash: Digest, base: Fs, s: System, dir: Option<Dir>)
    requires SysInv(hash, base, s)
    ensures SysInv(hash, base, s.(fs := Written(s.fs, dir)))
  {
    WrittenKeeps(hash, base, s.fs, dir);
    WritebackKeeps(hash, base, s, Written(s.fs, dir));
  }

  lemma WritebackDataKeeps(hash: Digest, base: Fs, s: System, inode: nat)
    requires SysInv(hash, base, s)
    ensures SysInv(hash, base, s.(fs := SyncData(s.fs, inode)))
  {
    SyncDataKeeps(hash, base, s.fs, inode, None);
    WritebackKeeps(hash, base, s, SyncData(s.fs, inode));
  }

  lemma ProcessActionKeeps(hash: Digest, base: Fs, s: System, a: Action)
    requires Injective(hash) && SysInv(hash, base, s) && (a.Step? || a.Fault? || a.Kill?)
    ensures SysInv(hash, base, Apply(hash, s, a))
  {
    if a.pid in s.procs {
      match a
      case Step(pid, written) => StepKeepsSystem(hash, base, s, pid, written);
      case Fault(pid) => FaultKeeps(hash, base, s, pid);
      case Kill(pid) => if Active(s.procs[pid]) { KillKeeps(hash, base, s, pid); }
    } else {
      assert Apply(hash, s, a) == s;
    }
  }

  lemma ApplyKeeps(hash: Digest, base: Fs, s: System, a: Action)
    requires Injective(hash) && SysInv(hash, base, s)
    ensures SysInv(hash, base, Apply(hash, s, a))
  {
    if a.Spawn? {
      SpawnKeeps(hash, base, s, a.pid, a.bytes);
    } else if a.PowerCut? {
      PowerCutKeepsSystem(hash, base, s, a.garbage);
    } else if a.WritebackDir? {
      WritebackDirKeeps(hash, base, s, a.dir);
    } else if a.WritebackData? {
      WritebackDataKeeps(hash, base, s, a.inode);
    } else {
      ProcessActionKeeps(hash, base, s, a);
    }
  }

  lemma OpeningKeeps(hash: Digest, base: Fs)
    requires AtRest(base)
    ensures SysInv(hash, base, Opened(base))
  {}

  lemma {:induction false} RunKeeps(hash: Digest, base: Fs, actions: seq<Action>)
    requires Injective(hash) && AtRest(base)
    ensures SysInv(hash, base, Run(hash, Opened(base), actions))
  {
    if actions == [] {
      OpeningKeeps(hash, base);
    } else {
      RunKeeps(hash, base, actions[..|actions| - 1]);
      ApplyKeeps(hash, base, Run(hash, Opened(base), actions[..|actions| - 1]), actions[|actions| - 1]);
    }
  }

  /** Whatever happened, a canonical entry is the one the store opened with, or it
      holds all and only the bytes of its digest. */
  lemma CanonicalEntriesAreExact(hash: Digest, base: Fs, actions: seq<Action>, digest: string)
    requires Injective(hash) && AtRest(base)
    requires Canon(digest) in Run(hash, Opened(base), actions).fs.names
    ensures var fs := Run(hash, Opened(base), actions).fs;
            var n := Canon(digest);
            && fs.names[n] in fs.data
            && if n in base.names then
                 fs.names[n] == base.names[n] && base.names[n] in base.data && fs.data[fs.names[n]] == base.data[base.names[n]]
               else hash(fs.data[fs.names[n]]) == digest
  {
    RunKeeps(hash, base, actions);
    assert CanonHolds(hash, base, Run(hash, Opened(base), actions).fs, Canon(digest));
  }

  lemma StepsKeepEntries(hash: Digest, base: Fs, s: System, pid: nat, written: nat, n: Name)
    requires SysInv(hash, base, s) && pid in s.procs && n in s.fs.names && n.Canon? && s.fs.names[n] in s.fs.data
    ensures EntryKept(s.fs, Stepped(hash, s, pid, written).fs, n)
  {
    assert Registered(hash, base, s, s.procs[pid]);
    AdvanceKeeps(hash, base, s.fs, s.procs[pid], written);
  }

  lemma CutsKeepOriginals(hash: Digest, base: Fs, fs: Fs, garbage: nat -> Bytes, n: Name)
    requires FsInv(hash, base, fs) && n in fs.names && n.Canon? && n in base.names && fs.names[n] in fs.data
    ensures var g := AfterPowerCut(fs, garbage);
            n in g.names && g.names[n] == fs.names[n] && fs.names[n] in g.data && g.data[fs.names[n]] == fs.data[fs.names[n]]
  {
    assert OriginalKept(base, fs, n) && SavedEntryPlaced(fs, n) && CanonHolds(hash, base, fs, n);
  }

  predicate EntryStays(s: System, u: System, n: Name) {
    && n in s.fs.names && n in u.fs.names && u.fs.names[n] == s.fs.names[n]
    && s.fs.names[n] in s.fs.data && s.fs.names[n] in u.fs.data
    && u.fs.data[s.fs.names[n]] == s.fs.data[s.fs.names[n]]
  }

  lemma ActionsKeepEntries(hash: Digest, base: Fs, s: System, a: Action, n: Name)
    requires Injective(hash) && SysInv(hash, base, s) && n.Canon? && n in s.fs.names
    requires a.PowerCut? ==> n in base.names
    ensures EntryStays(s, Apply(hash, s, a), n)
  {
    assert EntryPlaced(s.fs, n);
    if a.Step? && a.pid in s.procs {
      StepsKeepEntries(hash, base, s, a.pid, a.written, n);
    } else if a.WritebackDir? {
      WrittenKeeps(hash, base, s.fs, a.dir);
    } else if a.PowerCut? {
      CutsKeepOriginals(hash, base, s.fs, a.garbage, n);
    }
  }

  lemma EntryStaysFurther(s: System, u: System, w: System, n: Name)
    requires EntryStays(s, u, n) && EntryStays(u, w, n)
    ensures EntryStays(s, w, n)
  {}

  lemma EntryStaysPut(hash: Digest, base: Fs, actions: seq<Action>, n: Name)
    requires Injective(hash) && AtRest(base) && n.Canon? && n in Run(hash, Opened(base), actions).fs.names
    ensures EntryStays(Run(hash, Opened(base), actions), Run(hash, Opened(base), actions), n)
  {
    RunKeeps(hash, base, actions);
    assert EntryPlaced(Run(hash, Opened(base), actions).fs, n);
  }

  /** There is no power cut from the n-th action on, or the entry is spared by it. */
  predicate SparedFrom(actions: seq<Action>, n: nat, spared: bool) {
    forall i :: n <= i < |actions| && actions[i].PowerCut? ==> spared
  }

  /** Nothing but a power cut ever removes a canonical entry or changes its file: once
      there it stays, whatever steps, faults, deaths and write-backs follow. Not even a
      power cut touches the entries the store opened with. */
  lemma {:induction false} CanonicalEntriesAreNeverReplaced(
      hash: Digest, base: Fs, actions: seq<Action>, n: nat, digest: string)
    requires Injective(hash) && AtRest(base) && n <= |actions|
    requires Canon(digest) in Run(hash, Opened(base), actions[..n]).fs.names
    requires SparedFrom(actions, n, Canon(digest) in base.names)
    ensures EntryStays(Run(hash, Opened(base), actions[..n]), Run(hash, Opened(base), actions), Canon(digest))
    decreases |actions|
  {
    if n == |actions| {
      assert actions[..n] == actions;
      EntryStaysPut(hash, base, actions, Canon(digest));
    } else {
      var before, last := actions[..|actions| - 1], actions[|actions| - 1];
      assert before[..n] == actions[..n];
      CanonicalEntriesAreNeverReplaced(hash, base, before, n, digest);
      var s := Run(hash, Opened(base), before);
      RunKeeps(hash, base, before);
      ActionsKeepEntries(hash, base, s, last, Canon(digest));
      EntryStaysFurther(Run(hash, Opened(base), actions[..n]), s, Apply(hash, s, last), Canon(digest));
    }
  }

  /** Of all publishers of the same bytes since the last boot, one rename at most
      has won, and none where the store opened with an entry already. */
  lemma OneWinner(hash: Digest, base: Fs, actions: seq<Action>, i: nat, j: nat)
    requires Injective(hash) && AtRest(base)
    requires var procs := Run(hash, Opened(base), actions).procs;
             i in procs && j in procs && procs[i].won && hash(procs[i].data) == hash(procs[j].data)
    ensures Run(hash, Opened(base), actions).procs[j].won ==> i == j
    ensures Canon(hash(Run(hash, Opened(base), actions).procs[i].data)) !in base.names
  {
    RunKeeps(hash, base, actions);
    var s := Run(hash, Opened(base), actions);
    assert Registered(hash, base, s, s.procs[i]) && Registered(hash, base, s, s.procs[j]);
    assert CanonHolds(hash, base, s.fs, Target(hash, s.procs[i]));
  }

  lemma {:induction false} ReturnedOnlyGrows(hash: Digest, s: System, actions: seq<Action>, n: nat, r: Ref)
    requires n <= |actions| && r in Run(hash, s, actions[..n]).returned
    ensures r in Run(hash, s, actions).returned
    decreases |actions|
  {
    if n == |actions| {
      assert actions[..n] == actions;
    } else {
      assert actions[..|actions| - 1][..n] == actions[..n];
      ReturnedOnlyGrows(hash, s, actions[..|actions| - 1], n, r);
    }
  }

  /** Every reference handed to a caller, by the publisher that won the rename or by
      one that found the entry there, verifies then and ever after, through any
      deaths, write-backs and power cuts. */
  lemma ReturnedReferencesSurvive(hash: Digest, base: Fs, actions: seq<Action>, n: nat, pid: nat)
    requires Injective(hash) && AtRest(base) && n <= |actions|
    requires var s := Run(hash, Opened(base), actions[..n]); pid in s.procs && s.procs[pid].pc.Done?
    ensures var p := Run(hash, Opened(base), actions[..n]).procs[pid];
            Verifies(hash, Run(hash, Opened(base), actions).fs, Ref(hash(p.data), |p.data|))
  {
    var s := Run(hash, Opened(base), actions[..n]);
    RunKeeps(hash, base, actions[..n]);
    assert Registered(hash, base, s, s.procs[pid]);
    ReturnedOnlyGrows(hash, Opened(base), actions, n, RefOf(hash, s.procs[pid]));
    RunKeeps(hash, base, actions);
  }

  /** A temporary made in this history and not in the hands of a running publisher
      was left by a dead one, or was kept because the canonical entry the store
      opened with does not verify. */
  lemma LeftoverTemporaries(hash: Digest, base: Fs, actions: seq<Action>, prefix: string, id: nat)
    requires Injective(hash) && AtRest(base) && id >= base.next
    requires var s := Run(hash, Opened(base), actions); Temp(prefix, id) in s.fs.names && id !in Temps(s.procs)
    ensures var s := Run(hash, Opened(base), actions);
            id in s.orphaned
            || (id in s.kept && Canon(s.kept[id].digest) in base.names && !Verifies(hash, s.fs, s.kept[id]))
  {
    RunKeeps(hash, base, actions);
    assert Temp(prefix, id).id == id;
  }

  /** Publication fails only for a reason: while no operation raises and the
      canonical entry is absent or verifies, no step leads to a failure. */
  lemma PublishersSucceed(hash: Digest, base: Fs, s: System, pid: nat, written: nat)
    requires SysInv(hash, base, s) && pid in s.procs && Active(s.procs[pid])
    requires var p := s.procs[pid];
             && p.pc != Unlink(Raises) && p.pc != SyncShard(Raises) && p.pc != SyncShard(Preserves)
             && (Target(hash, p) in s.fs.names ==> Verifies(hash, s.fs, RefOf(hash, p)))
    ensures var q := Advance(hash, s.fs, s.procs[pid], written).p;
            && !q.pc.Failed? && q.pc != Unlink(Raises) && q.pc != SyncShard(Preserves)
            && (s.procs[pid].pc.FinalVerify? ==> q.pc.Done?)
  {
    var p := s.procs[pid];
    assert Registered(hash, base, s, p);
    if p.temp.Some? && TempName(hash, p) in s.fs.names { assert EntryPlaced(s.fs, TempName(hash, p)); }
  }
}
