/** The content-addressed store under concurrent publishers, process deaths and
    power cuts. The file system is abstract: every directory and file has what
    running processes see and what would survive a power cut, and the kernel may
    write anything back at any moment. */
module Artifacts {
  import opened Usage

  type Bytes = seq<bv8>
  type Digest = Bytes -> string

  datatype Dir = Sha | Shard(prefix: string)

  /** An entry of a shard directory. A temporary entry and the file created under
      it share one fresh number that is never used again. */
  datatype Name = Canon(digest: string) | Temp(prefix: string, id: nat)

  function PrefixOf(digest: string): string {
    if |digest| < 2 then digest else digest[..2]
  }

  function Parent(n: Name): string {
    match n
    case Canon(d) => PrefixOf(d)
    case Temp(p, _) => p
  }

  datatype Fs = Fs(
    dirs: set<Dir>, savedDirs: set<Dir>,
    names: map<Name, nat>, savedNames: map<Name, nat>,
    data: map<nat, Bytes>, savedData: map<nat, Bytes>,
    next: nat)

  // ---------------------------------------------------------------- primitives

  function MakeDir(fs: Fs, dir: Dir): Fs {
    fs.(dirs := fs.dirs + {dir})
  }

  /** An exclusively created, empty file under a fresh temporary name. */
  function CreateTemp(fs: Fs, prefix: string): Fs {
    fs.(names := fs.names[Temp(prefix, fs.next) := fs.next], data := fs.data[fs.next := []], next := fs.next + 1)
  }

  function WriteData(fs: Fs, inode: nat, bytes: Bytes): Fs {
    fs.(data := fs.data[inode := bytes])
  }

  /** The rename that refuses to replace: its caller has seen the target absent. */
  function Publish(fs: Fs, temp: Name, target: Name): Fs
    requires temp in fs.names
  {
    fs.(names := fs.names[target := fs.names[temp]] - {temp})
  }

  function Remove(fs: Fs, temp: Name): Fs {
    fs.(names := fs.names - {temp})
  }

  function SyncRootDir(fs: Fs): Fs {
    if Sha in fs.dirs then fs.(savedDirs := fs.savedDirs + {Sha}) else fs
  }

  function SyncShaDir(fs: Fs): Fs {
    fs.(savedDirs := fs.savedDirs + (set d | d in fs.dirs && d.Shard?))
  }

  /** After a shard is synchronized its surviving entries are exactly its entries. */
  function SyncShardDir(fs: Fs, prefix: string): Fs {
    fs.(savedNames :=
          (map n | n in fs.savedNames && Parent(n) != prefix :: fs.savedNames[n])
          + (map n | n in fs.names && Parent(n) == prefix :: fs.names[n]))
  }

  function SyncData(fs: Fs, inode: nat): Fs {
    if inode in fs.data then fs.(savedData := fs.savedData[inode := fs.data[inode]]) else fs
  }

  /** Only what was written back survives; the bytes of a file that never was are
      arbitrary. */
  function AfterPowerCut(fs: Fs, garbage: nat -> Bytes): Fs {
    var dirs := if Sha in fs.savedDirs then fs.savedDirs else {};
    var names := map n | n in fs.savedNames && Shard(Parent(n)) in dirs :: fs.savedNames[n];
    var data := map i | i in fs.data :: if i in fs.savedData then fs.savedData[i] else garbage(i);
    Fs(dirs, dirs, names, names, data, data, fs.next)
  }

  /** Reading the canonical entry of a digest back finds its bytes: the path
      resolves, the file has one link, and size and content agree. */
  predicate Verifies(hash: Digest, fs: Fs, r: Ref) {
    Reads(hash, fs, Canon(r.digest), r)
  }

  predicate Reads(hash: Digest, fs: Fs, n: Name, r: Ref) {
    && Sha in fs.dirs && Shard(Parent(n)) in fs.dirs
    && n in fs.names && fs.names[n] in fs.data
    && (forall m :: m in fs.names && fs.names[m] == fs.names[n] ==> m == n)
    && |fs.data[fs.names[n]]| == r.size && hash(fs.data[fs.names[n]]) == r.digest
  }

  const CHUNK_SIZE: nat := 0x10_0000

  /** The verified read of an opened file, a chunk at a time. */
  method ReadVerified(hash: Digest, contents: Bytes, r: Ref) returns (bytes: Option<Bytes>)
    ensures bytes == if |contents| == r.size && hash(contents) == r.digest then Some(contents) else None
  {
    if |contents| != r.size {
      return None;
    }
    var read: Bytes := [];
    while |read| < |contents|
      invariant |read| <= |contents| && read == contents[..|read|]
      decreases |contents| - |read|
    {
      var upto := if |read| + CHUNK_SIZE < |contents| then |read| + CHUNK_SIZE else |contents|;
      assert contents[..upto] == contents[..|read|] + contents[|read|..upto];
      read := read + contents[|read|..upto];
      if |read| > r.size {
        return None;
      }
    }
    assert contents[..|read|] == contents;
    return if hash(read) == r.digest then Some(read) else None;
  }

  // ---------------------------------------------------------------- publishers

  datatype Ref = Ref(digest: string, size: nat)

  /** How the cleanup that ends a publication was reached. */
  datatype Ending = Returns | Raises | Preserves

  datatype Pc =
    | MkSha | SyncRoot | MkShard | SyncSha | Create | Write(written: nat) | SyncFile | VerifyTemp
    | Rename | VerifyTarget | Unlink(ending: Ending) | SyncShard(ending: Ending) | FinalVerify
    | Done | Failed(preserved: bool) | Killed

  datatype Publisher = Publisher(data: Bytes, pc: Pc, temp: Option<nat>, won: bool)

  function RefOf(hash: Digest, p: Publisher): Ref {
    Ref(hash(p.data), |p.data|)
  }

  function Target(hash: Digest, p: Publisher): Name {
    Canon(hash(p.data))
  }

  function Home(hash: Digest, p: Publisher): string {
    PrefixOf(hash(p.data))
  }

  function TempName(hash: Digest, p: Publisher): Name
    requires p.temp.Some?
  {
    Temp(Home(hash, p), p.temp.value)
  }

  datatype Move = Move(fs: Fs, p: Publisher)

  /** One step of put_bytes; written says how far a write gets. */
  function Advance(hash: Digest, fs: Fs, p: Publisher, written: nat): Move {
    match p.pc
    case MkSha => Move(MakeDir(fs, Sha), p.(pc := SyncRoot))
    case SyncRoot => Move(SyncRootDir(fs), p.(pc := MkShard))
    case MkShard => Move(MakeDir(fs, Shard(Home(hash, p))), p.(pc := SyncSha))
    case SyncSha => Move(SyncShaDir(fs), p.(pc := Create))
    case Create =>
      Move(CreateTemp(fs, Home(hash, p)), p.(pc := Write(0), temp := Some(fs.next)))
    case Write(n) =>
      if p.temp.Some? && n < |p.data| then
        var upto := if n < written <= |p.data| then written else |p.data|;
        Move(WriteData(fs, p.temp.value, p.data[..upto]), p.(pc := Write(upto)))
      else Move(fs, p.(pc := SyncFile))
    case SyncFile => Move(if p.temp.Some? then SyncData(fs, p.temp.value) else fs, p.(pc := VerifyTemp))
    case VerifyTemp =>
      Move(fs, p.(pc := if p.temp.Some? && Reads(hash, fs, TempName(hash, p), RefOf(hash, p)) then Rename else Unlink(Raises)))
    case Rename =>
      if p.temp == None || TempName(hash, p) !in fs.names then Move(fs, p.(pc := Unlink(Raises)))
      else if Target(hash, p) in fs.names then Move(fs, p.(pc := VerifyTarget))
      else Move(Publish(fs, TempName(hash, p), Target(hash, p)), p.(pc := Unlink(Returns), won := true))
    case VerifyTarget =>
      Move(fs, p.(pc := if Verifies(hash, fs, RefOf(hash, p)) then Unlink(Returns) else SyncShard(Preserves)))
    case Unlink(e) =>
      Move(if p.temp.Some? then Remove(fs, TempName(hash, p)) else fs, p.(pc := SyncShard(e)))
    case SyncShard(e) =>
      Move(SyncShardDir(fs, Home(hash, p)), p.(pc := if e == Returns then FinalVerify else Failed(e == Preserves)))
    case FinalVerify =>
      Move(fs, p.(pc := if Verifies(hash, fs, RefOf(hash, p)) then Done else Failed(false)))
    case _ => Move(fs, p)
  }

  /** The publisher may still touch its temporary entry. */
  predicate Active(p: Publisher) {
    !p.pc.Done? && !p.pc.Failed? && !p.pc.Killed?
  }

  /** An operation raises: before the temporary exists the call just fails, and
      afterwards its cleanup runs. */
  function Interrupted(p: Publisher): Publisher {
    match p.pc
    case MkSha => p.(pc := Failed(false))
    case SyncRoot => p.(pc := Failed(false))
    case MkShard => p.(pc := Failed(false))
    case SyncSha => p.(pc := Failed(false))
    case Create => p.(pc := Failed(false))
    case Write(_) => p.(pc := Unlink(Raises))
    case SyncFile => p.(pc := Unlink(Raises))
    case VerifyTemp => p.(pc := Unlink(Raises))
    case Rename => p.(pc := Unlink(Raises))
    case _ => p
  }

  // -------------------------------------------------------------------- system

  /** The store and its publishers since the last boot, with a record of what was
      returned to callers and of the temporaries nobody will clean up: those of
      dead publishers, and those kept beside an invalid canonical entry. */
  datatype System = System(
    fs: Fs, procs: map<nat, Publisher>, returned: set<Ref>, orphaned: set<nat>, kept: map<nat, Ref>)

  datatype Action =
    | Spawn(pid: nat, bytes: Bytes)
    | Step(pid: nat, written: nat)
    | Fault(pid: nat)
    | Kill(pid: nat)
    | WritebackDir(dir: Option<Dir>)
    | WritebackData(inode: nat)
    | PowerCut(garbage: nat -> Bytes)

  function Temps(procs: map<nat, Publisher>): set<nat> {
    set pid | pid in procs && procs[pid].temp.Some? && Active(procs[pid]) :: procs[pid].temp.value
  }

  function Stepped(hash: Digest, s: System, pid: nat, written: nat): System
    requires pid in s.procs
  {
    var p := s.procs[pid];
    var m := Advance(hash, s.fs, p, written);
    System(
      m.fs, s.procs[pid := m.p],
      if m.p.pc.Done? then s.returned + {RefOf(hash, p)} else s.returned,
      s.orphaned,
      if p.pc.VerifyTarget? && m.p.pc.SyncShard? && p.temp.Some? then s.kept[p.temp.value := RefOf(hash, p)] else s.kept)
  }

  function Written(fs: Fs, dir: Option<Dir>): Fs {
    match dir
    case None => SyncRootDir(fs)
    case Some(Sha) => SyncShaDir(fs)
    case Some(Shard(prefix)) => SyncShardDir(fs, prefix)
  }

  function Apply(hash: Digest, s: System, a: Action): System {
    match a
    case Spawn(pid, bytes) =>
      if pid in s.procs then s else s.(procs := s.procs[pid := Publisher(bytes, MkSha, None, false)])
    case Step(pid, written) => if pid in s.procs then Stepped(hash, s, pid, written) else s
    case Fault(pid) => if pid in s.procs then s.(procs := s.procs[pid := Interrupted(s.procs[pid])]) else s
    case Kill(pid) =>
      if pid in s.procs && Active(s.procs[pid]) then
        var p := s.procs[pid];
        s.(procs := s.procs[pid := p.(pc := Killed)],
           orphaned := if p.temp.Some? then s.orphaned + {p.temp.value} else s.orphaned)
      else s
    case WritebackDir(dir) => s.(fs := Written(s.fs, dir))
    case WritebackData(inode) => s.(fs := SyncData(s.fs, inode))
    case PowerCut(garbage) =>
      System(AfterPowerCut(s.fs, garbage), map[], s.returned, s.orphaned + Temps(s.procs), s.kept)
  }

  function Run(hash: Digest, s: System, actions: seq<Action>): System {
    if actions == [] then s
    else Apply(hash, Run(hash, s, actions[..|actions| - 1]), actions[|actions| - 1])
  }

  /** A store at rest, on which nobody has published yet in this history. Its
      entries may hold anything. */
  predicate AtRest(fs: Fs) {
    && fs.savedDirs == fs.dirs && fs.savedNames == fs.names && fs.savedData == fs.data
    && (forall n :: n in fs.names ==>
          Sha in fs.dirs && Shard(Parent(n)) in fs.dirs && fs.names[n] in fs.data && fs.names[n] < fs.next)
    && (forall n :: n in fs.names && n.Temp? ==> fs.names[n] == n.id)
    && (forall m, n :: m in fs.names && n in fs.names && fs.names[m] == fs.names[n] ==> m == n)
    && (forall i :: i in fs.data ==> i < fs.next)
  }

  function Opened(fs: Fs): System {
    System(fs, map[], {}, {}, map[])
  }
}
