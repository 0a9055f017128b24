/** Safety of the maintenance lease over every interleaving of its calls with forks,
    deaths and the marker. */
module LeaseLaws {
  import opened Usage
  import opened Lease

  // -------------------------------------------------------- one process changes

  /** The locks other processes rely on are still there. */
  predicate OthersLocked(s: System, t: System, pid: nat) {
    forall r :: r in s.procs && r != pid && Claim(r, s.procs[r]).Some? ==>
      var l := Claim(r, s.procs[r]).value; l.ofd in t.locks && t.locks[l.ofd] == l.mode
  }

  predicate OnlyChanges(s: System, t: System, pid: nat, q: Process) {
    && t.procs == s.procs[pid := q] && s.next <= t.next && t.active == s.active
    && pid in t.open && (forall r :: r in s.open && r != pid ==> r in t.open && t.open[r] == s.open[r])
  }

  predicate NewClaim(s: System, pid: nat, q: Process) {
    forall r :: r in s.procs && r != pid ==> !SameClaim(pid, q, r, s.procs[r])
  }

  lemma LaterIsSane(p: Process, n: nat, m: nat)
    requires Sane(p, n) && n <= m
    ensures Sane(p, m)
  {}

  lemma OneProcessChanges(s: System, t: System, pid: nat, q: Process)
    requires Inv(s) && OnlyChanges(s, t, pid, q) && Kernel(t)
    requires Local(pid, q, t.next) && ClaimBacked(t, pid, q) && Fenced(t.active, pid, q)
    requires OthersLocked(s, t, pid) && NewClaim(s, pid, q)
    ensures Inv(t)
  {
    forall r | r in t.procs ensures ProcessInv(t, r) {
      if r != pid {
        assert ProcessInv(s, r);
        LaterIsSane(s.procs[r], s.next, t.next);
      }
    }
    forall a, b | a in t.procs && b in t.procs && a != b ensures !SameClaim(a, t.procs[a], b, t.procs[b]) {
      if a != pid && b != pid { assert !SameClaim(a, s.procs[a], b, s.procs[b]); }
    }
  }

  /** A change of memory that claims nothing new. */
  lemma MemoryChanges(s: System, pid: nat, q: Process)
    requires Inv(s) && pid in s.procs && Local(pid, q, s.next) && Fenced(s.active, pid, q)
    requires Claim(pid, q) == Claim(pid, s.procs[pid]) || Claim(pid, q) == None
    ensures Inv(With(s, pid, q))
  {
    assert ProcessInv(s, pid);
    forall r | r in s.procs && r != pid ensures !SameClaim(pid, q, r, s.procs[r]) {
      assert !SameClaim(pid, s.procs[pid], r, s.procs[r]);
      assert ProcessInv(s, r);
    }
    forall r | r in s.procs && r != pid && Claim(r, s.procs[r]).Some?
      ensures Claim(r, s.procs[r]).value.ofd in s.locks && s.locks[Claim(r, s.procs[r]).value.ofd] == Claim(r, s.procs[r]).value.mode
    {
      assert ProcessInv(s, r);
    }
    OneProcessChanges(s, With(s, pid, q), pid, q);
  }

  // ------------------------------------------------------- closing descriptors

  lemma StillOpen(open: map<nat, set<nat>>, pid: nat, ofd: nat, r: nat, o: nat)
    requires pid in open && r in open && o in open[r] && (r != pid || o != ofd)
    ensures OpenSomewhere(open[pid := open[pid] - {ofd}], o)
  {
    assert o in open[pid := open[pid] - {ofd}][r];
  }

  lemma ClosingKeepsKernel(s: System, pid: nat, ofd: nat)
    requires Kernel(s) && pid in s.open
    ensures Kernel(CloseFd(s, pid, ofd))
  {
    var t := CloseFd(s, pid, ofd);
    forall o | o in t.locks ensures o < t.next && OpenSomewhere(t.open, o) {
      if o != ofd {
        var r :| r in s.open && o in s.open[r];
        StillOpen(s.open, pid, ofd, r, o);
      }
    }
    forall r | r in t.open ensures forall o :: o in t.open[r] ==> o < t.next {
      assert t.open[r] <= s.open[r];
    }
  }

  /** Closing a copy never drops a lock another process has a copy of. */
  lemma ClosingSparesOthers(s: System, pid: nat, ofd: nat, r: nat, l: Locked)
    requires pid in s.open && r != pid && Backed(s, r, l)
    ensures Backed(CloseFd(s, pid, ofd), r, l)
  {
    StillOpen(s.open, pid, ofd, r, l.ofd);
  }

  /** A descriptor the process no longer claims can be closed. */
  lemma ClosingKeeps(s: System, pid: nat, ofd: nat)
    requires Inv(s) && Runs(s, pid)
    requires Claim(pid, s.procs[pid]).Some? ==> Claim(pid, s.procs[pid]).value.ofd != ofd
    ensures Inv(CloseFd(s, pid, ofd)) && Runs(CloseFd(s, pid, ofd), pid)
  {
    var t := CloseFd(s, pid, ofd);
    ClosingKeepsKernel(s, pid, ofd);
    forall r | r in t.procs ensures ProcessInv(t, r) {
      assert ProcessInv(s, r);
      if r != pid && Claim(r, s.procs[r]).Some? {
        ClosingSparesOthers(s, pid, ofd, r, Claim(r, s.procs[r]).value);
      }
    }
  }

  /** Unlocking is safe on a description nobody else claims. */
  lemma UnlockingKeeps(s: System, ofd: nat)
    requires Inv(s)
    requires forall r :: r in s.procs && Claim(r, s.procs[r]).Some? ==> Claim(r, s.procs[r]).value.ofd != ofd
    ensures Inv(Unlock(s, ofd))
  {
    var t := Unlock(s, ofd);
    forall r | r in t.procs ensures ProcessInv(t, r) { assert ProcessInv(s, r); }
  }

  lemma ForgettingKeeps(s: System, pid: nat)
    requires Inv(s) && Idle(s, pid) && s.procs[pid].registryPid != pid
    ensures Inv(Forgotten(s, pid))
  {
    assert ProcessInv(s, pid);
    MemoryChanges(s, pid, s.procs[pid].(registryPid := pid, registry := None));
  }

  function Forgotten(s: System, pid: nat): System
    requires Runs(s, pid)
  {
    With(s, pid, s.procs[pid].(registryPid := pid, registry := None))
  }

  lemma ResetShape(s: System, pid: nat)
    requires Idle(s, pid)
    ensures var p := s.procs[pid];
            ResetAfterFork(s, pid) ==
              if p.registryPid == pid then s
              else if p.registry.Some? && p.registry.value in p.helds then
                CloseFd(Forgotten(s, pid), pid, p.helds[p.registry.value].ofd)
              else Forgotten(s, pid)
  {}

  lemma ForgettingClaimsNothing(s: System, pid: nat)
    requires Idle(s, pid)
    ensures Runs(Forgotten(s, pid), pid) && Claim(pid, Forgotten(s, pid).procs[pid]) == None
  {}

  /** A forked child's cleanup keeps every lease of every other process. */
  lemma ResetKeeps(s: System, pid: nat)
    requires Inv(s) && Idle(s, pid)
    ensures Inv(ResetAfterFork(s, pid))
  {
    var p := s.procs[pid];
    ResetShape(s, pid);
    if p.registryPid != pid {
      ForgettingKeeps(s, pid);
      ForgettingClaimsNothing(s, pid);
      if p.registry.Some? && p.registry.value in p.helds {
        ClosingKeeps(Forgotten(s, pid), pid, p.helds[p.registry.value].ofd);
      }
    }
  }

  lemma ResetFacts(s: System, pid: nat)
    requires Idle(s, pid)
    ensures var t := ResetAfterFork(s, pid);
            Idle(t, pid) && t.procs[pid].registryPid == pid && t.active == s.active
  {}

  // ------------------------------------------------------------------ arrivals

  lemma FreshIsUnclaimed(s: System, r: nat)
    requires Inv(s) && r in s.procs && Claim(r, s.procs[r]).Some?
    ensures Claim(r, s.procs[r]).value.ofd < s.next && Claim(r, s.procs[r]).value.ofd in s.locks
    ensures s.locks[Claim(r, s.procs[r]).value.ofd] == Claim(r, s.procs[r]).value.mode
  {
    assert ProcessInv(s, r);
  }

  lemma PidsAreOld(s: System, r: nat)
    requires Inv(s) && r in s.procs
    ensures r < s.next
  {
    assert ProcessInv(s, r);
  }

  lemma ArrivalKeepsKernel(s: System, q: Process, fds: set<nat>)
    requires Kernel(s) && s.next !in s.open && forall o :: o in fds ==> o < s.next
    ensures Kernel(Arrived(s, q, fds))
  {
    var t := Arrived(s, q, fds);
    forall o | o in t.locks ensures o < t.next && OpenSomewhere(t.open, o) {
      var r :| r in s.open && o in s.open[r];
      assert o in t.open[r];
    }
    forall r | r in t.open ensures forall o :: o in t.open[r] ==> o < t.next {
      if r != s.next { assert t.open[r] == s.open[r]; }
    }
  }

  /** A process that enters the system with copies of descriptors and claims nothing. */
  lemma ArrivalKeeps(s: System, q: Process, fds: set<nat>)
    requires Inv(s) && Local(s.next, q, s.next + 1) && Claim(s.next, q) == None
    requires forall o :: o in fds ==> o < s.next
    ensures Inv(Arrived(s, q, fds))
  {
    var t := Arrived(s, q, fds);
    forall r | r in s.procs ensures r != s.next { PidsAreOld(s, r); }
    ArrivalKeepsKernel(s, q, fds);
    forall r | r in t.procs ensures ProcessInv(t, r) {
      if r != s.next {
        assert ProcessInv(s, r);
        LaterIsSane(s.procs[r], s.next, t.next);
      }
    }
    forall a, b | a in t.procs && b in t.procs && a != b ensures !SameClaim(a, t.procs[a], b, t.procs[b]) {
      if a != s.next && b != s.next { assert !SameClaim(a, s.procs[a], b, s.procs[b]); }
    }
  }

  lemma SpawnKeeps(s: System)
    requires Inv(s)
    ensures Inv(Arrived(s, Process(s.next, None, map[], map[], None), {}))
  {
    ArrivalKeeps(s, Process(s.next, None, map[], map[], None), {});
  }

  lemma CopyIsInherited(s: System, pid: nat)
    requires Inv(s) && Idle(s, pid)
    ensures Local(s.next, s.procs[pid], s.next + 1) && Claim(s.next, s.procs[pid]) == None
  {
    assert ProcessInv(s, pid);
    LaterIsSane(s.procs[pid], s.next, s.next + 1);
  }

  lemma ForkKeeps(s: System, pid: nat)
    requires Inv(s) && Idle(s, pid)
    ensures Inv(Arrived(s, s.procs[pid], s.open[pid]))
  {
    CopyIsInherited(s, pid);
    ArrivalKeeps(s, s.procs[pid], s.open[pid]);
  }

  lemma DieKeeps(s: System, pid: nat)
    requires Inv(s) && Runs(s, pid)
    ensures Inv(Died(s, pid))
  {
    var t := Died(s, pid);
    forall r | r in t.procs ensures ProcessInv(t, r) {
      assert ProcessInv(s, r);
      if Claim(r, s.procs[r]).Some? { assert Claim(r, s.procs[r]).value.ofd in t.open[r]; }
    }
    forall r | r in t.open ensures forall o :: o in t.open[r] ==> o < t.next {
      assert t.open[r] == s.open[r];
    }
  }

  /** While one process holds the exclusive lease, no other holds any. */
  lemma ExclusiveExcludes(s: System, a: nat, b: nat)
    requires Inv(s) && HoldsExclusive(s, a) && b in s.procs && Claim(b, s.procs[b]).Some?
    ensures a == b
  {
    assert ProcessInv(s, a);
    FreshIsUnclaimed(s, a);
    FreshIsUnclaimed(s, b);
    assert a != b ==> !SameClaim(a, s.procs[a], b, s.procs[b]);
  }

  lemma SetMarkerKeeps(s: System, pid: nat, present: bool)
    requires Inv(s) && HoldsExclusive(s, pid)
    ensures Inv(s.(active := present))
  {
    var t := s.(active := present);
    forall r | r in t.procs ensures ProcessInv(t, r) {
      assert ProcessInv(s, r);
      if Owns(r, s.procs[r]) { ExclusiveExcludes(s, pid, r); }
    }
  }

  // -------------------------------------------------------------------- acquire

  lemma LaterIsSound(s: System, n: nat)
    requires Inv(s) && s.next <= n
    ensures Inv(s.(next := n))
  {
    var t := s.(next := n);
    forall r | r in t.procs ensures ProcessInv(t, r) {
      assert ProcessInv(s, r);
      LaterIsSane(s.procs[r], s.next, n);
    }
  }

  lemma OneMoreLease(p: Process, id: nat, h: nat)
    requires id !in p.leases
    ensures |LiveLeases(NewLease(p, id, h), h)| == |LiveLeases(p, h)| + 1
    ensures forall g :: g != h ==> LiveLeases(NewLease(p, id, h), g) == LiveLeases(p, g)
  {
    assert LiveLeases(NewLease(p, id, h), h) == LiveLeases(p, h) + {id};
    forall g | g != h ensures LiveLeases(NewLease(p, id, h), g) == LiveLeases(p, g) {}
  }

  /** The new memory is in order and claims what the old one claimed. */
  predicate Fits(s: System, n: nat, pid: nat, q: Process)
    requires pid in s.procs
  {
    s.next <= n && Local(pid, q, n) && Fenced(s.active, pid, q) && Claim(pid, q) == Claim(pid, s.procs[pid])
  }

  function Later(s: System, n: nat, pid: nat, q: Process): System {
    With(s.(next := n), pid, q)
  }

  lemma MemoryChangesLater(s: System, n: nat, pid: nat, q: Process)
    requires Inv(s) && pid in s.procs
    ensures Fits(s, n, pid, q) ==> Inv(Later(s, n, pid, q))
  {
    if Fits(s, n, pid, q) {
      LaterIsSound(s, n);
      MemoryChanges(s.(next := n), pid, q);
    }
  }

  /** The memory of a process that has nested one more shared lease. */
  function Nested(p: Process, id: nat, h: nat): Process
    requires h in p.helds
  {
    NewLease(p, id, h).(helds := p.helds[h := p.helds[h].(references := p.helds[h].references + 1)])
  }

  lemma NestingIsLocal(pid: nat, p: Process, next: nat, h: nat)
    requires Local(pid, p, next) && p.registryPid == pid && p.registry == Some(h) && h in p.helds && p.helds[h].mode == Shared
    ensures Local(pid, Nested(p, next, h), next + 1)
  {
    OneMoreLease(p, next, h);
    var q := Nested(p, next, h);
    assert LiveLeases(q, h) == LiveLeases(NewLease(p, next, h), h);
  }

  lemma NestingClaims(pid: nat, p: Process, id: nat, h: nat)
    requires p.registry == Some(h) && h in p.helds
    ensures Claim(pid, Nested(p, id, h)) == Claim(pid, p)
    ensures Nested(p, id, h).acquiring == p.acquiring
  {}

  lemma NestingFits(s: System, pid: nat, h: nat, q: Process)
    requires Inv(s) && Idle(s, pid) && s.procs[pid].registryPid == pid && s.procs[pid].registry == Some(h)
    requires h in s.procs[pid].helds && s.procs[pid].helds[h].mode == Shared && !s.active
    requires q == Nested(s.procs[pid], s.next, h)
    ensures Fits(s, s.next + 1, pid, q)
  {
    assert ProcessInv(s, pid);
    NestingIsLocal(pid, s.procs[pid], s.next, h);
    NestingClaims(pid, s.procs[pid], s.next, h);
  }

  lemma NestingKeeps(s: System, pid: nat, h: nat, q: Process)
    requires Inv(s) && Idle(s, pid) && s.procs[pid].registryPid == pid && s.procs[pid].registry == Some(h)
    requires h in s.procs[pid].helds && s.procs[pid].helds[h].mode == Shared && !s.active
    requires q == Nested(s.procs[pid], s.next, h)
    ensures Inv(Later(s, s.next + 1, pid, q))
  {
    NestingFits(s, pid, h, q);
    MemoryChangesLater(s, s.next + 1, pid, q);
  }

  /** The state after the kernel granted a lock on a fresh description. */
  function Granting(s: System, pid: nat, mode: Mode): System
    requires Runs(s, pid)
  {
    With(s, pid, s.procs[pid].(acquiring := Some(Locked(s.next, mode)))).(
      open := s.open[pid := s.open[pid] + {s.next}], locks := s.locks[s.next := mode], next := s.next + 1)
  }

  lemma GrantingKeepsKernel(s: System, pid: nat, mode: Mode)
    requires Kernel(s) && Runs(s, pid) && !Conflicts(s.locks, mode)
    ensures Kernel(Granting(s, pid, mode))
  {
    var t := Granting(s, pid, mode);
    forall o | o in t.locks ensures o < t.next && OpenSomewhere(t.open, o) {
      if o == s.next {
        assert o in t.open[pid];
      } else {
        var r :| r in s.open && o in s.open[r];
        assert o in t.open[r];
      }
    }
    forall r | r in t.open ensures forall o :: o in t.open[r] ==> o < t.next {
      if r != pid { assert t.open[r] == s.open[r]; }
    }
  }

  lemma AcquiringIsLocal(pid: nat, p: Process, next: nat, l: Locked)
    requires Local(pid, p, next) && p.registryPid == pid && p.registry == None && p.acquiring == None
    ensures Local(pid, p.(acquiring := Some(l)), next + 1)
  {
    LaterIsSane(p, next, next + 1);
    var q := p.(acquiring := Some(l));
    forall x | x in p.leases ensures !OwnLive(pid, q, x) { assert !OwnLive(pid, p, x); }
  }

  lemma GrantingKeeps(s: System, pid: nat, mode: Mode)
    requires Inv(s) && Idle(s, pid) && s.procs[pid].registryPid == pid && s.procs[pid].registry == None
    requires !Conflicts(s.locks, mode)
    ensures Inv(Granting(s, pid, mode))
  {
    var t := Granting(s, pid, mode);
    var q := t.procs[pid];
    assert ProcessInv(s, pid);
    AcquiringIsLocal(pid, s.procs[pid], s.next, Locked(s.next, mode));
    GrantingKeepsKernel(s, pid, mode);
    forall r | r in s.procs && r != pid
      ensures !SameClaim(pid, q, r, s.procs[r])
      ensures Claim(r, s.procs[r]).Some? ==>
        Claim(r, s.procs[r]).value.ofd in t.locks && t.locks[Claim(r, s.procs[r]).value.ofd] == Claim(r, s.procs[r]).value.mode
    {
      if Claim(r, s.procs[r]).Some? { FreshIsUnclaimed(s, r); }
    }
    OneProcessChanges(s, t, pid, q);
  }

  lemma AcquireShape(s: System, pid: nat, mode: Mode)
    requires Idle(s, pid) && (s.procs[pid].registry.Some? ==> s.procs[pid].registry.value in s.procs[pid].helds)
    ensures var p := s.procs[pid];
            AcquireIn(s, pid, mode).system ==
              if p.registry.Some? then
                if p.helds[p.registry.value].mode == Shared && mode == Shared && !s.active then
                  Later(s, s.next + 1, pid, Nested(p, s.next, p.registry.value))
                else s
              else if Conflicts(s.locks, mode) then s
              else Granting(s, pid, mode)
  {}

  lemma RegistryIsKnown(s: System, pid: nat)
    requires Inv(s) && Idle(s, pid) && s.procs[pid].registryPid == pid
    ensures s.procs[pid].registry.Some? ==> s.procs[pid].registry.value in s.procs[pid].helds
  {
    assert ProcessInv(s, pid);
  }

  lemma AcquireKeeps(s: System, pid: nat, mode: Mode)
    requires Inv(s) && Idle(s, pid) && s.procs[pid].registryPid == pid
    ensures Inv(AcquireIn(s, pid, mode).system)
  {
    var p := s.procs[pid];
    RegistryIsKnown(s, pid);
    AcquireShape(s, pid, mode);
    if p.registry.Some? {
      if p.helds[p.registry.value].mode == Shared && mode == Shared && !s.active {
        NestingKeeps(s, pid, p.registry.value, Nested(p, s.next, p.registry.value));
      }
    } else if !Conflicts(s.locks, mode) {
      GrantingKeeps(s, pid, mode);
    }
  }

  // --------------------------------------------------------------------- finish

  /** The memory of a process that registers the lease it just acquired. */
  function Registered(p: Process, pid: nat, l: Locked, next: nat): Process {
    NewLease(p.(acquiring := None, registry := Some(next), helds := p.helds[next := Held(pid, l.ofd, l.mode, 1)]),
             next + 1, next)
  }

  lemma RegisteringIsLocal(pid: nat, p: Process, l: Locked, next: nat)
    requires Local(pid, p, next) && p.registryPid == pid && p.acquiring == Some(l) && l.ofd < next
    ensures Local(pid, Registered(p, pid, l, next), next + 2)
  {
    var q := Registered(p, pid, l, next);
    assert LiveLeases(q, next) == {next + 1};
    forall x | x in q.leases && OwnLive(pid, q, x) ensures q.registry == Some(q.leases[x].held) {
      if x != next + 1 { assert OwnLive(pid, p, x); }
    }
  }

  lemma RegisteringClaims(pid: nat, p: Process, l: Locked, next: nat)
    requires p.registryPid == pid && p.acquiring == Some(l)
    ensures Claim(pid, Registered(p, pid, l, next)) == Claim(pid, p)
    ensures Owns(pid, Registered(p, pid, l, next)) && HeldBy(pid, Registered(p, pid, l, next)).mode == l.mode
  {}

  lemma AcquirersAreLocal(s: System, pid: nat, l: Locked)
    requires Inv(s) && Runs(s, pid) && s.procs[pid].acquiring == Some(l)
    ensures s.procs[pid].registryPid == pid && Local(pid, s.procs[pid], s.next) && l.ofd < s.next
  {
    FreshIsUnclaimed(s, pid);
    assert ProcessInv(s, pid);
  }

  lemma RegisteringFits(s: System, pid: nat, l: Locked)
    requires Inv(s) && Runs(s, pid) && s.procs[pid].acquiring == Some(l) && (l.mode == Shared ==> !s.active)
    ensures Fits(s, s.next + 2, pid, Registered(s.procs[pid], pid, l, s.next))
  {
    AcquirersAreLocal(s, pid, l);
    RegisteringIsLocal(pid, s.procs[pid], l, s.next);
    RegisteringClaims(pid, s.procs[pid], l, s.next);
  }

  lemma RegisteringKeeps(s: System, pid: nat, l: Locked, q: Process, n: nat)
    requires Inv(s) && Runs(s, pid) && s.procs[pid].acquiring == Some(l) && (l.mode == Shared ==> !s.active)
    requires q == Registered(s.procs[pid], pid, l, s.next) && n == s.next + 2
    ensures Inv(Later(s, n, pid, q))
  {
    RegisteringFits(s, pid, l);
    assert Fits(s, n, pid, q);
    MemoryChangesLater(s, n, pid, q);
  }

  /** Giving a kernel lock back: nobody else claims the description, so it can be
      unlocked and closed. */
  lemma GivingBackKeeps(s: System, pid: nat, ofd: nat, q: Process)
    requires Inv(s) && Runs(s, pid) && Claim(pid, s.procs[pid]).Some? && Claim(pid, s.procs[pid]).value.ofd == ofd
    requires Local(pid, q, s.next) && Claim(pid, q) == None && Fenced(s.active, pid, q)
    ensures Inv(CloseFd(Unlock(With(s, pid, q), ofd), pid, ofd))
  {
    var t := With(s, pid, q);
    MemoryChanges(s, pid, q);
    forall r | r in t.procs && Claim(r, t.procs[r]).Some? ensures Claim(r, t.procs[r]).value.ofd != ofd {
      assert r != pid ==> !SameClaim(pid, s.procs[pid], r, s.procs[r]);
    }
    UnlockingKeeps(t, ofd);
    ClosingKeeps(Unlock(t, ofd), pid, ofd);
  }

  lemma AbandoningIsLocal(pid: nat, p: Process, next: nat)
    requires Local(pid, p, next) && p.registryPid == pid && p.acquiring.Some?
    ensures Local(pid, p.(acquiring := None), next) && Claim(pid, p.(acquiring := None)) == None
    ensures !Owns(pid, p.(acquiring := None))
  {
    var q := p.(acquiring := None);
    forall x | x in p.leases ensures !OwnLive(pid, q, x) { assert !OwnLive(pid, p, x); }
  }

  lemma AbandoningKeeps(s: System, pid: nat, l: Locked)
    requires Inv(s) && Runs(s, pid) && s.procs[pid].acquiring == Some(l)
    ensures Inv(CloseFd(Unlock(With(s, pid, s.procs[pid].(acquiring := None)), l.ofd), pid, l.ofd))
  {
    var q := s.procs[pid].(acquiring := None);
    assert Local(pid, q, s.next) && Claim(pid, q) == None && Fenced(s.active, pid, q) by {
      assert ProcessInv(s, pid);
      AbandoningIsLocal(pid, s.procs[pid], s.next);
    }
    GivingBackKeeps(s, pid, l.ofd, q);
  }

  lemma AbandonedShape(s: System, pid: nat, l: Locked)
    requires Runs(s, pid) && s.procs[pid].acquiring == Some(l) && l.mode == Shared && s.active
    ensures FinishIn(s, pid).system == CloseFd(Unlock(With(s, pid, s.procs[pid].(acquiring := None)), l.ofd), pid, l.ofd)
  {}

  lemma FinishAbandoned(s: System, pid: nat, l: Locked)
    requires Inv(s) && Runs(s, pid) && s.procs[pid].acquiring == Some(l) && l.mode == Shared && s.active
    ensures Inv(FinishIn(s, pid).system)
  {
    AbandonedShape(s, pid, l);
    AbandoningKeeps(s, pid, l);
  }

  lemma RegisteredShape(s: System, pid: nat, l: Locked, t: System)
    requires Runs(s, pid) && s.procs[pid].acquiring == Some(l) && (l.mode == Shared ==> !s.active)
    requires t == FinishIn(s, pid).system
    ensures t == Later(s, s.next + 2, pid, Registered(s.procs[pid], pid, l, s.next))
  {}

  lemma FinishRegistered(s: System, pid: nat, l: Locked, q: Process, n: nat, t: System)
    requires Inv(s) && Runs(s, pid) && s.procs[pid].acquiring == Some(l) && (l.mode == Shared ==> !s.active)
    requires q == Registered(s.procs[pid], pid, l, s.next) && n == s.next + 2 && t == Later(s, n, pid, q)
    ensures Inv(t)
  {
    RegisteringKeeps(s, pid, l, q, n);
  }

  lemma FinishKeeps(s: System, pid: nat, t: System)
    requires Inv(s) && Runs(s, pid) && s.procs[pid].acquiring.Some? && t == FinishIn(s, pid).system
    ensures Inv(t)
  {
    var l := s.procs[pid].acquiring.value;
    if l.mode == Shared && s.active {
      FinishAbandoned(s, pid, l);
    } else {
      RegisteredShape(s, pid, l, t);
      FinishRegistered(s, pid, l, Registered(s.procs[pid], pid, l, s.next), s.next + 2, t);
    }
  }

  // ---------------------------------------------------------------------- close

  lemma OneLeaseFewer(p: Process, lease: nat)
    requires lease in p.leases && !p.leases[lease].released
    ensures var q := p.(leases := p.leases[lease := p.leases[lease].(released := true)]);
            && |LiveLeases(q, p.leases[lease].held)| == |LiveLeases(p, p.leases[lease].held)| - 1
            && forall g :: g != p.leases[lease].held ==> LiveLeases(q, g) == LiveLeases(p, g)
  {
    var h := p.leases[lease].held;
    var q := p.(leases := p.leases[lease := p.leases[lease].(released := true)]);
    assert LiveLeases(q, h) == LiveLeases(p, h) - {lease};
    forall g | g != h ensures LiveLeases(q, g) == LiveLeases(p, g) {}
  }

  /** Marking a lease this process does not own as released. */
  lemma DisowningKeeps(s: System, pid: nat, lease: nat)
    requires Inv(s) && Idle(s, pid) && s.procs[pid].registryPid == pid
    requires lease in s.procs[pid].leases && !s.procs[pid].leases[lease].released
    requires s.procs[pid].registry != Some(s.procs[pid].leases[lease].held)
    ensures var p := s.procs[pid]; Inv(With(s, pid, p.(leases := p.leases[lease := p.leases[lease].(released := true)])))
  {
    var p := s.procs[pid];
    var q := p.(leases := p.leases[lease := p.leases[lease].(released := true)]);
    assert ProcessInv(s, pid);
    OneLeaseFewer(p, lease);
    forall x | x in q.leases && OwnLive(pid, q, x) ensures q.registry == Some(q.leases[x].held) { assert OwnLive(pid, p, x); }
    MemoryChanges(s, pid, q);
  }

  /** The memory after one reference of the registered lease is given up. */
  function Dropped(p: Process, lease: nat): Process
    requires lease in p.leases && p.leases[lease].held in p.helds
  {
    var h := p.leases[lease].held;
    var held := p.helds[h];
    p.(leases := p.leases[lease := p.leases[lease].(released := true)],
       helds := p.helds[h := held.(references := if held.references > 0 then held.references - 1 else 0)])
  }

  lemma DroppingFacts(pid: nat, p: Process, next: nat, lease: nat)
    requires Local(pid, p, next) && p.registryPid == pid && p.acquiring == None
    requires lease in p.leases && !p.leases[lease].released && p.registry == Some(p.leases[lease].held)
    ensures p.leases[lease].held in p.helds
    ensures var h, q := p.leases[lease].held, Dropped(p, lease);
            if p.helds[h].references == 1 then Local(pid, q.(registry := None), next) else Local(pid, q, next)
  {
    var h := p.leases[lease].held;
    OneLeaseFewer(p, lease);
    var q := Dropped(p, lease);
    assert LiveLeases(q, h) == LiveLeases(p.(leases := q.leases), h);
    forall x | x in q.leases && OwnLive(pid, q, x)
      ensures q.leases[x].held == h && (p.helds[h].references == 1 ==> false)
    {
      assert OwnLive(pid, p, x);
      assert x in LiveLeases(q, h);
    }
  }

  predicate Releasable(s: System, pid: nat, lease: nat) {
    && Idle(s, pid) && s.procs[pid].registryPid == pid
    && lease in s.procs[pid].leases && !s.procs[pid].leases[lease].released
    && s.procs[pid].registry == Some(s.procs[pid].leases[lease].held) && s.procs[pid].leases[lease].held in s.procs[pid].helds
  }

  lemma ReleaseShape(s: System, pid: nat, lease: nat)
    requires Releasable(s, pid, lease) && s.procs[pid].helds[s.procs[pid].leases[lease].held].references >= 1
    ensures var p := s.procs[pid];
            var held, q := p.helds[p.leases[lease].held], Dropped(p, lease);
            Release(s, pid, lease).system ==
              if held.references == 1 then CloseFd(Unlock(With(s, pid, q.(registry := None)), held.ofd), pid, held.ofd)
              else With(s, pid, q)
  {}

  lemma LastReleaseKeeps(s: System, pid: nat, lease: nat)
    requires Inv(s) && Releasable(s, pid, lease)
    requires s.procs[pid].helds[s.procs[pid].leases[lease].held].references == 1
    ensures var p := s.procs[pid];
            var ofd := p.helds[p.leases[lease].held].ofd;
            Inv(CloseFd(Unlock(With(s, pid, Dropped(p, lease).(registry := None)), ofd), pid, ofd))
  {
    var p := s.procs[pid];
    var q := Dropped(p, lease).(registry := None);
    assert Local(pid, q, s.next) by {
      assert ProcessInv(s, pid);
      DroppingFacts(pid, p, s.next, lease);
    }
    assert Claim(pid, q) == None && !Owns(pid, q);
    GivingBackKeeps(s, pid, p.helds[p.leases[lease].held].ofd, q);
  }

  lemma NestedReleaseKeeps(s: System, pid: nat, lease: nat)
    requires Inv(s) && Releasable(s, pid, lease)
    requires s.procs[pid].helds[s.procs[pid].leases[lease].held].references > 1
    ensures Inv(With(s, pid, Dropped(s.procs[pid], lease)))
  {
    var p := s.procs[pid];
    var q := Dropped(p, lease);
    assert Local(pid, q, s.next) && Fenced(s.active, pid, p) by {
      assert ProcessInv(s, pid);
      DroppingFacts(pid, p, s.next, lease);
    }
    assert Claim(pid, q) == Claim(pid, p) && Fenced(s.active, pid, q);
    MemoryChanges(s, pid, q);
  }

  lemma ReferencesArePositive(s: System, pid: nat, lease: nat)
    requires Inv(s) && Releasable(s, pid, lease)
    ensures s.procs[pid].helds[s.procs[pid].leases[lease].held].references >= 1
  {
    assert ProcessInv(s, pid);
  }

  lemma ReleaseKeeps(s: System, pid: nat, lease: nat)
    requires Inv(s) && Releasable(s, pid, lease)
    ensures Inv(Release(s, pid, lease).system)
  {
    ReferencesArePositive(s, pid, lease);
    ReleaseShape(s, pid, lease);
    if s.procs[pid].helds[s.procs[pid].leases[lease].held].references == 1 {
      LastReleaseKeeps(s, pid, lease);
    } else {
      NestedReleaseKeeps(s, pid, lease);
    }
  }

  lemma CloseKeeps(s: System, pid: nat, lease: nat)
    requires Inv(s) && Idle(s, pid) && s.procs[pid].registryPid == pid
    ensures Inv(CloseIn(s, pid, lease).system)
  {
    var p := s.procs[pid];
    assert ProcessInv(s, pid);
    if lease in p.leases && !p.leases[lease].released {
      var l := p.leases[lease];
      if p.registry == Some(l.held) {
        ReleaseKeeps(s, pid, lease);
      } else {
        DisowningKeeps(s, pid, lease);
      }
    }
  }

  // ------------------------------------------------------- entering and lending

  lemma MarkingIsLocal(pid: nat, p: Process, next: nat, lease: nat, l: LeaseObject)
    requires Local(pid, p, next) && lease in p.leases
    requires l.held == p.leases[lease].held && l.released == p.leases[lease].released
    ensures Local(pid, p.(leases := p.leases[lease := l]), next)
  {
    var q := p.(leases := p.leases[lease := l]);
    forall h ensures LiveLeases(q, h) == LiveLeases(p, h) {}
    forall x | x in q.leases && OwnLive(pid, q, x) ensures OwnLive(pid, p, x) && q.leases[x].held == p.leases[x].held {}
  }

  /** Entering a lease, or lending and taking back its descriptor, changes flags only. */
  lemma MarkingKeeps(s: System, pid: nat, lease: nat, l: LeaseObject)
    requires Inv(s) && Idle(s, pid) && lease in s.procs[pid].leases
    requires l.held == s.procs[pid].leases[lease].held && l.released == s.procs[pid].leases[lease].released
    ensures Inv(With(s, pid, s.procs[pid].(leases := s.procs[pid].leases[lease := l])))
  {
    var p := s.procs[pid];
    var q := p.(leases := p.leases[lease := l]);
    assert Local(pid, q, s.next) && Fenced(s.active, pid, p) by {
      assert ProcessInv(s, pid);
      MarkingIsLocal(pid, p, s.next, lease, l);
    }
    MemoryChanges(s, pid, q);
  }

  lemma EnterKeeps(s: System, pid: nat, lease: nat)
    requires Inv(s) && Idle(s, pid) && s.procs[pid].registryPid == pid
    ensures Inv(EnterIn(s, pid, lease).system)
  {
    var p := s.procs[pid];
    if lease in p.leases {
      MarkingKeeps(s, pid, lease, p.leases[lease].(entered := true));
      CloseKeeps(s, pid, lease);
    }
  }

  lemma BorrowShape(s: System, pid: nat, lease: nat, requireExclusive: bool)
    requires Runs(s, pid)
    ensures var p, t := s.procs[pid], BorrowIn(s, pid, lease, requireExclusive).system;
            t == s || (lease in p.leases
                       && t == With(s, pid, p.(leases := p.leases[lease := p.leases[lease].(borrows := p.leases[lease].borrows + 1)])))
  {}

  lemma BorrowKeeps(s: System, pid: nat, lease: nat, requireExclusive: bool)
    requires Inv(s) && Idle(s, pid)
    ensures Inv(BorrowIn(s, pid, lease, requireExclusive).system)
  {
    var t := BorrowIn(s, pid, lease, requireExclusive).system;
    BorrowShape(s, pid, lease, requireExclusive);
    if t != s {
      MarkingKeeps(s, pid, lease, s.procs[pid].leases[lease].(borrows := s.procs[pid].leases[lease].borrows + 1));
    }
  }

  lemma GiveBackKeeps(s: System, pid: nat, lease: nat)
    requires Inv(s) && Idle(s, pid)
    ensures Inv(GiveBackIn(s, pid, lease).system)
  {
    var p := s.procs[pid];
    if lease in p.leases && p.leases[lease].borrows > 0 {
      MarkingKeeps(s, pid, lease, p.leases[lease].(borrows := p.leases[lease].borrows - 1));
    }
  }

  // ------------------------------------------------------------------- theorems

  lemma PerformKeeps(s: System, a: Action)
    requires Inv(s)
    ensures Inv(Perform(s, a).system)
  {
    match a
    case Spawn => SpawnKeeps(s);
    case Fork(pid) => if Idle(s, pid) { ForkKeeps(s, pid); }
    case Reset(pid) => if Idle(s, pid) { ResetKeeps(s, pid); }
    case Acquire(pid, mode) => if Idle(s, pid) { ResetKeeps(s, pid); ResetFacts(s, pid); AcquireKeeps(ResetAfterFork(s, pid), pid, mode); }
    case Finish(pid) => if Runs(s, pid) && s.procs[pid].acquiring.Some? { FinishKeeps(s, pid, FinishIn(s, pid).system); }
    case Enter(pid, lease) => if Idle(s, pid) { ResetKeeps(s, pid); ResetFacts(s, pid); EnterKeeps(ResetAfterFork(s, pid), pid, lease); }
    case Borrow(pid, lease, x) => if Idle(s, pid) { ResetKeeps(s, pid); ResetFacts(s, pid); BorrowKeeps(ResetAfterFork(s, pid), pid, lease, x); }
    case GiveBack(pid, lease) => if Idle(s, pid) { ResetKeeps(s, pid); ResetFacts(s, pid); GiveBackKeeps(ResetAfterFork(s, pid), pid, lease); }
    case Close(pid, lease) => if Idle(s, pid) { ResetKeeps(s, pid); ResetFacts(s, pid); CloseKeeps(ResetAfterFork(s, pid), pid, lease); }
    case Die(pid) => if Runs(s, pid) { DieKeeps(s, pid); }
    case SetMarker(pid, present) => if HoldsExclusive(s, pid) { SetMarkerKeeps(s, pid, present); }
  }

  lemma {:induction false} RunKeeps(active: bool, actions: seq<Action>)
    ensures Inv(Run(Boot(active), actions))
  {
    if actions != [] {
      RunKeeps(active, actions[..|actions| - 1]);
      PerformKeeps(Run(Boot(active), actions[..|actions| - 1]), actions[|actions| - 1]);
    }
  }

  /** A lease object its own process has acquired and not released. */
  predicate Live(s: System, pid: nat, lease: nat) {
    pid in s.procs && s.procs[pid].registryPid == pid && lease in s.procs[pid].leases && OwnLive(pid, s.procs[pid], lease)
  }

  function ModeOf(s: System, pid: nat, lease: nat): Mode
    requires Live(s, pid, lease)
  {
    s.procs[pid].helds[s.procs[pid].leases[lease].held].mode
  }

  lemma LiveIsRegistered(s: System, pid: nat, lease: nat)
    requires Inv(s) && Live(s, pid, lease)
    ensures Owns(pid, s.procs[pid]) && s.procs[pid].registry.value == s.procs[pid].leases[lease].held
    ensures Claim(pid, s.procs[pid]).Some? && HeldBy(pid, s.procs[pid]).mode == ModeOf(s, pid, lease)
    ensures HeldBy(pid, s.procs[pid]).references == |LiveLeases(s.procs[pid], s.procs[pid].registry.value)|
    ensures ModeOf(s, pid, lease) == Exclusive ==> HeldBy(pid, s.procs[pid]).references == 1
    ensures lease in LiveLeases(s.procs[pid], s.procs[pid].registry.value)
  {
    assert ProcessInv(s, pid);
  }

  lemma OneElement<T>(s: set<T>, a: T, b: T)
    requires |s| == 1 && a in s && b in s
    ensures a == b
  {
    assert |s - {a}| == 0;
  }

  /** Over every interleaving, a live exclusive lease is the only live lease there
      is, in its own process or any other. */
  lemma ExclusiveIsAlone(active: bool, actions: seq<Action>, a: nat, x: nat, b: nat, y: nat)
    requires var s := Run(Boot(active), actions); Live(s, a, x) && ModeOf(s, a, x) == Exclusive && Live(s, b, y)
    ensures a == b && x == y
  {
    var s := Run(Boot(active), actions);
    RunKeeps(active, actions);
    LiveIsRegistered(s, a, x);
    LiveIsRegistered(s, b, y);
    ExclusiveExcludes(s, a, b);
    OneElement(LiveLeases(s.procs[a], s.procs[a].registry.value), x, y);
  }

  /** The count a process keeps is the number of its unreleased lease objects, and
      the kernel lock behind them is in its hands. */
  lemma ReferencesCountLeases(active: bool, actions: seq<Action>, pid: nat)
    requires var s := Run(Boot(active), actions); pid in s.procs && Owns(pid, s.procs[pid])
    ensures var s := Run(Boot(active), actions);
            var p := s.procs[pid];
            && HeldBy(pid, p).references == |set l | l in p.leases && OwnLive(pid, p, l)|
            && HeldBy(pid, p).references >= 1
            && Claim(pid, p).Some? && Backed(s, pid, Claim(pid, p).value)
  {
    var s := Run(Boot(active), actions);
    RunKeeps(active, actions);
    var p := s.procs[pid];
    assert ProcessInv(s, pid);
    assert LiveLeases(p, p.registry.value) == set l | l in p.leases && OwnLive(pid, p, l);
  }

  /** No shared lease is live while the marker exists, so one that is live can
      always be entered once and closed without a fence failure. */
  lemma FenceHolds(active: bool, actions: seq<Action>, pid: nat, lease: nat)
    requires var s := Run(Boot(active), actions); Live(s, pid, lease) && Idle(s, pid)
    ensures var s := Run(Boot(active), actions);
            && (s.active ==> ModeOf(s, pid, lease) == Exclusive)
            && (!s.procs[pid].leases[lease].entered ==> Perform(s, Enter(pid, lease)).outcome == Done)
            && (s.procs[pid].leases[lease].borrows == 0 ==> Perform(s, Close(pid, lease)).outcome == Done)
  {
    var s := Run(Boot(active), actions);
    RunKeeps(active, actions);
    LiveIsRegistered(s, pid, lease);
    assert ProcessInv(s, pid);
  }

  /** What a forked child does with what it inherited, cleanup, closing and exit
      included, leaves every lease of every other process live and locked. */
  lemma ChildrenSpareParents(active: bool, actions: seq<Action>, child: nat, a: Action, pid: nat, lease: nat)
    requires var s := Run(Boot(active), actions); Live(s, pid, lease) && Idle(s, pid) && child != pid
    requires a == Reset(child) || a == Die(child) || exists l :: a == Close(child, l)
    ensures var t := Perform(Run(Boot(active), actions), a).system;
            && Live(t, pid, lease) && t.procs[pid] == Run(Boot(active), actions).procs[pid]
            && Claim(pid, t.procs[pid]).Some? && Backed(t, pid, Claim(pid, t.procs[pid]).value)
  {
    var s := Run(Boot(active), actions);
    var t := Perform(s, a).system;
    RunKeeps(active, actions);
    PerformKeeps(s, a);
    OthersMemory(s, a, child, pid);
    LiveIsRegistered(t, pid, lease);
    assert ProcessInv(t, pid);
  }

  lemma ResetSparesMemory(s: System, child: nat, pid: nat)
    requires Runs(s, child) && pid in s.procs && pid != child
    ensures pid in ResetAfterFork(s, child).procs && ResetAfterFork(s, child).procs[pid] == s.procs[pid]
  {}

  lemma CloseSparesMemory(s: System, child: nat, lease: nat, pid: nat)
    requires Runs(s, child) && pid in s.procs && pid != child
    ensures pid in CloseIn(s, child, lease).system.procs && CloseIn(s, child, lease).system.procs[pid] == s.procs[pid]
  {}

  lemma OthersMemory(s: System, a: Action, child: nat, pid: nat)
    requires a == Reset(child) || a == Die(child) || exists l :: a == Close(child, l)
    requires pid in s.procs && pid != child
    ensures var t := Perform(s, a).system; pid in t.procs && t.procs[pid] == s.procs[pid]
  {
    if a.Die? {
    } else if Idle(s, child) {
      ResetSparesMemory(s, child, pid);
      ResetFacts(s, child);
      if a.Close? {
        CloseSparesMemory(ResetAfterFork(s, child), child, a.lease, pid);
      }
    }
  }
}
