/** When an acquisition of the maintenance lease is granted, said of the other
    processes' leases and running acquisitions. */
module LeaseGrants {
  import opened Usage
  import opened Lease
  import opened LeaseLaws

  // -------------------------------------------------------- whose descriptors are open

  /** The description a process's memory names: the one it is acquiring on, or the one of
      the lease in its registry, its own or inherited. */
  function Named(p: Process): Option<Locked> {
    if p.acquiring.Some? then p.acquiring
    else if p.registry.Some? && p.registry.value in p.helds then
      Some(Locked(p.helds[p.registry.value].ofd, p.helds[p.registry.value].mode))
    else None
  }

  /** The only descriptor a process has is of the description it names, and the kernel's
      lock on that, while there is one, has the mode it remembers. */
  predicate Neat(locks: map<nat, Mode>, p: Process, fds: set<nat>) {
    && (Named(p) == None ==> fds == {})
    && (Named(p).Some? ==> fds == {Named(p).value.ofd})
    && (Named(p).Some? && Named(p).value.ofd in locks ==> locks[Named(p).value.ofd] == Named(p).value.mode)
  }

  /** A process forked while its parent had a lease that is still locked. */
  predicate Inherits(s: System, r: nat) {
    && r in s.procs && s.procs[r].registryPid != r && Named(s.procs[r]).Some?
    && Named(s.procs[r]).value.ofd in s.locks
    && s.procs[r].registry.Some? && s.procs[r].registry.value in s.procs[r].helds
  }

  function OwnerOf(s: System, r: nat): nat
    requires Inherits(s, r)
  {
    s.procs[r].helds[s.procs[r].registry.value].owner
  }

  /** While the process that took an inherited lease runs, it still holds that lease. */
  predicate OwnerHolds(s: System, r: nat) {
    Inherits(s, r) && OwnerOf(s, r) in s.procs ==>
      Claim(OwnerOf(s, r), s.procs[OwnerOf(s, r)]) == Named(s.procs[r])
  }

  predicate Tidy(s: System) {
    && (forall r {:trigger Neat(s.locks, s.procs[r], s.open[r])} :: r in s.procs && r in s.open ==>
          Neat(s.locks, s.procs[r], s.open[r]))
    && forall r {:trigger OwnerHolds(s, r)} :: r in s.procs ==> OwnerHolds(s, r)
  }

  lemma ClaimIsNamed(pid: nat, p: Process, next: nat)
    requires Local(pid, p, next)
    ensures Claim(pid, p) == if p.registryPid == pid then Named(p) else None
  {}

  /** The system after one process changed: its memory, its descriptors, and locks that
      only went away or came fresh. */
  predicate Moves(s: System, t: System, pid: nat) {
    && pid in s.procs && t.procs.Keys == s.procs.Keys && (forall r :: r in s.procs && r != pid ==> t.procs[r] == s.procs[r])
    && t.open.Keys == s.open.Keys && (forall r :: r in s.open && r != pid ==> t.open[r] == s.open[r])
    && (forall o :: o in t.locks && o < s.next ==> o in s.locks && t.locks[o] == s.locks[o])
  }

  lemma NamedIsOld(s: System, r: nat)
    requires Inv(s) && Tidy(s) && r in s.procs && Named(s.procs[r]).Some?
    ensures Named(s.procs[r]).value.ofd < s.next && Named(s.procs[r]).value.ofd in s.open[r]
  {
    assert Neat(s.locks, s.procs[r], s.open[r]);
  }

  /** The changed process keeps what it claims, or the lock goes with the claim. */
  predicate ClaimKeptOrUnlocked(s: System, t: System, pid: nat) {
    && pid in s.procs && pid in t.procs
    && (Claim(pid, s.procs[pid]).Some? ==>
          Claim(pid, t.procs[pid]) == Claim(pid, s.procs[pid]) || Claim(pid, s.procs[pid]).value.ofd !in t.locks)
  }

  lemma MovingSparesNeat(s: System, t: System, pid: nat, r: nat)
    requires Inv(s) && Tidy(s) && Moves(s, t, pid) && r in s.procs && r in s.open && r != pid
    ensures Neat(t.locks, t.procs[r], t.open[r])
  {
    assert Neat(s.locks, s.procs[r], s.open[r]);
    if Named(s.procs[r]).Some? { NamedIsOld(s, r); }
  }

  lemma MovingSparesOwners(s: System, t: System, pid: nat, r: nat)
    requires Inv(s) && Tidy(s) && Moves(s, t, pid) && ClaimKeptOrUnlocked(s, t, pid) && r in s.procs && r != pid
    ensures OwnerHolds(t, r)
  {
    if Inherits(t, r) {
      NamedIsOld(s, r);
      assert OwnerHolds(s, r);
    }
  }

  lemma MovingKeepsTidy(s: System, t: System, pid: nat)
    requires Inv(s) && Tidy(s) && Moves(s, t, pid) && ClaimKeptOrUnlocked(s, t, pid)
    requires Neat(t.locks, t.procs[pid], t.open[pid]) && OwnerHolds(t, pid)
    ensures Tidy(t)
  {
    forall r | r in t.procs && r in t.open ensures Neat(t.locks, t.procs[r], t.open[r]) {
      if r != pid { MovingSparesNeat(s, t, pid, r); }
    }
    forall r | r in t.procs ensures OwnerHolds(t, r) {
      if r != pid { MovingSparesOwners(s, t, pid, r); }
    }
  }

  // -------------------------------------------------------------------- the actions

  /** A process that names nothing any more, and has nothing open. */
  lemma EmptyHandedKeepsTidy(s: System, t: System, pid: nat)
    requires Inv(s) && Tidy(s) && Moves(s, t, pid) && ClaimKeptOrUnlocked(s, t, pid)
    requires Named(t.procs[pid]) == None && pid in t.open && t.open[pid] == {}
    ensures Tidy(t)
  {
    MovingKeepsTidy(s, t, pid);
  }

  lemma ClosingMoves(s: System, pid: nat, q: Process, ofd: nat)
    requires Runs(s, pid) && s.open[pid] <= {ofd}
    ensures var t := CloseFd(With(s, pid, q), pid, ofd);
            Moves(s, t, pid) && t.procs[pid] == q && pid in t.open && t.open[pid] == {}
    ensures var t := CloseFd(Unlock(With(s, pid, q), ofd), pid, ofd);
            Moves(s, t, pid) && t.procs[pid] == q && pid in t.open && t.open[pid] == {} && ofd !in t.locks
  {}

  lemma NothingOpen(s: System, pid: nat)
    requires Tidy(s) && Runs(s, pid) && Named(s.procs[pid]) == None
    ensures s.open[pid] == {}
  {
    assert Neat(s.locks, s.procs[pid], s.open[pid]);
  }

  lemma OneOpen(s: System, pid: nat)
    requires Tidy(s) && Runs(s, pid) && Named(s.procs[pid]).Some?
    ensures s.open[pid] == {Named(s.procs[pid]).value.ofd}
  {
    assert Neat(s.locks, s.procs[pid], s.open[pid]);
  }

  lemma ForgettingKeepsTidy(s: System, pid: nat)
    requires Inv(s) && Tidy(s) && Idle(s, pid) && s.procs[pid].registryPid != pid
    ensures Tidy(ResetAfterFork(s, pid)) && Named(ResetAfterFork(s, pid).procs[pid]) == None
  {
    var p, q, t := s.procs[pid], Forgotten(s, pid).procs[pid], ResetAfterFork(s, pid);
    ResetShape(s, pid);
    assert ProcessInv(s, pid);
    ClaimIsNamed(pid, p, s.next);
    if Named(p).Some? {
      OneOpen(s, pid);
      ClosingMoves(s, pid, q, Named(p).value.ofd);
    } else {
      NothingOpen(s, pid);
    }
    EmptyHandedKeepsTidy(s, t, pid);
  }

  lemma ResetKeepsTidy(s: System, pid: nat)
    requires Inv(s) && Tidy(s) && Idle(s, pid)
    ensures Tidy(ResetAfterFork(s, pid))
  {
    if s.procs[pid].registryPid != pid { ForgettingKeepsTidy(s, pid); }
  }

  /** A lock that is given back goes with descriptor and claim. */
  lemma GivingBackKeepsTidy(s: System, pid: nat, ofd: nat, q: Process)
    requires Inv(s) && Tidy(s) && Runs(s, pid) && Named(s.procs[pid]).Some? && Named(s.procs[pid]).value.ofd == ofd
    requires s.procs[pid].registryPid == pid && Named(q) == None
    ensures Tidy(CloseFd(Unlock(With(s, pid, q), ofd), pid, ofd))
  {
    var t := CloseFd(Unlock(With(s, pid, q), ofd), pid, ofd);
    assert ProcessInv(s, pid);
    ClaimIsNamed(pid, s.procs[pid], s.next);
    OneOpen(s, pid);
    ClosingMoves(s, pid, q, ofd);
    EmptyHandedKeepsTidy(s, t, pid);
  }

  lemma GrantingMoves(s: System, pid: nat, mode: Mode)
    requires Runs(s, pid) && s.open[pid] == {}
    ensures var t := Granting(s, pid, mode); Moves(s, t, pid) && pid in t.open && t.open[pid] == {s.next}
  {}

  lemma GrantingKeepsTidy(s: System, pid: nat, mode: Mode)
    requires Inv(s) && Tidy(s) && Idle(s, pid) && s.procs[pid].registryPid == pid && s.procs[pid].registry == None
    ensures Tidy(Granting(s, pid, mode))
  {
    var t := Granting(s, pid, mode);
    NothingOpen(s, pid);
    GrantingMoves(s, pid, mode);
    assert Claim(pid, s.procs[pid]) == None && t.procs[pid].registryPid == pid;
    assert Neat(t.locks, t.procs[pid], t.open[pid]);
    MovingKeepsTidy(s, t, pid);
  }

  lemma ArrivalKeepsTidy(s: System, q: Process, fds: set<nat>)
    requires Inv(s) && Tidy(s) && Neat(s.locks, q, fds)
    requires var t := Arrived(s, q, fds); OwnerHolds(t, s.next)
    ensures Tidy(Arrived(s, q, fds))
  {
    var t := Arrived(s, q, fds);
    forall r | r in s.procs ensures r < s.next { PidsAreOld(s, r); }
    forall r | r in t.procs && r in t.open ensures Neat(t.locks, t.procs[r], t.open[r]) {
      if r != s.next { assert Neat(s.locks, s.procs[r], s.open[r]); }
    }
    forall r | r in t.procs ensures OwnerHolds(t, r) {
      if r != s.next && Inherits(t, r) {
        assert OwnerHolds(s, r);
        assert ProcessInv(s, r);
      }
    }
  }

  lemma ForkKeepsTidy(s: System, pid: nat)
    requires Inv(s) && Tidy(s) && Idle(s, pid)
    ensures Tidy(Arrived(s, s.procs[pid], s.open[pid]))
  {
    var p, t := s.procs[pid], Arrived(s, s.procs[pid], s.open[pid]);
    PidsAreOld(s, pid);
    assert ProcessInv(s, pid);
    assert Neat(s.locks, p, s.open[pid]) && OwnerHolds(s, pid);
    ClaimIsNamed(pid, p, s.next);
    ArrivalKeepsTidy(s, p, s.open[pid]);
  }

  lemma DeathKeepsTidy(s: System, pid: nat)
    requires Inv(s) && Tidy(s) && Runs(s, pid)
    ensures Tidy(Died(s, pid))
  {
    var t := Died(s, pid);
    forall r | r in t.procs && r in t.open ensures Neat(t.locks, t.procs[r], t.open[r]) {
      assert Neat(s.locks, s.procs[r], s.open[r]);
    }
    forall r | r in t.procs ensures OwnerHolds(t, r) { assert OwnerHolds(s, r); }
  }

  /** A process that keeps what it names and owns it. */
  lemma OwnNamesKeepTidy(s: System, pid: nat, q: Process, n: nat)
    requires Inv(s) && Tidy(s) && pid in s.procs && s.procs[pid].registryPid == pid && q.registryPid == pid
    requires Named(q) == Named(s.procs[pid]) && Claim(pid, q) == Claim(pid, s.procs[pid])
    ensures Tidy(Later(s, n, pid, q))
  {
    var t := Later(s, n, pid, q);
    assert Neat(s.locks, s.procs[pid], s.open[pid]);
    MovingKeepsTidy(s, t, pid);
  }

  lemma NestingKeepsTidy(s: System, pid: nat, h: nat, q: Process)
    requires Inv(s) && Tidy(s) && Idle(s, pid) && s.procs[pid].registryPid == pid && s.procs[pid].registry == Some(h)
    requires h in s.procs[pid].helds && q == Nested(s.procs[pid], s.next, h)
    ensures Tidy(Later(s, s.next + 1, pid, q))
  {
    NestingNames(pid, s.procs[pid], s.next, h);
    OwnNamesKeepTidy(s, pid, q, s.next + 1);
  }

  lemma NestingNames(pid: nat, p: Process, id: nat, h: nat)
    requires p.registry == Some(h) && h in p.helds
    ensures Claim(pid, Nested(p, id, h)) == Claim(pid, p) && Named(Nested(p, id, h)) == Named(p)
    ensures Nested(p, id, h).registryPid == p.registryPid
  {}

  lemma AcquireKeepsTidy(s: System, pid: nat, mode: Mode)
    requires Inv(s) && Tidy(s) && Idle(s, pid) && s.procs[pid].registryPid == pid
    ensures Tidy(AcquireIn(s, pid, mode).system)
  {
    RegistryIsKnown(s, pid);
    AcquireShape(s, pid, mode);
    if s.procs[pid].registry.Some? {
      var h := s.procs[pid].registry.value;
      NestingKeepsTidy(s, pid, h, Nested(s.procs[pid], s.next, h));
    } else {
      GrantingKeepsTidy(s, pid, mode);
    }
  }

  lemma AbandoningKeepsTidy(s: System, pid: nat, l: Locked, t: System)
    requires Inv(s) && Tidy(s) && Runs(s, pid) && s.procs[pid].acquiring == Some(l)
    requires t == CloseFd(Unlock(With(s, pid, s.procs[pid].(acquiring := None)), l.ofd), pid, l.ofd)
    ensures Tidy(t)
  {
    AcquirersAreLocal(s, pid, l);
    assert s.procs[pid].registry == None;
    GivingBackKeepsTidy(s, pid, l.ofd, s.procs[pid].(acquiring := None));
  }

  lemma RegisteringNames(pid: nat, p: Process, l: Locked, next: nat)
    requires p.registryPid == pid && p.acquiring == Some(l)
    ensures var q := Registered(p, pid, l, next);
            Named(q) == Named(p) && Claim(pid, q) == Claim(pid, p) && q.registryPid == pid
  {}

  lemma RegisteringKeepsTidy(s: System, pid: nat, l: Locked, q: Process, n: nat)
    requires Inv(s) && Tidy(s) && Runs(s, pid) && s.procs[pid].acquiring == Some(l)
    requires q == Registered(s.procs[pid], pid, l, s.next)
    ensures Tidy(Later(s, n, pid, q))
  {
    AcquirersAreLocal(s, pid, l);
    RegisteringNames(pid, s.procs[pid], l, s.next);
    OwnNamesKeepTidy(s, pid, q, n);
  }

  lemma FinishKeepsTidy(s: System, pid: nat, t: System)
    requires Inv(s) && Tidy(s) && Runs(s, pid) && s.procs[pid].acquiring.Some? && t == FinishIn(s, pid).system
    ensures Tidy(t)
  {
    var l := s.procs[pid].acquiring.value;
    if l.mode == Shared && s.active {
      FinishingAbandons(s, pid, l, t);
    } else {
      FinishingRegisters(s, pid, l, t);
    }
  }

  lemma FinishingAbandons(s: System, pid: nat, l: Locked, t: System)
    requires Inv(s) && Tidy(s) && Runs(s, pid) && s.procs[pid].acquiring == Some(l) && t == FinishIn(s, pid).system
    requires l.mode == Shared && s.active
    ensures Tidy(t)
  {
    AbandonedShape(s, pid, l);
    AbandoningKeepsTidy(s, pid, l, t);
  }

  lemma FinishingRegisters(s: System, pid: nat, l: Locked, t: System)
    requires Inv(s) && Tidy(s) && Runs(s, pid) && s.procs[pid].acquiring == Some(l) && t == FinishIn(s, pid).system
    requires l.mode == Shared ==> !s.active
    ensures Tidy(t)
  {
    RegisteredShape(s, pid, l, t);
    RegisteredTidy(s, pid, l, Registered(s.procs[pid], pid, l, s.next), s.next + 2, t);
  }

  lemma RegisteredTidy(s: System, pid: nat, l: Locked, q: Process, n: nat, t: System)
    requires Inv(s) && Tidy(s) && Runs(s, pid) && s.procs[pid].acquiring == Some(l)
    requires q == Registered(s.procs[pid], pid, l, s.next) && t == Later(s, n, pid, q)
    ensures Tidy(t)
  {
    RegisteringKeepsTidy(s, pid, l, q, n);
  }

  lemma DroppingNames(pid: nat, p: Process, lease: nat)
    requires lease in p.leases && p.leases[lease].held in p.helds && p.registry == Some(p.leases[lease].held)
    ensures Named(Dropped(p, lease)) == Named(p) && Claim(pid, Dropped(p, lease)) == Claim(pid, p)
    ensures p.acquiring == None ==> Named(Dropped(p, lease).(registry := None)) == None
  {}

  lemma ReleaseKeepsTidy(s: System, pid: nat, lease: nat)
    requires Inv(s) && Tidy(s) && Releasable(s, pid, lease)
    ensures Tidy(Release(s, pid, lease).system)
  {
    var p := s.procs[pid];
    ReferencesArePositive(s, pid, lease);
    ReleaseShape(s, pid, lease);
    DroppingNames(pid, p, lease);
    var held := p.helds[p.leases[lease].held];
    if held.references == 1 {
      GivingBackKeepsTidy(s, pid, held.ofd, Dropped(p, lease).(registry := None));
    } else {
      OwnNamesKeepTidy(s, pid, Dropped(p, lease), s.next);
      assert Later(s, s.next, pid, Dropped(p, lease)) == With(s, pid, Dropped(p, lease));
    }
  }

  /** Flags of a lease object change. */
  lemma MarkingKeepsTidy(s: System, pid: nat, lease: nat, l: LeaseObject)
    requires Inv(s) && Tidy(s) && Idle(s, pid) && s.procs[pid].registryPid == pid
    ensures Tidy(With(s, pid, s.procs[pid].(leases := s.procs[pid].leases[lease := l])))
  {
    var q := s.procs[pid].(leases := s.procs[pid].leases[lease := l]);
    OwnNamesKeepTidy(s, pid, q, s.next);
    assert Later(s, s.next, pid, q) == With(s, pid, q);
  }

  lemma CloseKeepsTidy(s: System, pid: nat, lease: nat)
    requires Inv(s) && Tidy(s) && Idle(s, pid) && s.procs[pid].registryPid == pid
    ensures Tidy(CloseIn(s, pid, lease).system)
  {
    var p := s.procs[pid];
    RegistryIsKnown(s, pid);
    if lease in p.leases && !p.leases[lease].released {
      var l := p.leases[lease];
      if p.registry == Some(l.held) { ReleaseKeepsTidy(s, pid, lease); }
      MarkingKeepsTidy(s, pid, lease, l.(released := true));
    }
  }

  lemma EnterKeepsTidy(s: System, pid: nat, lease: nat)
    requires Inv(s) && Tidy(s) && Idle(s, pid) && s.procs[pid].registryPid == pid
    ensures Tidy(EnterIn(s, pid, lease).system)
  {
    var p := s.procs[pid];
    if lease in p.leases {
      MarkingKeepsTidy(s, pid, lease, p.leases[lease].(entered := true));
      CloseKeepsTidy(s, pid, lease);
    }
  }

  lemma BorrowKeepsTidy(s: System, pid: nat, lease: nat, x: bool)
    requires Inv(s) && Tidy(s) && Idle(s, pid) && s.procs[pid].registryPid == pid
    ensures Tidy(BorrowIn(s, pid, lease, x).system)
  {
    BorrowShape(s, pid, lease, x);
    if BorrowIn(s, pid, lease, x).system != s {
      MarkingKeepsTidy(s, pid, lease, s.procs[pid].leases[lease].(borrows := s.procs[pid].leases[lease].borrows + 1));
    }
  }

  lemma GiveBackKeepsTidy(s: System, pid: nat, lease: nat)
    requires Inv(s) && Tidy(s) && Idle(s, pid) && s.procs[pid].registryPid == pid
    ensures Tidy(GiveBackIn(s, pid, lease).system)
  {
    var p := s.procs[pid];
    if lease in p.leases && p.leases[lease].borrows > 0 {
      MarkingKeepsTidy(s, pid, lease, p.leases[lease].(borrows := p.leases[lease].borrows - 1));
    }
  }

  lemma SpawnKeepsTidy(s: System)
    requires Inv(s) && Tidy(s)
    ensures Tidy(Arrived(s, Process(s.next, None, map[], map[], None), {}))
  {
    ArrivalKeepsTidy(s, Process(s.next, None, map[], map[], None), {});
  }

  lemma MarkerKeepsTidy(s: System, present: bool)
    requires Tidy(s)
    ensures Tidy(s.(active := present))
  {
    var t := s.(active := present);
    forall r | r in t.procs && r in t.open ensures Neat(t.locks, t.procs[r], t.open[r]) {
      assert Neat(s.locks, s.procs[r], s.open[r]);
    }
    forall r | r in t.procs ensures OwnerHolds(t, r) { assert OwnerHolds(s, r); }
  }

  /** The calls that first drop what was inherited. */
  lemma CallKeepsTidy(s: System, pid: nat, a: Action)
    requires Inv(s) && Tidy(s) && Idle(s, pid)
    requires a.Acquire? || a.Enter? || a.Borrow? || a.GiveBack? || a.Close?
    requires a.pid == pid
    ensures Tidy(Perform(s, a).system)
  {
    var t := ResetAfterFork(s, pid);
    ResetKeeps(s, pid);
    ResetFacts(s, pid);
    ResetKeepsTidy(s, pid);
    match a
    case Acquire(_, mode) => AcquireKeepsTidy(t, pid, mode);
    case Enter(_, lease) => EnterKeepsTidy(t, pid, lease);
    case Borrow(_, lease, x) => BorrowKeepsTidy(t, pid, lease, x);
    case GiveBack(_, lease) => GiveBackKeepsTidy(t, pid, lease);
    case Close(_, lease) => CloseKeepsTidy(t, pid, lease);
  }

  lemma PerformKeepsTidy(s: System, a: Action)
    requires Inv(s) && Tidy(s)
    ensures Tidy(Perform(s, a).system)
  {
    match a
    case Spawn => SpawnKeepsTidy(s);
    case Fork(pid) => if Idle(s, pid) { ForkKeepsTidy(s, pid); }
    case Reset(pid) => if Idle(s, pid) { ResetKeepsTidy(s, pid); }
    case Finish(pid) =>
      if Runs(s, pid) && s.procs[pid].acquiring.Some? { FinishKeepsTidy(s, pid, FinishIn(s, pid).system); }
    case Die(pid) => if Runs(s, pid) { DeathKeepsTidy(s, pid); }
    case SetMarker(_, present) => MarkerKeepsTidy(s, present);
    case _ => if Idle(s, a.pid) { CallKeepsTidy(s, a.pid, a); }
  }

  lemma {:induction false} RunKeepsTidy(active: bool, actions: seq<Action>)
    ensures Tidy(Run(Boot(active), actions))
  {
    if actions != [] {
      var before := actions[..|actions| - 1];
      RunKeeps(active, before);
      RunKeepsTidy(active, before);
      PerformKeepsTidy(Run(Boot(active), before), actions[|actions| - 1]);
    }
  }

  // ---------------------------------------------------------------------- theorems

  /** A process that holds a lease of this mode, or is acquiring one. */
  predicate Has(s: System, r: nat, mode: Mode) {
    r in s.procs && Claim(r, s.procs[r]).Some? && Claim(r, s.procs[r]).value.mode == mode
  }

  /** A forked process that has not called the lease since, and so still has the
      descriptor of a lease of this mode whose owner died holding it. */
  predicate Keeps(s: System, r: nat, mode: Mode) {
    Inherits(s, r) && OwnerOf(s, r) !in s.procs && Named(s.procs[r]).value.mode == mode
  }

  /** This process stands in the way of another's lease of the mode. */
  predicate Blocks(s: System, r: nat, mode: Mode) {
    Has(s, r, Exclusive) || Keeps(s, r, Exclusive) || (mode == Exclusive && (Has(s, r, Shared) || Keeps(s, r, Shared)))
  }

  predicate Unopposed(s: System, pid: nat, mode: Mode) {
    forall r :: r in s.procs && r != pid ==> !Blocks(s, r, mode)
  }

  /** Every lock belongs to a process that stands in the way of some lease. */
  lemma LocksAreBlocks(s: System, pid: nat, o: nat) returns (r: nat)
    requires Inv(s) && Tidy(s) && Idle(s, pid) && Named(s.procs[pid]) == None && o in s.locks
    ensures r in s.procs && r != pid && (Has(s, r, s.locks[o]) || Keeps(s, r, s.locks[o]))
  {
    var q :| q in s.open && o in s.open[q];
    assert Neat(s.locks, s.procs[q], s.open[q]);
    assert ProcessInv(s, q);
    ClaimIsNamed(q, s.procs[q], s.next);
    r := q;
    if s.procs[q].registryPid != q {
      assert OwnerHolds(s, q);
      if OwnerOf(s, q) in s.procs { r := OwnerOf(s, q); }
    }
  }

  lemma BlocksAreLocks(s: System, r: nat, mode: Mode) returns (o: nat)
    requires Inv(s) && Tidy(s) && (Has(s, r, mode) || Keeps(s, r, mode))
    ensures o in s.locks && s.locks[o] == mode && r in s.open && o in s.open[r]
  {
    assert ProcessInv(s, r);
    assert Neat(s.locks, s.procs[r], s.open[r]);
    o := if Has(s, r, mode) then Claim(r, s.procs[r]).value.ofd else Named(s.procs[r]).value.ofd;
  }

  /** With nothing of its own, a process meets a conflicting lock exactly when another
      process stands in its way. */
  lemma ConflictsAreOpposition(s: System, pid: nat, mode: Mode)
    requires Inv(s) && Tidy(s) && Idle(s, pid) && Named(s.procs[pid]) == None
    ensures Conflicts(s.locks, mode) <==> !Unopposed(s, pid, mode)
  {
    if Conflicts(s.locks, mode) {
      var o :| o in s.locks && (mode == Exclusive || s.locks[o] == Exclusive);
      var r := LocksAreBlocks(s, pid, o);
      assert Blocks(s, r, mode);
    }
    if r :| r in s.procs && r != pid && Blocks(s, r, mode) {
      if Has(s, r, Exclusive) || Keeps(s, r, Exclusive) {
        var o := BlocksAreLocks(s, r, Exclusive);
      } else {
        var o := BlocksAreLocks(s, r, Shared);
      }
    }
  }

  /** What a process drops of its own inheritance takes nothing out of its way that
      another process has. */
  lemma ResetKeepsOpposition(s: System, pid: nat, mode: Mode)
    requires Inv(s) && Tidy(s) && Idle(s, pid)
    ensures Unopposed(ResetAfterFork(s, pid), pid, mode) <==> Unopposed(s, pid, mode)
  {
    var t := ResetAfterFork(s, pid);
    ResetShape(s, pid);
    ResetSparesPids(s, pid);
    forall r | r in s.procs && r != pid ensures Blocks(t, r, mode) <==> Blocks(s, r, mode) {
      ResetSparesBlocks(s, pid, r, Shared);
      ResetSparesBlocks(s, pid, r, Exclusive);
    }
  }

  lemma ResetSparesPids(s: System, pid: nat)
    requires Runs(s, pid)
    ensures ResetAfterFork(s, pid).procs.Keys == s.procs.Keys
  {}

  lemma ResetSparesBlocks(s: System, pid: nat, r: nat, mode: Mode)
    requires Inv(s) && Tidy(s) && Idle(s, pid) && r in s.procs && r != pid
    ensures var t := ResetAfterFork(s, pid);
            (Has(t, r, mode) <==> Has(s, r, mode)) && (Keeps(t, r, mode) <==> Keeps(s, r, mode))
  {
    ResetSparesPids(s, pid);
    ResetSparesMemory(s, pid, r);
    if Named(s.procs[r]).Some? { ResetSparesLock(s, pid, r); }
  }

  lemma ResetSparesLock(s: System, pid: nat, r: nat)
    requires Inv(s) && Tidy(s) && Idle(s, pid) && r in s.procs && r != pid && Named(s.procs[r]).Some?
    ensures Named(s.procs[r]).value.ofd in ResetAfterFork(s, pid).locks <==> Named(s.procs[r]).value.ofd in s.locks
  {
    var o := Named(s.procs[r]).value.ofd;
    ResetShape(s, pid);
    NamedIsOld(s, r);
    var p := s.procs[pid];
    if p.registryPid != pid && p.registry.Some? && p.registry.value in p.helds {
      StillOpen(s.open, pid, p.helds[p.registry.value].ofd, r, o);
    }
  }

  /** What an idle process names after it dropped what it inherited. */
  lemma ResetNamesOwn(s: System, pid: nat)
    requires Inv(s) && Tidy(s) && Idle(s, pid)
    ensures var t := ResetAfterFork(s, pid);
            Inv(t) && Tidy(t) && Idle(t, pid) && t.procs[pid].registryPid == pid && t.active == s.active
    ensures Owns(pid, s.procs[pid]) ==> ResetAfterFork(s, pid) == s
    ensures !Owns(pid, s.procs[pid]) ==>
      Named(ResetAfterFork(s, pid).procs[pid]) == None && ResetAfterFork(s, pid).procs[pid].registry == None
  {
    ResetKeeps(s, pid);
    ResetFacts(s, pid);
    ResetKeepsTidy(s, pid);
    if s.procs[pid].registryPid == pid { RegistryIsKnown(s, pid); }
  }

  /** The marker is looked at with the lock in hand. */
  lemma FinishOutcome(s: System, pid: nat)
    requires Runs(s, pid) && s.procs[pid].acquiring.Some?
    ensures var o := Perform(s, Finish(pid)).outcome;
            if s.procs[pid].acquiring.value.mode == Shared && s.active then o == Refused(QuarantineActive)
            else o == Granted(s.next + 1)
  {}

  lemma GrantingShape(t: System, pid: nat, mode: Mode)
    requires Runs(t, pid)
    ensures var g := Granting(t, pid, mode);
            Runs(g, pid) && g.active == t.active && g.procs[pid].acquiring == Some(Locked(t.next, mode))
  {}

  /** What the two halves of an acquisition answer a process that names nothing. */
  lemma AcquireAnswers(t: System, pid: nat, mode: Mode)
    requires Inv(t) && Tidy(t) && Idle(t, pid) && Named(t.procs[pid]) == None && t.procs[pid].registry == None
    ensures Grants(t, pid, mode, AcquireIn(t, pid, mode))
  {
    ConflictsAreOpposition(t, pid, mode);
    FreshAcquire(t, pid, mode);
    GrantingShape(t, pid, mode);
    if !Conflicts(t.locks, mode) { FinishOutcome(Granting(t, pid, mode), pid); }
  }

  /** A granted lease, or the refusal of a shared one for the marker. */
  predicate Answers(o: Outcome, mode: Mode, active: bool) {
    if mode == Shared && active then o == Refused(QuarantineActive) else o.Granted?
  }

  /** Finishing answers so; the quantifier keeps the call folded. */
  ghost predicate FinishAnswers(s: System, pid: nat, mode: Mode, active: bool) {
    forall a {:trigger Perform(s, a)} :: a == Finish(pid) ==> Answers(Perform(s, a).outcome, mode, active)
  }

  /** An acquisition that gets the kernel lock exactly if it is unopposed, and then looks
      at the marker. */
  ghost predicate Grants(s: System, pid: nat, mode: Mode, r: Result) {
    && r.outcome == (if Unopposed(s, pid, mode) then Pending else Refused(LeaseHeld))
    && (r.outcome == Pending ==> FinishAnswers(r.system, pid, mode, s.active))
  }

  lemma PerformedAcquire(s: System, pid: nat, mode: Mode)
    requires Idle(s, pid)
    ensures Perform(s, Acquire(pid, mode)) == AcquireIn(ResetAfterFork(s, pid), pid, mode)
  {}

  lemma FreshAcquire(t: System, pid: nat, mode: Mode)
    requires Idle(t, pid) && t.procs[pid].registry == None
    ensures AcquireIn(t, pid, mode).outcome == if Conflicts(t.locks, mode) then Refused(LeaseHeld) else Pending
    ensures !Conflicts(t.locks, mode) ==> AcquireIn(t, pid, mode).system == Granting(t, pid, mode)
  {}

  lemma AcquireIsGranted(s: System, pid: nat, mode: Mode)
    requires Inv(s) && Tidy(s) && Idle(s, pid) && !Owns(pid, s.procs[pid])
    ensures Grants(s, pid, mode, Perform(s, Acquire(pid, mode)))
  {
    PerformedAcquire(s, pid, mode);
    ResetNamesOwn(s, pid);
    ResetKeepsOpposition(s, pid, mode);
    AcquireAnswers(ResetAfterFork(s, pid), pid, mode);
  }

  /** In every reachable system a process without a lease of its own gets the kernel lock
      exactly when no other process stands in its way: for a shared lease one that has an
      exclusive lease, for an exclusive one any that has a lease at all. Otherwise it is
      told that the lease is held. Having the lock, it is refused exactly for a shared
      lease while the marker is there. */
  lemma LeasesAreGranted(active: bool, actions: seq<Action>, pid: nat, mode: Mode)
    requires var s := Run(Boot(active), actions); Idle(s, pid) && !Owns(pid, s.procs[pid])
    ensures Grants(Run(Boot(active), actions), pid, mode, Perform(Run(Boot(active), actions), Acquire(pid, mode)))
  {
    RunKeeps(active, actions);
    RunKeepsTidy(active, actions);
    AcquireIsGranted(Run(Boot(active), actions), pid, mode);
  }

  lemma NestingIsGranted(s: System, pid: nat, mode: Mode)
    requires Inv(s) && Tidy(s) && Idle(s, pid) && Owns(pid, s.procs[pid])
    ensures var o := Perform(s, Acquire(pid, mode)).outcome;
            if mode == Exclusive || HeldBy(pid, s.procs[pid]).mode == Exclusive then o == Refused(LeaseHeld)
            else if s.active then o == Refused(QuarantineActive)
            else o.Granted?
  {
    ResetNamesOwn(s, pid);
  }

  /** A process that has a lease can nest a shared one in it, unless the marker is there,
      and nothing else. */
  lemma NestedLeasesAreGranted(active: bool, actions: seq<Action>, pid: nat, mode: Mode)
    requires var s := Run(Boot(active), actions); Idle(s, pid) && Owns(pid, s.procs[pid])
    ensures var s := Run(Boot(active), actions);
            var o := Perform(s, Acquire(pid, mode)).outcome;
            if mode == Exclusive || HeldBy(pid, s.procs[pid]).mode == Exclusive then o == Refused(LeaseHeld)
            else if s.active then o == Refused(QuarantineActive)
            else o.Granted?
  {
    RunKeeps(active, actions);
    RunKeepsTidy(active, actions);
    NestingIsGranted(Run(Boot(active), actions), pid, mode);
  }

  lemma RegisteredIsLive(pid: nat, p: Process, l: Locked, next: nat)
    requires p.registryPid == pid && p.acquiring == Some(l)
    ensures var q := Registered(p, pid, l, next);
            && q.registryPid == pid && next + 1 in q.leases && OwnLive(pid, q, next + 1)
            && q.helds[q.leases[next + 1].held].mode == l.mode
  {}

  lemma FinishIsLive(s: System, pid: nat, l: Locked, t: System)
    requires Runs(s, pid) && s.procs[pid].registryPid == pid && s.procs[pid].acquiring == Some(l)
    requires !(l.mode == Shared && s.active) && t == FinishIn(s, pid).system
    ensures Live(t, pid, s.next + 1) && ModeOf(t, pid, s.next + 1) == l.mode
  {
    RegisteredShape(s, pid, l, t);
    RegisteredIsLive(pid, s.procs[pid], l, s.next);
  }

  /** The outcome is a lease of the mode that was asked for, live in the new system. */
  predicate IsLive(r: Result, pid: nat, mode: Mode) {
    r.outcome.Granted? && Live(r.system, pid, r.outcome.lease) && ModeOf(r.system, pid, r.outcome.lease) == mode
  }

  lemma FinishGrantsLive(s: System, pid: nat, l: Locked)
    requires Inv(s) && Runs(s, pid) && s.procs[pid].acquiring == Some(l) && !(l.mode == Shared && s.active)
    ensures IsLive(FinishIn(s, pid), pid, l.mode)
  {
    AcquirersAreLocal(s, pid, l);
    FinishIsLive(s, pid, l, FinishIn(s, pid).system);
  }

  /** In every reachable system an acquisition that has the lock ends in a live lease of
      its mode, unless it is a shared one and the marker is there. */
  lemma GrantedLeasesAreLive(active: bool, actions: seq<Action>, pid: nat)
    requires var s := Run(Boot(active), actions); Runs(s, pid) && s.procs[pid].acquiring.Some?
    ensures var s := Run(Boot(active), actions);
            var f, mode := Perform(s, Finish(pid)), s.procs[pid].acquiring.value.mode;
            if mode == Shared && s.active then f.outcome == Refused(QuarantineActive) else IsLive(f, pid, mode)
  {
    var s := Run(Boot(active), actions);
    RunKeeps(active, actions);
    FinishOutcome(s, pid);
    var l := s.procs[pid].acquiring.value;
    if !(l.mode == Shared && s.active) { FinishGrantsLive(s, pid, l); }
  }

  // ------------------------------------------------------------- using a lease

  lemma LiveLends(s: System, pid: nat, lease: nat, requireExclusive: bool)
    requires Inv(s) && Live(s, pid, lease) && Idle(s, pid)
    ensures BorrowIn(s, pid, lease, requireExclusive).outcome ==
            if requireExclusive && ModeOf(s, pid, lease) == Shared then Refused(ModeRequired) else Done
  {
    LiveIsRegistered(s, pid, lease);
    assert ProcessInv(s, pid);
  }

  /** A live lease lends its descriptor, unless an exclusive one is asked for and it is
      shared; with a descriptor lent it cannot be closed. */
  lemma LiveLeasesLend(active: bool, actions: seq<Action>, pid: nat, lease: nat, requireExclusive: bool)
    requires var s := Run(Boot(active), actions); Live(s, pid, lease) && Idle(s, pid)
    ensures var s := Run(Boot(active), actions);
            && Perform(s, Borrow(pid, lease, requireExclusive)).outcome ==
               (if requireExclusive && ModeOf(s, pid, lease) == Shared then Refused(ModeRequired) else Done)
            && (s.procs[pid].leases[lease].borrows > 0 ==>
                  Perform(s, Close(pid, lease)) == Result(s, Refused(DescriptorBorrowed)))
  {
    var s := Run(Boot(active), actions);
    RunKeeps(active, actions);
    LiveLends(s, pid, lease, requireExclusive);
  }

  /** A released lease can be closed again to no effect but cannot be entered or lent; one
      that another process acquired can be neither entered, lent nor released. */
  lemma SpentLeasesAreRefused(s: System, pid: nat, lease: nat)
    requires Idle(s, pid) && lease in s.procs[pid].leases && s.procs[pid].leases[lease].held in s.procs[pid].helds
    ensures var l := s.procs[pid].leases[lease];
            var reason := if l.released then LeaseReleased else ProcessChanged;
            l.released || s.procs[pid].helds[l.held].owner != pid ==>
              && Perform(s, Enter(pid, lease)).outcome == Refused(reason)
              && Perform(s, Borrow(pid, lease, false)).outcome == Refused(reason)
              && Perform(s, Close(pid, lease)).outcome == (if l.released then Done else Refused(ProcessChanged))
  {
    ResetSparesLeases(s, pid);
  }

  lemma ResetSparesLeases(s: System, pid: nat)
    requires Idle(s, pid)
    ensures var p, q := s.procs[pid], ResetAfterFork(s, pid).procs[pid]; q.leases == p.leases && q.helds == p.helds
  {}
}
