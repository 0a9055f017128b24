/** The maintenance lease: processes that share one lock file, the kernel's locks on
    open file descriptions, forks that copy descriptors and memory, and the ACTIVE
    marker that fences shared work off. One state directory; its paths keep their
    identity. */
module Lease {
  import opened Usage

  datatype Mode = Shared | Exclusive

  /** What a process records about the kernel lock it holds. */
  datatype Held = Held(owner: nat, ofd: nat, mode: Mode, references: nat)

  datatype LeaseObject = LeaseObject(held: nat, released: bool, entered: bool, borrows: nat)

  /** The kernel lock an acquisition has taken before it looks at the marker. */
  datatype Locked = Locked(ofd: nat, mode: Mode)

  /** A process's memory. registryPid names the process that filled the registry; a
      forked child starts with its parent's. While acquiring is set the process
      holds its registry lock: none of its other calls run and it cannot fork. */
  datatype Process = Process(
    registryPid: nat, registry: Option<nat>, helds: map<nat, Held>, leases: map<nat, LeaseObject>,
    acquiring: Option<Locked>)

  /** Processes, their open file descriptions, the kernel's locks, and the marker.
      Identifiers come from one counter and are never used again. */
  datatype System = System(
    procs: map<nat, Process>, open: map<nat, set<nat>>, locks: map<nat, Mode>, active: bool, next: nat)

  datatype Reason =
    | LeaseHeld | QuarantineActive | LeaseReleased | ProcessChanged | StateChanged
    | AlreadyEntered | DescriptorBorrowed | ModeRequired

  datatype Outcome = Done | Granted(lease: nat) | Pending | Refused(reason: Reason) | Impossible

  datatype Result = Result(system: System, outcome: Outcome)

  // ------------------------------------------------------------------- kernel

  predicate OpenSomewhere(open: map<nat, set<nat>>, ofd: nat) {
    exists pid :: pid in open && ofd in open[pid]
  }

  predicate Conflicts(locks: map<nat, Mode>, mode: Mode) {
    if mode == Exclusive then locks != map[] else exists o :: o in locks && locks[o] == Exclusive
  }

  /** Closing a descriptor: the description and its lock go with the last copy. */
  function CloseFd(s: System, pid: nat, ofd: nat): System
    requires pid in s.open
  {
    var open := s.open[pid := s.open[pid] - {ofd}];
    s.(open := open, locks := if OpenSomewhere(open, ofd) then s.locks else s.locks - {ofd})
  }

  /** Unlocking releases the description's lock whoever else has it open. */
  function Unlock(s: System, ofd: nat): System {
    s.(locks := s.locks - {ofd})
  }

  // -------------------------------------------------------------------- calls

  predicate Runs(s: System, pid: nat) {
    pid in s.procs && pid in s.open
  }

  function With(s: System, pid: nat, p: Process): System {
    s.(procs := s.procs[pid := p])
  }

  /** A child that still has its parent's registry drops it, closing its own copies
      of the descriptors and unlocking nothing. */
  function ResetAfterFork(s: System, pid: nat): System
    requires Runs(s, pid)
  {
    var p := s.procs[pid];
    if p.registryPid == pid then s
    else
      var forgotten := With(s, pid, p.(registryPid := pid, registry := None));
      if p.registry.Some? && p.registry.value in p.helds then CloseFd(forgotten, pid, p.helds[p.registry.value].ofd)
      else forgotten
  }

  function NewLease(p: Process, id: nat, held: nat): Process {
    p.(leases := p.leases[id := LeaseObject(held, false, false, 0)])
  }

  /** The first half of an acquisition: a nested reference, or the kernel lock. */
  function AcquireIn(s: System, pid: nat, mode: Mode): Result
    requires Runs(s, pid)
  {
    var p := s.procs[pid];
    if p.registry.Some? && p.registry.value in p.helds then
      var h := p.registry.value;
      if p.helds[h].mode == Shared && mode == Shared then
        if s.active then Result(s, Refused(QuarantineActive))
        else
          var held := p.helds[h];
          var q := NewLease(p, s.next, h).(helds := p.helds[h := held.(references := held.references + 1)]);
          Result(With(s, pid, q).(next := s.next + 1), Granted(s.next))
      else Result(s, Refused(LeaseHeld))
    else if Conflicts(s.locks, mode) then Result(s, Refused(LeaseHeld))
    else
      Result(
        With(s, pid, p.(acquiring := Some(Locked(s.next, mode)))).(
          open := s.open[pid := s.open[pid] + {s.next}], locks := s.locks[s.next := mode], next := s.next + 1),
        Pending)
  }

  /** The second half: the marker is looked at with the kernel lock in hand. */
  function FinishIn(s: System, pid: nat): Result
    requires Runs(s, pid) && s.procs[pid].acquiring.Some?
  {
    var p := s.procs[pid];
    var l := p.acquiring.value;
    if l.mode == Shared && s.active then
      Result(CloseFd(Unlock(With(s, pid, p.(acquiring := None)), l.ofd), pid, l.ofd), Refused(QuarantineActive))
    else
      var q := NewLease(
        p.(acquiring := None, registry := Some(s.next), helds := p.helds[s.next := Held(pid, l.ofd, l.mode, 1)]),
        s.next + 1, s.next);
      Result(With(s, pid, q).(next := s.next + 2), Granted(s.next + 1))
  }

  /** close() on a lease that this process may release. */
  function Release(s: System, pid: nat, lease: nat): Result
    requires Runs(s, pid) && lease in s.procs[pid].leases && s.procs[pid].leases[lease].held in s.procs[pid].helds
  {
    var p := s.procs[pid];
    var h := p.leases[lease].held;
    var held := p.helds[h];
    var outcome := if held.mode == Shared && s.active then Refused(StateChanged) else Done;
    var left := if held.references > 0 then held.references - 1 else 0;
    var q := p.(leases := p.leases[lease := p.leases[lease].(released := true)],
                helds := p.helds[h := held.(references := left)]);
    if left == 0 then Result(CloseFd(Unlock(With(s, pid, q.(registry := None)), held.ofd), pid, held.ofd), outcome)
    else Result(With(s, pid, q), outcome)
  }

  function CloseIn(s: System, pid: nat, lease: nat): Result
    requires Runs(s, pid)
  {
    var p := s.procs[pid];
    if lease !in p.leases || p.leases[lease].held !in p.helds then Result(s, Impossible)
    else
      var l := p.leases[lease];
      var marked := With(s, pid, p.(leases := p.leases[lease := l.(released := true)]));
      if l.released then Result(s, Done)
      else if p.helds[l.held].owner == pid && l.borrows > 0 then Result(s, Refused(DescriptorBorrowed))
      else if p.helds[l.held].owner != pid then Result(marked, Refused(ProcessChanged))
      else if p.registry != Some(l.held) then Result(marked, Refused(StateChanged))
      else Release(s, pid, lease)
  }

  function EnterIn(s: System, pid: nat, lease: nat): Result
    requires Runs(s, pid)
  {
    var p := s.procs[pid];
    if lease !in p.leases || p.leases[lease].held !in p.helds then Result(s, Impossible)
    else
      var l := p.leases[lease];
      if l.released then Result(s, Refused(LeaseReleased))
      else if p.helds[l.held].owner != pid then Result(s, Refused(ProcessChanged))
      else if p.registry != Some(l.held) then Result(s, Refused(StateChanged))
      else if l.entered then Result(s, Refused(AlreadyEntered))
      else if p.helds[l.held].mode == Shared && s.active then
        Result(CloseIn(s, pid, lease).system, Refused(StateChanged))
      else Result(With(s, pid, p.(leases := p.leases[lease := l.(entered := true)])), Done)
  }

  function BorrowIn(s: System, pid: nat, lease: nat, requireExclusive: bool): Result
    requires Runs(s, pid)
  {
    var p := s.procs[pid];
    if lease !in p.leases || p.leases[lease].held !in p.helds then Result(s, Impossible)
    else
      var l := p.leases[lease];
      if l.released then Result(s, Refused(LeaseReleased))
      else if p.helds[l.held].owner != pid then Result(s, Refused(ProcessChanged))
      else if p.registry != Some(l.held) then Result(s, Refused(StateChanged))
      else if requireExclusive && p.helds[l.held].mode != Exclusive then Result(s, Refused(ModeRequired))
      else if p.helds[l.held].mode == Shared && s.active then Result(s, Refused(StateChanged))
      else Result(With(s, pid, p.(leases := p.leases[lease := l.(borrows := l.borrows + 1)])), Done)
  }

  function GiveBackIn(s: System, pid: nat, lease: nat): Result
    requires Runs(s, pid)
  {
    var p := s.procs[pid];
    if lease !in p.leases || p.leases[lease].borrows == 0 then Result(s, Impossible)
    else
      var l := p.leases[lease];
      Result(With(s, pid, p.(leases := p.leases[lease := l.(borrows := l.borrows - 1)])), Done)
  }

  // ------------------------------------------------------------------- system

  datatype Action =
    | Spawn
    | Fork(pid: nat)
    | Reset(pid: nat)
    | Acquire(pid: nat, mode: Mode)
    | Finish(pid: nat)
    | Enter(pid: nat, lease: nat)
    | Borrow(pid: nat, lease: nat, requireExclusive: bool)
    | GiveBack(pid: nat, lease: nat)
    | Close(pid: nat, lease: nat)
    | Die(pid: nat)
    | SetMarker(pid: nat, present: bool)

  /** The process itself registered the lease it holds. */
  predicate Owns(pid: nat, p: Process) {
    p.registryPid == pid && p.registry.Some? && p.registry.value in p.helds
  }

  function HeldBy(pid: nat, p: Process): Held
    requires Owns(pid, p)
  {
    p.helds[p.registry.value]
  }

  predicate HoldsExclusive(s: System, pid: nat) {
    pid in s.procs && Owns(pid, s.procs[pid]) && HeldBy(pid, s.procs[pid]).mode == Exclusive
  }

  /** A new process, with copies of descriptors and of memory. */
  function Arrived(s: System, q: Process, fds: set<nat>): System {
    s.(procs := s.procs[s.next := q], open := s.open[s.next := fds], next := s.next + 1)
  }

  /** All of a dead process's descriptors close at once. */
  function Died(s: System, pid: nat): System {
    var open := s.open - {pid};
    s.(procs := s.procs - {pid}, open := open,
       locks := map o | o in s.locks && OpenSomewhere(open, o) :: s.locks[o])
  }

  predicate Idle(s: System, pid: nat) {
    Runs(s, pid) && s.procs[pid].acquiring == None
  }

  function Perform(s: System, a: Action): Result {
    match a
    case Spawn => Result(Arrived(s, Process(s.next, None, map[], map[], None), {}), Done)
    case Fork(pid) =>
      if Idle(s, pid) then Result(Arrived(s, s.procs[pid], s.open[pid]), Done) else Result(s, Impossible)
    case Reset(pid) => if Idle(s, pid) then Result(ResetAfterFork(s, pid), Done) else Result(s, Impossible)
    case Acquire(pid, mode) =>
      if Idle(s, pid) then AcquireIn(ResetAfterFork(s, pid), pid, mode) else Result(s, Impossible)
    case Finish(pid) =>
      if Runs(s, pid) && s.procs[pid].acquiring.Some? then FinishIn(s, pid) else Result(s, Impossible)
    case Enter(pid, lease) =>
      if Idle(s, pid) then EnterIn(ResetAfterFork(s, pid), pid, lease) else Result(s, Impossible)
    case Borrow(pid, lease, exclusive) =>
      if Idle(s, pid) then BorrowIn(ResetAfterFork(s, pid), pid, lease, exclusive) else Result(s, Impossible)
    case GiveBack(pid, lease) =>
      if Idle(s, pid) then GiveBackIn(ResetAfterFork(s, pid), pid, lease) else Result(s, Impossible)
    case Close(pid, lease) =>
      if Idle(s, pid) then CloseIn(ResetAfterFork(s, pid), pid, lease) else Result(s, Impossible)
    case Die(pid) => if Runs(s, pid) then Result(Died(s, pid), Done) else Result(s, Impossible)
    case SetMarker(pid, present) =>
      // Only the holder of an exclusive lease writes the marker.
      if HoldsExclusive(s, pid) then Result(s.(active := present), Done) else Result(s, Impossible)
  }

  function Run(s: System, actions: seq<Action>): System {
    if actions == [] then s else Perform(Run(s, actions[..|actions| - 1]), actions[|actions| - 1]).system
  }

  function Boot(active: bool): System {
    System(map[], map[], map[], active, 0)
  }

  // ---------------------------------------------------------------- invariant

  function LiveLeases(p: Process, h: nat): set<nat> {
    set l | l in p.leases && !p.leases[l].released && p.leases[l].held == h
  }

  /** The description a process's own lease, or its own acquisition, is locked on. */
  function Claim(pid: nat, p: Process): Option<Locked> {
    if p.acquiring.Some? then p.acquiring
    else if Owns(pid, p) then Some(Locked(HeldBy(pid, p).ofd, HeldBy(pid, p).mode))
    else None
  }

  /** References are counted exactly, and only shared leases nest. */
  predicate Counted(pid: nat, p: Process, h: nat) {
    && h in p.helds && p.helds[h].owner == pid && p.helds[h].references == |LiveLeases(p, h)|
    && p.helds[h].references >= 1 && (p.helds[h].mode == Exclusive ==> p.helds[h].references == 1)
  }

  predicate OwnRegistry(pid: nat, p: Process) {
    && (p.registry.Some? ==> Counted(pid, p, p.registry.value))
    && (p.acquiring.Some? ==> p.registry == None)
    && (forall l :: l in p.leases && OwnLive(pid, p, l) ==> p.registry == Some(p.leases[l].held))
  }

  /** An unreleased lease this very process acquired. */
  predicate OwnLive(pid: nat, p: Process, l: nat)
    requires l in p.leases
  {
    !p.leases[l].released && p.leases[l].held in p.helds && p.helds[p.leases[l].held].owner == pid
  }

  /** A child that has not reset yet owns nothing of what it inherited. */
  predicate Inherited(pid: nat, p: Process) {
    p.acquiring == None && forall h :: h in p.helds ==> p.helds[h].owner != pid
  }

  predicate Sane(p: Process, next: nat) {
    && (forall l :: l in p.leases ==> l < next && p.leases[l].held in p.helds)
    && (forall h :: h in p.helds ==> h < next && p.helds[h].owner < next && p.helds[h].ofd < next)
    && p.registryPid < next
  }

  /** What holds of a process's memory alone. */
  predicate Local(pid: nat, p: Process, next: nat) {
    pid < next && Sane(p, next) && if p.registryPid == pid then OwnRegistry(pid, p) else Inherited(pid, p)
  }

  /** The kernel lock is there, in the process's hands. */
  predicate Backed(s: System, pid: nat, l: Locked) {
    pid in s.open && l.ofd in s.open[pid] && l.ofd in s.locks && s.locks[l.ofd] == l.mode
  }

  predicate ClaimBacked(s: System, pid: nat, p: Process) {
    Claim(pid, p).Some? ==> Backed(s, pid, Claim(pid, p).value)
  }

  /** A registered lease is not shared while the marker exists. */
  predicate Fenced(active: bool, pid: nat, p: Process) {
    active && Owns(pid, p) ==> HeldBy(pid, p).mode == Exclusive
  }

  predicate ProcessInv(s: System, pid: nat)
    requires pid in s.procs
  {
    Local(pid, s.procs[pid], s.next) && ClaimBacked(s, pid, s.procs[pid]) && Fenced(s.active, pid, s.procs[pid])
  }

  predicate ExclusiveIsAlone(locks: map<nat, Mode>) {
    forall o, q :: o in locks && q in locks && locks[o] == Exclusive ==> o == q
  }

  predicate Kernel(s: System) {
    && s.procs.Keys == s.open.Keys
    && (forall o :: o in s.locks ==> o < s.next && OpenSomewhere(s.open, o))
    && (forall pid :: pid in s.open ==> forall o :: o in s.open[pid] ==> o < s.next)
    && ExclusiveIsAlone(s.locks)
  }

  predicate SameClaim(a: nat, p: Process, b: nat, q: Process) {
    Claim(a, p).Some? && Claim(b, q).Some? && Claim(a, p).value.ofd == Claim(b, q).value.ofd
  }

  predicate DistinctClaims(s: System) {
    forall a, b :: a in s.procs && b in s.procs && a != b ==> !SameClaim(a, s.procs[a], b, s.procs[b])
  }

  predicate Inv(s: System) {
    Kernel(s) && (forall pid :: pid in s.procs ==> ProcessInv(s, pid)) && DistinctClaims(s)
  }
}
