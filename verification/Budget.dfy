/** The in-memory authority that reserves a run's budget before work is dispatched
    and reconciles what the work reports. */
module Budget {
  import opened Usage
  import opened Events
  import opened Replay
  import opened ReplayLaws
  import opened Ledger
  import opened Plans
  import opened Store

  function Total(values: seq<BudgetUsage>): BudgetUsage {
    if values == [] then ZERO else Add(Total(values[..|values| - 1]), values[|values| - 1])
  }

  method SumUsage(values: seq<BudgetUsage>) returns (total: BudgetUsage)
    ensures total == Total(values)
  {
    total := ZERO;
    var i := 0;
    while i < |values|
      invariant 0 <= i <= |values|
      invariant total == Total(values[..i])
    {
      assert values[..i + 1][..i] == values[..i];
      total := Add(total, values[i]);
      i := i + 1;
    }
    assert values[..i] == values;
  }

  lemma AddIsAssociative(a: BudgetUsage, b: BudgetUsage, c: BudgetUsage)
    ensures Add(Add(a, b), c) == Add(a, Add(b, c))
  {}

  lemma SwapLast(a: BudgetUsage, b: BudgetUsage, c: BudgetUsage)
    ensures Add(Add(a, b), c) == Add(Add(a, c), b)
  {}

  lemma TotalOne(values: seq<BudgetUsage>, u: BudgetUsage)
    ensures Total(values + [u]) == Add(Total(values), u)
  {
    assert (values + [u])[..|values|] == values;
  }

  lemma TotalOfTwo(a: BudgetUsage, b: BudgetUsage)
    ensures Total([a, b]) == Add(a, b)
  {
    assert [] + [a] == [a] && [a] + [b] == [a, b];
    TotalOne([], a);
    TotalOne([a], b);
    AddZero(a);
  }

  lemma TotalOfThree(a: BudgetUsage, b: BudgetUsage, c: BudgetUsage)
    ensures Total([a, b, c]) == Add(Add(a, b), c)
  {
    assert [a, b] + [c] == [a, b, c];
    TotalOfTwo(a, b);
    TotalOne([a, b], c);
  }

  type Reservations = map<string, BudgetUsage>

  /** What all open reservations hold together. */
  ghost function Held(m: Reservations): BudgetUsage
    decreases |m|
  {
    if m == map[] then ZERO
    else
      var id :| id in m;
      Add(Held(m - {id}), m[id])
  }

  /** The sum does not depend on the order the reservations are taken in. */
  lemma {:induction false} HeldWithout(m: Reservations, id: string)
    requires id in m
    ensures Held(m) == Add(Held(m - {id}), m[id])
    decreases |m|
  {
    var first :| first in m && Held(m) == Add(Held(m - {first}), m[first]);
    if first != id {
      HeldWithout(m - {first}, id);
      HeldWithout(m - {id}, first);
      assert m - {first} - {id} == m - {id} - {first};
      SwapLast(Held(m - {first} - {id}), m[id], m[first]);
    }
  }

  lemma HeldAlso(m: Reservations, id: string, maximum: BudgetUsage)
    requires id !in m
    ensures Held(m[id := maximum]) == Add(Held(m), maximum)
  {
    HeldWithout(m[id := maximum], id);
    assert m[id := maximum] - {id} == m;
  }

  /** The charge and everything held respect the limits. The quantifier keeps the ten
      checks folded until a proof mentions them. */
  ghost predicate Covered(used: BudgetUsage, m: Reservations, limits: BudgetLimits) {
    forall l {:trigger Within(Add(used, Held(m)), l)} :: l == limits ==> Within(Add(used, Held(m)), l)
  }

  lemma NothingIsCovered(m: Reservations, limits: BudgetLimits)
    requires m == map[]
    ensures Covered(ZERO, m, limits)
  {
    AddZero(ZERO);
    NothingIsWithin(limits);
  }

  lemma ReservingCovers(used: BudgetUsage, m: Reservations, id: string, maximum: BudgetUsage, limits: BudgetLimits)
    requires id !in m
    ensures Covered(used, m[id := maximum], limits) <==>
            ExceededLimits(Add(Add(used, Held(m)), maximum), limits) == []
  {
    HeldAlso(m, id, maximum);
    AddIsAssociative(used, Held(m), maximum);
    ExceededNothing(Add(used, Add(Held(m), maximum)), limits);
  }

  lemma ChargingCovers(used: BudgetUsage, m: Reservations, id: string, actual: BudgetUsage, limits: BudgetLimits)
    requires Covered(used, m, limits) && id in m && AtMost(actual, m[id])
    ensures Covered(Add(used, actual), m - {id}, limits)
  {
    HeldWithout(m, id);
    SmallerChargeFits(used, actual, m[id], Held(m - {id}), limits);
  }

  lemma ReleasingCovers(used: BudgetUsage, m: Reservations, id: string, limits: BudgetLimits)
    requires Covered(used, m, limits) && id in m
    ensures Covered(used, m - {id}, limits)
  {
    AddZero(used);
    ChargingCovers(used, m, id, ZERO, limits);
  }

  /** With this maximum too, charge and reservations exceed none of the limits; folded
      like Covered. */
  ghost predicate Affords(used: BudgetUsage, m: Reservations, maximum: BudgetUsage, limits: BudgetLimits) {
    forall l {:trigger ExceededLimits(Add(Add(used, Held(m)), maximum), l)} ::
      l == limits ==> ExceededLimits(Add(Add(used, Held(m)), maximum), l) == []
  }

  lemma AffordingCovers(used: BudgetUsage, m: Reservations, id: string, maximum: BudgetUsage, limits: BudgetLimits)
    requires id !in m
    ensures Affords(used, m, maximum, limits) <==> Covered(used, m[id := maximum], limits)
  {
    assert Affords(used, m, maximum, limits) <==> ExceededLimits(Add(Add(used, Held(m)), maximum), limits) == [];
    ReservingCovers(used, m, id, maximum, limits);
  }

  lemma HeldAlone(id: string, maximum: BudgetUsage)
    ensures Held(map[id := maximum]) == maximum
  {
    AddZero(maximum);
    HeldAlso(map[], id, maximum);
  }

  datatype Refusal =
    | EmptyReservation | DuplicateReservation | UnknownReservation
    | BudgetExceeded(dimensions: seq<string>) | ReservationExceeded

  class BudgetAuthority {
    const limits: BudgetLimits
    var used: BudgetUsage
    var reservations: Reservations
    /** Every usage reconciled so far. */
    ghost var reconciled: seq<BudgetUsage>

    ghost predicate Valid()
      reads this
    {
      used == Total(reconciled) && Covered(used, reservations, limits)
    }

    constructor (limits: BudgetLimits)
      ensures Valid() && this.limits == limits
      ensures used == ZERO && reservations == map[] && reconciled == []
    {
      this.limits := limits;
      used := ZERO;
      reservations := map[];
      reconciled := [];
      new;
      NothingIsCovered(reservations, this.limits);
    }

    method Reserved() returns (total: BudgetUsage)
      ensures total == Held(reservations)
    {
      total := ZERO;
      var rest := reservations;
      while rest != map[]
        invariant forall id :: id in rest ==> id in reservations && rest[id] == reservations[id]
        invariant Held(reservations) == Add(total, Held(rest))
        decreases |rest|
      {
        var id :| id in rest;
        HeldWithout(rest, id);
        SwapLast(total, Held(rest - {id}), rest[id]);
        AddIsAssociative(total, Held(rest - {id}), rest[id]);
        total := Add(total, rest[id]);
        rest := rest - {id};
      }
      AddZero(total);
    }

    method Reserve(id: string, maximum: BudgetUsage) returns (refused: Option<Refusal>)
      requires Valid()
      modifies this
      ensures Valid()
      ensures refused == None <==>
        id != "" && id !in old(reservations) && Affords(old(used), old(reservations), maximum, limits)
      ensures refused == None ==>
        reservations == old(reservations)[id := maximum] && used == old(used) && reconciled == old(reconciled)
      ensures refused.Some? ==> unchanged(this)
      ensures id != "" && id !in old(reservations) && refused.Some? ==>
        refused == Some(BudgetExceeded(ExceededLimits(Add(Add(used, Held(reservations)), maximum), limits)))
    {
      if id == "" {
        return Some(EmptyReservation);
      }
      if id in reservations {
        return Some(DuplicateReservation);
      }
      var reserved := Reserved();
      var projected := SumUsage([used, reserved, maximum]);
      TotalOfThree(used, reserved, maximum);
      var exceeded := ExceededLimits(projected, limits);
      assert exceeded == ExceededLimits(Add(Add(used, Held(reservations)), maximum), limits);
      if exceeded != [] {
        return Some(BudgetExceeded(exceeded));
      }
      AffordingCovers(used, reservations, id, maximum, limits);
      reservations := reservations[id := maximum];
      return None;
    }

    method Reconcile(id: string, actual: BudgetUsage) returns (refused: Option<Refusal>)
      requires Valid()
      modifies this
      ensures Valid()
      ensures refused == None <==> id in old(reservations) && AtMost(actual, old(reservations)[id])
      ensures refused == None ==>
        && used == Add(old(used), actual) && reservations == old(reservations) - {id}
        && reconciled == old(reconciled) + [actual]
      ensures refused.Some? ==> unchanged(this)
    {
      if id !in reservations {
        return Some(UnknownReservation);
      }
      if !AtMost(actual, reservations[id]) {
        return Some(ReservationExceeded);
      }
      ChargingCovers(used, reservations, id, actual, limits);
      TotalOfTwo(used, actual);
      TotalOne(reconciled, actual);
      used := SumUsage([used, actual]);
      reservations := reservations - {id};
      reconciled := reconciled + [actual];
      return None;
    }

    method Release(id: string) returns (refused: Option<Refusal>)
      requires Valid()
      modifies this
      ensures Valid()
      ensures refused == None <==> id in old(reservations)
      ensures refused == None ==>
        used == old(used) && reservations == old(reservations) - {id} && reconciled == old(reconciled)
      ensures refused.Some? ==> unchanged(this)
    {
      if id !in reservations {
        return Some(UnknownReservation);
      }
      ReleasingCovers(used, reservations, id, limits);
      reservations := reservations - {id};
      return None;
    }
  }

  /** Charging at most what was reserved keeps the charge and the rest within limits. */
  lemma SmallerChargeFits(used: BudgetUsage, actual: BudgetUsage, maximum: BudgetUsage, rest: BudgetUsage, l: BudgetLimits)
    requires AtMost(actual, maximum) && Within(Add(used, Add(rest, maximum)), l)
    ensures Within(Add(Add(used, actual), rest), l)
  {
    WithinIsDownwardClosed(Add(Add(used, actual), rest), Add(used, Add(rest, maximum)), l);
  }

  /** The authority's charge and reservations are the figures the ledger stores. */
  ghost predicate InStep(v: RunRows, used: BudgetUsage, m: Reservations, limits: BudgetLimits) {
    && used == v.budget.used && Held(m) == v.budget.reserved
    && limits == v.budget.limits == v.row.manifest.identity.limits
  }

  /** An authority in step with the ledger accepts a new reservation exactly when the
      ledger's own checks accept the request with the figures the authority then
      reports: neither refuses what the other let through. */
  lemma AcceptedReservationStands(
      v: RunRows, used: BudgetUsage, m: Reservations, limits: BudgetLimits, id: string, maximum: BudgetUsage)
    requires InStep(v, used, m, limits) && id !in m && v.row.manifest.status == Running
    ensures Affords(used, m, maximum, limits) <==> RequestStands(v, maximum, used, Held(m[id := maximum]))
    ensures Affords(used, m, maximum, limits) <==> Covered(used, m[id := maximum], limits)
  {
    HeldAlso(m, id, maximum);
    AddIsAssociative(used, Held(m), maximum);
    AffordingCovers(used, m, id, maximum, limits);
    assert Affords(used, m, maximum, limits) <==> ExceededLimits(Add(Add(used, Held(m)), maximum), limits) == [];
  }

  /** Reconciling the run's one reservation yields the figures the ledger expects. */
  lemma ReconciledFiguresStand(v: RunRows, s: ReplayState, q: Response, rest: BudgetUsage)
    requires s.requestState == RequestState.Started && s.requestId == Some(q.requestId)
    requires s.requestMaximum.Some? && AtMost(q.actual, s.requestMaximum.value) && q.actual.modelCalls == 1
    requires Patch !in v.row.manifest.artifacts
    requires v.budget.reserved == Add(rest, s.requestMaximum.value)
    requires q.used == Add(v.budget.used, q.actual) && q.reserved == rest
    ensures ResponseStands(v, s, q)
  {
    SubtractUndoesAdd(rest, s.requestMaximum.value);
  }
}
