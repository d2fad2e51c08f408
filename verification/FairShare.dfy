/** Progressive filling: the max-min fair rates of the flows that share a set
    of capacitated resources. */
module FairShare {
  import opened Sums

  type FlowId = nat

  /** What a flow can be limited by: a full-duplex link, a half-duplex group of
      links, the injection port of its source or the receive port of its
      destination. */
  datatype Resource =
    | Link(link: nat)
    | Half(group: nat)
    | Inject(endpoint: nat)
    | Receive(endpoint: nat)

  type Usage = map<FlowId, set<Resource>>
  type Capacities = map<Resource, real>
  type Rates = map<FlowId, real>

  predicate Constrained(uses: Usage, f: FlowId) {
    f in uses.Keys && uses[f] != {}
  }

  /** Every flow crosses a resource, and every resource crossed has a capacity. */
  predicate ValidUsage(uses: Usage, cap: Capacities) {
    && (forall f {:trigger Constrained(uses, f)} | f in uses.Keys :: Constrained(uses, f))
    && (forall f | f in uses.Keys :: uses[f] <= cap.Keys)
  }

  predicate NonNegative(cap: Capacities) {
    forall r | r in cap.Keys :: cap[r] >= 0.0
  }

  /** The flows of U that cross r. */
  function Users(uses: Usage, U: set<FlowId>, r: Resource): set<FlowId> {
    set f | f in U && f in uses.Keys && r in uses[f]
  }

  predicate Contended(uses: Usage, U: set<FlowId>, r: Resource) {
    Users(uses, U, r) != {}
  }

  /** What U takes from r when each of its flows rises by d. */
  ghost function Drawn(uses: Usage, U: set<FlowId>, r: Resource, d: real): real {
    Repeated(|Users(uses, U, r)|, d)
  }

  /** d is the smallest equal share that any contended resource can offer:
      raising every flow of U by d empties one of them and overdraws none. */
  ghost predicate IsShare(uses: Usage, residual: Capacities, U: set<FlowId>, d: real) {
    && (exists r {:trigger Drawn(uses, U, r, d)} | r in residual.Keys && Contended(uses, U, r) :: Drawn(uses, U, r, d) == residual[r])
    && (forall r {:trigger Drawn(uses, U, r, d)} | r in residual.Keys && Contended(uses, U, r) :: Drawn(uses, U, r, d) <= residual[r])
  }

  function ShareOf(uses: Usage, residual: Capacities, U: set<FlowId>, r: Resource): real
    requires r in residual && Contended(uses, U, r)
  {
    residual[r] / |Users(uses, U, r)| as real
  }

  lemma DrawnIsShare(x: real, n: nat, d: real)
    requires n > 0
    ensures d == x / n as real ==> Repeated(n, d) == x
    ensures d <= x / n as real ==> Repeated(n, d) <= x
    ensures Repeated(n, d) <= x ==> d <= x / n as real
  {
    RepeatedIsProduct(n, d);
    var q := x / n as real;
    assert q * n as real == x;
    assert (q - d) * n as real == x - d * n as real;
    if q < d { assert (d - q) * n as real > 0.0; }
  }

  lemma LeastIsShare(uses: Usage, residual: Capacities, U: set<FlowId>, q: Resource)
    requires q in residual && Contended(uses, U, q)
    requires forall p | p in residual.Keys && Contended(uses, U, p) ::
      ShareOf(uses, residual, U, q) <= ShareOf(uses, residual, U, p)
    ensures IsShare(uses, residual, U, ShareOf(uses, residual, U, q))
  {
    var d := ShareOf(uses, residual, U, q);
    DrawnIsShare(residual[q], |Users(uses, U, q)|, d);
    assert Drawn(uses, U, q, d) == residual[q];
    forall p | p in residual.Keys && Contended(uses, U, p)
      ensures Drawn(uses, U, p, d) <= residual[p]
    {
      DrawnIsShare(residual[p], |Users(uses, U, p)|, d);
    }
  }

  lemma ShareIsUnique(uses: Usage, residual: Capacities, U: set<FlowId>, d: real, e: real)
    requires IsShare(uses, residual, U, d) && IsShare(uses, residual, U, e)
    ensures d == e
  {
    var r :| r in residual.Keys && Contended(uses, U, r) && Drawn(uses, U, r, d) == residual[r];
    var q :| q in residual.Keys && Contended(uses, U, q) && Drawn(uses, U, q, e) == residual[q];
    assert Drawn(uses, U, r, e) <= residual[r];
    assert Drawn(uses, U, q, d) <= residual[q];
    RepeatedMonotone(|Users(uses, U, r)|, e, d);
    RepeatedMonotone(|Users(uses, U, q)|, d, e);
  }

  lemma ContendedExists(uses: Usage, residual: Capacities, U: set<FlowId>) returns (r: Resource)
    requires ValidUsage(uses, residual) && U <= uses.Keys && U != {}
    ensures r in residual.Keys && Contended(uses, U, r)
  {
    var f :| f in U;
    assert Constrained(uses, f);
    r :| r in uses[f];
    assert f in Users(uses, U, r);
  }

  lemma ShareExists(uses: Usage, residual: Capacities, U: set<FlowId>)
    requires ValidUsage(uses, residual) && U <= uses.Keys && U != {}
    ensures exists d :: IsShare(uses, residual, U, d)
  {
    var r := ContendedExists(uses, residual, U);
    var shares := map q | q in residual.Keys && Contended(uses, U, q) :: ShareOf(uses, residual, U, q);
    assert r in shares.Keys;
    var q := LeastKey(shares.Keys, shares);
    forall p | p in residual.Keys && Contended(uses, U, p)
      ensures ShareOf(uses, residual, U, q) <= ShareOf(uses, residual, U, p)
    {
      assert p in shares.Keys;
    }
    LeastIsShare(uses, residual, U, q);
  }

  ghost function Share(uses: Usage, residual: Capacities, U: set<FlowId>): (d: real)
    requires ValidUsage(uses, residual) && U <= uses.Keys && U != {}
    ensures IsShare(uses, residual, U, d)
  {
    ShareExists(uses, residual, U);
    var d :| IsShare(uses, residual, U, d);
    d
  }

  ghost predicate IsDrained(uses: Usage, residual: Capacities, U: set<FlowId>, d: real, r': Capacities) {
    && r'.Keys == residual.Keys
    && forall r {:trigger Drawn(uses, U, r, d)} | r in residual.Keys :: r'[r] == residual[r] - Drawn(uses, U, r, d)
  }

  /** What is left of each resource after raising every flow of U by d. */
  ghost function Drained(uses: Usage, residual: Capacities, U: set<FlowId>, d: real): (r': Capacities)
    ensures IsDrained(uses, residual, U, d, r')
  {
    var m := map r | r in residual.Keys :: residual[r] - Drawn(uses, U, r, d);
    assert IsDrained(uses, residual, U, d, m);
    var r' :| IsDrained(uses, residual, U, d, r');
    r'
  }

  /** f crosses a resource filled to within eps. */
  ghost predicate Stuck(uses: Usage, residual: Capacities, f: FlowId, eps: real) {
    f in uses.Keys && exists r :: r in uses[f] && r in residual.Keys && residual[r] <= eps
  }

  ghost predicate IsFrozen(uses: Usage, residual: Capacities, U: set<FlowId>, eps: real, s: set<FlowId>) {
    s <= U && forall f {:trigger Stuck(uses, residual, f, eps)} | f in U :: f in s <==> Stuck(uses, residual, f, eps)
  }

  ghost function Frozen(uses: Usage, residual: Capacities, U: set<FlowId>, eps: real): (s: set<FlowId>)
    ensures IsFrozen(uses, residual, U, eps, s)
  {
    var t := set f | f in U && Stuck(uses, residual, f, eps);
    assert IsFrozen(uses, residual, U, eps, t);
    var s :| IsFrozen(uses, residual, U, eps, s);
    s
  }

  /** Draining by the share empties the resource that set it, so at least one
      flow freezes. */
  lemma ShareFreezesSome(uses: Usage, residual: Capacities, U: set<FlowId>, d: real, eps: real)
    requires IsShare(uses, residual, U, d) && eps >= 0.0
    ensures Frozen(uses, Drained(uses, residual, U, d), U, eps) != {}
  {
    var r :| r in residual.Keys && Contended(uses, U, r) && Drawn(uses, U, r, d) == residual[r];
    var f :| f in Users(uses, U, r);
    assert Stuck(uses, Drained(uses, residual, U, d), f, eps);
  }

  lemma ShareIsNonNegative(uses: Usage, residual: Capacities, U: set<FlowId>, d: real)
    requires NonNegative(residual) && IsShare(uses, residual, U, d)
    ensures d >= 0.0
  {
    var r :| r in residual.Keys && Contended(uses, U, r) && Drawn(uses, U, r, d) == residual[r];
    RepeatedSign(|Users(uses, U, r)|, d);
  }

  lemma DrainedNonNegative(uses: Usage, residual: Capacities, U: set<FlowId>, d: real)
    requires NonNegative(residual) && IsShare(uses, residual, U, d)
    ensures NonNegative(Drained(uses, residual, U, d))
  {
    forall r | r in residual.Keys
      ensures Drained(uses, residual, U, d)[r] >= 0.0
    {
      assert Drawn(uses, U, r, d) <= residual[r] by {
        if !Contended(uses, U, r) { assert Drawn(uses, U, r, d) == 0.0; }
      }
    }
  }

  /** The rate that progressive filling gives to flow f: the flows of U start
      at a common level, rise together by the share, and freeze as their
      resources fill. */
  ghost function RateOf(uses: Usage, residual: Capacities, U: set<FlowId>, level: real, eps: real, f: FlowId): real
    requires ValidUsage(uses, residual) && U <= uses.Keys && eps >= 0.0 && f in U
    decreases U
  {
    var d := Share(uses, residual, U);
    var residual' := Drained(uses, residual, U, d);
    var frozen := Frozen(uses, residual', U, eps);
    ShareFreezesSome(uses, residual, U, d, eps);
    if f in frozen then level + d else RateOf(uses, residual', U - frozen, level + d, eps, f)
  }

  ghost predicate IsFill(uses: Usage, residual: Capacities, U: set<FlowId>, level: real, eps: real, R: Rates)
    requires ValidUsage(uses, residual) && U <= uses.Keys && eps >= 0.0
  {
    && R.Keys == U
    && forall f {:trigger RateOf(uses, residual, U, level, eps, f)} | f in U :: R[f] == RateOf(uses, residual, U, level, eps, f)
  }

  /** The outcome of progressive filling for all the flows of U. */
  ghost function Fill(uses: Usage, residual: Capacities, U: set<FlowId>, level: real, eps: real): (R: Rates)
    requires ValidUsage(uses, residual) && U <= uses.Keys && eps >= 0.0
    ensures IsFill(uses, residual, U, level, eps, R)
  {
    var S := map f | f in U :: RateOf(uses, residual, U, level, eps, f);
    assert IsFill(uses, residual, U, level, eps, S);
    var R :| IsFill(uses, residual, U, level, eps, R);
    R
  }

  function Above(s: set<FlowId>, R: Rates, level: real): (m: map<FlowId, real>)
    requires s <= R.Keys
    ensures m.Keys == s
  {
    map f | f in s :: R[f] - level
  }

  lemma AboveShift(s: set<FlowId>, R: Rates, level: real, d: real)
    requires s <= R.Keys
    ensures Sum(Above(s, R, level)) == Sum(Above(s, R, level + d)) + Repeated(|s|, d)
  {
    var rise := map f | f in s :: d;
    SumRepeated(s, rise, d);
    SumPointwise(Above(s, R, level + d), rise, Above(s, R, level));
  }

  lemma AboveDrop(s: set<FlowId>, t: set<FlowId>, R: Rates, level: real)
    requires t <= s <= R.Keys
    requires forall f | f in s - t :: R[f] == level
    ensures Sum(Above(s, R, level)) == Sum(Above(t, R, level))
  {
    var stopped := Above(s - t, R, level);
    SumZero(stopped);
    assert s == (s - t) + t;
    SumUnion(stopped, Above(t, R, level), Above(s, R, level));
  }

  /** How much of r the flows of U take above a common level. */
  ghost function Excess(uses: Usage, U: set<FlowId>, R: Rates, level: real, r: Resource): real
    requires U <= R.Keys
  {
    Sum(Above(Users(uses, U, r), R, level))
  }

  lemma ExcessStep(uses: Usage, U: set<FlowId>, frozen: set<FlowId>, R: Rates, level: real, d: real, r: Resource)
    requires frozen <= U <= R.Keys
    requires forall f | f in frozen :: R[f] == level + d
    ensures Excess(uses, U, R, level, r) == Drawn(uses, U, r, d) + Excess(uses, U - frozen, R, level + d, r)
  {
    AboveShift(Users(uses, U, r), R, level, d);
    AboveDrop(Users(uses, U, r), Users(uses, U - frozen, r), R, level + d);
  }

  /** r explains the rate of f: it is full to within eps and f is among the
      fastest flows crossing it. */
  ghost predicate Binds(uses: Usage, residual: Capacities, U: set<FlowId>, R: Rates, level: real, eps: real, f: FlowId, r: Resource)
    requires U <= R.Keys && f in U && U <= uses.Keys
  {
    && r in uses[f] && r in residual.Keys
    && residual[r] - Excess(uses, U, R, level, r) <= eps
    && forall g | g in Users(uses, U, r) :: R[g] <= R[f]
  }

  ghost predicate Bound(uses: Usage, residual: Capacities, U: set<FlowId>, R: Rates, level: real, eps: real, f: FlowId)
    requires U <= R.Keys && f in U && U <= uses.Keys
  {
    exists r :: Binds(uses, residual, U, R, level, eps, f, r)
  }

  ghost predicate Fits(uses: Usage, residual: Capacities, U: set<FlowId>, R: Rates, level: real)
    requires U <= R.Keys
  {
    forall r {:trigger Excess(uses, U, R, level, r)} | r in residual.Keys :: Excess(uses, U, R, level, r) <= residual[r]
  }

  lemma FitsStep(uses: Usage, residual: Capacities, U: set<FlowId>, frozen: set<FlowId>, R: Rates, level: real, d: real)
    requires frozen <= U <= R.Keys
    requires forall f | f in frozen :: R[f] == level + d
    requires Fits(uses, Drained(uses, residual, U, d), U - frozen, R, level + d)
    ensures Fits(uses, residual, U, R, level)
  {
    forall r | r in residual.Keys
      ensures Excess(uses, U, R, level, r) <= residual[r]
    {
      FitsAt(uses, residual, U, frozen, R, level, d, r);
    }
  }

  lemma FitsAt(uses: Usage, residual: Capacities, U: set<FlowId>, frozen: set<FlowId>, R: Rates, level: real, d: real, r: Resource)
    requires frozen <= U <= R.Keys && r in residual.Keys
    requires forall f | f in frozen :: R[f] == level + d
    requires Excess(uses, U - frozen, R, level + d, r) <= Drained(uses, residual, U, d)[r]
    ensures Excess(uses, U, R, level, r) <= residual[r]
  {
    ExcessStep(uses, U, frozen, R, level, d, r);
  }

  lemma FrozenIsBound(uses: Usage, residual: Capacities, U: set<FlowId>, R: Rates, level: real, d: real, eps: real, f: FlowId)
    requires U <= R.Keys && U <= uses.Keys
    requires var frozen := Frozen(uses, Drained(uses, residual, U, d), U, eps);
      f in frozen && forall g | g in frozen :: R[g] == level + d
    ensures Bound(uses, residual, U, R, level, eps, f)
  {
    var residual' := Drained(uses, residual, U, d);
    var frozen := Frozen(uses, residual', U, eps);
    assert Stuck(uses, residual', f, eps);
    var r :| r in uses[f] && r in residual.Keys && residual'[r] <= eps;
    ExcessStep(uses, U, frozen, R, level, d, r);
    forall g | g in Users(uses, U, r)
      ensures g in frozen
    {
      assert Stuck(uses, residual', g, eps);
    }
    assert Users(uses, U - frozen, r) == {};
    SumEmpty(Above(Users(uses, U - frozen, r), R, level + d));
    assert Binds(uses, residual, U, R, level, eps, f, r);
  }

  lemma BoundStep(uses: Usage, residual: Capacities, U: set<FlowId>, frozen: set<FlowId>, R: Rates, level: real, d: real, eps: real, f: FlowId)
    requires frozen <= U <= R.Keys && U <= uses.Keys && f in U - frozen
    requires forall g | g in frozen :: R[g] == level + d
    requires level + d <= R[f]
    requires Bound(uses, Drained(uses, residual, U, d), U - frozen, R, level + d, eps, f)
    ensures Bound(uses, residual, U, R, level, eps, f)
  {
    var r :| Binds(uses, Drained(uses, residual, U, d), U - frozen, R, level + d, eps, f, r);
    ExcessStep(uses, U, frozen, R, level, d, r);
    forall g | g in Users(uses, U, r)
      ensures R[g] <= R[f]
    {
      if g !in frozen {
        assert g in Users(uses, U - frozen, r);
      }
    }
    assert Binds(uses, residual, U, R, level, eps, f, r);
  }

  /** Only the rates of U matter. */
  lemma SameExcess(uses: Usage, U: set<FlowId>, R: Rates, R': Rates, level: real, r: Resource)
    requires U <= R.Keys && U <= R'.Keys
    requires forall f | f in U :: R[f] == R'[f]
    ensures Excess(uses, U, R, level, r) == Excess(uses, U, R', level, r)
  {
    assert Above(Users(uses, U, r), R, level) == Above(Users(uses, U, r), R', level);
  }

  ghost predicate Fair(uses: Usage, residual: Capacities, U: set<FlowId>, R: Rates, level: real, eps: real)
    requires U <= R.Keys && U <= uses.Keys
  {
    && (forall f | f in U :: level <= R[f])
    && Fits(uses, residual, U, R, level)
    && forall f {:trigger Bound(uses, residual, U, R, level, eps, f)} | f in U :: Bound(uses, residual, U, R, level, eps, f)
  }

  lemma SameFair(uses: Usage, residual: Capacities, U: set<FlowId>, R: Rates, R': Rates, level: real, eps: real)
    requires U <= R.Keys && U <= R'.Keys && U <= uses.Keys
    requires forall f | f in U :: R[f] == R'[f]
    requires Fair(uses, residual, U, R, level, eps)
    ensures Fair(uses, residual, U, R', level, eps)
  {
    forall r
      ensures Excess(uses, U, R, level, r) == Excess(uses, U, R', level, r)
    {
      SameExcess(uses, U, R, R', level, r);
    }
    forall f | f in U
      ensures Bound(uses, residual, U, R', level, eps, f)
    {
      assert Bound(uses, residual, U, R, level, eps, f);
      var r :| Binds(uses, residual, U, R, level, eps, f, r);
      assert Binds(uses, residual, U, R', level, eps, f, r);
    }
  }

  lemma FairStep(uses: Usage, residual: Capacities, U: set<FlowId>, R: Rates, level: real, d: real, eps: real)
    requires U <= uses.Keys && U <= R.Keys
    requires d >= 0.0
    requires var residual' := Drained(uses, residual, U, d);
      var frozen := Frozen(uses, residual', U, eps);
      && (forall f | f in frozen :: R[f] == level + d)
      && Fair(uses, residual', U - frozen, R, level + d, eps)
    ensures Fair(uses, residual, U, R, level, eps)
    ensures forall f | f in U :: level + d <= R[f]
  {
    var frozen := Frozen(uses, Drained(uses, residual, U, d), U, eps);
    FitsStep(uses, residual, U, frozen, R, level, d);
    forall f | f in U
      ensures Bound(uses, residual, U, R, level, eps, f)
    {
      if f in frozen {
        FrozenIsBound(uses, residual, U, R, level, d, eps, f);
      } else {
        BoundStep(uses, residual, U, frozen, R, level, d, eps, f);
      }
    }
  }

  /** One round of filling: the flows that freeze stay at the new level, the
      others go on from it. */
  lemma FillRound(uses: Usage, residual: Capacities, U: set<FlowId>, level: real, eps: real)
    returns (d: real, residual': Capacities, rest: set<FlowId>)
    requires ValidUsage(uses, residual) && NonNegative(residual) && U <= uses.Keys && U != {} && eps >= 0.0
    ensures d >= 0.0 && IsShare(uses, residual, U, d)
    ensures residual' == Drained(uses, residual, U, d) && NonNegative(residual')
    ensures rest < U && rest == U - Frozen(uses, residual', U, eps)
    ensures var R := Fill(uses, residual, U, level, eps);
      && (forall f | f in U - rest :: R[f] == level + d)
      && forall f | f in rest :: R[f] == Fill(uses, residual', rest, level + d, eps)[f]
  {
    d := Share(uses, residual, U);
    residual' := Drained(uses, residual, U, d);
    rest := U - Frozen(uses, residual', U, eps);
    ShareFreezesSome(uses, residual, U, d, eps);
    ShareIsNonNegative(uses, residual, U, d);
    DrainedNonNegative(uses, residual, U, d);
    forall f | f in U
      ensures Fill(uses, residual, U, level, eps)[f] ==
        if f in rest then Fill(uses, residual', rest, level + d, eps)[f] else level + d
    {
      assert Fill(uses, residual, U, level, eps)[f] == RateOf(uses, residual, U, level, eps, f);
      if f in rest {
        assert Fill(uses, residual', rest, level + d, eps)[f] == RateOf(uses, residual', rest, level + d, eps, f);
      }
    }
  }

  lemma NoFlowsIsFair(uses: Usage, residual: Capacities, level: real, eps: real)
    requires NonNegative(residual)
    ensures Fair(uses, residual, {}, map[], level, eps)
  {
    forall r | r in residual.Keys
      ensures Excess(uses, {}, map[], level, r) <= residual[r]
    {
      SumEmpty(Above(Users(uses, {}, r), map[], level));
    }
  }

  lemma FairRound(uses: Usage, residual: Capacities, U: set<FlowId>, R: Rates, R': Rates, level: real, d: real, eps: real, rest: set<FlowId>)
    requires U <= uses.Keys && U <= R.Keys && d >= 0.0
    requires rest == U - Frozen(uses, Drained(uses, residual, U, d), U, eps) && rest <= R'.Keys
    requires forall f | f in U - rest :: R[f] == level + d
    requires forall f | f in rest :: R[f] == R'[f]
    requires Fair(uses, Drained(uses, residual, U, d), rest, R', level + d, eps)
    ensures Fair(uses, residual, U, R, level, eps)
  {
    var residual' := Drained(uses, residual, U, d);
    assert forall f | f in Frozen(uses, residual', U, eps) :: f in U - rest;
    SameFair(uses, residual', rest, R', R, level + d, eps);
    FairStep(uses, residual, U, R, level, d, eps);
  }

  lemma {:induction false} FillFairly(uses: Usage, residual: Capacities, U: set<FlowId>, level: real, eps: real) returns (R: Rates)
    requires ValidUsage(uses, residual) && NonNegative(residual) && U <= uses.Keys && eps >= 0.0
    ensures R == Fill(uses, residual, U, level, eps)
    ensures Fair(uses, residual, U, R, level, eps)
    decreases U
  {
    R := Fill(uses, residual, U, level, eps);
    if U == {} {
      assert R == map[];
      NoFlowsIsFair(uses, residual, level, eps);
    } else {
      var d, residual', rest := FillRound(uses, residual, U, level, eps);
      var R' := FillFairly(uses, residual', rest, level + d, eps);
      FairRound(uses, residual, U, R, R', level, d, eps, rest);
    }
  }

  // ----- the rates of the network -----

  predicate Positive(cap: Capacities) {
    forall r | r in cap.Keys :: cap[r] > 0.0
  }

  /** The rates that progressive filling gives to all flows from scratch. */
  ghost function MaxMin(uses: Usage, cap: Capacities, eps: real): (R: Rates)
    requires ValidUsage(uses, cap) && eps >= 0.0
    ensures R.Keys == uses.Keys
  {
    Fill(uses, cap, uses.Keys, 0.0, eps)
  }

  /** The total rate over r. */
  ghost function Load(uses: Usage, R: Rates, r: Resource): real
    requires uses.Keys <= R.Keys
  {
    Excess(uses, uses.Keys, R, 0.0, r)
  }

  /** No resource carries more than its capacity. */
  ghost predicate Feasible(uses: Usage, cap: Capacities, R: Rates) {
    uses.Keys <= R.Keys && forall r {:trigger Load(uses, R, r)} | r in cap.Keys :: Load(uses, R, r) <= cap[r]
  }

  /** r is a bottleneck of f: f crosses it, it is filled to within eps, and no
      flow on it is faster than f. */
  ghost predicate Bottleneck(uses: Usage, cap: Capacities, R: Rates, eps: real, f: FlowId, r: Resource)
    requires uses.Keys <= R.Keys && f in uses.Keys
  {
    && r in uses[f] && r in cap.Keys
    && cap[r] - eps <= Load(uses, R, r)
    && forall g | g in Users(uses, uses.Keys, r) :: R[g] <= R[f]
  }

  ghost predicate HasBottleneck(uses: Usage, cap: Capacities, R: Rates, eps: real, f: FlowId)
    requires uses.Keys <= R.Keys && f in uses.Keys
  {
    exists r :: Bottleneck(uses, cap, R, eps, f, r)
  }

  /** Max-min fairness up to a slack of eps bytes per second. */
  ghost predicate MaxMinFair(uses: Usage, cap: Capacities, R: Rates, eps: real) {
    && Feasible(uses, cap, R)
    && forall f {:trigger HasBottleneck(uses, cap, R, eps, f)} | f in uses.Keys :: HasBottleneck(uses, cap, R, eps, f)
  }

  lemma MaxMinIsFair(uses: Usage, cap: Capacities, eps: real)
    requires ValidUsage(uses, cap) && NonNegative(cap) && eps >= 0.0
    ensures MaxMinFair(uses, cap, MaxMin(uses, cap, eps), eps)
  {
    var R := FillFairly(uses, cap, uses.Keys, 0.0, eps);
    forall f | f in uses.Keys
      ensures HasBottleneck(uses, cap, R, eps, f)
    {
      assert Bound(uses, cap, uses.Keys, R, 0.0, eps, f);
      var r :| Binds(uses, cap, uses.Keys, R, 0.0, eps, f, r);
      assert Bottleneck(uses, cap, R, eps, f, r);
    }
  }

  /** No active flow starves. */
  lemma MaxMinIsPositive(uses: Usage, cap: Capacities, eps: real, f: FlowId)
    requires ValidUsage(uses, cap) && Positive(cap) && eps >= 0.0 && f in uses.Keys
    ensures MaxMin(uses, cap, eps)[f] > 0.0
  {
    var d, residual', rest := FillRound(uses, cap, uses.Keys, 0.0, eps);
    var R' := FillFairly(uses, residual', rest, d, eps);
    FirstShareIsPositive(uses, cap, d);
  }

  lemma FirstShareIsPositive(uses: Usage, cap: Capacities, d: real)
    requires Positive(cap) && IsShare(uses, cap, uses.Keys, d)
    ensures d > 0.0
  {
    var r :| r in cap.Keys && Contended(uses, uses.Keys, r) && Drawn(uses, uses.Keys, r, d) == cap[r];
    RepeatedMonotone(|Users(uses, uses.Keys, r)|, d, 0.0);
    RepeatedIsProduct(|Users(uses, uses.Keys, r)|, 0.0);
  }

  lemma LoadGap(s: set<FlowId>, R: Rates, S: Rates, f: FlowId)
    requires s <= R.Keys && s <= S.Keys && f in s
    requires forall g | g in s :: R[g] <= S[g]
    ensures Sum(Above(s, R, 0.0)) + (S[f] - R[f]) <= Sum(Above(s, S, 0.0))
  {
    var gap := map g | g in s :: S[g] - R[g];
    SumPointwise(Above(s, R, 0.0), gap, Above(s, S, 0.0));
    SumBoundsTerm(gap, f);
  }

  /** Under a max-min fair allocation a flow can gain more than the slack only
      at the cost of a flow that is no faster. */
  lemma NoGainWithoutLoss(uses: Usage, cap: Capacities, R: Rates, S: Rates, eps: real, f: FlowId)
    requires MaxMinFair(uses, cap, R, eps) && Feasible(uses, cap, S) && f in uses.Keys
    requires S[f] > R[f] + eps
    ensures exists g :: g in uses.Keys && S[g] < R[g] && R[g] <= R[f]
  {
    assert HasBottleneck(uses, cap, R, eps, f);
    var r :| Bottleneck(uses, cap, R, eps, f, r);
    var s := Users(uses, uses.Keys, r);
    assert Load(uses, S, r) <= cap[r];
    if forall g | g in s :: R[g] <= S[g] {
      LoadGap(s, R, S, f);
      assert false;
    }
  }

  lemma LeastDifference(uses: Usage, R: Rates, S: Rates) returns (f: FlowId)
    requires uses.Keys <= R.Keys && uses.Keys <= S.Keys
    requires exists g :: g in uses.Keys && R[g] != S[g]
    ensures f in uses.Keys && R[f] != S[f]
    ensures forall g | g in uses.Keys && R[g] != S[g] :: Lower(R[f], S[f]) <= Lower(R[g], S[g])
  {
    var lower := map g | g in uses.Keys && R[g] != S[g] :: Lower(R[g], S[g]);
    var g :| g in uses.Keys && R[g] != S[g];
    assert g in lower.Keys;
    f := LeastKey(lower.Keys, lower);
    assert forall h | h in uses.Keys && R[h] != S[h] :: h in lower.Keys;
  }

  function Lower(x: real, y: real): real { if x < y then x else y }

  /** With no slack the max-min fair allocation is unique, so progressive
      filling computes the max-min fair allocation. */
  lemma MaxMinFairIsUnique(uses: Usage, cap: Capacities, R: Rates, S: Rates)
    requires MaxMinFair(uses, cap, R, 0.0) && MaxMinFair(uses, cap, S, 0.0)
    requires R.Keys == S.Keys == uses.Keys
    ensures R == S
  {
    if exists g :: g in uses.Keys && R[g] != S[g] {
      var f := LeastDifference(uses, R, S);
      if R[f] < S[f] {
        NoGainWithoutLoss(uses, cap, R, S, 0.0, f);
      } else {
        NoGainWithoutLoss(uses, cap, S, R, 0.0, f);
      }
      assert false;
    }
  }

  // ----- the algorithm -----

  /** The smallest equal share over the contended resources, with a resource
      that sets it. */
  method LeastShare(uses: Usage, residual: Capacities, U: set<FlowId>) returns (delta: real, limiting: Resource)
    requires ValidUsage(uses, residual) && U <= uses.Keys && U != {}
    ensures IsShare(uses, residual, U, delta)
    ensures limiting in residual.Keys && Contended(uses, U, limiting)
  {
    var contended := set r | r in residual.Keys && Contended(uses, U, r);
    ghost var some := ContendedExists(uses, residual, U);
    assert some in contended;
    limiting :| limiting in contended;
    delta := ShareOf(uses, residual, U, limiting);
    var todo := contended - {limiting};
    while todo != {}
      invariant todo <= contended
      invariant limiting in contended && delta == ShareOf(uses, residual, U, limiting)
      invariant forall r | r in contended - todo :: delta <= ShareOf(uses, residual, U, r)
      decreases todo
    {
      var r :| r in todo;
      if ShareOf(uses, residual, U, r) < delta {
        delta, limiting := ShareOf(uses, residual, U, r), r;
      }
      todo := todo - {r};
    }
    assert forall r | r in residual.Keys && Contended(uses, U, r) :: r in contended - todo;
    LeastIsShare(uses, residual, U, limiting);
  }

  function NotBelowZero(x: real): real { if x < 0.0 then 0.0 else x }

  function Clamped(uses: Usage, residual: Capacities, U: set<FlowId>, d: real, r: Resource): real
    requires r in residual.Keys
  {
    if Contended(uses, U, r) then NotBelowZero(residual[r] - d * |Users(uses, U, r)| as real) else residual[r]
  }

  /** Raising the flows of U by a share, clamped at zero, drains exactly. */
  lemma ClampedDrain(uses: Usage, residual: Capacities, U: set<FlowId>, d: real, r': Capacities)
    requires NonNegative(residual) && IsShare(uses, residual, U, d)
    requires r'.Keys == residual.Keys
    requires forall r | r in residual.Keys :: r'[r] == Clamped(uses, residual, U, d, r)
    ensures r' == Drained(uses, residual, U, d)
  {
    DrainedNonNegative(uses, residual, U, d);
    forall r | r in residual.Keys
      ensures r'[r] == Drained(uses, residual, U, d)[r]
    {
      assert Drained(uses, residual, U, d)[r] == residual[r] - Drawn(uses, U, r, d);
      RepeatedIsProduct(|Users(uses, U, r)|, d);
    }
  }

  lemma SaturatedFreeze(uses: Usage, residual: Capacities, U: set<FlowId>, eps: real, saturated: set<Resource>, frozen: set<FlowId>)
    requires U <= uses.Keys
    requires forall r :: r in saturated <==> r in residual.Keys && Contended(uses, U, r) && residual[r] <= eps
    requires forall f :: f in frozen <==> f in U && uses[f] * saturated != {}
    ensures frozen == Frozen(uses, residual, U, eps)
  {
    forall f | f in U
      ensures f in frozen <==> Stuck(uses, residual, f, eps)
    {
      if f in frozen {
        var r :| r in uses[f] * saturated;
      }
      if Stuck(uses, residual, f, eps) {
        var r :| r in uses[f] && r in residual.Keys && residual[r] <= eps;
        assert f in Users(uses, U, r);
        assert r in uses[f] * saturated;
      }
    }
  }

  /** One round: the share of the unfrozen flows U, what it leaves of each
      resource, and the flows it does not freeze. */
  method FillingRound(uses: Usage, residual: Capacities, U: set<FlowId>, eps: real)
    returns (delta: real, residual': Capacities, rest: set<FlowId>)
    requires ValidUsage(uses, residual) && NonNegative(residual) && U <= uses.Keys && U != {} && eps >= 0.0
    ensures delta == Share(uses, residual, U)
    ensures residual' == Drained(uses, residual, U, delta) && NonNegative(residual')
    ensures rest == U - Frozen(uses, residual', U, eps) && rest < U
  {
    var limiting;
    delta, limiting := LeastShare(uses, residual, U);
    ShareIsUnique(uses, residual, U, delta, Share(uses, residual, U));
    ShareIsNonNegative(uses, residual, U, delta);
    DrainedNonNegative(uses, residual, U, delta);
    ShareFreezesSome(uses, residual, U, delta, eps);
    if delta < -eps {
      assert false;  // no residual capacity is negative
    }
    delta := NotBelowZero(delta);
    residual' := map r | r in residual.Keys :: Clamped(uses, residual, U, delta, r);
    ClampedDrain(uses, residual, U, delta, residual');
    var saturated := set r | r in residual'.Keys && Contended(uses, U, r) && residual'[r] <= eps;
    var frozen := set f | f in U && uses[f] * saturated != {};
    SaturatedFreeze(uses, residual', U, eps, saturated, frozen);
    if frozen == {} {
      assert false;  // the limiting resource is always saturated
    }
    rest := U - frozen;
  }

  /** The rates found so far: final for frozen flows, the common level for the
      others, which go on from what is left. */
  ghost predicate Filling(uses: Usage, cap: Capacities, eps: real, residual: Capacities, U: set<FlowId>, level: real, rates: Rates)
    requires ValidUsage(uses, cap) && eps >= 0.0 && residual.Keys == cap.Keys && U <= uses.Keys == rates.Keys
  {
    && (forall f | f in U :: rates[f] == level)
    && (forall f | f in U :: MaxMin(uses, cap, eps)[f] == Fill(uses, residual, U, level, eps)[f])
    && (forall f | f in uses.Keys - U :: rates[f] == MaxMin(uses, cap, eps)[f])
  }

  lemma FillingStep(uses: Usage, cap: Capacities, eps: real, residual: Capacities, U: set<FlowId>, level: real, rates: Rates,
                    d: real, residual': Capacities, rest: set<FlowId>, rates': Rates)
    requires ValidUsage(uses, cap) && eps >= 0.0 && residual.Keys == cap.Keys && U <= uses.Keys == rates.Keys && U != {}
    requires NonNegative(residual) && Filling(uses, cap, eps, residual, U, level, rates)
    requires d == Share(uses, residual, U) && residual' == Drained(uses, residual, U, d)
    requires rest == U - Frozen(uses, residual', U, eps)
    requires rates' == map f | f in rates.Keys :: if f in U then rates[f] + d else rates[f]
    ensures Filling(uses, cap, eps, residual', rest, level + d, rates')
  {
    var d2, residual2, rest2 := FillRound(uses, residual, U, level, eps);
    ShareIsUnique(uses, residual, U, d, d2);
    assert residual2 == residual' && rest2 == rest;
  }

  /** `_rates`: raise all unfrozen flows together, freeze those on filled
      resources, and go on with the rest. */
  method ProgressiveFilling(uses: Usage, cap: Capacities, eps: real) returns (rates: Rates)
    requires ValidUsage(uses, cap) && NonNegative(cap) && eps >= 0.0
    ensures rates == MaxMin(uses, cap, eps)
  {
    rates := map f | f in uses.Keys :: 0.0;
    var unfrozen := uses.Keys;
    var residual := cap;
    ghost var level := 0.0;
    while unfrozen != {}
      invariant unfrozen <= uses.Keys == rates.Keys
      invariant residual.Keys == cap.Keys && NonNegative(residual)
      invariant Filling(uses, cap, eps, residual, unfrozen, level, rates)
      decreases unfrozen
    {
      var delta, residual', rest := FillingRound(uses, residual, unfrozen, eps);
      var rates' := map f | f in rates.Keys :: if f in unfrozen then rates[f] + delta else rates[f];
      FillingStep(uses, cap, eps, residual, unfrozen, level, rates, delta, residual', rest, rates');
      rates, residual, unfrozen, level := rates', residual', rest, level + delta;
    }
  }
}
