/** Requests derived from limits (overcommit.go). CPU is counted in millicores,
    memory in bytes; limits come in as integers. */
module Overcommit {
  datatype Tier = Tier(name: string, cpu: int, mem: int)

  const MIN_CPU := 1
  const MIN_MEM := 4 * 1024 * 1024

  const TIERS: map<string, Tier> := map[
    "dev" := Tier("dev", 15, 2), "prod" := Tier("prod", 7, 2), "build" := Tier("build", 2, 2),
    "enterprise" := Tier("enterprise", 1, 1)]

  /** Unknown and empty names fall back to dev. */
  function ResolveTier(name: string): (t: Tier)
    ensures t.cpu >= 1 && t.mem >= 1 && t.name in TIERS && (name in TIERS ==> t.name == name)
  {
    if name in TIERS then TIERS[name] else TIERS["dev"]
  }

  datatype Amounts = Amounts(cpu: int, mem: int)

  datatype Requirements = Requirements(requests: Amounts, limits: Amounts)

  /** Integer division of the source: it truncates toward zero. */
  function Quot(a: int, b: int): int
    requires b >= 1
  {
    if a >= 0 then a / b else -((-a) / b)
  }

  /** limit/ratio, with a floor. */
  function Request(limit: int, ratio: int, floor: int): int
    requires ratio >= 1
  {
    if Quot(limit, ratio) < floor then floor else Quot(limit, ratio)
  }

  function RequestsFromLimits(t: Tier, limits: Amounts): Amounts
    requires t.cpu >= 1 && t.mem >= 1
  {
    Amounts(Request(limits.cpu, t.cpu, MIN_CPU), Request(limits.mem, t.mem, MIN_MEM))
  }

  function LimitedResources(t: Tier, limits: Amounts): Requirements
    requires t.cpu >= 1 && t.mem >= 1
  {
    Requirements(RequestsFromLimits(t, limits), limits)
  }

  // ------------------------------------------------------------------- one container

  lemma QuotBounds(a: int, b: int)
    requires b >= 1
    ensures a >= 0 ==> b * Quot(a, b) <= a <= b * Quot(a, b) + b - 1 && 0 <= Quot(a, b) <= a
    ensures a < 0 ==> Quot(a, b) <= 0
  {
  }

  /** A container's requests are within its limits exactly when the limits reach
      the floors, 1m of CPU and 4Mi of memory; and they are never zero. */
  lemma RequestsWithinLimits(t: Tier, limits: Amounts)
    requires t.cpu >= 1 && t.mem >= 1
    ensures var r := LimitedResources(t, limits);
            r.requests.cpu >= 1 && r.requests.mem >= MIN_MEM &&
            (r.requests.cpu <= r.limits.cpu && r.requests.mem <= r.limits.mem <==>
             limits.cpu >= 1 && limits.mem >= MIN_MEM)
  {
    QuotBounds(limits.cpu, t.cpu);
    QuotBounds(limits.mem, t.mem);
  }

  /** What a request means: the ratio of its own resource times the request is the
      limit, rounded down, down to the floors of 1m and 4Mi. */
  lemma RequestsByRatio(t: Tier, limits: Amounts)
    requires t.cpu >= 1 && t.mem >= 1
    ensures LimitedResources(t, limits).limits == limits
    ensures var cpu := LimitedResources(t, limits).requests.cpu;
            if limits.cpu >= t.cpu then t.cpu * cpu <= limits.cpu < t.cpu * (cpu + 1) else cpu == 1
    ensures var mem := LimitedResources(t, limits).requests.mem;
            if limits.mem >= t.mem * 4194304 then t.mem * mem <= limits.mem < t.mem * (mem + 1) else mem == 4194304
  {
    hide Quot;
    QuotFits(limits.cpu, t.cpu, 1);
    QuotFits(limits.mem, t.mem, 4194304);
  }

  lemma QuotFits(a: int, b: int, floor: int)
    requires b >= 1 && floor >= 1
    ensures a >= b * floor <==> Quot(a, b) >= floor
    ensures a >= b * floor ==> b * Quot(a, b) <= a < b * (Quot(a, b) + 1)
  {
    QuotBounds(a, b);
    Distributes(b, Quot(a, b), 1);
    if Quot(a, b) >= floor {
      Scaled(floor, Quot(a, b), b);
    } else {
      Scaled(Quot(a, b) + 1, floor, b);
    }
    Scaled(1, floor, b);
  }

  /** The pools: CPU is overcommitted up to fifteen times, memory at most twice. */
  lemma TierRatios(name: string)
    ensures var t := ResolveTier(name);
            if name == "prod" then t.cpu == 7 && t.mem == 2
            else if name == "build" then t.cpu == 2 && t.mem == 2
            else if name == "enterprise" then t.cpu == 1 && t.mem == 1
            else t.cpu == 15 && t.mem == 2
  {
  }

  // ------------------------------------------------------------------ many containers

  function Sum(ns: seq<int>): int {
    if ns == [] then 0 else Sum(ns[..|ns| - 1]) + ns[|ns| - 1]
  }

  function SumRequests(limits: seq<int>, ratio: int, floor: int): int
    requires ratio >= 1
  {
    if limits == [] then 0
    else SumRequests(limits[..|limits| - 1], ratio, floor) + Request(limits[|limits| - 1], ratio, floor)
  }

  lemma LimitBelow(limit: int, ratio: int, floor: int)
    requires ratio >= 1 && floor >= 0
    ensures limit <= ratio * Request(limit, ratio, floor) + ratio - 1
  {
    QuotBounds(limit, ratio);
    Scaled(Quot(limit, ratio), Request(limit, ratio, floor), ratio);
    Scaled(0, Request(limit, ratio, floor), ratio);
  }

  lemma Distributes(r: int, a: int, b: int)
    ensures r * (a + b) == r * a + r * b
  {
  }

  lemma {:induction false} LimitsBelow(limits: seq<int>, ratio: int, floor: int)
    requires ratio >= 1 && floor >= 0
    ensures Sum(limits) <= ratio * SumRequests(limits, ratio, floor) + |limits| * (ratio - 1)
  {
    hide Request;
    if limits != [] {
      var n, last := |limits| - 1, limits[|limits| - 1];
      LimitsBelow(limits[..n], ratio, floor);
      LimitBelow(last, ratio, floor);
      Distributes(ratio, SumRequests(limits[..n], ratio, floor), Request(last, ratio, floor));
      OneMore(n, ratio - 1);
    }
  }

  lemma Scaled(a: int, b: int, r: int)
    requires a <= b && r >= 0
    ensures r * a <= r * b
  {
  }

  /** What a node admits: if the requests of n containers fit, their limits exceed
      the ratio's worth by less than one ratio each. */
  lemma AdmittedLimits(limits: seq<int>, ratio: int, floor: int, allocatable: int)
    requires ratio >= 1 && floor >= 0 && SumRequests(limits, ratio, floor) <= allocatable
    ensures Sum(limits) <= ratio * allocatable + |limits| * (ratio - 1)
  {
    LimitsBelow(limits, ratio, floor);
    Scaled(SumRequests(limits, ratio, floor), allocatable, ratio);
  }

  function Copies(x: int, n: nat): seq<int> { seq(n, i => x) }

  lemma {:induction false} SumOfCopies(x: int, n: nat, ratio: int, floor: int)
    requires ratio >= 1
    ensures Sum(Copies(x, n)) == n * x && SumRequests(Copies(x, n), ratio, floor) == n * Request(x, ratio, floor)
  {
    if n > 0 {
      SumOfCopies(x, n - 1, ratio, floor);
      assert Copies(x, n)[..n - 1] == Copies(x, n - 1);
      OneMore(n - 1, x);
      OneMore(n - 1, Request(x, ratio, floor));
    }
  }

  lemma OneMore(n: nat, x: int)
    ensures (n + 1) * x == n * x + x
  {
  }

  /** The bound is tight, for any number of containers and any ratio. */
  lemma BoundIsTight(n: nat, ratio: int, floor: int, share: int)
    requires ratio >= 1 && 0 <= floor <= share
    ensures var limits := Copies(ratio * share + ratio - 1, n);
            SumRequests(limits, ratio, floor) == n * share &&
            Sum(limits) == ratio * (n * share) + n * (ratio - 1)
  {
    Quotient(ratio, share);
    SumOfCopies(ratio * share + ratio - 1, n, ratio, floor);
    Spread(n, ratio, share, ratio - 1);
  }

  lemma Spread(n: int, r: int, s: int, t: int)
    ensures n * (r * s + t) == r * (n * s) + n * t
  {
    assert n * (r * s + t) == n * (r * s) + n * t;
    assert n * (r * s) == (n * r) * s;
    assert r * (n * s) == (r * n) * s;
  }

  lemma Quotient(ratio: int, share: int)
    requires ratio >= 1 && share >= 0
    ensures ratio * share + ratio - 1 >= 0 && Quot(ratio * share + ratio - 1, ratio) == share
  {
    var a := ratio * share + ratio - 1;
    Scaled(0, share, ratio);
    QuotBounds(a, ratio);
    var q := a / ratio;
    if q < share {
      Scaled(q + 1, share, ratio);
    } else if q > share {
      Scaled(share + 1, q, ratio);
    }
  }

  /** No floor comes into play. */
  predicate AboveFloor(limits: seq<int>, ratio: int, floor: int)
    requires ratio >= 1
  {
    forall i | 0 <= i < |limits| :: limits[i] >= 0 && Quot(limits[i], ratio) >= floor
  }

  lemma {:induction false} RequestsBelow(limits: seq<int>, ratio: int, floor: int)
    requires ratio >= 1 && AboveFloor(limits, ratio, floor)
    ensures ratio * SumRequests(limits, ratio, floor) <= Sum(limits)
  {
    if limits != [] {
      var last := limits[|limits| - 1];
      RequestsBelow(limits[..|limits| - 1], ratio, floor);
      QuotBounds(last, ratio);
      var q := SumRequests(limits[..|limits| - 1], ratio, floor);
      Distributes(ratio, q, Request(last, ratio, floor));
    }
  }

  /** The other way round needs the floors to stay out of play. */
  lemma LimitsAdmitted(limits: seq<int>, ratio: int, floor: int, allocatable: int)
    requires ratio >= 1 && AboveFloor(limits, ratio, floor) && Sum(limits) <= ratio * allocatable
    ensures SumRequests(limits, ratio, floor) <= allocatable
  {
    RequestsBelow(limits, ratio, floor);
    ScaledBack(SumRequests(limits, ratio, floor), allocatable, ratio);
  }

  lemma ScaledBack(a: int, b: int, r: int)
    requires r >= 1
    ensures a <= b <==> r * a <= r * b
  {
    if a <= b {
      Scaled(a, b, r);
    } else {
      Scaled(b + 1, a, r);
      Distributes(r, b, 1);
    }
  }

  // -------------------------------------------------------------------------- a node

  /** What containers with these limits ask of a node, and may use of it. */
  function Reserved(t: Tier, limits: seq<Amounts>): Amounts
    requires t.cpu >= 1 && t.mem >= 1
  {
    if limits == [] then Amounts(0, 0)
    else
      var before, one := Reserved(t, limits[..|limits| - 1]), LimitedResources(t, limits[|limits| - 1]).requests;
      Amounts(before.cpu + one.cpu, before.mem + one.mem)
  }

  function Ceiling(t: Tier, limits: seq<Amounts>): Amounts
    requires t.cpu >= 1 && t.mem >= 1
  {
    if limits == [] then Amounts(0, 0)
    else
      var before, one := Ceiling(t, limits[..|limits| - 1]), LimitedResources(t, limits[|limits| - 1]).limits;
      Amounts(before.cpu + one.cpu, before.mem + one.mem)
  }

  function Cpus(limits: seq<Amounts>): seq<int> { seq(|limits|, i requires 0 <= i < |limits| => limits[i].cpu) }

  function Mems(limits: seq<Amounts>): seq<int> { seq(|limits|, i requires 0 <= i < |limits| => limits[i].mem) }

  lemma {:induction false} NodeTotals(t: Tier, limits: seq<Amounts>)
    requires t.cpu >= 1 && t.mem >= 1
    ensures Reserved(t, limits) ==
            Amounts(SumRequests(Cpus(limits), t.cpu, MIN_CPU), SumRequests(Mems(limits), t.mem, MIN_MEM))
    ensures Ceiling(t, limits) == Amounts(Sum(Cpus(limits)), Sum(Mems(limits)))
  {
    if limits != [] {
      var n := |limits| - 1;
      NodeTotals(t, limits[..n]);
      assert Cpus(limits)[..n] == Cpus(limits[..n]) && Mems(limits)[..n] == Mems(limits[..n]);
    }
  }

  /** What the scheduler admits to a node of a pool keeps both resources within their
      ratio's worth, but for less than one ratio each container. */
  lemma NodeAdmits(t: Tier, limits: seq<Amounts>, node: Amounts)
    requires t.cpu >= 1 && t.mem >= 1
    requires Reserved(t, limits).cpu <= node.cpu && Reserved(t, limits).mem <= node.mem
    ensures Ceiling(t, limits).cpu <= t.cpu * node.cpu + |limits| * (t.cpu - 1)
    ensures Ceiling(t, limits).mem <= t.mem * node.mem + |limits| * (t.mem - 1)
  {
    NodeTotals(t, limits);
    AdmittedLimits(Cpus(limits), t.cpu, MIN_CPU, node.cpu);
    AdmittedLimits(Mems(limits), t.mem, MIN_MEM, node.mem);
  }

  /** And containers within that worth are admitted, when no floor comes into play. */
  lemma NodeHasRoom(t: Tier, limits: seq<Amounts>, node: Amounts)
    requires t.cpu >= 1 && t.mem >= 1
    requires forall i | 0 <= i < |limits| :: limits[i].cpu >= t.cpu && limits[i].mem >= t.mem * 4194304
    requires Ceiling(t, limits).cpu <= t.cpu * node.cpu && Ceiling(t, limits).mem <= t.mem * node.mem
    ensures Reserved(t, limits).cpu <= node.cpu && Reserved(t, limits).mem <= node.mem
  {
    hide Quot;
    NodeTotals(t, limits);
    forall i | 0 <= i < |limits|
      ensures Quot(limits[i].cpu, t.cpu) >= MIN_CPU && Quot(limits[i].mem, t.mem) >= MIN_MEM && limits[i].mem >= 0
    {
      QuotFits(limits[i].cpu, t.cpu, 1);
      QuotFits(limits[i].mem, t.mem, 4194304);
      Scaled(1, 4194304, t.mem);
    }
    LimitsAdmitted(Cpus(limits), t.cpu, MIN_CPU, node.cpu);
    LimitsAdmitted(Mems(limits), t.mem, MIN_MEM, node.mem);
  }

  /** Requests fit a node of that size exactly when limits fit its overcommitted
      size, as the source's comment has it. */
  predicate RatioExact(limits: seq<int>, ratio: int, floor: int, allocatable: int)
    requires ratio >= 1
  {
    SumRequests(limits, ratio, floor) <= allocatable <==> Sum(limits) <= ratio * allocatable
  }

  /** What the floor adds to a limit, and what rounding down drops from it. */
  function Padding(limit: int, ratio: int, floor: int): int
    requires ratio >= 1
  {
    if Quot(limit, ratio) < floor then ratio * floor - limit else 0
  }

  function Dropped(limit: int, ratio: int, floor: int): int
    requires ratio >= 1
  {
    if Quot(limit, ratio) < floor then 0 else limit - ratio * Quot(limit, ratio)
  }

  /** All that the floors add less all that rounding drops. */
  function Excess(limits: seq<int>, ratio: int, floor: int): int
    requires ratio >= 1
  {
    if limits == [] then 0
    else
      var last := limits[|limits| - 1];
      Excess(limits[..|limits| - 1], ratio, floor) + Padding(last, ratio, floor) - Dropped(last, ratio, floor)
  }

  lemma {:induction false} ExcessIs(limits: seq<int>, ratio: int, floor: int)
    requires ratio >= 1
    ensures ratio * SumRequests(limits, ratio, floor) == Sum(limits) + Excess(limits, ratio, floor)
  {
    hide Quot;
    if limits != [] {
      var before, last := limits[..|limits| - 1], limits[|limits| - 1];
      ExcessIs(before, ratio, floor);
      Distributes(ratio, SumRequests(before, ratio, floor), Request(last, ratio, floor));
    }
  }

  /** The equivalence holds for nodes of every size if and only if what the floors
      add makes up for what rounding drops, by less than one ratio. */
  lemma WhenRatioIsExact(limits: seq<int>, ratio: int, floor: int)
    requires ratio >= 1
    ensures (forall a: int :: RatioExact(limits, ratio, floor, a)) <==> 0 <= Excess(limits, ratio, floor) < ratio
  {
    hide Sum, SumRequests, Excess;
    var q, l := SumRequests(limits, ratio, floor), Sum(limits);
    ExcessIs(limits, ratio, floor);
    Distributes(ratio, q, -1);
    if forall a: int :: RatioExact(limits, ratio, floor, a) {
      assert RatioExact(limits, ratio, floor, q);
      assert RatioExact(limits, ratio, floor, q - 1);
    }
    if ratio * (q - 1) < l <= ratio * q {
      forall a: int ensures RatioExact(limits, ratio, floor, a) {
        if q <= a {
          Scaled(q, a, ratio);
        } else {
          Scaled(a, q - 1, ratio);
        }
      }
    }
  }

  /** With no floor in play: if and only if every limit is a multiple of the ratio. */
  lemma RatioExactForMultiples(limits: seq<int>, ratio: int, floor: int)
    requires ratio >= 1 && AboveFloor(limits, ratio, floor)
    ensures (forall a: int :: RatioExact(limits, ratio, floor, a)) <==>
      forall i | 0 <= i < |limits| :: limits[i] % ratio == 0
  {
    hide RatioExact;
    WhenRatioIsExact(limits, ratio, floor);
    NothingAdded(limits, ratio, floor);
  }

  lemma {:induction false} NothingAdded(limits: seq<int>, ratio: int, floor: int)
    requires ratio >= 1 && AboveFloor(limits, ratio, floor)
    ensures Excess(limits, ratio, floor) <= 0
    ensures Excess(limits, ratio, floor) == 0 <==> forall i | 0 <= i < |limits| :: limits[i] % ratio == 0
  {
    if limits != [] {
      var before, last := limits[..|limits| - 1], limits[|limits| - 1];
      NothingAdded(before, ratio, floor);
      assert last == ratio * (last / ratio) + last % ratio;
      assert forall i | 0 <= i < |before| :: before[i] == limits[i];
    }
  }

  /** It fails both ways on the dev tier: 29m of limits fit where 15m should, and
      two limits of 1m do not fit where 15m should. */
  lemma RatioIsNotExact()
    ensures var dev := ResolveTier("dev").cpu;
            SumRequests([29], dev, MIN_CPU) <= 1 && !(Sum([29]) <= dev * 1)
    ensures var dev := ResolveTier("dev").cpu;
            Sum([1, 1]) <= dev * 1 && !(SumRequests([1, 1], dev, MIN_CPU) <= 1)
  {
    assert [29][..0] == [] && [1, 1][..1] == [1] && [1][..0] == [];
    assert Sum([1]) == 1 && SumRequests([1], 15, MIN_CPU) == 1;
  }
}
