/** Pod quality-of-service classification (pkg/utils/qos.go). */
module Qos {
  import opened Common
  import opened Pods

  const CPU := "cpu"
  const MEMORY := "memory"

  datatype QosClass = BestEffort | Burstable | Guaranteed

  predicate Supported(r: string) {
    r == CPU || r == MEMORY
  }

  /** A quantity counts only when it is present and positive. */
  function Positive(list: ResourceList, r: string): nat {
    if r in list && list[r] > 0 then list[r] else 0
  }

  function Requests(c: Container): ResourceList { c.resources.requests }

  function Limits(c: Container): ResourceList { c.resources.limits }

  function TotalRequests(cs: seq<Container>, r: string): nat {
    if cs == [] then 0 else TotalRequests(cs[..|cs| - 1], r) + Positive(Requests(cs[|cs| - 1]), r)
  }

  function TotalLimits(cs: seq<Container>, r: string): nat {
    if cs == [] then 0 else TotalLimits(cs[..|cs| - 1], r) + Positive(Limits(cs[|cs| - 1]), r)
  }

  function AllContainers(p: PodSpec): seq<Container> {
    p.containers + p.initContainers
  }

  /** The container asks for nothing the classifier counts. */
  predicate AsksNothing(c: Container) {
    && Positive(Requests(c), CPU) == 0 && Positive(Requests(c), MEMORY) == 0
    && Positive(Limits(c), CPU) == 0 && Positive(Limits(c), MEMORY) == 0
  }

  predicate HasBothLimits(c: Container) {
    Positive(Limits(c), CPU) > 0 && Positive(Limits(c), MEMORY) > 0
  }

  /** What the classifier computes, stated on totals over all containers. */
  function Classify(cs: seq<Container>): QosClass {
    if forall c :: c in cs ==> AsksNothing(c) then BestEffort
    else if && (forall c :: c in cs ==> HasBothLimits(c))
            && TotalRequests(cs, CPU) == TotalLimits(cs, CPU)
            && TotalRequests(cs, MEMORY) == TotalLimits(cs, MEMORY) then Guaranteed
    else Burstable
  }

  // ---- The imperative classifier

  /** A running tally: only supported resources, only positive amounts. */
  ghost predicate Tally(m: ResourceList) {
    forall r :: r in m ==> Supported(r) && m[r] > 0
  }

  /** One pass over a container's resource list, in whatever order the map is visited. */
  method Accumulate(tally: ResourceList, list: ResourceList) returns (sum: ResourceList, found: set<string>)
    requires Tally(tally)
    ensures Tally(sum)
    ensures forall r :: Supported(r) ==> Positive(sum, r) == Positive(tally, r) + Positive(list, r)
    ensures forall r :: r in found <==> Supported(r) && Positive(list, r) > 0
  {
    sum, found := tally, {};
    var todo := list.Keys;
    while todo != {}
      invariant todo <= list.Keys
      invariant Tally(sum)
      invariant forall r :: Supported(r) ==>
                  Positive(sum, r) == Positive(tally, r) + if r in todo then 0 else Positive(list, r)
      invariant forall r :: r in found <==> Supported(r) && r !in todo && Positive(list, r) > 0
      decreases |todo|
    {
      var name :| name in todo;
      todo := todo - {name};
      if !Supported(name) {
        continue;
      }
      if list[name] > 0 {
        found := found + {name};
        if name !in sum {
          sum := sum[name := list[name]];
        } else {
          sum := sum[name := list[name] + sum[name]];
        }
      }
    }
  }

  /** The two tallies hold the totals of a list of containers. */
  ghost predicate Tallied(requests: ResourceList, limits: ResourceList, cs: seq<Container>) {
    && Tally(requests) && Tally(limits)
    && (forall r :: Supported(r) ==> Positive(requests, r) == TotalRequests(cs, r))
    && (forall r :: Supported(r) ==> Positive(limits, r) == TotalLimits(cs, r))
  }

  lemma {:induction false} TalliedNext(
    requests: ResourceList, limits: ResourceList, cs: seq<Container>, c: Container,
    requests': ResourceList, limits': ResourceList)
    requires Tallied(requests, limits, cs) && Tally(requests') && Tally(limits')
    requires forall r :: Supported(r) ==> Positive(requests', r) == Positive(requests, r) + Positive(Requests(c), r)
    requires forall r :: Supported(r) ==> Positive(limits', r) == Positive(limits, r) + Positive(Limits(c), r)
    ensures Tallied(requests', limits', cs + [c])
  {
    assert (cs + [c])[..|cs|] == cs;
  }

  /** The loop over all containers: both totals, and whether every container has both limits. */
  method TallyContainers(all: seq<Container>) returns (requests: ResourceList, limits: ResourceList, allLimited: bool)
    ensures Tallied(requests, limits, all)
    ensures allLimited <==> forall c :: c in all ==> HasBothLimits(c)
  {
    requests, limits, allLimited := map[], map[], true;
    for i := 0 to |all|
      invariant Tallied(requests, limits, all[..i])
      invariant allLimited <==> forall c :: c in all[..i] ==> HasBothLimits(c)
    {
      var requests', found := Accumulate(requests, Requests(all[i]));
      var limits', qosLimitsFound := Accumulate(limits, Limits(all[i]));
      TalliedNext(requests, limits, all[..i], all[i], requests', limits');
      requests, limits := requests', limits';
      assert all[..i + 1] == all[..i] + [all[i]];
      assert HasBothLimits(all[i]) <==> MEMORY in qosLimitsFound && CPU in qosLimitsFound;
      if !(MEMORY in qosLimitsFound && CPU in qosLimitsFound) {
        allLimited := false;
      }
    }
    assert all[..|all|] == all;
  }

  method GetPodQOS(pod: PodSpec) returns (qos: QosClass)
    ensures qos == Classify(AllContainers(pod))
  {
    var all := AllContainers(pod);
    var requests, limits, isGuaranteed := TallyContainers(all);
    EmptyTallies(requests, limits, all);
    if |requests| == 0 && |limits| == 0 {
      return BestEffort;
    }
    if isGuaranteed {
      TotalsDecide(requests, limits, all);
      var todo := requests.Keys;
      while todo != {}
        invariant todo <= requests.Keys
        invariant forall r :: r in requests && r !in todo ==> r in limits && limits[r] == requests[r]
        decreases |todo|
      {
        var name :| name in todo;
        todo := todo - {name};
        if name !in limits || limits[name] != requests[name] {
          isGuaranteed := false;
          break;
        }
      }
    }
    if isGuaranteed && |requests| == |limits| {
      return Guaranteed;
    }
    return Burstable;
  }

  lemma {:induction false} TotalsCount(cs: seq<Container>)
    ensures (forall r :: Supported(r) ==> TotalRequests(cs, r) == 0 && TotalLimits(cs, r) == 0)
            <==> forall c :: c in cs ==> AsksNothing(c)
  {
    if cs != [] {
      var front, last := cs[..|cs| - 1], cs[|cs| - 1];
      assert cs == front + [last];
      TotalsCount(front);
      assert forall c :: c in cs <==> c in front || c == last;
      if forall r :: Supported(r) ==> TotalRequests(cs, r) == 0 && TotalLimits(cs, r) == 0 {
        assert Supported(CPU) && Supported(MEMORY);
        assert TotalRequests(cs, CPU) == 0 && TotalRequests(cs, MEMORY) == 0;
        assert AsksNothing(last);
        assert forall r :: Supported(r) ==>
                 TotalRequests(front, r) <= TotalRequests(cs, r) && TotalLimits(front, r) <= TotalLimits(cs, r);
      }
      if forall c :: c in cs ==> AsksNothing(c) {
        assert AsksNothing(last);
        assert forall r :: Supported(r) ==>
                 TotalRequests(cs, r) == TotalRequests(front, r) && TotalLimits(cs, r) == TotalLimits(front, r);
      }
    }
  }

  lemma EmptyTallies(requests: ResourceList, limits: ResourceList, cs: seq<Container>)
    requires Tallied(requests, limits, cs)
    ensures |requests| == 0 && |limits| == 0 <==> forall c :: c in cs ==> AsksNothing(c)
  {
    TotalsCount(cs);
    assert |requests| == 0 <==> requests.Keys == {};
    assert |limits| == 0 <==> limits.Keys == {};
    if |requests| != 0 {
      var r :| r in requests.Keys;
      assert Supported(r) && Positive(requests, r) > 0;
    }
    if |limits| != 0 {
      var r :| r in limits.Keys;
      assert Supported(r) && Positive(limits, r) > 0;
    }
  }

  lemma TotalsDecide(requests: ResourceList, limits: ResourceList, cs: seq<Container>)
    requires Tallied(requests, limits, cs) && cs != [] && forall c :: c in cs ==> HasBothLimits(c)
    ensures (forall r :: r in requests ==> r in limits && limits[r] == requests[r]) && |requests| == |limits|
            <==> TotalRequests(cs, CPU) == TotalLimits(cs, CPU) && TotalRequests(cs, MEMORY) == TotalLimits(cs, MEMORY)
  {
    assert HasBothLimits(cs[|cs| - 1]);
    assert Supported(CPU) && Supported(MEMORY);
    assert limits.Keys == {CPU, MEMORY};
    assert requests.Keys <= {CPU, MEMORY};
    SameCount(requests.Keys, limits.Keys);
    assert |requests| == |requests.Keys| && |limits| == |limits.Keys|;
    assert Positive(requests, CPU) == TotalRequests(cs, CPU) && Positive(requests, MEMORY) == TotalRequests(cs, MEMORY);
    assert Positive(limits, CPU) == TotalLimits(cs, CPU) && Positive(limits, MEMORY) == TotalLimits(cs, MEMORY);
    if TotalRequests(cs, CPU) == TotalLimits(cs, CPU) && TotalRequests(cs, MEMORY) == TotalLimits(cs, MEMORY) {
      assert CPU in requests && MEMORY in requests;
    }
  }

  lemma SameCount(a: set<string>, b: set<string>)
    requires a <= b
    ensures |a| == |b| <==> a == b
  {
    assert |b| == |a| + |b - a| by { assert b == a + (b - a); }
  }

  // ---- What the class means

  /** The documented meaning: both limits present and each equal to its own request. */
  predicate ExactlyReserved(c: Container) {
    Reserves(c, "cpu") && Reserves(c, "memory")
  }

  predicate Reserves(c: Container, r: string) {
    && r in c.resources.limits && c.resources.limits[r] > 0
    && r in c.resources.requests && c.resources.requests[r] == c.resources.limits[r]
  }

  /** Where a limit is given, the request does not exceed it: what the API server validates of a Pod,
      which is classified before it gets there. */
  ghost predicate WithinLimits(c: Container) {
    forall r :: Supported(r) && Positive(Limits(c), r) > 0 ==> Positive(Requests(c), r) <= Positive(Limits(c), r)
  }

  /** The list has a positive amount of cpu or memory. */
  predicate Asks(list: ResourceList) {
    ("cpu" in list && list["cpu"] > 0) || ("memory" in list && list["memory"] > 0)
  }

  /** BestEffort says exactly that nobody asks for a positive amount of cpu or memory. */
  lemma BestEffortIffNothingAsked(cs: seq<Container>)
    ensures Classify(cs) == BestEffort <==>
            forall c :: c in cs ==> !Asks(c.resources.requests) && !Asks(c.resources.limits)
  {
    if forall c :: c in cs ==> !Asks(c.resources.requests) && !Asks(c.resources.limits) {
      assert forall c :: c in cs ==> AsksNothing(c);
    } else {
      var c :| c in cs && (Asks(c.resources.requests) || Asks(c.resources.limits));
      assert !AsksNothing(c);
    }
  }

  lemma {:induction false} RequestsWithinLimits(cs: seq<Container>, r: string)
    requires forall c :: c in cs ==> Positive(Requests(c), r) <= Positive(Limits(c), r)
    ensures TotalRequests(cs, r) <= TotalLimits(cs, r)
    ensures TotalRequests(cs, r) == TotalLimits(cs, r) <==>
            forall c :: c in cs ==> Positive(Requests(c), r) == Positive(Limits(c), r)
  {
    if cs != [] {
      var front, last := cs[..|cs| - 1], cs[|cs| - 1];
      assert cs == front + [last];
      RequestsWithinLimits(front, r);
    }
  }

  /** The totals agree although some container differs, which takes one request over its limit. */
  ghost predicate Masked(cs: seq<Container>) {
    && (forall c :: c in cs ==> HasBothLimits(c))
    && TotalRequests(cs, CPU) == TotalLimits(cs, CPU) && TotalRequests(cs, MEMORY) == TotalLimits(cs, MEMORY)
    && exists c :: c in cs && !WithinLimits(c)
  }

  /** On every Pod, comparing totals gives the documented answer exactly when no request over its limit
      is masked by the others. */
  lemma GuaranteedIffEachReserved(cs: seq<Container>)
    ensures (Classify(cs) == Guaranteed <==> cs != [] && forall c :: c in cs ==> ExactlyReserved(c)) <==> !Masked(cs)
    ensures Masked(cs) ==> Classify(cs) == Guaranteed
  {
    if cs == [] {
      return;
    }
    assert cs[0] in cs;
    if c :| c in cs && !HasBothLimits(c) {
      assert !ExactlyReserved(c);
    } else {
      assert HasBothLimits(cs[0]) && !AsksNothing(cs[0]);
      if forall c :: c in cs ==> WithinLimits(c) {
        assert Supported(CPU) && Supported(MEMORY);
        RequestsWithinLimits(cs, CPU);
        RequestsWithinLimits(cs, MEMORY);
      } else {
        var c :| c in cs && !WithinLimits(c);
        assert !ExactlyReserved(c);
      }
    }
  }

  /** Without that validation the totals can hide a difference: two containers whose request and
      limit mismatches cancel out are still called Guaranteed. */
  lemma TotalsCanHideMismatch(lean: Container, greedy: Container)
    requires lean.resources == Resources(map[CPU := 1, MEMORY := 1], map[CPU := 2, MEMORY := 1])
    requires greedy.resources == Resources(map[CPU := 2, MEMORY := 1], map[CPU := 1, MEMORY := 1])
    ensures Classify([lean, greedy]) == Guaranteed
    ensures !ExactlyReserved(lean) && !ExactlyReserved(greedy) && !WithinLimits(greedy)
  {
    assert CPU != MEMORY;
    assert Positive(Requests(lean), CPU) == 1 && Positive(Limits(lean), CPU) == 2;
    assert Positive(Requests(greedy), CPU) == 2 && Positive(Limits(greedy), CPU) == 1;
    assert Positive(Requests(lean), MEMORY) == Positive(Limits(lean), MEMORY) == 1;
    assert Positive(Requests(greedy), MEMORY) == Positive(Limits(greedy), MEMORY) == 1;
    TotalsOfTwo(lean, greedy, CPU);
    TotalsOfTwo(lean, greedy, MEMORY);
    assert lean in [lean, greedy] && !AsksNothing(lean);
    assert Supported(CPU) && !WithinLimits(greedy);
  }

  lemma TotalsOfTwo(a: Container, b: Container, r: string)
    ensures TotalRequests([a, b], r) == Positive(Requests(a), r) + Positive(Requests(b), r)
    ensures TotalLimits([a, b], r) == Positive(Limits(a), r) + Positive(Limits(b), r)
  {
    assert [a, b][..1] == [a] && [a][..0] == [];
    assert TotalRequests([a], r) == Positive(Requests(a), r) && TotalLimits([a], r) == Positive(Limits(a), r);
  }

  // ---- Order does not matter

  ghost function Sum(cs: multiset<Container>, f: Container -> nat): nat
    decreases |cs|
  {
    if cs == multiset{} then 0 else
    var c :| c in cs;
    f(c) + Sum(cs - multiset{c}, f)
  }

  lemma {:induction false} SumTakesAny(cs: multiset<Container>, x: Container, f: Container -> nat)
    requires x in cs
    ensures Sum(cs, f) == f(x) + Sum(cs - multiset{x}, f)
    decreases |cs|
  {
    var c :| c in cs && Sum(cs, f) == f(c) + Sum(cs - multiset{c}, f);
    if c != x {
      SumTakesAny(cs - multiset{c}, x, f);
      SumTakesAny(cs - multiset{x}, c, f);
      assert cs - multiset{c} - multiset{x} == cs - multiset{x} - multiset{c};
    }
  }

  lemma {:induction false} TotalsAreSums(cs: seq<Container>, r: string)
    ensures TotalRequests(cs, r) == Sum(multiset(cs), c => Positive(Requests(c), r))
    ensures TotalLimits(cs, r) == Sum(multiset(cs), c => Positive(Limits(c), r))
  {
    if cs != [] {
      var front, last := cs[..|cs| - 1], cs[|cs| - 1];
      assert cs == front + [last];
      TotalsAreSums(front, r);
      assert multiset(cs) - multiset{last} == multiset(front);
      SumTakesAny(multiset(cs), last, c => Positive(Requests(c), r));
      SumTakesAny(multiset(cs), last, c => Positive(Limits(c), r));
    }
  }

  /** The class depends only on which containers there are, not on their order nor on the split
      between ordinary and init containers. */
  lemma ClassifyIgnoresOrder(p: PodSpec, q: PodSpec)
    requires multiset(AllContainers(p)) == multiset(AllContainers(q))
    ensures Classify(AllContainers(p)) == Classify(AllContainers(q))
  {
    var cs, ds := AllContainers(p), AllContainers(q);
    assert forall c :: c in cs <==> c in multiset(cs);
    assert forall c :: c in ds <==> c in multiset(ds);
    TotalsAreSums(cs, CPU);
    TotalsAreSums(cs, MEMORY);
    TotalsAreSums(ds, CPU);
    TotalsAreSums(ds, MEMORY);
  }
}
