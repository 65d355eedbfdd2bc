/** Quote and stock routes: what planning a route list emits, and exactly when the planned batch can be executed. */
module Routes {
  import opened Chain
  import opened Planning

  /** One line of the route file. On BNB the pool has no fee tier and `tier` is 0. */
  datatype RouteInput = RouteInput(token: Address, feed: Address, pool: Address, tier: nat)

  datatype Policy = Policy(floor: nat, slippage: nat, oracleDeviation: nat, priceImpact: nat, graduationDeviation: nat)

  /** Where routes go: the adapter, and the creator vault unless it is absent (zero). */
  datatype Target = Target(adapter: Address, vault: Address, robinhood: bool)

  datatype Planned = PolicyRefused | FactsRefused(route: RouteInput) | Batch(calls: seq<Call>)

  function RouteStruct(r: RouteInput, policy: Policy): Route {
    Route(r.feed, r.pool, r.tier, policy.floor, policy.slippage, policy.oracleDeviation, policy.priceImpact,
          policy.graduationDeviation, true)
  }

  /** stockRouteViolations and quotePolicyViolations find nothing. */
  predicate PolicyAllowed(t: Target, r: RouteInput, policy: Policy) {
    PolicyFits(t.robinhood, RouteStruct(r, policy)) && 0 < policy.slippage
  }

  /** verifyRouteFacts: the route's facts, read again from the chain. */
  predicate FactsHold(w: World, t: Target, r: RouteInput) {
    && r.token != AccountAt(w, Wrapped(t.adapter))
    && FlagAt(w, Code(r.token)) && FlagAt(w, Code(r.feed))
    && FlagAt(w, Healthy(t.adapter, r.token))
    && AccountAt(w, CanonicalPool(r.token, r.tier)) != ZERO
    && AccountAt(w, CanonicalPool(r.token, r.tier)) == r.pool
  }

  function CallsFor(t: Target, r: RouteInput, policy: Policy): seq<Call> {
    [ConfigureRoute(t.adapter, r.token, RouteStruct(r, policy))]
    + if t.vault == ZERO then [] else [SetQuoteRoute(t.vault, r.token, r.tier)]
  }

  function RouteCalls(t: Target, routes: seq<RouteInput>, policy: Policy): seq<Call> {
    if routes == [] then [] else CallsFor(t, routes[0], policy) + RouteCalls(t, routes[1..], policy)
  }

  predicate AllAllowed(t: Target, routes: seq<RouteInput>, policy: Policy) {
    forall r :: r in routes ==> PolicyAllowed(t, r, policy)
  }

  /** The plan, route by route, up to the first one whose facts do not hold. */
  function PlanFacts(w: World, t: Target, routes: seq<RouteInput>, policy: Policy): Planned {
    if routes == [] then Batch([])
    else if !FactsHold(w, t, routes[0]) then FactsRefused(routes[0])
    else
      match PlanFacts(w, t, routes[1..], policy)
      case Batch(rest) => Batch(Missing(SameGuard, w, CallsFor(t, routes[0], policy)) + rest)
      case refusal => refusal
  }

  /** assertPolicyFitsQuoteAdapter: on BNB the policy is looked at by itself, even for no routes at all. */
  predicate QuotePolicyAllowed(policy: Policy) {
    0 < policy.slippage <= MAX_LIMIT_BPS && policy.oracleDeviation <= MAX_LIMIT_BPS
      && policy.priceImpact <= MAX_LIMIT_BPS
    && policy.graduationDeviation <= MAX_LIMIT_BPS && 0 < policy.floor
  }

  predicate PolicyPasses(t: Target, routes: seq<RouteInput>, policy: Policy) {
    (t.robinhood || QuotePolicyAllowed(policy)) && AllAllowed(t, routes, policy)
  }

  function PlanRoutes(w: World, t: Target, routes: seq<RouteInput>, policy: Policy): Planned {
    if PolicyPasses(t, routes, policy) then PlanFacts(w, t, routes, policy) else PolicyRefused
  }

  /** planRoutes of both route scripts. */
  method PlanRouteList(net: Network, t: Target, routes: seq<RouteInput>, policy: Policy) returns (planned: Planned)
    ensures planned == PlanRoutes(net.world, t, routes, policy)
  {
    if !PolicyPasses(t, routes, policy) { return PolicyRefused; }
    var w := net.world;
    var calls: seq<Call> := [];
    for i := 0 to |routes|
      invariant PlanFacts(w, t, routes, policy) == Prepend(calls, PlanFacts(w, t, routes[i..], policy))
    {
      var r := routes[i];
      if !FactsHold(w, t, r) { return FactsRefused(r); }
      ghost var rest := PlanFacts(w, t, routes[i + 1..], policy);
      assert routes[i..][1..] == routes[i + 1..];
      ghost var before := calls;
      var want := RouteStruct(r, policy);
      if RouteAt(w, t.adapter, r.token) != want {
        calls := calls + [ConfigureRoute(t.adapter, r.token, want)];
      }
      if t.vault != ZERO {
        if AccountAt(w, QuotePool(t.vault, r.token)) != AccountAt(w, CanonicalPool(r.token, r.tier)) {
          calls := calls + [SetQuoteRoute(t.vault, r.token, r.tier)];
        }
      }
      MissingForRoute(w, t, r, policy);
      assert calls == before + Missing(SameGuard, w, CallsFor(t, r, policy));
      PrependTwice(before, Missing(SameGuard, w, CallsFor(t, r, policy)), rest);
    }
    return Batch(calls);
  }

  lemma MissingForRoute(w: World, t: Target, r: RouteInput, policy: Policy)
    ensures var want := RouteStruct(r, policy);
            Missing(SameGuard, w, CallsFor(t, r, policy)) ==
            (if RouteAt(w, t.adapter, r.token) != want then [ConfigureRoute(t.adapter, r.token, want)] else [])
            + (if t.vault != ZERO
               && AccountAt(w, QuotePool(t.vault, r.token)) != AccountAt(w, CanonicalPool(r.token, r.tier))
               then [SetQuoteRoute(t.vault, r.token, r.tier)] else [])
  {
    var calls := CallsFor(t, r, policy);
    MissingConcat(SameGuard, w, calls[..1], calls[1..]);
    assert calls == calls[..1] + calls[1..];
  }

  function Prepend(calls: seq<Call>, planned: Planned): Planned {
    match planned
    case Batch(rest) => Batch(calls + rest)
    case refusal => refusal
  }

  lemma PrependTwice(xs: seq<Call>, ys: seq<Call>, planned: Planned)
    ensures Prepend(xs, Prepend(ys, planned)) == Prepend(xs + ys, planned)
  {
    if planned.Batch? {
      assert xs + (ys + planned.calls) == xs + ys + planned.calls;
    }
  }

  // ------------------------------------------------------------------ the plan as a filter

  predicate DistinctTokens(routes: seq<RouteInput>) {
    forall i, j :: 0 <= i < j < |routes| ==> routes[i].token != routes[j].token
  }

  lemma {:induction false} PlanIsMissing(w: World, t: Target, routes: seq<RouteInput>, policy: Policy)
    ensures PlanFacts(w, t, routes, policy).Batch? <==> forall r :: r in routes ==> FactsHold(w, t, r)
    ensures PlanFacts(w, t, routes, policy).Batch? ==>
              PlanFacts(w, t, routes, policy).calls == Missing(SameGuard, w, RouteCalls(t, routes, policy))
    ensures !PlanFacts(w, t, routes, policy).PolicyRefused?
  {
    if routes != [] {
      PlanIsMissing(w, t, routes[1..], policy);
      MissingConcat(SameGuard, w, CallsFor(t, routes[0], policy), RouteCalls(t, routes[1..], policy));
    }
  }

  lemma {:induction false} RouteMembers(t: Target, routes: seq<RouteInput>, policy: Policy, c: Call)
    ensures c in RouteCalls(t, routes, policy) <==> exists r :: r in routes && c in CallsFor(t, r, policy)
  {
    if routes != [] {
      RouteMembers(t, routes[1..], policy, c);
    }
  }

  lemma {:induction false} RouteCallsWellFormed(t: Target, routes: seq<RouteInput>, policy: Policy)
    requires DistinctTokens(routes)
    ensures WellFormed(RouteCalls(t, routes, policy))
  {
    if routes != [] {
      RouteCallsWellFormed(t, routes[1..], policy);
      forall x, y | x in CallsFor(t, routes[0], policy) && y in RouteCalls(t, routes[1..], policy)
        ensures SlotOf(x) != SlotOf(y)
      {
        RouteMembers(t, routes[1..], policy, y);
      }
      WellFormedConcat(CallsFor(t, routes[0], policy), RouteCalls(t, routes[1..], policy));
    }
  }

  // ------------------------------------------------------------------ when the planned batch works

  /** Both contracts belong to the sender, the adapter is of the planned kind, and pools are contracts. */
  predicate Sendable(w: World, who: Address, t: Target, routes: seq<RouteInput>) {
    && AccountAt(w, Owner(t.adapter)) == who && (t.vault != ZERO ==> AccountAt(w, Owner(t.vault)) == who)
    && (t.robinhood <==> FlagAt(w, OnRobinhood(t.adapter)))
    && AccountAt(w, Wrapped(t.vault)) == AccountAt(w, Wrapped(t.adapter))
    && forall r :: r in routes ==> r.token != ZERO && r.feed != ZERO && FlagAt(w, Code(r.pool))
  }

  /**
   The route stored for the token is identical; or it is unset or no tighter than the wanted one anywhere, the token has
   no more decimals than the adapter takes, and the adapter's own oracles answer if it asks them. The script looks at
   neither of the last two: its facts name the route's own feed only.
   */
  predicate Reachable(w: World, t: Target, r: RouteInput, policy: Policy) {
    var have := RouteAt(w, t.adapter, r.token);
    have == RouteStruct(r, policy)
    || ((have.feed == ZERO || Tightens(have, RouteStruct(r, policy)))
        && !(t.robinhood && FlagAt(w, TooPrecise(r.token)))
        && (t.robinhood || !have.enabled ==> FlagAt(w, OraclesAnswer(t.adapter, r.token))))
  }

  lemma RouteVerdict(w: World, who: Address, t: Target, routes: seq<RouteInput>, policy: Policy, r: RouteInput, c: Call)
    requires Sendable(w, who, t, routes) && r in routes && PolicyAllowed(t, r, policy) && FactsHold(w, t, r)
    requires c in CallsFor(t, r, policy) && !IsDone(SameGuard, w, c)
    ensures c.ConfigureRoute? ==> (Accepts(w, who, c) <==> Reachable(w, t, r, policy))
    ensures c.SetQuoteRoute? ==> Accepts(w, who, c)
  {
  }

  /**
   The adapters let a stored route only be tightened. So the planned batch passes its simulation, and executes, exactly
   when no listed token has a stored route with another feed, pool or tier, or a stricter limit.
   */
  lemma PlanExecutable(w: World, who: Address, t: Target, routes: seq<RouteInput>, policy: Policy)
    requires DistinctTokens(routes) && Sendable(w, who, t, routes)
    requires PlanRoutes(w, t, routes, policy).Batch?
    ensures ExecAll(w, who, PlanRoutes(w, t, routes, policy).calls).Done? <==>
            forall r :: r in routes ==> Reachable(w, t, r, policy)
  {
    var all := RouteCalls(t, routes, policy);
    var plan := PlanRoutes(w, t, routes, policy).calls;
    PlanIsMissing(w, t, routes, policy);
    RouteCallsWellFormed(t, routes, policy);
    MissingDistinct(SameGuard, w, all);
    if forall r :: r in routes ==> Reachable(w, t, r, policy) {
      forall i | 0 <= i < |plan| ensures Accepts(w, who, plan[i]) {
        ReachableAccepted(w, who, t, routes, policy, plan[i]);
      }
      SimulationSound(w, who, plan);
    } else {
      var r :| r in routes && !Reachable(w, t, r, policy);
      UnreachableRefused(w, who, t, routes, policy, r, plan);
      if ExecAll(w, who, plan).Done? {
        SimulationComplete(w, who, plan);
      }
    }
  }

  lemma ReachableAccepted(w: World, who: Address, t: Target, routes: seq<RouteInput>, policy: Policy, c: Call)
    requires DistinctTokens(routes) && Sendable(w, who, t, routes)
    requires forall r :: r in routes ==> Reachable(w, t, r, policy) && PolicyAllowed(t, r, policy) && FactsHold(w, t, r)
    requires c in Missing(SameGuard, w, RouteCalls(t, routes, policy))
    ensures Accepts(w, who, c)
  {
    MissingMembers(SameGuard, w, RouteCalls(t, routes, policy), c);
    RouteMembers(t, routes, policy, c);
    var r :| r in routes && c in CallsFor(t, r, policy);
    RouteVerdict(w, who, t, routes, policy, r, c);
  }

  lemma UnreachableRefused(w: World, who: Address, t: Target, routes: seq<RouteInput>, policy: Policy, r: RouteInput,
                           plan: seq<Call>)
    requires DistinctTokens(routes) && Sendable(w, who, t, routes)
    requires r in routes && !Reachable(w, t, r, policy) && PolicyAllowed(t, r, policy) && FactsHold(w, t, r)
    requires plan == Missing(SameGuard, w, RouteCalls(t, routes, policy))
    ensures !Simulated(w, who, plan)
  {
    var c := ConfigureRoute(t.adapter, r.token, RouteStruct(r, policy));
    assert c in CallsFor(t, r, policy);
    RouteMembers(t, routes, policy, c);
    MissingMembers(SameGuard, w, RouteCalls(t, routes, policy), c);
    RouteVerdict(w, who, t, routes, policy, r, c);
    var i :| 0 <= i < |plan| && plan[i] == c;
    assert !Dependent(plan, i);
  }

  /** A stored limit of 20 bps is not loosened to 50: the script plans the call, the adapter refuses it, for good. */
  lemma LooseningNeverConverges()
    ensures exists w: World, t: Target, routes: seq<RouteInput>, policy: Policy ::
              && DistinctTokens(routes) && Sendable(w, 9, t, routes)
              && PlanRoutes(w, t, routes, policy).Batch? && PlanRoutes(w, t, routes, policy).calls != []
              && ExecAll(w, 9, PlanRoutes(w, t, routes, policy).calls) == Reverted
  {
    var have := Route(2, 3, 0, 10, 20, 0, 0, 0, true);
    var w: World := map[
      Owner(7) := Account(9), Code(1) := Flag(true), Code(2) := Flag(true), Code(3) := Flag(true),
      Healthy(7, 1) := Flag(true), CanonicalPool(1, 0) := Account(3), AdapterRoute(7, 1) := RouteValue(have)];
    var t, routes, policy := Target(7, ZERO, false), [RouteInput(1, 2, 3, 0)], Policy(10, 50, 0, 0, 0);
    var r := routes[0];
    assert r in routes && PolicyAllowed(t, r, policy) && FactsHold(w, t, r);
    assert !Reachable(w, t, r, policy);
    PlanIsMissing(w, t, routes, policy);
    PlanExecutable(w, 9, t, routes, policy);
    assert Sendable(w, 9, t, routes);
    assert ExecAll(w, 9, []).Done?;
  }

  // ------------------------------------------------------------------ convergence

  /** Adapter and vault hold exactly the wanted route. */
  predicate RouteHeld(w: World, t: Target, r: RouteInput, policy: Policy) {
    && RouteAt(w, t.adapter, r.token) == RouteStruct(r, policy)
    && (t.vault != ZERO ==> AccountAt(w, QuotePool(t.vault, r.token)) == r.pool)
  }

  /** What the facts are read from is out of the calls' reach. */
  lemma FactsKept(w: World, who: Address, t: Target, r: RouteInput, calls: seq<Call>)
    requires ExecAll(w, who, calls).Done? && FactsHold(w, t, r)
    ensures FactsHold(ExecAll(w, who, calls).world, t, r)
  {
    forall c | c in calls ensures !Fixed(SlotOf(c)) { CallsWriteNoFixedSlot(c); }
    BatchFrame(w, who, calls, Wrapped(t.adapter));
    BatchFrame(w, who, calls, Code(r.token));
    BatchFrame(w, who, calls, Code(r.feed));
    BatchFrame(w, who, calls, Healthy(t.adapter, r.token));
    BatchFrame(w, who, calls, CanonicalPool(r.token, r.tier));
  }

  lemma OtherTokenKept(w: World, who: Address, t: Target, calls: seq<Call>, token: Address)
    requires ExecAll(w, who, calls).Done?
    requires forall c :: c in calls ==>
               SlotOf(c) != AdapterRoute(t.adapter, token) && SlotOf(c) != QuotePool(t.vault, token)
    ensures var end := ExecAll(w, who, calls).world;
            RouteAt(end, t.adapter, token) == RouteAt(w, t.adapter, token)
            && AccountAt(end, QuotePool(t.vault, token)) == AccountAt(w, QuotePool(t.vault, token))
  {
    BatchFrame(w, who, calls, AdapterRoute(t.adapter, token));
    BatchFrame(w, who, calls, QuotePool(t.vault, token));
  }

  lemma HeldWhenDone(w: World, t: Target, r: RouteInput, policy: Policy)
    requires FactsHold(w, t, r)
    requires forall c :: c in CallsFor(t, r, policy) ==> IsDone(SameGuard, w, c)
    ensures RouteHeld(w, t, r, policy)
  {
    assert ConfigureRoute(t.adapter, r.token, RouteStruct(r, policy)) in CallsFor(t, r, policy);
    if t.vault != ZERO {
      assert SetQuoteRoute(t.vault, r.token, r.tier) in CallsFor(t, r, policy);
    }
  }

  /** Executed, the plan holds every listed route, touches no other token's, and a second plan is empty. */
  lemma RoutesConverge(w: World, who: Address, t: Target, routes: seq<RouteInput>, policy: Policy)
    requires DistinctTokens(routes) && Sendable(w, who, t, routes)
    requires PlanRoutes(w, t, routes, policy).Batch?
    requires forall r :: r in routes ==> Reachable(w, t, r, policy)
    ensures var end := ExecAll(w, who, PlanRoutes(w, t, routes, policy).calls);
            && end.Done?
            && (forall r :: r in routes ==> RouteHeld(end.world, t, r, policy))
            && PlanRoutes(end.world, t, routes, policy) == Batch([])
            && (forall token :: (forall r :: r in routes ==> r.token != token) ==>
                  RouteAt(end.world, t.adapter, token) == RouteAt(w, t.adapter, token)
                  && AccountAt(end.world, QuotePool(t.vault, token)) == AccountAt(w, QuotePool(t.vault, token)))
  {
    var plan := PlanRoutes(w, t, routes, policy).calls;
    PlanExecutable(w, who, t, routes, policy);
    PlanIsMissing(w, t, routes, policy);
    var end := ExecAll(w, who, plan).world;
    NothingLeft(w, who, t, routes, policy, plan, end);
    PlanIsMissing(end, t, routes, policy);
    forall token | forall r :: r in routes ==> r.token != token
      ensures RouteAt(end, t.adapter, token) == RouteAt(w, t.adapter, token)
              && AccountAt(end, QuotePool(t.vault, token)) == AccountAt(w, QuotePool(t.vault, token))
    {
      OffTheList(w, t, routes, policy, token);
      OtherTokenKept(w, who, t, plan, token);
    }
  }

  lemma OffTheList(w: World, t: Target, routes: seq<RouteInput>, policy: Policy, token: Address)
    requires forall r :: r in routes ==> r.token != token
    ensures forall c :: c in Missing(SameGuard, w, RouteCalls(t, routes, policy)) ==>
              SlotOf(c) != AdapterRoute(t.adapter, token) && SlotOf(c) != QuotePool(t.vault, token)
  {
    var all := RouteCalls(t, routes, policy);
    forall c | c in Missing(SameGuard, w, all)
      ensures SlotOf(c) != AdapterRoute(t.adapter, token) && SlotOf(c) != QuotePool(t.vault, token)
    {
      MissingMembers(SameGuard, w, all, c);
      RouteMembers(t, routes, policy, c);
    }
  }

  lemma NothingLeft(w: World, who: Address, t: Target, routes: seq<RouteInput>, policy: Policy, plan: seq<Call>,
                    end: World)
    requires DistinctTokens(routes) && forall r :: r in routes ==> FactsHold(w, t, r)
    requires plan == Missing(SameGuard, w, RouteCalls(t, routes, policy)) && ExecAll(w, who, plan) == Done(end)
    ensures Missing(SameGuard, end, RouteCalls(t, routes, policy)) == []
    ensures forall r :: r in routes ==> FactsHold(end, t, r) && RouteHeld(end, t, r, policy)
  {
    var all := RouteCalls(t, routes, policy);
    RouteCallsWellFormed(t, routes, policy);
    MissingDistinct(SameGuard, w, all);
    SimulationComplete(w, who, plan);
    Resume(SameGuard, w, who, all, |plan|);
    assert plan[..|plan|] == plan && plan[|plan|..] == [];
    forall r | r in routes ensures FactsHold(end, t, r) && RouteHeld(end, t, r, policy) {
      FactsKept(w, who, t, r, plan);
      forall c | c in CallsFor(t, r, policy) ensures IsDone(SameGuard, end, c) {
        RouteMembers(t, routes, policy, c);
        MissingMembers(SameGuard, end, all, c);
      }
      HeldWhenDone(end, t, r, policy);
    }
  }

  /** A route that is already held gets no call. */
  lemma HeldGetsNoCall(w: World, t: Target, routes: seq<RouteInput>, policy: Policy, r: RouteInput, c: Call)
    requires DistinctTokens(routes) && r in routes && RouteHeld(w, t, r, policy)
    requires PlanRoutes(w, t, routes, policy).Batch? && c in PlanRoutes(w, t, routes, policy).calls
    ensures (c.ConfigureRoute? || c.SetQuoteRoute?) && c.token != r.token
  {
    var all := RouteCalls(t, routes, policy);
    PlanIsMissing(w, t, routes, policy);
    MissingMembers(SameGuard, w, all, c);
    RouteMembers(t, routes, policy, c);
    var r' :| r' in routes && c in CallsFor(t, r', policy);
    if r'.token == r.token {
      OneRoutePerToken(routes, r, r');
      HeldCallDone(w, t, r, policy, c);
    }
  }

  lemma OneRoutePerToken(routes: seq<RouteInput>, r: RouteInput, r': RouteInput)
    requires DistinctTokens(routes) && r in routes && r' in routes && r.token == r'.token
    ensures r == r'
  {
    var i :| 0 <= i < |routes| && routes[i] == r;
    var j :| 0 <= j < |routes| && routes[j] == r';
  }

  lemma HeldCallDone(w: World, t: Target, r: RouteInput, policy: Policy, c: Call)
    requires RouteHeld(w, t, r, policy) && FactsHold(w, t, r) && c in CallsFor(t, r, policy)
    ensures IsDone(SameGuard, w, c)
  {
  }
}
