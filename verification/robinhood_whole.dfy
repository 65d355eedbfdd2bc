/** The Robinhood rollout end to end: batch A7, then batch B7, from what the deployment's constructors left on chain. */
module RobinhoodWhole {
  import opened Common
  import opened Chain
  import opened Planning
  import opened Sittings
  import opened Treasury
  import opened Generations
  import opened RobinhoodRollout

  /** Constructor arguments: the gen-7 factory pays the new router, and both vaults take fees only from that router. */
  predicate BuiltTogether(w: World, p: Pins, d: Stack, g: Generation) {
    && RouterOf(w, g.factory) == d.router
    && AccountAt(w, VaultRouter(d.vault)) == d.router && AccountAt(w, CommunityRouter(p.community)) == d.router
  }

  /** Gen-6 has its own factory, router and vault. */
  predicate ApartFrom(w: World, p: Pins, d: Stack, g: Generation) {
    p.oldFactory != g.factory && d.router != RouterOf(w, p.oldFactory) && d.vault != VaultOf(w, p.oldFactory)
  }

  predicate FreeOr(w: World, slot: Slot, factory: Address) {
    AccountAt(w, slot) == ZERO || AccountAt(w, slot) == factory
  }

  /** The adapter, when there is one, is the Safe's and bound to nothing but the factory. */
  predicate AdapterReady(w: World, safe: Address, adapter: Address, factory: Address) {
    adapter != ZERO ==> AccountAt(w, Owner(adapter)) == safe && FreeOr(w, AdapterFactory(adapter), factory)
  }

  /** A recorded action is one of batch B's own calls, and not yet done unless its repetition is refused. */
  predicate ActionReady(w: World, p: Pins, d: Stack, g: Generation, a: Call) {
    a in CandidatesB(p, d, g, KeepOperator) && (SetOnce(a) || !IsDone(ZeroGuard, w, a))
  }

  /** The gen-7 generation as deployed: built around this stack, owned by the Safe, bound to nothing else. */
  predicate B7Deployed(w: World, p: Pins, d: Stack, g: Generation, registry: Address, stock: Address) {
    && p.dex.UniswapV3? && DistinctAdapters(p, g)
    && g.factory != ZERO && FlagAt(w, Code(g.factory)) && FactoryReady(w, p, g, stock)
    && g.locker != ZERO && FlagAt(w, Code(g.locker)) && AccountAt(w, FactoryLocker(g.factory)) == g.locker
    && AccountAt(w, Owner(d.router)) == p.safe && AccountAt(w, Owner(d.vault)) == p.safe
    && AccountAt(w, Owner(registry)) == p.safe
    && (IsLocker(w, d.router, g.locker) || !AnyLocker(w, d.router)) && FreeOr(w, VaultFactory(d.vault), g.factory)
    && AdapterReady(w, p.safe, g.nativeAdapter, g.factory) && AdapterReady(w, p.safe, g.stockAdapter, g.factory)
    && forall a :: a in DataActions(g.ownerActions) ==> ActionReady(w, p, d, g, a)
  }

  predicate FactoryReady(w: World, p: Pins, g: Generation, stock: Address) {
    AccountAt(w, Owner(g.factory)) == p.safe && !FlagAt(w, HasCampaigns(g.factory)) && stock != ZERO
      && FlagAt(w, Code(stock))
  }

  // ------------------------------------------------------------------ batch A7

  /** The slots batch A7 writes. */
  predicate A7Slot(slot: Slot) {
    slot.Recruiter? || slot.Community? || slot.Protocol? || slot.Creator? || slot.BatchOperator?
      || slot.HolderDistributor?
    || slot.Operator? || slot.VaultCaps?
  }

  ghost predicate SameOffA7(w: World, t: World) {
    forall slot :: !A7Slot(slot) ==> (slot in t <==> slot in w) && (slot in w ==> t[slot] == w[slot])
  }

  lemma A7WritesItsSlots(p: Pins, d: Stack, caps: Caps, c: Call)
    requires c in BatchA7Calls(p, d, caps)
    ensures A7Slot(SlotOf(c))
  {
    A7Listed(p, d, caps);
  }

  lemma A7LeavesTheRest(w: World, p: Pins, d: Stack, caps: Caps, stops: seq<nat>, all: seq<Call>)
    requires all == BatchA7Calls(p, d, caps) && A7Deployed(w, p, d, caps) && !A7MeetsForeign(w, p, d, caps)
    ensures Runs(SameGuard, w, p.safe, all, stops).Done?
    ensures SameOffA7(w, Runs(SameGuard, w, p.safe, all, stops).world)
  {
    A7WellFormed(p, d, caps);
    A7SimulatesUnlessForeign(w, p, d, caps);
    forall c | c in all ensures A7Slot(SlotOf(c)) { A7WritesItsSlots(p, d, caps, c); }
    forall slot | !A7Slot(slot)
      ensures Runs(SameGuard, w, p.safe, all, stops).Done?
      ensures var t := Runs(SameGuard, w, p.safe, all, stops).world;
              (slot in t <==> slot in w) && (slot in w ==> t[slot] == w[slot])
    {
      RunsFrame(SameGuard, w, p.safe, all, stops, slot);
    }
    RunsFrame(SameGuard, w, p.safe, all, stops, Live(p.oldFactory));
  }

  /** What it means for A7's first four setters to hold. */
  lemma A7Reads(t: World, p: Pins, d: Stack, caps: Caps)
    requires forall c :: c in BatchA7Calls(p, d, caps) ==> Holds(t, c)
    ensures AccountAt(t, Recruiter(d.router)) == p.recruiter && AccountAt(t, Community(d.router)) == p.community
    ensures AccountAt(t, Protocol(d.router)) == p.protocol && AccountAt(t, Creator(d.router)) == d.vault
  {
    A7Listed(p, d, caps);
    var all := BatchA7Calls(p, d, caps);
    assert Holds(t, all[0]) && Holds(t, all[1]) && Holds(t, all[2]) && Holds(t, all[3]);
  }

  /** Carried through, A7 makes the new generation ready to trade, with its own vault. */
  lemma A7Serves(w: World, p: Pins, d: Stack, g: Generation, caps: Caps, stops: seq<nat>, all: seq<Call>)
    requires all == BatchA7Calls(p, d, caps) && A7Deployed(w, p, d, caps) && !A7MeetsForeign(w, p, d, caps)
    requires BuiltTogether(w, p, d, g) && ApartFrom(w, p, d, g)
    requires |Missing(SameGuard, w, all)| <= Total(stops)
    ensures var end := Runs(SameGuard, w, p.safe, all, stops);
            && end.Done? && SameOffA7(w, end.world) && Untouched(w, end.world, p.oldFactory)
            && TradeReady(end.world, g.factory) && VaultOf(end.world, g.factory) == d.vault
  {
    A7Safe(w, p, d, caps, stops, all);
    A7LeavesTheRest(w, p, d, caps, stops, all);
    var t := Runs(SameGuard, w, p.safe, all, stops).world;
    A7Reads(t, p, d, caps);
    assert !A7Slot(FeeRecipient(g.factory)) && !A7Slot(VaultRouter(d.vault)) && !A7Slot(CommunityRouter(p.community));
  }

  // ------------------------------------------------------------------ batch B7 after it

  lemma AdapterReadyKept(w: World, t: World, safe: Address, adapter: Address, factory: Address)
    requires SameOffA7(w, t) && AdapterReady(w, safe, adapter, factory)
    ensures AdapterReady(t, safe, adapter, factory)
  {
    assert !A7Slot(Owner(adapter)) && !A7Slot(AdapterFactory(adapter));
  }

  lemma ActionReadyKept(w: World, t: World, p: Pins, d: Stack, g: Generation, a: Call)
    requires p.dex.UniswapV3? && SameOffA7(w, t) && ActionReady(w, p, d, g, a)
    ensures ActionReady(t, p, d, g, a)
  {
    B7Members(p, d, g, ZERO, ZERO, a);
    assert !A7Slot(SlotOf(a));
  }

  /** A7 changes nothing that B7 asks of the deployment. */
  lemma B7DeployedKept(w: World, t: World, p: Pins, d: Stack, g: Generation, registry: Address, stock: Address)
    requires SameOffA7(w, t) && B7Deployed(w, p, d, g, registry, stock)
    ensures B7Deployed(t, p, d, g, registry, stock)
  {
    FactsKept(w, t, p, d, g, registry, stock);
    AdapterReadyKept(w, t, p.safe, g.nativeAdapter, g.factory);
    AdapterReadyKept(w, t, p.safe, g.stockAdapter, g.factory);
    forall a | a in DataActions(g.ownerActions) ensures ActionReady(t, p, d, g, a) {
      ActionReadyKept(w, t, p, d, g, a);
    }
  }

  lemma FactsKept(w: World, t: World, p: Pins, d: Stack, g: Generation, registry: Address, stock: Address)
    requires SameOffA7(w, t)
    ensures FactoryReady(t, p, g, stock) == FactoryReady(w, p, g, stock)
    ensures FlagAt(t, Code(g.factory)) == FlagAt(w, Code(g.factory))
            && FlagAt(t, Code(g.locker)) == FlagAt(w, Code(g.locker))
    ensures AccountAt(t, FactoryLocker(g.factory)) == AccountAt(w, FactoryLocker(g.factory))
    ensures AccountAt(t, Owner(d.router)) == AccountAt(w, Owner(d.router))
            && AccountAt(t, Owner(d.vault)) == AccountAt(w, Owner(d.vault))
    ensures AccountAt(t, Owner(registry)) == AccountAt(w, Owner(registry))
    ensures IsLocker(t, d.router, g.locker) == IsLocker(w, d.router, g.locker)
            && AnyLocker(t, d.router) == AnyLocker(w, d.router)
    ensures AccountAt(t, VaultFactory(d.vault)) == AccountAt(w, VaultFactory(d.vault))
  {
    assert !A7Slot(Owner(g.factory)) && !A7Slot(HasCampaigns(g.factory)) && !A7Slot(Code(stock));
    assert !A7Slot(Code(g.factory)) && !A7Slot(Code(g.locker)) && !A7Slot(FactoryLocker(g.factory));
    assert !A7Slot(Owner(d.router)) && !A7Slot(Owner(d.vault)) && !A7Slot(Owner(registry));
    assert !A7Slot(Lockers(d.router)) && !A7Slot(VaultFactory(d.vault));
  }

  lemma ActionCovered(w: World, p: Pins, d: Stack, g: Generation, a: Call)
    requires p.dex.UniswapV3? && ActionReady(w, p, d, g, a)
    ensures a in Missing(ZeroGuard, w, CandidatesB(p, d, g, KeepOperator)) || !Accepts(w, p.safe, a)
  {
    MissingMembers(ZeroGuard, w, CandidatesB(p, d, g, KeepOperator), a);
    MembersB(p, d, g, KeepOperator, a);
  }

  lemma B7Planned(w: World, p: Pins, d: Stack, g: Generation, registry: Address, stock: Address)
    requires B7Deployed(w, p, d, g, registry, stock) && RouterOf(w, g.factory) == d.router
    ensures PlanB7(w, p, d, g, registry, stock).Batch?
  {
    assert p.(dex := UniswapV3) == p;
    assert PlanAdapter(w, p.safe, g.nativeAdapter, g.factory).Batch?
      && PlanAdapter(w, p.safe, g.stockAdapter, g.factory).Batch?;
    PartsAreMissing(w, p, d, g, KeepOperator);
    var calls := PlanParts(w, p, d, g, KeepOperator).calls;
    forall a | a in DataActions(g.ownerActions) ensures a in calls || !Accepts(w, p.safe, a) {
      ActionCovered(w, p, d, g, a);
    }
    CoverageMeaning(w, p.safe, DataActions(g.ownerActions), calls);
  }

  lemma B7CallPrepared(w: World, p: Pins, d: Stack, g: Generation, registry: Address, stock: Address, c: Call)
    requires B7Deployed(w, p, d, g, registry, stock) && c in CandidatesB7(p, d, g, registry, stock)
    ensures Prepared(w, p.safe, c) && NoForeign(ZeroGuard, w, c)
  {
  }

  lemma B7LockerFirst(w: World, p: Pins, d: Stack, g: Generation, registry: Address, stock: Address, all: seq<Call>)
    requires p.dex.UniswapV3? && all == CandidatesB7(p, d, g, registry, stock)
    ensures LockerFirst(w, all)
  {
    forall j | 0 <= j < |all| && all[j].SetPrimaryLpLocker?
      ensures SetAuthorizedLpLocker(all[j].to, all[j].target) in all[..j]
    {
      OnlyPrimary(p, d, g, registry, stock, all, j);
      assert all[..j][0] == all[0];
    }
  }

  lemma OnlyPrimary(p: Pins, d: Stack, g: Generation, registry: Address, stock: Address, all: seq<Call>, j: nat)
    requires p.dex.UniswapV3? && all == CandidatesB7(p, d, g, registry, stock) && j < |all|
             && all[j].SetPrimaryLpLocker?
    ensures 0 < j && all[j] == SetPrimaryLpLocker(d.router, g.locker)
            && all[0] == SetAuthorizedLpLocker(d.router, g.locker)
  {
    assert all[0] == LockerCalls(d, g)[0];
    PrimaryOfB(p, d, g, registry, stock, all[j]);
  }

  lemma PrimaryOfB(p: Pins, d: Stack, g: Generation, registry: Address, stock: Address, c: Call)
    requires p.dex.UniswapV3? && c in CandidatesB7(p, d, g, registry, stock) && c.SetPrimaryLpLocker?
    ensures c == SetPrimaryLpLocker(d.router, g.locker)
  {
  }

  /** On a deployed generation B7 is planned without refusal and passes its simulation. */
  lemma B7Passes(w: World, p: Pins, d: Stack, g: Generation, registry: Address, stock: Address)
    requires B7Deployed(w, p, d, g, registry, stock) && RouterOf(w, g.factory) == d.router
    ensures PlanB7(w, p, d, g, registry, stock).Batch?
    ensures Simulated(w, p.safe, PlanB7(w, p, d, g, registry, stock).calls)
  {
    var all := CandidatesB7(p, d, g, registry, stock);
    B7Planned(w, p, d, g, registry, stock);
    B7Plan(w, p, d, g, registry, stock);
    B7LockerFirst(w, p, d, g, registry, stock, all);
    forall c | c in all ensures Prepared(w, p.safe, c) && NoForeign(ZeroGuard, w, c) {
      B7CallPrepared(w, p, d, g, registry, stock, c);
    }
    PreparedSimulated(ZeroGuard, w, p.safe, all);
  }

  // ------------------------------------------------------------------ batch B7 with its refusals

  /** One of B7's calls, whatever refuses to plan: it binds to the recorded locker and factory only. */
  lemma B7Binds(p: Pins, d: Stack, g: Generation, registry: Address, stock: Address, c: Call)
    requires p.dex.UniswapV3? && c in CandidatesB7(p, d, g, registry, stock)
    ensures c.SetAuthorizedLpLocker? ==> c == SetAuthorizedLpLocker(d.router, g.locker)
    ensures c.SetFactoryOnce? || c.SetCampaignFactoryOnce? || c.SetLaunchRecorder? ==> c.target == g.factory
  {
    if c in CandidatesB(p, d, g, KeepOperator) {
      MembersB(p, d, g, KeepOperator, c);
    }
  }

  /** The registry is the Safe's, or has the recorder already. */
  predicate RecorderReady(w: World, p: Pins, g: Generation, registry: Address) {
    FlagAt(w, Recorder(registry, g.factory)) || AccountAt(w, Owner(registry)) == p.safe
  }

  lemma B7PartsKept(w: World, p: Pins, d: Stack, g: Generation, registry: Address, stock: Address, c: Call)
    requires p.dex.UniswapV3? && PlanParts(w, p, d, g, KeepOperator).Batch? && RecorderReady(w, p, g, registry)
    requires c in CandidatesB7(p, d, g, registry, stock)
    ensures PlanParts(After(w, c), p, d, g, KeepOperator).Batch? && RecorderReady(After(w, c), p, g, registry)
  {
    B7Binds(p, d, g, registry, stock, c);
    FixedFrame(w, c);
    assert Fixed(FactoryLocker(g.factory)) && Fixed(FeeRecipient(g.factory)) && Fixed(Owner(registry));
    LockerPartKept(w, d, g, c);
    AdapterKept(w, p, g, g.nativeAdapter, c);
    AdapterKept(w, p, g, g.stockAdapter, c);
    if SlotOf(c) != Recorder(registry, g.factory) {
      CallFrame(w, c, Recorder(registry, g.factory));
    }
  }

  lemma {:induction false} B7PartsKeptByAll(w: World, p: Pins, d: Stack, g: Generation, registry: Address,
                                            stock: Address, calls: seq<Call>)
    requires p.dex.UniswapV3? && PlanParts(w, p, d, g, KeepOperator).Batch? && RecorderReady(w, p, g, registry)
    requires forall c :: c in calls ==> c in CandidatesB7(p, d, g, registry, stock)
    requires ExecAll(w, p.safe, calls).Done?
    ensures var t := ExecAll(w, p.safe, calls).world;
            PlanParts(t, p, d, g, KeepOperator).Batch? && RecorderReady(t, p, g, registry)
    decreases |calls|
  {
    if calls != [] {
      B7PartsKept(w, p, d, g, registry, stock, calls[0]);
      B7PartsKeptByAll(After(w, calls[0]), p, d, g, registry, stock, calls[1..]);
    }
  }

  /** Every recorded action with call data stays settled while `done` is executed. */
  predicate DataSettled(w: World, p: Pins, d: Stack, g: Generation, done: seq<Call>) {
    forall a :: a in DataActions(g.ownerActions) ==>
                  StaysSettled(a, Missing(ZeroGuard, w, CandidatesB(p, d, g, KeepOperator)), done)
  }

  /** What a plan without refusals of its parts becomes: B7, exactly if the recorded actions are covered. */
  lemma B7FromParts(t: World, p: Pins, d: Stack, g: Generation, registry: Address, stock: Address)
    requires p.dex.UniswapV3? && PlanParts(t, p, d, g, KeepOperator).Batch? && RecorderReady(t, p, g, registry)
    ensures var core := Missing(ZeroGuard, t, CandidatesB(p, d, g, KeepOperator));
            if forall a :: a in DataActions(g.ownerActions) ==> a in core || !Accepts(t, p.safe, a)
            then PlanB7(t, p, d, g, registry, stock)
                 == Batch(Missing(ZeroGuard, t, CandidatesB7(p, d, g, registry, stock)))
            else PlanB7(t, p, d, g, registry, stock).Refused?
  {
    assert p.(dex := UniswapV3) == p;
    PartsAreMissing(t, p, d, g, KeepOperator);
    CoverageMeaning(t, p.safe, DataActions(g.ownerActions), PlanParts(t, p, d, g, KeepOperator).calls);
    MissingConcat(ZeroGuard, t, CandidatesB(p, d, g, KeepOperator), SharedCalls(g, registry, stock));
  }

  /**
   Batch B7 rebuilt after k calls is the rest of it exactly if every recorded action stays settled; else it refuses.
   */
  lemma ResumeB7(w: World, p: Pins, d: Stack, g: Generation, registry: Address, stock: Address, k: nat)
    requires p.dex.UniswapV3? && DistinctAdapters(p, g) && stock != ZERO
    requires PlanB7(w, p, d, g, registry, stock).Batch?
    requires Simulated(w, p.safe, PlanB7(w, p, d, g, registry, stock).calls)
    requires k <= |PlanB7(w, p, d, g, registry, stock).calls|
    ensures var plan := PlanB7(w, p, d, g, registry, stock).calls;
            var stopped := ExecAll(w, p.safe, plan[..k]);
            && stopped.Done? && Simulated(stopped.world, p.safe, plan[k..])
            && if DataSettled(w, p, d, g, plan[..k])
               then PlanB7(stopped.world, p, d, g, registry, stock) == Batch(plan[k..])
               else PlanB7(stopped.world, p, d, g, registry, stock).Refused?
  {
    var plan, all := PlanB7(w, p, d, g, registry, stock).calls, CandidatesB7(p, d, g, registry, stock);
    var core := CandidatesB(p, d, g, KeepOperator);
    B7Plan(w, p, d, g, registry, stock);
    Resume(ZeroGuard, w, p.safe, all, k);
    var t := ExecAll(w, p.safe, plan[..k]).world;
    forall c | c in plan[..k] ensures c in all { MissingMembers(ZeroGuard, w, all, c); }
    B7Parts(w, p, d, g, registry, stock);
    B7PartsKeptByAll(w, p, d, g, registry, stock, plan[..k]);
    B7FromParts(t, p, d, g, registry, stock);
    forall a | a in DataActions(g.ownerActions)
      ensures (a in Missing(ZeroGuard, t, core) || !Accepts(t, p.safe, a))
              <==> StaysSettled(a, Missing(ZeroGuard, w, core), plan[..k])
    {
      VerdictFor(w, p.safe, core, all, k, a);
    }
  }

  /** What a planned B7 says about the chain it was planned from. */
  lemma B7Parts(w: World, p: Pins, d: Stack, g: Generation, registry: Address, stock: Address)
    requires p.dex.UniswapV3? && PlanB7(w, p, d, g, registry, stock).Batch?
    ensures PlanParts(w, p, d, g, KeepOperator).Batch? && RecorderReady(w, p, g, registry)
    ensures forall a :: a in DataActions(g.ownerActions) ==>
              a in Missing(ZeroGuard, w, CandidatesB(p, d, g, KeepOperator)) || !Accepts(w, p.safe, a)
  {
    assert p.(dex := UniswapV3) == p;
    PartsAreMissing(w, p, d, g, KeepOperator);
    CoverageMeaning(w, p.safe, DataActions(g.ownerActions), PlanParts(w, p, d, g, KeepOperator).calls);
  }

  /** Writing batch B7: plan it, simulate it, have it sent. */
  function ScriptB7(p: Pins, d: Stack, g: Generation, registry: Address, stock: Address): Planner {
    w =>
      match PlanB7(w, p, d, g, registry, stock)
      case Refused(_) => None
      case Batch(calls) => if Simulated(w, p.safe, calls) then Some(calls) else None
  }

  function SettledB7(w: World, p: Pins, d: Stack, g: Generation, plan: seq<Call>): seq<bool> {
    seq(|plan| + 1, k requires 0 <= k <= |plan| => DataSettled(w, p, d, g, plan[..k]))
  }

  lemma B7AnswerAt(w: World, p: Pins, d: Stack, g: Generation, registry: Address, stock: Address, plan: seq<Call>,
                   k: nat)
    requires p.dex.UniswapV3? && DistinctAdapters(p, g) && stock != ZERO
    requires PlanB7(w, p, d, g, registry, stock) == Batch(plan) && Simulated(w, p.safe, plan) && k <= |plan|
    ensures ScriptB7(p, d, g, registry, stock)(Point(w, p.safe, plan, k))
            == if SettledB7(w, p, d, g, plan)[k] then Some(plan[k..]) else None
  {
    ResumeB7(w, p, d, g, registry, stock, k);
  }

  lemma B7Answers(w: World, p: Pins, d: Stack, g: Generation, registry: Address, stock: Address, plan: seq<Call>)
    requires p.dex.UniswapV3? && DistinctAdapters(p, g) && stock != ZERO
    requires PlanB7(w, p, d, g, registry, stock) == Batch(plan) && Simulated(w, p.safe, plan)
    ensures ExecAll(w, p.safe, plan).Done?
    ensures Answers(ScriptB7(p, d, g, registry, stock), Points(w, p.safe, plan), plan, SettledB7(w, p, d, g, plan))
  {
    ResumeB7(w, p, d, g, registry, stock, |plan|);
    assert plan[..|plan|] == plan;
    forall k | 0 <= k <= |plan|
      ensures ScriptB7(p, d, g, registry, stock)(Points(w, p.safe, plan)[k])
              == if SettledB7(w, p, d, g, plan)[k] then Some(plan[k..]) else None
    {
      B7AnswerAt(w, p, d, g, registry, stock, plan, k);
    }
    forall j, k | 0 <= j <= k <= |plan| && SettledB7(w, p, d, g, plan)[k]
      ensures SettledB7(w, p, d, g, plan)[j]
    {
      DataSettledEarlier(w, p, d, g, plan, j, k);
    }
  }

  lemma DataSettledEarlier(w: World, p: Pins, d: Stack, g: Generation, plan: seq<Call>, j: nat, k: nat)
    requires j <= k <= |plan| && DataSettled(w, p, d, g, plan[..k])
    ensures DataSettled(w, p, d, g, plan[..j])
  {
    var planned := Missing(ZeroGuard, w, CandidatesB(p, d, g, KeepOperator));
    forall a | a in DataActions(g.ownerActions) ensures StaysSettled(a, planned, plan[..j]) {
      SettledEarlier(a, planned, plan, j, k);
    }
  }

  /**
   The sittings of B7 on a deployed generation: when they get through, and that they are then runs of the bare plan.
   */
  lemma B7Sittings(w: World, p: Pins, d: Stack, g: Generation, registry: Address, stock: Address, stops: seq<nat>)
    requires B7Deployed(w, p, d, g, registry, stock) && RouterOf(w, g.factory) == d.router && stops != []
    ensures var all := CandidatesB7(p, d, g, registry, stock);
            var plan := Missing(ZeroGuard, w, all);
            var end := InSittings(ScriptB7(p, d, g, registry, stock), w, p.safe, stops);
            && (end.Sent? <==> DataSettled(w, p, d, g, plan[..Min(BeforeLast(stops), |plan|)]))
            && (end.Sent? ==> Runs(ZeroGuard, w, p.safe, all, stops) == Done(end.world))
            && !end.Reverts? && exists k: nat :: Runs(ZeroGuard, w, p.safe, all, [k]) == Done(end.world)
  {
    var all := CandidatesB7(p, d, g, registry, stock);
    var plan := Missing(ZeroGuard, w, all);
    var script := ScriptB7(p, d, g, registry, stock);
    B7Passes(w, p, d, g, registry, stock);
    B7Plan(w, p, d, g, registry, stock);
    B7Answers(w, p, d, g, registry, stock, plan);
    SittingsAreRuns(script, ZeroGuard, w, p.safe, all, SettledB7(w, p, d, g, plan), stops);
    var k := PartWayRun(ZeroGuard, w, p.safe, all, InSittings(script, w, p.safe, stops).world);
  }

  // ------------------------------------------------------------------ the whole rollout

  /** The chain after A7 was run and interrupted at will, and then B7 over its sittings. */
  function Rollout(w: World, p: Pins, d: Stack, g: Generation, caps: Caps, registry: Address, stock: Address,
                   stopsA: seq<nat>, stopsB: seq<nat>): Ending {
    match Runs(SameGuard, w, p.safe, BatchA7Calls(p, d, caps), stopsA)
    case Reverted => Reverts
    case Done(t) => InSittings(ScriptB7(p, d, g, registry, stock), t, p.safe, stopsB)
  }

  /** The calls of B7 sent before its last sitting, on the chain A7 left. */
  function SentBeforeLast(w: World, p: Pins, d: Stack, g: Generation, registry: Address, stock: Address,
                          stops: seq<nat>): seq<Call> {
    var plan := Missing(ZeroGuard, w, CandidatesB7(p, d, g, registry, stock));
    plan[..Min(BeforeLast(stops), |plan|)]
  }

  /**
   From constructor facts only: A7 and then B7, each cut off anywhere any number of times, refusals included. Gen-6 is
   served as before throughout. B7 gets through without a refusal exactly if every recorded action stays settled up to
   its last sitting; then gen-7 trades, is ready for creates and as shut as it was deployed.
   */
  lemma RolloutServes(w: World, p: Pins, d: Stack, g: Generation, caps: Caps, registry: Address, stock: Address,
                      stopsA: seq<nat>, stopsB: seq<nat>)
    requires A7Deployed(w, p, d, caps) && !A7MeetsForeign(w, p, d, caps) && B7Deployed(w, p, d, g, registry, stock)
    requires BuiltTogether(w, p, d, g) && ApartFrom(w, p, d, g) && TradeReady(w, p.oldFactory)
    requires |BatchA7Calls(p, d, caps)| <= Total(stopsA) && |CandidatesB7(p, d, g, registry, stock)| <= Total(stopsB)
    requires stopsB != []
    ensures Runs(SameGuard, w, p.safe, BatchA7Calls(p, d, caps), stopsA).Done?
    ensures var end := Rollout(w, p, d, g, caps, registry, stock, stopsA, stopsB);
            var t := Runs(SameGuard, w, p.safe, BatchA7Calls(p, d, caps), stopsA).world;
            && !end.Reverts?
            && TradeReady(end.world, p.oldFactory)
            && (CreateReady(end.world, p.oldFactory) <==> CreateReady(w, p.oldFactory))
            && (Open(end.world, p.oldFactory) <==> Open(w, p.oldFactory))
            && (end.Sent? <==> DataSettled(t, p, d, g, SentBeforeLast(t, p, d, g, registry, stock, stopsB)))
            && (end.Sent? ==> TradeReady(end.world, g.factory) && CreateReady(end.world, g.factory)
                              && (Open(end.world, g.factory) <==> Open(w, g.factory)))
  {
    AfterA7(w, p, d, g, caps, registry, stock, stopsA);
    var t := Runs(SameGuard, w, p.safe, BatchA7Calls(p, d, caps), stopsA).world;
    B7Sittings(t, p, d, g, registry, stock, stopsB);
    var end := InSittings(ScriptB7(p, d, g, registry, stock), t, p.safe, stopsB);
    var k: nat :| Runs(ZeroGuard, t, p.safe, CandidatesB7(p, d, g, registry, stock), [k]) == Done(end.world);
    Gen6AfterB7(t, p, d, g, registry, stock, [k]);
    if end.Sent? {
      AfterB7(t, p, d, g, registry, stock, stopsB);
    }
  }

  /** With set-once actions on record, as the gen-7 deploy records them, no sitting ever refuses. */
  lemma SetOnceNeverRefuses(w: World, p: Pins, d: Stack, g: Generation, done: seq<Call>)
    requires forall a :: a in DataActions(g.ownerActions) ==> SetOnce(a)
    ensures DataSettled(w, p, d, g, done)
  {
  }

  /** Part of B7 or all of it: gen-6 is in the shape it was. */
  lemma Gen6AfterB7(t: World, p: Pins, d: Stack, g: Generation, registry: Address, stock: Address, stops: seq<nat>)
    requires B7Deployed(t, p, d, g, registry, stock) && ApartFrom(t, p, d, g) && RouterOf(t, g.factory) == d.router
    ensures var end := Runs(ZeroGuard, t, p.safe, CandidatesB7(p, d, g, registry, stock), stops);
            && end.Done?
            && (TradeReady(end.world, p.oldFactory) <==> TradeReady(t, p.oldFactory))
            && (CreateReady(end.world, p.oldFactory) <==> CreateReady(t, p.oldFactory))
            && (Open(end.world, p.oldFactory) <==> Open(t, p.oldFactory))
  {
    var all := CandidatesB7(p, d, g, registry, stock);
    B7Passes(t, p, d, g, registry, stock);
    B7Plan(t, p, d, g, registry, stock);
    B7StaysOff(t, p, d, g, registry, stock, p.oldFactory);
    RunsKeepGeneration(ZeroGuard, t, p.safe, all, stops, p.oldFactory);
    UntouchedSameShape(t, Runs(ZeroGuard, t, p.safe, all, stops).world, p.oldFactory);
  }

  lemma AfterA7(w: World, p: Pins, d: Stack, g: Generation, caps: Caps, registry: Address, stock: Address,
                stops: seq<nat>)
    requires A7Deployed(w, p, d, caps) && !A7MeetsForeign(w, p, d, caps) && B7Deployed(w, p, d, g, registry, stock)
    requires BuiltTogether(w, p, d, g) && ApartFrom(w, p, d, g) && TradeReady(w, p.oldFactory)
    requires |BatchA7Calls(p, d, caps)| <= Total(stops)
    ensures var end := Runs(SameGuard, w, p.safe, BatchA7Calls(p, d, caps), stops);
            && end.Done? && B7Deployed(end.world, p, d, g, registry, stock) && ApartFrom(end.world, p, d, g)
            && TradeReady(end.world, p.oldFactory)
            && (CreateReady(end.world, p.oldFactory) <==> CreateReady(w, p.oldFactory))
            && (Open(end.world, p.oldFactory) <==> Open(w, p.oldFactory))
            && RouterOf(end.world, g.factory) == d.router && VaultOf(end.world, g.factory) == d.vault
            && TradeReady(end.world, g.factory) && (Open(end.world, g.factory) <==> Open(w, g.factory))
  {
    var a7 := BatchA7Calls(p, d, caps);
    MissingShorter(SameGuard, w, a7);
    A7Serves(w, p, d, g, caps, stops, a7);
    var t := Runs(SameGuard, w, p.safe, a7, stops).world;
    UntouchedSameShape(w, t, p.oldFactory);
    assert !A7Slot(FeeRecipient(g.factory)) && !A7Slot(Live(g.factory)) && !A7Slot(CreatePaused(g.factory));
    B7DeployedKept(w, t, p, d, g, registry, stock);
  }

  lemma AfterB7(t: World, p: Pins, d: Stack, g: Generation, registry: Address, stock: Address, stops: seq<nat>)
    requires B7Deployed(t, p, d, g, registry, stock) && ApartFrom(t, p, d, g) && TradeReady(t, p.oldFactory)
    requires RouterOf(t, g.factory) == d.router && VaultOf(t, g.factory) == d.vault && TradeReady(t, g.factory)
    requires |CandidatesB7(p, d, g, registry, stock)| <= Total(stops)
    ensures var end := Runs(ZeroGuard, t, p.safe, CandidatesB7(p, d, g, registry, stock), stops);
            && end.Done?
            && TradeReady(end.world, p.oldFactory)
            && (CreateReady(end.world, p.oldFactory) <==> CreateReady(t, p.oldFactory))
            && (Open(end.world, p.oldFactory) <==> Open(t, p.oldFactory))
            && TradeReady(end.world, g.factory) && CreateReady(end.world, g.factory)
            && (Open(end.world, g.factory) <==> Open(t, g.factory))
  {
    var b7 := CandidatesB7(p, d, g, registry, stock);
    B7Passes(t, p, d, g, registry, stock);
    B7Plan(t, p, d, g, registry, stock);
    MissingShorter(ZeroGuard, t, b7);
    B7Serves(t, p, d, g, registry, stock, p.oldFactory, stops, b7);
    UntouchedSameShape(t, Runs(ZeroGuard, t, p.safe, b7, stops).world, p.oldFactory);
  }
}
