/** What the batches of the fees stack and of the Robinhood rollout promise. */
module RobinhoodRollout {
  import opened Chain
  import opened Planning
  import opened Treasury
  import opened Generations

  // ------------------------------------------------------------------ batch B from the chain is a plan

  /** Two adapters are two contracts. */
  predicate DistinctAdapters(p: Pins, g: Generation) {
    p.dex.UniswapV3? && g.nativeAdapter != ZERO ==> g.nativeAdapter != g.stockAdapter
  }

  lemma CandidatesBWellFormed(p: Pins, d: Stack, g: Generation, operator: NewOperator)
    requires DistinctAdapters(p, g)
    ensures WellFormed(CandidatesB(p, d, g, operator))
  {
    WellFormedConcat(LockerCalls(d, g), DexCalls(p, g));
    WellFormedConcat(LockerCalls(d, g) + DexCalls(p, g), OperatorCall(d, operator));
  }

  lemma MembersB(p: Pins, d: Stack, g: Generation, operator: NewOperator, c: Call)
    requires c in CandidatesB(p, d, g, operator)
    ensures c.SetAuthorizedLpLocker? ==> c == SetAuthorizedLpLocker(d.router, g.locker)
    ensures c.SetPrimaryLpLocker? ==> c == SetPrimaryLpLocker(d.router, g.locker)
    ensures c.SetFactoryOnce? ==> c == SetFactoryOnce(d.vault, g.factory)
    ensures c.SetCampaignFactoryOnce? ==> c.target == g.factory
    ensures c.SetLaunchRecorder? ==> c == SetLaunchRecorder(g.registry, g.factory)
    ensures SetOnce(c) ==> c.SetFactoryOnce? || c.SetCampaignFactoryOnce?
    ensures c.SetAuthorizedLpLocker? || c.SetPrimaryLpLocker? || c.SetFactoryOnce? || c.SetCampaignFactoryOnce?
            || c.SetLaunchRecorder? || c.SetOperator?
  {
  }

  lemma AdapterIsMissing(w: World, safe: Address, adapter: Address, factory: Address)
    requires PlanAdapter(w, safe, adapter, factory).Batch?
    ensures PlanAdapter(w, safe, adapter, factory).calls == Missing(ZeroGuard, w, AdapterCall(adapter, factory))
  {
  }

  /** The factory can be bound at all: it has code, and on Robinhood its locker too. */
  predicate Bindable(w: World, adapter: Address, factory: Address) {
    FlagAt(w, Code(factory))
    && (FlagAt(w, OnRobinhood(adapter)) ==>
          AccountAt(w, FactoryLocker(factory)) != ZERO && FlagAt(w, Code(AccountAt(w, FactoryLocker(factory)))))
  }

  /**
   What becomes of an adapter: a refused bind is one the contract would refuse too, with the adapter not serving the
   factory, and for a factory that can be bound at all these are the refused ones; a planned one, once executed, leaves
   the adapter bound to the factory and to nothing else.
   */
  lemma AdapterPlanSound(w: World, safe: Address, adapter: Address, factory: Address)
    requires adapter != ZERO && factory != ZERO
    ensures var planned := PlanAdapter(w, safe, adapter, factory);
            var bind := SetCampaignFactoryOnce(adapter, factory);
            && (planned.Refused? ==> !Accepts(w, safe, bind) && AccountAt(w, AdapterFactory(adapter)) != factory)
            && (Bindable(w, adapter, factory) ==>
                  (planned.Refused? <==> !Accepts(w, safe, bind) && AccountAt(w, AdapterFactory(adapter)) != factory))
            && (planned.Batch? && ExecAll(w, safe, planned.calls).Done? ==>
                  AccountAt(ExecAll(w, safe, planned.calls).world, AdapterFactory(adapter)) == factory)
            && (Accepts(w, safe, bind) ==> planned == Batch([bind]))
  {
    var planned := PlanAdapter(w, safe, adapter, factory);
    if planned.Batch? && planned.calls != [] {
      assert planned.calls[1..] == [];
    }
  }

  lemma RecorderIsMissing(w: World, safe: Address, registry: Address, factory: Address)
    requires PlanRecorder(w, safe, registry, factory).Batch?
    ensures PlanRecorder(w, safe, registry, factory).calls == Missing(ZeroGuard, w, RecorderCall(registry, factory))
  {
  }

  lemma DexIsMissing(w: World, p: Pins, g: Generation)
    requires PlanDex(w, p, g).Batch?
    ensures PlanDex(w, p, g).calls == Missing(ZeroGuard, w, DexCalls(p, g))
  {
    match p.dex
    case Topaz =>
      RecorderIsMissing(w, p.safe, g.registry, g.factory);
      AdapterIsMissing(w, p.safe, g.quoteAdapter, g.factory);
      MissingConcat(ZeroGuard, w, RecorderCall(g.registry, g.factory), AdapterCall(g.quoteAdapter, g.factory));
    case UniswapV3 =>
      AdapterIsMissing(w, p.safe, g.nativeAdapter, g.factory);
      AdapterIsMissing(w, p.safe, g.stockAdapter, g.factory);
      MissingConcat(ZeroGuard, w, AdapterCall(g.nativeAdapter, g.factory), AdapterCall(g.stockAdapter, g.factory));
  }

  lemma OperatorIsMissing(w: World, p: Pins, d: Stack, operator: NewOperator)
    requires PlanOperator(w, p, d, operator).Batch?
    ensures PlanOperator(w, p, d, operator).calls == Missing(ZeroGuard, w, OperatorCall(d, operator))
  {
  }

  /** What gets past the refusals is the list of candidates the chain still lacks. */
  lemma PartsAreMissing(w: World, p: Pins, d: Stack, g: Generation, operator: NewOperator)
    requires PlanParts(w, p, d, g, operator).Batch?
    ensures PlanParts(w, p, d, g, operator).calls == Missing(ZeroGuard, w, CandidatesB(p, d, g, operator))
  {
    DexIsMissing(w, p, g);
    OperatorIsMissing(w, p, d, operator);
    JoinMissing(w, LockerCalls(d, g), DexCalls(p, g), OperatorCall(d, operator));
  }

  lemma JoinMissing(w: World, xs: seq<Call>, ys: seq<Call>, zs: seq<Call>)
    ensures Missing(ZeroGuard, w, xs + ys + zs) ==
            Missing(ZeroGuard, w, xs) + Missing(ZeroGuard, w, ys) + Missing(ZeroGuard, w, zs)
  {
    MissingConcat(ZeroGuard, w, xs + ys, zs);
    MissingConcat(ZeroGuard, w, xs, ys);
  }

  lemma {:induction false} DataActionsMeaning(actions: seq<OwnerAction>, c: Call)
    ensures c in DataActions(actions) <==> Data(c) in actions
  {
    if actions != [] {
      DataActionsMeaning(actions[1..], c);
    }
  }

  /**
   When batch B is returned, every recorded action with call data is in it or refused on chain, and no once-settable
   slot that already holds something is aimed at.
   */
  lemma BatchBComplete(w: World, p: Pins, d: Stack, g: Generation, operator: NewOperator)
    requires PlanB(w, p, d, g, operator).Batch?
    ensures var calls := PlanB(w, p, d, g, operator).calls;
            && (forall a :: a in g.ownerActions && a.Data? ==> a.call in calls || !Accepts(w, p.safe, a.call))
            && (forall c :: c in calls && SetOnce(c) ==> AccountAt(w, SlotOf(c)) == ZERO)
  {
    var calls := PlanB(w, p, d, g, operator).calls;
    PartsAreMissing(w, p, d, g, operator);
    CoverageMeaning(w, p.safe, DataActions(g.ownerActions), calls);
    forall a | a in g.ownerActions && a.Data? ensures a.call in calls || !Accepts(w, p.safe, a.call) {
      DataActionsMeaning(g.ownerActions, a.call);
    }
    forall c | c in calls && SetOnce(c) ensures AccountAt(w, SlotOf(c)) == ZERO {
      SetOnceUntouched(w, p, d, g, operator, c);
    }
  }

  lemma SetOnceUntouched(w: World, p: Pins, d: Stack, g: Generation, operator: NewOperator, c: Call)
    requires c in Missing(ZeroGuard, w, CandidatesB(p, d, g, operator)) && SetOnce(c)
    ensures AccountAt(w, SlotOf(c)) == ZERO
  {
    MissingMembers(ZeroGuard, w, CandidatesB(p, d, g, operator), c);
    MembersB(p, d, g, operator, c);
  }

  // ------------------------------------------------------------------ batch B resumes

  lemma AdapterKept(w: World, p: Pins, g: Generation, adapter: Address, c: Call)
    requires PlanAdapter(w, p.safe, adapter, g.factory).Batch?
    requires c.SetCampaignFactoryOnce? ==> c.target == g.factory
    ensures PlanAdapter(After(w, c), p.safe, adapter, g.factory).Batch?
  {
    FixedFrame(w, c);
    assert Fixed(Owner(adapter));
    if SlotOf(c) != AdapterFactory(adapter) { CallFrame(w, c, AdapterFactory(adapter)); }
  }

  lemma RecorderKept(w: World, p: Pins, g: Generation, c: Call)
    requires PlanRecorder(w, p.safe, g.registry, g.factory).Batch?
    ensures PlanRecorder(After(w, c), p.safe, g.registry, g.factory).Batch?
  {
    FixedFrame(w, c);
    assert Fixed(Owner(g.registry));
    if SlotOf(c) != Recorder(g.registry, g.factory) { CallFrame(w, c, Recorder(g.registry, g.factory)); }
  }

  lemma LockerPartKept(w: World, d: Stack, g: Generation, c: Call)
    requires PlanLocker(w, d, g).Batch?
    requires c.SetAuthorizedLpLocker? ==> c == SetAuthorizedLpLocker(d.router, g.locker)
    requires c.SetFactoryOnce? ==> c.target == g.factory
    ensures PlanLocker(After(w, c), d, g).Batch?
  {
    if SlotOf(c) != Lockers(d.router) { CallFrame(w, c, Lockers(d.router)); }
    if SlotOf(c) != VaultFactory(d.vault) { CallFrame(w, c, VaultFactory(d.vault)); }
  }

  /** A candidate call never makes a later plan refuse. */
  lemma PartsKept(w: World, p: Pins, d: Stack, g: Generation, operator: NewOperator, c: Call)
    requires PlanParts(w, p, d, g, operator).Batch? && c in CandidatesB(p, d, g, operator)
    ensures PlanParts(After(w, c), p, d, g, operator).Batch?
  {
    MembersB(p, d, g, operator, c);
    FixedFrame(w, c);
    assert Fixed(FactoryLocker(g.factory)) && Fixed(FeeRecipient(g.factory));
    LockerPartKept(w, d, g, c);
    match p.dex
    case Topaz => RecorderKept(w, p, g, c); AdapterKept(w, p, g, g.quoteAdapter, c);
    case UniswapV3 => AdapterKept(w, p, g, g.nativeAdapter, c); AdapterKept(w, p, g, g.stockAdapter, c);
  }

  lemma {:induction false} PartsKeptByAll(w: World, p: Pins, d: Stack, g: Generation, operator: NewOperator,
                                          calls: seq<Call>)
    requires PlanParts(w, p, d, g, operator).Batch?
    requires forall c :: c in calls ==> c in CandidatesB(p, d, g, operator)
    requires ExecAll(w, p.safe, calls).Done?
    ensures PlanParts(ExecAll(w, p.safe, calls).world, p, d, g, operator).Batch?
    decreases |calls|
  {
    if calls != [] {
      PartsKept(w, p, d, g, operator, calls[0]);
      PartsKeptByAll(After(w, calls[0]), p, d, g, operator, calls[1..]);
    }
  }

  /**
   Batch B rebuilt after k executed calls is the rest of it exactly when every recorded action with call data stays
   settled: executed, it refuses its repetition; never planned, it is not freed by an executed authorization.
   */
  lemma ResumeFromChain(w: World, p: Pins, d: Stack, g: Generation, operator: NewOperator, k: nat)
    requires DistinctAdapters(p, g)
    requires PlanB(w, p, d, g, operator).Batch? && Simulated(w, p.safe, PlanB(w, p, d, g, operator).calls)
    requires k <= |PlanB(w, p, d, g, operator).calls|
    ensures var plan := PlanB(w, p, d, g, operator).calls;
            var stopped := ExecAll(w, p.safe, plan[..k]);
            && stopped.Done?
            && (PlanB(stopped.world, p, d, g, operator) == Batch(plan[k..]) <==>
                  forall a :: a in DataActions(g.ownerActions) ==> StaysSettled(a, plan, plan[..k]))
  {
    var plan, all := PlanB(w, p, d, g, operator).calls, CandidatesB(p, d, g, operator);
    PartsAreMissing(w, p, d, g, operator);
    CandidatesBWellFormed(p, d, g, operator);
    Resume(ZeroGuard, w, p.safe, all, k);
    var t := ExecAll(w, p.safe, plan[..k]).world;
    forall c | c in plan[..k] ensures c in all { MissingMembers(ZeroGuard, w, all, c); }
    PartsKeptByAll(w, p, d, g, operator, plan[..k]);
    PartsAreMissing(t, p, d, g, operator);
    CoverageMeaning(t, p.safe, DataActions(g.ownerActions), plan[k..]);
    CoverageMeaning(w, p.safe, DataActions(g.ownerActions), plan);
    forall a | a in DataActions(g.ownerActions)
      ensures (a in plan[k..] || !Accepts(t, p.safe, a)) <==> StaysSettled(a, plan, plan[..k])
    {
      VerdictFor(w, p.safe, all, all, k, a);
    }
  }

  /** Executed whole, batch B binds everything of this chain kind to the one factory. */
  lemma BatchBBinds(w: World, p: Pins, d: Stack, g: Generation, operator: NewOperator)
    requires DistinctAdapters(p, g)
    requires PlanB(w, p, d, g, operator).Batch? && Simulated(w, p.safe, PlanB(w, p, d, g, operator).calls)
    ensures var end := ExecAll(w, p.safe, PlanB(w, p, d, g, operator).calls);
            && end.Done?
            && IsLocker(end.world, d.router, g.locker)
            && AccountAt(end.world, PrimaryLocker(d.router)) == g.locker
            && AccountAt(end.world, VaultFactory(d.vault)) == g.factory
            && (forall c :: c in DexCalls(p, g) ==> Holds(end.world, c))
            && (operator.Dedicated? ==> OperatorAt(end.world, d.vault) == operator.key)
  {
    var all := CandidatesB(p, d, g, operator);
    var plan := PlanB(w, p, d, g, operator).calls;
    PartsAreMissing(w, p, d, g, operator);
    CandidatesBWellFormed(p, d, g, operator);
    MissingDistinct(ZeroGuard, w, all);
    SimulationSound(w, p.safe, plan);
    var t := ExecAll(w, p.safe, plan).world;
    forall c | c in all ensures Holds(t, c) {
      ConvergedHolds(w, p.safe, all, c);
      NoForeignCandidate(w, p, d, g, operator, c);
    }
    CandidatesHold(t, p, d, g, operator);
  }

  /** What it means for every candidate to hold. */
  lemma CandidatesHold(t: World, p: Pins, d: Stack, g: Generation, operator: NewOperator)
    requires forall c :: c in CandidatesB(p, d, g, operator) ==> Holds(t, c)
    ensures IsLocker(t, d.router, g.locker) && AccountAt(t, PrimaryLocker(d.router)) == g.locker
    ensures AccountAt(t, VaultFactory(d.vault)) == g.factory
    ensures forall c :: c in DexCalls(p, g) ==> Holds(t, c)
    ensures operator.Dedicated? ==> OperatorAt(t, d.vault) == operator.key
  {
    var all := CandidatesB(p, d, g, operator);
    assert all[0] == SetAuthorizedLpLocker(d.router, g.locker) && Holds(t, all[0]);
    assert all[1] == SetPrimaryLpLocker(d.router, g.locker) && Holds(t, all[1]);
    assert all[2] == SetFactoryOnce(d.vault, g.factory) && Holds(t, all[2]);
    if operator.Dedicated? {
      assert Holds(t, SetOperator(d.vault, operator.key));
    }
  }

  lemma NoForeignCandidate(w: World, p: Pins, d: Stack, g: Generation, operator: NewOperator, c: Call)
    requires PlanParts(w, p, d, g, operator).Batch? && c in CandidatesB(p, d, g, operator)
    ensures !HoldsForeign(w, c)
  {
    MembersB(p, d, g, operator, c);
  }

  // ------------------------------------------------------------------ batch A, and what A7 leaves out of it

  /** Each setter of batch A has its own slot. */
  function SetterA(slot: Slot): nat {
    match slot
    case CreatePaused(_) => 0
    case Recruiter(_) => 1
    case Community(_) => 2
    case Protocol(_) => 3
    case Creator(_) => 4
    case CommunityRouter(_) => 5
    case BatchOperator(_) => 6
    case HolderDistributor(_) => 7
    case Operator(_) => 8
    case VaultCaps(_) => 9
    case _ => 10
  }

  lemma BatchASetter(p: Pins, d: Stack, caps: Caps, i: nat)
    requires i < 10
    ensures |BatchACalls(p, d, caps)| == 10
    ensures SetterA(SlotOf(BatchACalls(p, d, caps)[i])) == i && Closing(BatchACalls(p, d, caps)[i])
    ensures i == 2 ==> SlotOf(BatchACalls(p, d, caps)[i]) == Community(d.router)
    ensures i == 5 ==> BatchACalls(p, d, caps)[i] == SetRouter(p.community, d.router)
  {
  }

  lemma BatchAWellFormed(p: Pins, d: Stack, caps: Caps, a: seq<Call>)
    requires a == BatchACalls(p, d, caps)
    ensures WellFormed(a) && |a| == 10 && a[5] == SetRouter(p.community, d.router)
    ensures forall c :: c in a && SlotOf(c).Community? ==> SlotOf(c) == Community(d.router)
    ensures forall c :: c in a ==> !SlotOf(c).FeeRecipient?
  {
    forall i | 0 <= i < 10
      ensures |a| == 10 && SetterA(SlotOf(a[i])) == i && Closing(a[i])
      ensures i == 2 ==> SlotOf(a[i]) == Community(d.router)
      ensures i == 5 ==> a[i] == SetRouter(p.community, d.router)
    {
      BatchASetter(p, d, caps, i);
    }
  }

  /**
   Batch A moves the community vault it is given to the new router. On the vault a live generation trades through, that
   ends the generation's trading.
   */
  lemma BatchABreaksLiveGeneration(w: World, p: Pins, d: Stack, caps: Caps, a: seq<Call>)
    requires a == BatchACalls(p, d, caps)
    requires p.community == CommunityOf(w, p.oldFactory) && d.router != RouterOf(w, p.oldFactory)
    requires ExecAll(w, p.safe, a).Done?
    ensures !TradeReady(ExecAll(w, p.safe, a).world, p.oldFactory)
  {
    BatchAWellFormed(p, d, caps, a);
    BatchFrame(w, p.safe, a, FeeRecipient(p.oldFactory));
    BatchFrame(w, p.safe, a, Community(RouterOf(w, p.oldFactory)));
    ExecutedHolds(w, p.safe, a, 5);
  }

  predicate A7Deployed(w: World, p: Pins, d: Stack, caps: Caps) {
    && AccountAt(w, Owner(d.router)) == p.safe && AccountAt(w, Owner(d.vault)) == p.safe
    && AccountAt(w, Owner(d.holderDistributor)) == p.safe
    && p.recruiter != ZERO && FlagAt(w, Code(p.recruiter)) && p.community != ZERO && FlagAt(w, Code(p.community))
    && p.protocol != ZERO && FlagAt(w, Code(p.protocol)) && d.vault != ZERO && FlagAt(w, Code(d.vault))
    && d.holderDistributor != ZERO && caps.impactBps <= MAX_IMPACT_BPS
  }

  lemma A7Setter(p: Pins, d: Stack, caps: Caps, i: nat)
    requires i < 8
    ensures |BatchA7Calls(p, d, caps)| == 8 && Closing(BatchA7Calls(p, d, caps)[i])
    ensures SetterA(SlotOf(BatchA7Calls(p, d, caps)[i])) == if i < 4 then i + 1 else i + 2
  {
    A7Listed(p, d, caps);
  }

  lemma A7WellFormed(p: Pins, d: Stack, caps: Caps)
    ensures WellFormed(BatchA7Calls(p, d, caps))
  {
    var all := BatchA7Calls(p, d, caps);
    A7Setter(p, d, caps, 0);
    forall i | 0 <= i < 8
      ensures Closing(all[i]) && SetterA(SlotOf(all[i])) == if i < 4 then i + 1 else i + 2
    {
      A7Setter(p, d, caps, i);
    }
  }

  predicate A7MeetsForeign(w: World, p: Pins, d: Stack, caps: Caps) {
    exists c :: c in BatchA7Calls(p, d, caps) && HoldsForeign(w, c)
  }

  lemma ForeignNotSimulated(w: World, who: Address, all: seq<Call>, c: Call)
    requires c in all && HoldsForeign(w, c) && !c.SetPrimaryLpLocker? && !IsDone(SameGuard, w, c) && !Accepts(w, who, c)
    ensures !Simulated(w, who, Missing(SameGuard, w, all))
  {
    var plan := Missing(SameGuard, w, all);
    MissingMembers(SameGuard, w, all, c);
    var i :| 0 <= i < |plan| && plan[i] == c;
    assert !Dependent(plan, i);
  }

  /**
   Robinhood's filter compares with the planned value, so a vault slot holding something else is not skipped: the call
   is planned, and the simulation refuses the batch exactly then.
   */
  lemma A7SimulatesUnlessForeign(w: World, p: Pins, d: Stack, caps: Caps)
    requires A7Deployed(w, p, d, caps)
    ensures Simulated(w, p.safe, Missing(SameGuard, w, BatchA7Calls(p, d, caps))) <==> !A7MeetsForeign(w, p, d, caps)
  {
    var all := BatchA7Calls(p, d, caps);
    A7WellFormed(p, d, caps);
    if A7MeetsForeign(w, p, d, caps) {
      var c :| c in all && HoldsForeign(w, c);
      A7ForeignRefused(w, p, d, caps, c);
      ForeignNotSimulated(w, p.safe, all, c);
    } else {
      forall c | c in all ensures Prepared(w, p.safe, c) && NoForeign(SameGuard, w, c) {
        A7Prepared(w, p, d, caps, c);
      }
      A7NoLocker(w, p, d, caps);
      PreparedSimulated(SameGuard, w, p.safe, all);
    }
  }

  lemma A7NoLocker(w: World, p: Pins, d: Stack, caps: Caps)
    ensures LockerFirst(w, BatchA7Calls(p, d, caps))
  {
    A7Listed(p, d, caps);
  }

  lemma A7ForeignRefused(w: World, p: Pins, d: Stack, caps: Caps, c: Call)
    requires c in BatchA7Calls(p, d, caps) && HoldsForeign(w, c)
    ensures !c.SetPrimaryLpLocker? && !IsDone(SameGuard, w, c) && !Accepts(w, p.safe, c)
  {
    A7Listed(p, d, caps);
  }

  lemma A7Prepared(w: World, p: Pins, d: Stack, caps: Caps, c: Call)
    requires A7Deployed(w, p, d, caps) && c in BatchA7Calls(p, d, caps) && !HoldsForeign(w, c)
    ensures Prepared(w, p.safe, c) && NoForeign(SameGuard, w, c)
  {
    A7Listed(p, d, caps);
  }

  lemma A7StaysOff(w: World, p: Pins, d: Stack, caps: Caps, all: seq<Call>)
    requires all == BatchA7Calls(p, d, caps)
    requires d.router != RouterOf(w, p.oldFactory) && d.vault != VaultOf(w, p.oldFactory)
    ensures StaysOff(w, p.oldFactory, all)
  {
    A7Listed(p, d, caps);
  }

  /** With matching guards, converging is holding. */
  lemma ClosedHolds(w: World, p: Pins, d: Stack, caps: Caps, c: Call)
    requires c in BatchA7Calls(p, d, caps) && IsDone(SameGuard, w, c)
    ensures Holds(w, c)
  {
    A7Listed(p, d, caps);
  }

  /** A7 on its own stack, run and interrupted at will: gen-6 untouched; carried through, every setter holds. */
  lemma A7Safe(w: World, p: Pins, d: Stack, caps: Caps, stops: seq<nat>, all: seq<Call>)
    requires all == BatchA7Calls(p, d, caps)
    requires A7Deployed(w, p, d, caps) && !A7MeetsForeign(w, p, d, caps)
    requires d.router != RouterOf(w, p.oldFactory) && d.vault != VaultOf(w, p.oldFactory)
    ensures var end := Runs(SameGuard, w, p.safe, all, stops);
            && end.Done?
            && Untouched(w, end.world, p.oldFactory)
            && (TradeReady(end.world, p.oldFactory) <==> TradeReady(w, p.oldFactory))
            && (|Missing(SameGuard, w, all)| <= Total(stops) ==> forall c :: c in all ==> Holds(end.world, c))
  {
    A7WellFormed(p, d, caps);
    A7SimulatesUnlessForeign(w, p, d, caps);
    A7StaysOff(w, p, d, caps, all);
    RunsKeepGeneration(SameGuard, w, p.safe, all, stops, p.oldFactory);
    var t := Runs(SameGuard, w, p.safe, all, stops).world;
    UntouchedSameShape(w, t, p.oldFactory);
    if |Missing(SameGuard, w, all)| <= Total(stops) {
      Converges(SameGuard, w, p.safe, all, stops);
      forall c | c in all ensures Holds(t, c) { ClosedHolds(t, p, d, caps, c); }
    }
  }

  // ------------------------------------------------------------------ batch B7 and the opening

  /** Everything B7 may contain, in order. */
  function CandidatesB7(p: Pins, d: Stack, g: Generation, registry: Address, stock: Address): seq<Call> {
    CandidatesB(p, d, g, KeepOperator) + SharedCalls(g, registry, stock)
  }

  lemma B7Members(p: Pins, d: Stack, g: Generation, registry: Address, stock: Address, c: Call)
    requires p.dex.UniswapV3? && c in CandidatesB7(p, d, g, registry, stock)
    ensures c.SetAuthorizedLpLocker? || c.SetPrimaryLpLocker? || c.SetFactoryOnce? || c.SetCampaignFactoryOnce?
            || c.SetLaunchRecorder? || c.SetStockCampaignImplementation?
    ensures c.SetAuthorizedLpLocker? || c.SetPrimaryLpLocker? ==> c.to == d.router
    ensures c.SetFactoryOnce? ==> c == SetFactoryOnce(d.vault, g.factory)
    ensures c.SetLaunchRecorder? ==> c.target == g.factory
  {
  }

  lemma B7StaysOff(w: World, p: Pins, d: Stack, g: Generation, registry: Address, stock: Address, gen6: Address)
    requires p.dex.UniswapV3?
    requires gen6 != g.factory && d.router != RouterOf(w, gen6) && d.vault != VaultOf(w, gen6)
    ensures StaysOff(w, gen6, CandidatesB7(p, d, g, registry, stock))
    ensures forall c :: c in CandidatesB7(p, d, g, registry, stock) ==>
              !TradeSlot(SlotOf(c)) && !SlotOf(c).Live? && !SlotOf(c).CreatePaused?
  {
    forall c | c in CandidatesB7(p, d, g, registry, stock)
      ensures !BelongsTo(w, gen6, SlotOf(c)) && !TradeSlot(SlotOf(c)) && !SlotOf(c).Live? && !SlotOf(c).CreatePaused?
    {
      B7Members(p, d, g, registry, stock, c);
    }
  }

  lemma SharedApart(p: Pins, d: Stack, g: Generation, registry: Address, stock: Address, x: Call, y: Call)
    requires p.dex.UniswapV3?
    requires x in CandidatesB(p, d, g, KeepOperator) && y in SharedCalls(g, registry, stock)
    ensures SlotOf(x) != SlotOf(y)
  {
  }

  lemma B7Plan(w: World, p: Pins, d: Stack, g: Generation, registry: Address, stock: Address)
    requires p.dex.UniswapV3? && DistinctAdapters(p, g) && stock != ZERO
    requires PlanB7(w, p, d, g, registry, stock).Batch?
    ensures WellFormed(CandidatesB7(p, d, g, registry, stock))
    ensures PlanB7(w, p, d, g, registry, stock).calls == Missing(ZeroGuard, w, CandidatesB7(p, d, g, registry, stock))
  {
    B7WellFormed(p, d, g, registry, stock);
    assert p.(dex := UniswapV3) == p;
    PartsAreMissing(w, p, d, g, KeepOperator);
    MissingConcat(ZeroGuard, w, CandidatesB(p, d, g, KeepOperator), SharedCalls(g, registry, stock));
  }

  lemma B7WellFormed(p: Pins, d: Stack, g: Generation, registry: Address, stock: Address)
    requires p.dex.UniswapV3? && DistinctAdapters(p, g) && stock != ZERO
    ensures WellFormed(CandidatesB7(p, d, g, registry, stock))
  {
    var core, shared := CandidatesB(p, d, g, KeepOperator), SharedCalls(g, registry, stock);
    CandidatesBWellFormed(p, d, g, KeepOperator);
    forall x, y | x in core && y in shared ensures SlotOf(x) != SlotOf(y) {
      SharedApart(p, d, g, registry, stock, x, y);
    }
    WellFormedConcat(core, shared);
  }

  /** B7 from A7's result: both generations trade, gen-7 can create, and its factory is still shut. */
  lemma B7Serves(w: World, p: Pins, d: Stack, g: Generation, registry: Address, stock: Address, gen6: Address,
                 stops: seq<nat>, all: seq<Call>)
    requires p.dex.UniswapV3? && DistinctAdapters(p, g) && stock != ZERO
             && all == CandidatesB7(p, d, g, registry, stock)
    requires PlanB7(w, p, d, g, registry, stock).Batch?
    requires Simulated(w, p.safe, PlanB7(w, p, d, g, registry, stock).calls)
    requires gen6 != g.factory && d.router != RouterOf(w, gen6) && d.vault != VaultOf(w, gen6)
    requires TradeReady(w, gen6) && TradeReady(w, g.factory) && VaultOf(w, g.factory) == d.vault
    requires |PlanB7(w, p, d, g, registry, stock).calls| <= Total(stops)
    ensures var end := Runs(ZeroGuard, w, p.safe, all, stops);
            && end.Done?
            && Untouched(w, end.world, gen6) && TradeReady(end.world, gen6)
            && TradeReady(end.world, g.factory) && CreateReady(end.world, g.factory)
            && (Open(end.world, g.factory) <==> Open(w, g.factory))
  {
    B7Plan(w, p, d, g, registry, stock);
    B7StaysOff(w, p, d, g, registry, stock, gen6);
    RunsKeepGeneration(ZeroGuard, w, p.safe, all, stops, gen6);
    var t := Runs(ZeroGuard, w, p.safe, all, stops).world;
    UntouchedSameShape(w, t, gen6);
    TradeKept(ZeroGuard, w, p.safe, all, stops, g.factory);
    B7Pins(w, t, p, d, g, registry, stock, stops);
    RunsFrame(ZeroGuard, w, p.safe, all, stops, Live(g.factory));
    RunsFrame(ZeroGuard, w, p.safe, all, stops, CreatePaused(g.factory));
  }

  lemma B7Pins(w: World, t: World, p: Pins, d: Stack, g: Generation, registry: Address, stock: Address, stops: seq<nat>)
    requires p.dex.UniswapV3? && DistinctAdapters(p, g) && stock != ZERO
    requires PlanB7(w, p, d, g, registry, stock).Batch?
    requires Simulated(w, p.safe, PlanB7(w, p, d, g, registry, stock).calls)
    requires |PlanB7(w, p, d, g, registry, stock).calls| <= Total(stops)
    requires Runs(ZeroGuard, w, p.safe, CandidatesB7(p, d, g, registry, stock), stops) == Done(t)
    ensures AccountAt(t, VaultFactory(d.vault)) == g.factory
  {
    var core, all := CandidatesB(p, d, g, KeepOperator), CandidatesB7(p, d, g, registry, stock);
    B7Plan(w, p, d, g, registry, stock);
    InterruptionInvisible(ZeroGuard, w, p.safe, all, stops);
    var plan := Missing(ZeroGuard, w, all);
    assert plan[..|plan|] == plan;
    var pin := SetFactoryOnce(d.vault, g.factory);
    assert core[2] == pin && pin in all;
    assert p.(dex := UniswapV3) == p;
    NoForeignCandidate(w, p, d, g, KeepOperator, pin);
    ConvergedHolds(w, p.safe, all, pin);
  }

  /**
   H7 works exactly once: from the owner of both factories, before gen-7 is live. Rebuilding it later cannot execute.
   */
  lemma H7ExecutesOnce(w: World, safe: Address, factory: Address, gen6: Address)
    requires factory != gen6
    ensures ExecAll(w, safe, BatchH7Calls(factory, gen6)).Done? <==>
            AccountAt(w, Owner(factory)) == safe && AccountAt(w, Owner(gen6)) == safe && !FlagAt(w, Live(factory))
    ensures ExecAll(w, safe, BatchH7Calls(factory, gen6)).Done? ==>
              var t := ExecAll(w, safe, BatchH7Calls(factory, gen6)).world;
              Open(t, factory) && !Open(t, gen6) && ExecAll(t, safe, BatchH7Calls(factory, gen6)) == Reverted
  {
    var h := BatchH7Calls(factory, gen6);
    var w1 := After(w, h[0]);
    var w2 := After(w1, h[1]);
    FixedFrame(w, h[0]);
    FixedFrame(w1, h[1]);
    assert Fixed(Owner(factory)) && Fixed(Owner(gen6));
    assert h[1..] == [h[1], h[2]] && h[1..][1..] == [h[2]];
    assert ExecAll(w2, safe, [h[2]]) == (if Accepts(w2, safe, h[2]) then Done(After(w2, h[2])) else Reverted);
  }
}
