/**
 The contracts the rollout scripts talk to, seen as one store of slots, and the admin calls the scripts
 plan. Every planned call writes exactly one slot; which calls a contract refuses follows the setters of
 TreasuryRouterV4, CreatorRewardsVaultV2, RewardDistributor, CommunityRewardsVault, CreatorRegistry, the
 graduation adapters and LaunchFactoryGen7.
 */
module Chain {

  /** An account; two spellings of one address are one number, as after `getAddress`. */
  type Address = nat

  const ZERO: Address := 0
  const MAX_LIMIT_BPS := 100
  const MAX_IMPACT_BPS := 50
  const MAX_FEE_TIER := 3000

  datatype Caps = Caps(buyPerTx: nat, buybackPerWeek: nat, buyInterval: nat, impactBps: nat, holderBatchPerWeek: nat)

  datatype Route = Route(feed: Address, pool: Address, tier: nat, floor: nat,
                         slippage: nat, oracleDeviation: nat, priceImpact: nat, graduationDeviation: nat,
                         enabled: bool)

  /** RewardDistributor.BatchAuthorization. */
  datatype Authorization = Authorization(max: nat, publishAfter: nat, deadline: nat, authorized: bool, consumed: bool)

  /** The slots a planned call can write, then the ones no planned call writes. */
  datatype Slot =
    | Recruiter(router: Address) | Community(router: Address) | Protocol(router: Address) | Creator(router: Address)
    | Lockers(router: Address) | PrimaryLocker(router: Address)
    | VaultFactory(vault: Address) | HolderDistributor(vault: Address) | Operator(vault: Address)
    | VaultCaps(vault: Address) | QuotePool(vault: Address, token: Address)
    | BatchOperator(distributor: Address) | BatchAuth(distributor: Address, id: nat)
    | CommunityRouter(community: Address) | AirdropDistributor(community: Address) | AirdropOperator(community: Address)
    | Recorder(registry: Address, recorder: Address)
    | AdapterFactory(adapter: Address) | AdapterRoute(adapter: Address, token: Address)
    | Live(factory: Address) | CreatePaused(factory: Address) | StockImplementation(factory: Address)
    | Owner(of: Address) | Code(at: Address)
    | FactoryLocker(factory: Address) | FeeRecipient(factory: Address) | HasCampaigns(factory: Address)
    | VaultRouter(vault: Address) | Wrapped(user: Address) | OnRobinhood(adapter: Address)
    | CanonicalPool(token: Address, tier: nat) | Healthy(adapter: Address, token: Address)
    | BatchExists(distributor: Address, id: nat) | TooPrecise(token: Address)
    | OraclesAnswer(adapter: Address, token: Address)

  datatype Value =
    | Account(account: Address)
    | Flag(flag: bool)
    | LockerSet(allowed: set<Address>, any: bool)
    | OperatorKey(operator: Address, paused: bool)
    | CapValues(caps: Caps)
    | RouteValue(route: Route)
    | AuthValue(auth: Authorization)

  /** A slot that was never written reads as zero of its type. */
  type World = map<Slot, Value>

  const NO_ROUTE := Route(0, 0, 0, 0, 0, 0, 0, 0, false)
  const NO_AUTH := Authorization(0, 0, 0, false, false)

  function AccountAt(w: World, slot: Slot): Address {
    if slot in w && w[slot].Account? then w[slot].account else ZERO
  }

  predicate FlagAt(w: World, slot: Slot) {
    slot in w && w[slot].Flag? && w[slot].flag
  }

  function LockersAt(w: World, router: Address): Value {
    if Lockers(router) in w && w[Lockers(router)].LockerSet? then w[Lockers(router)] else LockerSet({}, false)
  }

  predicate IsLocker(w: World, router: Address, locker: Address) {
    var v := LockersAt(w, router);
    v.LockerSet? && locker in v.allowed
  }

  predicate AnyLocker(w: World, router: Address) {
    var v := LockersAt(w, router);
    v.LockerSet? && v.any
  }

  function OperatorAt(w: World, vault: Address): Address {
    if Operator(vault) in w && w[Operator(vault)].OperatorKey? then w[Operator(vault)].operator else ZERO
  }

  function CapsAt(w: World, vault: Address): Caps {
    if VaultCaps(vault) in w && w[VaultCaps(vault)].CapValues? then w[VaultCaps(vault)].caps else Caps(0, 0, 0, 0, 0)
  }

  function RouteAt(w: World, adapter: Address, token: Address): Route {
    var slot := AdapterRoute(adapter, token);
    if slot in w && w[slot].RouteValue? then w[slot].route else NO_ROUTE
  }

  function AuthAt(w: World, distributor: Address, id: nat): Authorization {
    var slot := BatchAuth(distributor, id);
    if slot in w && w[slot].AuthValue? then w[slot].auth else NO_AUTH
  }

  /** The planned calls; `allowed`, `true` and `paused = false` arguments that never vary are left implicit. */
  datatype Call =
    | SetRecruiterRewardsVault(to: Address, target: Address)
    | SetCommunityRewardsVault(to: Address, target: Address)
    | SetProtocolRevenueVault(to: Address, target: Address)
    | SetCreatorRewardsVault(to: Address, target: Address)
    | SetAuthorizedLpLocker(to: Address, target: Address)
    | SetPrimaryLpLocker(to: Address, target: Address)
    | SetFactoryOnce(to: Address, target: Address)
    | SetHolderDistributorOnce(to: Address, target: Address)
    | SetOperator(to: Address, target: Address)
    | SetCaps(to: Address, newCaps: Caps)
    | SetQuoteRoute(to: Address, token: Address, tier: nat)
    | SetBatchOperator(to: Address, target: Address)
    | AuthorizeBatch(to: Address, id: nat, max: nat, publishAfter: nat, deadline: nat)
    | SetRouter(to: Address, target: Address)
    | SetRewardDistributor(to: Address, target: Address)
    | SetAirdropOperator(to: Address, target: Address)
    | SetLaunchRecorder(to: Address, target: Address)
    | SetCampaignFactoryOnce(to: Address, target: Address)
    | ConfigureRoute(to: Address, token: Address, newRoute: Route)
    | EnableLive(to: Address)
    | SetCreatePaused(to: Address, pause: bool)
    | SetStockCampaignImplementation(to: Address, target: Address)

  function SlotOf(c: Call): Slot {
    match c
    case SetRecruiterRewardsVault(to, _) => Recruiter(to)
    case SetCommunityRewardsVault(to, _) => Community(to)
    case SetProtocolRevenueVault(to, _) => Protocol(to)
    case SetCreatorRewardsVault(to, _) => Creator(to)
    case SetAuthorizedLpLocker(to, _) => Lockers(to)
    case SetPrimaryLpLocker(to, _) => PrimaryLocker(to)
    case SetFactoryOnce(to, _) => VaultFactory(to)
    case SetHolderDistributorOnce(to, _) => HolderDistributor(to)
    case SetOperator(to, _) => Operator(to)
    case SetCaps(to, _) => VaultCaps(to)
    case SetQuoteRoute(to, token, _) => QuotePool(to, token)
    case SetBatchOperator(to, _) => BatchOperator(to)
    case AuthorizeBatch(to, id, _, _, _) => BatchAuth(to, id)
    case SetRouter(to, _) => CommunityRouter(to)
    case SetRewardDistributor(to, _) => AirdropDistributor(to)
    case SetAirdropOperator(to, _) => AirdropOperator(to)
    case SetLaunchRecorder(to, recorder) => Recorder(to, recorder)
    case SetCampaignFactoryOnce(to, _) => AdapterFactory(to)
    case ConfigureRoute(to, token, _) => AdapterRoute(to, token)
    case EnableLive(to) => Live(to)
    case SetCreatePaused(to, _) => CreatePaused(to)
    case SetStockCampaignImplementation(to, _) => StockImplementation(to)
  }

  function Written(w: World, c: Call): Value {
    match c
    case SetAuthorizedLpLocker(to, locker) =>
      var v := LockersAt(w, to);
      LockerSet((if v.LockerSet? then v.allowed else {}) + {locker}, true)
    case SetOperator(_, operator) => OperatorKey(operator, false)
    case SetCaps(_, caps) => CapValues(caps)
    case SetQuoteRoute(_, token, tier) => Account(AccountAt(w, CanonicalPool(token, tier)))
    case AuthorizeBatch(to, id, max, publishAfter, deadline) =>
      AuthValue(Authorization(max, publishAfter, deadline, true, AuthAt(w, to, id).consumed))
    case SetLaunchRecorder(_, _) => Flag(true)
    case ConfigureRoute(_, _, route) => RouteValue(route)
    case EnableLive(_) => Flag(true)
    case SetCreatePaused(_, pause) => Flag(pause)
    case _ => Account(c.target)
  }

  /** A route may be tightened, never retargeted or loosened (RouteFeedImmutable, RouteLimitLoosened, RouteFixed). */
  predicate Tightens(have: Route, want: Route) {
    && want.feed == have.feed && want.pool == have.pool && want.tier == have.tier
    && have.floor <= want.floor
    && want.slippage <= have.slippage && want.oracleDeviation <= have.oracleDeviation
    && want.priceImpact <= have.priceImpact && want.graduationDeviation <= have.graduationDeviation
  }

  predicate PolicyFits(robinhood: bool, r: Route) {
    && 0 < r.floor
    && if robinhood
       then 0 < r.tier <= MAX_FEE_TIER && r.slippage <= MAX_LIMIT_BPS && r.oracleDeviation == 0 && r.priceImpact == 0
            && r.graduationDeviation == 0
       else r.tier == 0 && 0 < r.slippage <= MAX_LIMIT_BPS && r.oracleDeviation <= MAX_LIMIT_BPS
            && r.priceImpact <= MAX_LIMIT_BPS && r.graduationDeviation <= MAX_LIMIT_BPS
  }

  /** The rules of both adapters that do not look at the route already stored; Robinhood's takes 18 decimals at most. */
  predicate RouteFits(w: World, adapter: Address, token: Address, r: Route) {
    && token != ZERO && r.feed != ZERO && r.pool != ZERO && token != AccountAt(w, Wrapped(adapter))
    && FlagAt(w, Code(token)) && FlagAt(w, Code(r.feed)) && FlagAt(w, Code(r.pool))
    && PolicyFits(FlagAt(w, OnRobinhood(adapter)), r)
    && AccountAt(w, CanonicalPool(token, r.tier)) == r.pool
    && !(FlagAt(w, OnRobinhood(adapter)) && FlagAt(w, TooPrecise(token)))
  }

  /**
   Enabling a route makes the adapter read its own oracles, the native one and the route's, and on BNB the pool's depth.
   On BNB that is done only when the stored route is not enabled yet.
   */
  predicate EnableFits(w: World, adapter: Address, token: Address, r: Route) {
    r.enabled && (FlagAt(w, OnRobinhood(adapter)) || !RouteAt(w, adapter, token).enabled)
    ==> FlagAt(w, OraclesAnswer(adapter, token))
  }

  /** Whether the contract takes the call from `who` in state `w`; a refusal is a revert. */
  predicate Accepts(w: World, who: Address, c: Call) {
    AccountAt(w, Owner(c.to)) == who &&
    match c
    case SetRecruiterRewardsVault(_, _) | SetCommunityRewardsVault(_, _) | SetProtocolRevenueVault(_, _)
       | SetCreatorRewardsVault(_, _) =>
      AccountAt(w, SlotOf(c)) == ZERO && c.target != ZERO && FlagAt(w, Code(c.target))
    case SetAuthorizedLpLocker(to, locker) => locker != ZERO && (!AnyLocker(w, to) || IsLocker(w, to, locker))
    case SetPrimaryLpLocker(to, locker) => locker != ZERO && IsLocker(w, to, locker)
    case SetFactoryOnce(to, factory) =>
      AccountAt(w, VaultFactory(to)) == ZERO && factory != ZERO && AccountAt(w, FactoryLocker(factory)) != ZERO
    case SetHolderDistributorOnce(to, d) => AccountAt(w, HolderDistributor(to)) == ZERO && d != ZERO
    case SetCaps(_, caps) => caps.impactBps <= MAX_IMPACT_BPS
    case SetQuoteRoute(to, token, tier) =>
      token != ZERO && token != AccountAt(w, Wrapped(to)) && AccountAt(w, CanonicalPool(token, tier)) != ZERO
    case AuthorizeBatch(to, id, max, publishAfter, deadline) =>
      id != 0 && max != 0 && publishAfter < deadline && !AuthAt(w, to, id).consumed && !FlagAt(w, BatchExists(to, id))
    case SetRewardDistributor(_, d) => d != ZERO
    case SetLaunchRecorder(_, recorder) => recorder != ZERO
    case SetCampaignFactoryOnce(to, factory) =>
      && AccountAt(w, AdapterFactory(to)) == ZERO && factory != ZERO && FlagAt(w, Code(factory))
      && (FlagAt(w, OnRobinhood(to)) ==>
            AccountAt(w, FactoryLocker(factory)) != ZERO && FlagAt(w, Code(AccountAt(w, FactoryLocker(factory)))))
    case ConfigureRoute(to, token, r) =>
      RouteFits(w, to, token, r) && EnableFits(w, to, token, r)
      && (RouteAt(w, to, token).feed != ZERO ==> Tightens(RouteAt(w, to, token), r))
    case EnableLive(to) => !FlagAt(w, Live(to))
    case SetStockCampaignImplementation(to, implementation) =>
      !FlagAt(w, HasCampaigns(to)) && (implementation != ZERO ==> FlagAt(w, Code(implementation)))
    case SetOperator(_, _) | SetBatchOperator(_, _) | SetRouter(_, _) | SetAirdropOperator(_, _)
       | SetCreatePaused(_, _) => true
  }

  datatype Outcome = Reverted | Done(world: World)

  function After(w: World, c: Call): World {
    w[SlotOf(c) := Written(w, c)]
  }

  /** A Safe batch: all calls in order, or nothing. */
  function ExecAll(w: World, who: Address, calls: seq<Call>): Outcome
    decreases |calls|
  {
    if calls == [] then Done(w)
    else if Accepts(w, who, calls[0]) then ExecAll(After(w, calls[0]), who, calls[1..])
    else Reverted
  }

  /** The setters a contract answers only once. */
  predicate SetOnce(c: Call) {
    c.SetRecruiterRewardsVault? || c.SetCommunityRewardsVault? || c.SetProtocolRevenueVault?
    || c.SetCreatorRewardsVault? || c.SetFactoryOnce? || c.SetHolderDistributorOnce? || c.SetCampaignFactoryOnce?
    || c.EnableLive?
  }

  predicate DistinctSlots(calls: seq<Call>) {
    forall i, j :: 0 <= i < j < |calls| ==> SlotOf(calls[i]) != SlotOf(calls[j])
  }

  // ------------------------------------------------------------------ what one call leaves alone

  predicate Fixed(slot: Slot) {
    slot.Owner? || slot.Code? || slot.FactoryLocker? || slot.FeeRecipient? || slot.HasCampaigns? || slot.VaultRouter?
    || slot.Wrapped? || slot.OnRobinhood? || slot.CanonicalPool? || slot.Healthy? || slot.BatchExists?
    || slot.TooPrecise? || slot.OraclesAnswer?
  }

  /** Ownership, code, constructor arguments and pools are out of every planned call's reach. */
  lemma CallsWriteNoFixedSlot(c: Call)
    ensures !Fixed(SlotOf(c))
  {
  }

  lemma CallFrame(w: World, c: Call, slot: Slot)
    requires slot != SlotOf(c)
    ensures AccountAt(After(w, c), slot) == AccountAt(w, slot)
    ensures FlagAt(After(w, c), slot) <==> FlagAt(w, slot)
    ensures slot in After(w, c) <==> slot in w
    ensures slot in w ==> After(w, c)[slot] == w[slot]
  {
  }

  lemma FixedFrame(w: World, c: Call)
    ensures forall slot :: Fixed(slot) ==>
              AccountAt(After(w, c), slot) == AccountAt(w, slot) && (FlagAt(After(w, c), slot) <==> FlagAt(w, slot))
  {
    CallsWriteNoFixedSlot(c);
  }

  lemma RouteFitsStable(w: World, c: Call, adapter: Address, token: Address, r: Route)
    ensures RouteFits(After(w, c), adapter, token, r) <==> RouteFits(w, adapter, token, r)
  {
    FixedFrame(w, c);
    assert Fixed(Wrapped(adapter)) && Fixed(Code(token)) && Fixed(Code(r.feed)) && Fixed(Code(r.pool));
    assert Fixed(OnRobinhood(adapter)) && Fixed(CanonicalPool(token, r.tier)) && Fixed(TooPrecise(token));
  }

  /** A set-once setter's verdict does not depend on other slots. */
  lemma OnceUnmoved(w: World, who: Address, c: Call, d: Call)
    requires SetOnce(c) || c.SetStockCampaignImplementation?
    requires SlotOf(d) != SlotOf(c)
    ensures Accepts(After(w, d), who, c) <==> Accepts(w, who, c)
  {
    FixedFrame(w, d);
    CallFrame(w, d, SlotOf(c));
    assert Fixed(Owner(c.to));
    match c
    case SetFactoryOnce(_, f) => assert Fixed(FactoryLocker(f));
    case SetCampaignFactoryOnce(_, _) => BindUnmoved(w, who, c, d);
    case SetStockCampaignImplementation(to, i) => assert Fixed(HasCampaigns(to)) && Fixed(Code(i));
    case SetRecruiterRewardsVault(_, _) | SetCommunityRewardsVault(_, _) | SetProtocolRevenueVault(_, _)
       | SetCreatorRewardsVault(_, _) => VaultUnmoved(w, who, c, d);
    case _ =>
  }

  lemma VaultUnmoved(w: World, who: Address, c: Call, d: Call)
    requires c.SetRecruiterRewardsVault? || c.SetCommunityRewardsVault? || c.SetProtocolRevenueVault?
             || c.SetCreatorRewardsVault?
    requires SlotOf(d) != SlotOf(c)
    ensures Accepts(After(w, d), who, c) <==> Accepts(w, who, c)
  {
    FixedFrame(w, d);
    CallFrame(w, d, SlotOf(c));
    assert Fixed(Owner(c.to)) && Fixed(Code(c.target));
  }

  lemma BindUnmoved(w: World, who: Address, c: Call, d: Call)
    requires c.SetCampaignFactoryOnce? && SlotOf(d) != SlotOf(c)
    ensures Accepts(After(w, d), who, c) <==> Accepts(w, who, c)
  {
    FixedFrame(w, d);
    CallFrame(w, d, SlotOf(c));
    assert Fixed(Owner(c.to)) && Fixed(FactoryLocker(c.target)) && Fixed(Code(c.target)) && Fixed(OnRobinhood(c.to));
    assert Fixed(Code(AccountAt(w, FactoryLocker(c.target))));
  }

  /** Nor does any other call's, but for the locker that has to be authorized before it is made primary. */
  lemma OtherUnmoved(w: World, who: Address, c: Call, d: Call)
    requires !SetOnce(c) && !c.SetStockCampaignImplementation? && !c.SetPrimaryLpLocker?
    requires SlotOf(d) != SlotOf(c)
    ensures Accepts(After(w, d), who, c) <==> Accepts(w, who, c)
  {
    FixedFrame(w, d);
    CallFrame(w, d, SlotOf(c));
    assert Fixed(Owner(c.to));
    match c
    case SetQuoteRoute(to, token, tier) => assert Fixed(Wrapped(to)) && Fixed(CanonicalPool(token, tier));
    case AuthorizeBatch(to, id, _, _, _) => assert Fixed(BatchExists(to, id));
    case ConfigureRoute(_, _, _) => RouteUnmoved(w, who, c, d);
    case _ =>
  }

  lemma RouteUnmoved(w: World, who: Address, c: Call, d: Call)
    requires c.ConfigureRoute? && SlotOf(d) != SlotOf(c)
    ensures Accepts(After(w, d), who, c) <==> Accepts(w, who, c)
  {
    FixedFrame(w, d);
    CallFrame(w, d, SlotOf(c));
    RouteFitsStable(w, d, c.to, c.token, c.newRoute);
    assert Fixed(Owner(c.to)) && Fixed(OnRobinhood(c.to)) && Fixed(OraclesAnswer(c.to, c.token));
  }

  lemma Unmoved(w: World, who: Address, c: Call, d: Call)
    requires SlotOf(d) != SlotOf(c) && !c.SetPrimaryLpLocker?
    ensures Accepts(After(w, d), who, c) <==> Accepts(w, who, c)
  {
    if SetOnce(c) || c.SetStockCampaignImplementation? {
      OnceUnmoved(w, who, c, d);
    } else {
      OtherUnmoved(w, who, c, d);
    }
  }

  /** No planned call can take back what makes another slot's call acceptable. */
  lemma AcceptStable(w: World, who: Address, c: Call, d: Call)
    requires Accepts(w, who, c)
    requires SlotOf(d) != SlotOf(c)
    ensures Accepts(After(w, d), who, c)
  {
    if c.SetPrimaryLpLocker? {
      FixedFrame(w, d);
      assert Fixed(Owner(c.to));
      LockerKept(w, d, c.to, c.target);
    } else {
      Unmoved(w, who, c, d);
    }
  }

  /** A locker once authorized stays authorized under planned calls. */
  lemma LockerKept(w: World, d: Call, router: Address, locker: Address)
    requires IsLocker(w, router, locker)
    ensures IsLocker(After(w, d), router, locker)
  {
    if SlotOf(d) != Lockers(router) {
      CallFrame(w, d, Lockers(router));
    } else {
      assert d.SetAuthorizedLpLocker? && d.to == router;
    }
  }

  /** A set-once call refuses its own repetition; every other planned call is taken again. */
  lemma RepeatRefused(w: World, who: Address, c: Call)
    requires Accepts(w, who, c)
    ensures Accepts(After(w, c), who, c) <==> !SetOnce(c)
  {
    FixedFrame(w, c);
    assert Fixed(Owner(c.to));
    match c
    case SetQuoteRoute(to, token, tier) => assert Fixed(Wrapped(to)) && Fixed(CanonicalPool(token, tier));
    case AuthorizeBatch(to, id, _, _, _) => assert Fixed(BatchExists(to, id));
    case ConfigureRoute(_, _, _) => RouteRepeats(w, who, c);
    case SetStockCampaignImplementation(to, i) => assert Fixed(HasCampaigns(to)) && Fixed(Code(i));
    case SetPrimaryLpLocker(to, locker) => LockerKept(w, c, to, locker);
    case _ =>
  }

  lemma RouteRepeats(w: World, who: Address, c: Call)
    requires c.ConfigureRoute? && Accepts(w, who, c)
    ensures Accepts(After(w, c), who, c)
  {
    FixedFrame(w, c);
    RouteFitsStable(w, c, c.to, c.token, c.newRoute);
    assert Fixed(Owner(c.to)) && Fixed(OnRobinhood(c.to)) && Fixed(OraclesAnswer(c.to, c.token));
  }

  /** ... nor make it acceptable, except that a locker must be authorized before it can be primary. */
  lemma AcceptNotGained(w: World, who: Address, c: Call, d: Call)
    requires Accepts(After(w, d), who, c)
    requires SlotOf(d) != SlotOf(c)
    requires c.SetPrimaryLpLocker? ==> d != SetAuthorizedLpLocker(c.to, c.target)
    ensures Accepts(w, who, c)
  {
    if c.SetPrimaryLpLocker? {
      FixedFrame(w, d);
      assert Fixed(Owner(c.to));
      if SlotOf(d) != Lockers(c.to) {
        CallFrame(w, d, Lockers(c.to));
      }
    } else {
      Unmoved(w, who, c, d);
    }
  }

  /** A refused set-once call stays refused, whatever the contracts accept meanwhile. */
  lemma OnceRefusedForever(w: World, who: Address, c: Call, d: Call)
    requires SetOnce(c) && !Accepts(w, who, c) && Accepts(w, who, d)
    ensures !Accepts(After(w, d), who, c)
  {
    if SlotOf(d) != SlotOf(c) {
      if Accepts(After(w, d), who, c) {
        AcceptNotGained(w, who, c, d);
      }
    } else {
      FixedFrame(w, d);
    }
  }

  /** A refused call is not taken after another one that writes the same slot either. */
  lemma SameSlotRefused(w: World, who: Address, c: Call, d: Call)
    requires !SetOnce(c) && !Accepts(w, who, c) && Accepts(w, who, d) && SlotOf(d) == SlotOf(c)
    ensures !Accepts(After(w, d), who, c)
  {
    FixedFrame(w, d);
    assert Fixed(Owner(c.to));
    match c
    case SetPrimaryLpLocker(to, locker) => CallFrame(w, d, Lockers(to));
    case SetQuoteRoute(to, token, tier) => assert Fixed(Wrapped(to)) && Fixed(CanonicalPool(token, tier));
    case AuthorizeBatch(to, id, _, _, _) => assert Fixed(BatchExists(to, id));
    case ConfigureRoute(to, token, r) => RouteFitsStable(w, d, to, token, r);
    case SetStockCampaignImplementation(to, i) => assert Fixed(HasCampaigns(to)) && Fixed(Code(i));
    case _ =>
  }

  /** The one call that makes a refused call acceptable: a locker's authorization, for making it primary. */
  predicate Frees(d: Call, c: Call) {
    c.SetPrimaryLpLocker? && d == SetAuthorizedLpLocker(c.to, c.target)
  }

  /** Exactly when an accepted call ends another one's refusal. */
  lemma RefusalEnds(w: World, who: Address, c: Call, d: Call)
    requires !Accepts(w, who, c) && Accepts(w, who, d)
    ensures Accepts(After(w, d), who, c) <==> Frees(d, c)
  {
    if Frees(d, c) {
      FixedFrame(w, d);
      assert Fixed(Owner(c.to));
    } else if SetOnce(c) {
      OnceRefusedForever(w, who, c, d);
    } else if SlotOf(d) == SlotOf(c) {
      SameSlotRefused(w, who, c, d);
    } else if Accepts(After(w, d), who, c) {
      AcceptNotGained(w, who, c, d);
      assert false;
    }
  }

  /** The primary locker may be set again and again once it is authorized. */
  lemma PrimaryStays(w: World, who: Address, c: Call, d: Call)
    requires c.SetPrimaryLpLocker? && Accepts(w, who, c)
    ensures Accepts(After(w, d), who, c)
  {
    FixedFrame(w, d);
    assert Fixed(Owner(c.to));
    LockerKept(w, d, c.to, c.target);
  }

  /** The chain as a script reaches it: reads, `eth_call` and transactions from one key at a time. */
  class Network {
    var world: World

    constructor (genesis: World)
      ensures world == genesis
    {
      world := genesis;
    }

    /** `eth_call`: would the contract take the call now? */
    method EthCall(who: Address, c: Call) returns (ok: bool)
      ensures ok == Accepts(world, who, c)
    {
      ok := Accepts(world, who, c);
    }

    /** Sends one call; a revert changes nothing. */
    method Send(who: Address, c: Call) returns (ok: bool)
      modifies this
      ensures ok == Accepts(old(world), who, c)
      ensures world == if ok then After(old(world), c) else old(world)
    {
      ok := Accepts(world, who, c);
      if ok {
        world := After(world, c);
      }
    }
  }
}
