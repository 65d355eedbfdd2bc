/** Fees stack batches: A and its gen-7 cut A7, batch B from the chain, batch B7 and batch H7. */
module Treasury {
  import opened Chain
  import opened Planning

  datatype Dex = Topaz | UniswapV3

  datatype Pins = Pins(safe: Address, oldFactory: Address, recruiter: Address, community: Address, protocol: Address,
                       payoutOperator: Address, dex: Dex)

  datatype Stack = Stack(router: Address, vault: Address, holderDistributor: Address)

  /** An owner action of the generation record; described-only entries carry no data. */
  datatype OwnerAction = Described | Data(call: Call)

  /** The generation record; an absent registry or adapter is the zero address. */
  datatype Generation = Generation(factory: Address, locker: Address, registry: Address, quoteAdapter: Address,
                                   nativeAdapter: Address, stockAdapter: Address, ownerActions: seq<OwnerAction>)

  datatype Refusal =
    | LockerMismatch | FeesMismatch | OtherLocker | VaultPinnedTo(factory: Address)
    | AdapterLockedTo(factory: Address) | AdapterAdmin(admin: Address) | RegistryOwner(owner: Address)
    | PayoutOperatorReused | ActionNotInBatch(action: Call)

  datatype Planned = Refused(why: Refusal) | Batch(calls: seq<Call>)

  // ------------------------------------------------------------------ batches A and A7

  function BatchACalls(p: Pins, d: Stack, caps: Caps): seq<Call> {
    [ SetCreatePaused(p.oldFactory, true),
      SetRecruiterRewardsVault(d.router, p.recruiter),
      SetCommunityRewardsVault(d.router, p.community),
      SetProtocolRevenueVault(d.router, p.protocol),
      SetCreatorRewardsVault(d.router, d.vault),
      SetRouter(p.community, d.router),
      SetBatchOperator(d.holderDistributor, d.vault),
      SetHolderDistributorOnce(d.vault, d.holderDistributor),
      SetOperator(d.vault, p.payoutOperator),
      SetCaps(d.vault, caps) ]
  }

  function WithoutBreaking(calls: seq<Call>): seq<Call> {
    if calls == [] then []
    else (if calls[0].SetCreatePaused? || calls[0].SetRouter? then [] else [calls[0]]) + WithoutBreaking(calls[1..])
  }

  /** Batch A minus the two calls that would break gen-6. */
  function BatchA7Calls(p: Pins, d: Stack, caps: Caps): seq<Call> {
    WithoutBreaking(BatchACalls(p, d, caps))
  }

  /** What is left of A: the fees stack's own setters. */
  lemma A7Listed(p: Pins, d: Stack, caps: Caps)
    ensures BatchA7Calls(p, d, caps) ==
            [ SetRecruiterRewardsVault(d.router, p.recruiter), SetCommunityRewardsVault(d.router, p.community),
              SetProtocolRevenueVault(d.router, p.protocol), SetCreatorRewardsVault(d.router, d.vault),
              SetBatchOperator(d.holderDistributor, d.vault), SetHolderDistributorOnce(d.vault, d.holderDistributor),
              SetOperator(d.vault, p.payoutOperator), SetCaps(d.vault, caps) ]
  {
    WithoutTwo(BatchACalls(p, d, caps));
  }

  lemma WithoutTwo(a: seq<Call>)
    requires |a| == 10 && a[0].SetCreatePaused? && a[5].SetRouter?
    requires forall i :: 0 <= i < 10 && i != 0 && i != 5 ==> !a[i].SetCreatePaused? && !a[i].SetRouter?
    ensures WithoutBreaking(a) == a[1..5] + a[6..]
  {
    KeepsAll(a[6..]);
    KeepsAll(a[1..5]);
    assert a[1..] == a[1..5] + a[5..];
    assert a[5..][1..] == a[6..];
    WithoutConcat(a[1..5], a[5..]);
  }

  lemma KeepsAll(calls: seq<Call>)
    requires forall i :: 0 <= i < |calls| ==> !calls[i].SetCreatePaused? && !calls[i].SetRouter?
    ensures WithoutBreaking(calls) == calls
  {
  }

  lemma {:induction false} WithoutConcat(xs: seq<Call>, ys: seq<Call>)
    ensures WithoutBreaking(xs + ys) == WithoutBreaking(xs) + WithoutBreaking(ys)
  {
    if xs == [] {
      assert xs + ys == ys;
    } else {
      assert (xs + ys)[0] == xs[0] && (xs + ys)[1..] == xs[1..] + ys;
      WithoutConcat(xs[1..], ys);
    }
  }

  /** The `done` table of the batches step, by function name. */
  datatype DoneTable = DoneTable(recruiter: bool, community: bool, protocol: bool, creator: bool, batchOperator: bool,
                                 holderDistributor: bool, operator: bool, caps: bool)
  {
    predicate Covers(c: Call) {
      match c
      case SetRecruiterRewardsVault(_, _) => recruiter
      case SetCommunityRewardsVault(_, _) => community
      case SetProtocolRevenueVault(_, _) => protocol
      case SetCreatorRewardsVault(_, _) => creator
      case SetBatchOperator(_, _) => batchOperator
      case SetHolderDistributorOnce(_, _) => holderDistributor
      case SetOperator(_, _) => operator
      case SetCaps(_, _) => caps
      case _ => false
    }
  }

  function DoneFor(w: World, p: Pins, d: Stack, caps: Caps): DoneTable {
    DoneTable(
      AccountAt(w, Recruiter(d.router)) == p.recruiter,
      AccountAt(w, Community(d.router)) == p.community,
      AccountAt(w, Protocol(d.router)) == p.protocol,
      AccountAt(w, Creator(d.router)) == d.vault,
      AccountAt(w, BatchOperator(d.holderDistributor)) == d.vault,
      AccountAt(w, HolderDistributor(d.vault)) == d.holderDistributor,
      OperatorAt(w, d.vault) == p.payoutOperator,
      CapsAt(w, d.vault) == caps)
  }

  /** On A7 the table by name says what the guard of each call says. */
  lemma TableMatchesGuards(w: World, p: Pins, d: Stack, caps: Caps, all: seq<Call>, i: nat)
    requires all == BatchA7Calls(p, d, caps) && i < |all|
    ensures DoneFor(w, p, d, caps).Covers(all[i]) == IsDone(SameGuard, w, all[i])
  {
    A7Listed(p, d, caps);
  }

  /** A7 filtered to what the chain lacks. */
  method PlanBatchA7(p: Pins, d: Stack, caps: Caps, net: Network) returns (calls: seq<Call>)
    ensures calls == Missing(SameGuard, net.world, BatchA7Calls(p, d, caps))
  {
    var w := net.world;
    var done := DoneFor(w, p, d, caps);
    var all := BatchA7Calls(p, d, caps);
    calls := [];
    for i := 0 to |all|
      invariant calls == Pushed(SameGuard, w, all, i)
    {
      TableMatchesGuards(w, p, d, caps, all, i);
      if !done.Covers(all[i]) {
        calls := calls + [all[i]];
      }
    }
    PushedIsMissing(SameGuard, w, all, |all|);
  }

  // ------------------------------------------------------------------ batch B from the chain

  function Join(a: Planned, b: Planned): Planned {
    match a
    case Refused(_) => a
    case Batch(xs) =>
      match b
      case Refused(_) => b
      case Batch(ys) => Batch(xs + ys)
  }

  function PlanLocker(w: World, d: Stack, g: Generation): Planned {
    var pinned := AccountAt(w, VaultFactory(d.vault));
    if !IsLocker(w, d.router, g.locker) && AnyLocker(w, d.router) then Refused(OtherLocker)
    else if pinned != ZERO && pinned != g.factory then Refused(VaultPinnedTo(pinned))
    else Batch(Missing(ZeroGuard, w, LockerCalls(d, g)))
  }

  function LockerCalls(d: Stack, g: Generation): seq<Call> {
    [ SetAuthorizedLpLocker(d.router, g.locker), SetPrimaryLpLocker(d.router, g.locker),
      SetFactoryOnce(d.vault, g.factory) ]
  }

  function AdapterCall(adapter: Address, factory: Address): seq<Call> {
    if adapter == ZERO then [] else [SetCampaignFactoryOnce(adapter, factory)]
  }

  function PlanAdapter(w: World, safe: Address, adapter: Address, factory: Address): Planned {
    var bound := AccountAt(w, AdapterFactory(adapter));
    if adapter == ZERO then Batch([])
    else if bound != ZERO then (if bound != factory then Refused(AdapterLockedTo(bound)) else Batch([]))
    else if AccountAt(w, Owner(adapter)) != safe then Refused(AdapterAdmin(AccountAt(w, Owner(adapter))))
    else Batch([SetCampaignFactoryOnce(adapter, factory)])
  }

  function RecorderCall(registry: Address, factory: Address): seq<Call> {
    if registry == ZERO then [] else [SetLaunchRecorder(registry, factory)]
  }

  function PlanRecorder(w: World, safe: Address, registry: Address, factory: Address): Planned {
    if registry == ZERO || FlagAt(w, Recorder(registry, factory)) then Batch([])
    else if AccountAt(w, Owner(registry)) != safe then Refused(RegistryOwner(AccountAt(w, Owner(registry))))
    else Batch([SetLaunchRecorder(registry, factory)])
  }

  datatype NewOperator = KeepOperator | Dedicated(key: Address)

  function OperatorCall(d: Stack, operator: NewOperator): seq<Call> {
    match operator
    case KeepOperator => []
    case Dedicated(key) => [SetOperator(d.vault, key)]
  }

  function PlanOperator(w: World, p: Pins, d: Stack, operator: NewOperator): Planned {
    match operator
    case KeepOperator => Batch([])
    case Dedicated(key) =>
      if key == p.payoutOperator then Refused(PayoutOperatorReused)
      else Batch(if OperatorAt(w, d.vault) == key then [] else [SetOperator(d.vault, key)])
  }

  function PlanDex(w: World, p: Pins, g: Generation): Planned {
    match p.dex
    case Topaz =>
      Join(PlanRecorder(w, p.safe, g.registry, g.factory), PlanAdapter(w, p.safe, g.quoteAdapter, g.factory))
    case UniswapV3 =>
      Join(PlanAdapter(w, p.safe, g.nativeAdapter, g.factory), PlanAdapter(w, p.safe, g.stockAdapter, g.factory))
  }

  function DexCalls(p: Pins, g: Generation): seq<Call> {
    match p.dex
    case Topaz => RecorderCall(g.registry, g.factory) + AdapterCall(g.quoteAdapter, g.factory)
    case UniswapV3 => AdapterCall(g.nativeAdapter, g.factory) + AdapterCall(g.stockAdapter, g.factory)
  }

  /** The recorded actions that carry call data. */
  function DataActions(actions: seq<OwnerAction>): seq<Call> {
    if actions == [] then []
    else (if actions[0].Data? then [actions[0].call] else []) + DataActions(actions[1..])
  }

  /** Everything batch B may contain for this generation, in order. */
  function CandidatesB(p: Pins, d: Stack, g: Generation, operator: NewOperator): seq<Call> {
    LockerCalls(d, g) + DexCalls(p, g) + OperatorCall(d, operator)
  }

  function PlanParts(w: World, p: Pins, d: Stack, g: Generation, operator: NewOperator): Planned {
    if AccountAt(w, FactoryLocker(g.factory)) != g.locker then Refused(LockerMismatch)
    else if AccountAt(w, FeeRecipient(g.factory)) != d.router then Refused(FeesMismatch)
    else Join(Join(PlanLocker(w, d, g), PlanDex(w, p, g)), PlanOperator(w, p, d, operator))
  }

  /** batchBFromChain. */
  function PlanB(w: World, p: Pins, d: Stack, g: Generation, operator: NewOperator): Planned {
    match PlanParts(w, p, d, g, operator)
    case Refused(why) => Refused(why)
    case Batch(calls) =>
      match FirstUncovered(w, p.safe, DataActions(g.ownerActions), calls)
      case Action(a) => Refused(ActionNotInBatch(a))
      case Nothing => Batch(calls)
  }

  method BindAdapter(net: Network, safe: Address, adapter: Address, factory: Address) returns (planned: Planned)
    ensures planned == PlanAdapter(net.world, safe, adapter, factory)
  {
    if adapter == ZERO { return Batch([]); }
    var bound := AccountAt(net.world, AdapterFactory(adapter));
    if bound != ZERO {
      if bound != factory { return Refused(AdapterLockedTo(bound)); }
      return Batch([]);
    }
    var admin := AccountAt(net.world, Owner(adapter));
    if admin != safe { return Refused(AdapterAdmin(admin)); }
    return Batch([SetCampaignFactoryOnce(adapter, factory)]);
  }

  /** The locker's authorization and the vault's pin, or the refusal. */
  method BindLocker(d: Stack, g: Generation, net: Network) returns (planned: Planned)
    ensures planned == PlanLocker(net.world, d, g)
  {
    var w := net.world;
    var calls: seq<Call> := [];
    if !IsLocker(w, d.router, g.locker) {
      if AnyLocker(w, d.router) { return Refused(OtherLocker); }
      calls := calls + [SetAuthorizedLpLocker(d.router, g.locker)];
    }
    assert calls == Pushed(ZeroGuard, w, LockerCalls(d, g), 1);
    if AccountAt(w, PrimaryLocker(d.router)) != g.locker { calls := calls + [SetPrimaryLpLocker(d.router, g.locker)]; }
    assert calls == Pushed(ZeroGuard, w, LockerCalls(d, g), 2);
    var pinned := AccountAt(w, VaultFactory(d.vault));
    if pinned == ZERO {
      calls := calls + [SetFactoryOnce(d.vault, g.factory)];
    } else if pinned != g.factory {
      return Refused(VaultPinnedTo(pinned));
    }
    PushedIsMissing(ZeroGuard, w, LockerCalls(d, g), 3);
    assert calls == Pushed(ZeroGuard, w, LockerCalls(d, g), 3);
    return Batch(calls);
  }

  /** The recorder and the adapters of the chain's kind, or the refusal. */
  method BindDex(p: Pins, g: Generation, net: Network) returns (planned: Planned)
    ensures planned == PlanDex(net.world, p, g)
  {
    var w := net.world;
    if p.dex == Topaz {
      var recorders: seq<Call> := [];
      if g.registry != ZERO {
        if !FlagAt(w, Recorder(g.registry, g.factory)) {
          var owner := AccountAt(w, Owner(g.registry));
          if owner != p.safe { return Refused(RegistryOwner(owner)); }
          recorders := [SetLaunchRecorder(g.registry, g.factory)];
        }
      }
      var quote := BindAdapter(net, p.safe, g.quoteAdapter, g.factory);
      if quote.Refused? { return quote; }
      return Batch(recorders + quote.calls);
    }
    var native := BindAdapter(net, p.safe, g.nativeAdapter, g.factory);
    if native.Refused? { return native; }
    var stock := BindAdapter(net, p.safe, g.stockAdapter, g.factory);
    if stock.Refused? { return stock; }
    return Batch(native.calls + stock.calls);
  }

  /** Batch B from chain state and the two records, push by push. */
  method BatchBFromChain(p: Pins, d: Stack, g: Generation, operator: NewOperator, net: Network)
    returns (planned: Planned)
    ensures planned == PlanB(net.world, p, d, g, operator)
  {
    var w := net.world;
    if AccountAt(w, FactoryLocker(g.factory)) != g.locker { return Refused(LockerMismatch); }
    if AccountAt(w, FeeRecipient(g.factory)) != d.router { return Refused(FeesMismatch); }
    var first := BindLocker(d, g, net);
    if first.Refused? { return first; }
    var dex := BindDex(p, g, net);
    if dex.Refused? { return dex; }
    var calls := first.calls + dex.calls;
    assert Join(first, PlanDex(w, p, g)) == Batch(calls);
    if operator.Dedicated? {
      if operator.key == p.payoutOperator { return Refused(PayoutOperatorReused); }
      if OperatorAt(w, d.vault) != operator.key { calls := calls + [SetOperator(d.vault, operator.key)]; }
    }
    assert PlanParts(w, p, d, g, operator) == Batch(calls);
    var uncovered := CheckCoverage(net, p.safe, DataActions(g.ownerActions), calls);
    if uncovered.Action? { return Refused(ActionNotInBatch(uncovered.call)); }
    return Batch(calls);
  }

  // ------------------------------------------------------------------ batches B7 and H7

  /** B7 adds the shared registry and, if the deployer could not, the stock implementation. */
  function PlanB7(w: World, p: Pins, d: Stack, g: Generation, registry: Address,
                  stockImplementation: Address): Planned {
    match PlanB(w, p.(dex := UniswapV3), d, g, KeepOperator)
    case Refused(why) => Refused(why)
    case Batch(calls) =>
      if !FlagAt(w, Recorder(registry, g.factory)) && AccountAt(w, Owner(registry)) != p.safe
      then Refused(RegistryOwner(AccountAt(w, Owner(registry))))
      else Batch(calls + Missing(ZeroGuard, w, SharedCalls(g, registry, stockImplementation)))
  }

  function SharedCalls(g: Generation, registry: Address, stockImplementation: Address): seq<Call> {
    [ SetLaunchRecorder(registry, g.factory), SetStockCampaignImplementation(g.factory, stockImplementation) ]
  }

  method BatchB7FromChain(p: Pins, d: Stack, g: Generation, registry: Address, stockImplementation: Address,
                          net: Network)
    returns (planned: Planned)
    ensures planned == PlanB7(net.world, p, d, g, registry, stockImplementation)
  {
    planned := BatchBFromChain(p.(dex := UniswapV3), d, g, KeepOperator, net);
    if planned.Refused? { return; }
    var w := net.world;
    var calls: seq<Call> := [];
    if !FlagAt(w, Recorder(registry, g.factory)) {
      var owner := AccountAt(w, Owner(registry));
      if owner != p.safe { return Refused(RegistryOwner(owner)); }
      calls := calls + [SetLaunchRecorder(registry, g.factory)];
    }
    assert calls == Pushed(ZeroGuard, w, SharedCalls(g, registry, stockImplementation), 1);
    if AccountAt(w, StockImplementation(g.factory)) == ZERO {
      calls := calls + [SetStockCampaignImplementation(g.factory, stockImplementation)];
    }
    assert calls == Pushed(ZeroGuard, w, SharedCalls(g, registry, stockImplementation), 2);
    PushedIsMissing(ZeroGuard, w, SharedCalls(g, registry, stockImplementation), 2);
    return Batch(planned.calls + calls);
  }

  /** H7 is written whole, whatever the chain says. */
  function BatchH7Calls(factory: Address, gen6Factory: Address): seq<Call> {
    [ EnableLive(factory), SetCreatePaused(factory, false), SetCreatePaused(gen6Factory, true) ]
  }
}
