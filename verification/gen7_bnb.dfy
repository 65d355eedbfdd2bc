/**
 The gen-7 rollout on BNB: the planners of batch B (bind) and batch H (open), the run that sends B on the
 testnet, and what the whole rollout keeps.
 */
module Gen7Bnb {
  import opened Chain
  import opened Planning

  /** One pre-authorized week of the airdrop pot, as the id generator lists it at planning time. */
  datatype Week = Week(id: nat, cap: nat, publishAfter: nat, deadline: nat)

  datatype AirdropPot = NoPot | Pot(distributor: Address, operator: Address, weeks: seq<Week>)

  /** What the deploy recorded: the gen-7 contracts, the inputs, the owner actions it could not send. */
  datatype Record = Record(
    admin: Address, router: Address, vault: Address, holderDistributor: Address, community: Address,
    factory: Address, locker: Address, quoteAdapter: Address, registry: Address,
    recruiter: Address, protocol: Address, operator: Address, caps: Caps,
    ownerActions: seq<Call>, pot: AirdropPot, gen6Factory: Address)

  datatype Refusal =
    | OtherLocker | VaultPinnedTo(factory: Address) | AdapterBoundTo(factory: Address)
    | ActionNotInBatch(action: Call) | NoAirdropPot

  datatype Planned = Refused(why: Refusal) | Batch(calls: seq<Call>)

  // ------------------------------------------------------------------ batch B

  function BindCalls(rec: Record): seq<Call> {
    [ SetRecruiterRewardsVault(rec.router, rec.recruiter),
      SetCommunityRewardsVault(rec.router, rec.community),
      SetProtocolRevenueVault(rec.router, rec.protocol),
      SetCreatorRewardsVault(rec.router, rec.vault),
      SetBatchOperator(rec.holderDistributor, rec.vault),
      SetHolderDistributorOnce(rec.vault, rec.holderDistributor),
      SetOperator(rec.vault, rec.operator),
      SetCaps(rec.vault, rec.caps),
      SetAuthorizedLpLocker(rec.router, rec.locker),
      SetPrimaryLpLocker(rec.router, rec.locker),
      SetFactoryOnce(rec.vault, rec.factory),
      SetLaunchRecorder(rec.registry, rec.factory),
      SetCampaignFactoryOnce(rec.quoteAdapter, rec.factory) ]
  }

  function WeekCalls(distributor: Address, weeks: seq<Week>): (calls: seq<Call>)
    ensures |calls| == |weeks|
    ensures forall i :: 0 <= i < |weeks| ==>
              calls[i] == AuthorizeBatch(distributor, weeks[i].id, weeks[i].cap, weeks[i].publishAfter,
                                         weeks[i].deadline)
  {
    if weeks == [] then []
    else [AuthorizeBatch(distributor, weeks[0].id, weeks[0].cap, weeks[0].publishAfter, weeks[0].deadline)]
         + WeekCalls(distributor, weeks[1..])
  }

  lemma {:induction false} WeekMembers(distributor: Address, weeks: seq<Week>, c: Call)
    requires c in WeekCalls(distributor, weeks)
    ensures c.AuthorizeBatch? && c.to == distributor
  {
    if c != WeekCalls(distributor, weeks)[0] {
      WeekMembers(distributor, weeks[1..], c);
    }
  }

  /** airdropSetupCalls for the gen-7 pot: wiring, then the weeks. */
  function PotCalls(community: Address, pot: AirdropPot): seq<Call>
    requires pot.Pot?
  {
    [ SetRewardDistributor(community, pot.distributor),
      SetAirdropOperator(community, pot.operator),
      SetBatchOperator(pot.distributor, community) ] + WeekCalls(pot.distributor, pot.weeks)
  }

  function Candidates(rec: Record): seq<Call>
    requires rec.pot.Pot?
  {
    BindCalls(rec) + PotCalls(rec.community, rec.pot)
  }

  /** The refusals that stop batch B while its bindings are planned, in the order the guards are reached. */
  function PlanBind(rec: Record, w: World): Planned {
    var pinned, bound := AccountAt(w, VaultFactory(rec.vault)), AccountAt(w, AdapterFactory(rec.quoteAdapter));
    if !IsLocker(w, rec.router, rec.locker) && AnyLocker(w, rec.router) then Refused(OtherLocker)
    else if pinned != ZERO && pinned != rec.factory then Refused(VaultPinnedTo(pinned))
    else if bound != ZERO && bound != rec.factory then Refused(AdapterBoundTo(bound))
    else Batch(Missing(ZeroGuard, w, BindCalls(rec)))
  }

  /** planBatchB: the bindings and the airdrop pot the chain still lacks, or why there is no batch. */
  function PlanB(rec: Record, w: World): Planned {
    match PlanBind(rec, w)
    case Refused(why) => Refused(why)
    case Batch(core) =>
      match FirstUncovered(w, rec.admin, rec.ownerActions, core)
      case Action(a) => Refused(ActionNotInBatch(a))
      case Nothing =>
        if rec.pot.NoPot? then Refused(NoAirdropPot)
        else Batch(core + Missing(ZeroGuard, w, PotCalls(rec.community, rec.pot)))
  }

  /** The router's four vaults, push by push. */
  method PlanRouter(rec: Record, net: Network) returns (calls: seq<Call>)
    ensures calls == Pushed(ZeroGuard, net.world, BindCalls(rec), 4)
  {
    var w := net.world;
    ghost var all := BindCalls(rec);
    calls := [];
    if AccountAt(w, Recruiter(rec.router)) == ZERO {
      calls := calls + [SetRecruiterRewardsVault(rec.router, rec.recruiter)];
    }
    assert calls == Pushed(ZeroGuard, w, all, 1);
    if AccountAt(w, Community(rec.router)) == ZERO {
      calls := calls + [SetCommunityRewardsVault(rec.router, rec.community)];
    }
    assert calls == Pushed(ZeroGuard, w, all, 2);
    if AccountAt(w, Protocol(rec.router)) == ZERO {
      calls := calls + [SetProtocolRevenueVault(rec.router, rec.protocol)];
    }
    if AccountAt(w, Creator(rec.router)) == ZERO { calls := calls + [SetCreatorRewardsVault(rec.router, rec.vault)]; }
  }

  /** ... and the setters of the vault and its distributor. */
  method PlanVaults(rec: Record, net: Network) returns (calls: seq<Call>)
    ensures calls == Pushed(ZeroGuard, net.world, BindCalls(rec), 8)
  {
    var w := net.world;
    ghost var all := BindCalls(rec);
    calls := PlanRouter(rec, net);
    if AccountAt(w, BatchOperator(rec.holderDistributor)) != rec.vault {
      calls := calls + [SetBatchOperator(rec.holderDistributor, rec.vault)];
    }
    if AccountAt(w, HolderDistributor(rec.vault)) == ZERO {
      calls := calls + [SetHolderDistributorOnce(rec.vault, rec.holderDistributor)];
    }
    assert calls == Pushed(ZeroGuard, w, all, 6);
    if OperatorAt(w, rec.vault) != rec.operator { calls := calls + [SetOperator(rec.vault, rec.operator)]; }
    if CapsAt(w, rec.vault) != rec.caps { calls := calls + [SetCaps(rec.vault, rec.caps)]; }
  }

  /** Locker, factory pin, launch recorder and quote adapter after the vault setters, or the refusal. */
  method PlanBindings(rec: Record, net: Network) returns (planned: Planned)
    ensures planned == PlanBind(rec, net.world)
  {
    var w := net.world;
    ghost var all := BindCalls(rec);
    var calls := PlanVaults(rec, net);
    if !IsLocker(w, rec.router, rec.locker) {
      if AnyLocker(w, rec.router) { return Refused(OtherLocker); }
      calls := calls + [SetAuthorizedLpLocker(rec.router, rec.locker)];
    }
    if AccountAt(w, PrimaryLocker(rec.router)) != rec.locker {
      calls := calls + [SetPrimaryLpLocker(rec.router, rec.locker)];
    }
    assert calls == Pushed(ZeroGuard, w, all, 10);
    var pinned := AccountAt(w, VaultFactory(rec.vault));
    if pinned == ZERO {
      calls := calls + [SetFactoryOnce(rec.vault, rec.factory)];
    } else if pinned != rec.factory {
      return Refused(VaultPinnedTo(pinned));
    }
    if !FlagAt(w, Recorder(rec.registry, rec.factory)) {
      calls := calls + [SetLaunchRecorder(rec.registry, rec.factory)];
    }
    assert calls == Pushed(ZeroGuard, w, all, 12);
    var bound := AccountAt(w, AdapterFactory(rec.quoteAdapter));
    if bound == ZERO {
      calls := calls + [SetCampaignFactoryOnce(rec.quoteAdapter, rec.factory)];
    } else if bound != rec.factory {
      return Refused(AdapterBoundTo(bound));
    }
    assert calls == Pushed(ZeroGuard, w, all, 13);
    PushedIsMissing(ZeroGuard, w, all, 13);
    return Batch(calls);
  }

  /** Batch B from the record and the chain. */
  method PlanBatchB(rec: Record, net: Network) returns (planned: Planned)
    ensures planned == PlanB(rec, net.world)
  {
    planned := PlanBindings(rec, net);
    if planned.Refused? { return; }
    var calls := planned.calls;
    var uncovered := CheckCoverage(net, rec.admin, rec.ownerActions, calls);
    if uncovered.Action? { return Refused(ActionNotInBatch(uncovered.call)); }
    if rec.pot.NoPot? { return Refused(NoAirdropPot); }
    var pot := EmitMissing(net, ZeroGuard, PotCalls(rec.community, rec.pot));
    return Batch(calls + pot);
  }

  // ------------------------------------------------------------------ batch H

  function OpenCalls(rec: Record): seq<Call> {
    [ EnableLive(rec.factory), SetCreatePaused(rec.factory, false), SetCreatePaused(rec.gen6Factory, true) ]
  }

  /** planBatchH: gen-7 live and open, gen-6 closed for creates (C11). */
  method PlanBatchH(rec: Record, net: Network) returns (calls: seq<Call>)
    ensures calls == Missing(ZeroGuard, net.world, OpenCalls(rec))
  {
    var w := net.world;
    ghost var all := OpenCalls(rec);
    calls := [];
    if !FlagAt(w, Live(rec.factory)) { calls := calls + [EnableLive(rec.factory)]; }
    assert calls == Pushed(ZeroGuard, w, all, 1);
    if FlagAt(w, CreatePaused(rec.factory)) { calls := calls + [SetCreatePaused(rec.factory, false)]; }
    if !FlagAt(w, CreatePaused(rec.gen6Factory)) { calls := calls + [SetCreatePaused(rec.gen6Factory, true)]; }
    PushedIsMissing(ZeroGuard, w, all, 3);
  }

  // ------------------------------------------------------------------ the simulation and the testnet run

  /** This script's replay rule: no primary-locker call is replayed in a batch that authorizes any locker. */
  predicate Skipped(calls: seq<Call>, i: nat)
    requires i < |calls|
  {
    calls[i].SetPrimaryLpLocker? && exists c :: c in calls && c.SetAuthorizedLpLocker?
  }

  predicate SimulatedLoosely(w: World, who: Address, calls: seq<Call>) {
    forall i :: 0 <= i < |calls| && !Skipped(calls, i) ==> Accepts(w, who, calls[i])
  }

  /** The replayed calls among the first `n` that the contracts refuse, in order. */
  function RefusedLoosely(w: World, who: Address, calls: seq<Call>, n: nat): seq<Call>
    requires n <= |calls|
  {
    if n == 0 then []
    else
      RefusedLoosely(w, who, calls, n - 1)
      + if Skipped(calls, n - 1) || Accepts(w, who, calls[n - 1]) then [] else [calls[n - 1]]
  }

  lemma {:induction false} NothingRefused(w: World, who: Address, calls: seq<Call>, n: nat)
    requires n <= |calls|
    ensures RefusedLoosely(w, who, calls, n) == []
            <==> forall j :: 0 <= j < n && !Skipped(calls, j) ==> Accepts(w, who, calls[j])
  {
    if 0 < n {
      NothingRefused(w, who, calls, n - 1);
    }
  }

  /** simulate: lists the replayed calls the admin could not make now, in order. */
  method Simulate(net: Network, who: Address, calls: seq<Call>) returns (refusals: seq<Call>)
    ensures refusals == RefusedLoosely(net.world, who, calls, |calls|)
    ensures refusals == [] <==> SimulatedLoosely(net.world, who, calls)
  {
    refusals := [];
    NothingRefused(net.world, who, calls, |calls|);
    for i := 0 to |calls|
      invariant refusals == RefusedLoosely(net.world, who, calls, i)
    {
      if !(calls[i].SetPrimaryLpLocker? && exists c :: c in calls && c.SetAuthorizedLpLocker?) {
        var ok := net.EthCall(who, calls[i]);
        if !ok {
          refusals := refusals + [calls[i]];
        }
      }
    }
  }

  datatype Run = NotPlanned(why: Refusal) | SimulationFailed | CutShort | NotReplanned(reason: Refusal)
    | StillMissing(left: seq<Call>) | Bound

  /**
   The testnet stage: plan B, simulate, send it call by call, plan again. `stop` is where the process may die; `later`
   is the pot as the generator lists it when the batch is planned again.
   */
  method BindOnTestnet(rec: Record, later: AirdropPot, net: Network, stop: nat) returns (run: Run)
    modifies net
    ensures run.NotPlanned? <==> PlanB(rec, old(net.world)).Refused?
    ensures run.NotPlanned? || run.SimulationFailed? ==> net.world == old(net.world)
    ensures PlanB(rec, old(net.world)).Batch? ==>
              (run.SimulationFailed?
               <==> !SimulatedLoosely(old(net.world), rec.admin, PlanB(rec, old(net.world)).calls))
    ensures run.CutShort? ==>
              var plan := PlanB(rec, old(net.world)).calls;
              exists k :: 0 <= k < |plan| && ExecAll(old(net.world), rec.admin, plan[..k]) == Done(net.world)
    ensures run.NotReplanned? || run.StillMissing? || run.Bound? ==>
              ExecAll(old(net.world), rec.admin, PlanB(rec, old(net.world)).calls) == Done(net.world)
    ensures run.StillMissing? || run.Bound? ==>
              PlanB(rec.(pot := later), net.world) == Batch(if run.Bound? then [] else run.left)
    ensures run.NotReplanned? ==> PlanB(rec.(pot := later), net.world) == Refused(run.reason)
    ensures run.CutShort? ==>
              var plan := PlanB(rec, old(net.world)).calls;
              ExecAll(old(net.world), rec.admin, plan).Reverted? || stop < |plan|
  {
    var planned := PlanBatchB(rec, net);
    if planned.Refused? { return NotPlanned(planned.why); }
    var refusals := Simulate(net, rec.admin, planned.calls);
    if refusals != [] { return SimulationFailed; }
    ghost var before := net.world;
    var sent := SendInOrder(net, rec.admin, planned.calls, stop);
    if sent < |planned.calls| {
      RefusedCallRefusesBatch(before, rec.admin, planned.calls, sent, stop, net.world);
      return CutShort;
    }
    assert planned.calls[..sent] == planned.calls;
    var again := PlanBatchB(rec.(pot := later), net);
    if again.Refused? { return NotReplanned(again.why); }
    if again.calls != [] { return StillMissing(again.calls); }
    return Bound;
  }

  lemma RefusedCallRefusesBatch(w: World, who: Address, calls: seq<Call>, sent: nat, stop: nat, t: World)
    requires sent < |calls| && ExecAll(w, who, calls[..sent]) == Done(t)
    requires sent < stop ==> !Accepts(t, who, calls[sent])
    ensures ExecAll(w, who, calls).Reverted? || stop <= sent
  {
    assert calls[..sent] + calls[sent..] == calls;
    ExecAllConcat(w, who, calls[..sent], calls[sent..]);
  }
}
