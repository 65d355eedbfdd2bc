/** Two generations side by side: what a generation's trades and creates read, and what leaves it alone. */
module Generations {
  import opened Common
  import opened Chain
  import opened Planning

  function RouterOf(w: World, factory: Address): Address { AccountAt(w, FeeRecipient(factory)) }
  function VaultOf(w: World, factory: Address): Address { AccountAt(w, Creator(RouterOf(w, factory))) }
  function CommunityOf(w: World, factory: Address): Address { AccountAt(w, Community(RouterOf(w, factory))) }

  /**
   TreasuryRouterV4._routeTrade does not revert for the factory's coins: four vaults, two of which pay only this router.
   */
  predicate TradeReady(w: World, factory: Address) {
    var router := RouterOf(w, factory);
    && AccountAt(w, Recruiter(router)) != ZERO && CommunityOf(w, factory) != ZERO
    && AccountAt(w, Protocol(router)) != ZERO && VaultOf(w, factory) != ZERO
    && AccountAt(w, VaultRouter(VaultOf(w, factory))) == router
    && AccountAt(w, CommunityRouter(CommunityOf(w, factory))) == router
  }

  /** setCampaignChoice answers the factory: the vault its router pays is pinned to it. */
  predicate CreateReady(w: World, factory: Address) {
    VaultOf(w, factory) != ZERO && AccountAt(w, VaultFactory(VaultOf(w, factory))) == factory
  }

  predicate Open(w: World, factory: Address) {
    FlagAt(w, Live(factory)) && !FlagAt(w, CreatePaused(factory))
  }

  /** The slots a live generation depends on. */
  predicate BelongsTo(w: World, factory: Address, slot: Slot) {
    match slot
    case Recruiter(r) => r == RouterOf(w, factory)
    case Community(r) => r == RouterOf(w, factory)
    case Protocol(r) => r == RouterOf(w, factory)
    case Creator(r) => r == RouterOf(w, factory)
    case Lockers(r) => r == RouterOf(w, factory)
    case PrimaryLocker(r) => r == RouterOf(w, factory)
    case CommunityRouter(c) => c == CommunityOf(w, factory)
    case VaultFactory(v) => v == VaultOf(w, factory)
    case HolderDistributor(v) => v == VaultOf(w, factory)
    case Operator(v) => v == VaultOf(w, factory)
    case VaultCaps(v) => v == VaultOf(w, factory)
    case Live(f) => f == factory
    case CreatePaused(f) => f == factory
    case Recorder(_, f) => f == factory
    case _ => Fixed(slot)
  }

  predicate StaysOff(w: World, factory: Address, calls: seq<Call>) {
    forall c :: c in calls ==> !BelongsTo(w, factory, SlotOf(c))
  }

  ghost predicate Untouched(w: World, t: World, factory: Address) {
    forall slot :: BelongsTo(w, factory, slot) ==> (slot in t <==> slot in w) && (slot in w ==> t[slot] == w[slot])
  }

  /** A generation whose slots are untouched is in the same shape as before. */
  lemma UntouchedSameShape(w: World, t: World, factory: Address)
    requires Untouched(w, t, factory)
    ensures RouterOf(t, factory) == RouterOf(w, factory)
    ensures VaultOf(t, factory) == VaultOf(w, factory) && CommunityOf(t, factory) == CommunityOf(w, factory)
    ensures TradeReady(t, factory) <==> TradeReady(w, factory)
    ensures CreateReady(t, factory) <==> CreateReady(w, factory)
    ensures Open(t, factory) <==> Open(w, factory)
  {
    var r, v := RouterOf(w, factory), VaultOf(w, factory);
    assert BelongsTo(w, factory, FeeRecipient(factory)) && BelongsTo(w, factory, VaultRouter(v));
    assert BelongsTo(w, factory, Recruiter(r)) && BelongsTo(w, factory, Community(r));
    assert BelongsTo(w, factory, Protocol(r)) && BelongsTo(w, factory, Creator(r));
    assert BelongsTo(w, factory, CommunityRouter(CommunityOf(w, factory))) && BelongsTo(w, factory, VaultFactory(v));
    assert BelongsTo(w, factory, Live(factory)) && BelongsTo(w, factory, CreatePaused(factory));
  }

  /** Any number of interrupted runs of a plan that stays off a generation leaves it exactly as it was. */
  lemma RunsKeepGeneration(style: Style, w: World, who: Address, candidates: seq<Call>, stops: seq<nat>,
                           factory: Address)
    requires WellFormed(candidates) && Simulated(w, who, Missing(style, w, candidates))
    requires StaysOff(w, factory, candidates)
    ensures Runs(style, w, who, candidates, stops).Done?
    ensures Untouched(w, Runs(style, w, who, candidates, stops).world, factory)
  {
    forall slot | BelongsTo(w, factory, slot)
      ensures Runs(style, w, who, candidates, stops).Done?
      ensures var t := Runs(style, w, who, candidates, stops).world;
              (slot in t <==> slot in w) && (slot in w ==> t[slot] == w[slot])
    {
      RunsFrame(style, w, who, candidates, stops, slot);
    }
    InterruptionInvisible(style, w, who, candidates, stops);
    Resume(style, w, who, candidates, Min(Total(stops), |Missing(style, w, candidates)|));
  }

  /** Slots that decide whether trades route. */
  predicate TradeSlot(slot: Slot) {
    slot.Recruiter? || slot.Community? || slot.Protocol? || slot.Creator? || slot.CommunityRouter? || Fixed(slot)
  }

  /** Calls that write no trade slot leave every factory's trade readiness alone. */
  lemma TradeKept(style: Style, w: World, who: Address, candidates: seq<Call>, stops: seq<nat>, factory: Address)
    requires WellFormed(candidates) && Simulated(w, who, Missing(style, w, candidates))
    requires forall c :: c in candidates ==> !TradeSlot(SlotOf(c))
    ensures Runs(style, w, who, candidates, stops).Done?
    ensures var t := Runs(style, w, who, candidates, stops).world;
            (TradeReady(t, factory) <==> TradeReady(w, factory))
            && VaultOf(t, factory) == VaultOf(w, factory) && RouterOf(t, factory) == RouterOf(w, factory)
  {
    forall slot | TradeSlot(slot)
      ensures Runs(style, w, who, candidates, stops).Done?
      ensures AccountAt(Runs(style, w, who, candidates, stops).world, slot) == AccountAt(w, slot)
    {
      RunsFrame(style, w, who, candidates, stops, slot);
    }
    RunsFrame(style, w, who, candidates, stops, FeeRecipient(factory));
    var r := RouterOf(w, factory);
    assert TradeSlot(FeeRecipient(factory)) && TradeSlot(Recruiter(r)) && TradeSlot(Community(r))
      && TradeSlot(Protocol(r));
    assert TradeSlot(Creator(r)) && TradeSlot(VaultRouter(VaultOf(w, factory)));
    assert TradeSlot(CommunityRouter(CommunityOf(w, factory)));
  }
}
