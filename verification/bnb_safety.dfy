/** The rollout as a whole: when batch B works, what it reaches, and what both generations keep throughout. */
module BnbSafety {
  import opened Chain
  import opened Planning
  import opened Gen7Bnb
  import opened BnbRollout
  import opened Generations

  // ------------------------------------------------------------------ when batch B works

  predicate Administers(w: World, who: Address, to: Address) {
    AccountAt(w, Owner(to)) == who
  }

  predicate HasCode(w: World, at: Address) {
    at != ZERO && FlagAt(w, Code(at))
  }

  /** The deploy's result: everything owned by the admin, everything named has code, the weeks are publishable. */
  predicate Deployed(rec: Record, w: World) {
    && Deployable(rec)
    && Administers(w, rec.admin, rec.router) && Administers(w, rec.admin, rec.vault)
    && Administers(w, rec.admin, rec.holderDistributor) && Administers(w, rec.admin, rec.community)
    && Administers(w, rec.admin, rec.registry) && Administers(w, rec.admin, rec.quoteAdapter)
    && Administers(w, rec.admin, rec.pot.distributor)
    && HasCode(w, rec.recruiter) && HasCode(w, rec.community) && HasCode(w, rec.protocol)
    && HasCode(w, rec.vault) && HasCode(w, rec.factory)
    && rec.holderDistributor != ZERO && rec.pot.distributor != ZERO
    && rec.locker != ZERO && AccountAt(w, FactoryLocker(rec.factory)) == rec.locker
    && !FlagAt(w, OnRobinhood(rec.quoteAdapter))
    && rec.caps.impactBps <= MAX_IMPACT_BPS
    && forall i :: 0 <= i < |rec.pot.weeks| ==> Publishable(w, rec.pot.distributor, rec.pot.weeks[i])
  }

  predicate Publishable(w: World, distributor: Address, week: Week) {
    && week.id != 0 && week.cap != 0 && week.publishAfter < week.deadline
    && (FlagAt(w, BatchExists(distributor, week.id)) ==> AuthAt(w, distributor, week.id).consumed)
  }

  lemma BindPrepared(rec: Record, w: World, i: nat)
    requires Deployed(rec, w) && NothingForeignBound(rec, w) && i < 13
    ensures |BindCalls(rec)| == 13 && Prepared(w, rec.admin, BindCalls(rec)[i])
  {
  }

  lemma PotPrepared(rec: Record, w: World, c: Call)
    requires Deployed(rec, w) && c in PotCalls(rec.community, rec.pot)
    ensures Prepared(w, rec.admin, c)
    ensures !c.SetPrimaryLpLocker?
  {
    var weeks := WeekCalls(rec.pot.distributor, rec.pot.weeks);
    if c in weeks {
      var i :| 0 <= i < |weeks| && weeks[i] == c;
      assert Publishable(w, rec.pot.distributor, rec.pot.weeks[i]);
    }
  }

  /** A deployed generation's batch B passes its simulation, however much of it is already on chain. */
  lemma DeployedSimulates(rec: Record, w: World)
    requires Deployed(rec, w) && PlanB(rec, w).Batch?
    ensures Simulated(w, rec.admin, PlanB(rec, w).calls)
  {
    var all, core, pot := Candidates(rec), BindCalls(rec), PotCalls(rec.community, rec.pot);
    PlanIsMissing(rec, w);
    CandidatesWellFormed(rec);
    PlanBindOk(rec, w);
    forall c | c in all ensures Prepared(w, rec.admin, c) {
      if c in core {
        var i :| 0 <= i < |core| && core[i] == c;
        BindPrepared(rec, w, i);
      } else {
        PotPrepared(rec, w, c);
      }
    }
    forall j | 0 <= j < |all| && all[j].SetPrimaryLpLocker?
      ensures SetAuthorizedLpLocker(all[j].to, all[j].target) in all[..j]
    {
      BindMembers(rec, all[j]);
      PrimaryAt(rec, j);
    }
    PreparedSimulated(ZeroGuard, w, rec.admin, all);
  }

  lemma PrimaryAt(rec: Record, j: nat)
    requires Deployable(rec) && j < |Candidates(rec)| && Candidates(rec)[j].SetPrimaryLpLocker?
    ensures SetAuthorizedLpLocker(Candidates(rec)[j].to, Candidates(rec)[j].target) in Candidates(rec)[..j]
  {
    var all := Candidates(rec);
    BindMembers(rec, all[j]);
    CandidatesWellFormed(rec);
    assert all[9] == all[j];
    assert j == 9;
    assert all[..9][8] == SetAuthorizedLpLocker(rec.router, rec.locker);
  }

  // ------------------------------------------------------------------ what batch B reaches

  predicate ForeignBefore(rec: Record, w: World) {
    exists c :: c in BindCalls(rec) && HoldsForeign(w, c)
  }

  predicate Wired(rec: Record, w: World) {
    forall c :: c in BindCalls(rec) ==> Holds(w, c)
  }

  /** The whole batch reaches the recorded wiring exactly when no vault slot held something else before. */
  lemma BatchBWires(rec: Record, w: World)
    requires Deployed(rec, w) && PlanB(rec, w).Batch?
    ensures var end := ExecAll(w, rec.admin, PlanB(rec, w).calls);
            end.Done? && (Wired(rec, end.world) <==> !ForeignBefore(rec, w))
  {
    DeployedSimulates(rec, w);
    PlanIsMissing(rec, w);
    CandidatesWellFormed(rec);
    MissingDistinct(ZeroGuard, w, Candidates(rec));
    SimulationSound(w, rec.admin, PlanB(rec, w).calls);
    var t := ExecAll(w, rec.admin, PlanB(rec, w).calls).world;
    forall c | c in BindCalls(rec) ensures Holds(t, c) <==> !HoldsForeign(w, c) {
      ConvergedHolds(w, rec.admin, Candidates(rec), c);
    }
  }

  /** The operator guard compares the key only: a paused vault with the right operator stays paused. */
  lemma PausedOperatorStays(rec: Record, w: World)
    requires Deployed(rec, w) && PlanB(rec, w).Batch?
    requires Operator(rec.vault) in w && w[Operator(rec.vault)] == OperatorKey(rec.operator, true)
    ensures var end := ExecAll(w, rec.admin, PlanB(rec, w).calls);
            end.Done? && Operator(rec.vault) in end.world
              && end.world[Operator(rec.vault)] == OperatorKey(rec.operator, true)
  {
    DeployedSimulates(rec, w);
    PlanIsMissing(rec, w);
    CandidatesWellFormed(rec);
    MissingDistinct(ZeroGuard, w, Candidates(rec));
    var plan := PlanB(rec, w).calls;
    SimulationSound(w, rec.admin, plan);
    var c := SetOperator(rec.vault, rec.operator);
    OperatorCandidate(rec);
    DoneSlotFree(w, Candidates(rec), c);
    BatchFrame(w, rec.admin, plan, Operator(rec.vault));
  }

  lemma OperatorCandidate(rec: Record)
    requires Deployable(rec)
    ensures SetOperator(rec.vault, rec.operator) in Candidates(rec)
  {
    assert SetOperator(rec.vault, rec.operator) == BindCalls(rec)[6];
  }

  /** No planned call writes the slot of a candidate that is done. */
  lemma DoneSlotFree(w: World, all: seq<Call>, c: Call)
    requires WellFormed(all) && c in all && IsDone(ZeroGuard, w, c)
    ensures forall d :: d in Missing(ZeroGuard, w, all) ==> SlotOf(d) != SlotOf(c)
  {
    forall d | d in Missing(ZeroGuard, w, all) ensures SlotOf(d) != SlotOf(c) {
      MissingMembers(ZeroGuard, w, all, d);
      var i :| 0 <= i < |all| && all[i] == c;
      var j :| 0 <= j < |all| && all[j] == d;
    }
  }

  /**
   The final re-plan of the testnet run is empty exactly when every recorded action stays settled. When the week has
   turned meanwhile, it then contains exactly the newly listed weeks that are neither authorized nor consumed.
   */
  lemma FinalReplan(rec: Record, w: World, later: seq<Week>)
    requires Deployed(rec, w) && PlanB(rec, w).Batch?
    ensures var end := ExecAll(w, rec.admin, PlanB(rec, w).calls);
            && end.Done?
            && (PlanB(rec, end.world) == Batch([]) <==> ActionsSettled(rec, w, PlanB(rec, w).calls))
            && (ActionsSettled(rec, w, PlanB(rec, w).calls) ==>
                  PlanB(rec.(pot := rec.pot.(weeks := later)), end.world) ==
                  Batch(Missing(ZeroGuard, end.world, WeekCalls(rec.pot.distributor, later))))
  {
    var plan := PlanB(rec, w).calls;
    DeployedSimulates(rec, w);
    ResumeB(rec, w, |plan|);
    assert plan[..|plan|] == plan && plan[|plan|..] == [];
    if ActionsSettled(rec, w, plan) {
      LaterWeeks(rec, ExecAll(w, rec.admin, plan).world, later);
    }
  }

  lemma LaterWeeks(rec: Record, t: World, later: seq<Week>)
    requires Deployable(rec) && PlanB(rec, t) == Batch([])
    ensures PlanB(rec.(pot := rec.pot.(weeks := later)), t)
            == Batch(Missing(ZeroGuard, t, WeekCalls(rec.pot.distributor, later)))
  {
    var rec' := rec.(pot := rec.pot.(weeks := later));
    var wiring := [ SetRewardDistributor(rec.community, rec.pot.distributor),
                    SetAirdropOperator(rec.community, rec.pot.operator),
                    SetBatchOperator(rec.pot.distributor, rec.community) ];
    MissingConcat(ZeroGuard, t, wiring, WeekCalls(rec.pot.distributor, rec.pot.weeks));
    MissingConcat(ZeroGuard, t, wiring, WeekCalls(rec.pot.distributor, later));
    assert BindCalls(rec') == BindCalls(rec);
    assert Missing(ZeroGuard, t, wiring) == [];
  }

  // ------------------------------------------------------------------ both generations

  /** Gen-7 has its own router and vault; gen-6 keeps its factory. */
  predicate Apart(rec: Record, w: World) {
    && rec.factory != rec.gen6Factory
    && rec.router != RouterOf(w, rec.gen6Factory)
    && rec.vault != VaultOf(w, rec.gen6Factory)
  }

  lemma BatchBStaysOff(rec: Record, w: World)
    requires Deployable(rec) && Apart(rec, w)
    ensures StaysOff(w, rec.gen6Factory, Candidates(rec))
    ensures forall c :: c in Candidates(rec) ==> !SlotOf(c).Live? && !SlotOf(c).CreatePaused?
  {
    forall c | c in Candidates(rec)
      ensures !BelongsTo(w, rec.gen6Factory, SlotOf(c)) && !SlotOf(c).Live? && !SlotOf(c).CreatePaused?
    {
      if c in BindCalls(rec) {
        BindStaysOff(rec, w, BindCalls(rec), c);
      } else {
        PotStaysOff(rec, w, c);
      }
    }
  }

  lemma BindStaysOff(rec: Record, w: World, binds: seq<Call>, c: Call)
    requires Deployable(rec) && Apart(rec, w) && binds == BindCalls(rec) && c in binds
    ensures !BelongsTo(w, rec.gen6Factory, SlotOf(c)) && !SlotOf(c).Live? && !SlotOf(c).CreatePaused?
  {
  }

  lemma PotStaysOff(rec: Record, w: World, c: Call)
    requires Deployable(rec) && c in PotCalls(rec.community, rec.pot)
    ensures !BelongsTo(w, rec.gen6Factory, SlotOf(c)) && !SlotOf(c).Live? && !SlotOf(c).CreatePaused?
  {
    PotMembers(rec, c);
  }

  /**
   However often what batch B lacks is sent and interrupted, gen-6 is untouched, and the gen-7 factory's create gate
   stays as the deploy left it.
   */
  lemma RunsKeepBothGates(rec: Record, w: World, stops: seq<nat>)
    requires Deployed(rec, w) && PlanB(rec, w).Batch? && Apart(rec, w)
    ensures var end := Runs(ZeroGuard, w, rec.admin, Candidates(rec), stops);
            && end.Done?
            && Untouched(w, end.world, rec.gen6Factory)
            && (TradeReady(end.world, rec.gen6Factory) <==> TradeReady(w, rec.gen6Factory))
            && (CreateReady(end.world, rec.gen6Factory) <==> CreateReady(w, rec.gen6Factory))
            && (Open(end.world, rec.factory) <==> Open(w, rec.factory))
  {
    DeployedSimulates(rec, w);
    PlanIsMissing(rec, w);
    CandidatesWellFormed(rec);
    BatchBStaysOff(rec, w);
    RunsKeepGeneration(ZeroGuard, w, rec.admin, Candidates(rec), stops, rec.gen6Factory);
    UntouchedSameShape(w, Runs(ZeroGuard, w, rec.admin, Candidates(rec), stops).world, rec.gen6Factory);
    RunsFrame(ZeroGuard, w, rec.admin, Candidates(rec), stops, Live(rec.factory));
    RunsFrame(ZeroGuard, w, rec.admin, Candidates(rec), stops, CreatePaused(rec.factory));
  }

  /** The constructor arguments of the gen-7 stack: factory pays the router, both vaults take only from it. */
  predicate OwnStack(rec: Record, w: World) {
    && RouterOf(w, rec.factory) == rec.router
    && AccountAt(w, VaultRouter(rec.vault)) == rec.router
    && AccountAt(w, CommunityRouter(rec.community)) == rec.router
  }

  /** After batch B both generations can trade, and gen-7 can create once opened. */
  lemma RunsServeBoth(rec: Record, w: World, stops: seq<nat>)
    requires Deployed(rec, w) && PlanB(rec, w).Batch? && Apart(rec, w) && OwnStack(rec, w)
    requires !ForeignBefore(rec, w) && TradeReady(w, rec.gen6Factory)
    requires |PlanB(rec, w).calls| <= Total(stops)
    ensures var end := Runs(ZeroGuard, w, rec.admin, Candidates(rec), stops);
            && end.Done?
            && TradeReady(end.world, rec.gen6Factory)
            && TradeReady(end.world, rec.factory) && CreateReady(end.world, rec.factory)
  {
    var all, plan := Candidates(rec), PlanB(rec, w).calls;
    RunsKeepBothGates(rec, w, stops);
    BatchBWires(rec, w);
    DeployedSimulates(rec, w);
    PlanIsMissing(rec, w);
    CandidatesWellFormed(rec);
    EnoughRuns(w, rec.admin, all, stops);
    WiredServes(rec, w, Runs(ZeroGuard, w, rec.admin, all, stops).world, stops);
  }

  /** Runs that get far enough are the whole plan. */
  lemma EnoughRuns(w: World, who: Address, all: seq<Call>, stops: seq<nat>)
    requires WellFormed(all) && Simulated(w, who, Missing(ZeroGuard, w, all))
    requires |Missing(ZeroGuard, w, all)| <= Total(stops)
    ensures Runs(ZeroGuard, w, who, all, stops) == ExecAll(w, who, Missing(ZeroGuard, w, all))
  {
    var plan := Missing(ZeroGuard, w, all);
    InterruptionInvisible(ZeroGuard, w, who, all, stops);
    assert plan[..|plan|] == plan;
  }

  /** What the wiring reads as. */
  lemma WiredReads(rec: Record, t: World)
    requires Wired(rec, t)
    ensures AccountAt(t, Recruiter(rec.router)) == rec.recruiter && AccountAt(t, Community(rec.router)) == rec.community
    ensures AccountAt(t, Protocol(rec.router)) == rec.protocol && AccountAt(t, Creator(rec.router)) == rec.vault
    ensures AccountAt(t, VaultFactory(rec.vault)) == rec.factory
  {
    var core := BindCalls(rec);
    assert Holds(t, core[0]) && Holds(t, core[1]) && Holds(t, core[2]) && Holds(t, core[3]) && Holds(t, core[10]);
  }

  lemma WiredServes(rec: Record, w: World, t: World, stops: seq<nat>)
    requires Deployed(rec, w) && OwnStack(rec, w) && Wired(rec, t)
    requires Simulated(w, rec.admin, Missing(ZeroGuard, w, Candidates(rec)))
    requires Runs(ZeroGuard, w, rec.admin, Candidates(rec), stops) == Done(t)
    ensures TradeReady(t, rec.factory) && CreateReady(t, rec.factory)
  {
    OwnStackKept(rec, w, t, stops, Candidates(rec));
    WiredReads(rec, t);
  }

  lemma OwnStackKept(rec: Record, w: World, t: World, stops: seq<nat>, all: seq<Call>)
    requires Deployable(rec) && OwnStack(rec, w) && all == Candidates(rec)
    requires Simulated(w, rec.admin, Missing(ZeroGuard, w, all))
    requires Runs(ZeroGuard, w, rec.admin, all, stops) == Done(t)
    ensures OwnStack(rec, t)
  {
    CandidatesWellFormed(rec);
    forall c | c in all ensures !SlotOf(c).FeeRecipient? && !SlotOf(c).VaultRouter? && !SlotOf(c).CommunityRouter? {
      CallsWriteNoFixedSlot(c);
      BindMembersOnly(rec, c);
    }
    RunsFrame(ZeroGuard, w, rec.admin, all, stops, FeeRecipient(rec.factory));
    RunsFrame(ZeroGuard, w, rec.admin, all, stops, VaultRouter(rec.vault));
    RunsFrame(ZeroGuard, w, rec.admin, all, stops, CommunityRouter(rec.community));
  }

  lemma BindMembersOnly(rec: Record, c: Call)
    requires Deployable(rec) && c in Candidates(rec)
    ensures !SlotOf(c).CommunityRouter?
  {
    var weeks := WeekCalls(rec.pot.distributor, rec.pot.weeks);
    if c in weeks {
      WeekMembers(rec.pot.distributor, rec.pot.weeks, c);
    }
  }

  // ------------------------------------------------------------------ the create gate

  predicate OwnsFactories(rec: Record, w: World) {
    rec.factory != rec.gen6Factory
    && Administers(w, rec.admin, rec.factory) && Administers(w, rec.admin, rec.gen6Factory)
  }

  lemma OpenCallsReady(rec: Record, w: World)
    requires OwnsFactories(rec, w)
    ensures WellFormed(OpenCalls(rec))
    ensures Simulated(w, rec.admin, Missing(ZeroGuard, w, OpenCalls(rec)))
  {
    PreparedSimulated(ZeroGuard, w, rec.admin, OpenCalls(rec));
  }

  /**
   Batch H never closes both doors: if gen-6 was open, every prefix of H leaves at least one factory open, and the
   whole batch leaves exactly gen-7 open with nothing left to plan.
   */
  lemma CreateGate(rec: Record, w: World, k: nat)
    requires OwnsFactories(rec, w)
    requires k <= |Missing(ZeroGuard, w, OpenCalls(rec))|
    ensures var plan := Missing(ZeroGuard, w, OpenCalls(rec));
            var now := ExecAll(w, rec.admin, plan[..k]);
            && now.Done?
            && (Open(w, rec.gen6Factory) ==> Open(now.world, rec.factory) || Open(now.world, rec.gen6Factory))
            && Missing(ZeroGuard, now.world, OpenCalls(rec)) == plan[k..]
            && (k == |plan| ==> Open(now.world, rec.factory) && !Open(now.world, rec.gen6Factory))
  {
    var all := OpenCalls(rec);
    var plan := Missing(ZeroGuard, w, all);
    OpenCallsReady(rec, w);
    Resume(ZeroGuard, w, rec.admin, all, k);
    var t := ExecAll(w, rec.admin, plan[..k]).world;
    forall c | c in all ensures c in plan[k..] || IsDone(ZeroGuard, t, c) {
      MissingMembers(ZeroGuard, t, all, c);
    }
    assert all[0] in all && all[1] in all && all[2] in all;
    if Open(w, rec.gen6Factory) && !Open(t, rec.gen6Factory) {
      Gen6ClosesLast(rec, w, k);
    }
  }

  /** While anything of H is still to do, the gen-6 door has not been touched. */
  lemma Gen6ClosesLast(rec: Record, w: World, k: nat)
    requires OwnsFactories(rec, w) && Open(w, rec.gen6Factory)
    requires k <= |Missing(ZeroGuard, w, OpenCalls(rec))|
    requires ExecAll(w, rec.admin, Missing(ZeroGuard, w, OpenCalls(rec))[..k]).Done?
    requires !Open(ExecAll(w, rec.admin, Missing(ZeroGuard, w, OpenCalls(rec))[..k]).world, rec.gen6Factory)
    ensures k == |Missing(ZeroGuard, w, OpenCalls(rec))|
  {
    var plan := Missing(ZeroGuard, w, OpenCalls(rec));
    if k < |plan| {
      ClosingComesLast(rec, w, OpenCalls(rec), k);
      BatchFrame(w, rec.admin, plan[..k], CreatePaused(rec.gen6Factory));
      BatchFrame(w, rec.admin, plan[..k], Live(rec.gen6Factory));
    }
  }

  /** No call before the last one of H writes a gen-6 gate. */
  lemma ClosingComesLast(rec: Record, w: World, all: seq<Call>, k: nat)
    requires OwnsFactories(rec, w) && Open(w, rec.gen6Factory) && all == OpenCalls(rec)
             && k < |Missing(ZeroGuard, w, all)|
    ensures forall c :: c in Missing(ZeroGuard, w, all)[..k] ==>
              SlotOf(c) != CreatePaused(rec.gen6Factory) && SlotOf(c) != Live(rec.gen6Factory)
  {
    var front := Missing(ZeroGuard, w, all[..2]);
    MissingConcat(ZeroGuard, w, all[..2], all[2..]);
    assert all == all[..2] + all[2..] && |Missing(ZeroGuard, w, all[2..])| <= 1;
    forall c | c in Missing(ZeroGuard, w, all)[..k]
      ensures SlotOf(c) != CreatePaused(rec.gen6Factory) && SlotOf(c) != Live(rec.gen6Factory)
    {
      assert c in front;
      MissingMembers(ZeroGuard, w, all[..2], c);
    }
  }

  /** Before the ownership handover H cannot half-happen: as one Safe batch it reverts and changes nothing. */
  lemma NoOpeningBeforeHandover(rec: Record, w: World)
    requires !Administers(w, rec.admin, rec.factory)
    requires !FlagAt(w, Live(rec.factory)) || FlagAt(w, CreatePaused(rec.factory))
    ensures ExecAll(w, rec.admin, Missing(ZeroGuard, w, OpenCalls(rec))) == Reverted
  {
    var all := OpenCalls(rec);
    var first := if IsDone(ZeroGuard, w, all[0]) then all[1] else all[0];
    FirstOpen(w, all);
    HeadRefused(w, rec.admin, Missing(ZeroGuard, w, all), first);
  }

  /** A plan starts with the first candidate that is not done, here one of the first two. */
  lemma FirstOpen(w: World, all: seq<Call>)
    requires 2 <= |all| && !(IsDone(ZeroGuard, w, all[0]) && IsDone(ZeroGuard, w, all[1]))
    ensures var plan := Missing(ZeroGuard, w, all);
            plan != [] && plan[0] == if IsDone(ZeroGuard, w, all[0]) then all[1] else all[0]
  {
    assert all[1..][0] == all[1];
  }

  lemma HeadRefused(w: World, who: Address, calls: seq<Call>, first: Call)
    requires calls != [] && calls[0] == first && !Accepts(w, who, first)
    ensures ExecAll(w, who, calls) == Reverted
  {
  }
}
