/** What the gen-7 rollout on BNB keeps: resumption of batch B, both generations' trading, the create gate. */
module BnbRollout {
  import opened Chain
  import opened Planning
  import opened Gen7Bnb

  // ------------------------------------------------------------------ the candidates

  predicate DistinctWeeks(weeks: seq<Week>) {
    forall i, j :: 0 <= i < j < |weeks| ==> weeks[i].id != weeks[j].id
  }

  /** The two distributors are two contracts, and no week is listed twice. */
  predicate Deployable(rec: Record) {
    rec.pot.Pot? && rec.pot.distributor != rec.holderDistributor && DistinctWeeks(rec.pot.weeks)
  }

  /** The binding calls use one setter each. */
  function Setter(slot: Slot): nat {
    match slot
    case Recruiter(_) => 0
    case Community(_) => 1
    case Protocol(_) => 2
    case Creator(_) => 3
    case BatchOperator(_) => 4
    case HolderDistributor(_) => 5
    case Operator(_) => 6
    case VaultCaps(_) => 7
    case Lockers(_) => 8
    case PrimaryLocker(_) => 9
    case VaultFactory(_) => 10
    case Recorder(_, _) => 11
    case AdapterFactory(_) => 12
    case _ => 13
  }

  lemma BindCallSetter(rec: Record, i: nat)
    requires i < 13
    ensures |BindCalls(rec)| == 13
    ensures var c := BindCalls(rec)[i];
            Setter(SlotOf(c)) == i && Closing(c) && (i == 4 ==> SlotOf(c) == BatchOperator(rec.holderDistributor))
  {
  }

  lemma BindCallsWellFormed(rec: Record, core: seq<Call>)
    requires core == BindCalls(rec)
    ensures WellFormed(core)
    ensures forall c :: c in core ==> Setter(SlotOf(c)) < 13
    ensures forall c :: c in core && Setter(SlotOf(c)) == 4 ==> SlotOf(c) == BatchOperator(rec.holderDistributor)
  {
    forall i | 0 <= i < 13
      ensures |core| == 13 && Setter(SlotOf(core[i])) == i && Closing(core[i])
              && (i == 4 ==> SlotOf(core[i]) == BatchOperator(rec.holderDistributor))
    {
      BindCallSetter(rec, i);
    }
  }

  lemma WeeksWellFormed(distributor: Address, weeks: seq<Week>)
    requires DistinctWeeks(weeks)
    ensures WellFormed(WeekCalls(distributor, weeks))
    ensures forall c :: c in WeekCalls(distributor, weeks) ==> c.AuthorizeBatch? && c.to == distributor
  {
    forall c | c in WeekCalls(distributor, weeks) ensures c.AuthorizeBatch? && c.to == distributor {
      WeekMembers(distributor, weeks, c);
    }
  }

  lemma PotMembers(rec: Record, c: Call)
    requires Deployable(rec) && c in PotCalls(rec.community, rec.pot)
    ensures c.SetRewardDistributor? || c.SetAirdropOperator? || c.SetBatchOperator? || c.AuthorizeBatch?
  {
    if c in WeekCalls(rec.pot.distributor, rec.pot.weeks) {
      WeekMembers(rec.pot.distributor, rec.pot.weeks, c);
    }
  }

  lemma PotCallsWellFormed(rec: Record, pot: seq<Call>)
    requires Deployable(rec) && pot == PotCalls(rec.community, rec.pot)
    ensures WellFormed(pot)
    ensures forall c :: c in pot ==> Setter(SlotOf(c)) == 13 || SlotOf(c) == BatchOperator(rec.pot.distributor)
  {
    var weeks := WeekCalls(rec.pot.distributor, rec.pot.weeks);
    WeeksWellFormed(rec.pot.distributor, rec.pot.weeks);
    var wiring := [ SetRewardDistributor(rec.community, rec.pot.distributor),
                    SetAirdropOperator(rec.community, rec.pot.operator),
                    SetBatchOperator(rec.pot.distributor, rec.community) ];
    WellFormedConcat(wiring, weeks);
  }

  lemma PartsWellFormed(rec: Record, core: seq<Call>, pot: seq<Call>)
    requires Deployable(rec) && core == BindCalls(rec) && pot == PotCalls(rec.community, rec.pot)
    ensures WellFormed(core + pot)
  {
    BindCallsWellFormed(rec, core);
    PotCallsWellFormed(rec, pot);
    WellFormedConcat(core, pot);
  }

  lemma CandidatesWellFormed(rec: Record)
    requires Deployable(rec)
    ensures WellFormed(Candidates(rec))
  {
    PartsWellFormed(rec, BindCalls(rec), PotCalls(rec.community, rec.pot));
  }

  lemma PlanIsMissing(rec: Record, w: World)
    requires PlanB(rec, w).Batch?
    ensures PlanB(rec, w).calls == Missing(ZeroGuard, w, Candidates(rec))
  {
    MissingConcat(ZeroGuard, w, BindCalls(rec), PotCalls(rec.community, rec.pot));
  }

  lemma BindMembers(rec: Record, c: Call)
    requires Deployable(rec) && c in Candidates(rec)
    ensures c.SetAuthorizedLpLocker? ==> c == SetAuthorizedLpLocker(rec.router, rec.locker)
    ensures c.SetFactoryOnce? ==> c == SetFactoryOnce(rec.vault, rec.factory)
    ensures c.SetCampaignFactoryOnce? ==> c == SetCampaignFactoryOnce(rec.quoteAdapter, rec.factory)
    ensures c.SetPrimaryLpLocker? ==> c == BindCalls(rec)[9]
    ensures c !in BindCalls(rec) ==> !SetOnce(c)
  {
    PotCallsWellFormed(rec, PotCalls(rec.community, rec.pot));
  }

  // ------------------------------------------------------------------ the simulation rule

  /**
   On batch B the loose replay rule skips exactly the dependent call, so the simulation is as good as the exact one.
   */
  lemma LooseRuleExactForB(rec: Record, w: World)
    requires Deployable(rec) && PlanB(rec, w).Batch?
    ensures SimulatedLoosely(w, rec.admin, PlanB(rec, w).calls) <==> Simulated(w, rec.admin, PlanB(rec, w).calls)
  {
    var plan := PlanB(rec, w).calls;
    PlanIsMissing(rec, w);
    forall i | 0 <= i < |plan| ensures Skipped(plan, i) <==> Dependent(plan, i) {
      SkipsExactly(rec, w, plan, i);
    }
  }

  lemma DependentIsSkipped(plan: seq<Call>, i: nat)
    requires i < |plan| && Dependent(plan, i)
    ensures Skipped(plan, i)
  {
    assert SetAuthorizedLpLocker(plan[i].to, plan[i].target) in plan[..i];
    assert SetAuthorizedLpLocker(plan[i].to, plan[i].target) in plan;
  }

  lemma SkipsExactly(rec: Record, w: World, plan: seq<Call>, i: nat)
    requires Deployable(rec) && plan == Missing(ZeroGuard, w, Candidates(rec)) && i < |plan|
    ensures Skipped(plan, i) <==> Dependent(plan, i)
  {
    if Skipped(plan, i) {
      var all := Candidates(rec);
      CandidatesWellFormed(rec);
      MissingMembers(ZeroGuard, w, all, plan[i]);
      BindMembers(rec, plan[i]);
      var first :| first in plan && first.SetAuthorizedLpLocker?;
      MissingMembers(ZeroGuard, w, all, first);
      BindMembers(rec, first);
      assert all[9] == plan[i] && all[..9][8] == first;
      PrimaryFollowsLocker(ZeroGuard, w, all, 9, i);
    } else if Dependent(plan, i) {
      DependentIsSkipped(plan, i);
    }
  }

  /** What the loose rule takes on trust: skipped calls that do not follow their own authorization. */
  predicate TrustedCallsAccepted(w: World, who: Address, calls: seq<Call>) {
    forall i :: 0 <= i < |calls| && Skipped(calls, i) && !Dependent(calls, i) ==> Accepts(w, who, calls[i])
  }

  /** A batch that passes the loose replay executes exactly when the calls it takes on trust would be accepted now. */
  lemma LooseRuleSoundExactly(w: World, who: Address, calls: seq<Call>)
    requires DistinctSlots(calls) && SimulatedLoosely(w, who, calls)
    ensures ExecAll(w, who, calls).Done? <==> TrustedCallsAccepted(w, who, calls)
  {
    if TrustedCallsAccepted(w, who, calls) {
      assert Simulated(w, who, calls);
      SimulationSound(w, who, calls);
    } else if ExecAll(w, who, calls).Done? {
      SimulationComplete(w, who, calls);
    }
  }

  /** Off batch B that can fail: primary before its authorization passes the loose replay and reverts on chain. */
  lemma LooseRuleUnsound(w: World, who: Address, router: Address, locker: Address)
    requires AccountAt(w, Owner(router)) == who && locker != ZERO && !AnyLocker(w, router)
             && !IsLocker(w, router, locker)
    ensures var calls := [SetPrimaryLpLocker(router, locker), SetAuthorizedLpLocker(router, locker)];
            DistinctSlots(calls) && SimulatedLoosely(w, who, calls) && ExecAll(w, who, calls) == Reverted
  {
    var calls := [SetPrimaryLpLocker(router, locker), SetAuthorizedLpLocker(router, locker)];
    assert calls[1] in calls;
    assert Skipped(calls, 0);
    assert Accepts(w, who, calls[1]);
    assert !Accepts(w, who, calls[0]);
  }

  // ------------------------------------------------------------------ batch B resumes

  /** What BindRefusal-free means: no locker but the recorded one, no pin and no bind to another factory. */
  predicate NothingForeignBound(rec: Record, w: World) {
    && (IsLocker(w, rec.router, rec.locker) || !AnyLocker(w, rec.router))
    && (AccountAt(w, VaultFactory(rec.vault)) == ZERO || AccountAt(w, VaultFactory(rec.vault)) == rec.factory)
    && (AccountAt(w, AdapterFactory(rec.quoteAdapter)) == ZERO
        || AccountAt(w, AdapterFactory(rec.quoteAdapter)) == rec.factory)
  }

  lemma PlanBindOk(rec: Record, w: World)
    ensures PlanBind(rec, w).Batch? <==> NothingForeignBound(rec, w)
  {
  }

  lemma {:induction false} NothingForeignBoundKept(rec: Record, w: World, calls: seq<Call>)
    requires Deployable(rec) && NothingForeignBound(rec, w)
    requires ExecAll(w, rec.admin, calls).Done?
    requires forall c :: c in calls ==> c in Candidates(rec)
    ensures NothingForeignBound(rec, ExecAll(w, rec.admin, calls).world)
    decreases |calls|
  {
    if calls != [] {
      BindMembers(rec, calls[0]);
      NothingForeignBoundStep(rec, w, calls[0]);
      NothingForeignBoundKept(rec, After(w, calls[0]), calls[1..]);
    }
  }

  lemma NothingForeignBoundStep(rec: Record, w: World, c: Call)
    requires NothingForeignBound(rec, w)
    requires c.SetAuthorizedLpLocker? ==> c == SetAuthorizedLpLocker(rec.router, rec.locker)
    requires c.SetFactoryOnce? ==> c == SetFactoryOnce(rec.vault, rec.factory)
    requires c.SetCampaignFactoryOnce? ==> c == SetCampaignFactoryOnce(rec.quoteAdapter, rec.factory)
    ensures NothingForeignBound(rec, After(w, c))
  {
    if SlotOf(c) != Lockers(rec.router) { CallFrame(w, c, Lockers(rec.router)); }
    if SlotOf(c) != VaultFactory(rec.vault) { CallFrame(w, c, VaultFactory(rec.vault)); }
    if SlotOf(c) != AdapterFactory(rec.quoteAdapter) { CallFrame(w, c, AdapterFactory(rec.quoteAdapter)); }
  }

  /** Every recorded action stays settled while `done` is executed. */
  predicate ActionsSettled(rec: Record, w: World, done: seq<Call>) {
    forall a :: a in rec.ownerActions ==> StaysSettled(a, Missing(ZeroGuard, w, BindCalls(rec)), done)
  }

  /**
   Batch B may stop anywhere. After the first k calls the next plan is exactly the remaining calls if every recorded
   action stays settled; else it refuses, because an action is no longer in the batch and the contract takes it.
   */
  lemma ResumeB(rec: Record, w: World, k: nat)
    requires Deployable(rec)
    requires PlanB(rec, w).Batch? && Simulated(w, rec.admin, PlanB(rec, w).calls)
    requires k <= |PlanB(rec, w).calls|
    ensures var plan := PlanB(rec, w).calls;
            var stopped := ExecAll(w, rec.admin, plan[..k]);
            && stopped.Done?
            && (PlanB(rec, stopped.world) == Batch(plan[k..]) <==> ActionsSettled(rec, w, plan[..k]))
            && (PlanB(rec, stopped.world) != Batch(plan[k..]) ==>
                  PlanB(rec, stopped.world).Refused? && PlanB(rec, stopped.world).why.ActionNotInBatch?)
  {
    var plan, all := PlanB(rec, w).calls, Candidates(rec);
    PlanIsMissing(rec, w);
    CandidatesWellFormed(rec);
    Resume(ZeroGuard, w, rec.admin, all, k);
    var t := ExecAll(w, rec.admin, plan[..k]).world;
    forall c | c in plan[..k] ensures c in all { MissingMembers(ZeroGuard, w, all, c); }
    PlanBindOk(rec, w);
    NothingForeignBoundKept(rec, w, plan[..k]);
    PlanBindOk(rec, t);
    var left := Missing(ZeroGuard, t, BindCalls(rec));
    MissingConcat(ZeroGuard, t, BindCalls(rec), PotCalls(rec.community, rec.pot));
    CoverageMeaning(t, rec.admin, rec.ownerActions, left);
    forall a | a in rec.ownerActions
      ensures (a in left || !Accepts(t, rec.admin, a))
              <==> StaysSettled(a, Missing(ZeroGuard, w, BindCalls(rec)), plan[..k])
    {
      ActionVerdict(rec, w, k, a);
    }
  }

  lemma ActionVerdict(rec: Record, w: World, k: nat, a: Call)
    requires Deployable(rec) && a in rec.ownerActions
    requires PlanB(rec, w).Batch? && Simulated(w, rec.admin, PlanB(rec, w).calls)
    requires k <= |PlanB(rec, w).calls|
    requires ExecAll(w, rec.admin, PlanB(rec, w).calls[..k]).Done?
    ensures var plan := PlanB(rec, w).calls;
            var t := ExecAll(w, rec.admin, plan[..k]).world;
            (a in Missing(ZeroGuard, t, BindCalls(rec)) || !Accepts(t, rec.admin, a))
            <==> StaysSettled(a, Missing(ZeroGuard, w, BindCalls(rec)), plan[..k])
  {
    PlanIsMissing(rec, w);
    CandidatesWellFormed(rec);
    CoverageMeaning(w, rec.admin, rec.ownerActions, Missing(ZeroGuard, w, BindCalls(rec)));
    VerdictFor(w, rec.admin, BindCalls(rec), Candidates(rec), k, a);
  }
}
