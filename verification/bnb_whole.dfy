/**
 The BNB rollout end to end, as the script runs it: batch B over several sittings with its refusals, the handover of the
 factory, and batch H.
 */
module BnbWhole {
  import opened Common
  import opened Chain
  import opened Planning
  import opened Sittings
  import opened Gen7Bnb
  import opened BnbRollout
  import opened BnbSafety
  import opened Generations

  // ------------------------------------------------------------------ batch B with its refusals

  /** The binding stage: plan batch B, simulate it, and send it. */
  function ScriptB(rec: Record): Planner {
    w =>
      match PlanB(rec, w)
      case Refused(_) => None
      case Batch(calls) => if SimulatedLoosely(w, rec.admin, calls) then Some(calls) else None
  }

  /** Whether every recorded action is still settled, after each number of calls. */
  function SettledB(rec: Record, w: World): seq<bool>
    requires PlanB(rec, w).Batch?
  {
    var plan := PlanB(rec, w).calls;
    seq(|plan| + 1, k requires 0 <= k <= |plan| => ActionsSettled(rec, w, plan[..k]))
  }

  lemma AnswerAt(rec: Record, w: World, k: nat)
    requires Deployed(rec, w) && PlanB(rec, w).Batch? && k <= |PlanB(rec, w).calls|
    ensures var plan := PlanB(rec, w).calls;
            ScriptB(rec)(Point(w, rec.admin, plan, k)) == if SettledB(rec, w)[k] then Some(plan[k..]) else None
  {
    var plan := PlanB(rec, w).calls;
    DeployedSimulates(rec, w);
    ResumeB(rec, w, k);
    if ActionsSettled(rec, w, plan[..k]) {
      var t := ExecAll(w, rec.admin, plan[..k]).world;
      RestSimulates(rec, w, k, t);
    }
  }

  /** What is left of a simulated batch B passes the script's own replay rule. */
  lemma RestSimulates(rec: Record, w: World, k: nat, t: World)
    requires Deployed(rec, w) && PlanB(rec, w).Batch? && k <= |PlanB(rec, w).calls|
    requires ExecAll(w, rec.admin, PlanB(rec, w).calls[..k]) == Done(t)
    requires PlanB(rec, t) == Batch(PlanB(rec, w).calls[k..])
    ensures SimulatedLoosely(t, rec.admin, PlanB(rec, t).calls)
  {
    DeployedSimulates(rec, w);
    PlanIsMissing(rec, w);
    PlanIsMissing(rec, t);
    CandidatesWellFormed(rec);
    Resume(ZeroGuard, w, rec.admin, Candidates(rec), k);
    LooseRuleExactForB(rec, t);
  }

  lemma ScriptAnswers(rec: Record, w: World)
    requires Deployed(rec, w) && PlanB(rec, w).Batch?
    ensures var plan := PlanB(rec, w).calls;
            ExecAll(w, rec.admin, plan).Done?
            && Answers(ScriptB(rec), Points(w, rec.admin, plan), plan, SettledB(rec, w))
  {
    var plan := PlanB(rec, w).calls;
    DeployedSimulates(rec, w);
    BatchBWires(rec, w);
    forall k | 0 <= k <= |plan|
      ensures ScriptB(rec)(Points(w, rec.admin, plan)[k]) == if SettledB(rec, w)[k] then Some(plan[k..]) else None
    {
      AnswerAt(rec, w, k);
    }
    forall j, k | 0 <= j <= k <= |plan| && SettledB(rec, w)[k]
      ensures SettledB(rec, w)[j]
    {
      SettledBEarlier(rec, w, j, k);
    }
  }

  lemma SettledBEarlier(rec: Record, w: World, j: nat, k: nat)
    requires PlanB(rec, w).Batch? && j <= k <= |PlanB(rec, w).calls|
    requires ActionsSettled(rec, w, PlanB(rec, w).calls[..k])
    ensures ActionsSettled(rec, w, PlanB(rec, w).calls[..j])
  {
    forall a | a in rec.ownerActions
      ensures StaysSettled(a, Missing(ZeroGuard, w, BindCalls(rec)), PlanB(rec, w).calls[..j])
    {
      SettledEarlier(a, Missing(ZeroGuard, w, BindCalls(rec)), PlanB(rec, w).calls, j, k);
    }
  }

  /**
   However often batch B is planned, sent and interrupted, and whether or not a later plan refuses, gen-6 is untouched
   and the gen-7 factory's create gate stays as the deploy left it.
   */
  lemma BatchBKeepsBothGates(rec: Record, w: World, stops: seq<nat>)
    requires Deployed(rec, w) && PlanB(rec, w).Batch? && Apart(rec, w)
    ensures var end := InSittings(ScriptB(rec), w, rec.admin, stops);
            && !end.Reverts?
            && Untouched(w, end.world, rec.gen6Factory)
            && (TradeReady(end.world, rec.gen6Factory) <==> TradeReady(w, rec.gen6Factory))
            && (CreateReady(end.world, rec.gen6Factory) <==> CreateReady(w, rec.gen6Factory))
            && (Open(end.world, rec.factory) <==> Open(w, rec.factory))
  {
    if stops == [] {
      RunsKeepBothGates(rec, w, []);
    } else {
      DeployedSimulates(rec, w);
      PlanIsMissing(rec, w);
      CandidatesWellFormed(rec);
      ScriptAnswers(rec, w);
      SittingsAreRuns(ScriptB(rec), ZeroGuard, w, rec.admin, Candidates(rec), SettledB(rec, w), stops);
      var k := PartWayRun(ZeroGuard, w, rec.admin, Candidates(rec),
                          InSittings(ScriptB(rec), w, rec.admin, stops).world);
      RunsKeepBothGates(rec, w, [k]);
    }
  }

  /**
   After batch B both generations can trade, and gen-7 can create once opened. The sittings get there without a refusal
   exactly when every recorded action is still settled at the start of the last one.
   */
  lemma BothGenerationsServed(rec: Record, w: World, stops: seq<nat>)
    requires Deployed(rec, w) && PlanB(rec, w).Batch? && Apart(rec, w) && OwnStack(rec, w)
    requires !ForeignBefore(rec, w) && TradeReady(w, rec.gen6Factory)
    requires stops != [] && |PlanB(rec, w).calls| <= Total(stops)
    ensures var plan := PlanB(rec, w).calls;
            var end := InSittings(ScriptB(rec), w, rec.admin, stops);
            && (end.Sent? <==> ActionsSettled(rec, w, plan[..Min(BeforeLast(stops), |plan|)]))
            && (end.Sent? ==> TradeReady(end.world, rec.gen6Factory)
                              && TradeReady(end.world, rec.factory) && CreateReady(end.world, rec.factory))
  {
    DeployedSimulates(rec, w);
    PlanIsMissing(rec, w);
    CandidatesWellFormed(rec);
    ScriptAnswers(rec, w);
    SittingsAreRuns(ScriptB(rec), ZeroGuard, w, rec.admin, Candidates(rec), SettledB(rec, w), stops);
    RunsServeBoth(rec, w, stops);
  }

  // ------------------------------------------------------------------ the whole rollout

  /** As the deploy records them: owner actions are set-once binding calls. */
  predicate SetOnceActions(rec: Record) {
    forall a :: a in rec.ownerActions ==> a in BindCalls(rec) && SetOnce(a)
  }

  lemma SetOnceSettled(rec: Record, w: World, done: seq<Call>)
    requires SetOnceActions(rec)
    ensures ActionsSettled(rec, w, done)
  {
  }

  /** With such a record and nothing foreign bound, batch B is planned. */
  lemma BatchBPlanned(rec: Record, w: World)
    requires Deployed(rec, w) && NothingForeignBound(rec, w) && SetOnceActions(rec)
    ensures PlanB(rec, w).Batch?
  {
    PlanBindOk(rec, w);
    var calls := Missing(ZeroGuard, w, BindCalls(rec));
    forall a | a in rec.ownerActions ensures a in calls || !Accepts(w, rec.admin, a) {
      ActionCovered(w, rec.admin, BindCalls(rec), a);
    }
    CoverageMeaning(w, rec.admin, rec.ownerActions, calls);
  }

  lemma ActionCovered(w: World, who: Address, all: seq<Call>, a: Call)
    requires a in all && SetOnce(a)
    ensures a in Missing(ZeroGuard, w, all) || !Accepts(w, who, a)
  {
    MissingMembers(ZeroGuard, w, all, a);
    if IsDone(ZeroGuard, w, a) {
      DoneOnceRefused(w, who, a);
    }
  }

  lemma DoneOnceRefused(w: World, who: Address, a: Call)
    requires SetOnce(a) && IsDone(ZeroGuard, w, a)
    ensures !Accepts(w, who, a)
  {
  }

  /** The deployer hands the gen-7 factory over to the admin. */
  function HandedOver(w: World, rec: Record): World { w[Owner(rec.factory) := Account(rec.admin)] }

  /** The rollout: batch B over its sittings, the handover, and batch H, cut off anywhere. */
  function Rollout(rec: Record, w: World, stopsB: seq<nat>, stopsH: seq<nat>): Outcome {
    match InSittings(ScriptB(rec), w, rec.admin, stopsB)
    case Sent(t) => Runs(ZeroGuard, HandedOver(t, rec), rec.admin, OpenCalls(rec), stopsH)
    case _ => Reverted
  }

  lemma OwnersKept(rec: Record, w: World, stops: seq<nat>, t: World)
    requires Deployable(rec) && Runs(ZeroGuard, w, rec.admin, Candidates(rec), stops) == Done(t)
    requires Simulated(w, rec.admin, Missing(ZeroGuard, w, Candidates(rec)))
    ensures AccountAt(t, Owner(rec.gen6Factory)) == AccountAt(w, Owner(rec.gen6Factory))
    ensures Open(t, rec.gen6Factory) == Open(w, rec.gen6Factory)
  {
    CandidatesWellFormed(rec);
    forall c | c in Candidates(rec) ensures !Fixed(SlotOf(c)) && !SlotOf(c).Live? && !SlotOf(c).CreatePaused? {
      CallsWriteNoFixedSlot(c);
      WritesNoGate(rec, c);
    }
    RunsFrame(ZeroGuard, w, rec.admin, Candidates(rec), stops, Owner(rec.gen6Factory));
    RunsFrame(ZeroGuard, w, rec.admin, Candidates(rec), stops, Live(rec.gen6Factory));
    RunsFrame(ZeroGuard, w, rec.admin, Candidates(rec), stops, CreatePaused(rec.gen6Factory));
  }

  lemma WritesNoGate(rec: Record, c: Call)
    requires Deployable(rec) && c in Candidates(rec)
    ensures !SlotOf(c).Live? && !SlotOf(c).CreatePaused?
  {
    if c in PotCalls(rec.community, rec.pot) {
      PotMembers(rec, c);
    }
  }

  /** Opening moves the create gates only. */
  lemma OpeningKeeps(rec: Record, w: World, stops: seq<nat>, factory: Address)
    requires OwnsFactories(rec, w)
    ensures var end := Runs(ZeroGuard, w, rec.admin, OpenCalls(rec), stops);
            && end.Done?
            && (TradeReady(end.world, factory) <==> TradeReady(w, factory))
            && (CreateReady(end.world, factory) <==> CreateReady(w, factory))
  {
    OpenCallsReady(rec, w);
    TradeKept(ZeroGuard, w, rec.admin, OpenCalls(rec), stops, factory);
    RunsFrame(ZeroGuard, w, rec.admin, OpenCalls(rec), stops, VaultFactory(VaultOf(w, factory)));
  }

  /** Over interrupted runs of H one door stays open; carried through, exactly gen-7's is. */
  lemma OpeningGate(rec: Record, w: World, stops: seq<nat>)
    requires OwnsFactories(rec, w)
    ensures var end := Runs(ZeroGuard, w, rec.admin, OpenCalls(rec), stops);
            && end.Done?
            && (Open(w, rec.gen6Factory) ==> Open(end.world, rec.factory) || Open(end.world, rec.gen6Factory))
            && (3 <= Total(stops) ==> Open(end.world, rec.factory) && !Open(end.world, rec.gen6Factory))
  {
    var plan := Missing(ZeroGuard, w, OpenCalls(rec));
    OpenCallsReady(rec, w);
    InterruptionInvisible(ZeroGuard, w, rec.admin, OpenCalls(rec), stops);
    AtMostThree(rec, w);
    CreateGate(rec, w, Min(Total(stops), |plan|));
  }

  lemma AtMostThree(rec: Record, w: World)
    ensures |Missing(ZeroGuard, w, OpenCalls(rec))| <= 3
  {
    MissingShorter(ZeroGuard, w, OpenCalls(rec));
  }

  /**
   From the deployed state: batch B, the handover and batch H, each interrupted at will. Gen-6 trades throughout, gen-7
   trades and can create; if gen-6 was open, a factory is open at every point, and at the end exactly gen-7 is.
   */
  lemma RolloutServes(rec: Record, w: World, stopsB: seq<nat>, stopsH: seq<nat>)
    requires Deployed(rec, w) && NothingForeignBound(rec, w) && !ForeignBefore(rec, w) && SetOnceActions(rec)
    requires Apart(rec, w) && OwnStack(rec, w) && TradeReady(w, rec.gen6Factory)
    requires Administers(w, rec.admin, rec.gen6Factory)
    requires stopsB != [] && |Candidates(rec)| <= Total(stopsB)
    ensures var end := Rollout(rec, w, stopsB, stopsH);
            && end.Done?
            && TradeReady(end.world, rec.gen6Factory)
            && TradeReady(end.world, rec.factory) && CreateReady(end.world, rec.factory)
            && (Open(w, rec.gen6Factory) ==> Open(end.world, rec.factory) || Open(end.world, rec.gen6Factory))
            && (3 <= Total(stopsH) ==> Open(end.world, rec.factory) && !Open(end.world, rec.gen6Factory))
  {
    BoundState(rec, w, stopsB);
    var t := HandedOver(InSittings(ScriptB(rec), w, rec.admin, stopsB).world, rec);
    OpeningKeeps(rec, t, stopsH, rec.gen6Factory);
    OpeningKeeps(rec, t, stopsH, rec.factory);
    OpeningGate(rec, t, stopsH);
  }

  /** Where batch B ends, handed over. */
  lemma BoundState(rec: Record, w: World, stops: seq<nat>)
    requires Deployed(rec, w) && NothingForeignBound(rec, w) && !ForeignBefore(rec, w) && SetOnceActions(rec)
    requires Apart(rec, w) && OwnStack(rec, w) && TradeReady(w, rec.gen6Factory)
    requires Administers(w, rec.admin, rec.gen6Factory)
    requires stops != [] && |Candidates(rec)| <= Total(stops)
    ensures var end := InSittings(ScriptB(rec), w, rec.admin, stops);
            && end.Sent?
            && OwnsFactories(rec, HandedOver(end.world, rec))
            && TradeReady(HandedOver(end.world, rec), rec.gen6Factory)
            && TradeReady(HandedOver(end.world, rec), rec.factory)
            && CreateReady(HandedOver(end.world, rec), rec.factory)
            && Open(HandedOver(end.world, rec), rec.gen6Factory) == Open(w, rec.gen6Factory)
  {
    BatchBPlanned(rec, w);
    var plan := PlanB(rec, w).calls;
    PlanIsMissing(rec, w);
    MissingShorter(ZeroGuard, w, Candidates(rec));
    SetOnceSettled(rec, w, plan[..Min(BeforeLast(stops), |plan|)]);
    BothGenerationsServed(rec, w, stops);
    EndsAsRuns(rec, w, stops);
    var t := InSittings(ScriptB(rec), w, rec.admin, stops).world;
    DeployedSimulates(rec, w);
    OwnersKept(rec, w, stops, t);
    HandoverKeeps(rec, t, rec.gen6Factory);
    HandoverKeeps(rec, t, rec.factory);
  }

  lemma EndsAsRuns(rec: Record, w: World, stops: seq<nat>)
    requires Deployed(rec, w) && PlanB(rec, w).Batch? && stops != []
    requires InSittings(ScriptB(rec), w, rec.admin, stops).Sent?
    ensures Runs(ZeroGuard, w, rec.admin, Candidates(rec), stops)
            == Done(InSittings(ScriptB(rec), w, rec.admin, stops).world)
  {
    DeployedSimulates(rec, w);
    PlanIsMissing(rec, w);
    CandidatesWellFormed(rec);
    ScriptAnswers(rec, w);
    SittingsAreRuns(ScriptB(rec), ZeroGuard, w, rec.admin, Candidates(rec), SettledB(rec, w), stops);
  }

  lemma HandoverKeeps(rec: Record, t: World, factory: Address)
    ensures var u := HandedOver(t, rec);
            && (TradeReady(u, factory) <==> TradeReady(t, factory))
            && (CreateReady(u, factory) <==> CreateReady(t, factory)) && Open(u, factory) == Open(t, factory)
            && AccountAt(u, Owner(rec.factory)) == rec.admin
            && (factory != rec.factory ==> AccountAt(u, Owner(factory)) == AccountAt(t, Owner(factory)))
  {
  }
}
