/**
 How every planner of the rollout works: a fixed list of candidate calls, of which it emits those the chain
 still lacks. This module proves what the scripts rely on for all of them at once: the call-by-call
 simulation is sound, and planning resumes from any point of an interrupted batch.
 */
module Planning {
  import opened Common
  import opened Chain

  /** How the set-once vault slots are tested: BNB asks for zero, Robinhood's A7 filter for the planned value. */
  datatype Style = ZeroGuard | SameGuard

  /** The guard in front of each push: the chain already has what the call would write. */
  predicate IsDone(style: Style, w: World, c: Call) {
    match c
    case SetRecruiterRewardsVault(_, _) | SetCommunityRewardsVault(_, _) | SetProtocolRevenueVault(_, _)
       | SetCreatorRewardsVault(_, _) | SetHolderDistributorOnce(_, _) =>
      if style.ZeroGuard? then AccountAt(w, SlotOf(c)) != ZERO else AccountAt(w, SlotOf(c)) == c.target
    case SetFactoryOnce(_, _) | SetCampaignFactoryOnce(_, _) | SetStockCampaignImplementation(_, _) =>
      AccountAt(w, SlotOf(c)) != ZERO
    case SetAuthorizedLpLocker(to, locker) => IsLocker(w, to, locker)
    case SetPrimaryLpLocker(_, _) | SetBatchOperator(_, _) | SetRouter(_, _) | SetRewardDistributor(_, _)
       | SetAirdropOperator(_, _) =>
      AccountAt(w, SlotOf(c)) == c.target
    case SetOperator(to, operator) => OperatorAt(w, to) == operator
    case SetCaps(to, caps) => CapsAt(w, to) == caps
    case SetQuoteRoute(to, token, tier) =>
      AccountAt(w, QuotePool(to, token)) == AccountAt(w, CanonicalPool(token, tier))
    case AuthorizeBatch(to, id, _, _, _) => AuthAt(w, to, id).authorized || AuthAt(w, to, id).consumed
    case SetLaunchRecorder(_, _) => FlagAt(w, SlotOf(c))
    case ConfigureRoute(to, token, route) => RouteAt(w, to, token) == route
    case EnableLive(to) => FlagAt(w, Live(to))
    case SetCreatePaused(to, pause) => FlagAt(w, CreatePaused(to)) == pause
  }

  /** The calls the chain still lacks, in candidate order. */
  function Missing(style: Style, w: World, candidates: seq<Call>): seq<Call> {
    if candidates == [] then []
    else (if IsDone(style, w, candidates[0]) then [] else [candidates[0]]) + Missing(style, w, candidates[1..])
  }

  /** `setPrimaryLpLocker` is not replayed alone when its `setAuthorizedLpLocker` stands earlier in the batch. */
  predicate Dependent(calls: seq<Call>, i: nat)
    requires i < |calls|
  {
    calls[i].SetPrimaryLpLocker? && SetAuthorizedLpLocker(calls[i].to, calls[i].target) in calls[..i]
  }

  /** simulateBatch: each call that is not dependent succeeds alone against the current state. */
  predicate Simulated(w: World, who: Address, calls: seq<Call>) {
    forall i :: 0 <= i < |calls| && !Dependent(calls, i) ==> Accepts(w, who, calls[i])
  }

  /** No candidate is a call that leaves its own guard open. */
  predicate Closing(c: Call) {
    c.SetStockCampaignImplementation? ==> c.target != ZERO
  }

  predicate WellFormed(candidates: seq<Call>) {
    DistinctSlots(candidates) && forall c :: c in candidates ==> Closing(c)
  }

  // ------------------------------------------------------------------ the plan as a filter

  lemma {:induction false} MissingShorter(style: Style, w: World, candidates: seq<Call>)
    ensures |Missing(style, w, candidates)| <= |candidates|
  {
    if candidates != [] {
      MissingShorter(style, w, candidates[1..]);
    }
  }

  lemma MissingMembers(style: Style, w: World, candidates: seq<Call>, c: Call)
    ensures c in Missing(style, w, candidates) <==> c in candidates && !IsDone(style, w, c)
  {
  }

  lemma MissingConcat(style: Style, w: World, xs: seq<Call>, ys: seq<Call>)
    ensures Missing(style, w, xs + ys) == Missing(style, w, xs) + Missing(style, w, ys)
  {
    if xs == [] {
      assert xs + ys == ys;
    } else {
      assert (xs + ys)[0] == xs[0] && (xs + ys)[1..] == xs[1..] + ys;
      MissingConcat(style, w, xs[1..], ys);
      var here := if IsDone(style, w, xs[0]) then [] else [xs[0]];
      assert here + (Missing(style, w, xs[1..]) + Missing(style, w, ys))
        == here + Missing(style, w, xs[1..]) + Missing(style, w, ys);
    }
  }

  /** A plan keeps the candidates' distinct slots. */
  lemma MissingDistinct(style: Style, w: World, candidates: seq<Call>)
    requires WellFormed(candidates)
    ensures WellFormed(Missing(style, w, candidates))
  {
    if candidates != [] {
      MissingDistinct(style, w, candidates[1..]);
      var rest := Missing(style, w, candidates[1..]);
      forall c | c in rest ensures c in candidates[1..] && SlotOf(c) != SlotOf(candidates[0]) && Closing(c) {
        MissingMembers(style, w, candidates[1..], c);
        var k :| 1 <= k < |candidates| && candidates[k] == c;
      }
    }
  }

  /** Executing a call closes its own guard. */
  lemma ExecCloses(style: Style, w: World, who: Address, c: Call)
    requires Accepts(w, who, c) && Closing(c)
    ensures IsDone(style, After(w, c), c)
  {
    if c.SetQuoteRoute? {
      assert Fixed(CanonicalPool(c.token, c.tier));
      FixedFrame(w, c);
    }
  }

  /** ... and no other. */
  lemma GuardStable(style: Style, w: World, c: Call, d: Call)
    requires SlotOf(c) != SlotOf(d)
    ensures IsDone(style, After(w, d), c) == IsDone(style, w, c)
  {
    CallFrame(w, d, SlotOf(c));
    if c.SetQuoteRoute? {
      assert Fixed(CanonicalPool(c.token, c.tier));
      FixedFrame(w, d);
    }
  }

  lemma MissingStable(style: Style, w: World, candidates: seq<Call>, d: Call)
    requires forall c :: c in candidates ==> SlotOf(c) != SlotOf(d)
    ensures Missing(style, After(w, d), candidates) == Missing(style, w, candidates)
  {
    if candidates != [] {
      GuardStable(style, w, candidates[0], d);
      MissingStable(style, w, candidates[1..], d);
    }
  }

  /** After the first planned call, planning again gives exactly the rest. */
  lemma ReplanAfterHead(style: Style, w: World, who: Address, candidates: seq<Call>)
    requires WellFormed(candidates)
    requires Missing(style, w, candidates) != []
    requires Accepts(w, who, Missing(style, w, candidates)[0])
    ensures Missing(style, After(w, Missing(style, w, candidates)[0]), candidates) == Missing(style, w, candidates)[1..]
  {
    var c := Missing(style, w, candidates)[0];
    if IsDone(style, w, candidates[0]) {
      MissingMembers(style, w, candidates[1..], c);
      assert c in Missing(style, w, candidates[1..]);
      var k :| 1 <= k < |candidates| && candidates[k] == c;
      GuardStable(style, w, candidates[0], c);
      ReplanAfterHead(style, w, who, candidates[1..]);
    } else {
      ExecCloses(style, w, who, c);
      MissingStable(style, w, candidates[1..], c);
    }
  }

  /** The plan after the first `i` guarded pushes. */
  function Pushed(style: Style, w: World, candidates: seq<Call>, i: nat): seq<Call>
    requires i <= |candidates|
  {
    if i == 0 then []
    else if IsDone(style, w, candidates[i - 1]) then Pushed(style, w, candidates, i - 1)
    else Pushed(style, w, candidates, i - 1) + [candidates[i - 1]]
  }

  /** Pushing one guarded candidate after another builds the plan. */
  lemma PushedIsMissing(style: Style, w: World, candidates: seq<Call>, i: nat)
    requires i <= |candidates|
    ensures Pushed(style, w, candidates, i) == Missing(style, w, candidates[..i])
    ensures i == |candidates| ==> Pushed(style, w, candidates, i) == Missing(style, w, candidates)
  {
    if i > 0 {
      PushedIsMissing(style, w, candidates, i - 1);
      assert candidates[..i] == candidates[..i - 1] + [candidates[i - 1]];
      MissingConcat(style, w, candidates[..i - 1], [candidates[i - 1]]);
    }
    if i == |candidates| {
      assert candidates[..i] == candidates;
    }
  }

  lemma WellFormedConcat(xs: seq<Call>, ys: seq<Call>)
    requires WellFormed(xs) && WellFormed(ys)
    requires forall x, y :: x in xs && y in ys ==> SlotOf(x) != SlotOf(y)
    ensures WellFormed(xs + ys)
  {
  }

  // ------------------------------------------------------------------ recorded owner actions

  datatype Found = Nothing | Action(call: Call)

  /** The first recorded owner action that is neither in the batch nor refused by its contract. */
  function FirstUncovered(w: World, who: Address, actions: seq<Call>, batch: seq<Call>): Found {
    if actions == [] then Nothing
    else if actions[0] !in batch && Accepts(w, who, actions[0]) then Action(actions[0])
    else FirstUncovered(w, who, actions[1..], batch)
  }

  /** The coverage check finds nothing exactly when every recorded action is in the batch or refused on chain. */
  lemma {:induction false} CoverageMeaning(w: World, who: Address, actions: seq<Call>, batch: seq<Call>)
    ensures FirstUncovered(w, who, actions, batch).Nothing? <==>
            forall a :: a in actions ==> a in batch || !Accepts(w, who, a)
  {
    if actions != [] {
      CoverageMeaning(w, who, actions[1..], batch);
    }
  }

  // ------------------------------------------------------------------ simulation and execution

  /** Executing the first call of a simulated batch leaves a simulated batch. */
  lemma SimulatedTail(w: World, who: Address, calls: seq<Call>)
    requires calls != [] && DistinctSlots(calls) && Simulated(w, who, calls)
    ensures Accepts(w, who, calls[0])
    ensures Simulated(After(w, calls[0]), who, calls[1..])
  {
    var c, rest := calls[0], calls[1..];
    assert !Dependent(calls, 0);
    forall i | 0 <= i < |rest| && !Dependent(rest, i) ensures Accepts(After(w, c), who, rest[i]) {
      assert rest[i] == calls[i + 1];
      if Dependent(calls, i + 1) {
        var first := SetAuthorizedLpLocker(rest[i].to, rest[i].target);
        assert calls[..i + 1] == [c] + rest[..i];
        assert c == first;
        FixedFrame(w, c);
        assert Fixed(Owner(c.to));
      } else {
        AcceptStable(w, who, rest[i], c);
      }
    }
  }

  /**
   Call-by-call simulation is sound: if every call that is replayed succeeds alone on the current state, the whole
   batch, with the calls left out of the replay, executes in order without a revert.
   */
  lemma {:induction false} SimulationSound(w: World, who: Address, calls: seq<Call>)
    requires DistinctSlots(calls) && Simulated(w, who, calls)
    ensures ExecAll(w, who, calls).Done?
    decreases |calls|
  {
    if calls != [] {
      SimulatedTail(w, who, calls);
      SimulationSound(After(w, calls[0]), who, calls[1..]);
    }
  }

  /**
   ... and it refuses nothing that would have worked: a batch that executes in order passes its simulation. With
   SimulationSound, the simulation is exact on batches that write every slot once.
   */
  lemma {:induction false} SimulationComplete(w: World, who: Address, calls: seq<Call>)
    requires DistinctSlots(calls) && ExecAll(w, who, calls).Done?
    ensures Simulated(w, who, calls)
    decreases |calls|
  {
    if calls != [] {
      var c, rest := calls[0], calls[1..];
      SimulationComplete(After(w, c), who, rest);
      forall i | 0 <= i < |calls| && !Dependent(calls, i) ensures Accepts(w, who, calls[i]) {
        if i > 0 {
          assert calls[i] == rest[i - 1];
          assert calls[..i] == [c] + rest[..i - 1];
          AcceptNotGained(w, who, calls[i], c);
        }
      }
    }
  }

  /** Once executed, a call would be refused if repeated exactly when it is a set-once setter. */
  lemma {:induction false} RepeatAfterBatch(w: World, who: Address, calls: seq<Call>, m: nat)
    requires DistinctSlots(calls) && ExecAll(w, who, calls).Done? && m < |calls|
    ensures Accepts(ExecAll(w, who, calls).world, who, calls[m]) <==> !SetOnce(calls[m])
    decreases |calls|
  {
    var v := After(w, calls[0]);
    if m > 0 {
      RepeatAfterBatch(v, who, calls[1..], m - 1);
    } else {
      RepeatRefused(w, who, calls[0]);
      VerdictKept(v, who, calls[0], calls[1..]);
    }
  }

  /** A batch that stays off a call's slot keeps it accepted, or keeps a set-once call refused. */
  lemma {:induction false} VerdictKept(w: World, who: Address, c: Call, calls: seq<Call>)
    requires ExecAll(w, who, calls).Done?
    requires forall d :: d in calls ==> SlotOf(d) != SlotOf(c)
    ensures Accepts(w, who, c) ==> Accepts(ExecAll(w, who, calls).world, who, c)
    ensures !Accepts(w, who, c) && SetOnce(c) ==> !Accepts(ExecAll(w, who, calls).world, who, c)
    decreases |calls|
  {
    if calls != [] {
      if Accepts(w, who, c) {
        AcceptStable(w, who, c, calls[0]);
      } else if SetOnce(c) {
        OnceRefusedForever(w, who, c, calls[0]);
      }
      VerdictKept(After(w, calls[0]), who, c, calls[1..]);
    }
  }

  /** ... and a refused set-once call stays refused through any batch at all. */
  lemma {:induction false} OnceRefusedThroughout(w: World, who: Address, c: Call, calls: seq<Call>)
    requires ExecAll(w, who, calls).Done?
    requires SetOnce(c) && !Accepts(w, who, c)
    ensures !Accepts(ExecAll(w, who, calls).world, who, c)
    decreases |calls|
  {
    if calls != [] {
      OnceRefusedForever(w, who, c, calls[0]);
      OnceRefusedThroughout(After(w, calls[0]), who, c, calls[1..]);
    }
  }

  predicate FreedBy(calls: seq<Call>, c: Call) {
    c.SetPrimaryLpLocker? && SetAuthorizedLpLocker(c.to, c.target) in calls
  }

  lemma {:induction false} PrimaryStaysThroughout(w: World, who: Address, c: Call, calls: seq<Call>)
    requires ExecAll(w, who, calls).Done? && c.SetPrimaryLpLocker? && Accepts(w, who, c)
    ensures Accepts(ExecAll(w, who, calls).world, who, c)
    decreases |calls|
  {
    if calls != [] {
      PrimaryStays(w, who, c, calls[0]);
      PrimaryStaysThroughout(After(w, calls[0]), who, c, calls[1..]);
    }
  }

  /**
   Over a whole batch: a refused call is taken afterwards exactly when the batch authorized the locker it makes primary.
   */
  lemma {:induction false} RefusalEndsThroughout(w: World, who: Address, c: Call, calls: seq<Call>)
    requires ExecAll(w, who, calls).Done? && !Accepts(w, who, c)
    ensures Accepts(ExecAll(w, who, calls).world, who, c) <==> FreedBy(calls, c)
    decreases |calls|
  {
    if calls != [] {
      RefusalEnds(w, who, c, calls[0]);
      if Frees(calls[0], c) {
        PrimaryStaysThroughout(After(w, calls[0]), who, c, calls[1..]);
      } else {
        RefusalEndsThroughout(After(w, calls[0]), who, c, calls[1..]);
        FreedLater(calls, c);
      }
    }
  }

  lemma FreedLater(calls: seq<Call>, c: Call)
    requires calls != [] && !Frees(calls[0], c)
    ensures FreedBy(calls, c) <==> FreedBy(calls[1..], c)
  {
  }

  /** Slots no call of the batch writes keep their value, however far the batch got. */
  lemma {:induction false} BatchFrame(w: World, who: Address, calls: seq<Call>, slot: Slot)
    requires ExecAll(w, who, calls).Done?
    requires forall c :: c in calls ==> SlotOf(c) != slot
    ensures var t := ExecAll(w, who, calls).world;
            (slot in t <==> slot in w) && (slot in w ==> t[slot] == w[slot])
    decreases |calls|
  {
    if calls != [] {
      BatchFrame(After(w, calls[0]), who, calls[1..], slot);
    }
  }

  /**
   Resume from any point: the first k calls of a plan that passed its simulation execute, what is left still passes,
   and planning again yields exactly the calls not executed yet.
   */
  lemma {:induction false} Resume(style: Style, w: World, who: Address, candidates: seq<Call>, k: nat)
    requires WellFormed(candidates)
    requires Simulated(w, who, Missing(style, w, candidates))
    requires k <= |Missing(style, w, candidates)|
    ensures var plan := Missing(style, w, candidates);
            var stopped := ExecAll(w, who, plan[..k]);
            && stopped.Done?
            && Missing(style, stopped.world, candidates) == plan[k..]
            && Simulated(stopped.world, who, plan[k..])
    decreases k
  {
    var plan := Missing(style, w, candidates);
    if k == 0 {
      assert plan[..0] == [] && plan[0..] == plan;
    } else {
      MissingDistinct(style, w, candidates);
      SimulatedTail(w, who, plan);
      ReplanAfterHead(style, w, who, candidates);
      var next := After(w, plan[0]);
      Resume(style, next, who, candidates, k - 1);
      assert plan[..k][1..] == plan[1..][..k - 1];
      assert plan[1..][k - 1..] == plan[k..];
    }
  }

  /** Of a plan stopped after k calls: an executed call is not planned again, and is refused if it is set-once. */
  lemma ExecutedVerdict(style: Style, w: World, who: Address, candidates: seq<Call>, k: nat, m: nat)
    requires WellFormed(candidates)
    requires Simulated(w, who, Missing(style, w, candidates))
    requires m < k <= |Missing(style, w, candidates)|
    ensures var plan := Missing(style, w, candidates);
            var stopped := ExecAll(w, who, plan[..k]);
            && stopped.Done?
            && (Accepts(stopped.world, who, plan[m]) <==> !SetOnce(plan[m]))
            && plan[m] !in Missing(style, stopped.world, candidates)
  {
    var plan := Missing(style, w, candidates);
    MissingDistinct(style, w, candidates);
    Resume(style, w, who, candidates, k);
    assert plan[..k][m] == plan[m];
    RepeatAfterBatch(w, who, plan[..k], m);
    assert forall j :: 0 <= j < |plan[k..]| ==> plan[k..][j] == plan[k + j];
  }

  /** Executing two parts one after the other is executing them joined. */
  lemma {:induction false} ExecAllConcat(w: World, who: Address, xs: seq<Call>, ys: seq<Call>)
    ensures ExecAll(w, who, xs + ys) ==
            match ExecAll(w, who, xs)
            case Reverted => Reverted
            case Done(t) => ExecAll(t, who, ys)
    decreases |xs|
  {
    if xs == [] {
      assert xs + ys == ys;
    } else {
      assert (xs + ys)[1..] == xs[1..] + ys;
      if Accepts(w, who, xs[0]) {
        ExecAllConcat(After(w, xs[0]), who, xs[1..], ys);
      }
    }
  }

  /** One run: plan from the chain as it is, then be cut off after `stop` sent calls (or finish). */
  function CutOff(style: Style, w: World, who: Address, candidates: seq<Call>, stop: nat): Outcome {
    var plan := Missing(style, w, candidates);
    ExecAll(w, who, plan[..Min(stop, |plan|)])
  }

  /** Any number of runs, each cut off somewhere. */
  function Runs(style: Style, w: World, who: Address, candidates: seq<Call>, stops: seq<nat>): Outcome
    decreases |stops|
  {
    if stops == [] then Done(w)
    else
      match CutOff(style, w, who, candidates, stops[0])
      case Reverted => Reverted
      case Done(t) => Runs(style, t, who, candidates, stops[1..])
  }

  function Total(stops: seq<nat>): nat {
    if stops == [] then 0 else stops[0] + Total(stops[1..])
  }

  lemma MinSum(a: nat, b: nat, n: nat)
    ensures Min(a, n) + Min(b, n - Min(a, n)) == Min(a + b, n)
  {
  }

  /** A second run takes up where the first was cut off. */
  lemma CutOffTwice(style: Style, w: World, who: Address, candidates: seq<Call>, a: nat, b: nat)
    requires WellFormed(candidates)
    requires Simulated(w, who, Missing(style, w, candidates))
    ensures CutOff(style, w, who, candidates, a).Done?
    ensures var t := CutOff(style, w, who, candidates, a).world;
            && Simulated(t, who, Missing(style, t, candidates))
            && CutOff(style, t, who, candidates, b) == CutOff(style, w, who, candidates, a + b)
  {
    var plan := Missing(style, w, candidates);
    var k := Min(a, |plan|);
    Resume(style, w, who, candidates, k);
    CutOffJoins(style, w, who, candidates, plan, a, b);
  }

  lemma CutOffJoins(style: Style, w: World, who: Address, candidates: seq<Call>, plan: seq<Call>, a: nat, b: nat)
    requires plan == Missing(style, w, candidates) && ExecAll(w, who, plan[..Min(a, |plan|)]).Done?
    requires Missing(style, ExecAll(w, who, plan[..Min(a, |plan|)]).world, candidates) == plan[Min(a, |plan|)..]
    ensures CutOff(style, CutOff(style, w, who, candidates, a).world, who, candidates, b)
            == CutOff(style, w, who, candidates, a + b)
  {
    var n := Min(a, |plan|);
    CutOffAfter(style, w, who, candidates, plan, n, b);
    MinSum(a, b, |plan|);
    assert CutOff(style, w, who, candidates, a) == ExecAll(w, who, plan[..n]);
    assert CutOff(style, w, who, candidates, a + b) == ExecAll(w, who, plan[..Min(a + b, |plan|)]);
  }

  lemma CutOffAfter(style: Style, w: World, who: Address, candidates: seq<Call>, plan: seq<Call>, k: nat, b: nat)
    requires k <= |plan| && ExecAll(w, who, plan[..k]).Done?
    requires Missing(style, ExecAll(w, who, plan[..k]).world, candidates) == plan[k..]
    ensures CutOff(style, ExecAll(w, who, plan[..k]).world, who, candidates, b)
            == ExecAll(w, who, plan[..k + Min(b, |plan| - k)])
  {
    ExecParts(w, who, plan, k, Min(b, |plan| - k));
  }

  lemma ExecParts(w: World, who: Address, plan: seq<Call>, k: nat, m: nat)
    requires k + m <= |plan| && ExecAll(w, who, plan[..k]).Done?
    ensures ExecAll(ExecAll(w, who, plan[..k]).world, who, plan[k..][..m]) == ExecAll(w, who, plan[..k + m])
  {
    assert plan[..k] + plan[k..][..m] == plan[..k + m];
    ExecAllConcat(w, who, plan[..k], plan[k..][..m]);
  }

  /** Where runs were cut off does not show: together they executed the first plan's calls, once each and in order. */
  lemma {:induction false} InterruptionInvisible(style: Style, w: World, who: Address, candidates: seq<Call>,
                                                 stops: seq<nat>)
    requires WellFormed(candidates)
    requires Simulated(w, who, Missing(style, w, candidates))
    ensures Runs(style, w, who, candidates, stops) == CutOff(style, w, who, candidates, Total(stops))
    decreases |stops|
  {
    if stops == [] {
      assert Missing(style, w, candidates)[..0] == [];
    } else {
      CutOffTwice(style, w, who, candidates, stops[0], Total(stops[1..]));
      InterruptionInvisible(style, CutOff(style, w, who, candidates, stops[0]).world, who, candidates, stops[1..]);
    }
  }

  /** Runs that get far enough converge: nothing is missing any more, and every guard is closed. */
  lemma Converges(style: Style, w: World, who: Address, candidates: seq<Call>, stops: seq<nat>)
    requires WellFormed(candidates)
    requires Simulated(w, who, Missing(style, w, candidates))
    requires |Missing(style, w, candidates)| <= Total(stops)
    ensures Runs(style, w, who, candidates, stops).Done?
    ensures var t := Runs(style, w, who, candidates, stops).world;
            Missing(style, t, candidates) == [] && forall c :: c in candidates ==> IsDone(style, t, c)
  {
    var plan := Missing(style, w, candidates);
    InterruptionInvisible(style, w, who, candidates, stops);
    Resume(style, w, who, candidates, |plan|);
    assert plan[|plan|..] == [];
    var t := Runs(style, w, who, candidates, stops).world;
    forall c | c in candidates ensures IsDone(style, t, c) {
      MissingMembers(style, t, candidates, c);
    }
  }

  /**
   A recorded action stays settled while `done` is executed: executed, it must refuse its repetition; never planned, it
   must not be the primary locker's call whose authorization was executed.
   */
  predicate StaysSettled(a: Call, planned: seq<Call>, done: seq<Call>) {
    if a in done then SetOnce(a) else a in planned || !FreedBy(done, a)
  }

  /** What stays settled was settled before. */
  lemma SettledEarlier(a: Call, planned: seq<Call>, plan: seq<Call>, j: nat, k: nat)
    requires j <= k <= |plan| && StaysSettled(a, planned, plan[..k])
    ensures StaysSettled(a, planned, plan[..j])
  {
    forall c | c in plan[..j] ensures c in plan[..k] { }
  }

  /**
   A recorded action after k executed calls of a plan whose coverage check passed: still in the batch or refused on
   chain, exactly when it stays settled.
   */
  lemma VerdictFor(w: World, who: Address, core: seq<Call>, all: seq<Call>, k: nat, a: Call)
    requires WellFormed(all) && core <= all
    requires Simulated(w, who, Missing(ZeroGuard, w, all)) && k <= |Missing(ZeroGuard, w, all)|
    requires a in Missing(ZeroGuard, w, core) || !Accepts(w, who, a)
    requires ExecAll(w, who, Missing(ZeroGuard, w, all)[..k]).Done?
    ensures var plan := Missing(ZeroGuard, w, all);
            var t := ExecAll(w, who, plan[..k]).world;
            (a in Missing(ZeroGuard, t, core) || !Accepts(t, who, a))
            <==> StaysSettled(a, Missing(ZeroGuard, w, core), plan[..k])
  {
    var plan := Missing(ZeroGuard, w, all);
    if a in plan[..k] {
      DoneVerdict(w, who, core, all, k, a);
    } else if a in Missing(ZeroGuard, w, core) {
      WaitingStays(w, who, core, all, k, a);
    } else {
      NeverMissing(w, who, core, all, k, a);
      RefusalEndsThroughout(w, who, a, plan[..k]);
    }
  }

  lemma DoneVerdict(w: World, who: Address, core: seq<Call>, all: seq<Call>, k: nat, a: Call)
    requires WellFormed(all) && core <= all
    requires Simulated(w, who, Missing(ZeroGuard, w, all)) && k <= |Missing(ZeroGuard, w, all)|
    requires ExecAll(w, who, Missing(ZeroGuard, w, all)[..k]).Done? && a in Missing(ZeroGuard, w, all)[..k]
    ensures var t := ExecAll(w, who, Missing(ZeroGuard, w, all)[..k]).world;
            a !in Missing(ZeroGuard, t, core) && (Accepts(t, who, a) <==> !SetOnce(a))
  {
    var plan := Missing(ZeroGuard, w, all);
    var t := ExecAll(w, who, plan[..k]).world;
    var m :| 0 <= m < k && plan[m] == a;
    ExecutedVerdict(ZeroGuard, w, who, all, k, m);
    MissingMembers(ZeroGuard, t, all, a);
    MissingMembers(ZeroGuard, t, core, a);
  }

  /** What the first plan did not miss, no later one misses. */
  lemma NeverMissing(w: World, who: Address, core: seq<Call>, all: seq<Call>, k: nat, a: Call)
    requires WellFormed(all) && core <= all
    requires Simulated(w, who, Missing(ZeroGuard, w, all)) && k <= |Missing(ZeroGuard, w, all)|
    requires a !in Missing(ZeroGuard, w, core)
    ensures ExecAll(w, who, Missing(ZeroGuard, w, all)[..k]).Done?
    ensures a !in Missing(ZeroGuard, ExecAll(w, who, Missing(ZeroGuard, w, all)[..k]).world, core)
  {
    var plan := Missing(ZeroGuard, w, all);
    Resume(ZeroGuard, w, who, all, k);
    var t := ExecAll(w, who, plan[..k]).world;
    if a in Missing(ZeroGuard, t, core) {
      MissingMembers(ZeroGuard, t, core, a);
      MissingMembers(ZeroGuard, t, all, a);
      assert a in plan;
      MissingMembers(ZeroGuard, w, all, a);
      MissingMembers(ZeroGuard, w, core, a);
    }
  }

  /** A planned call that was not reached is planned again. */
  lemma WaitingStays(w: World, who: Address, core: seq<Call>, all: seq<Call>, k: nat, a: Call)
    requires WellFormed(all) && core <= all
    requires Simulated(w, who, Missing(ZeroGuard, w, all)) && k <= |Missing(ZeroGuard, w, all)|
    requires a in Missing(ZeroGuard, w, core) && a !in Missing(ZeroGuard, w, all)[..k]
    ensures ExecAll(w, who, Missing(ZeroGuard, w, all)[..k]).Done?
    ensures a in Missing(ZeroGuard, ExecAll(w, who, Missing(ZeroGuard, w, all)[..k]).world, core)
  {
    var plan := Missing(ZeroGuard, w, all);
    MissingMembers(ZeroGuard, w, core, a);
    MissingMembers(ZeroGuard, w, all, a);
    Resume(ZeroGuard, w, who, all, k);
    InTail(plan, k, a);
    var t := ExecAll(w, who, plan[..k]).world;
    MissingMembers(ZeroGuard, t, all, a);
    MissingMembers(ZeroGuard, t, core, a);
  }

  lemma InTail(plan: seq<Call>, k: nat, a: Call)
    requires k <= |plan| && a in plan && a !in plan[..k]
    ensures a in plan[k..]
  {
    assert plan == plan[..k] + plan[k..];
  }

  // ------------------------------------------------------------------ what a batch leaves behind

  /** The slot a call writes holds what the call asks for. */
  predicate Holds(w: World, c: Call) {
    match c
    case SetFactoryOnce(_, _) | SetCampaignFactoryOnce(_, _) | SetStockCampaignImplementation(_, _) =>
      AccountAt(w, SlotOf(c)) == c.target
    case _ => IsDone(SameGuard, w, c)
  }

  lemma HoldsKept(w: World, who: Address, c: Call, calls: seq<Call>)
    requires ExecAll(w, who, calls).Done?
    requires forall d :: d in calls ==> SlotOf(d) != SlotOf(c)
    ensures Holds(ExecAll(w, who, calls).world, c) == Holds(w, c)
    decreases |calls|
  {
    if calls != [] {
      var d := calls[0];
      CallFrame(w, d, SlotOf(c));
      GuardStable(SameGuard, w, c, d);
      HoldsKept(After(w, d), who, c, calls[1..]);
    }
  }

  /** Every call of an executed batch holds at its end. */
  lemma {:induction false} ExecutedHolds(w: World, who: Address, calls: seq<Call>, m: nat)
    requires WellFormed(calls) && ExecAll(w, who, calls).Done? && m < |calls|
    ensures Holds(ExecAll(w, who, calls).world, calls[m])
    decreases |calls|
  {
    var c := calls[0];
    var v := After(w, c);
    if m > 0 {
      ExecutedHolds(v, who, calls[1..], m - 1);
    } else {
      ExecCloses(SameGuard, w, who, c);
      HoldsKept(v, who, c, calls[1..]);
    }
  }

  /** The vault slots a `ZeroGuard` planner only tests for zero, holding something else. */
  predicate HoldsForeign(w: World, c: Call) {
    && (c.SetRecruiterRewardsVault? || c.SetCommunityRewardsVault? || c.SetProtocolRevenueVault?
        || c.SetCreatorRewardsVault? || c.SetHolderDistributorOnce? || c.SetFactoryOnce? || c.SetCampaignFactoryOnce?
        || c.SetStockCampaignImplementation?)
    && AccountAt(w, SlotOf(c)) != ZERO && AccountAt(w, SlotOf(c)) != c.target
  }

  /**
   What converging means: after the whole plan, a candidate's slot holds what was recorded exactly when no foreign
   value was there before. A zero guard skips such a slot, and no later run notices.
   */
  lemma ConvergedHolds(w: World, who: Address, candidates: seq<Call>, c: Call)
    requires WellFormed(candidates) && c in candidates
    requires ExecAll(w, who, Missing(ZeroGuard, w, candidates)).Done?
    ensures Holds(ExecAll(w, who, Missing(ZeroGuard, w, candidates)).world, c) <==> !HoldsForeign(w, c)
  {
    var plan := Missing(ZeroGuard, w, candidates);
    MissingMembers(ZeroGuard, w, candidates, c);
    MissingDistinct(ZeroGuard, w, candidates);
    if c in plan {
      var m :| 0 <= m < |plan| && plan[m] == c;
      ExecutedHolds(w, who, plan, m);
    } else {
      forall d | d in plan ensures SlotOf(d) != SlotOf(c) {
        MissingMembers(ZeroGuard, w, candidates, d);
        var i :| 0 <= i < |candidates| && candidates[i] == c;
        var j :| 0 <= j < |candidates| && candidates[j] == d;
      }
      HoldsKept(w, who, c, plan);
    }
  }

  /** Slots off the candidates survive any number of interrupted runs. */
  lemma RunsFrame(style: Style, w: World, who: Address, candidates: seq<Call>, stops: seq<nat>, slot: Slot)
    requires WellFormed(candidates) && Simulated(w, who, Missing(style, w, candidates))
    requires forall c :: c in candidates ==> SlotOf(c) != slot
    ensures Runs(style, w, who, candidates, stops).Done?
    ensures var t := Runs(style, w, who, candidates, stops).world;
            AccountAt(t, slot) == AccountAt(w, slot) && (FlagAt(t, slot) <==> FlagAt(w, slot))
            && (slot in t <==> slot in w) && (slot in w ==> t[slot] == w[slot])
  {
    var plan := Missing(style, w, candidates);
    InterruptionInvisible(style, w, who, candidates, stops);
    var k := Min(Total(stops), |plan|);
    Resume(style, w, who, candidates, k);
    forall c | c in plan[..k] ensures SlotOf(c) != slot {
      MissingMembers(style, w, candidates, c);
    }
    BatchFrame(w, who, plan[..k], slot);
  }

  // ------------------------------------------------------------------ when a plan passes its simulation

  /** Everything a contract asks for besides the state of the slot the call writes. */
  predicate Prepared(w: World, who: Address, c: Call) {
    AccountAt(w, Owner(c.to)) == who &&
    match c
    case SetRecruiterRewardsVault(_, v) => v != ZERO && FlagAt(w, Code(v))
    case SetCommunityRewardsVault(_, v) => v != ZERO && FlagAt(w, Code(v))
    case SetProtocolRevenueVault(_, v) => v != ZERO && FlagAt(w, Code(v))
    case SetCreatorRewardsVault(_, v) => v != ZERO && FlagAt(w, Code(v))
    case SetAuthorizedLpLocker(to, locker) => locker != ZERO && (IsLocker(w, to, locker) || !AnyLocker(w, to))
    case SetPrimaryLpLocker(_, locker) => locker != ZERO
    case SetFactoryOnce(_, f) => f != ZERO && AccountAt(w, FactoryLocker(f)) != ZERO
    case SetHolderDistributorOnce(_, d) => d != ZERO
    case SetCaps(_, caps) => caps.impactBps <= MAX_IMPACT_BPS
    case AuthorizeBatch(to, id, max, publishAfter, deadline) =>
      && id != 0 && max != 0 && publishAfter < deadline
      && (FlagAt(w, BatchExists(to, id)) ==> AuthAt(w, to, id).consumed)
    case SetRewardDistributor(_, d) => d != ZERO
    case SetLaunchRecorder(_, recorder) => recorder != ZERO
    case SetCampaignFactoryOnce(to, f) =>
      && f != ZERO && FlagAt(w, Code(f))
      && (FlagAt(w, OnRobinhood(to)) ==>
            AccountAt(w, FactoryLocker(f)) != ZERO && FlagAt(w, Code(AccountAt(w, FactoryLocker(f)))))
    case SetStockCampaignImplementation(to, implementation) =>
      !FlagAt(w, HasCampaigns(to)) && implementation != ZERO && FlagAt(w, Code(implementation))
    case _ => Accepts(w, who, c) || IsDone(ZeroGuard, w, c)
  }

  /** A `SameGuard` planner also needs the vault slots to be unset or already right. */
  predicate NoForeign(style: Style, w: World, c: Call) {
    style.SameGuard? && (c.SetRecruiterRewardsVault? || c.SetCommunityRewardsVault? || c.SetProtocolRevenueVault?
                         || c.SetCreatorRewardsVault? || c.SetHolderDistributorOnce?) ==>
      AccountAt(w, SlotOf(c)) == ZERO || AccountAt(w, SlotOf(c)) == c.target
  }

  predicate LockerFirst(w: World, candidates: seq<Call>) {
    forall j :: 0 <= j < |candidates| && candidates[j].SetPrimaryLpLocker? ==>
      || IsLocker(w, candidates[j].to, candidates[j].target)
      || SetAuthorizedLpLocker(candidates[j].to, candidates[j].target) in candidates[..j]
  }

  lemma PreparedAccepts(style: Style, w: World, who: Address, c: Call)
    requires Prepared(w, who, c) && NoForeign(style, w, c) && !IsDone(style, w, c)
    requires c.SetPrimaryLpLocker? ==> IsLocker(w, c.to, c.target)
    ensures Accepts(w, who, c)
  {
  }

  /** In a plan, a locker still to be authorized is authorized before it is made primary. */
  lemma PrimaryFollowsLocker(style: Style, w: World, candidates: seq<Call>, j: nat, i: nat)
    requires WellFormed(candidates) && j < |candidates| && candidates[j].SetPrimaryLpLocker?
    requires var c := candidates[j];
             SetAuthorizedLpLocker(c.to, c.target) in candidates[..j] && !IsLocker(w, c.to, c.target)
    requires i < |Missing(style, w, candidates)| && Missing(style, w, candidates)[i] == candidates[j]
    ensures Dependent(Missing(style, w, candidates), i)
  {
    var c := candidates[j];
    var first := SetAuthorizedLpLocker(c.to, c.target);
    var front, back := Missing(style, w, candidates[..j]), Missing(style, w, candidates[j..]);
    assert candidates[..j] + candidates[j..] == candidates;
    MissingConcat(style, w, candidates[..j], candidates[j..]);
    MissingMembers(style, w, candidates[..j], first);
    MissingMembers(style, w, candidates[..j], c);
    assert i >= |front|;
    assert (front + back)[..i] == front + back[..i - |front|];
  }

  /** A prepared deployment's plan passes the call-by-call simulation, so it executes and resumes. */
  lemma PreparedSimulated(style: Style, w: World, who: Address, candidates: seq<Call>)
    requires WellFormed(candidates) && LockerFirst(w, candidates)
    requires forall c :: c in candidates ==> Prepared(w, who, c) && NoForeign(style, w, c)
    ensures Simulated(w, who, Missing(style, w, candidates))
  {
    var plan := Missing(style, w, candidates);
    forall i | 0 <= i < |plan| && !Dependent(plan, i) ensures Accepts(w, who, plan[i]) {
      var c := plan[i];
      MissingMembers(style, w, candidates, c);
      var j :| 0 <= j < |candidates| && candidates[j] == c;
      if c.SetPrimaryLpLocker? && !IsLocker(w, c.to, c.target) {
        PrimaryFollowsLocker(style, w, candidates, j, i);
      }
      PreparedAccepts(style, w, who, c);
    }
  }

  // ------------------------------------------------------------------ the loops

  /** The coverage loop of both batch-B planners. */
  method CheckCoverage(net: Network, who: Address, actions: seq<Call>, batch: seq<Call>) returns (found: Found)
    ensures found == FirstUncovered(net.world, who, actions, batch)
  {
    for i := 0 to |actions|
      invariant FirstUncovered(net.world, who, actions, batch) == FirstUncovered(net.world, who, actions[i..], batch)
    {
      if actions[i] !in batch {
        var accepted := net.EthCall(who, actions[i]);
        if accepted { return Action(actions[i]); }
      }
    }
    return Nothing;
  }

  /** A planner's loop over generated calls: push those the chain still lacks. */
  method EmitMissing(net: Network, style: Style, candidates: seq<Call>) returns (calls: seq<Call>)
    ensures calls == Missing(style, net.world, candidates)
  {
    calls := [];
    for i := 0 to |candidates|
      invariant calls == Pushed(style, net.world, candidates, i)
    {
      if !IsDone(style, net.world, candidates[i]) {
        calls := calls + [candidates[i]];
      }
    }
    PushedIsMissing(style, net.world, candidates, |candidates|);
  }

  /** simulateBatch of the Robinhood rollout: the calls the replay refuses. */
  method SimulateBatch(net: Network, who: Address, calls: seq<Call>) returns (refusals: seq<Call>)
    ensures refusals == [] <==> Simulated(net.world, who, calls)
    ensures forall c :: c in refusals ==> c in calls && !Accepts(net.world, who, c)
  {
    refusals := [];
    for i := 0 to |calls|
      invariant forall c :: c in refusals ==> c in calls && !Accepts(net.world, who, c)
      invariant refusals == [] <==> forall j :: 0 <= j < i && !Dependent(calls, j) ==> Accepts(net.world, who, calls[j])
    {
      if !Dependent(calls, i) {
        var ok := net.EthCall(who, calls[i]);
        if !ok {
          refusals := refusals + [calls[i]];
        }
      }
    }
  }

  /**
   sendAsDeployer and sendPlanned: the calls one by one, first to last. The run ends early where a call reverts, or
   where the process dies, after `stop` sent calls.
   */
  method SendInOrder(net: Network, who: Address, calls: seq<Call>, stop: nat) returns (sent: nat)
    modifies net
    ensures sent <= |calls| && sent <= stop
    ensures ExecAll(old(net.world), who, calls[..sent]) == Done(net.world)
    ensures sent < |calls| && sent < stop ==> !Accepts(net.world, who, calls[sent])
  {
    sent := 0;
    while sent < |calls| && sent < stop
      invariant 0 <= sent <= |calls| && sent <= stop
      invariant ExecAll(old(net.world), who, calls[..sent]) == Done(net.world)
    {
      var ok := net.Send(who, calls[sent]);
      if !ok {
        return;
      }
      ExecAllConcat(old(net.world), who, calls[..sent], [calls[sent]]);
      assert calls[..sent] + [calls[sent]] == calls[..sent + 1];
      sent := sent + 1;
    }
  }
}
