/** The Safe's runway of pre-authorized payout batches: planned again and again while batches are created or revoked. */
module Runway {
  import opened Common
  import opened Chain
  import opened Planning
  import opened Gen7Bnb

  /** One distributor's ids as its generator lists them, nearest week first. */
  datatype Lane = Lane(distributor: Address, weeks: seq<Week>)

  /** Revoked by the owner, or used up: authorizeBatch must never be planned for it again. */
  predicate Frozen(w: World, distributor: Address, id: nat) {
    var a := AuthAt(w, distributor, id);
    a.consumed || FlagAt(w, BatchExists(distributor, id)) || (!a.authorized && 0 < a.max)
  }

  /** What gets past the four `continue`s. */
  predicate Wanted(w: World, now: nat, distributor: Address, week: Week) {
    now < week.deadline && !Frozen(w, distributor, week.id) && !AuthAt(w, distributor, week.id).authorized
  }

  function LaneCalls(w: World, now: nat, distributor: Address, weeks: seq<Week>): seq<Call> {
    if weeks == [] then []
    else
      (if Wanted(w, now, distributor, weeks[0])
       then [AuthorizeBatch(distributor, weeks[0].id, weeks[0].cap, weeks[0].publishAfter, weeks[0].deadline)] else [])
      + LaneCalls(w, now, distributor, weeks[1..])
  }

  function RunwayCalls(w: World, now: nat, lanes: seq<Lane>): seq<Call> {
    if lanes == [] then []
    else LaneCalls(w, now, lanes[0].distributor, lanes[0].weeks) + RunwayCalls(w, now, lanes[1..])
  }

  /** runwayCalls: the nested loops over distributors and generated ids. */
  method PlanRunway(net: Network, now: nat, lanes: seq<Lane>) returns (calls: seq<Call>)
    ensures calls == RunwayCalls(net.world, now, lanes)
  {
    var w := net.world;
    calls := [];
    for i := 0 to |lanes|
      invariant calls + RunwayCalls(w, now, lanes[i..]) == RunwayCalls(w, now, lanes)
    {
      var d, weeks := lanes[i].distributor, lanes[i].weeks;
      var more := PlanLane(net, now, d, weeks);
      assert lanes[i..][1..] == lanes[i + 1..];
      assert (calls + more) + RunwayCalls(w, now, lanes[i + 1..])
        == calls + (more + RunwayCalls(w, now, lanes[i + 1..]));
      calls := calls + more;
    }
  }

  method PlanLane(net: Network, now: nat, d: Address, weeks: seq<Week>) returns (calls: seq<Call>)
    ensures calls == LaneCalls(net.world, now, d, weeks)
  {
    var w := net.world;
    calls := [];
    for j := 0 to |weeks|
      invariant calls + LaneCalls(w, now, d, weeks[j..]) == LaneCalls(w, now, d, weeks)
    {
      var week := weeks[j];
      assert weeks[j..][1..] == weeks[j + 1..];
      if week.deadline <= now { continue; }
      var a := AuthAt(w, d, week.id);
      if a.consumed || FlagAt(w, BatchExists(d, week.id)) { continue; }
      if a.authorized { continue; }
      if 0 < a.max { continue; }
      var call := AuthorizeBatch(d, week.id, week.cap, week.publishAfter, week.deadline);
      assert calls + ([call] + LaneCalls(w, now, d, weeks[j + 1..]))
        == (calls + [call]) + LaneCalls(w, now, d, weeks[j + 1..]);
      calls := calls + [call];
    }
    assert weeks[|weeks|..] == [] && calls + [] == calls;
  }

  // ------------------------------------------------------------------ what a plan contains

  predicate Listed(lanes: seq<Lane>, distributor: Address, week: Week) {
    exists lane :: lane in lanes && lane.distributor == distributor && week in lane.weeks
  }

  lemma {:induction false} LaneMembers(w: World, now: nat, distributor: Address, weeks: seq<Week>, c: Call)
    ensures c in LaneCalls(w, now, distributor, weeks) <==>
            exists week :: week in weeks && Wanted(w, now, distributor, week)
                           && c == AuthorizeBatch(distributor, week.id, week.cap, week.publishAfter, week.deadline)
  {
    if weeks != [] {
      LaneMembers(w, now, distributor, weeks[1..], c);
    }
  }

  lemma {:induction false} RunwayMembers(w: World, now: nat, lanes: seq<Lane>, c: Call)
    ensures c in RunwayCalls(w, now, lanes) <==>
            exists lane :: lane in lanes && c in LaneCalls(w, now, lane.distributor, lane.weeks)
  {
    if lanes != [] {
      RunwayMembers(w, now, lanes[1..], c);
    }
  }

  /** Every planned call authorizes a listed id that is open: not past its deadline, not frozen, not authorized yet. */
  lemma PlannedIsOpen(w: World, now: nat, lanes: seq<Lane>, c: Call)
    requires c in RunwayCalls(w, now, lanes)
    ensures c.AuthorizeBatch? && now < c.deadline
    ensures !Frozen(w, c.to, c.id) && !AuthAt(w, c.to, c.id).authorized
    ensures Listed(lanes, c.to, Week(c.id, c.max, c.publishAfter, c.deadline))
  {
    RunwayMembers(w, now, lanes, c);
    var lane :| lane in lanes && c in LaneCalls(w, now, lane.distributor, lane.weeks);
    LaneMembers(w, now, lane.distributor, lane.weeks, c);
  }

  // ------------------------------------------------------------------ runs

  /** What happens to the distributors between and during runs. */
  datatype Event =
    | Fill(now: nat, lanes: seq<Lane>, signed: nat)
    | Revoke(distributor: Address, id: nat)
    | Create(distributor: Address, id: nat, at: nat, amount: nat)

  predicate CanRevoke(w: World, who: Address, distributor: Address, id: nat) {
    var a := AuthAt(w, distributor, id);
    AccountAt(w, Owner(distributor)) == who && a.authorized && !a.consumed
  }

  /** RewardDistributor.createBatch by the owner or its batch operator. */
  predicate CanCreate(w: World, distributor: Address, id: nat, at: nat, amount: nat) {
    var a := AuthAt(w, distributor, id);
    && id != 0 && 0 < amount <= a.max && !FlagAt(w, BatchExists(distributor, id)) && a.authorized && !a.consumed
    && a.publishAfter <= at <= a.deadline
  }

  /**
   A run plans at its block time and the Safe signs the first `signed` calls of the plan; revocations and batch
   creations follow RewardDistributor. A revert changes nothing.
   */
  function Step(w: World, who: Address, e: Event): World {
    match e
    case Fill(now, lanes, signed) =>
      var plan := RunwayCalls(w, now, lanes);
      (match ExecAll(w, who, plan[..Min(signed, |plan|)])
       case Reverted => w
       case Done(t) => t)
    case Revoke(d, id) =>
      if CanRevoke(w, who, d, id) then w[BatchAuth(d, id) := AuthValue(AuthAt(w, d, id).(authorized := false))] else w
    case Create(d, id, at, amount) =>
      if CanCreate(w, d, id, at, amount)
      then w[BatchAuth(d, id) := AuthValue(AuthAt(w, d, id).(consumed := true))][BatchExists(d, id) := Flag(true)]
      else w
  }

  function History(w: World, who: Address, events: seq<Event>): World
    decreases |events|
  {
    if events == [] then w else History(Step(w, who, events[0]), who, events[1..])
  }

  /** An executed part of a plan writes no frozen id. */
  lemma FillKeepsFrozen(w: World, who: Address, now: nat, lanes: seq<Lane>, k: nat, d: Address, id: nat)
    requires Frozen(w, d, id) && k <= |RunwayCalls(w, now, lanes)|
    requires ExecAll(w, who, RunwayCalls(w, now, lanes)[..k]).Done?
    ensures var t := ExecAll(w, who, RunwayCalls(w, now, lanes)[..k]).world;
            AuthAt(t, d, id) == AuthAt(w, d, id) && FlagAt(t, BatchExists(d, id)) == FlagAt(w, BatchExists(d, id))
  {
    var calls := RunwayCalls(w, now, lanes)[..k];
    forall c | c in calls ensures SlotOf(c) != BatchAuth(d, id) && SlotOf(c) != BatchExists(d, id) {
      PlannedIsOpen(w, now, lanes, c);
      CallsWriteNoFixedSlot(c);
    }
    BatchFrame(w, who, calls, BatchAuth(d, id));
    BatchFrame(w, who, calls, BatchExists(d, id));
  }

  lemma FrozenStep(w: World, who: Address, e: Event, d: Address, id: nat)
    requires Frozen(w, d, id)
    ensures Frozen(Step(w, who, e), d, id)
    ensures !AuthAt(w, d, id).authorized ==> AuthAt(Step(w, who, e), d, id) == AuthAt(w, d, id)
    ensures AuthAt(w, d, id).consumed ==> AuthAt(Step(w, who, e), d, id) == AuthAt(w, d, id)
  {
    if e.Fill? {
      var k := Min(e.signed, |RunwayCalls(w, e.now, e.lanes)|);
      if ExecAll(w, who, RunwayCalls(w, e.now, e.lanes)[..k]).Done? {
        FillKeepsFrozen(w, who, e.now, e.lanes, k, d, id);
      }
    }
  }

  /**
   Over any history of runs, partly signed or not, revocations and created batches: an id once revoked, consumed or
   created is never authorized by a run again, and no later plan contains it.
   */
  lemma {:induction false} NeverAuthorizedAgain(w: World, who: Address, events: seq<Event>, d: Address, id: nat)
    requires Frozen(w, d, id)
    ensures Frozen(History(w, who, events), d, id)
    ensures !AuthAt(w, d, id).authorized || AuthAt(w, d, id).consumed ==>
              AuthAt(History(w, who, events), d, id) == AuthAt(w, d, id)
    ensures forall now: nat, lanes: seq<Lane>, c: Call ::
              c in RunwayCalls(History(w, who, events), now, lanes) ==> c.AuthorizeBatch? && !(c.to == d && c.id == id)
    decreases |events|
  {
    if events == [] {
      forall now: nat, lanes: seq<Lane>, c: Call | c in RunwayCalls(w, now, lanes)
        ensures c.AuthorizeBatch? && !(c.to == d && c.id == id)
      {
        PlannedIsOpen(w, now, lanes, c);
      }
    } else {
      FrozenStep(w, who, events[0], d, id);
      NeverAuthorizedAgain(Step(w, who, events[0]), who, events[1..], d, id);
    }
  }

  /** What the contract keeps true of its authorizations: authorizeBatch takes no maximum of zero. */
  ghost predicate Bounded(w: World) {
    forall d: Address, id: nat :: AuthAt(w, d, id).authorized ==> 0 < AuthAt(w, d, id).max
  }

  lemma {:induction false} FillKeepsBounded(w: World, who: Address, calls: seq<Call>)
    requires Bounded(w) && ExecAll(w, who, calls).Done? && forall c :: c in calls ==> c.AuthorizeBatch?
    ensures Bounded(ExecAll(w, who, calls).world)
    decreases |calls|
  {
    if calls != [] {
      var v := After(w, calls[0]);
      assert calls[0].AuthorizeBatch?;
      forall d: Address, id: nat | AuthAt(v, d, id).authorized
        ensures 0 < AuthAt(v, d, id).max
      {
        if BatchAuth(d, id) != SlotOf(calls[0]) {
          CallFrame(w, calls[0], BatchAuth(d, id));
          assert AuthAt(v, d, id) == AuthAt(w, d, id);
        }
      }
      FillKeepsBounded(v, who, calls[1..]);
    }
  }

  lemma StepKeepsBounded(w: World, who: Address, e: Event)
    requires Bounded(w)
    ensures Bounded(Step(w, who, e))
  {
    if e.Fill? {
      var plan := RunwayCalls(w, e.now, e.lanes);
      var calls := plan[..Min(e.signed, |plan|)];
      forall c | c in calls ensures c.AuthorizeBatch? { PlannedIsOpen(w, e.now, e.lanes, c); }
      if ExecAll(w, who, calls).Done? {
        FillKeepsBounded(w, who, calls);
      }
    } else {
      forall d: Address, id: nat | AuthAt(Step(w, who, e), d, id).authorized
        ensures 0 < AuthAt(Step(w, who, e), d, id).max
      {
        assert AuthAt(w, d, id).authorized && AuthAt(Step(w, who, e), d, id).max == AuthAt(w, d, id).max;
      }
    }
  }

  lemma {:induction false} HistoryKeepsBounded(w: World, who: Address, events: seq<Event>)
    requires Bounded(w)
    ensures Bounded(History(w, who, events))
    decreases |events|
  {
    if events != [] {
      StepKeepsBounded(w, who, events[0]);
      HistoryKeepsBounded(Step(w, who, events[0]), who, events[1..]);
    }
  }

  /** The event revokes the id, or creates its batch. */
  predicate Ends(w: World, who: Address, e: Event, d: Address, id: nat) {
    match e
    case Fill(_, _, _) => false
    case Revoke(distributor, i) => distributor == d && i == id && CanRevoke(w, who, d, id)
    case Create(distributor, i, at, amount) => distributor == d && i == id && CanCreate(w, d, id, at, amount)
  }

  lemma EndedIsFrozen(w: World, who: Address, e: Event, d: Address, id: nat)
    requires Bounded(w) && Ends(w, who, e, d, id)
    ensures Frozen(Step(w, who, e), d, id)
    ensures !AuthAt(Step(w, who, e), d, id).authorized || AuthAt(Step(w, who, e), d, id).consumed
  {
  }

  /**
   Over every history: once an id is revoked or its batch created, whatever went before and whatever comes after, its
   authorization stays as that left it and no plan contains it.
   */
  lemma NeverAuthorizedAfter(w: World, who: Address, before: seq<Event>, e: Event, later: seq<Event>, d: Address,
                             id: nat)
    requires Bounded(w) && Ends(History(w, who, before), who, e, d, id)
    ensures var ended := Step(History(w, who, before), who, e);
            var now := History(ended, who, later);
            && Frozen(now, d, id) && AuthAt(now, d, id) == AuthAt(ended, d, id)
            && forall at: nat, lanes: seq<Lane>, c: Call ::
                 c in RunwayCalls(now, at, lanes) ==> c.AuthorizeBatch? && !(c.to == d && c.id == id)
  {
    HistoryKeepsBounded(w, who, before);
    EndedIsFrozen(History(w, who, before), who, e, d, id);
    NeverAuthorizedAgain(Step(History(w, who, before), who, e), who, later, d, id);
  }

  // ------------------------------------------------------------------ one full run

  /** Every listed week is one authorizeBatch would take, were it open. */
  predicate Valid(w: World, who: Address, lanes: seq<Lane>) {
    forall lane, week :: lane in lanes && week in lane.weeks ==>
      AccountAt(w, Owner(lane.distributor)) == who && week.id != 0 && week.cap != 0 && week.publishAfter < week.deadline
  }

  /** Calls that would each be taken now, and authorize only, are taken in a row: listing an id twice does no harm. */
  lemma {:induction false} AuthorizationsExecute(w: World, who: Address, calls: seq<Call>)
    requires forall c :: c in calls ==> c.AuthorizeBatch? && Accepts(w, who, c)
    ensures ExecAll(w, who, calls).Done?
    ensures var t := ExecAll(w, who, calls).world;
            (forall c :: c in calls ==> AuthAt(t, c.to, c.id).authorized)
            && (forall d: Address, id: nat :: AuthAt(w, d, id).authorized ==> AuthAt(t, d, id).authorized)
            && (forall d: Address, id: nat :: Frozen(w, d, id) ==> Frozen(t, d, id) || AuthAt(t, d, id).authorized)
    decreases |calls|
  {
    if calls != [] {
      var v := After(w, calls[0]);
      forall c | c in calls[1..] ensures Accepts(v, who, c) {
        StillAuthorizes(w, who, calls[0], c);
      }
      AuthorizationFrame(w, who, calls[0]);
      AuthorizationsExecute(v, who, calls[1..]);
    }
  }

  lemma StillAuthorizes(w: World, who: Address, first: Call, c: Call)
    requires first.AuthorizeBatch? && c.AuthorizeBatch? && Accepts(w, who, first) && Accepts(w, who, c)
    ensures Accepts(After(w, first), who, c)
  {
    FixedFrame(w, first);
    assert Fixed(Owner(c.to)) && Fixed(BatchExists(c.to, c.id));
    if SlotOf(c) != SlotOf(first) {
      AcceptStable(w, who, c, first);
    }
  }

  lemma AuthorizationFrame(w: World, who: Address, c: Call)
    requires c.AuthorizeBatch? && Accepts(w, who, c)
    ensures var v := After(w, c);
            AuthAt(v, c.to, c.id).authorized
            && (forall d: Address, id: nat :: AuthAt(w, d, id).authorized ==> AuthAt(v, d, id).authorized)
            && (forall d: Address, id: nat :: Frozen(w, d, id) ==> Frozen(v, d, id) || AuthAt(v, d, id).authorized)
  {
    FixedFrame(w, c);
    forall d: Address, id: nat | Frozen(w, d, id)
      ensures Frozen(After(w, c), d, id) || AuthAt(After(w, c), d, id).authorized
    {
      assert Fixed(BatchExists(d, id));
    }
  }

  /** After a fully signed run every listed id still in time is authorized or frozen, so the same run plans nothing. */
  lemma FullRunFills(w: World, who: Address, now: nat, lanes: seq<Lane>)
    requires Valid(w, who, lanes)
    ensures var end := ExecAll(w, who, RunwayCalls(w, now, lanes));
            && end.Done?
            && (forall lane, week :: lane in lanes && week in lane.weeks && now < week.deadline ==>
                  AuthAt(end.world, lane.distributor, week.id).authorized || Frozen(w, lane.distributor, week.id))
            && RunwayCalls(end.world, now, lanes) == []
  {
    var plan := RunwayCalls(w, now, lanes);
    forall c | c in plan ensures c.AuthorizeBatch? && Accepts(w, who, c) {
      PlannedIsOpen(w, now, lanes, c);
      var week := Week(c.id, c.max, c.publishAfter, c.deadline);
      var lane :| lane in lanes && lane.distributor == c.to && week in lane.weeks;
    }
    AuthorizationsExecute(w, who, plan);
    var t := ExecAll(w, who, plan).world;
    forall lane, week | lane in lanes && week in lane.weeks && now < week.deadline
      ensures AuthAt(t, lane.distributor, week.id).authorized || Frozen(w, lane.distributor, week.id)
      ensures !Wanted(t, now, lane.distributor, week)
    {
      var c := AuthorizeBatch(lane.distributor, week.id, week.cap, week.publishAfter, week.deadline);
      LaneMembers(w, now, lane.distributor, lane.weeks, c);
      RunwayMembers(w, now, lanes, c);
    }
    if RunwayCalls(t, now, lanes) != [] {
      var c := RunwayCalls(t, now, lanes)[0];
      PlannedIsOpen(t, now, lanes, c);
      assert false;
    }
  }

  /** Revoked by the owner, and neither used up nor authorized again. */
  predicate Revoked(w: World, d: Address, id: nat) {
    var a := AuthAt(w, d, id);
    !a.authorized && !a.consumed && 0 < a.max && !FlagAt(w, BatchExists(d, id))
  }

  /**
   The gen-7 pot planner of batch B has no such rule. Of the weeks the runway never authorizes again, it plans one, and
   the contract takes it, exactly when the week was revoked and not consumed or created.
   */
  lemma PotPlannerReauthorizesRevoked(w: World, who: Address, d: Address, weeks: seq<Week>, i: nat)
    requires i < |weeks| && weeks[i].id != 0 && weeks[i].cap != 0 && weeks[i].publishAfter < weeks[i].deadline
    requires AccountAt(w, Owner(d)) == who && Frozen(w, d, weeks[i].id)
    ensures WeekCalls(d, weeks)[i] in Missing(ZeroGuard, w, WeekCalls(d, weeks))
            && Accepts(w, who, WeekCalls(d, weeks)[i])
            <==> Revoked(w, d, weeks[i].id)
  {
    PotPlans(w, d, weeks, i);
  }

  /** So the two planners agree on a listed week in time exactly when it was not revoked. */
  lemma PlannersAgreeUnlessRevoked(w: World, now: nat, d: Address, weeks: seq<Week>, i: nat)
    requires i < |weeks| && now < weeks[i].deadline && !FlagAt(w, BatchExists(d, weeks[i].id))
    ensures (Wanted(w, now, d, weeks[i]) <==> WeekCalls(d, weeks)[i] in Missing(ZeroGuard, w, WeekCalls(d, weeks)))
            <==> !Revoked(w, d, weeks[i].id)
  {
    PotPlans(w, d, weeks, i);
  }

  /** Whom the pot planner plans: the weeks neither authorized nor consumed. */
  lemma PotPlans(w: World, d: Address, weeks: seq<Week>, i: nat)
    requires i < |weeks|
    ensures WeekCalls(d, weeks)[i] in Missing(ZeroGuard, w, WeekCalls(d, weeks))
            <==> !AuthAt(w, d, weeks[i].id).authorized && !AuthAt(w, d, weeks[i].id).consumed
  {
    var c := WeekCalls(d, weeks)[i];
    assert SlotOf(c) == BatchAuth(d, weeks[i].id);
    MissingMembers(ZeroGuard, w, WeekCalls(d, weeks), c);
  }
}
