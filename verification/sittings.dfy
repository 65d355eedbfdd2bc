/**
 Planning and sending over several sittings, refusals included: each sitting asks the planner for what the chain lacks;
 if it refuses, nothing is sent, else the calls are sent in order until the sitting is cut off.
 */
module Sittings {
  import opened Common
  import opened Chain
  import opened Planning

  /** What a script would send from this state, or none if it refuses to. */
  type Planner = World -> Option<seq<Call>>

  datatype Ending = Reverts | Refuses(world: World) | Sent(world: World)

  function InSittings(planner: Planner, w: World, who: Address, stops: seq<nat>): Ending
    decreases |stops|
  {
    if stops == [] then Sent(w)
    else
      match planner(w)
      case None => Refuses(w)
      case Some(calls) =>
        match ExecAll(w, who, calls[..Min(stops[0], |calls|)])
        case Reverted => Reverts
        case Done(t) => InSittings(planner, t, who, stops[1..])
  }

  /** How many calls were sent before the last sitting started. */
  function BeforeLast(stops: seq<nat>): nat {
    if |stops| <= 1 then 0 else stops[0] + BeforeLast(stops[1..])
  }

  /** Where the sitting after the first one starts in a plan of n calls, if the first one starts at k. */
  function NextStart(k: nat, n: nat, stops: seq<nat>): (next: nat)
    requires k <= n && stops != []
    ensures k <= next <= n && k <= Min(k + BeforeLast(stops), n)
    ensures Min(next + Total(stops[1..]), n) == Min(k + Total(stops), n)
    ensures 1 < |stops| ==> Min(next + BeforeLast(stops[1..]), n) == Min(k + BeforeLast(stops), n)
  {
    k + Min(stops[0], n - k)
  }

  // ------------------------------------------------------------------ along one plan

  /** The states a batch passes through, from before its first call to after its last. */
  ghost predicate Path(points: seq<World>, who: Address, plan: seq<Call>) {
    |points| == |plan| + 1
    && forall i, j :: 0 <= i <= j <= |plan| ==> ExecAll(points[i], who, plan[i..][..j - i]) == Done(points[j])
  }

  /**
   From any of these states the planner answers the rest of the plan while `settled`, and refuses from there on; what is
   settled was settled before.
   */
  ghost predicate Answers(planner: Planner, points: seq<World>, plan: seq<Call>, settled: seq<bool>) {
    |settled| == |points| == |plan| + 1
    && (forall k :: 0 <= k <= |plan| ==> planner(points[k]) == if settled[k] then Some(plan[k..]) else None)
    && forall j, k :: 0 <= j <= k <= |plan| && settled[k] ==> settled[j]
  }

  lemma Unfold(planner: Planner, t: World, who: Address, stops: seq<nat>, calls: seq<Call>, u: World)
    requires stops != [] && planner(t) == Some(calls) && ExecAll(t, who, calls[..Min(stops[0], |calls|)]) == Done(u)
    ensures InSittings(planner, t, who, stops) == InSittings(planner, u, who, stops[1..])
  {
  }

  /** One settled sitting moves on by what it sends. */
  lemma OneSitting(planner: Planner, points: seq<World>, who: Address, plan: seq<Call>, settled: seq<bool>, k: nat,
                   stops: seq<nat>)
    requires Path(points, who, plan) && Answers(planner, points, plan, settled)
    requires k <= |plan| && stops != [] && settled[k]
    ensures InSittings(planner, points[k], who, stops)
            == InSittings(planner, points[NextStart(k, |plan|, stops)], who, stops[1..])
  {
    var next := NextStart(k, |plan|, stops);
    assert next - k == Min(stops[0], |plan[k..]|);
    Unfold(planner, points[k], who, stops, plan[k..], points[next]);
  }

  /** While the plan is settled, sittings go on where the last one stopped. */
  lemma {:induction false} SettledSittings(planner: Planner, points: seq<World>, who: Address, plan: seq<Call>,
                                           settled: seq<bool>, k: nat, stops: seq<nat>, end: nat)
    requires Path(points, who, plan) && Answers(planner, points, plan, settled) && k <= |plan|
    requires stops != [] ==> settled[Min(k + BeforeLast(stops), |plan|)]
    requires end == Min(k + Total(stops), |plan|)
    ensures InSittings(planner, points[k], who, stops) == Sent(points[end])
    decreases |stops|
  {
    if stops == [] {
      assert end == k;
    } else {
      var next := NextStart(k, |plan|, stops);
      SettledNow(planner, points, plan, settled, k, stops);
      OneSitting(planner, points, who, plan, settled, k, stops);
      SettledSittings(planner, points, who, plan, settled, next, stops[1..], end);
    }
  }

  lemma SettledNow(planner: Planner, points: seq<World>, plan: seq<Call>, settled: seq<bool>, k: nat, stops: seq<nat>)
    requires Answers(planner, points, plan, settled) && k <= |plan| && stops != []
    requires settled[Min(k + BeforeLast(stops), |plan|)]
    ensures settled[k]
  {
  }

  /** Otherwise one of them refuses, with some of the plan executed. */
  lemma {:induction false} UnsettledSittings(planner: Planner, points: seq<World>, who: Address, plan: seq<Call>,
                                             settled: seq<bool>, k: nat, stops: seq<nat>)
    requires Path(points, who, plan) && Answers(planner, points, plan, settled) && k <= |plan|
    requires stops != [] && !settled[Min(k + BeforeLast(stops), |plan|)]
    ensures var end := InSittings(planner, points[k], who, stops); end.Refuses? && end.world in points
    decreases |stops|
  {
    if settled[k] {
      OneSitting(planner, points, who, plan, settled, k, stops);
      UnsettledSittings(planner, points, who, plan, settled, NextStart(k, |plan|, stops), stops[1..]);
    }
  }

  /** Along a plan: no refusal exactly if it is still settled where the last sitting starts. */
  lemma AlongPlan(planner: Planner, points: seq<World>, who: Address, plan: seq<Call>, settled: seq<bool>,
                  stops: seq<nat>)
    requires Path(points, who, plan) && Answers(planner, points, plan, settled) && stops != []
    ensures var end := InSittings(planner, points[0], who, stops);
            && (end.Sent? <==> settled[Min(BeforeLast(stops), |plan|)])
            && (end.Sent? ==> end.world == points[Min(Total(stops), |plan|)])
            && !end.Reverts? && end.world in points
  {
    if settled[Min(BeforeLast(stops), |plan|)] {
      SettledSittings(planner, points, who, plan, settled, 0, stops, Min(Total(stops), |plan|));
    } else {
      UnsettledSittings(planner, points, who, plan, settled, 0, stops);
    }
  }

  // ------------------------------------------------------------------ every executing batch has its path

  /** The chain after the first k calls of a batch that executes. */
  function Point(w: World, who: Address, plan: seq<Call>, k: nat): World
    requires k <= |plan|
  {
    match ExecAll(w, who, plan[..k])
    case Reverted => w
    case Done(t) => t
  }

  function Points(w: World, who: Address, plan: seq<Call>): (points: seq<World>)
    ensures |points| == |plan| + 1
    ensures forall k :: 0 <= k <= |plan| ==> points[k] == Point(w, who, plan, k)
  {
    seq(|plan| + 1, k requires 0 <= k <= |plan| => Point(w, who, plan, k))
  }

  lemma PrefixDone(w: World, who: Address, plan: seq<Call>, k: nat)
    requires ExecAll(w, who, plan).Done? && k <= |plan|
    ensures ExecAll(w, who, plan[..k]) == Done(Point(w, who, plan, k))
  {
    assert plan[..k] + plan[k..] == plan;
    ExecAllConcat(w, who, plan[..k], plan[k..]);
  }

  lemma PointsJoin(w: World, who: Address, plan: seq<Call>, i: nat, j: nat)
    requires ExecAll(w, who, plan).Done? && i <= j <= |plan|
    ensures ExecAll(Point(w, who, plan, i), who, plan[i..][..j - i]) == Done(Point(w, who, plan, j))
  {
    var m := j - i;
    PrefixDone(w, who, plan, i);
    PrefixDone(w, who, plan, j);
    ExecParts(w, who, plan, i, m);
    assert i + m == j;
  }

  lemma PointsArePath(w: World, who: Address, plan: seq<Call>)
    requires ExecAll(w, who, plan).Done?
    ensures Path(Points(w, who, plan), who, plan) && Points(w, who, plan)[0] == w
  {
    forall i, j | 0 <= i <= j <= |plan|
      ensures ExecAll(Points(w, who, plan)[i], who, plan[i..][..j - i]) == Done(Points(w, who, plan)[j])
    {
      PointsJoin(w, who, plan, i, j);
    }
    assert plan[..0] == [];
  }

  lemma RunsReach(style: Style, w: World, who: Address, candidates: seq<Call>, stops: seq<nat>)
    requires WellFormed(candidates) && Simulated(w, who, Missing(style, w, candidates))
    requires ExecAll(w, who, Missing(style, w, candidates)).Done?
    ensures var plan := Missing(style, w, candidates);
            Runs(style, w, who, candidates, stops) == Done(Points(w, who, plan)[Min(Total(stops), |plan|)])
  {
    var plan := Missing(style, w, candidates);
    InterruptionInvisible(style, w, who, candidates, stops);
    PrefixDone(w, who, plan, Min(Total(stops), |plan|));
  }

  /**
   Over sittings cut off anywhere the planner never refuses exactly if the plan is still settled when the last one
   starts; then the sittings are the runs of the bare plan. If it refuses, some of the plan was executed in order.
   */
  lemma SittingsAreRuns(planner: Planner, style: Style, w: World, who: Address, candidates: seq<Call>,
                        settled: seq<bool>, stops: seq<nat>)
    requires WellFormed(candidates) && Simulated(w, who, Missing(style, w, candidates)) && stops != []
    requires var plan := Missing(style, w, candidates);
             ExecAll(w, who, plan).Done? && Answers(planner, Points(w, who, plan), plan, settled)
    ensures var plan := Missing(style, w, candidates);
            var end := InSittings(planner, w, who, stops);
            && (end.Sent? <==> settled[Min(BeforeLast(stops), |plan|)])
            && (end.Sent? ==> Runs(style, w, who, candidates, stops) == Done(end.world))
            && !end.Reverts? && end.world in Points(w, who, plan)
  {
    var plan := Missing(style, w, candidates);
    PointsArePath(w, who, plan);
    AlongPlan(planner, Points(w, who, plan), who, plan, settled, stops);
    RunsReach(style, w, who, candidates, stops);
  }

  /** What is executed part way is what one cut-off run of the bare plan executes. */
  lemma PartWayRun(style: Style, w: World, who: Address, candidates: seq<Call>, t: World) returns (k: nat)
    requires ExecAll(w, who, Missing(style, w, candidates)).Done? && t in Points(w, who, Missing(style, w, candidates))
    ensures Runs(style, w, who, candidates, [k]) == Done(t)
  {
    var plan := Missing(style, w, candidates);
    k :| 0 <= k <= |plan| && Points(w, who, plan)[k] == t;
    PrefixDone(w, who, plan, k);
  }
}
