/**
 The factory registry over its three scripts: replacing the factory, staging a second one, activating the staged one.
 Replacing and staging read the current deployment file; staging writes a file of its own, which activating reads back
 to overwrite the current one. Factories are numbered in the order they are deployed.
 */
module Registry {
  import opened Common

  type Address = nat

  /** A flag may be absent from an entry, which counts as enabled. */
  datatype Entry = Entry(generation: string, address: Address, creationEnabled: bool, trading: Option<bool>,
                         support: Option<bool>)

  datatype FactoryRegistry = FactoryRegistry(activeFactory: Address, activeGeneration: string, staged: Option<Address>,
                                             stagedGeneration: string, factories: seq<Entry>)

  datatype Deployment = Deployment(launchFactory: Address, generation: string, registry: Option<FactoryRegistry>,
                                   stagedFactory: Option<Address>)

  function Enabled(flag: Option<bool>): bool { flag != Some(false) }

  function Factories(d: Deployment): seq<Entry> { if d.registry.None? then [] else d.registry.value.factories }

  function Or(first: string, second: string): string { if first != "" then first else second }

  function ActiveGeneration(d: Deployment): string {
    if d.registry.None? then "" else d.registry.value.activeGeneration
  }

  /** The entry of an address: the first one that carries it. */
  function Find(es: seq<Entry>, address: Address): (r: Option<Entry>)
    ensures r.Some? ==> r.value.address == address
  {
    if es == [] then None else if es[0].address == address then Some(es[0]) else Find(es[1..], address)
  }

  predicate Listed(es: seq<Entry>, address: Address) { Find(es, address).Some? }

  function Rewrite(e: Entry, creator: Option<Address>): Entry {
    e.(creationEnabled := creator == Some(e.address), trading := Some(Enabled(e.trading)),
       support := Some(Enabled(e.support)))
  }

  /** The entries with creation left to one address only, or to none, and the flags spelled out. */
  function Rewritten(es: seq<Entry>, creator: Option<Address>): seq<Entry> {
    if es == [] then [] else [Rewrite(es[0], creator)] + Rewritten(es[1..], creator)
  }

  function Open(generation: string, address: Address, creation: bool): Entry {
    Entry(generation, address, creation, Some(true), Some(true))
  }

  // ------------------------------------------------------------------ replace

  function ReplacedFactories(d: Deployment, newFactory: Address, newGeneration: string): seq<Entry> {
    var kept := Rewritten(Factories(d), None);
    (if Listed(kept, d.launchFactory) then kept
     else kept + [Open(Or(ActiveGeneration(d), Or(d.generation, "previous")), d.launchFactory, false)])
    + [Open(newGeneration, newFactory, true)]
  }

  function Replaced(d: Deployment, newFactory: Address, newGeneration: string): Deployment {
    d.(launchFactory := newFactory,
       registry := Some(FactoryRegistry(newFactory, newGeneration, None, "",
                                        ReplacedFactories(d, newFactory, newGeneration))))
  }

  // ------------------------------------------------------------------ stage

  function OldGeneration(d: Deployment): string {
    var fallback := Or(ActiveGeneration(d), "previous");
    match Find(Factories(d), d.launchFactory)
    case None => fallback
    case Some(e) => Or(e.generation, fallback)
  }

  function StagedFactories(d: Deployment, newFactory: Address, generation: string): seq<Entry> {
    var kept := Rewritten(Factories(d), Some(d.launchFactory));
    (if Listed(Factories(d), d.launchFactory) then kept else kept + [Open(OldGeneration(d), d.launchFactory, true)])
    + [Open(generation, newFactory, false)]
  }

  function Staged(d: Deployment, newFactory: Address, generation: string): Deployment {
    d.(stagedFactory := Some(newFactory),
       registry := Some(FactoryRegistry(d.launchFactory, OldGeneration(d), Some(newFactory), generation,
                                        StagedFactories(d, newFactory, generation))))
  }

  // ------------------------------------------------------------------ activate

  /** Refused when nothing is staged or the staged factory is missing from the list. */
  function Activated(d: Deployment): Option<Deployment> {
    if d.stagedFactory.None? || !Listed(Factories(d), d.stagedFactory.value) then None
    else
      var newFactory := d.stagedFactory.value;
      var generation := Or(if d.registry.None? then "" else d.registry.value.stagedGeneration,
                           "bnb-testnet-scheduled-v2");
      Some(d.(launchFactory := newFactory,
              registry := Some(FactoryRegistry(newFactory, generation, None, "",
                                               Rewritten(Factories(d), Some(newFactory))))))
  }

  // ------------------------------------------------------------------ looking factories up

  lemma {:induction false} FindAppend(es: seq<Entry>, fs: seq<Entry>, a: Address)
    ensures Find(es + fs, a) == if Listed(es, a) then Find(es, a) else Find(fs, a)
  {
    if es == [] {
      assert es + fs == fs;
    } else {
      assert (es + fs)[1..] == es[1..] + fs;
      FindAppend(es[1..], fs, a);
    }
  }

  lemma {:induction false} FindRewritten(es: seq<Entry>, creator: Option<Address>, a: Address)
    ensures Find(Rewritten(es, creator), a) == if Listed(es, a) then Some(Rewrite(Find(es, a).value, creator)) else None
  {
    if es != [] {
      FindRewritten(es[1..], creator, a);
    }
  }

  /** Who is listed after replacing, and how. */
  lemma ReplacedFind(d: Deployment, newFactory: Address, newGeneration: string, a: Address)
    ensures Find(ReplacedFactories(d, newFactory, newGeneration), a)
            == if Listed(Factories(d), a) then Some(Rewrite(Find(Factories(d), a).value, None))
               else if a == d.launchFactory
               then Some(Open(Or(ActiveGeneration(d), Or(d.generation, "previous")), a, false))
               else if a == newFactory then Some(Open(newGeneration, a, true)) else None
  {
    var kept := Rewritten(Factories(d), None);
    var former := [Open(Or(ActiveGeneration(d), Or(d.generation, "previous")), d.launchFactory, false)];
    FindRewritten(Factories(d), None, a);
    FindRewritten(Factories(d), None, d.launchFactory);
    FindAppend(kept, former, a);
    FindAppend(if Listed(kept, d.launchFactory) then kept else kept + former, [Open(newGeneration, newFactory, true)],
               a);
  }

  /** Who is listed after staging, and how. */
  lemma StagedFind(d: Deployment, newFactory: Address, generation: string, a: Address)
    ensures Find(StagedFactories(d, newFactory, generation), a)
            == if Listed(Factories(d), a) then Some(Rewrite(Find(Factories(d), a).value, Some(d.launchFactory)))
               else if a == d.launchFactory then Some(Open(OldGeneration(d), a, true))
               else if a == newFactory then Some(Open(generation, a, false)) else None
  {
    var kept := Rewritten(Factories(d), Some(d.launchFactory));
    var former := [Open(OldGeneration(d), d.launchFactory, true)];
    FindRewritten(Factories(d), Some(d.launchFactory), a);
    FindAppend(kept, former, a);
    FindAppend(if Listed(Factories(d), d.launchFactory) then kept else kept + former,
               [Open(generation, newFactory, false)], a);
  }

  // ------------------------------------------------------------------ what a registry must be

  predicate Distinct(es: seq<Entry>) {
    es != [] ==> !Listed(es[1..], es[0].address) && Distinct(es[1..])
  }

  function Creators(es: seq<Entry>): nat {
    if es == [] then 0 else (if es[0].creationEnabled then 1 else 0) + Creators(es[1..])
  }

  /** Creation is open at the active factory, which is listed, and nowhere else. */
  ghost predicate OneCreator(es: seq<Entry>, active: Address) {
    Listed(es, active) && forall a: Address :: Listed(es, a) ==> (Find(es, a).value.creationEnabled <==> a == active)
  }

  ghost predicate Consistent(d: Deployment) {
    Distinct(Factories(d))
    && (d.registry.Some?
        ==> d.registry.value.activeFactory == d.launchFactory && OneCreator(Factories(d), d.launchFactory))
  }

  ghost predicate Below(d: Deployment, next: Address) {
    d.launchFactory < next && forall a: Address :: Listed(Factories(d), a) ==> a < next
  }

  /** Nobody listed before is missing after, or lost trading or support. */
  ghost predicate Retained(before: seq<Entry>, after: seq<Entry>) {
    forall a: Address :: Listed(before, a)
      ==> Listed(after, a) && SameService(Find(before, a).value, Find(after, a).value)
  }

  /** Whether trading and support are on at a factory the file lists, or names as its launch factory. */
  function Service(d: Deployment, a: Address): Option<(bool, bool)> {
    match Find(Factories(d), a)
    case Some(e) => Some((Enabled(e.trading), Enabled(e.support)))
    case None => if a == d.launchFactory then Some((true, true)) else None
  }

  ghost predicate ServicesAgree(c: Deployment, d: Deployment) {
    forall a: Address :: Service(c, a).Some? && Service(d, a).Some? ==> Service(c, a) == Service(d, a)
  }

  predicate SameService(a: Entry, b: Entry) {
    a.generation == b.generation && Enabled(a.trading) == Enabled(b.trading) && Enabled(a.support) == Enabled(b.support)
  }

  lemma {:induction false} DistinctAppend(es: seq<Entry>, e: Entry)
    requires Distinct(es) && !Listed(es, e.address)
    ensures Distinct(es + [e])
  {
    if es == [] {
      assert es + [e] == [e] && [e][1..] == [];
    } else {
      assert (es + [e])[1..] == es[1..] + [e];
      FindAppend(es[1..], [e], es[0].address);
      assert [e][1..] == [];
      DistinctAppend(es[1..], e);
    }
  }

  lemma {:induction false} DistinctRewritten(es: seq<Entry>, creator: Option<Address>)
    requires Distinct(es)
    ensures Distinct(Rewritten(es, creator))
  {
    if es != [] {
      FindRewritten(es[1..], creator, es[0].address);
      DistinctRewritten(es[1..], creator);
    }
  }

  /** In a list without repetitions exactly one entry is open for creation. */
  lemma {:induction false} ExactlyOneCreator(es: seq<Entry>, active: Address)
    requires Distinct(es) && forall a: Address :: Listed(es, a) ==> (Find(es, a).value.creationEnabled <==> a == active)
    ensures Creators(es) == if Listed(es, active) then 1 else 0
  {
    if es != [] {
      assert Find(es, es[0].address) == Some(es[0]);
      forall a: Address | Listed(es[1..], a)
        ensures Find(es[1..], a).value.creationEnabled <==> a == active
      {
        assert Find(es, a) == Find(es[1..], a);
      }
      ExactlyOneCreator(es[1..], active);
    }
  }

  lemma ReplacedDistinct(d: Deployment, newFactory: Address, newGeneration: string)
    requires Distinct(Factories(d)) && !Listed(Factories(d), newFactory) && newFactory != d.launchFactory
    ensures Distinct(ReplacedFactories(d, newFactory, newGeneration))
  {
    var kept := Rewritten(Factories(d), None);
    var former := Open(Or(ActiveGeneration(d), Or(d.generation, "previous")), d.launchFactory, false);
    DistinctRewritten(Factories(d), None);
    FindRewritten(Factories(d), None, newFactory);
    if Listed(kept, d.launchFactory) {
      DistinctAppend(kept, Open(newGeneration, newFactory, true));
    } else {
      DistinctAppend(kept, former);
      FindAppend(kept, [former], newFactory);
      DistinctAppend(kept + [former], Open(newGeneration, newFactory, true));
    }
  }

  lemma StagedDistinct(d: Deployment, newFactory: Address, generation: string)
    requires Distinct(Factories(d)) && !Listed(Factories(d), newFactory) && newFactory != d.launchFactory
    ensures Distinct(StagedFactories(d, newFactory, generation))
  {
    var kept := Rewritten(Factories(d), Some(d.launchFactory));
    var former := Open(OldGeneration(d), d.launchFactory, true);
    DistinctRewritten(Factories(d), Some(d.launchFactory));
    FindRewritten(Factories(d), Some(d.launchFactory), newFactory);
    FindRewritten(Factories(d), Some(d.launchFactory), d.launchFactory);
    if Listed(Factories(d), d.launchFactory) {
      DistinctAppend(kept, Open(generation, newFactory, false));
    } else {
      DistinctAppend(kept, former);
      FindAppend(kept, [former], newFactory);
      DistinctAppend(kept + [former], Open(generation, newFactory, false));
    }
  }

  /** Replacing leaves one creator, the new factory, and keeps every other one served as before. */
  lemma ReplaceKeeps(d: Deployment, newFactory: Address, newGeneration: string)
    requires Distinct(Factories(d)) && Below(d, newFactory)
    ensures var t := Replaced(d, newFactory, newGeneration);
            Consistent(t) && t.registry.Some? && t.launchFactory == newFactory && Below(t, newFactory + 1)
            && Retained(Factories(d), Factories(t)) && Listed(Factories(t), d.launchFactory)
            && Listed(Factories(t), newFactory)
  {
    ReplacedDistinct(d, newFactory, newGeneration);
    ReplacedFind(d, newFactory, newGeneration, newFactory);
    ReplacedFind(d, newFactory, newGeneration, d.launchFactory);
    var rs := ReplacedFactories(d, newFactory, newGeneration);
    forall a: Address | Listed(rs, a)
      ensures a < newFactory + 1 && (Find(rs, a).value.creationEnabled <==> a == newFactory)
    {
      ReplacedFind(d, newFactory, newGeneration, a);
    }
    forall a: Address | Listed(Factories(d), a)
      ensures Listed(rs, a) && SameService(Find(Factories(d), a).value, Find(rs, a).value)
    {
      ReplacedFind(d, newFactory, newGeneration, a);
    }
  }

  /** Staging leaves creation where it is and adds the new factory without it. */
  lemma StageKeeps(d: Deployment, newFactory: Address, generation: string)
    requires Distinct(Factories(d)) && Below(d, newFactory)
    ensures var t := Staged(d, newFactory, generation);
            Consistent(t) && t.registry.Some? && t.launchFactory == d.launchFactory && Below(t, newFactory + 1)
            && Retained(Factories(d), Factories(t)) && Listed(Factories(t), newFactory)
            && t.stagedFactory == Some(newFactory)
  {
    StagedDistinct(d, newFactory, generation);
    StagedFind(d, newFactory, generation, newFactory);
    StagedFind(d, newFactory, generation, d.launchFactory);
    var rs := StagedFactories(d, newFactory, generation);
    forall a: Address | Listed(rs, a)
      ensures a < newFactory + 1 && (Find(rs, a).value.creationEnabled <==> a == d.launchFactory)
    {
      StagedFind(d, newFactory, generation, a);
    }
    forall a: Address | Listed(Factories(d), a)
      ensures Listed(rs, a) && SameService(Find(Factories(d), a).value, Find(rs, a).value)
    {
      StagedFind(d, newFactory, generation, a);
    }
  }

  /** Activating moves creation to the staged factory and changes nothing else in the file it reads. */
  lemma ActivateKeeps(d: Deployment)
    requires Distinct(Factories(d)) && Activated(d).Some?
    ensures var t := Activated(d).value;
            Consistent(t) && d.stagedFactory == Some(t.launchFactory) && t.registry.Some?
            && Retained(Factories(d), Factories(t)) && Retained(Factories(t), Factories(d))
  {
    var es := Factories(d);
    DistinctRewritten(es, d.stagedFactory);
    forall a: Address
      ensures Find(Rewritten(es, d.stagedFactory), a) ==
              if Listed(es, a) then Some(Rewrite(Find(es, a).value, d.stagedFactory)) else None
    {
      FindRewritten(es, d.stagedFactory, a);
    }
  }

  // ------------------------------------------------------------------ every interleaving

  /** The current file, the staged file, and the number the next factory will get. */
  datatype State = State(current: Deployment, staged: Option<Deployment>, next: Address)

  datatype Event = Replace(name: string) | Stage(name: string) | Activate

  function Happens(s: State, e: Event): State {
    match e
    case Replace(g) => s.(current := Replaced(s.current, s.next, g), next := s.next + 1)
    case Stage(g) => s.(staged := Some(Staged(s.current, s.next, g)), next := s.next + 1)
    case Activate =>
      if s.staged.None? || Activated(s.staged.value).None? then s else s.(current := Activated(s.staged.value).value)
  }

  function History(s: State, es: seq<Event>): State
    decreases |es|
  {
    if es == [] then s else History(Happens(s, es[0]), es[1..])
  }

  /** The invariant of every run of the three scripts. */
  ghost predicate Sound(s: State) {
    Consistent(s.current) && Below(s.current, s.next)
    && (s.staged.Some? ==> Activatable(s.staged.value, s.next) && ServicesAgree(s.current, s.staged.value))
  }

  ghost predicate Activatable(d: Deployment, next: Address) {
    Consistent(d) && Below(d, next) && d.registry.Some? && d.stagedFactory.Some?
      && Listed(Factories(d), d.stagedFactory.value)
  }

  lemma ReplaceServices(d: Deployment, newFactory: Address, g: string)
    requires Below(d, newFactory)
    ensures forall a ::
              Service(Replaced(d, newFactory, g), a) == if a == newFactory then Some((true, true)) else Service(d, a)
  {
    forall a: Address
      ensures Service(Replaced(d, newFactory, g), a) == if a == newFactory then Some((true, true)) else Service(d, a)
    {
      ReplacedFind(d, newFactory, g, a);
    }
  }

  lemma StageServices(d: Deployment, newFactory: Address, g: string)
    requires Below(d, newFactory)
    ensures forall a ::
              Service(Staged(d, newFactory, g), a) == if a == newFactory then Some((true, true)) else Service(d, a)
  {
    forall a: Address
      ensures Service(Staged(d, newFactory, g), a) == if a == newFactory then Some((true, true)) else Service(d, a)
    {
      StagedFind(d, newFactory, g, a);
    }
  }

  lemma ActivateServices(d: Deployment)
    requires Activated(d).Some?
    ensures forall a :: Listed(Factories(d), a) ==> Service(Activated(d).value, a) == Service(d, a)
    ensures forall a :: !Listed(Factories(d), a) ==> Service(Activated(d).value, a).None?
  {
    forall a: Address
      ensures Find(Factories(Activated(d).value), a) ==
              if Listed(Factories(d), a) then Some(Rewrite(Find(Factories(d), a).value, d.stagedFactory)) else None
    {
      FindRewritten(Factories(d), d.stagedFactory, a);
    }
  }

  lemma NotYetServed(d: Deployment, a: Address)
    requires Below(d, a)
    ensures Service(d, a).None? && !Listed(Factories(d), a)
  {
  }

  /** Every event keeps the invariant, and no factory served before and after goes from enabled to disabled or back. */
  lemma HappensKeepsSound(s: State, e: Event)
    requires Sound(s)
    ensures Sound(Happens(s, e)) && s.next <= Happens(s, e).next
    ensures ServicesAgree(s.current, Happens(s, e).current)
  {
    match e
    case Replace(g) =>
      ReplaceKeeps(s.current, s.next, g);
      ReplaceServices(s.current, s.next, g);
      if s.staged.Some? {
        NotYetServed(s.staged.value, s.next);
      }
    case Stage(g) =>
      StageKeeps(s.current, s.next, g);
      StageServices(s.current, s.next, g);
    case Activate =>
      if s.staged.Some? {
        ActivateKeeps(s.staged.value);
        ActivateServices(s.staged.value);
      }
  }

  /** Over every interleaving addresses stay distinct and creation is open exactly at the active factory. */
  lemma {:induction false} HistoryKeepsSound(s: State, es: seq<Event>)
    requires Sound(s)
    ensures Sound(History(s, es))
    ensures var t := History(s, es).current; t.registry.Some? ==> Creators(Factories(t)) == 1
    decreases |es|
  {
    if es != [] {
      HappensKeepsSound(s, es[0]);
      HistoryKeepsSound(Happens(s, es[0]), es[1..]);
    } else if s.current.registry.Some? {
      ExactlyOneCreator(Factories(s.current), s.current.launchFactory);
    }
  }

  /** The staged file does not know of every factory of the current one. */
  ghost predicate Stale(s: State) {
    s.staged.Some? && exists a: Address :: Listed(Factories(s.current), a) && !Listed(Factories(s.staged.value), a)
  }

  /** Nothing listed in the current file is lost. */
  ghost predicate NothingLost(s: State, t: State) {
    forall a: Address :: Listed(Factories(s.current), a) ==> Listed(Factories(t.current), a)
  }

  /** One event loses a listed factory exactly when it is an activation from a stale file. */
  lemma DropsExactlyWhenStale(s: State, e: Event)
    requires Sound(s)
    ensures NothingLost(s, Happens(s, e)) <==> !(e.Activate? && Stale(s))
  {
    match e
    case Replace(g) => ReplaceKeeps(s.current, s.next, g);
    case Stage(_) =>
    case Activate =>
      if s.staged.Some? {
        ActivateKeeps(s.staged.value);
      }
  }

  /** Whether the factory was replaced after the last staging or activation. */
  function ReplacedSince(es: seq<Event>, before: bool): bool
    decreases |es|
  {
    if es == [] then before else ReplacedSince(es[1..], es[0].Replace? || (before && !es[0].Stage? && !es[0].Activate?))
  }

  lemma HappensStale(s: State, e: Event)
    requires Sound(s) && s.staged.Some?
    ensures var t := Happens(s, e);
            t.staged.Some? && (Stale(t) <==> e.Replace? || (Stale(s) && !e.Stage? && !e.Activate?))
  {
    var t := Happens(s, e);
    match e
    case Replace(g) =>
      ReplaceKeeps(s.current, s.next, g);
      assert Listed(Factories(t.current), s.next) && !Listed(Factories(t.staged.value), s.next);
    case Stage(g) => StageKeeps(s.current, s.next, g);
    case Activate => ActivateKeeps(s.staged.value);
  }

  /** Over every history after a staging: activating would lose a factory exactly if one was replaced in since. */
  lemma {:induction false} StaleExactlyWhenReplaced(s: State, es: seq<Event>)
    requires Sound(s) && s.staged.Some?
    ensures Stale(History(s, es)) <==> ReplacedSince(es, Stale(s))
    decreases |es|
  {
    if es != [] {
      HappensKeepsSound(s, es[0]);
      HappensStale(s, es[0]);
      StaleExactlyWhenReplaced(Happens(s, es[0]), es[1..]);
    }
  }

  /** Stage, replace, activate: the replacement is gone from the registry, whatever was there before. */
  lemma StagedThenReplacedIsLost(s: State, staged: string, replaced: string)
    requires Sound(s)
    ensures var u := Happens(Happens(s, Stage(staged)), Replace(replaced));
            Listed(Factories(u.current), s.next + 1) && !Listed(Factories(Happens(u, Activate).current), s.next + 1)
  {
    var t := Happens(s, Stage(staged));
    var u := Happens(t, Replace(replaced));
    HappensKeepsSound(s, Stage(staged));
    StageKeeps(s.current, s.next, staged);
    ReplaceKeeps(t.current, t.next, replaced);
    ActivateKeeps(u.staged.value);
    assert Below(u.staged.value, s.next + 1);
  }

  /** Staging again forgets a staged factory that was never activated: the new staged file lists it no more. */
  lemma StagingAgainForgets(s: State, name: string)
    requires Sound(s) && s.staged.Some?
    ensures var x := s.staged.value.stagedFactory.value;
            Listed(Factories(Happens(s, Stage(name)).staged.value), x)
            <==> Listed(Factories(s.current), x) || x == s.current.launchFactory
  {
    StagedFind(s.current, s.next, name, s.staged.value.stagedFactory.value);
  }

  // ------------------------------------------------------------------ the scripts

  class Lifecycle {
    var current: Deployment
    var staged: Option<Deployment>
    var next: Address

    constructor (d: Deployment, next: Address)
      ensures Now() == State(d, None, next)
    {
      current, staged, this.next := d, None, next;
    }

    function Now(): State
      reads this
    {
      State(current, staged, next)
    }

    method ReplaceFactory(newGeneration: string)
      modifies this
      ensures Now() == Happens(old(Now()), Replace(newGeneration))
      ensures Sound(old(Now())) ==> Sound(Now())
    {
      ghost var before := Now();
      if Sound(before) {
        HappensKeepsSound(before, Replace(newGeneration));
      }
      var factories := Rewritten(Factories(current), None);
      if !Listed(factories, current.launchFactory) {
        factories := factories
          + [Open(Or(ActiveGeneration(current), Or(current.generation, "previous")), current.launchFactory, false)];
      }
      factories := factories + [Open(newGeneration, next, true)];
      current := current.(launchFactory := next,
                          registry := Some(FactoryRegistry(next, newGeneration, None, "", factories)));
      next := next + 1;
    }

    method StageFactory(generation: string)
      modifies this
      ensures Now() == Happens(old(Now()), Stage(generation))
      ensures Sound(old(Now())) ==> Sound(Now())
    {
      ghost var before := Now();
      if Sound(before) {
        HappensKeepsSound(before, Stage(generation));
      }
      var prior := Rewritten(Factories(current), Some(current.launchFactory));
      var oldGeneration := Or(ActiveGeneration(current), "previous");
      var oldEntry := Find(Factories(current), current.launchFactory);
      if oldEntry.Some? {
        oldGeneration := Or(oldEntry.value.generation, oldGeneration);
      } else {
        prior := prior + [Open(oldGeneration, current.launchFactory, true)];
      }
      prior := prior + [Open(generation, next, false)];
      staged := Some(current.(stagedFactory := Some(next),
                              registry := Some(FactoryRegistry(current.launchFactory, oldGeneration, Some(next),
                                                               generation, prior))));
      next := next + 1;
    }

    /** Sound files stay sound: one creator, which is the factory that was staged. */
    method ActivateStaged() returns (ok: bool)
      modifies this
      ensures Now() == Happens(old(Now()), Activate)
      ensures ok <==> old(staged).Some? && Activated(old(staged).value).Some?
      ensures ok ==> Some(current.launchFactory) == old(staged).value.stagedFactory
      ensures Sound(old(Now())) ==> Sound(Now())
    {
      ghost var before := Now();
      if staged.None? || staged.value.stagedFactory.None? {
        return false;
      }
      var d := staged.value;
      var newFactory := d.stagedFactory.value;
      var generation := Or(if d.registry.None? then "" else d.registry.value.stagedGeneration,
                           "bnb-testnet-scheduled-v2");
      var factories := Rewritten(Factories(d), Some(newFactory));
      FindRewritten(Factories(d), Some(newFactory), newFactory);
      if !Listed(factories, newFactory) {
        return false;
      }
      current := d.(launchFactory := newFactory,
                    registry := Some(FactoryRegistry(newFactory, generation, None, "", factories)));
      if Sound(before) {
        HappensKeepsSound(before, Activate);
      }
      return true;
    }
  }
}
