/**
 The registry scripts on their files. DEPLOYMENT_FILE chooses what a run reads, and its own defaults what it writes, so
 runs need not follow one another: two replacements read the base file unless the second is pointed at the first one's
 output.
 */
module RegistryFiles {
  import opened Common
  import opened Registry

  type File = string

  /** The deployment files, and the number the next factory will get. */
  datatype Disk = Disk(files: map<File, Deployment>, next: Address)

  datatype Step =
    | Replacing(from: File, into: File, name: string)
    | Staging(from: File, into: File, name: string)
    | Activating(from: File, into: File)

  /** What a run writes; none if it stops before that. */
  function Output(d: Disk, e: Step): Option<Deployment> {
    if e.from !in d.files then None
    else
      match e
      case Replacing(from, _, g) => Some(Replaced(d.files[from], d.next, g))
      case Staging(from, _, g) => Some(Staged(d.files[from], d.next, g))
      case Activating(from, _) => Activated(d.files[from])
  }

  function Take(d: Disk, e: Step): Disk {
    match Output(d, e)
    case None => d
    case Some(t) => Disk(d.files[e.into := t], if e.Activating? then d.next else d.next + 1)
  }

  function TakeAll(d: Disk, es: seq<Step>): Disk
    decreases |es|
  {
    if es == [] then d else TakeAll(Take(d, es[0]), es[1..])
  }

  // ------------------------------------------------------------------ whatever is read and written

  ghost predicate SoundDisk(d: Disk) {
    (forall f :: f in d.files ==> Consistent(d.files[f]) && Below(d.files[f], d.next))
    && forall f, g :: f in d.files && g in d.files ==> ServicesAgree(d.files[f], d.files[g])
  }

  lemma OutputSound(d: Disk, e: Step)
    requires SoundDisk(d) && Output(d, e).Some?
    ensures var t := Output(d, e).value;
            Consistent(t) && t.registry.Some? && Below(t, Take(d, e).next)
  {
    var base := d.files[e.from];
    match e
    case Replacing(_, _, g) => ReplaceKeeps(base, d.next, g);
    case Staging(_, _, g) => StageKeeps(base, d.next, g);
    case Activating(_, _) => ActivateKeeps(base);
  }

  /** A factory's service in the written file is the one of the file read, or the new factory's. */
  lemma OutputServices(d: Disk, e: Step, c: Deployment)
    requires SoundDisk(d) && Output(d, e).Some?
    requires Below(c, d.next) && ServicesAgree(c, d.files[e.from])
    ensures ServicesAgree(c, Output(d, e).value) && ServicesAgree(Output(d, e).value, c)
  {
    var base := d.files[e.from];
    NotYetServed(c, d.next);
    match e
    case Replacing(_, _, g) => ReplaceServices(base, d.next, g);
    case Staging(_, _, g) => StageServices(base, d.next, g);
    case Activating(_, _) => ActivateServices(base);
  }

  lemma BelowLater(d: Deployment, next: Address)
    requires Below(d, next)
    ensures Below(d, next + 1)
  {
  }

  lemma TakeKeepsSound(d: Disk, e: Step)
    requires SoundDisk(d)
    ensures SoundDisk(Take(d, e))
  {
    if Output(d, e).Some? {
      var u := Take(d, e);
      OutputSound(d, e);
      forall f | f in u.files ensures Consistent(u.files[f]) && Below(u.files[f], u.next) {
        if f != e.into {
          BelowLater(d.files[f], d.next);
        }
      }
      forall f, g | f in u.files && g in u.files ensures ServicesAgree(u.files[f], u.files[g]) {
        if f != e.into {
          OutputServices(d, e, d.files[f]);
        }
        if g != e.into {
          OutputServices(d, e, d.files[g]);
        }
      }
    }
  }

  /** Over every history and choice of files: each file that has a registry opens creation at exactly one factory. */
  lemma {:induction false} FilesKeepSound(d: Disk, es: seq<Step>)
    requires SoundDisk(d)
    ensures var u := TakeAll(d, es);
            SoundDisk(u)
            && forall f :: f in u.files && u.files[f].registry.Some? ==> Creators(Factories(u.files[f])) == 1
    decreases |es|
  {
    if es != [] {
      TakeKeepsSound(d, es[0]);
      FilesKeepSound(Take(d, es[0]), es[1..]);
    } else {
      forall f | f in d.files && d.files[f].registry.Some? ensures Creators(Factories(d.files[f])) == 1 {
        ExactlyOneCreator(Factories(d.files[f]), d.files[f].launchFactory);
      }
    }
  }

  /** A file knows a factory if it lists it, or names it as its launch factory. */
  predicate Knows(d: Deployment, a: Address) { Listed(Factories(d), a) || a == d.launchFactory }

  /** Who is listed in the written file: who the file read knows, and the factory just deployed. */
  lemma OutputLists(d: Disk, e: Step, a: Address)
    requires Output(d, e).Some?
    ensures Listed(Factories(Output(d, e).value), a) <==>
            if e.Activating? then Listed(Factories(d.files[e.from]), a)
            else Knows(d.files[e.from], a) || a == d.next
  {
    var base := d.files[e.from];
    match e
    case Replacing(_, _, g) => ReplacedFind(base, d.next, g, a);
    case Staging(_, _, g) => StagedFind(base, d.next, g, a);
    case Activating(_, _) => FindRewritten(Factories(base), base.stagedFactory, a);
  }

  /** A run's output loses a factory some other file lists exactly if the file it reads does not know that factory. */
  lemma LostExactly(d: Disk, e: Step, other: File)
    requires SoundDisk(d) && Output(d, e).Some? && other in d.files
    ensures (forall a: Address :: Listed(Factories(d.files[other]), a) ==> Listed(Factories(Output(d, e).value), a))
            <==> forall a: Address :: Listed(Factories(d.files[other]), a) ==>
                   if e.Activating? then Listed(Factories(d.files[e.from]), a) else Knows(d.files[e.from], a)
  {
    forall a: Address | Listed(Factories(d.files[other]), a)
      ensures a < d.next
      ensures Listed(Factories(Output(d, e).value), a) <==>
              if e.Activating? then Listed(Factories(d.files[e.from]), a) else Knows(d.files[e.from], a)
    {
      OutputLists(d, e, a);
    }
  }

  /** Replaced twice from one file: the second output does not list the first one's factory. */
  lemma ReplacedTwiceIsLost(d: Disk, from: File, into: File, again: File, g: string, h: string)
    requires SoundDisk(d) && from in d.files && from != into
    ensures var u := Take(d, Replacing(from, into, g));
            var v := Take(u, Replacing(from, again, h));
            Listed(Factories(u.files[into]), d.next) && !Listed(Factories(v.files[again]), d.next)
  {
    var u := Take(d, Replacing(from, into, g));
    OutputLists(d, Replacing(from, into, g), d.next);
    OutputLists(u, Replacing(from, again, h), d.next);
    NotYetServed(d.files[from], d.next);
  }

  // ------------------------------------------------------------------ runs that follow one another

  /** The files in use: the current one, and the staged one if there is one. */
  datatype View = View(disk: Disk, current: File, staged: Option<File>)

  predicate InUse(v: View) {
    v.current in v.disk.files
    && (v.staged.Some? ==> v.staged.value in v.disk.files && v.staged.value != v.current)
  }

  /** The run reads the file in use, and does not overwrite the other one. */
  predicate Follows(v: View, e: Step) {
    match e
    case Replacing(from, into, _) => from == v.current && v.staged != Some(into)
    case Staging(from, into, _) => from == v.current && into != v.current
    case Activating(from, into) => v.staged == Some(from) && into != from
  }

  function Next(v: View, e: Step): View {
    var disk := Take(v.disk, e);
    if Output(v.disk, e).None? then v
    else if e.Staging? then View(disk, v.current, Some(e.into)) else View(disk, e.into, v.staged)
  }

  function ViewState(v: View): State
    requires InUse(v)
  {
    State(v.disk.files[v.current], if v.staged.None? then None else Some(v.disk.files[v.staged.value]), v.disk.next)
  }

  function EventOf(e: Step): Event {
    match e
    case Replacing(_, _, g) => Replace(g)
    case Staging(_, _, g) => Stage(g)
    case Activating(_, _) => Activate
  }

  lemma NextIsEvent(v: View, e: Step)
    requires InUse(v) && Follows(v, e)
    ensures InUse(Next(v, e)) && ViewState(Next(v, e)) == Happens(ViewState(v), EventOf(e))
  {
  }

  predicate AllFollow(v: View, es: seq<Step>)
    decreases |es|
  {
    es == [] || (Follows(v, es[0]) && AllFollow(Next(v, es[0]), es[1..]))
  }

  function Last(v: View, es: seq<Step>): View
    decreases |es|
  {
    if es == [] then v else Last(Next(v, es[0]), es[1..])
  }

  function Events(es: seq<Step>): (events: seq<Event>)
    ensures |events| == |es|
  {
    if es == [] then [] else [EventOf(es[0])] + Events(es[1..])
  }

  /** When every run is pointed at the file in use, the files behave as one current and one staged file. */
  lemma {:induction false} FollowingIsHistory(v: View, es: seq<Step>)
    requires InUse(v) && AllFollow(v, es)
    ensures InUse(Last(v, es)) && ViewState(Last(v, es)) == History(ViewState(v), Events(es))
    decreases |es|
  {
    if es != [] {
      NextIsEvent(v, es[0]);
      FollowingIsHistory(Next(v, es[0]), es[1..]);
      assert Events(es)[1..] == Events(es[1..]);
    }
  }
}
