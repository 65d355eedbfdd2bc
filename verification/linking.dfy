/**
 Linking library addresses into compiled bytecode: hex characters are spliced in at the positions an artifact lists.
 */
module Linking {
  import opened Common
  import Coders

  datatype Position = Position(start: nat, length: nat)

  /** One library of a source file, with the places its address goes, counted in bytes. */
  datatype LibraryRef = LibraryRef(name: string, positions: seq<Position>)

  datatype SourceRefs = SourceRefs(source: string, refs: seq<LibraryRef>)

  datatype Artifact = Artifact(bytecode: string, links: seq<SourceRefs>)

  datatype Error = MissingLibrary(source: string, name: string) | InvalidLength(name: string)

  datatype Result<T> = Ok(value: T) | Err(error: Error)

  /** The address given for a library, under its name or under its qualified name; empty when there is none. */
  function AddressOf(libraries: map<string, string>, source: string, name: string): string {
    if name in libraries && libraries[name] != "" then libraries[name]
    else
      var qualified := source + ":" + name;
      if qualified in libraries then libraries[qualified] else ""
  }

  function StripPrefix(s: string): string {
    if 2 <= |s| && s[0] == '0' && s[1] == 'x' then s[2..] else s
  }

  function Replacement(address: string): string { StripPrefix(Coders.Lower(address)) }

  /** JavaScript's `splice`: past the end it deletes less and appends. */
  function Splice(s: string, start: nat, length: nat, text: string): string {
    s[..Min(start, |s|)] + text + s[Min(start + length, |s|)..]
  }

  // ------------------------------------------------------------------ the loops, as what is left to do

  function LinkPositions(chars: string, name: string, text: string, ps: seq<Position>): Result<string>
    decreases |ps|
  {
    if ps == [] then Ok(chars)
    else if |text| != 2 * ps[0].length then Err(InvalidLength(name))
    else LinkPositions(Splice(chars, 2 * ps[0].start, 2 * ps[0].length, text), name, text, ps[1..])
  }

  function LinkLibraries(chars: string, source: string, refs: seq<LibraryRef>,
                         libraries: map<string, string>): Result<string>
    decreases |refs|, 0
  {
    if refs == [] then Ok(chars)
    else
      var address := AddressOf(libraries, source, refs[0].name);
      if address == "" then Err(MissingLibrary(source, refs[0].name))
      else ThenLibraries(LinkPositions(chars, refs[0].name, Replacement(address), refs[0].positions), source,
                         refs[1..], libraries)
  }

  function ThenLibraries(r: Result<string>, source: string, refs: seq<LibraryRef>,
                         libraries: map<string, string>): Result<string>
    decreases |refs|, 1
  {
    match r
    case Err(_) => r
    case Ok(chars) => LinkLibraries(chars, source, refs, libraries)
  }

  function LinkAll(chars: string, links: seq<SourceRefs>, libraries: map<string, string>): Result<string>
    decreases |links|, 0
  {
    if links == [] then Ok(chars)
    else ThenAll(LinkLibraries(chars, links[0].source, links[0].refs, libraries), links[1..], libraries)
  }

  function ThenAll(r: Result<string>, links: seq<SourceRefs>, libraries: map<string, string>): Result<string>
    decreases |links|, 1
  {
    match r
    case Err(_) => r
    case Ok(chars) => LinkAll(chars, links, libraries)
  }

  function Body(artifact: Artifact): string {
    if "0x" <= artifact.bytecode then artifact.bytecode[2..] else artifact.bytecode
  }

  method LinkedBytecode(artifact: Artifact, libraries: map<string, string>) returns (r: Result<string>)
    ensures match LinkAll(Body(artifact), artifact.links, libraries)
            case Ok(chars) => r == Ok("0x" + chars)
            case Err(e) => r == Err(e)
  {
    var chars := Body(artifact);
    var links := artifact.links;
    ghost var outcome := LinkAll(chars, links, libraries);
    for i := 0 to |links|
      invariant outcome == LinkAll(chars, links[i..], libraries)
    {
      var source, refs := links[i].source, links[i].refs;
      assert links[i..][1..] == links[i + 1..];
      for j := 0 to |refs|
        invariant outcome == ThenAll(LinkLibraries(chars, source, refs[j..], libraries), links[i + 1..], libraries)
      {
        var address := AddressOf(libraries, source, refs[j].name);
        if address == "" {
          return Err(MissingLibrary(source, refs[j].name));
        }
        var text := Replacement(address);
        var positions := refs[j].positions;
        assert refs[j..][1..] == refs[j + 1..];
        for k := 0 to |positions|
          invariant outcome == ThenAll(ThenLibraries(LinkPositions(chars, refs[j].name, text, positions[k..]), source,
                                                     refs[j + 1..], libraries), links[i + 1..], libraries)
        {
          assert positions[k..][1..] == positions[k + 1..];
          if |text| != 2 * positions[k].length {
            return Err(InvalidLength(refs[j].name));
          }
          chars := Splice(chars, 2 * positions[k].start, 2 * positions[k].length, text);
        }
      }
    }
    return Ok("0x" + chars);
  }

  // ------------------------------------------------------------------ the edits an artifact asks for

  datatype Edit = Edit(start: nat, text: string)

  function EditsAt(text: string, ps: seq<Position>): seq<Edit> {
    if ps == [] then [] else [Edit(2 * ps[0].start, text)] + EditsAt(text, ps[1..])
  }

  function EditsOf(source: string, refs: seq<LibraryRef>, libraries: map<string, string>): seq<Edit> {
    if refs == [] then []
    else EditsAt(Replacement(AddressOf(libraries, source, refs[0].name)), refs[0].positions) +
         EditsOf(source, refs[1..], libraries)
  }

  function Edits(links: seq<SourceRefs>, libraries: map<string, string>): seq<Edit> {
    if links == [] then [] else EditsOf(links[0].source, links[0].refs, libraries) + Edits(links[1..], libraries)
  }

  function Applied(chars: string, es: seq<Edit>): string
    decreases |es|
  {
    if es == [] then chars else Applied(Splice(chars, es[0].start, |es[0].text|, es[0].text), es[1..])
  }

  predicate RefLinkable(source: string, ref: LibraryRef, libraries: map<string, string>) {
    var address := AddressOf(libraries, source, ref.name);
    address != "" && forall k :: 0 <= k < |ref.positions| ==> |Replacement(address)| == 2 * ref.positions[k].length
  }

  /** Every library is given an address of the length its positions ask for. */
  predicate Linkable(links: seq<SourceRefs>, libraries: map<string, string>) {
    forall i, j :: 0 <= i < |links| && 0 <= j < |links[i].refs|
      ==> RefLinkable(links[i].source, links[i].refs[j], libraries)
  }

  lemma {:induction false} AppliedConcat(chars: string, es: seq<Edit>, fs: seq<Edit>)
    ensures Applied(chars, es + fs) == Applied(Applied(chars, es), fs)
    decreases |es|
  {
    if es == [] {
      assert es + fs == fs;
    } else {
      assert (es + fs)[1..] == es[1..] + fs;
      AppliedConcat(Splice(chars, es[0].start, |es[0].text|, es[0].text), es[1..], fs);
    }
  }

  lemma {:induction false} PositionsLink(chars: string, name: string, text: string, ps: seq<Position>)
    ensures LinkPositions(chars, name, text, ps)
            == if forall k :: 0 <= k < |ps| ==> |text| == 2 * ps[k].length
               then Ok(Applied(chars, EditsAt(text, ps)))
               else Err(InvalidLength(name))
    decreases |ps|
  {
    if ps != [] {
      PositionsLink(Splice(chars, 2 * ps[0].start, 2 * ps[0].length, text), name, text, ps[1..]);
      assert (forall k :: 0 <= k < |ps| ==> |text| == 2 * ps[k].length)
        <==> |text| == 2 * ps[0].length && forall k :: 0 <= k < |ps[1..]| ==> |text| == 2 * ps[1..][k].length by {
        assert forall k :: 1 <= k < |ps| ==> ps[k] == ps[1..][k - 1];
      }
    }
  }

  lemma {:induction false} LibrariesLink(chars: string, source: string, refs: seq<LibraryRef>,
                                         libraries: map<string, string>)
    ensures var r := LinkLibraries(chars, source, refs, libraries);
            (r.Ok? <==> forall j :: 0 <= j < |refs| ==> RefLinkable(source, refs[j], libraries))
            && (r.Ok? ==> r.value == Applied(chars, EditsOf(source, refs, libraries)))
    decreases |refs|
  {
    if refs != [] {
      var text := Replacement(AddressOf(libraries, source, refs[0].name));
      PositionsLink(chars, refs[0].name, text, refs[0].positions);
      var next := Applied(chars, EditsAt(text, refs[0].positions));
      LibrariesLink(next, source, refs[1..], libraries);
      AppliedConcat(chars, EditsAt(text, refs[0].positions), EditsOf(source, refs[1..], libraries));
      assert forall j :: 1 <= j < |refs| ==> refs[j] == refs[1..][j - 1];
      assert (forall j :: 0 <= j < |refs| ==> RefLinkable(source, refs[j], libraries))
        <==> RefLinkable(source, refs[0], libraries) &&
             forall j :: 0 <= j < |refs[1..]| ==> RefLinkable(source, refs[1..][j], libraries);
    }
  }

  /** Linking succeeds exactly when every library is there with the right length, and then performs the listed edits. */
  lemma {:induction false} LinkPerformsEdits(chars: string, links: seq<SourceRefs>, libraries: map<string, string>)
    ensures var r := LinkAll(chars, links, libraries);
            (r.Ok? <==> Linkable(links, libraries)) && (r.Ok? ==> r.value == Applied(chars, Edits(links, libraries)))
    decreases |links|
  {
    if links != [] {
      LibrariesLink(chars, links[0].source, links[0].refs, libraries);
      var es := EditsOf(links[0].source, links[0].refs, libraries);
      LinkPerformsEdits(Applied(chars, es), links[1..], libraries);
      AppliedConcat(chars, es, Edits(links[1..], libraries));
      LinkableSplits(links, libraries);
    }
  }

  lemma LinkableSplits(links: seq<SourceRefs>, libraries: map<string, string>)
    requires links != []
    ensures Linkable(links, libraries)
            <==> (forall j :: 0 <= j < |links[0].refs| ==> RefLinkable(links[0].source, links[0].refs[j], libraries)) &&
                 Linkable(links[1..], libraries)
  {
    if Linkable(links[1..], libraries) {
      forall i, j | 1 <= i < |links| && 0 <= j < |links[i].refs|
        ensures RefLinkable(links[i].source, links[i].refs[j], libraries)
      {
        assert links[i] == links[1..][i - 1];
      }
    }
  }

  // ------------------------------------------------------------------ what the edits do

  function End(e: Edit): nat { e.start + |e.text| }

  predicate InRange(es: seq<Edit>, n: nat) { forall i :: 0 <= i < |es| ==> End(es[i]) <= n }

  predicate Apart(d: Edit, e: Edit) { End(d) <= e.start || End(e) <= d.start }

  predicate Disjoint(es: seq<Edit>) { forall i, j :: 0 <= i < j < |es| ==> Apart(es[i], es[j]) }

  predicate Covers(e: Edit, p: int) { e.start <= p < End(e) }

  /** Inside the range an edit replaces its own characters and no others. */
  lemma SpliceAt(s: string, e: Edit, p: nat)
    requires End(e) <= |s| && p < |s|
    ensures var r := Splice(s, e.start, |e.text|, e.text);
            |r| == |s| && r[p] == if Covers(e, p) then e.text[p - e.start] else s[p]
  {
  }

  /** The edited text has the same length, each address where it was asked for, and every other character unchanged. */
  lemma {:induction false} AppliedAt(chars: string, es: seq<Edit>, p: nat)
    requires InRange(es, |chars|) && Disjoint(es) && p < |chars|
    ensures var r := Applied(chars, es);
            |r| == |chars|
            && (forall i :: 0 <= i < |es| && Covers(es[i], p) ==> r[p] == es[i].text[p - es[i].start])
            && ((forall i :: 0 <= i < |es| ==> !Covers(es[i], p)) ==> r[p] == chars[p])
    decreases |es|
  {
    if es != [] {
      var next := Splice(chars, es[0].start, |es[0].text|, es[0].text);
      SpliceAt(chars, es[0], p);
      AppliedAt(next, es[1..], p);
      assert forall i :: 1 <= i < |es| ==> es[i] == es[1..][i - 1];
      assert Covers(es[0], p) ==> forall i :: 0 <= i < |es[1..]| ==> !Covers(es[1..][i], p) by {
        assert forall i :: 1 <= i < |es| ==> Apart(es[0], es[i]);
      }
    }
  }

  /** Two lists with the same edits give the same text, whatever their order. */
  lemma OrderIrrelevant(chars: string, es: seq<Edit>, fs: seq<Edit>)
    requires InRange(es, |chars|) && Disjoint(es) && Disjoint(fs)
    requires forall e :: e in es <==> e in fs
    ensures Applied(chars, es) == Applied(chars, fs)
  {
    var r, t := Applied(chars, es), Applied(chars, fs);
    assert InRange(fs, |chars|) by {
      forall i | 0 <= i < |fs|
        ensures End(fs[i]) <= |chars|
      {
        assert fs[i] in es;
      }
    }
    AppliedLength(chars, es);
    AppliedLength(chars, fs);
    forall p | 0 <= p < |chars|
      ensures r[p] == t[p]
    {
      SameAt(chars, es, fs, p);
    }
  }

  lemma {:induction false} AppliedLength(chars: string, es: seq<Edit>)
    requires InRange(es, |chars|)
    ensures |Applied(chars, es)| == |chars|
    decreases |es|
  {
    if es != [] {
      assert End(es[0]) <= |chars|;
      AppliedLength(Splice(chars, es[0].start, |es[0].text|, es[0].text), es[1..]);
    }
  }

  lemma SameAt(chars: string, es: seq<Edit>, fs: seq<Edit>, p: nat)
    requires InRange(es, |chars|) && Disjoint(es) && InRange(fs, |chars|) && Disjoint(fs) && p < |chars|
    requires forall e :: e in es <==> e in fs
    ensures |Applied(chars, es)| == |chars| == |Applied(chars, fs)| && Applied(chars, es)[p] == Applied(chars, fs)[p]
  {
    AppliedAt(chars, es, p);
    AppliedAt(chars, fs, p);
    if i :| 0 <= i < |es| && Covers(es[i], p) {
      assert es[i] in fs;
      var j :| 0 <= j < |fs| && fs[j] == es[i];
      assert Covers(fs[j], p);
    } else {
      forall j | 0 <= j < |fs|
        ensures !Covers(fs[j], p)
      {
        assert fs[j] in es;
      }
    }
  }

  /** Two artifacts that list the same edits in different orders link to the same code. */
  lemma LinkOrderIrrelevant(chars: string, links: seq<SourceRefs>, others: seq<SourceRefs>,
                            libraries: map<string, string>)
    requires Linkable(links, libraries) && Linkable(others, libraries)
    requires InRange(Edits(links, libraries), |chars|) && Disjoint(Edits(links, libraries))
             && Disjoint(Edits(others, libraries))
    requires forall e :: e in Edits(links, libraries) <==> e in Edits(others, libraries)
    ensures LinkAll(chars, links, libraries) == LinkAll(chars, others, libraries)
  {
    LinkPerformsEdits(chars, links, libraries);
    LinkPerformsEdits(chars, others, libraries);
    OrderIrrelevant(chars, Edits(links, libraries), Edits(others, libraries));
  }
}
