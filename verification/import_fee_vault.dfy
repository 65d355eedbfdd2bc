/**
 The resumable import fee vault deployment: a run may be cut off after any of its effects on the chain or on disk, and
 is then started again, perhaps with another operator and other caps. On mainnet the Safe executes the batch file a run
 wrote. Contract addresses are deployment numbers.
 */
module ImportFeeVault {
  import opened Common

  type Account = nat

  const SAFE: Account := 1

  datatype Caps = Caps(perTx: nat, daily: nat)

  datatype Vault = Vault(admin: Account, operator: Account, caps: Caps, paused: bool)

  datatype VaultCall = SetOperator(operator: Account) | SetPayoutCaps(caps: Caps) | SetPayoutsPaused(paused: bool)

  datatype Record = Record(admin: Account, vault: nat, operator: Account, caps: Caps)

  datatype BatchFile = BatchFile(vault: nat, calls: seq<VaultCall>)

  /** The chain's vaults, the record file and the batch file. */
  datatype State = State(mainnet: bool, vaults: seq<Vault>, record: Option<Record>, batch: Option<BatchFile>)

  /** What one run is started with. */
  datatype Run = Run(deployer: Account, operator: Account, caps: Caps)

  datatype Effect =
    | Deploy(admin: Account)
    | WriteRecord(record: Record)
    | WriteBatch(batch: BatchFile)
    | Send(who: Account, vault: nat, call: VaultCall)

  // ------------------------------------------------------------------ the vault contract

  predicate Configured(operator: Account, caps: Caps) { operator != 0 && caps.perTx != 0 && caps.daily != 0 }

  predicate Accepts(v: Vault, who: Account, call: VaultCall) {
    who == v.admin && (call == SetPayoutsPaused(false) ==> Configured(v.operator, v.caps))
  }

  function After(v: Vault, call: VaultCall): Vault {
    match call
    case SetOperator(op) => v.(operator := op)
    case SetPayoutCaps(caps) => v.(caps := caps)
    case SetPayoutsPaused(paused) => v.(paused := paused)
  }

  /** All of the calls in order, or nothing if one of them is refused. */
  function ExecAll(v: Vault, who: Account, calls: seq<VaultCall>): Option<Vault>
    decreases |calls|
  {
    if calls == [] then Some(v)
    else if !Accepts(v, who, calls[0]) then None
    else ExecAll(After(v, calls[0]), who, calls[1..])
  }

  // ------------------------------------------------------------------ the script

  function ImportFeeVaultCalls(operator: Account, caps: Caps): seq<VaultCall> {
    [SetOperator(operator), SetPayoutCaps(caps), SetPayoutsPaused(false)]
  }

  /** The calls of the batch whose effect the vault does not show yet. */
  function PendingCalls(v: Vault, operator: Account, caps: Caps): seq<VaultCall> {
    var all := ImportFeeVaultCalls(operator, caps);
    (if v.operator != operator then [all[0]] else []) + (if v.caps != caps then [all[1]] else [])
      + (if v.paused then [all[2]] else [])
  }

  function AdminFor(mainnet: bool, run: Run): Account { if mainnet then SAFE else run.deployer }

  /** The run gets past its own checks. */
  predicate Admitted(s: State, run: Run) {
    run.operator != 0 && run.operator != SAFE && 0 < run.caps.perTx <= run.caps.daily
    && (s.mainnet ==> run.deployer != SAFE && run.operator != run.deployer)
    && (s.record.Some? ==> s.record.value.admin == AdminFor(s.mainnet, run) && s.record.value.vault < |s.vaults|
                           && s.vaults[s.record.value.vault].admin == AdminFor(s.mainnet, run))
  }

  function Fresh(admin: Account): Vault { Vault(admin, 0, Caps(0, 0), true) }

  function RecordFor(s: State, run: Run): Record {
    Record(AdminFor(s.mainnet, run), if s.record.Some? then s.record.value.vault else |s.vaults|, run.operator,
           run.caps)
  }

  /** The run's vault as the run finds it. */
  function VaultFor(s: State, run: Run): Vault
    requires Admitted(s, run)
  {
    if s.record.Some? then s.vaults[s.record.value.vault] else Fresh(AdminFor(s.mainnet, run))
  }

  function Sends(who: Account, vault: nat, calls: seq<VaultCall>): (es: seq<Effect>)
    ensures |es| == |calls| && forall i :: 0 <= i < |calls| ==> es[i] == Send(who, vault, calls[i])
  {
    if calls == [] then [] else [Send(who, vault, calls[0])] + Sends(who, vault, calls[1..])
  }

  function Opening(s: State, run: Run): seq<Effect> {
    if s.record.Some? then [] else [Deploy(AdminFor(s.mainnet, run)), WriteRecord(RecordFor(s, run))]
  }

  function Working(s: State, run: Run): seq<Effect>
    requires Admitted(s, run)
  {
    var calls := PendingCalls(VaultFor(s, run), run.operator, run.caps);
    if !s.mainnet then Sends(run.deployer, RecordFor(s, run).vault, calls)
    else if calls == [] then []
    else [WriteBatch(BatchFile(RecordFor(s, run).vault, calls))]
  }

  /** Everything a run does, in order, when nothing cuts it off. */
  function Effects(s: State, run: Run): seq<Effect> {
    if !Admitted(s, run) then [] else Opening(s, run) + Working(s, run) + [WriteRecord(RecordFor(s, run))]
  }

  function Apply(s: State, e: Effect): State {
    match e
    case Deploy(admin) => s.(vaults := s.vaults + [Fresh(admin)])
    case WriteRecord(record) => s.(record := Some(record))
    case WriteBatch(batch) => s.(batch := Some(batch))
    case Send(who, vault, call) =>
      if vault < |s.vaults| && Accepts(s.vaults[vault], who, call)
      then s.(vaults := s.vaults[vault := After(s.vaults[vault], call)])
      else s
  }

  function ApplyAll(s: State, es: seq<Effect>): State
    decreases |es|
  {
    if es == [] then s else ApplyAll(Apply(s, es[0]), es[1..])
  }

  /** The run as far as its first `budget` effects. */
  function CutRun(s: State, run: Run, budget: nat): State {
    ApplyAll(s, Effects(s, run)[..Min(budget, |Effects(s, run)|)])
  }

  function FullRun(s: State, run: Run): State { ApplyAll(s, Effects(s, run)) }

  // ------------------------------------------------------------------ what happens over time

  datatype Event =
    | Started(run: Run, budget: nat)
    | BatchOnly
    | SafeExecutes

  function RunBatchOnly(s: State): State {
    if !s.mainnet || s.record.None? || |s.vaults| <= s.record.value.vault then s
    else
      var rec := s.record.value;
      var calls := PendingCalls(s.vaults[rec.vault], rec.operator, rec.caps);
      if calls == [] then s else s.(batch := Some(BatchFile(rec.vault, calls)))
  }

  function ExecuteBatch(s: State): State {
    if s.batch.None? || |s.vaults| <= s.batch.value.vault then s
    else
      match ExecAll(s.vaults[s.batch.value.vault], SAFE, s.batch.value.calls)
      case None => s
      case Some(v) => s.(vaults := s.vaults[s.batch.value.vault := v])
  }

  function Happens(s: State, e: Event): State {
    match e
    case Started(run, budget) => CutRun(s, run, budget)
    case BatchOnly => RunBatchOnly(s)
    case SafeExecutes => ExecuteBatch(s)
  }

  function History(s: State, es: seq<Event>): State
    decreases |es|
  {
    if es == [] then s else History(Happens(s, es[0]), es[1..])
  }

  function Beginning(mainnet: bool): State { State(mainnet, [], None, None) }

  // ------------------------------------------------------------------ safety over every history

  predicate CallFits(call: VaultCall) {
    match call
    case SetOperator(op) => op != 0
    case SetPayoutCaps(caps) => caps.perTx != 0 && caps.daily != 0
    case SetPayoutsPaused(paused) => !paused
  }

  predicate EffectFits(e: Effect) {
    match e
    case Deploy(_) => true
    case WriteRecord(rec) => Configured(rec.operator, rec.caps)
    case WriteBatch(batch) => forall i :: 0 <= i < |batch.calls| ==> CallFits(batch.calls[i])
    case Send(_, _, call) => CallFits(call)
  }

  /** Payouts are never open without an operator and both caps, nor is anything waiting that could open them so. */
  predicate Safe(s: State) {
    (forall i :: 0 <= i < |s.vaults| && !s.vaults[i].paused ==> Configured(s.vaults[i].operator, s.vaults[i].caps))
    && (s.record.Some? ==> Configured(s.record.value.operator, s.record.value.caps))
    && (s.batch.Some? ==> forall i :: 0 <= i < |s.batch.value.calls| ==> CallFits(s.batch.value.calls[i]))
  }

  predicate VaultSafe(v: Vault) { !v.paused ==> Configured(v.operator, v.caps) }

  lemma {:induction false} ExecKeepsSafe(v: Vault, who: Account, calls: seq<VaultCall>)
    requires VaultSafe(v) && (forall i :: 0 <= i < |calls| ==> CallFits(calls[i])) && ExecAll(v, who, calls).Some?
    ensures VaultSafe(ExecAll(v, who, calls).value)
    decreases |calls|
  {
    if calls != [] {
      assert CallFits(calls[0]);
      ExecKeepsSafe(After(v, calls[0]), who, calls[1..]);
    }
  }

  lemma PendingFits(v: Vault, operator: Account, caps: Caps)
    requires Configured(operator, caps)
    ensures forall i :: 0 <= i < |PendingCalls(v, operator, caps)| ==> CallFits(PendingCalls(v, operator, caps)[i])
  {
  }

  lemma EffectsFit(s: State, run: Run)
    ensures forall i :: 0 <= i < |Effects(s, run)| ==> EffectFits(Effects(s, run)[i])
  {
    if Admitted(s, run) {
      PendingFits(VaultFor(s, run), run.operator, run.caps);
    }
  }

  lemma ApplyKeepsSafe(s: State, e: Effect)
    requires Safe(s) && EffectFits(e)
    ensures Safe(Apply(s, e))
  {
  }

  lemma {:induction false} ApplyAllKeepsSafe(s: State, es: seq<Effect>)
    requires Safe(s) && forall i :: 0 <= i < |es| ==> EffectFits(es[i])
    ensures Safe(ApplyAll(s, es))
    decreases |es|
  {
    if es != [] {
      ApplyKeepsSafe(s, es[0]);
      ApplyAllKeepsSafe(Apply(s, es[0]), es[1..]);
    }
  }

  lemma HappensKeepsSafe(s: State, e: Event)
    requires Safe(s)
    ensures Safe(Happens(s, e))
  {
    match e
    case Started(run, budget) =>
      EffectsFit(s, run);
      ApplyAllKeepsSafe(s, Effects(s, run)[..Min(budget, |Effects(s, run)|)]);
    case BatchOnly =>
      if s.mainnet && s.record.Some? && s.record.value.vault < |s.vaults| {
        PendingFits(s.vaults[s.record.value.vault], s.record.value.operator, s.record.value.caps);
      }
    case SafeExecutes =>
      if s.batch.Some? && s.batch.value.vault < |s.vaults| {
        var v := s.vaults[s.batch.value.vault];
        if ExecAll(v, SAFE, s.batch.value.calls).Some? {
          ExecKeepsSafe(v, SAFE, s.batch.value.calls);
        }
      }
  }

  /**
   Over every history of runs, each cut off anywhere, and of Safe executions, payouts are open only when configured.
   */
  lemma {:induction false} HistoryKeepsSafe(s: State, es: seq<Event>)
    requires Safe(s)
    ensures Safe(History(s, es))
    decreases |es|
  {
    if es != [] {
      HappensKeepsSafe(s, es[0]);
      HistoryKeepsSafe(Happens(s, es[0]), es[1..]);
    }
  }

  // ------------------------------------------------------------------ the recorded vault

  predicate Keeps(e: Effect, vault: nat) { !e.Deploy? && (e.WriteRecord? ==> e.record.vault == vault) }

  lemma {:induction false} ApplyAllKeepsVault(s: State, es: seq<Effect>, vault: nat)
    requires s.record.Some? && s.record.value.vault == vault && forall i :: 0 <= i < |es| ==> Keeps(es[i], vault)
    ensures var t := ApplyAll(s, es);
            t.record.Some? && t.record.value.vault == vault && |t.vaults| == |s.vaults| && t.mainnet == s.mainnet
    decreases |es|
  {
    if es != [] {
      assert Keeps(es[0], vault);
      ApplyAllKeepsVault(Apply(s, es[0]), es[1..], vault);
    }
  }

  lemma HappensKeepsVault(s: State, e: Event)
    requires s.record.Some?
    ensures var t := Happens(s, e);
            t.record.Some? && t.record.value.vault == s.record.value.vault && |t.vaults| == |s.vaults|
  {
    if e.Started? {
      var effects := Effects(s, e.run);
      ApplyAllKeepsVault(s, effects[..Min(e.budget, |effects|)], s.record.value.vault);
    }
  }

  /** Once recorded, the vault's address never changes and no further vault is deployed. */
  lemma {:induction false} RecordedVaultStays(s: State, es: seq<Event>)
    requires s.record.Some?
    ensures var t := History(s, es);
            t.record.Some? && t.record.value.vault == s.record.value.vault && |t.vaults| == |s.vaults|
    decreases |es|
  {
    if es != [] {
      HappensKeepsVault(s, es[0]);
      RecordedVaultStays(Happens(s, es[0]), es[1..]);
    }
  }

  /** A run cut off between its deployment and the first write of the record. */
  predicate Orphans(s: State, e: Event) {
    e.Started? && s.record.None? && Admitted(s, e.run) && e.budget == 1
  }

  function OrphanCount(s: State, es: seq<Event>): nat
    decreases |es|
  {
    if es == [] then 0 else (if Orphans(s, es[0]) then 1 else 0) + OrphanCount(Happens(s, es[0]), es[1..])
  }

  function Recorded(s: State): nat { if s.record.Some? then 1 else 0 }

  lemma FirstEffects(s: State, run: Run, budget: nat)
    requires s.record.None? && Admitted(s, run)
    ensures var effects := Effects(s, run);
            2 <= |effects| && effects[0] == Deploy(AdminFor(s.mainnet, run))
              && effects[1] == WriteRecord(RecordFor(s, run))
            && forall i :: 2 <= i < |effects| ==> Keeps(effects[i], |s.vaults|)
  {
  }

  lemma HappensCounts(s: State, e: Event)
    ensures var t := Happens(s, e);
            |t.vaults| - Recorded(t) == |s.vaults| - Recorded(s) + if Orphans(s, e) then 1 else 0
  {
    if s.record.Some? {
      HappensKeepsVault(s, e);
    } else if e.Started? && Admitted(s, e.run) && e.budget != 0 {
      FirstRunCounts(s, e.run, e.budget);
    }
  }

  lemma ApplyOne(s: State, es: seq<Effect>)
    requires |es| == 1
    ensures ApplyAll(s, es) == Apply(s, es[0])
  {
    assert es[1..] == [];
  }

  lemma ApplyTwo(s: State, es: seq<Effect>)
    requires 2 <= |es|
    ensures ApplyAll(s, es) == ApplyAll(Apply(Apply(s, es[0]), es[1]), es[2..])
  {
    assert es[1..][0] == es[1] && es[1..][1..] == es[2..];
  }

  lemma FirstRunCounts(s: State, run: Run, budget: nat)
    requires s.record.None? && Admitted(s, run) && 0 < budget
    ensures var t := CutRun(s, run, budget);
            |t.vaults| == |s.vaults| + 1 && (t.record.Some? <==> 1 < budget)
  {
    var effects := Effects(s, run);
    var es := effects[..Min(budget, |effects|)];
    FirstEffects(s, run, budget);
    if budget == 1 {
      ApplyOne(s, es);
    } else {
      ApplyTwo(s, es);
      ApplyAllKeepsVault(Apply(Apply(s, es[0]), es[1]), es[2..], |s.vaults|);
    }
  }

  /** Vaults are deployed once, plus once for every run cut off before the record was first written; and only then. */
  lemma {:induction false} VaultsDeployed(s: State, es: seq<Event>)
    ensures var t := History(s, es);
            |t.vaults| - Recorded(t) == |s.vaults| - Recorded(s) + OrphanCount(s, es)
    decreases |es|
  {
    if es != [] {
      HappensCounts(s, es[0]);
      VaultsDeployed(Happens(s, es[0]), es[1..]);
    }
  }

  // ------------------------------------------------------------------ finishing

  lemma OpenExecutes(v: Vault)
    requires Configured(v.operator, v.caps)
    ensures ExecAll(v, v.admin, Last(v)) == Some(v.(paused := false))
  {
    if v.paused {
      assert Last(v)[1..] == [];
    }
  }

  lemma RestExecutes(v: Vault, caps: Caps)
    requires Configured(v.operator, caps)
    ensures ExecAll(v, v.admin, Rest(v, caps)) == Some(v.(caps := caps, paused := false))
  {
    var next := v.(caps := caps);
    OpenExecutes(next);
    if v.caps != caps {
      assert Rest(v, caps)[1..] == Last(next);
    } else {
      assert Rest(v, caps) == Last(next);
    }
  }

  /** The pending calls are accepted in order and leave nothing pending. */
  lemma PendingExecutes(v: Vault, operator: Account, caps: Caps)
    requires Configured(operator, caps)
    ensures ExecAll(v, v.admin, PendingCalls(v, operator, caps)) == Some(Vault(v.admin, operator, caps, false))
  {
    var calls := PendingCalls(v, operator, caps);
    var next := v.(operator := operator);
    RestExecutes(next, caps);
    if v.operator != operator {
      assert calls[0] == SetOperator(operator) && calls[1..] == Rest(next, caps);
    } else {
      assert calls == Rest(next, caps);
    }
  }

  function Last(v: Vault): seq<VaultCall> { if v.paused then [SetPayoutsPaused(false)] else [] }

  function Rest(v: Vault, caps: Caps): seq<VaultCall> {
    (if v.caps != caps then [SetPayoutCaps(caps)] else []) + Last(v)
  }

  lemma {:induction false} SendsExecute(s: State, who: Account, vault: nat, calls: seq<VaultCall>)
    requires vault < |s.vaults| && ExecAll(s.vaults[vault], who, calls).Some?
    ensures ApplyAll(s, Sends(who, vault, calls))
            == s.(vaults := s.vaults[vault := ExecAll(s.vaults[vault], who, calls).value])
    decreases |calls|
  {
    if calls == [] {
      assert s.vaults[vault := s.vaults[vault]] == s.vaults;
    } else {
      assert Sends(who, vault, calls)[1..] == Sends(who, vault, calls[1..]);
      SendsExecute(Apply(s, Send(who, vault, calls[0])), who, vault, calls[1..]);
    }
  }

  lemma {:induction false} ApplyAllConcat(s: State, es: seq<Effect>, fs: seq<Effect>)
    ensures ApplyAll(s, es + fs) == ApplyAll(ApplyAll(s, es), fs)
    decreases |es|
  {
    if es == [] {
      assert es + fs == fs;
    } else {
      assert (es + fs)[1..] == es[1..] + fs;
      ApplyAllConcat(Apply(s, es[0]), es[1..], fs);
    }
  }

  /** The state with the vault deployed, if it was not, and recorded. */
  function Opened(s: State, run: Run): State {
    if s.record.Some? then s
    else s.(vaults := s.vaults + [Fresh(AdminFor(s.mainnet, run))], record := Some(RecordFor(s, run)))
  }

  function Finished(s: State, run: Run): State
    requires Admitted(s, run)
  {
    var at := RecordFor(s, run).vault;
    var calls := PendingCalls(VaultFor(s, run), run.operator, run.caps);
    var o := Opened(s, run).(record := Some(RecordFor(s, run)));
    if s.mainnet then (if calls == [] then o else o.(batch := Some(BatchFile(at, calls))))
    else o.(vaults := o.vaults[at := Vault(AdminFor(s.mainnet, run), run.operator, run.caps, false)])
  }

  lemma OpeningDone(s: State, run: Run)
    ensures ApplyAll(s, Opening(s, run)) == Opened(s, run)
  {
    if s.record.None? {
      ApplyTwo(s, Opening(s, run));
    }
  }

  lemma WorkingDone(s: State, run: Run)
    requires Admitted(s, run)
    ensures ApplyAll(Opened(s, run), Working(s, run)).(record := Some(RecordFor(s, run))) == Finished(s, run)
  {
    var calls := PendingCalls(VaultFor(s, run), run.operator, run.caps);
    var o := Opened(s, run);
    var at := RecordFor(s, run).vault;
    if !s.mainnet {
      PendingExecutes(VaultFor(s, run), run.operator, run.caps);
      assert o.vaults[at] == VaultFor(s, run);
      SendsExecute(o, run.deployer, at, calls);
    } else if calls != [] {
      assert Working(s, run)[1..] == [];
    }
  }

  /** What a run that is not cut off leaves behind. */
  lemma FullRunFinishes(s: State, run: Run)
    requires Admitted(s, run)
    ensures FullRun(s, run) == Finished(s, run)
  {
    var closing := [WriteRecord(RecordFor(s, run))];
    ApplyAllConcat(s, Opening(s, run) + Working(s, run), closing);
    ApplyAllConcat(s, Opening(s, run), Working(s, run));
    OpeningDone(s, run);
    WorkingDone(s, run);
    var t := ApplyAll(Opened(s, run), Working(s, run));
    assert closing[1..] == [] && ApplyAll(t, closing) == Apply(t, closing[0]);
  }

  /** A finishing testnet or local run leaves nothing pending for its own operator and caps, and payouts open. */
  lemma FinishedNothingPending(s: State, run: Run)
    requires Admitted(s, run) && !s.mainnet
    ensures var t := FullRun(s, run);
            t.record == Some(RecordFor(s, run)) && RecordFor(s, run).vault < |t.vaults|
            && PendingCalls(t.vaults[RecordFor(s, run).vault], run.operator, run.caps) == []
  {
    FullRunFinishes(s, run);
  }

  /** On mainnet the same holds once the Safe has executed the batch of a run that found calls pending. */
  lemma SafeFinishes(s: State, run: Run)
    requires Admitted(s, run) && s.mainnet && Safe(s)
    ensures var t := FullRun(s, run);
            var u := if PendingCalls(VaultFor(s, run), run.operator, run.caps) == [] then t else ExecuteBatch(t);
            RecordFor(s, run).vault < |u.vaults|
              && u.vaults[RecordFor(s, run).vault] == Vault(SAFE, run.operator, run.caps, false)
  {
    FullRunFinishes(s, run);
    var t := FullRun(s, run);
    assert t.vaults[RecordFor(s, run).vault] == VaultFor(s, run);
    PendingExecutes(VaultFor(s, run), run.operator, run.caps);
  }

  /** On a vault just deployed nothing of the batch is there yet. */
  lemma FreshPendsAll(admin: Account, operator: Account, caps: Caps)
    requires Configured(operator, caps)
    ensures PendingCalls(Fresh(admin), operator, caps) == ImportFeeVaultCalls(operator, caps)
  {
  }

  /**
   Pending again after the first k calls of a batch: exactly the calls not executed yet, so it resumes from anywhere.
   */
  lemma PendingResumes(v: Vault, operator: Account, caps: Caps, k: nat)
    requires Configured(operator, caps) && k <= |PendingCalls(v, operator, caps)|
    ensures var calls := PendingCalls(v, operator, caps);
            var stopped := ExecAll(v, v.admin, calls[..k]);
            stopped.Some? && PendingCalls(stopped.value, operator, caps) == calls[k..]
    decreases k
  {
    var calls := PendingCalls(v, operator, caps);
    if 0 < k {
      var w := After(v, calls[0]);
      PendingHead(v, operator, caps);
      PendingResumes(w, operator, caps, k - 1);
      assert w.admin == v.admin;
      assert calls[1..][k - 1..] == calls[k..];
      assert calls[..k][1..] == calls[1..][..k - 1];
      assert ExecAll(v, v.admin, calls[..k]) == ExecAll(w, v.admin, calls[1..][..k - 1]);
    } else {
      assert calls[..0] == [] && calls[0..] == calls;
    }
  }

  lemma PendingHead(v: Vault, operator: Account, caps: Caps)
    requires Configured(operator, caps) && PendingCalls(v, operator, caps) != []
    ensures var calls := PendingCalls(v, operator, caps);
            Accepts(v, v.admin, calls[0]) && PendingCalls(After(v, calls[0]), operator, caps) == calls[1..]
  {
  }

  // ------------------------------------------------------------------ starting again

  /**
   A cut-off run, repeated, ends where an uncut run ends, unless it was cut between deploying and recording its vault.
   */
  lemma RestartConverges(s: State, run: Run, budget: nat)
    requires Admitted(s, run)
    ensures FullRun(CutRun(s, run, budget), run) == FullRun(s, run) <==> !(s.record.None? && budget == 1)
  {
    FullRunFinishes(s, run);
    if s.record.None? && budget == 1 {
      OrphanLeft(s, run);
    } else {
      CutState(s, run, budget);
      FullRunFinishes(CutRun(s, run, budget), run);
    }
  }

  lemma OrphanLeft(s: State, run: Run)
    requires Admitted(s, run) && s.record.None?
    ensures |FullRun(CutRun(s, run, 1), run).vaults| == |FullRun(s, run).vaults| + 1
  {
    FullRunFinishes(s, run);
    FirstRunCounts(s, run, 1);
    var t := CutRun(s, run, 1);
    assert t.mainnet == s.mainnet && t.record.None? by {
      FirstEffects(s, run, 1);
      ApplyOne(s, Effects(s, run)[..1]);
    }
    FullRunFinishes(t, run);
  }

  /**
   A cut-off run that wrote the record, or wrote nothing, leaves the run's vault partway and everything else alone.
   */
  lemma CutState(s: State, run: Run, budget: nat)
    requires Admitted(s, run) && !(s.record.None? && budget == 1)
    ensures var t := CutRun(s, run, budget);
            Admitted(t, run) && RecordFor(t, run) == RecordFor(s, run)
              && Alike(Opened(s, run), Opened(t, run), RecordFor(s, run))
            && (s.mainnet ==> VaultFor(t, run) == VaultFor(s, run))
            && (!s.mainnet || PendingCalls(VaultFor(s, run), run.operator, run.caps) == [] ==> t.batch == s.batch)
  {
    var effects := Effects(s, run);
    var es := effects[..Min(budget, |effects|)];
    var rec := RecordFor(s, run);
    var writes := s.mainnet && PendingCalls(VaultFor(s, run), run.operator, run.caps) != [];
    if s.record.None? && 0 < budget {
      FirstEffects(s, run, budget);
      ApplyTwo(s, es);
      var o := Apply(Apply(s, es[0]), es[1]);
      assert o == Opened(s, run);
      forall i | 0 <= i < |es[2..]|
        ensures Touches(es[2..][i], rec, s.mainnet, writes)
      {
        assert es[2..][i] == effects[2 + i];
      }
      OnlyTouches(o, es[2..], rec, writes);
    } else if s.record.Some? {
      OnlyTouches(s, es, rec, writes);
    }
  }

  /** Both states hold the same vaults apart from the recorded one, recorded alike. */
  predicate Alike(s: State, t: State, rec: Record) {
    t.mainnet == s.mainnet && |t.vaults| == |s.vaults| && t.record.Some? && t.record.value.vault == rec.vault
    && t.record.value.admin == rec.admin && rec.vault < |s.vaults|
    && t.vaults[rec.vault].admin == s.vaults[rec.vault].admin
    && forall i :: 0 <= i < |s.vaults| && i != rec.vault ==> t.vaults[i] == s.vaults[i]
  }

  /** The effect concerns no vault but the recorded one; on mainnet it is at most the writing of the batch file. */
  predicate Touches(e: Effect, rec: Record, mainnet: bool, writes: bool) {
    e == WriteRecord(rec) || (if mainnet then e.WriteBatch? && writes else e.Send? && e.vault == rec.vault)
  }

  lemma {:induction false} OnlyTouches(s: State, es: seq<Effect>, rec: Record, writes: bool)
    requires s.record.Some? && s.record.value.vault == rec.vault && s.record.value.admin == rec.admin
             && rec.vault < |s.vaults|
    requires forall i :: 0 <= i < |es| ==> Touches(es[i], rec, s.mainnet, writes)
    requires writes ==> s.mainnet
    ensures var t := ApplyAll(s, es);
            Alike(s, t, rec) && (!writes ==> t.batch == s.batch) && (s.mainnet ==> t.vaults == s.vaults)
    decreases |es|
  {
    if es != [] {
      assert Touches(es[0], rec, s.mainnet, writes);
      OnlyTouches(Apply(s, es[0]), es[1..], rec, writes);
    }
  }

  // ------------------------------------------------------------------ the script itself

  lemma {:induction false} OneMore(s: State, es: seq<Effect>, k: nat)
    requires k < |es|
    ensures ApplyAll(s, es[..k + 1]) == Apply(ApplyAll(s, es[..k]), es[k])
  {
    assert es[..k + 1] == es[..k] + [es[k]];
    ApplyAllConcat(s, es[..k], [es[k]]);
    ApplyOne(ApplyAll(s, es[..k]), [es[k]]);
  }

  lemma AfterOpening(s: State, run: Run)
    requires Admitted(s, run)
    ensures var o := |Opening(s, run)|;
            var t := ApplyAll(s, Effects(s, run)[..o]);
            RecordFor(s, run).vault < |t.vaults| && t.vaults[RecordFor(s, run).vault] == VaultFor(s, run)
              && t.mainnet == s.mainnet
  {
    assert Effects(s, run)[..|Opening(s, run)|] == Opening(s, run);
    OpeningDone(s, run);
  }

  class Script {
    var state: State

    constructor (mainnet: bool)
      ensures state == Beginning(mainnet)
    {
      state := Beginning(mainnet);
    }

    method Do(e: Effect, ghost start: State, ghost es: seq<Effect>, ghost k: nat)
      requires k < |es| && es[k] == e && state == ApplyAll(start, es[..k])
      modifies this
      ensures state == ApplyAll(start, es[..k + 1])
    {
      OneMore(start, es, k);
      state := Apply(state, e);
    }

    /** Deploys and records the vault when there is none yet; `k` effects done, of which the run may do `budget`. */
    method Open(run: Run, rec: Record, budget: nat, ghost start: State) returns (k: nat, alive: bool)
      requires state == start && Admitted(start, run) && rec == RecordFor(start, run)
      modifies this
      ensures k <= |Effects(start, run)| && state == ApplyAll(start, Effects(start, run)[..k])
      ensures if alive then k == |Opening(start, run)| <= budget else k == budget < |Opening(start, run)|
    {
      ghost var es := Effects(start, run);
      k := 0;
      if state.record.Some? {
        return k, true;
      }
      if budget == 0 {
        return k, false;
      }
      Do(Deploy(rec.admin), start, es, 0);
      k := 1;
      if budget == 1 {
        return k, false;
      }
      Do(WriteRecord(rec), start, es, 1);
      return 2, true;
    }

    /** Sends the pending calls, or writes them to the batch file. */
    method Work(run: Run, rec: Record, budget: nat, done: nat, ghost start: State) returns (k: nat, alive: bool)
      requires Admitted(start, run) && rec == RecordFor(start, run) && done == |Opening(start, run)| <= budget
      requires state == ApplyAll(start, Effects(start, run)[..done])
      requires rec.vault < |state.vaults| && state.vaults[rec.vault] == VaultFor(start, run)
               && state.mainnet == start.mainnet
      modifies this
      ensures k <= |Effects(start, run)| && state == ApplyAll(start, Effects(start, run)[..k])
      ensures if alive then k == |Effects(start, run)| - 1 <= budget else k == budget < |Effects(start, run)| - 1
    {
      ghost var es := Effects(start, run);
      k := done;
      var calls := PendingCalls(state.vaults[rec.vault], run.operator, run.caps);
      if state.mainnet {
        if calls != [] {
          if k == budget {
            return k, false;
          }
          Do(WriteBatch(BatchFile(rec.vault, calls)), start, es, k);
          k := k + 1;
        }
        return k, true;
      }
      for i := 0 to |calls|
        invariant k == done + i <= budget
        invariant state == ApplyAll(start, es[..k])
      {
        if k == budget {
          return k, false;
        }
        assert es[k] == Sends(run.deployer, rec.vault, calls)[i];
        Do(Send(run.deployer, rec.vault, calls[i]), start, es, k);
        k := k + 1;
      }
      return k, true;
    }

    /** One run, cut off after `budget` effects. */
    method Start(run: Run, budget: nat) returns (finished: bool)
      modifies this
      ensures state == CutRun(old(state), run, budget)
      ensures finished <==> Admitted(old(state), run) && |Effects(old(state), run)| <= budget
    {
      if !Admitted(state, run) {
        return false;
      }
      ghost var start := state;
      ghost var es := Effects(start, run);
      var rec := RecordFor(state, run);
      AfterOpening(start, run);
      var k, alive := Open(run, rec, budget, start);
      if !alive {
        return false;
      }
      k, alive := Work(run, rec, budget, k, start);
      if !alive || k == budget {
        return false;
      }
      Do(WriteRecord(rec), start, es, k);
      assert es[..k + 1] == es;
      return true;
    }
  }
}
