/** What the payout vaults' Safe batch does on chain: when it is taken as a whole, and what it leaves. */
module PayoutBatch {
  import opened Common
  import opened PayoutVaults

  datatype Authorization = Authorization(max: nat, publishAfter: int, deadline: int)

  /**
   `ours`: vaults whose multisig is the Safe; `posters`: vaults with a root poster; `used`: epochs consumed or with a
   root.
   */
  datatype Vaults = Vaults(
    leagueOurs: bool, ours: set<nat>, posters: set<nat>, used: set<(nat, nat)>,
    receivers: (nat, nat), caps: map<nat, (nat, nat)>, open: set<nat>, held: map<(nat, nat), Authorization>)

  predicate CapsSet(s: Vaults, vault: nat) {
    vault in s.caps && s.caps[vault].0 != 0 && s.caps[vault].1 != 0
  }

  predicate Takes(s: Vaults, c: VaultCall) {
    match c
    case SetReceivers(monthly, quarterly) => s.leagueOurs && monthly != 0 && quarterly != 0
    case SetClaimCaps(vault, _, _) => vault in s.ours
    case SetClaimsPaused(vault, paused) => vault in s.ours && (paused || (vault in s.posters && CapsSet(s, vault)))
    case AuthorizeEpoch(vault, id, max, publishAfter, deadline) =>
      vault in s.ours && max != 0 && publishAfter < deadline && (vault, id) !in s.used
  }

  function After(s: Vaults, c: VaultCall): Vaults {
    match c
    case SetReceivers(monthly, quarterly) => s.(receivers := (monthly, quarterly))
    case SetClaimCaps(vault, perClaim, total) => s.(caps := s.caps[vault := (perClaim, total)])
    case SetClaimsPaused(vault, paused) => s.(open := if paused then s.open - {vault} else s.open + {vault})
    case AuthorizeEpoch(vault, id, max, publishAfter, deadline) =>
      s.(held := s.held[(vault, id) := Authorization(max, publishAfter, deadline)])
  }

  /** All calls in order, or nothing. */
  function Execute(s: Vaults, calls: seq<VaultCall>): Option<Vaults>
    decreases |calls|
  {
    if calls == [] then Some(s)
    else if !Takes(s, calls[0]) then None
    else Execute(After(s, calls[0]), calls[1..])
  }

  lemma {:induction false} ExecuteJoined(s: Vaults, xs: seq<VaultCall>, ys: seq<VaultCall>)
    ensures Execute(s, xs + ys) ==
            match Execute(s, xs)
            case None => None
            case Some(t) => Execute(t, ys)
    decreases |xs|
  {
    if xs == [] {
      assert xs + ys == ys;
    } else {
      assert (xs + ys)[0] == xs[0] && (xs + ys)[1..] == xs[1..] + ys;
      if Takes(s, xs[0]) {
        ExecuteJoined(After(s, xs[0]), xs[1..], ys);
      }
    }
  }

  // ------------------------------------------------------------------ the authorizations

  function KeyOf(hash: Hash, chainId: int, e: Epoch): (nat, nat)
    requires IdOf(hash, chainId, e).Some?
  {
    (e.vault, IdOf(hash, chainId, e).value)
  }

  /** The epoch may still be authorized: its vault is the Safe's, its maximum is positive and it was not used. */
  predicate Fresh(s: Vaults, hash: Hash, chainId: int, e: Epoch) {
    e.vault in s.ours && e.max != 0 && IdOf(hash, chainId, e).Some? && KeyOf(hash, chainId, e) !in s.used
  }

  lemma TakesFresh(s: Vaults, hash: Hash, chainId: int, e: Epoch, c: VaultCall)
    requires Authorizes(hash, chainId, e, c)
    ensures Takes(s, c) <==> Fresh(s, hash, chainId, e)
  {
  }

  /** A list of authorizations is taken exactly when each epoch is fresh; nothing but what is held changes. */
  lemma {:induction false} AuthorizationsTaken(s: Vaults, hash: Hash, chainId: int, es: seq<Epoch>,
                                               calls: seq<VaultCall>)
    requires AuthorizeInOrder(hash, chainId, es, calls)
    ensures Execute(s, calls).Some? <==> forall e :: e in es ==> Fresh(s, hash, chainId, e)
    ensures Execute(s, calls).Some? ==> Execute(s, calls).value.(held := s.held) == s
    decreases |calls|
  {
    if calls != [] {
      assert Authorizes(hash, chainId, es[0], calls[0]);
      TakesFresh(s, hash, chainId, es[0], calls[0]);
      var t := After(s, calls[0]);
      RestInOrder(hash, chainId, es, calls);
      AuthorizationsTaken(t, hash, chainId, es[1..], calls[1..]);
      SameFresh(s, t, hash, chainId, es[1..]);
      assert forall e :: e in es <==> e == es[0] || e in es[1..];
    }
  }

  lemma RestInOrder(hash: Hash, chainId: int, es: seq<Epoch>, calls: seq<VaultCall>)
    requires AuthorizeInOrder(hash, chainId, es, calls) && es != []
    ensures AuthorizeInOrder(hash, chainId, es[1..], calls[1..])
  {
    forall i | 0 <= i < |es[1..]|
      ensures Authorizes(hash, chainId, es[1..][i], calls[1..][i])
    {
      assert Authorizes(hash, chainId, es[i + 1], calls[i + 1]);
    }
  }

  lemma SameFresh(s: Vaults, t: Vaults, hash: Hash, chainId: int, es: seq<Epoch>)
    requires s.ours == t.ours && s.used == t.used
    ensures (forall e :: e in es ==> Fresh(s, hash, chainId, e)) <==> forall e :: e in es ==> Fresh(t, hash, chainId, e)
  {
    assert forall e :: Fresh(s, hash, chainId, e) <==> Fresh(t, hash, chainId, e);
  }

  /** Authorizations of other epochs leave an epoch's own alone. */
  lemma {:induction false} OthersLeave(s: Vaults, hash: Hash, chainId: int, es: seq<Epoch>, calls: seq<VaultCall>,
                                       key: (nat, nat))
    requires AuthorizeInOrder(hash, chainId, es, calls) && Execute(s, calls).Some? && key in s.held
    requires forall i :: 0 <= i < |es| ==> IdOf(hash, chainId, es[i]) != Some(key.1)
    ensures key in Execute(s, calls).value.held && Execute(s, calls).value.held[key] == s.held[key]
    decreases |calls|
  {
    if calls != [] {
      assert Authorizes(hash, chainId, es[0], calls[0]);
      RestInOrder(hash, chainId, es, calls);
      OthersLeave(After(s, calls[0]), hash, chainId, es[1..], calls[1..], key);
    }
  }

  function WindowOpen(e: Epoch): Authorization {
    Authorization(e.max, e.window.end, e.window.end + PUBLISH_WINDOW)
  }

  /**
   Under an injective hash no authorization of a batch overwrites another: every epoch ends up with its own window.
   */
  lemma {:induction false} EveryEpochHeld(s: Vaults, hash: Hash, chainId: int, es: seq<Epoch>, calls: seq<VaultCall>,
                                          i: nat)
    requires Injective(hash) && DistinctEpochs(es) && AuthorizeInOrder(hash, chainId, es, calls)
    requires Execute(s, calls).Some? && i < |es| && IdOf(hash, chainId, es[i]).Some?
    ensures var held := Execute(s, calls).value.held;
            KeyOf(hash, chainId, es[i]) in held && held[KeyOf(hash, chainId, es[i])] == WindowOpen(es[i])
    decreases |calls|
  {
    assert Authorizes(hash, chainId, es[0], calls[0]);
    RestInOrder(hash, chainId, es, calls);
    RestDistinct(es);
    if 0 < i {
      EveryEpochHeld(After(s, calls[0]), hash, chainId, es[1..], calls[1..], i - 1);
    } else {
      forall j | 0 <= j < |es[1..]|
        ensures IdOf(hash, chainId, es[1..][j]) != IdOf(hash, chainId, es[0])
      {
        OtherId(hash, chainId, es, j + 1);
      }
      OthersLeave(After(s, calls[0]), hash, chainId, es[1..], calls[1..], KeyOf(hash, chainId, es[0]));
    }
  }

  lemma RestDistinct(es: seq<Epoch>)
    requires DistinctEpochs(es) && es != []
    ensures DistinctEpochs(es[1..])
  {
  }

  lemma OtherId(hash: Hash, chainId: int, es: seq<Epoch>, j: nat)
    requires Injective(hash) && DistinctEpochs(es) && 0 < j < |es| && IdOf(hash, chainId, es[0]).Some?
    ensures IdOf(hash, chainId, es[j]) != IdOf(hash, chainId, es[0])
  {
    if IdOf(hash, chainId, es[j]) == IdOf(hash, chainId, es[0]) {
      EpochIdsDiffer(hash, chainId, es[0].code, es[0].window.start, es[j].code, es[j].window.start);
      assert false;
    }
  }

  // ------------------------------------------------------------------ the whole batch

  /** What the two vaults and the league treasury must be for the opening calls. */
  predicate Openable(s: Vaults, setup: Setup) {
    s.leagueOurs && setup.monthlyVault != 0 && setup.quarterlyVault != 0
    && setup.monthlyVault in s.ours && setup.monthlyVault in s.posters && setup.monthlyMax != 0
    && setup.quarterlyVault in s.ours && setup.quarterlyVault in s.posters && setup.quarterlyMax != 0
  }

  function Opened(s: Vaults, setup: Setup): Vaults {
    s.(receivers := (setup.monthlyVault, setup.quarterlyVault),
       caps := s.caps[setup.monthlyVault := (setup.monthlyMax, setup.monthlyMax)]
                     [setup.quarterlyVault := (setup.quarterlyMax, setup.quarterlyMax)],
       open := s.open + {setup.monthlyVault} + {setup.quarterlyVault})
  }

  lemma OpeningTaken(s: Vaults, setup: Setup)
    ensures Execute(s, OpeningCalls(setup)) == if Openable(s, setup) then Some(Opened(s, setup)) else None
  {
    var calls := OpeningCalls(setup);
    var s1 := After(s, calls[0]);
    var s2 := After(s1, calls[1]);
    var s3 := After(s2, calls[2]);
    var s4 := After(s3, calls[3]);
    OneMore(s4, calls, 4);
    OneMore(s3, calls, 3);
    OneMore(s2, calls, 2);
    OneMore(s1, calls, 1);
    assert calls[5..] == [] && calls[0..] == calls;
    OneMore(s, calls, 0);
  }

  lemma OneMore(s: Vaults, calls: seq<VaultCall>, k: nat)
    requires k < |calls|
    ensures Execute(s, calls[k..]) == if Takes(s, calls[k]) then Execute(After(s, calls[k]), calls[k + 1..]) else None
  {
    assert calls[k..][0] == calls[k] && calls[k..][1..] == calls[k + 1..];
  }

  /**
   The Safe executes the batch exactly when both vaults and the league treasury are its own, both vaults have a root
   poster and a positive maximum, and no epoch of the batch was used; otherwise nothing happens.
   */
  lemma BatchTaken(s: Vaults, hash: Hash, setup: Setup, millis: int, months: nat, quarters: nat, auths: seq<VaultCall>)
    requires AuthorizeInOrder(hash, setup.chainId, AllEpochs(setup, millis, months, quarters), auths)
    ensures Execute(s, OpeningCalls(setup) + auths).Some? <==>
            Openable(s, setup)
            && forall e :: e in AllEpochs(setup, millis, months, quarters) && IdOf(hash, setup.chainId, e).Some? ==>
                           KeyOf(hash, setup.chainId, e) !in s.used
  {
    var es := AllEpochs(setup, millis, months, quarters);
    EpochsOfSetup(setup, millis, months, quarters);
    OpeningTaken(s, setup);
    ExecuteJoined(s, OpeningCalls(setup), auths);
    if Openable(s, setup) {
      AuthorizationsTaken(Opened(s, setup), hash, setup.chainId, es, auths);
      forall e | e in es
        ensures IdOf(hash, setup.chainId, e).Some?
      {
        var i :| 0 <= i < |es| && es[i] == e;
        assert Authorizes(hash, setup.chainId, es[i], auths[i]);
      }
    }
  }

  lemma EpochsOfSetup(setup: Setup, millis: int, months: nat, quarters: nat)
    ensures forall e :: e in AllEpochs(setup, millis, months, quarters) ==>
                        (e.vault == setup.monthlyVault && e.max == setup.monthlyMax)
                        || (e.vault == setup.quarterlyVault && e.max == setup.quarterlyMax)
  {
  }

  /**
   Once executed, both vaults pay claims and every month and quarter is authorized under its own id, open for two years.
   */
  lemma BatchHoldsEveryEpoch(s: Vaults, hash: Hash, setup: Setup, millis: int, months: nat, quarters: nat,
                             auths: seq<VaultCall>, i: nat)
    requires Injective(hash) && 0 <= millis && i < months + quarters
    requires AuthorizeInOrder(hash, setup.chainId, AllEpochs(setup, millis, months, quarters), auths)
    requires Execute(s, OpeningCalls(setup) + auths).Some?
    ensures var t := Execute(s, OpeningCalls(setup) + auths).value;
            var e := AllEpochs(setup, millis, months, quarters)[i];
            && t.receivers == (setup.monthlyVault, setup.quarterlyVault)
            && setup.monthlyVault in t.open && setup.quarterlyVault in t.open
            && IdOf(hash, setup.chainId, e).Some?
            && KeyOf(hash, setup.chainId, e) in t.held && t.held[KeyOf(hash, setup.chainId, e)] == WindowOpen(e)
  {
    var es := AllEpochs(setup, millis, months, quarters);
    OpeningTaken(s, setup);
    ExecuteJoined(s, OpeningCalls(setup), auths);
    EpochsDistinct(setup, millis, months, quarters);
    assert Authorizes(hash, setup.chainId, es[i], auths[i]);
    AuthorizationsTaken(Opened(s, setup), hash, setup.chainId, es, auths);
    EveryEpochHeld(Opened(s, setup), hash, setup.chainId, es, auths, i);
  }
}
