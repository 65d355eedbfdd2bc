/**
 The arena canary: one battle driven through a war pool on a test network, every payment compared with the split. The
 deployer is the treasury's owner, its resolver and its quote signer.
 */
module Canary {
  import opened Common
  import opened WarPool
  import opened Sums

  /** Native balances; a wallet pays gas for what it sends, whether it goes through or not. */
  type Wallets = map<Account, int>

  function Balance(ws: Wallets, a: Account): int { if a in ws then ws[a] else 0 }

  function Credit(ws: Wallets, payments: seq<Payment>): Wallets
    decreases |payments|
  {
    if payments == [] then ws
    else Credit(ws[payments[0].to := Balance(ws, payments[0].to) + payments[0].amount], payments[1..])
  }

  function WalletsAfter(ws: Wallets, s: State, c: Call, gas: nat): Wallets {
    var cost := gas + if Step(s, c).Some? then c.value else 0;
    Credit(ws[c.sender := Balance(ws, c.sender) - cost], Payments(s, c))
  }

  /** What the payments bring one account. */
  function Brought(payments: seq<Payment>, a: Account): nat {
    if payments == [] then 0 else (if payments[0].to == a then payments[0].amount else 0) + Brought(payments[1..], a)
  }

  lemma {:induction false} CreditBrings(ws: Wallets, payments: seq<Payment>, a: Account)
    ensures Balance(Credit(ws, payments), a) == Balance(ws, a) + Brought(payments, a)
    decreases |payments|
  {
    if payments != [] {
      CreditBrings(ws[payments[0].to := Balance(ws, payments[0].to) + payments[0].amount], payments[1..], a);
    }
  }

  class Treasury {
    var state: State
    var wallets: Wallets

    constructor (owner: Account, creators: set<Account>, receiver: Account, league: Account)
      ensures state == State(map[], 0, {}, false, owner, creators, Fill(0, 0, 0, 0), receiver, league, true)
              && Sound(state)
    {
      state := State(map[], 0, {}, false, owner, creators, Fill(0, 0, 0, 0), receiver, league, true);
      wallets := map[];
      new;
      assert Liabilities(state.pools) == map[];
    }

    method Send(c: Call, gas: nat) returns (ok: bool)
      modifies this
      ensures state == After(old(state), c) && (ok <==> Step(old(state), c).Some?)
      ensures wallets == WalletsAfter(old(wallets), old(state), c, gas)
    {
      wallets := WalletsAfter(wallets, state, c, gas);
      var t := Step(state, c);
      if t.None? {
        return false;
      }
      state := t.value;
      return true;
    }

    /** ... where nobody looks at the wallets afterwards. */
    method Transact(c: Call, gas: nat) returns (ok: bool)
      modifies this
      ensures state == After(old(state), c) && (ok <==> Step(old(state), c).Some?)
    {
      ok := Send(c, gas);
    }
  }

  /** What one run is started with, and the gas its three claims will cost. */
  datatype Plan = Plan(pool: Id, ownerA: Account, ownerB: Account, stake: nat, boost: nat, nonce: nat, now: nat,
                       gas: Gas)

  datatype Gas = Gas(winner: nat, protocol: nat, league: nat, other: nat)

  /** A pool id and a nonce made from the clock, and two wallets. */
  predicate Ready(s: State, p: Plan) {
    p.pool != 0 && p.pool !in s.pools && p.ownerA != 0 && p.ownerB != 0 && (p.ownerB, p.nonce) !in s.nonces
  }

  /** The contract takes such a battle. */
  predicate Playable(p: Plan) { p.ownerA != p.ownerB && 0 < p.stake && 0 < p.boost }

  function OpenCall(s: State, p: Plan): Call {
    Call(p.pool, s.owner, 0, p.now, OpenBattle(p.ownerA, p.ownerB, p.stake, p.now + 3600, p.now + 7200))
  }

  function StakeCall(p: Plan, owner: Account): Call { Call(p.pool, owner, p.stake, p.now, DepositStake) }

  function BoostCall(p: Plan): Call {
    Call(p.pool, p.ownerB, p.boost, p.now, Boost(1, p.boost, p.nonce, p.now + 3600, true))
  }

  function ResolveCall(s: State, p: Plan): Call {
    var verdict := Verdict(p.pool, p.ownerA, 2 * p.stake, 0, p.boost, p.now + 3600);
    Call(p.pool, s.owner, 0, p.now, Resolve(Some(verdict), p.ownerA, p.now + 3600))
  }

  function Expected(p: Plan): Split { SplitOf(2 * p.stake, p.boost) }

  /** The pool once it is opened, once both sides staked and one was boosted, and once it is resolved. */
  function Opened(p: Plan): Pool { NewPool(Battle, p.ownerA, p.ownerB, p.stake, 0, p.now + 3600, p.now + 7200) }

  function Staked(p: Plan): Pool {
    Opened(p).(stakeA := p.stake, stakeB := p.stake, phase := Live, received := 2 * p.stake)
  }

  function Boosted(p: Plan): Pool {
    Staked(p).(boosts := map[p.ownerB := p.boost], boostTotal := p.boost, received := 2 * p.stake + p.boost)
  }

  function ResolvedOf(p: Plan): Pool {
    Boosted(p).(phase := Resolved, winner := p.ownerA, pendingWinner := Expected(p).winner,
                pendingProtocol := Expected(p).protocol, pendingLeague := Expected(p).league)
  }

  lemma OpensAndStakes(s: State, p: Plan)
    requires Ready(s, p) && !s.paused && p.ownerA != p.ownerB && 0 < p.stake
    ensures var s1 := After(s, OpenCall(s, p));
            var s2 := After(s1, StakeCall(p, p.ownerA));
            var s3 := After(s2, StakeCall(p, p.ownerB));
            Step(s, OpenCall(s, p)).Some? && Step(s1, StakeCall(p, p.ownerA)).Some?
              && Step(s2, StakeCall(p, p.ownerB)).Some?
            && s3 == s.(pools := s.pools[p.pool := Staked(p)], balance := s.balance + 2 * p.stake)
  {
    var s1 := After(s, OpenCall(s, p));
    assert s1 == s.(pools := s.pools[p.pool := Opened(p)]);
    var s2 := After(s1, StakeCall(p, p.ownerA));
    var half := Opened(p).(stakeA := p.stake, received := p.stake);
    assert s2 == s.(pools := s.pools[p.pool := half], balance := s.balance + p.stake);
    var s3 := After(s2, StakeCall(p, p.ownerB));
    assert s3.pools[p.pool] == Staked(p);
  }

  lemma Boosts(s: State, p: Plan, before: map<Id, Pool>)
    requires s.pools == before[p.pool := Staked(p)] && !s.paused && (p.ownerB, p.nonce) !in s.nonces
    ensures Step(s, BoostCall(p)) ==
            if p.boost == 0 then None
            else Some(s.(pools := before[p.pool := Boosted(p)], balance := s.balance + p.boost,
                         nonces := s.nonces + {(p.ownerB, p.nonce)}))
  {
    assert before[p.pool := Staked(p)][p.pool := Boosted(p)] == before[p.pool := Boosted(p)];
  }

  lemma Resolves(s: State, p: Plan, before: map<Id, Pool>)
    requires s.pools == before[p.pool := Boosted(p)] && p.ownerA != 0
    ensures Step(s, ResolveCall(s, p)) == Some(s.(pools := before[p.pool := ResolvedOf(p)]))
  {
    assert before[p.pool := Boosted(p)][p.pool := ResolvedOf(p)] == before[p.pool := ResolvedOf(p)];
  }

  /** The league and protocol buckets hold something, so that their claims are not refused. */
  predicate BucketsFilled(p: Plan) { 0 < Expected(p).league && 0 < Expected(p).protocol }

  /** In units of the native coin: the smallest amounts the canary can be run with. */
  lemma BucketsFilledExactly(p: Plan)
    ensures BucketsFilled(p) <==> 3 <= p.stake && (10 <= p.stake || 10 <= p.boost)
  {
  }

  /** The treasury with the battle played and resolved. */
  function Played(s: State, p: Plan): State {
    s.(paused := false, pools := s.pools[p.pool := ResolvedOf(p)], balance := s.balance + 2 * p.stake + p.boost,
       nonces := s.nonces + {(p.ownerB, p.nonce)})
  }

  /** Both maps hold the same pools, apart from one. */
  predicate OthersKept(before: map<Id, Pool>, now: map<Id, Pool>, id: Id) {
    forall other :: other in before && other != id ==> other in now && now[other] == before[other]
  }

  method AllowDeposits(t: Treasury, p: Plan)
    requires Ready(t.state, p)
    modifies t
    ensures t.state == old(t.state).(paused := false)
  {
    if t.state.paused {
      var ok := t.Transact(Call(0, t.state.owner, 0, p.now, SetDepositsPaused(false)), p.gas.other);
      assert ok;
    }
  }

  method OpenAndStake(t: Treasury, p: Plan)
    requires Ready(t.state, p) && !t.state.paused && p.ownerA != p.ownerB && 0 < p.stake
    modifies t
    ensures t.state == old(t.state).(pools := old(t.state.pools)[p.pool := Staked(p)],
                                     balance := old(t.state.balance) + 2 * p.stake)
  {
    OpensAndStakes(t.state, p);
    var ok := t.Transact(OpenCall(t.state, p), p.gas.other);
    ok := t.Transact(StakeCall(p, p.ownerA), p.gas.other);
    ok := t.Transact(StakeCall(p, p.ownerB), p.gas.other);
  }

  method BoostAndResolve(t: Treasury, p: Plan, ghost before: map<Id, Pool>) returns (ok: bool)
    requires t.state.pools == before[p.pool := Staked(p)] && !t.state.paused && p.ownerA != 0
    requires (p.ownerB, p.nonce) !in t.state.nonces
    modifies t
    ensures ok <==> 0 < p.boost
    ensures !ok ==> t.state == old(t.state)
    ensures ok ==> t.state == old(t.state).(pools := before[p.pool := ResolvedOf(p)],
                                            balance := old(t.state.balance) + p.boost,
                                            nonces := old(t.state.nonces) + {(p.ownerB, p.nonce)})
  {
    Boosts(t.state, p, before);
    ok := t.Transact(BoostCall(p), p.gas.other);
    if ok {
      Resolves(t.state, p, before);
      ok := t.Transact(ResolveCall(t.state, p), p.gas.other);
    }
  }

  /**
   Opens the pool, has both sides stake, boosts one and resolves for it; refused exactly if the battle is not playable.
   */
  method Play(t: Treasury, p: Plan) returns (ok: bool)
    requires Ready(t.state, p)
    modifies t
    ensures ok <==> Playable(p)
    ensures ok ==> t.state == Played(old(t.state), p)
    ensures OthersKept(old(t.state.pools), t.state.pools, p.pool)
  {
    ghost var before := t.state;
    AllowDeposits(t, p);
    if p.ownerA == p.ownerB || p.stake == 0 {
      ok := t.Transact(OpenCall(t.state, p), p.gas.other);
      return;
    }
    OpenAndStake(t, p);
    ok := BoostAndResolve(t, p, before.pools);
  }

  // ------------------------------------------------------------------ the claims

  function ClaimCall(p: Plan, sender: Account, op: Op): Call { Call(p.pool, sender, 0, p.now, op) }

  function WinnerPaid(p: Plan): Pool {
    Paid(ResolvedOf(p), Expected(p).winner).(claimedWinner := true, pendingWinner := 0)
  }

  function ProtocolPaid(p: Plan): Pool {
    Paid(WinnerPaid(p), Expected(p).protocol).(claimedProtocol := true, pendingProtocol := 0)
  }

  function LeaguePaid(p: Plan): Pool {
    Paid(ProtocolPaid(p), Expected(p).league).(claimedLeague := true, pendingLeague := 0)
  }

  /** One claim: pays its bucket if there is something in it, else is refused. */
  lemma ClaimGoes(s: State, p: Plan, c: Call, before: map<Id, Pool>, q: Pool, amount: nat, r: Pool)
    requires s.pools == before[p.pool := q] && c.pool == p.pool && c.value == 0 && Pays(c.op) && amount <= s.balance
    requires Payout(q, c) == if amount == 0 then None else Some((r, amount))
    ensures Step(s, c) ==
            if amount == 0 || (c.op.ClaimLeague? && !s.leagueTakes) then None
            else Some(s.(pools := before[p.pool := r], balance := s.balance - amount, fill := FillAfter(s, c, amount)))
  {
    assert before[p.pool := q][p.pool := r] == before[p.pool := r];
  }

  /** What the three claims bring an account, less the gas it pays for them. */
  function Moved(s: State, p: Plan, a: Account): int {
    (if a == p.ownerA then Expected(p).winner - p.gas.winner else 0) + FeesMoved(s, p, a)
  }

  function FeesMoved(s: State, p: Plan, a: Account): int {
    var (toOperator, toProtocol, _) := OperatorSplit(s.fill, Expected(p).protocol);
    (if a == s.fill.operator then toOperator else 0)
    + (if a == s.receiver then toProtocol else 0)
    + (if a == s.league then Expected(p).league else 0)
    - (if a == p.ownerB then p.gas.protocol + p.gas.league else 0)
  }

  lemma WinnerMoves(ws: Wallets, s: State, p: Plan, a: Account)
    requires p.pool in s.pools && s.pools[p.pool] == ResolvedOf(p) && Expected(p).winner != 0
             && Expected(p).winner <= s.balance
    ensures Balance(WalletsAfter(ws, s, ClaimCall(p, p.ownerA, ClaimWinner), p.gas.winner), a)
            == Balance(ws, a) + if a == p.ownerA then Expected(p).winner - p.gas.winner else 0
  {
    var c := ClaimCall(p, p.ownerA, ClaimWinner);
    assert Payments(s, c) == [Payment(p.ownerA, Expected(p).winner)];
    CreditBrings(ws[c.sender := Balance(ws, c.sender) - p.gas.winner], Payments(s, c), a);
  }

  lemma ProtocolMoves(ws: Wallets, s: State, p: Plan, a: Account)
    requires p.pool in s.pools && s.pools[p.pool] == WinnerPaid(p)
    requires Expected(p).protocol != 0 && Expected(p).protocol <= s.balance
    ensures var (toOperator, toProtocol, _) := OperatorSplit(s.fill, Expected(p).protocol);
            Balance(WalletsAfter(ws, s, ClaimCall(p, p.ownerB, ClaimProtocol), p.gas.protocol), a)
            == Balance(ws, a) + (if a == s.fill.operator then toOperator else 0)
            + (if a == s.receiver then toProtocol else 0)
               - (if a == p.ownerB then p.gas.protocol else 0)
  {
    var c := ClaimCall(p, p.ownerB, ClaimProtocol);
    var (toOperator, toProtocol, _) := OperatorSplit(s.fill, Expected(p).protocol);
    var first := if 0 < toOperator then [Payment(s.fill.operator, toOperator)] else [];
    var second := if 0 < toProtocol then [Payment(s.receiver, toProtocol)] else [];
    assert Payments(s, c) == first + second;
    BroughtJoined(first, second, a);
    CreditBrings(ws[c.sender := Balance(ws, c.sender) - p.gas.protocol], first + second, a);
  }

  lemma {:induction false} BroughtJoined(xs: seq<Payment>, ys: seq<Payment>, a: Account)
    ensures Brought(xs + ys, a) == Brought(xs, a) + Brought(ys, a)
  {
    if xs == [] {
      assert xs + ys == ys;
    } else {
      assert (xs + ys)[1..] == xs[1..] + ys;
      BroughtJoined(xs[1..], ys, a);
    }
  }

  lemma LeagueMoves(ws: Wallets, s: State, p: Plan, a: Account)
    requires p.pool in s.pools && s.pools[p.pool] == ProtocolPaid(p) && s.leagueTakes
    requires Expected(p).league != 0 && Expected(p).league <= s.balance
    ensures Balance(WalletsAfter(ws, s, ClaimCall(p, p.ownerB, ClaimLeague), p.gas.league), a)
            == Balance(ws, a) + (if a == s.league then Expected(p).league else 0)
            - (if a == p.ownerB then p.gas.league else 0)
  {
    var c := ClaimCall(p, p.ownerB, ClaimLeague);
    assert Payments(s, c) == [Payment(s.league, Expected(p).league)];
    CreditBrings(ws[c.sender := Balance(ws, c.sender) - p.gas.league], Payments(s, c), a);
  }

  /** Claims the three buckets; refused, and stopped, at the first one that is empty or not taken. */
  method ClaimAll(t: Treasury, p: Plan, ghost before: map<Id, Pool>) returns (ok: bool)
    requires t.state.pools == before[p.pool := ResolvedOf(p)] && 2 * p.stake + p.boost <= t.state.balance && 0 < p.stake
    modifies t
    ensures ok <==> BucketsFilled(p) && old(t.state.leagueTakes)
    ensures ok ==> t.state.pools == before[p.pool := LeaguePaid(p)] && t.state.owner == old(t.state.owner)
    ensures ok ==> t.state.balance == old(t.state.balance) - 2 * p.stake - p.boost
    ensures ok ==> forall a: Account :: Balance(t.wallets, a) == Balance(old(t.wallets), a) + Moved(old(t.state), p, a)
    ensures p.pool in t.state.pools && t.state.pools == before[p.pool := t.state.pools[p.pool]]
  {
    SplitExact(2 * p.stake, p.boost);
    ok := ClaimWinnerBucket(t, p, before);
    FeesStay(old(t.state), t.state, p);
    ok := ClaimFees(t, p, before);
  }

  lemma FeesStay(s: State, t: State, p: Plan)
    requires s.fill == t.fill && s.receiver == t.receiver && s.league == t.league
    ensures forall a: Account :: FeesMoved(t, p, a) == FeesMoved(s, p, a)
  {
  }

  method ClaimFees(t: Treasury, p: Plan, ghost before: map<Id, Pool>) returns (ok: bool)
    requires t.state.pools == before[p.pool := WinnerPaid(p)]
             && Expected(p).protocol + Expected(p).league <= t.state.balance
    modifies t
    ensures ok <==> BucketsFilled(p) && old(t.state.leagueTakes)
    ensures ok ==> t.state.pools == before[p.pool := LeaguePaid(p)] && t.state.owner == old(t.state.owner)
    ensures ok ==> t.state.balance == old(t.state.balance) - Expected(p).protocol - Expected(p).league
    ensures ok ==> forall a: Account ::
                     Balance(t.wallets, a) == Balance(old(t.wallets), a) + FeesMoved(old(t.state), p, a)
    ensures p.pool in t.state.pools && t.state.pools == before[p.pool := t.state.pools[p.pool]]
  {
    ok := ClaimProtocolBucket(t, p, before);
    if ok {
      ok := ClaimLeagueBucket(t, p, before);
    }
  }

  method ClaimWinnerBucket(t: Treasury, p: Plan, ghost before: map<Id, Pool>) returns (ok: bool)
    requires t.state.pools == before[p.pool := ResolvedOf(p)] && 0 < Expected(p).winner <= t.state.balance
    modifies t
    ensures ok
    ensures t.state == old(t.state).(pools := before[p.pool := WinnerPaid(p)],
                                     balance := old(t.state.balance) - Expected(p).winner)
    ensures forall a: Account :: Balance(t.wallets, a) ==
                                 Balance(old(t.wallets), a) +
                                 if a == p.ownerA then Expected(p).winner - p.gas.winner else 0
  {
    var c := ClaimCall(p, p.ownerA, ClaimWinner);
    ClaimGoes(t.state, p, c, before, ResolvedOf(p), Expected(p).winner, WinnerPaid(p));
    forall a: Account
      ensures Balance(WalletsAfter(t.wallets, t.state, c, p.gas.winner), a)
              == Balance(t.wallets, a) + if a == p.ownerA then Expected(p).winner - p.gas.winner else 0
    {
      WinnerMoves(t.wallets, t.state, p, a);
    }
    ok := t.Send(c, p.gas.winner);
  }

  method ClaimProtocolBucket(t: Treasury, p: Plan, ghost before: map<Id, Pool>) returns (ok: bool)
    requires t.state.pools == before[p.pool := WinnerPaid(p)] && Expected(p).protocol <= t.state.balance
    modifies t
    ensures ok <==> 0 < Expected(p).protocol
    ensures !ok ==> t.state == old(t.state)
    ensures ok ==> t.state ==
                   old(t.state).(pools := before[p.pool := ProtocolPaid(p)],
                                 balance := old(t.state.balance) - Expected(p).protocol,
                                            fill := OperatorSplit(old(t.state.fill), Expected(p).protocol).2)
    ensures ok ==> var (toOperator, toProtocol, _) := OperatorSplit(old(t.state.fill), Expected(p).protocol);
                   forall a: Account :: Balance(t.wallets, a) ==
                     Balance(old(t.wallets), a) + (if a == old(t.state.fill.operator) then toOperator else 0)
                     + (if a == old(t.state.receiver) then toProtocol else 0)
                     - (if a == p.ownerB then p.gas.protocol else 0)
  {
    var c := ClaimCall(p, p.ownerB, ClaimProtocol);
    ClaimGoes(t.state, p, c, before, WinnerPaid(p), Expected(p).protocol, ProtocolPaid(p));
    if 0 < Expected(p).protocol {
      var (toOperator, toProtocol, _) := OperatorSplit(t.state.fill, Expected(p).protocol);
      forall a: Account
        ensures Balance(WalletsAfter(t.wallets, t.state, c, p.gas.protocol), a)
                == Balance(t.wallets, a) + (if a == t.state.fill.operator then toOperator else 0)
                   + (if a == t.state.receiver then toProtocol else 0) - (if a == p.ownerB then p.gas.protocol else 0)
      {
        ProtocolMoves(t.wallets, t.state, p, a);
      }
    }
    ok := t.Send(c, p.gas.protocol);
  }

  method ClaimLeagueBucket(t: Treasury, p: Plan, ghost before: map<Id, Pool>) returns (ok: bool)
    requires t.state.pools == before[p.pool := ProtocolPaid(p)] && Expected(p).league <= t.state.balance
    modifies t
    ensures ok <==> 0 < Expected(p).league && old(t.state.leagueTakes)
    ensures !ok ==> t.state == old(t.state)
    ensures ok ==> t.state ==
                   old(t.state).(pools := before[p.pool := LeaguePaid(p)],
                                 balance := old(t.state.balance) - Expected(p).league)
    ensures ok ==> forall a: Account :: Balance(t.wallets, a) ==
                     Balance(old(t.wallets), a) + (if a == old(t.state.league) then Expected(p).league else 0)
                     - (if a == p.ownerB then p.gas.league else 0)
  {
    var c := ClaimCall(p, p.ownerB, ClaimLeague);
    ClaimGoes(t.state, p, c, before, ProtocolPaid(p), Expected(p).league, LeaguePaid(p));
    if 0 < Expected(p).league && t.state.leagueTakes {
      forall a: Account
        ensures Balance(WalletsAfter(t.wallets, t.state, c, p.gas.league), a)
                == Balance(t.wallets, a) + (if a == t.state.league then Expected(p).league else 0)
                   - (if a == p.ownerB then p.gas.league else 0)
      {
        LeagueMoves(t.wallets, t.state, p, a);
      }
    }
    ok := t.Send(c, p.gas.league);
  }

  // ------------------------------------------------------------------ the whole run

  /** The three receivers' balances move by their buckets, the winner's own gas added back. */
  predicate ReceivedAsExpected(s: State, p: Plan) {
    Moved(s, p, p.ownerA) + p.gas.winner == Expected(p).winner
    && Moved(s, p, s.receiver) == Expected(p).protocol
    && Moved(s, p, s.league) == Expected(p).league
  }

  /** No fee reaches the winner's wallet. */
  predicate NothingToWinner(s: State, p: Plan) {
    var (toOperator, toProtocol, _) := OperatorSplit(s.fill, Expected(p).protocol);
    (s.fill.operator == p.ownerA ==> toOperator == 0) && (s.receiver == p.ownerA ==> toProtocol == 0)
    && (s.league == p.ownerA ==> Expected(p).league == 0)
  }

  /**
   The protocol receiver ends up with its bucket: what the operator takes from it, and the claims' gas if it is the
   wallet that pays it, equals the league's bucket if that is sent there too. On the winner's wallet the prize must do.
   */
  predicate ProtocolArrives(s: State, p: Plan) {
    if s.receiver == p.ownerA then Expected(p).winner == Expected(p).protocol + p.gas.winner
    else
      (if s.fill.operator == s.receiver then 0 else OperatorSplit(s.fill, Expected(p).protocol).0)
      + (if s.receiver == p.ownerB then p.gas.protocol + p.gas.league else 0)
      == if s.league == s.receiver then Expected(p).league else 0
  }

  /** And so does the league: nothing but its bucket arrives, beyond the gas it pays. */
  predicate LeagueArrives(s: State, p: Plan) {
    var (toOperator, toProtocol, _) := OperatorSplit(s.fill, Expected(p).protocol);
    if s.league == p.ownerA then Expected(p).winner == Expected(p).league + p.gas.winner
    else
      (if s.fill.operator == s.league then toOperator else 0) + (if s.receiver == s.league then toProtocol else 0)
      == if s.league == p.ownerB then p.gas.protocol + p.gas.league else 0
  }

  /** When the balances move as expected, whoever the receivers and the operator are. */
  lemma ReceivedExactly(s: State, p: Plan)
    requires p.ownerA != p.ownerB
    ensures ReceivedAsExpected(s, p) <==> NothingToWinner(s, p) && ProtocolArrives(s, p) && LeagueArrives(s, p)
  {
    OperatorSplitExact(s.fill, Expected(p).protocol);
  }

  /** The receivers are neither of the two playing wallets. */
  predicate OffTheWallets(s: State, p: Plan) {
    s.receiver != p.ownerA && s.receiver != p.ownerB && s.league != p.ownerA && s.league != p.ownerB
  }

  /**
   Off the wallets, two receivers get what is expected exactly when the operator gets no part of the protocol payment,
   or is its receiver. One account for both gets its two shares together, each taken for the whole: that passes exactly
   when they are equal and the operator, a third account, takes all of the protocol payment.
   */
  lemma ReceivedOffWallets(s: State, p: Plan)
    requires p.ownerA != p.ownerB && OffTheWallets(s, p)
    ensures var (toOperator, toProtocol, _) := OperatorSplit(s.fill, Expected(p).protocol);
            ReceivedAsExpected(s, p) <==>
              if s.receiver != s.league then toOperator == 0 || s.fill.operator == s.receiver
              else Expected(p).protocol == Expected(p).league && toProtocol == 0
                   && (toOperator == 0 || (s.fill.operator != s.receiver && s.fill.operator != p.ownerA))
  {
    OperatorSplitExact(s.fill, Expected(p).protocol);
  }

  /** For instance the amounts and rate for which the operator takes exactly the protocol's part. */
  lemma SharedReceiverPasses(s: State, p: Plan)
    requires p.stake == 10_000 && p.boost == 30_000 && p.ownerA == 5 && p.ownerB == 6
    requires s.fill == Fill(9, 10_000, 0, 1_000_000_000_000_000_000) && s.receiver == 8 && s.league == 8
    ensures BucketsFilled(p) && ReceivedAsExpected(s, p)
  {
    var amount := Expected(p).protocol;
    assert amount == Expected(p).league && 0 < amount;
    assert amount * s.fill.rate / USD_DENOM == amount;
    TakenPart(amount, amount, amount);
    ReceivedOffWallets(s, p);
  }

  /**
   The default amounts, with an operator to be filled up: nothing reaches the protocol receiver, and the canary fails.
   */
  lemma FilledOperatorFails(s: State, p: Plan)
    requires p.stake == 2_000_000_000_000_000 && p.boost == 1_000_000_000_000_000
    requires s.fill == Fill(9, 1_000_000, 0, 600_000_000) && s.receiver == 8 && s.league == 7 && p.ownerA == 5
             && p.ownerB == 6
    ensures BucketsFilled(p) && OperatorSplit(s.fill, Expected(p).protocol).1 == 0 && !ReceivedAsExpected(s, p)
  {
    var amount := 300_000_000_000_000;
    assert Expected(p).protocol == amount && 0 < Expected(p).league;
    assert amount * s.fill.rate / USD_DENOM == 180_000;
    TakenPart(amount, 180_000, 180_000);
    ReceivedOffWallets(s, p);
  }

  /** Playing the battle changes nothing the balances depend on. */
  lemma PlayedMoves(s: State, p: Plan)
    ensures ReceivedAsExpected(Played(s, p), p) <==> ReceivedAsExpected(s, p)
  {
  }

  /**
   The canary: every transaction must go through (else it stops, which is None) and every failed check adds one to
   `failures`. It passes exactly when the battle is playable, the buckets are filled, the league takes its share and the
   receivers' balances move as expected; whatever other pools the treasury holds are left alone.
   */
  method RunCanary(t: Treasury, p: Plan) returns (outcome: Option<nat>)
    requires Ready(t.state, p)
    modifies t
    ensures outcome.Some? <==> Playable(p) && BucketsFilled(p) && old(t.state.leagueTakes)
    ensures outcome == Some(0) <==> outcome.Some? && ReceivedAsExpected(old(t.state), p)
    ensures outcome.Some? ==> t.state.paused && t.state.balance == old(t.state.balance)
    ensures outcome.Some?
            ==> t.state.pools == old(t.state.pools)[p.pool := LeaguePaid(p)] && Liability(LeaguePaid(p)) == 0
    ensures OthersKept(old(t.state.pools), t.state.pools, p.pool)
  {
    ghost var before := t.state;
    var failures := 0;
    var ok := Play(t, p);
    if !ok {
      return None;
    }
    PlayedMoves(before, p);
    failures := CheckResolved(t, p);
    var received: nat;
    ok, received := ClaimAndCheck(t, p, before.pools);
    if !ok {
      return None;
    }
    failures := failures + received;
    if !t.state.paused {
      ok := t.Transact(Call(0, t.state.owner, 0, p.now, SetDepositsPaused(true)), p.gas.other);
    }
    failures := failures + Check(t.state.paused);
    return Some(failures);
  }

  /** The resolved pool's buckets against the split, and their sum against the money put in. */
  method CheckResolved(t: Treasury, p: Plan) returns (failures: nat)
    requires p.pool in t.state.pools && t.state.pools[p.pool] == ResolvedOf(p)
    ensures failures == 0
  {
    var expected, resolved := Expected(p), t.state.pools[p.pool];
    SplitExact(2 * p.stake, p.boost);
    failures := Check(resolved.pendingWinner == expected.winner) + Check(resolved.pendingProtocol == expected.protocol);
    failures := failures + Check(resolved.pendingLeague == expected.league);
    var pending := resolved.pendingLeague + resolved.pendingProtocol + resolved.pendingWinner;
    failures := failures + Check(pending == 2 * p.stake + p.boost);
  }

  /** Claims, and compares what the receivers got, what the pool is left with and what the treasury paid. */
  method ClaimAndCheck(t: Treasury, p: Plan, ghost before: map<Id, Pool>) returns (ok: bool, failures: nat)
    requires t.state.pools == before[p.pool := ResolvedOf(p)] && 2 * p.stake + p.boost <= t.state.balance && 0 < p.stake
    modifies t
    ensures ok <==> BucketsFilled(p) && old(t.state.leagueTakes)
    ensures ok ==> (failures == 0 <==> ReceivedAsExpected(old(t.state), p))
    ensures ok ==> t.state.pools == before[p.pool := LeaguePaid(p)] && t.state.owner == old(t.state.owner)
    ensures ok ==> t.state.balance == old(t.state.balance) - 2 * p.stake - p.boost
    ensures p.pool in t.state.pools && t.state.pools == before[p.pool := t.state.pools[p.pool]]
  {
    failures := 0;
    var expected, held, receiver, league := Expected(p), t.state.balance, t.state.receiver, t.state.league;
    var winnerBefore := Balance(t.wallets, p.ownerA);
    var protocolBefore := Balance(t.wallets, receiver);
    var leagueBefore := Balance(t.wallets, league);
    ok := ClaimAll(t, p, before);
    if !ok {
      return;
    }
    failures := Check(Balance(t.wallets, p.ownerA) - winnerBefore + p.gas.winner == expected.winner);
    failures := failures + Check(Balance(t.wallets, receiver) - protocolBefore == expected.protocol);
    failures := failures + Check(Balance(t.wallets, league) - leagueBefore == expected.league);
    var after := t.state.pools[p.pool];
    failures := failures + Check(after.claimedWinner && after.claimedProtocol && after.claimedLeague);
    failures := failures + Check(after.pendingWinner + after.pendingProtocol + after.pendingLeague == 0);
    SplitExact(2 * p.stake, p.boost);
    failures := failures + Check(held - t.state.balance == expected.winner + expected.protocol + expected.league);
  }

  function Check(ok: bool): nat { if ok then 0 else 1 }
}
