/**
 The arena's war pools: stakes, buy-ins and boosts are held until a pool is resolved, when they are split between the
 winner, the protocol and the league, or cancelled, when they are refunded. Account 0 is the zero address. A call is
 refused as a whole or takes effect as a whole.
 */
module WarPool {
  import opened Common
  import opened Sums

  type Account = nat
  type Id = nat

  const BPS: nat := 10_000
  const ENTRY_LEAGUE_BPS: nat := 2_000
  const ENTRY_PROTOCOL_BPS: nat := 500
  const BOOST_PROTOCOL_BPS: nat := 1_000

  datatype Kind = Battle | Tournament

  datatype Phase = Open | Live | Resolved | Cancelled

  /** `received` and `paidOut` keep count of the money that came in and went out for the pool. */
  datatype Pool = Pool(
    kind: Kind, phase: Phase, ownerA: Account, ownerB: Account, stakeAmount: nat, buyInAmount: nat,
    depositDeadline: nat, resolveDeadline: nat, stakeA: nat, stakeB: nat,
    buyIns: map<Account, nat>, buyInTotal: nat, boosts: map<Account, nat>, boostTotal: nat,
    winner: Account, pendingWinner: nat, pendingProtocol: nat, pendingLeague: nat,
    claimedWinner: bool, claimedProtocol: bool, claimedLeague: bool, refundedA: bool, refundedB: bool,
    received: nat, paidOut: nat)

  /** What the resolver signs. */
  datatype Verdict = Verdict(pool: Id, winner: Account, stakeTotal: nat, buyInTotal: nat, boostTotal: nat,
                             deadline: nat)

  datatype Op =
    | OpenBattle(ownerA: Account, ownerB: Account, stake: nat, depositDeadline: nat, resolveDeadline: nat)
    | OpenTournament(buyIn: nat, depositDeadline: nat, resolveDeadline: nat)
    | DepositStake
    | DepositBuyIn
    | SetLive
    | Boost(units: nat, unitPrice: nat, nonce: nat, deadline: nat, quoted: bool)
    | CancelOpen
    | SettleExpired
    | Resolve(verdict: Option<Verdict>, winner: Account, deadline: nat)
    | ClaimWinner
    | ClaimProtocol
    | ClaimLeague
    | RefundStake
    | RefundBuyIn
    | RefundBoost
    | SetDepositsPaused(paused: bool)
    | SetReceivers(protocol: Account, league: Account)
    | SetOperatorFill(operator: Account, cap: nat, rate: nat)
    | LeagueSwitch(takes: bool)

  datatype Call = Call(pool: Id, sender: Account, value: nat, now: nat, op: Op)

  /** Protocol money goes to the operator until `filled` reaches the cap, in millionths of a dollar at `rate` a coin. */
  datatype Fill = Fill(operator: Account, cap: nat, filled: nat, rate: nat)

  /** `leagueTakes`: the league treasury is not paused and lists this contract as a source. */
  datatype State = State(
    pools: map<Id, Pool>, balance: nat, nonces: set<(Account, nat)>, paused: bool, owner: Account,
    creators: set<Account>,
    fill: Fill, receiver: Account, league: Account, leagueTakes: bool)

  // ------------------------------------------------------------------ the split

  datatype Split = Split(winner: nat, protocol: nat, league: nat)

  function Share(amount: nat, bps: nat): nat { amount * bps / BPS }

  lemma ShareBounds(amount: nat, bps: nat)
    requires bps <= BPS
    ensures BPS * Share(amount, bps) <= amount * bps < BPS * Share(amount, bps) + BPS
    ensures Share(amount, bps) <= amount
  {
    assert amount * bps <= amount * BPS;
  }

  function SplitOf(entry: nat, boost: nat): Split {
    ShareBounds(entry, ENTRY_LEAGUE_BPS);
    ShareBounds(entry, ENTRY_PROTOCOL_BPS);
    ShareBounds(boost, BOOST_PROTOCOL_BPS);
    var league, protocol, boostProtocol := Share(entry, ENTRY_LEAGUE_BPS), Share(entry, ENTRY_PROTOCOL_BPS),
      Share(boost, BOOST_PROTOCOL_BPS);
    Split(entry - league - protocol + (boost - boostProtocol), protocol + boostProtocol, league)
  }

  /**
   The split is exact; the league and the protocol round down and the winner gets what that leaves, less than 3 units.
   */
  lemma SplitExact(entry: nat, boost: nat)
    ensures var s := SplitOf(entry, boost);
            s.winner + s.protocol + s.league == entry + boost
            && BPS * s.league <= 2_000 * entry && BPS * s.protocol <= 500 * entry + 1_000 * boost
            && 7_500 * entry + 9_000 * boost <= BPS * s.winner < 7_500 * entry + 9_000 * boost + 3 * BPS
  {
    ShareBounds(entry, ENTRY_LEAGUE_BPS);
    ShareBounds(entry, ENTRY_PROTOCOL_BPS);
    ShareBounds(boost, BOOST_PROTOCOL_BPS);
  }

  // ------------------------------------------------------------------ the operator's part of a protocol payment

  const USD_DENOM: nat := 1_000_000_000_000_000_000

  /** What goes to the operator, what goes to the protocol receiver, and the fill afterwards. */
  function OperatorSplit(f: Fill, amount: nat): (nat, nat, Fill) {
    var usd := amount * f.rate / USD_DENOM;
    if f.operator == 0 || f.rate == 0 || f.cap <= f.filled || usd == 0 then (0, amount, f)
    else
      var take := Min(usd, f.cap - f.filled);
      TakenPart(amount, take, usd);
      var toOperator := amount * take / usd;
      (toOperator, amount - toOperator, f.(filled := f.filled + take))
  }

  lemma TakenPart(amount: nat, take: nat, usd: nat)
    requires 0 < usd && take <= usd
    ensures amount * take / usd <= amount
    ensures take == usd ==> amount * take / usd == amount
  {
    assert amount * take <= amount * usd;
    assert amount * usd / usd == amount;
  }

  /** Exactly when the operator gets nothing. */
  lemma OperatorGetsNothing(f: Fill, amount: nat)
    ensures OperatorSplit(f, amount).0 == 0 <==>
            var usd := amount * f.rate / USD_DENOM;
            f.operator == 0 || f.rate == 0 || f.cap <= f.filled || usd == 0 || amount * Min(usd, f.cap - f.filled) < usd
  {
    var usd := amount * f.rate / USD_DENOM;
    if 0 < usd && f.filled < f.cap {
      var part := amount * Min(usd, f.cap - f.filled);
      assert part / usd == 0 <==> part < usd;
    }
  }

  /**
   Both parts together are the payment, whatever the rate; the cap is never passed, and below it the operator gets all.
   */
  lemma OperatorSplitExact(f: Fill, amount: nat)
    ensures var (toOperator, toProtocol, g) := OperatorSplit(f, amount);
            toOperator + toProtocol == amount && f.filled <= g.filled && (f.filled <= f.cap ==> g.filled <= g.cap)
            && (g.filled < g.cap && f.filled < g.filled ==> toProtocol == 0)
  {
    var usd := amount * f.rate / USD_DENOM;
    if 0 < usd && f.filled < f.cap {
      TakenPart(amount, Min(usd, f.cap - f.filled), usd);
    }
  }

  // ------------------------------------------------------------------ the calls

  function NewPool(kind: Kind, ownerA: Account, ownerB: Account, stake: nat, buyIn: nat, depositDeadline: nat,
                   resolveDeadline: nat): Pool {
    Pool(kind, Open, ownerA, ownerB, stake, buyIn, depositDeadline, resolveDeadline, 0, 0, map[], 0, map[], 0,
         0, 0, 0, 0, false, false, false, false, false, 0, 0)
  }

  function OpenBattlePool(s: State, c: Call): Option<Pool>
    requires c.op.OpenBattle?
  {
    var op := c.op;
    if c.pool == 0 || op.ownerA == 0 || op.ownerB == 0 || op.ownerA == op.ownerB then None
    else if c.sender != op.ownerA && c.sender != op.ownerB && c.sender !in s.creators && c.sender != s.owner then None
    else if op.stake == 0 || op.depositDeadline <= c.now || op.resolveDeadline <= op.depositDeadline
            || c.pool in s.pools
    then None
    else
      var p := NewPool(Battle, op.ownerA, op.ownerB, op.stake, 0, op.depositDeadline, op.resolveDeadline);
      if c.value == 0 then Some(p)
      else if c.sender != op.ownerA || c.value != op.stake then None
      else Some(p.(stakeA := c.value, received := c.value))
  }

  function OpenTournamentPool(s: State, c: Call): Option<Pool>
    requires c.op.OpenTournament?
  {
    if c.value != 0 || (c.sender !in s.creators && c.sender != s.owner) || c.pool == 0 || c.sender == 0 then None
    else if c.op.depositDeadline <= c.now || c.op.resolveDeadline <= c.op.depositDeadline || c.pool in s.pools then None
    else Some(NewPool(Tournament, c.sender, 0, 0, c.op.buyIn, c.op.depositDeadline, c.op.resolveDeadline))
  }

  function StakeDeposited(p: Pool, c: Call): Option<Pool> {
    if !p.kind.Battle? || !p.phase.Open? || p.depositDeadline < c.now || c.value != p.stakeAmount then None
    else
      var q := p.(received := p.received + c.value);
      if c.sender == p.ownerA then
        if p.stakeA != 0 then None else Some(LiveWhenStaked(q.(stakeA := c.value)))
      else if c.sender == p.ownerB then
        if p.stakeB != 0 then None else Some(LiveWhenStaked(q.(stakeB := c.value)))
      else None
  }

  function LiveWhenStaked(p: Pool): Pool {
    if p.stakeA == p.stakeAmount && p.stakeB == p.stakeAmount then p.(phase := Live) else p
  }

  function BoughtIn(p: Pool, c: Call): Option<Pool> {
    if !p.kind.Tournament? || !p.phase.Open? || p.depositDeadline < c.now then None
    else if p.buyInAmount == 0 || c.value != p.buyInAmount || Get(p.buyIns, c.sender) != 0 then None
    else Some(p.(buyIns := p.buyIns[c.sender := c.value], buyInTotal := p.buyInTotal + c.value,
                 received := p.received + c.value))
  }

  /** A boost of a battle or of a tournament; `quoted` says that the quote signer signed its price. */
  function Boosted(s: State, p: Pool, c: Call): Option<Pool>
    requires c.op.Boost?
  {
    var op := c.op;
    if s.paused || !p.phase.Live? || op.units == 0 || op.unitPrice == 0 || op.deadline < c.now then None
    else if (c.sender, op.nonce) in s.nonces || c.value != op.units * op.unitPrice || !op.quoted then None
    else
      Some(p.(boosts := p.boosts[c.sender := Get(p.boosts, c.sender) + c.value], boostTotal := p.boostTotal + c.value,
              received := p.received + c.value))
  }

  function VerdictFor(id: Id, p: Pool, winner: Account, deadline: nat): Verdict {
    Verdict(id, winner, p.stakeA + p.stakeB, p.buyInTotal, p.boostTotal, deadline)
  }

  function SplitFor(p: Pool): Split { SplitOf(p.stakeA + p.stakeB + p.buyInTotal, p.boostTotal) }

  function ResolvedPool(p: Pool, c: Call): Option<Pool>
    requires c.op.Resolve?
  {
    if !p.phase.Live? || c.op.deadline < c.now || c.op.winner == 0 then None
    else if c.op.verdict != Some(VerdictFor(c.pool, p, c.op.winner, c.op.deadline)) then None
    else
      var split := SplitFor(p);
      Some(p.(phase := Resolved, winner := c.op.winner, pendingWinner := split.winner,
              pendingProtocol := split.protocol, pendingLeague := split.league))
  }

  function Paid(p: Pool, amount: nat): Pool { p.(paidOut := p.paidOut + amount) }

  function WinnerClaimed(p: Pool, c: Call): Option<(Pool, nat)> {
    if !p.phase.Resolved? || c.sender != p.winner || p.pendingWinner == 0 || p.claimedWinner then None
    else Some((Paid(p, p.pendingWinner).(claimedWinner := true, pendingWinner := 0), p.pendingWinner))
  }

  function ProtocolClaimed(p: Pool): Option<(Pool, nat)> {
    if !p.phase.Resolved? || p.pendingProtocol == 0 || p.claimedProtocol then None
    else Some((Paid(p, p.pendingProtocol).(claimedProtocol := true, pendingProtocol := 0), p.pendingProtocol))
  }

  function LeagueClaimed(p: Pool): Option<(Pool, nat)> {
    if !p.phase.Resolved? || p.pendingLeague == 0 || p.claimedLeague then None
    else Some((Paid(p, p.pendingLeague).(claimedLeague := true, pendingLeague := 0), p.pendingLeague))
  }

  function StakeRefunded(p: Pool, c: Call): Option<(Pool, nat)> {
    if !p.phase.Cancelled? || !p.kind.Battle? then None
    else if c.sender == p.ownerA && !p.refundedA then
      if p.stakeA == 0 then None else Some((Paid(p, p.stakeA).(refundedA := true, stakeA := 0), p.stakeA))
    else if c.sender == p.ownerB && !p.refundedB then
      if p.stakeB == 0 then None else Some((Paid(p, p.stakeB).(refundedB := true, stakeB := 0), p.stakeB))
    else None
  }

  function BuyInRefunded(p: Pool, c: Call): Option<(Pool, nat)> {
    var amount := Get(p.buyIns, c.sender);
    if !p.phase.Cancelled? || !p.kind.Tournament? || amount == 0 || p.buyInTotal < amount then None
    else Some((Paid(p, amount).(buyIns := p.buyIns[c.sender := 0], buyInTotal := p.buyInTotal - amount), amount))
  }

  function BoostRefunded(p: Pool, c: Call): Option<(Pool, nat)> {
    var amount := Get(p.boosts, c.sender);
    if !p.phase.Cancelled? || amount == 0 || p.boostTotal < amount then None
    else Some((Paid(p, amount).(boosts := p.boosts[c.sender := 0], boostTotal := p.boostTotal - amount), amount))
  }

  /** The pool after a call that pays out, and how much it pays. */
  function Payout(p: Pool, c: Call): Option<(Pool, nat)> {
    match c.op
    case ClaimWinner => WinnerClaimed(p, c)
    case ClaimProtocol => ProtocolClaimed(p)
    case ClaimLeague => LeagueClaimed(p)
    case RefundStake => StakeRefunded(p, c)
    case RefundBuyIn => BuyInRefunded(p, c)
    case RefundBoost => BoostRefunded(p, c)
    case _ => None
  }

  predicate Pays(op: Op) {
    op.ClaimWinner? || op.ClaimProtocol? || op.ClaimLeague? || op.RefundStake? || op.RefundBuyIn? || op.RefundBoost?
  }

  /** The pool after a call that pays nothing out. */
  function Changed(s: State, c: Call): Option<Pool>
    requires !Pays(c.op) && !Configures(c.op)
  {
    if c.op.OpenBattle? then OpenBattlePool(s, c)
    else if c.op.OpenTournament? then OpenTournamentPool(s, c)
    else if c.pool !in s.pools then None
    else
      var p := s.pools[c.pool];
      match c.op
      case DepositStake => if s.paused then None else StakeDeposited(p, c)
      case DepositBuyIn => if s.paused then None else BoughtIn(p, c)
      case Boost(_, _, _, _, _) => Boosted(s, p, c)
      case Resolve(_, _, _) => if c.value != 0 then None else ResolvedPool(p, c)
      case SetLive =>
        if c.value != 0 || (c.sender !in s.creators && c.sender != s.owner) || !p.kind.Tournament? || !p.phase.Open?
        then None
        else if c.sender != p.ownerA && c.sender != s.owner then None
        else Some(p.(phase := Live))
      case CancelOpen =>
        if c.value != 0 || !p.phase.Open? || c.now <= p.depositDeadline then None else Some(p.(phase := Cancelled))
      case _ =>
        if c.value != 0 || !p.phase.Live? || c.now <= p.resolveDeadline then None else Some(p.(phase := Cancelled))
  }

  function NoncesAfter(s: State, c: Call): set<(Account, nat)> {
    if c.op.Boost? then s.nonces + {(c.sender, c.op.nonce)} else s.nonces
  }

  predicate Configures(op: Op) { op.SetDepositsPaused? || op.SetReceivers? || op.SetOperatorFill? || op.LeagueSwitch? }

  /** The owner's settings, and the league treasury's own switch. */
  function Configured(s: State, c: Call): Option<State>
    requires Configures(c.op)
  {
    if c.value != 0 || (c.sender != s.owner && !c.op.LeagueSwitch?) then None
    else
      match c.op
      case SetDepositsPaused(paused) => Some(s.(paused := paused))
      case SetReceivers(protocol, league) =>
        if protocol == 0 || league == 0 then None else Some(s.(receiver := protocol, league := league))
      case SetOperatorFill(operator, cap, rate) => Some(s.(fill := Fill(operator, cap, s.fill.filled, rate)))
      case LeagueSwitch(takes) => Some(s.(leagueTakes := takes))
  }

  function FillAfter(s: State, c: Call, amount: nat): Fill {
    if c.op.ClaimProtocol? then OperatorSplit(s.fill, amount).2 else s.fill
  }

  /**
   A call's effect on the whole treasury; a payment that the balance does not cover or the league does not take refuses
   the call.
   */
  function Step(s: State, c: Call): Option<State> {
    if Configures(c.op) then Configured(s, c)
    else if Pays(c.op) then
      if c.value != 0 || c.pool !in s.pools || (c.op.ClaimLeague? && !s.leagueTakes) then None
      else
        match Payout(s.pools[c.pool], c)
        case None => None
        case Some((p, amount)) =>
          if s.balance < amount then None
          else Some(s.(pools := s.pools[c.pool := p], balance := s.balance - amount, fill := FillAfter(s, c, amount)))
    else
      match Changed(s, c)
      case None => None
      case Some(p) => Some(s.(pools := s.pools[c.pool := p], balance := s.balance + c.value,
                              nonces := NoncesAfter(s, c)))
  }

  datatype Payment = Payment(to: Account, amount: nat)

  /** Who is sent how much by a call that goes through: a protocol claim may be sent in two parts. */
  function Payments(s: State, c: Call): seq<Payment> {
    if !Pays(c.op) || Step(s, c).None? then []
    else
      var amount := Payout(s.pools[c.pool], c).value.1;
      match c.op
      case ClaimProtocol =>
        var (toOperator, toProtocol, _) := OperatorSplit(s.fill, amount);
        (if 0 < toOperator then [Payment(s.fill.operator, toOperator)] else [])
        + (if 0 < toProtocol then [Payment(s.receiver, toProtocol)] else [])
      case ClaimLeague => [Payment(s.league, amount)]
      case _ => [Payment(c.sender, amount)]
  }

  function Sent(payments: seq<Payment>): nat {
    if payments == [] then 0 else payments[0].amount + Sent(payments[1..])
  }

  function After(s: State, c: Call): State {
    match Step(s, c)
    case None => s
    case Some(t) => t
  }

  function Run(s: State, cs: seq<Call>): State
    decreases |cs|
  {
    if cs == [] then s else Run(After(s, cs[0]), cs[1..])
  }

  // ------------------------------------------------------------------ custody

  /** What the pool still owes: before its end everything put in, after it the buckets not claimed yet. */
  function Liability(p: Pool): nat {
    if p.phase.Resolved? then p.pendingWinner + p.pendingProtocol + p.pendingLeague
    else p.stakeA + p.stakeB + p.buyInTotal + p.boostTotal
  }

  function Liabilities(pools: map<Id, Pool>): map<Id, nat> { map id | id in pools :: Liability(pools[id]) }

  ghost predicate PoolSound(p: Pool) {
    p.received == p.paidOut + Liability(p) && p.buyInTotal == Sum(p.buyIns) && p.boostTotal == Sum(p.boosts)
    && (p.claimedWinner ==> p.pendingWinner == 0) && (p.claimedProtocol ==> p.pendingProtocol == 0)
    && (p.claimedLeague ==> p.pendingLeague == 0)
    && (p.claimedWinner || p.claimedProtocol || p.claimedLeague ==> p.phase.Resolved?)
    && (p.refundedA || p.refundedB ==> p.phase.Cancelled?) && (p.kind.Battle? ==> p.ownerA != p.ownerB)
  }

  ghost predicate Sound(s: State) {
    (forall id :: id in s.pools ==> PoolSound(s.pools[id])) && s.balance == Sum(Liabilities(s.pools))
  }

  lemma PoolsUpdate(pools: map<Id, Pool>, id: Id, p: Pool)
    ensures Sum(Liabilities(pools[id := p])) + (if id in pools then Liability(pools[id]) else 0)
            == Sum(Liabilities(pools)) + Liability(p)
    ensures id in pools ==> Liability(pools[id]) <= Sum(Liabilities(pools))
  {
    SumUpdate(Liabilities(pools), id, Liability(p));
    assert Liabilities(pools[id := p]) == Liabilities(pools)[id := Liability(p)];
  }

  /** The flags that say which buckets were paid. */
  predicate SameFlags(p: Pool, q: Pool) {
    p.claimedWinner == q.claimedWinner && p.claimedProtocol == q.claimedProtocol && p.claimedLeague == q.claimedLeague
    && p.refundedA == q.refundedA && p.refundedB == q.refundedB && p.ownerA == q.ownerA
  }

  /** A bucket paid stays paid. */
  predicate FlagsKept(p: Pool, q: Pool) {
    (p.claimedWinner ==> q.claimedWinner) && (p.claimedProtocol ==> q.claimedProtocol)
      && (p.claimedLeague ==> q.claimedLeague)
    && (p.refundedA ==> q.refundedA) && (p.refundedB ==> q.refundedB) && p.ownerA == q.ownerA
  }

  /** `q` is `p` with `amount` taken out and nothing unpaid again. */
  ghost predicate Drawn(p: Pool, q: Pool, amount: nat) {
    PoolSound(q) && Liability(q) + amount == Liability(p) && FlagsKept(p, q)
  }

  lemma ClaimDraws(p: Pool, c: Call)
    requires PoolSound(p)
    ensures WinnerClaimed(p, c).Some? ==> Drawn(p, WinnerClaimed(p, c).value.0, WinnerClaimed(p, c).value.1)
    ensures ProtocolClaimed(p).Some? ==> Drawn(p, ProtocolClaimed(p).value.0, ProtocolClaimed(p).value.1)
    ensures LeagueClaimed(p).Some? ==> Drawn(p, LeagueClaimed(p).value.0, LeagueClaimed(p).value.1)
  {
  }

  lemma StakeRefundDraws(p: Pool, c: Call)
    requires PoolSound(p) && StakeRefunded(p, c).Some?
    ensures Drawn(p, StakeRefunded(p, c).value.0, StakeRefunded(p, c).value.1)
  {
  }

  lemma BuyInRefundDraws(p: Pool, c: Call)
    requires PoolSound(p) && BuyInRefunded(p, c).Some?
    ensures Drawn(p, BuyInRefunded(p, c).value.0, BuyInRefunded(p, c).value.1)
  {
    SumUpdate(p.buyIns, c.sender, 0);
  }

  lemma BoostRefundDraws(p: Pool, c: Call)
    requires PoolSound(p) && BoostRefunded(p, c).Some?
    ensures Drawn(p, BoostRefunded(p, c).value.0, BoostRefunded(p, c).value.1)
  {
    SumUpdate(p.boosts, c.sender, 0);
  }

  /** A paying call takes from the pool exactly what it pays. */
  lemma PayoutDraws(p: Pool, c: Call)
    requires PoolSound(p) && Payout(p, c).Some?
    ensures Drawn(p, Payout(p, c).value.0, Payout(p, c).value.1)
  {
    match c.op
    case RefundStake => StakeRefundDraws(p, c);
    case RefundBuyIn => BuyInRefundDraws(p, c);
    case RefundBoost => BoostRefundDraws(p, c);
    case _ => ClaimDraws(p, c);
  }

  lemma NewPoolSound(p: Pool)
    requires p.phase.Open? && p.buyIns == map[] && p.boosts == map[] && p.buyInTotal == 0 && p.boostTotal == 0
    requires p.received == p.stakeA + p.stakeB && p.paidOut == 0
    requires p.kind.Battle? ==> p.ownerA != p.ownerB
    requires !p.claimedWinner && !p.claimedProtocol && !p.claimedLeague && !p.refundedA && !p.refundedB
    ensures PoolSound(p)
  {
  }

  /** Any other call adds to the pool exactly the value sent with it. */
  lemma ChangedKeepsSound(s: State, c: Call)
    requires Sound(s) && !Pays(c.op) && !Configures(c.op) && Changed(s, c).Some?
    ensures var q := Changed(s, c).value;
            PoolSound(q) && Liability(q) == (if c.pool in s.pools then Liability(s.pools[c.pool]) else 0) + c.value
  {
    if c.op.OpenBattle? || c.op.OpenTournament? {
      NewPoolSound(Changed(s, c).value);
    } else {
      ExistingKeepsSound(s, c);
    }
  }

  /** `q` is `p` with `value` more put in and the same buckets paid. */
  ghost predicate Grown(p: Pool, q: Pool, value: nat) {
    PoolSound(q) && Liability(q) == Liability(p) + value && SameFlags(p, q)
  }

  lemma StakeAGrows(p: Pool, value: nat)
    requires PoolSound(p) && p.phase.Open? && p.stakeA == 0
    ensures Grown(p, LiveWhenStaked(p.(received := p.received + value, stakeA := value)), value)
  {
  }

  lemma StakeBGrows(p: Pool, value: nat)
    requires PoolSound(p) && p.phase.Open? && p.stakeB == 0
    ensures Grown(p, LiveWhenStaked(p.(received := p.received + value, stakeB := value)), value)
  {
  }

  lemma StakeGrows(p: Pool, c: Call)
    requires PoolSound(p) && StakeDeposited(p, c).Some?
    ensures Grown(p, StakeDeposited(p, c).value, c.value)
  {
    if c.sender == p.ownerA {
      StakeAGrows(p, c.value);
    } else {
      StakeBGrows(p, c.value);
    }
  }

  lemma BuyInGrows(p: Pool, c: Call)
    requires PoolSound(p) && BoughtIn(p, c).Some?
    ensures Grown(p, BoughtIn(p, c).value, c.value)
  {
    SumUpdate(p.buyIns, c.sender, c.value);
  }

  lemma BoostGrows(s: State, p: Pool, c: Call)
    requires PoolSound(p) && c.op.Boost? && Boosted(s, p, c).Some?
    ensures Grown(p, Boosted(s, p, c).value, c.value)
  {
    SumUpdate(p.boosts, c.sender, Get(p.boosts, c.sender) + c.value);
  }

  lemma ResolveGrows(p: Pool, c: Call)
    requires PoolSound(p) && c.op.Resolve? && ResolvedPool(p, c).Some?
    ensures Grown(p, ResolvedPool(p, c).value, 0)
  {
    SplitExact(p.stakeA + p.stakeB + p.buyInTotal, p.boostTotal);
  }

  lemma PhaseGrows(p: Pool, phase: Phase)
    requires PoolSound(p) && (p.phase.Open? || p.phase.Live?) && !phase.Resolved?
    ensures Grown(p, p.(phase := phase), 0)
  {
  }

  lemma ExistingKeepsSound(s: State, c: Call)
    requires !Pays(c.op) && !Configures(c.op) && !c.op.OpenBattle? && !c.op.OpenTournament? && Changed(s, c).Some?
             && PoolSound(s.pools[c.pool])
    ensures Grown(s.pools[c.pool], Changed(s, c).value, c.value)
  {
    var p := s.pools[c.pool];
    match c.op
    case DepositStake => StakeGrows(p, c);
    case DepositBuyIn => BuyInGrows(p, c);
    case Boost(_, _, _, _, _) => BoostGrows(s, p, c);
    case Resolve(_, _, _) => ResolveGrows(p, c);
    case SetLive => PhaseGrows(p, Live);
    case _ => PhaseGrows(p, Cancelled);
  }

  lemma StepKeepsSound(s: State, c: Call)
    requires Sound(s) && Step(s, c).Some?
    ensures Sound(Step(s, c).value)
  {
    if Configures(c.op) {
      return;
    }
    if Pays(c.op) {
      PaymentKeepsSound(s, c);
    } else {
      ChangeKeepsSound(s, c);
    }
  }

  lemma PaymentKeepsSound(s: State, c: Call)
    requires Sound(s) && Step(s, c).Some? && Pays(c.op)
    ensures Sound(Step(s, c).value)
  {
    PayoutDraws(s.pools[c.pool], c);
    PoolsUpdate(s.pools, c.pool, Payout(s.pools[c.pool], c).value.0);
  }

  lemma ChangeKeepsSound(s: State, c: Call)
    requires Sound(s) && Step(s, c).Some? && !Pays(c.op) && !Configures(c.op)
    ensures Sound(Step(s, c).value)
  {
    ChangedKeepsSound(s, c);
    PoolsUpdate(s.pools, c.pool, Changed(s, c).value);
  }

  /** Over every run, with any number of pools and any order of calls, the balance is what the pools still owe. */
  lemma {:induction false} RunKeepsSound(s: State, cs: seq<Call>)
    requires Sound(s)
    ensures Sound(Run(s, cs))
    decreases |cs|
  {
    if cs != [] {
      if Step(s, cs[0]).Some? {
        StepKeepsSound(s, cs[0]);
      }
      RunKeepsSound(After(s, cs[0]), cs[1..]);
    }
  }

  function Received(pools: map<Id, Pool>): map<Id, nat> { map id | id in pools :: pools[id].received }

  function PaidOut(pools: map<Id, Pool>): map<Id, nat> { map id | id in pools :: pools[id].paidOut }

  /** The balance is the sum over the pools of what came in less what was paid out. */
  lemma Conserved(s: State)
    requires Sound(s)
    ensures s.balance + Sum(PaidOut(s.pools)) == Sum(Received(s.pools))
  {
    SumAdds(Received(s.pools), PaidOut(s.pools), Liabilities(s.pools));
  }

  /** What a call sends out is exactly what leaves the balance. */
  lemma PaymentsLeaveBalance(s: State, c: Call)
    requires Step(s, c).Some?
    ensures Step(s, c).value.balance + Sent(Payments(s, c)) == s.balance + c.value
  {
    if Pays(c.op) {
      PaymentsAreThePayout(s, c);
    }
  }

  /** In one part or in two, what is sent is what the pool pays out. */
  lemma PaymentsAreThePayout(s: State, c: Call)
    requires Pays(c.op) && Step(s, c).Some?
    ensures Sent(Payments(s, c)) == Payout(s.pools[c.pool], c).value.1
  {
    var amount := Payout(s.pools[c.pool], c).value.1;
    if c.op.ClaimProtocol? {
      OperatorSplitExact(s.fill, amount);
      var (toOperator, toProtocol, _) := OperatorSplit(s.fill, amount);
      SentJoined(if 0 < toOperator then [Payment(s.fill.operator, toOperator)] else [],
                 if 0 < toProtocol then [Payment(s.receiver, toProtocol)] else []);
    }
  }

  lemma {:induction false} SentJoined(xs: seq<Payment>, ys: seq<Payment>)
    ensures Sent(xs + ys) == Sent(xs) + Sent(ys)
  {
    if xs == [] {
      assert xs + ys == ys;
    } else {
      assert (xs + ys)[1..] == xs[1..] + ys;
      SentJoined(xs[1..], ys);
    }
  }

  /** No claim or refund ever fails for want of money. */
  lemma PayoutsSolvent(s: State, c: Call)
    requires Sound(s) && Pays(c.op)
    ensures Step(s, c).Some? <==>
            c.value == 0 && c.pool in s.pools && (c.op.ClaimLeague? ==> s.leagueTakes)
              && Payout(s.pools[c.pool], c).Some?
  {
    if c.pool in s.pools && Payout(s.pools[c.pool], c).Some? {
      PayoutDraws(s.pools[c.pool], c);
      PoolsUpdate(s.pools, c.pool, s.pools[c.pool]);
    }
  }

  // ------------------------------------------------------------------ every bucket once

  datatype Bucket = Winner | Protocol | League | SideA | SideB

  predicate Closed(p: Pool, b: Bucket) {
    match b
    case Winner => p.claimedWinner
    case Protocol => p.claimedProtocol
    case League => p.claimedLeague
    case SideA => p.refundedA
    case SideB => p.refundedB
  }

  /** The bucket a paying call draws on, apart from buy-ins and boosts. */
  function BucketOf(p: Pool, c: Call): Option<Bucket> {
    match c.op
    case ClaimWinner => Some(Winner)
    case ClaimProtocol => Some(Protocol)
    case ClaimLeague => Some(League)
    case RefundStake => if c.sender == p.ownerA then Some(SideA) else Some(SideB)
    case _ => None
  }

  lemma PaidCloses(p: Pool, c: Call, b: Bucket)
    requires PoolSound(p) && Payout(p, c).Some? && BucketOf(p, c) == Some(b)
    ensures !Closed(p, b) && Closed(Payout(p, c).value.0, b)
  {
  }

  lemma StaysClosed(s: State, c: Call, id: Id, b: Bucket)
    requires Sound(s) && id in s.pools && Closed(s.pools[id], b)
    ensures var t := After(s, c); id in t.pools && Closed(t.pools[id], b) && t.pools[id].ownerA == s.pools[id].ownerA
  {
    if c.pool == id && !Configures(c.op) {
      if !Pays(c.op) {
        ClosedTakesNothing(s, c, b);
      } else if Step(s, c).Some? {
        PayoutKeepsClosed(s.pools[id], c, b);
      }
    }
  }

  lemma PayoutKeepsClosed(p: Pool, c: Call, b: Bucket)
    requires PoolSound(p) && Payout(p, c).Some? && Closed(p, b)
    ensures Closed(Payout(p, c).value.0, b) && Payout(p, c).value.0.ownerA == p.ownerA
  {
    PayoutDraws(p, c);
  }

  /** A pool that paid from a bucket is over: it takes no deposit, verdict or cancellation any more. */
  lemma ClosedTakesNothing(s: State, c: Call, b: Bucket)
    requires Sound(s) && c.pool in s.pools && Closed(s.pools[c.pool], b) && !Pays(c.op) && !Configures(c.op)
    ensures Step(s, c).None?
  {
  }

  /** Over every run after a bucket was paid, a call that draws on it is refused. */
  lemma {:induction false} PaidOnce(s: State, cs: seq<Call>, c: Call, b: Bucket)
    requires Sound(s) && c.pool in s.pools && Closed(s.pools[c.pool], b) && Pays(c.op)
             && BucketOf(s.pools[c.pool], c) == Some(b)
    ensures Step(Run(s, cs), c).None?
    decreases |cs|
  {
    if cs == [] {
      if Payout(s.pools[c.pool], c).Some? {
        PaidCloses(s.pools[c.pool], c, b);
        assert false;
      }
    } else {
      StaysClosed(s, cs[0], c.pool, b);
      if Step(s, cs[0]).Some? {
        StepKeepsSound(s, cs[0]);
      }
      PaidOnce(After(s, cs[0]), cs[1..], c, b);
    }
  }

  /** The wallet has nothing left to be refunded, and the pool takes nothing in any more. */
  predicate Emptied(s: State, c: Call) {
    c.pool in s.pools && s.pools[c.pool].phase.Cancelled?
    && (c.op.RefundBuyIn? ==> Get(s.pools[c.pool].buyIns, c.sender) == 0)
    && (c.op.RefundBoost? ==> Get(s.pools[c.pool].boosts, c.sender) == 0)
  }

  lemma RefundEmpties(s: State, c: Call)
    requires (c.op.RefundBuyIn? || c.op.RefundBoost?) && Step(s, c).Some?
    ensures Emptied(Step(s, c).value, c)
  {
  }

  lemma CancelledTakesNothing(s: State, d: Call)
    requires d.pool in s.pools && s.pools[d.pool].phase.Cancelled? && !Pays(d.op) && !Configures(d.op)
    ensures Changed(s, d).None?
  {
  }

  /** A paying call on a cancelled pool leaves it cancelled and an emptied wallet empty. */
  lemma PayoutKeepsEmptied(p: Pool, d: Call, who: Account)
    requires p.phase.Cancelled? && Payout(p, d).Some?
    ensures var q := Payout(p, d).value.0;
            q.phase.Cancelled? && (Get(p.buyIns, who) == 0 ==> Get(q.buyIns, who) == 0)
            && (Get(p.boosts, who) == 0 ==> Get(q.boosts, who) == 0)
  {
    match d.op
    case RefundStake =>
    case RefundBuyIn =>
    case RefundBoost =>
    case _ =>
  }

  lemma StaysEmptied(s: State, c: Call, d: Call)
    requires Emptied(s, c)
    ensures Emptied(After(s, d), c)
  {
    if d.pool == c.pool && Step(s, d).Some? && !Configures(d.op) {
      if Pays(d.op) {
        PayoutKeepsEmptied(s.pools[c.pool], d, c.sender);
      } else {
        CancelledTakesNothing(s, d);
      }
    }
  }

  lemma {:induction false} EmptiedStaysRefused(s: State, cs: seq<Call>, c: Call)
    requires (c.op.RefundBuyIn? || c.op.RefundBoost?) && Emptied(s, c)
    ensures Step(Run(s, cs), c).None?
    decreases |cs|
  {
    if cs != [] {
      StaysEmptied(s, c, cs[0]);
      EmptiedStaysRefused(After(s, cs[0]), cs[1..], c);
    }
  }

  /** What a wallet put in as a buy-in or a boost is refunded once: over every later run it is refused. */
  lemma WalletRefundedOnce(s: State, c: Call, cs: seq<Call>)
    requires (c.op.RefundBuyIn? || c.op.RefundBoost?) && Step(s, c).Some?
    ensures Step(Run(Step(s, c).value, cs), c).None?
  {
    RefundEmpties(s, c);
    EmptiedStaysRefused(Step(s, c).value, cs, c);
  }

  /** Paying one bucket leaves the pool's other buckets as they were, and claims of two buckets commute. */
  lemma ClaimsCommute(p: Pool, c: Call, d: Call)
    requires c.op != d.op && (c.op.ClaimWinner? || c.op.ClaimProtocol? || c.op.ClaimLeague?)
    requires d.op.ClaimWinner? || d.op.ClaimProtocol? || d.op.ClaimLeague?
    requires Payout(p, c).Some? && Payout(p, d).Some?
    ensures var (q, first) := Payout(p, c).value;
            var (r, second) := Payout(p, d).value;
            Payout(q, d).Some? && Payout(r, c).Some? && Payout(q, d).value.1 == second && Payout(r, c).value.1 == first
            && Payout(q, d).value.0 == Payout(r, c).value.0
  {
  }

  /** A verdict signed before a boost no longer resolves the pool. */
  lemma VerdictBindsBoosts(s: State, boost: Call, resolve: Call)
    requires boost.op.Boost? && resolve.op.Resolve? && boost.pool == resolve.pool
    requires Step(s, boost).Some? && Step(s, resolve).Some?
    ensures Step(Step(s, boost).value, resolve).None?
  {
    assert 0 < boost.op.units * boost.op.unitPrice;
  }

  /**
   A live pool past its deadline can be released by anyone, after which everything put in is refundable and no more.
   */
  lemma ExpiredIsRefundable(s: State, c: Call)
    requires Sound(s) && c.op.SettleExpired? && c.value == 0 && c.pool in s.pools && s.pools[c.pool].phase.Live?
    ensures Step(s, c).Some? <==> s.pools[c.pool].resolveDeadline < c.now
    ensures Step(s, c).Some?
            ==> Liability(Step(s, c).value.pools[c.pool]) == Liability(s.pools[c.pool]) &&
                Step(s, c).value.balance == s.balance
  {
  }
}
