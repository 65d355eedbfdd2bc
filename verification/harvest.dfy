/**
 The harvest diagnosis: a scan that walks back in chunks until it meets events, per-token totals over what it found, and
 the check of the creator's 80% against the total. `Row.block` is the block an event was emitted in.
 */
module Harvest {

  const LOOKBACK: nat := 5_000
  const CHUNK: nat := 100
  const BPS: nat := 10_000
  const CREATOR_BPS: nat := 8_000

  datatype Row = Row(block: nat, token: nat, collected: nat, creatorPaid: nat, protocolRouted: nat, tx: string)

  /** The node's answer to a query: the events of a block range, in their order. */
  function Query(events: seq<Row>, from: int, last: int): seq<Row> {
    if events == [] then []
    else (if from <= events[0].block <= last then [events[0]] else []) + Query(events[1..], from, last)
  }

  function Floor(latest: nat): nat { if latest < LOOKBACK then 0 else latest - LOOKBACK }

  lemma {:induction false} QueryJoins(events: seq<Row>, from: int, mid: int, last: int)
    requires mid <= last && Query(events, mid + 1, last) == []
    ensures Query(events, from, last) == Query(events, from, mid)
  {
    if events != [] {
      QueryJoins(events[1..], from, mid, last);
    }
  }

  lemma {:induction false} QueryExact(events: seq<Row>, from: int, last: int, e: Row)
    ensures e in Query(events, from, last) <==> e in events && from <= e.block <= last
  {
    if events != [] {
      QueryExact(events[1..], from, last, e);
      assert e in events <==> e == events[0] || e in events[1..];
    }
  }

  lemma {:induction false} EmptyRange(events: seq<Row>, from: int, last: int)
    requires last < from
    ensures Query(events, from, last) == []
  {
    if events != [] {
      EmptyRange(events[1..], from, last);
    }
  }

  lemma QueryEmptyJoins(events: seq<Row>, from: int, mid: int, last: int)
    requires from <= mid + 1 <= last + 1 && Query(events, from, mid) == [] && Query(events, mid + 1, last) == []
    ensures Query(events, from, last) == []
  {
    if mid <= last {
      QueryJoins(events, from, mid, last);
    }
  }

  /** The chunks tile the blocks below `latest`: chunk `k` ends 100 blocks below the one before it. */
  predicate ChunkStart(latest: nat, from: nat) {
    from == Floor(latest) || (latest + 1 - from) % CHUNK == 0
  }

  /** The rows found are all events from the returned block on; none are found only if the whole lookback has none. */
  method HarvestEvents(events: seq<Row>, latest: nat) returns (from: nat, rows: seq<Row>)
    ensures Floor(latest) <= from <= latest && ChunkStart(latest, from)
    ensures rows == Query(events, from, latest)
    ensures rows == [] <==> Query(events, Floor(latest), latest) == []
    ensures rows == [] ==> from == Floor(latest)
    ensures rows != [] ==> Query(events, from + CHUNK, latest) == []
    ensures rows == Query(events, Floor(latest), latest) <==> OneChunk(events, latest)
  {
    var floor := Floor(latest);
    var last: int := latest;
    ghost var k: nat := 0;
    EmptyRange(events, latest + 1, latest);
    while last >= floor
      invariant floor - CHUNK < last <= latest && last == latest - CHUNK * k
      invariant Query(events, last + 1, latest) == []
      invariant last < floor ==> last + 1 == floor
      decreases last
    {
      from := if last - CHUNK + 1 < floor then floor else last - CHUNK + 1;
      rows := Query(events, from, last);
      QueryJoins(events, from, last, latest);
      if |rows| > 0 {
        BeyondChunk(events, last + 1, from + CHUNK, latest);
        NarrowerEmpty(events, floor, from, latest);
        assert from == floor || from == latest - CHUNK * k - CHUNK + 1;
        FoundWholeExactly(events, latest, from, k);
        return;
      }
      QueryEmptyJoins(events, from, last, latest);
      if from == floor {
        break;
      }
      last := last - CHUNK;
      k := k + 1;
    }
    assert Query(events, floor, latest) == [];
    NothingIsOneChunk(events, latest);
    return floor, [];
  }

  /** The chunk, counted back from the newest, that a block falls in. */
  function ChunkOf(latest: nat, block: nat): int { (latest - block) / CHUNK }

  predicate InLookback(latest: nat, e: Row) { Floor(latest) <= e.block <= latest }

  /** All events of the lookback lie in one chunk. */
  predicate OneChunk(events: seq<Row>, latest: nat) {
    forall e, f :: e in events && f in events && InLookback(latest, e) && InLookback(latest, f)
                   ==> ChunkOf(latest, e.block) == ChunkOf(latest, f.block)
  }

  lemma NothingIsOneChunk(events: seq<Row>, latest: nat)
    requires Query(events, Floor(latest), latest) == []
    ensures OneChunk(events, latest)
  {
    forall e | e in events && InLookback(latest, e)
      ensures false
    {
      QueryExact(events, Floor(latest), latest, e);
    }
  }

  lemma ChunkBlocks(latest: nat, from: nat, k: nat, block: nat)
    requires Floor(latest) <= from
             && (from == latest - CHUNK * k - CHUNK + 1
                 || (from == Floor(latest) && latest - CHUNK * k - CHUNK + 1 <= from))
    requires Floor(latest) <= block <= latest - CHUNK * k
    ensures from <= block <==> ChunkOf(latest, block) == k
  {
  }

  /** A scan that stops at chunk `k` found the whole lookback exactly when the lookback's events lie in one chunk. */
  lemma FoundWholeExactly(events: seq<Row>, latest: nat, from: nat, k: nat)
    requires Floor(latest) <= from <= latest - CHUNK * k
    requires from == latest - CHUNK * k - CHUNK + 1 || (from == Floor(latest) && latest - CHUNK * k - CHUNK + 1 <= from)
    requires Query(events, latest - CHUNK * k + 1, latest) == [] && Query(events, from, latest) != []
    ensures Query(events, from, latest) == Query(events, Floor(latest), latest) <==> OneChunk(events, latest)
  {
    ScanCompleteExactly(events, Floor(latest), from, latest);
    forall e | e in events && InLookback(latest, e)
      ensures from <= e.block <==> ChunkOf(latest, e.block) == k
    {
      QueryExact(events, latest - CHUNK * k + 1, latest, e);
      ChunkBlocks(latest, from, k, e.block);
    }
    var found := Query(events, from, latest)[0];
    QueryExact(events, from, latest, found);
    InChunkOf(events, latest, from, k, found);
  }

  lemma InChunkOf(events: seq<Row>, latest: nat, from: nat, k: nat, found: Row)
    requires found in events && InLookback(latest, found) && from <= found.block
    requires forall e :: e in events && InLookback(latest, e) ==> (from <= e.block <==> ChunkOf(latest, e.block) == k)
    ensures (forall e :: e in events && InLookback(latest, e) ==> from <= e.block) <==> OneChunk(events, latest)
  {
  }

  lemma {:induction false} BeyondChunk(events: seq<Row>, from: int, later: int, last: int)
    requires from <= later && Query(events, from, last) == []
    ensures Query(events, later, last) == []
  {
    if events != [] {
      BeyondChunk(events[1..], from, later, last);
    }
  }

  lemma NarrowerEmpty(events: seq<Row>, floor: int, from: int, last: int)
    requires floor <= from
    ensures Query(events, floor, last) == [] ==> Query(events, from, last) == []
  {
    if Query(events, floor, last) == [] {
      BeyondChunk(events, floor, from, last);
    }
  }

  /** The totals cover every event of the lookback exactly when none lies below the block the scan stopped at. */
  lemma {:induction false} ScanCompleteExactly(events: seq<Row>, floor: nat, from: nat, latest: nat)
    requires floor <= from
    ensures Query(events, from, latest) == Query(events, floor, latest)
            <==> forall e :: e in events && floor <= e.block <= latest ==> from <= e.block
  {
    if Query(events, from, latest) == Query(events, floor, latest) {
      forall e | e in events && floor <= e.block <= latest
        ensures from <= e.block
      {
        QueryExact(events, floor, latest, e);
        QueryExact(events, from, latest, e);
      }
    } else if forall e :: e in events && floor <= e.block <= latest ==> from <= e.block {
      SameQuery(events, floor, from, latest);
    }
  }

  lemma {:induction false} SameQuery(events: seq<Row>, floor: nat, from: nat, latest: nat)
    requires floor <= from && forall e :: e in events && floor <= e.block <= latest ==> from <= e.block
    ensures Query(events, from, latest) == Query(events, floor, latest)
  {
    if events != [] {
      assert events[0] in events;
      forall e | e in events[1..] && floor <= e.block <= latest
        ensures from <= e.block
      {
        assert e in events;
      }
      SameQuery(events[1..], floor, from, latest);
    }
  }

  // ------------------------------------------------------------------ totals

  datatype Total = Total(collected: nat, creatorPaid: nat, protocolRouted: nat, txs: seq<string>)

  const NOTHING: Total := Total(0, 0, 0, [])

  /** What the first `n` rows add up to for one token. */
  function SumCollected(rows: seq<Row>, token: nat, n: nat): nat
    requires n <= |rows|
  {
    if n == 0 then 0
    else SumCollected(rows, token, n - 1) + if rows[n - 1].token == token then rows[n - 1].collected else 0
  }

  function SumCreator(rows: seq<Row>, token: nat, n: nat): nat
    requires n <= |rows|
  {
    if n == 0 then 0
    else SumCreator(rows, token, n - 1) + if rows[n - 1].token == token then rows[n - 1].creatorPaid else 0
  }

  function SumProtocol(rows: seq<Row>, token: nat, n: nat): nat
    requires n <= |rows|
  {
    if n == 0 then 0
    else SumProtocol(rows, token, n - 1) + if rows[n - 1].token == token then rows[n - 1].protocolRouted else 0
  }

  predicate Seen(rows: seq<Row>, token: nat, n: nat)
    requires n <= |rows|
  {
    exists i :: 0 <= i < n && rows[i].token == token
  }

  predicate NoRepeat(txs: seq<string>) { forall i, j :: 0 <= i < j < |txs| ==> txs[i] != txs[j] }

  /** The hashes are those of the token's rows, each once. */
  predicate HashesOf(txs: seq<string>, rows: seq<Row>, token: nat, n: nat)
    requires n <= |rows|
  {
    NoRepeat(txs)
    && (forall i :: 0 <= i < n && rows[i].token == token && rows[i].tx != "" ==> rows[i].tx in txs)
    && forall t :: t in txs ==> t != "" && exists i :: 0 <= i < n && rows[i].token == token && rows[i].tx == t
  }

  predicate TotalFor(total: Total, rows: seq<Row>, token: nat, n: nat)
    requires n <= |rows|
  {
    total.collected == SumCollected(rows, token, n) && total.creatorPaid == SumCreator(rows, token, n)
    && total.protocolRouted == SumProtocol(rows, token, n) && HashesOf(total.txs, rows, token, n)
  }

  lemma UnseenTotal(rows: seq<Row>, token: nat, n: nat)
    requires n <= |rows| && !Seen(rows, token, n)
    ensures TotalFor(NOTHING, rows, token, n)
  {
    if 0 < n {
      UnseenTotal(rows, token, n - 1);
    }
  }

  lemma AddedTotal(total: Total, rows: seq<Row>, n: nat)
    requires n < |rows| && TotalFor(total, rows, rows[n].token, n)
    ensures TotalFor(Added(total, rows[n]), rows, rows[n].token, n + 1)
  {
    var row := rows[n];
    var t := Added(total, row).txs;
    forall x | x in t
      ensures x != "" && exists i :: 0 <= i < n + 1 && rows[i].token == row.token && rows[i].tx == x
    {
      if x !in total.txs {
        assert x == rows[n].tx;
      }
    }
  }

  lemma OtherTotal(total: Total, rows: seq<Row>, token: nat, n: nat)
    requires n < |rows| && TotalFor(total, rows, token, n) && rows[n].token != token
    ensures TotalFor(total, rows, token, n + 1)
  {
  }

  function Added(total: Total, row: Row): Total {
    Total(total.collected + row.collected, total.creatorPaid + row.creatorPaid,
          total.protocolRouted + row.protocolRouted,
          if row.tx != "" && row.tx !in total.txs then total.txs + [row.tx] else total.txs)
  }

  /** One total per token seen, holding the sums over that token's rows and their transactions, each named once. */
  method Totals(rows: seq<Row>) returns (totals: map<nat, Total>)
    ensures forall t: nat :: t in totals <==> Seen(rows, t, |rows|)
    ensures forall t: nat :: t in totals ==> TotalFor(totals[t], rows, t, |rows|)
  {
    totals := map[];
    for n := 0 to |rows|
      invariant forall t: nat :: t in totals <==> Seen(rows, t, n)
      invariant forall t: nat :: t in totals ==> TotalFor(totals[t], rows, t, n)
    {
      var row := rows[n];
      var current := if row.token in totals then totals[row.token] else NOTHING;
      if row.token !in totals {
        UnseenTotal(rows, row.token, n);
      }
      AddedTotal(current, rows, n);
      forall t: nat | t in totals && t != row.token
        ensures TotalFor(totals[t], rows, t, n + 1)
      {
        OtherTotal(totals[t], rows, t, n);
      }
      forall t: nat
        ensures Seen(rows, t, n + 1) <==> Seen(rows, t, n) || t == row.token
      {
        assert rows[n].token == row.token;
      }
      totals := totals[row.token := Added(current, row)];
    }
  }

  // ------------------------------------------------------------------ the creator's share

  function CreatorShare(collected: nat): nat { collected * CREATOR_BPS / BPS }

  function Sum(amounts: seq<nat>): nat { if amounts == [] then 0 else amounts[0] + Sum(amounts[1..]) }

  /** What the locker credits the creator: the share of each harvest, rounded down each time. */
  function SumShares(amounts: seq<nat>): nat {
    if amounts == [] then 0 else CreatorShare(amounts[0]) + SumShares(amounts[1..])
  }

  /** The fifths the locker rounds away. */
  function Lost(amounts: seq<nat>): nat { if amounts == [] then 0 else 4 * amounts[0] % 5 + Lost(amounts[1..]) }

  lemma ShareIsFourFifths(collected: nat)
    ensures CreatorShare(collected) == 4 * collected / 5
    ensures 5 * CreatorShare(collected) == 4 * collected - 4 * collected % 5
  {
    assert collected * CREATOR_BPS == 2000 * (4 * collected);
    assert 2000 * (4 * collected) / (2000 * 5) == 4 * collected / 5;
  }

  lemma {:induction false} SharesAddUp(amounts: seq<nat>)
    ensures 5 * SumShares(amounts) + Lost(amounts) == 4 * Sum(amounts)
    ensures Lost(amounts) <= 4 * |amounts|
  {
    if amounts != [] {
      ShareIsFourFifths(amounts[0]);
      SharesAddUp(amounts[1..]);
    }
  }

  /**
   Per-harvest rounding loses at most 4/5 of a unit per harvest, and the accounting is exact exactly when under one unit
   is lost.
   */
  lemma ShareOfTheSum(amounts: seq<nat>)
    ensures SumShares(amounts) <= CreatorShare(Sum(amounts))
    ensures 5 * (CreatorShare(Sum(amounts)) - SumShares(amounts)) <= 4 * |amounts|
    ensures SumShares(amounts) == CreatorShare(Sum(amounts)) <==> Lost(amounts) < 5
  {
    SharesAddUp(amounts);
    ShareIsFourFifths(Sum(amounts));
  }

  // ------------------------------------------------------------------ what the diagnosis compares

  /** One token's amounts, in order. */
  function Amounts(rows: seq<Row>, token: nat): seq<nat> {
    if rows == [] then []
    else (if rows[0].token == token then [rows[0].collected] else []) + Amounts(rows[1..], token)
  }

  lemma {:induction false} SumAppend(xs: seq<nat>, ys: seq<nat>)
    ensures Sum(xs + ys) == Sum(xs) + Sum(ys) && SumShares(xs + ys) == SumShares(xs) + SumShares(ys)
  {
    if xs == [] {
      assert xs + ys == ys;
    } else {
      assert (xs + ys)[1..] == xs[1..] + ys;
      SumAppend(xs[1..], ys);
    }
  }

  lemma AppendAgain(a: seq<nat>, b: seq<nat>, c: seq<nat>)
    ensures (a + b) + c == a + (b + c)
  {
  }

  lemma {:induction false} AmountsAppend(rows: seq<Row>, more: seq<Row>, token: nat)
    ensures Amounts(rows + more, token) == Amounts(rows, token) + Amounts(more, token)
  {
    if rows == [] {
      assert rows + more == more;
    } else {
      assert (rows + more)[1..] == rows[1..] + more;
      AmountsAppend(rows[1..], more, token);
      var first := if rows[0].token == token then [rows[0].collected] else [];
      AppendAgain(first, Amounts(rows[1..], token), Amounts(more, token));
    }
  }

  /** The total a token is shown with is the sum of its amounts. */
  lemma {:induction false} TotalIsSum(rows: seq<Row>, token: nat, n: nat)
    requires n <= |rows|
    ensures SumCollected(rows, token, n) == Sum(Amounts(rows[..n], token))
  {
    if 0 < n {
      TotalIsSum(rows, token, n - 1);
      assert rows[..n] == rows[..n - 1] + [rows[n - 1]];
      AmountsAppend(rows[..n - 1], [rows[n - 1]], token);
      assert [rows[n - 1]][1..] == [];
      SumAppend(Amounts(rows[..n - 1], token), Amounts([rows[n - 1]], token));
    }
  }

  /** Splitting the events at a block splits what the locker credited. */
  lemma {:induction false} SharesSplit(events: seq<Row>, token: nat, from: nat, latest: nat)
    requires from <= latest
    ensures SumShares(Amounts(Query(events, 0, latest), token)) ==
            SumShares(Amounts(Query(events, 0, from - 1), token))
              + SumShares(Amounts(Query(events, from, latest), token))
  {
    if events != [] {
      SharesSplit(events[1..], token, from, latest);
      HeadShares(events, token, 0, latest);
      HeadShares(events, token, 0, from - 1);
      HeadShares(events, token, from, latest);
    }
  }

  lemma HeadShares(events: seq<Row>, token: nat, from: int, last: int)
    requires events != []
    ensures SumShares(Amounts(Query(events, from, last), token)) ==
            (if events[0].token == token && from <= events[0].block <= last
             then CreatorShare(events[0].collected) else 0)
            + SumShares(Amounts(Query(events[1..], from, last), token))
  {
    if from <= events[0].block <= last {
      var rest := Query(events[1..], from, last);
      assert Query(events, from, last) == [events[0]] + rest && ([events[0]] + rest)[1..] == rest;
      if events[0].token == token {
        assert ([events[0].collected] + Amounts(rest, token))[1..] == Amounts(rest, token);
      } else {
        assert Amounts([events[0]] + rest, token) == [] + Amounts(rest, token) == Amounts(rest, token);
      }
    } else {
      assert Query(events, from, last) == Query(events[1..], from, last);
    }
  }

  /** What the locker credited the creator for this token so far. */
  function Accounted(events: seq<Row>, token: nat, latest: nat): nat {
    SumShares(Amounts(Query(events, 0, latest), token))
  }

  /**
   creatorAccountingExact: the diagnosis compares everything the locker ever credited with 80% of what the scan found.
   It finds them equal exactly when what was credited before the scan's first block makes up for the whole units that
   rounding lost after it. With nothing credited before, that is when less than one unit was lost.
   */
  lemma AccountingExactly(events: seq<Row>, token: nat, from: nat, latest: nat)
    requires from <= latest
    ensures var rows := Query(events, from, latest);
            var earlier := SumShares(Amounts(Query(events, 0, from - 1), token));
            && (Accounted(events, token, latest) == CreatorShare(SumCollected(rows, token, |rows|)) <==>
                  earlier == Lost(Amounts(rows, token)) / 5)
            && (earlier == 0 ==>
                  (Accounted(events, token, latest) == CreatorShare(SumCollected(rows, token, |rows|)) <==>
                    Lost(Amounts(rows, token)) < 5))
  {
    var rows := Query(events, from, latest);
    SharesSplit(events, token, from, latest);
    TotalIsSum(rows, token, |rows|);
    assert rows[..|rows|] == rows;
    var amounts := Amounts(rows, token);
    SharesAddUp(amounts);
    ShareIsFourFifths(Sum(amounts));
  }

  /** The protocol's side makes up for it: nothing collected is unaccounted for. */
  lemma NothingUnaccounted(amounts: seq<nat>)
    ensures SumShares(amounts) + SumRest(amounts) == Sum(amounts)
  {
    if amounts != [] {
      ShareIsFourFifths(amounts[0]);
    }
  }

  function SumRest(amounts: seq<nat>): nat {
    if amounts == [] then 0
    else
      ShareIsFourFifths(amounts[0]);
      amounts[0] - CreatorShare(amounts[0]) + SumRest(amounts[1..])
  }
}
