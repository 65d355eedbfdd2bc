/**
 The payout vaults' epochs: calendar months and quarters from the one containing a moment, their ids, and the Safe batch
 that authorizes them. Moments are milliseconds since 1970, windows are in seconds.
 */
module PayoutVaults {
  import opened Common
  import opened Words
  import opened Abi
  import opened Calendar

  const DAY: int := 86_400
  const MILLIS: int := 86_400_000
  const PUBLISH_WINDOW: int := 730 * DAY
  const MONTHLY_CODE: int := 3
  const QUARTERLY_CODE: int := 4

  datatype Kind = Monthly | Quarterly

  /** A period's label, `2026-03` or `2026-Q1`, before it is written out. */
  datatype Title = Title(year: int, part: int)

  datatype Window = Window(start: int, end: int, title: Title)

  function Step(kind: Kind): int { if kind.Monthly? then 1 else 3 }

  /** A period of this kind may start with this month of the year. */
  predicate Starts(kind: Kind, month: int) { kind.Quarterly? ==> month % 3 == 0 }

  /** `Date.UTC(year, month, 1) / 1000`, which takes the years 0 to 99 for 1900 to 1999. */
  function UtcSeconds(year: int, month: int): int
    requires 0 <= month < 12
  {
    DAY * MakeDay(if 0 <= year <= 99 then 1900 + year else year, month)
  }

  /** The month `Date.UTC` takes month `k` for. */
  function Taken(k: int): int { if 0 <= k < 1200 then k + 12 * 1900 else k }

  function Start(k: int): int { DAY * DayOfMonth(Taken(k)) }

  lemma UtcIsStart(year: int, month: int)
    requires 0 <= month < 12
    ensures UtcSeconds(year, month) == Start(12 * year + month)
  {
    MakeDayCounts(if 0 <= year <= 99 then 1900 + year else year, month);
  }

  function TitleOf(kind: Kind, k: int): Title {
    Title(k / 12, if kind.Monthly? then k % 12 + 1 else k % 12 / 3 + 1)
  }

  /** The period that starts with month `k`. */
  function WindowAt(kind: Kind, k: int): Window { Window(Start(k), Start(k + Step(kind)), TitleOf(kind, k)) }

  function DayOf(millis: int): int { millis / MILLIS }

  /** The month the first period starts with. */
  function FirstMonth(kind: Kind, millis: int): int {
    var year, month := YearOf(DayOf(millis)), MonthOf(DayOf(millis));
    12 * year + if kind.Monthly? then month else month / 3 * 3
  }

  /** The first month of period `i`, counted from the one that starts with month `first`. */
  function MonthOfPeriod(kind: Kind, first: int, i: int): int { if kind.Monthly? then first + i else first + 3 * i }

  /** The first `count` periods in closed form. */
  function Windows(kind: Kind, first: int, count: nat): (ws: seq<Window>)
    ensures |ws| == count
  {
    if count == 0 then [] else Windows(kind, first, count - 1) + [WindowAt(kind, MonthOfPeriod(kind, first, count - 1))]
  }

  lemma {:induction false} WindowsAt(kind: Kind, first: int, count: nat, i: nat)
    requires i < count
    ensures Windows(kind, first, count)[i] == WindowAt(kind, MonthOfPeriod(kind, first, i))
  {
    if i < count - 1 {
      WindowsAt(kind, first, count - 1, i);
    }
  }

  method PeriodWindows(kind: Kind, millis: int, count: nat) returns (out: seq<Window>)
    ensures out == Windows(kind, FirstMonth(kind, millis), count)
  {
    var year := YearOf(DayOf(millis));
    var month := MonthOf(DayOf(millis));
    if kind.Quarterly? {
      month := month / 3 * 3;
    }
    out := PeriodsFrom(kind, year, month, count, FirstMonth(kind, millis));
  }

  method PeriodsFrom(kind: Kind, year0: int, month0: int, count: nat, ghost first: int) returns (out: seq<Window>)
    requires 0 <= month0 < 12 && Starts(kind, month0) && first == 12 * year0 + month0
    ensures out == Windows(kind, first, count)
  {
    out := [];
    var year, month := year0, month0;
    for i := 0 to count
      invariant 0 <= month < 12 && Starts(kind, month)
      invariant 12 * year + month == MonthOfPeriod(kind, first, i)
      invariant out == Windows(kind, first, i)
    {
      var w, nextYear, nextMonth := Round(kind, year, month);
      out := out + [w];
      NextWindow(kind, first, i, 12 * year + month);
      year, month := nextYear, nextMonth;
    }
  }

  /** One round of the loop: the window, and the year and month the next round starts with. */
  method Round(kind: Kind, year: int, month: int) returns (w: Window, nextYear: int, nextMonth: int)
    requires 0 <= month < 12 && Starts(kind, month)
    ensures w == WindowAt(kind, 12 * year + month)
    ensures 0 <= nextMonth < 12 && Starts(kind, nextMonth)
            && 12 * nextYear + nextMonth == 12 * year + month + Step(kind)
  {
    var next := month + Step(kind);
    nextYear, nextMonth := year + next / 12, next % 12;
    Advance(kind, year, month);
    SpelledIsWindow(kind, year, month, nextYear, nextMonth);
    w := Spelled(kind, year, month, nextYear, nextMonth);
  }

  lemma NextWindow(kind: Kind, first: int, i: nat, k: int)
    requires k == MonthOfPeriod(kind, first, i)
    ensures Windows(kind, first, i + 1) == Windows(kind, first, i) + [WindowAt(kind, k)]
    ensures MonthOfPeriod(kind, first, i + 1) == k + Step(kind)
  {
  }

  /** One round's window, from the year and month the round starts with and those the next one starts with. */
  function Spelled(kind: Kind, year: int, month: int, nextYear: int, nextMonth: int): Window
    requires 0 <= month < 12 && 0 <= nextMonth < 12
  {
    Window(UtcSeconds(year, month), UtcSeconds(nextYear, nextMonth),
           Title(year, if kind.Monthly? then month + 1 else month / 3 + 1))
  }

  lemma SpelledIsWindow(kind: Kind, year: int, month: int, nextYear: int, nextMonth: int)
    requires 0 <= month < 12 && 0 <= nextMonth < 12 && 12 * nextYear + nextMonth == 12 * year + month + Step(kind)
    ensures Spelled(kind, year, month, nextYear, nextMonth) == WindowAt(kind, 12 * year + month)
  {
    UtcIsStart(year, month);
    UtcIsStart(nextYear, nextMonth);
    NextIndex(year, month);
  }

  lemma Advance(kind: Kind, year: int, month: int)
    requires 0 <= month < 12 && Starts(kind, month)
    ensures var next := month + Step(kind);
            12 * (year + next / 12) + next % 12 == 12 * year + month + Step(kind) && Starts(kind, next % 12)
  {
  }

  // ------------------------------------------------------------------ the windows against the calendar

  /** From the year 100 on the start of a month is the calendar's own. */
  lemma StartIs(k: int)
    requires 1200 <= k
    ensures Start(k) == DAY * DayOfMonth(k)
  {
  }

  predicate Contains(w: Window, millis: int) { 1000 * w.start <= millis < 1000 * w.end }

  lemma ContainsDays(w: Window, lo: int, hi: int, millis: int)
    requires w.start == DAY * lo && w.end == DAY * hi
    ensures Contains(w, millis) <==> lo <= DayOf(millis) < hi
  {
    assert MILLIS * DayOf(millis) <= millis < MILLIS * (DayOf(millis) + 1);
  }

  lemma FirstMonthSpans(kind: Kind, year: int, month: int, k: int)
    requires 0 <= month < 12 && k == 12 * year + if kind.Monthly? then month else month / 3 * 3
    ensures k / 12 == year && k <= 12 * year + month < k + Step(kind)
  {
  }

  /** The calendar's own days of the first period hold the day asked for. */
  lemma FirstPeriodHoldsDay(kind: Kind, millis: int)
    ensures var k := FirstMonth(kind, millis);
            k / 12 == YearOf(DayOf(millis)) && DayOfMonth(k) <= DayOf(millis) < DayOfMonth(k + Step(kind))
  {
    var day := DayOf(millis);
    var k := FirstMonth(kind, millis);
    DayInItsMonth(day);
    FirstMonthSpans(kind, YearOf(day), MonthOf(day), k);
    InSpan(day, MonthIndex(day), k, k + Step(kind));
  }

  /**
   The first window contains the moment it was asked for, exactly when that moment's year is not one `Date.UTC`
   misreads.
   */
  lemma FirstWindowContains(kind: Kind, millis: int)
    ensures Contains(WindowAt(kind, FirstMonth(kind, millis)), millis) <==> !(0 <= YearOf(DayOf(millis)) <= 99)
  {
    FirstPeriodHoldsDay(kind, millis);
    PeriodContains(kind, FirstMonth(kind, millis), millis);
  }

  lemma PeriodContains(kind: Kind, k: int, millis: int)
    requires DayOfMonth(k) <= DayOf(millis) < DayOfMonth(k + Step(kind))
    ensures Contains(WindowAt(kind, k), millis) <==> !(0 <= k / 12 <= 99)
  {
    if 0 <= k < 1200 {
      MisreadMisses(kind, k, millis);
    } else {
      ReadContains(kind, k, millis);
    }
  }

  lemma ReadContains(kind: Kind, k: int, millis: int)
    requires !(0 <= k < 1200) && DayOfMonth(k) <= DayOf(millis) < DayOfMonth(k + Step(kind))
    ensures Contains(WindowAt(kind, k), millis)
  {
    LaterMonth(k + Step(kind), Taken(k + Step(kind)));
    EndsLater(WindowAt(kind, k), DayOfMonth(k), DayOfMonth(k + Step(kind)), millis);
  }

  lemma MisreadMisses(kind: Kind, k: int, millis: int)
    requires 0 <= k < 1200 && DayOf(millis) < DayOfMonth(k + Step(kind))
    ensures !Contains(WindowAt(kind, k), millis)
  {
    LaterMonth(k + Step(kind), Taken(k));
    StartsLater(WindowAt(kind, k), DayOfMonth(Taken(k)), millis);
  }

  lemma LaterMonth(j: int, k: int)
    requires j <= k
    ensures DayOfMonth(j) <= DayOfMonth(k)
  {
    MonthsIncrease(j, k);
  }

  lemma StartsLater(w: Window, lo: int, millis: int)
    requires w.start == DAY * lo && DayOf(millis) < lo
    ensures !Contains(w, millis)
  {
  }

  lemma EndsLater(w: Window, lo: int, hi: int, millis: int)
    requires w.start == DAY * lo && DAY * hi <= w.end && lo <= DayOf(millis) < hi
    ensures Contains(w, millis)
  {
    ContainsDays(Window(w.start, DAY * hi, w.title), lo, hi, millis);
  }

  /** Consecutive windows meet. */
  lemma WindowsMeet(kind: Kind, first: int, i: nat)
    ensures WindowAt(kind, MonthOfPeriod(kind, first, i)).end == WindowAt(kind, MonthOfPeriod(kind, first, i + 1)).start
  {
    assert MonthOfPeriod(kind, first, i + 1) == MonthOfPeriod(kind, first, i) + Step(kind);
  }

  lemma StartsIncrease(j: int, k: int)
    requires 1200 <= j < k
    ensures Start(j) < Start(k)
  {
    StartIs(j);
    StartIs(k);
    MonthsIncrease(j, k);
  }

  /** A quarter is its three months put together. */
  lemma QuarterIsThreeMonths(k: int)
    ensures WindowAt(Quarterly, k).start == WindowAt(Monthly, k).start
    ensures WindowAt(Monthly, k).end == WindowAt(Monthly, k + 1).start
            && WindowAt(Monthly, k + 1).end == WindowAt(Monthly, k + 2).start
    ensures WindowAt(Quarterly, k).end == WindowAt(Monthly, k + 2).end
  {
  }

  /** Which of the periods from month `first` on a month belongs to. */
  function PeriodOf(kind: Kind, first: int, month: int): int {
    if kind.Monthly? then month - first else (month - first) / 3
  }

  lemma ContainsMonths(kind: Kind, k: int, millis: int)
    requires 1200 <= k
    ensures Contains(WindowAt(kind, k), millis) <==> k <= MonthIndex(DayOf(millis)) < k + Step(kind)
  {
    ContainsDays(WindowAt(kind, k), DayOfMonth(k), DayOfMonth(k + Step(kind)), millis);
    DayInItsMonth(DayOf(millis));
    InSpan(DayOf(millis), MonthIndex(DayOf(millis)), k, k + Step(kind));
  }

  lemma PeriodOfMonth(kind: Kind, first: int, month: int, i: nat)
    ensures var k := MonthOfPeriod(kind, first, i); k <= month < k + Step(kind) <==> i == PeriodOf(kind, first, month)
  {
  }

  /** From the year 100 on every moment lies in exactly one window of an endless run. */
  lemma OneWindowPerMoment(kind: Kind, first: int, millis: int, i: nat)
    requires 1200 <= first
    ensures Contains(WindowAt(kind, MonthOfPeriod(kind, first, i)), millis)
            <==> i == PeriodOf(kind, first, MonthIndex(DayOf(millis)))
  {
    ContainsMonths(kind, MonthOfPeriod(kind, first, i), millis);
    PeriodOfMonth(kind, first, MonthIndex(DayOf(millis)), i);
  }

  lemma InSpan(day: int, month: int, lo: int, hi: int)
    requires DayOfMonth(month) <= day < DayOfMonth(month + 1) && lo < hi
    ensures DayOfMonth(lo) <= day < DayOfMonth(hi) <==> lo <= month < hi
  {
    if lo <= month {
      MonthsIncrease(lo, month);
    } else {
      MonthsIncrease(month + 1, lo);
    }
    if month < hi {
      MonthsIncrease(month + 1, hi);
    } else {
      MonthsIncrease(hi, month);
    }
  }

  // ------------------------------------------------------------------ epoch ids

  type Hash = seq<Byte> -> nat

  ghost predicate Injective(hash: Hash) { forall a, b :: hash(a) == hash(b) ==> a == b }

  function EpochTypes(): seq<Ty> { [UInt(4), UInt(1), UInt(8)] }

  function EpochValues(chainId: int, code: int, start: int): seq<Val> { [IntVal(chainId), IntVal(code), IntVal(start)] }

  /** The id of the epoch, unless one of its parts does not fit its type. */
  function MwlEpochId(hash: Hash, chainId: int, code: int, start: int): Option<nat> {
    if AllWellTyped(EpochTypes(), EpochValues(chainId, code, start))
    then Some(hash(EncAll(EpochTypes(), EpochValues(chainId, code, start))))
    else None
  }

  lemma EpochSize(vs: seq<Val>)
    requires AllWellTyped(EpochTypes(), vs)
    ensures Fits(|EncAll(EpochTypes(), vs)|, WORD)
  {
    var tys := EpochTypes();
    assert tys[1..] == [UInt(1), UInt(8)] && tys[1..][1..] == [UInt(8)] && tys[1..][1..][1..] == [];
    EachSized(tys, vs);
    StaticSizes(tys, vs);
    assert HeadSizes(tys) == 96;
    assert Fits(96 / 256, WORD - 1) by {
      FitsLess(0, 0, 0, WORD - 1);
    }
  }

  /** Different epochs have different ids. */
  lemma EpochIdsDiffer(hash: Hash, chainId: int, code: int, start: int, code': int, start': int)
    requires Injective(hash)
    requires MwlEpochId(hash, chainId, code, start).Some?
    requires MwlEpochId(hash, chainId, code, start) == MwlEpochId(hash, chainId, code', start')
    ensures code == code' && start == start'
  {
    var vs, ws := EpochValues(chainId, code, start), EpochValues(chainId, code', start');
    EpochSize(vs);
    EncodingInjective(EpochTypes(), vs, ws);
    assert vs[1] == ws[1] && vs[2] == ws[2];
  }

  // ------------------------------------------------------------------ the Safe batch

  datatype VaultCall =
    | SetReceivers(monthly: nat, quarterly: nat)
    | SetClaimCaps(vault: nat, perClaim: nat, total: nat)
    | SetClaimsPaused(vault: nat, paused: bool)
    | AuthorizeEpoch(vault: nat, id: nat, max: nat, publishAfter: int, deadline: int)

  datatype Setup = Setup(chainId: int, monthlyVault: nat, quarterlyVault: nat, monthlyMax: nat, quarterlyMax: nat)

  datatype Epoch = Epoch(vault: nat, max: nat, code: int, window: Window)

  function Epochs(vault: nat, max: nat, code: int, ws: seq<Window>): (es: seq<Epoch>)
    ensures |es| == |ws| && forall i :: 0 <= i < |ws| ==> es[i] == Epoch(vault, max, code, ws[i])
  {
    if ws == [] then [] else [Epoch(vault, max, code, ws[0])] + Epochs(vault, max, code, ws[1..])
  }

  /** Every epoch of the batch: the months, then the quarters. */
  function AllEpochs(setup: Setup, millis: int, months: nat, quarters: nat): seq<Epoch> {
    Epochs(setup.monthlyVault, setup.monthlyMax, MONTHLY_CODE, Windows(Monthly, FirstMonth(Monthly, millis), months))
    + Epochs(setup.quarterlyVault, setup.quarterlyMax, QUARTERLY_CODE,
             Windows(Quarterly, FirstMonth(Quarterly, millis), quarters))
  }

  function IdOf(hash: Hash, chainId: int, e: Epoch): Option<nat> { MwlEpochId(hash, chainId, e.code, e.window.start) }

  /** One call per epoch: publishable from the epoch's end until two years later. */
  function Authorizes(hash: Hash, chainId: int, e: Epoch, call: VaultCall): bool {
    IdOf(hash, chainId, e).Some?
    && call == AuthorizeEpoch(e.vault, IdOf(hash, chainId, e).value, e.max, e.window.end, e.window.end + PUBLISH_WINDOW)
  }

  predicate AuthorizeInOrder(hash: Hash, chainId: int, es: seq<Epoch>, calls: seq<VaultCall>) {
    |calls| == |es| && forall i :: 0 <= i < |es| ==> Authorizes(hash, chainId, es[i], calls[i])
  }

  method AuthorizeAll(hash: Hash, chainId: int, vault: nat, max: nat, code: int, ws: seq<Window>)
    returns (r: Option<seq<VaultCall>>)
    ensures r.Some? ==> AuthorizeInOrder(hash, chainId, Epochs(vault, max, code, ws), r.value)
    ensures r.None? ==> exists e :: e in Epochs(vault, max, code, ws) && IdOf(hash, chainId, e).None?
  {
    var calls: seq<VaultCall> := [];
    ghost var es := Epochs(vault, max, code, ws);
    for i := 0 to |ws|
      invariant |calls| == i
      invariant forall j :: 0 <= j < i ==> Authorizes(hash, chainId, es[j], calls[j])
    {
      var id := MwlEpochId(hash, chainId, code, ws[i].start);
      if id.None? {
        assert es[i] in es;
        return None;
      }
      calls := calls + [AuthorizeEpoch(vault, id.value, max, ws[i].end, ws[i].end + PUBLISH_WINDOW)];
    }
    return Some(calls);
  }

  function OpeningCalls(setup: Setup): seq<VaultCall> {
    [SetReceivers(setup.monthlyVault, setup.quarterlyVault),
     SetClaimCaps(setup.monthlyVault, setup.monthlyMax, setup.monthlyMax), SetClaimsPaused(setup.monthlyVault, false),
     SetClaimCaps(setup.quarterlyVault, setup.quarterlyMax, setup.quarterlyMax),
     SetClaimsPaused(setup.quarterlyVault, false)]
  }

  /** The whole batch, refused if an epoch's id cannot be encoded. */
  method MwlVaultSafeCalls(hash: Hash, setup: Setup, millis: int, months: nat, quarters: nat)
    returns (r: Option<seq<VaultCall>>)
    ensures r.Some? ==> OpeningCalls(setup) <= r.value
    ensures r.Some? ==> AuthorizeInOrder(hash, setup.chainId, AllEpochs(setup, millis, months, quarters),
                                         r.value[|OpeningCalls(setup)|..])
    ensures r.None? ==> exists e ::
                          e in AllEpochs(setup, millis, months, quarters) && IdOf(hash, setup.chainId, e).None?
  {
    var opening := OpeningCalls(setup);
    var ms := PeriodWindows(Monthly, millis, months);
    var monthly := AuthorizeAll(hash, setup.chainId, setup.monthlyVault, setup.monthlyMax, MONTHLY_CODE, ms);
    if monthly.None? {
      return None;
    }
    var qs := PeriodWindows(Quarterly, millis, quarters);
    var quarterly := AuthorizeAll(hash, setup.chainId, setup.quarterlyVault, setup.quarterlyMax, QUARTERLY_CODE, qs);
    if quarterly.None? {
      return None;
    }
    assert (opening + (monthly.value + quarterly.value))[|opening|..] == monthly.value + quarterly.value;
    return Some(opening + (monthly.value + quarterly.value));
  }

  // ------------------------------------------------------------------ the epochs of one batch

  predicate DistinctEpochs(es: seq<Epoch>) {
    forall i, j :: 0 <= i < j < |es| ==> es[i].code != es[j].code || es[i].window.start != es[j].window.start
  }

  lemma FirstMonthLate(kind: Kind, millis: int)
    requires 0 <= millis
    ensures 1200 <= FirstMonth(kind, millis)
  {
    FirstPeriodHoldsDay(kind, millis);
    var k := FirstMonth(kind, millis);
    if k + Step(kind) <= JANUARY_1970 {
      LaterMonth(k + Step(kind), JANUARY_1970);
    }
  }

  lemma WindowStartsIncrease(kind: Kind, first: int, count: nat, i: nat, j: nat)
    requires 1200 <= first && i < j < count
    ensures Windows(kind, first, count)[i].start < Windows(kind, first, count)[j].start
  {
    WindowsAt(kind, first, count, i);
    WindowsAt(kind, first, count, j);
    StartsIncrease(MonthOfPeriod(kind, first, i), MonthOfPeriod(kind, first, j));
  }

  /** No two epochs of one batch share their kind and their start. */
  lemma EpochsDistinct(setup: Setup, millis: int, months: nat, quarters: nat)
    requires 0 <= millis
    ensures DistinctEpochs(AllEpochs(setup, millis, months, quarters))
  {
    var ms := Windows(Monthly, FirstMonth(Monthly, millis), months);
    var qs := Windows(Quarterly, FirstMonth(Quarterly, millis), quarters);
    FirstMonthLate(Monthly, millis);
    FirstMonthLate(Quarterly, millis);
    forall i, j | 0 <= i < j < months
      ensures ms[i].start < ms[j].start
    {
      WindowStartsIncrease(Monthly, FirstMonth(Monthly, millis), months, i, j);
    }
    forall i, j | 0 <= i < j < quarters
      ensures qs[i].start < qs[j].start
    {
      WindowStartsIncrease(Quarterly, FirstMonth(Quarterly, millis), quarters, i, j);
    }
    JoinedDistinct(Epochs(setup.monthlyVault, setup.monthlyMax, MONTHLY_CODE, ms),
                   Epochs(setup.quarterlyVault, setup.quarterlyMax, QUARTERLY_CODE, qs));
  }

  lemma JoinedDistinct(ms: seq<Epoch>, qs: seq<Epoch>)
    requires DistinctEpochs(ms) && DistinctEpochs(qs)
    requires forall i, j :: 0 <= i < |ms| && 0 <= j < |qs| ==> ms[i].code != qs[j].code
    ensures DistinctEpochs(ms + qs)
  {
  }
}
