/** Fixed assets (`assets.rs`): the straight-line schedule, posting it, and disposal. */
module Assets {
  import opened Wrappers
  import opened Rounding
  import opened Ledger
  import opened Calendar
  import opened ServiceModel
  import opened YearEnd

  // ─── The schedule ───────────────────────────────────────────────────

  /** One row of `acc_asset_depreciation`; `move` is set once it is posted. */
  datatype Period = Period(number: nat, date: Day, amount: int, cumulative: int, move: Option<MoveId>)

  /** The regular monthly amount. */
  function Monthly(depreciable: int, life: nat): int
    requires life > 0
  {
    RoundDiv(depreciable, life)
  }

  /** What is depreciated after `k` months. */
  function Cumulative(depreciable: int, life: nat, k: nat): int
    requires k <= life && life > 0
  {
    if k == life then depreciable else k * Monthly(depreciable, life)
  }

  /** Month by month on consecutive month ends; the last one makes up the difference. */
  function Schedule(cost: int, salvage: int, life: nat, start: Day): (r: seq<Period>)
  {
    var depreciable := cost - salvage;
    if depreciable <= 0 || life == 0 then []
    else
      seq(life, k requires 0 <= k < life =>
        Period(k + 1, EndOfMonth(MonthIndex(start) + k),
               Cumulative(depreciable, life, k + 1) - Cumulative(depreciable, life, k),
               Cumulative(depreciable, life, k + 1), None))
  }

  /** One month more: what the loop adds to the schedule. */
  lemma ScheduleStep(cost: int, salvage: int, life: nat, start: Day, k: nat)
    requires cost > salvage && k < life
    ensures var D, plan := cost - salvage, Schedule(cost, salvage, life, start);
            var amount := if k + 1 == life then D - Cumulative(D, life, k) else Monthly(D, life);
            && |plan| == life && Cumulative(D, life, k + 1) == Cumulative(D, life, k) + amount
            && plan[..k + 1] == plan[..k] + [Period(k + 1, EndOfMonth(MonthIndex(start) + k), amount, Cumulative(D, life, k + 1), None)]
  {
    var D := cost - salvage;
    assert (k + 1) * Monthly(D, life) == k * Monthly(D, life) + Monthly(D, life);
    hide Monthly, EndOfMonth, MonthIndex;
  }

  lemma ScheduleStarts(cost: int, salvage: int, life: nat, start: Day)
    requires cost > salvage && life > 0
    ensures |Schedule(cost, salvage, life, start)| == life && Cumulative(cost - salvage, life, 0) == 0
  {
  }

  /** The loop of `build_schedule`. */
  method BuildSchedule(cost: int, salvage: int, life: nat, start: Day) returns (out: seq<Period>)
    requires start.Valid()
    ensures out == Schedule(cost, salvage, life, start)
  {
    var depreciable := cost - salvage;
    if depreciable <= 0 || life == 0 {
      return [];
    }
    hide Schedule, Cumulative, EndOfMonth, MonthIndex, MonthEnd, NextDay, RoundDiv;
    ScheduleStarts(cost, salvage, life, start);
    MonthEndIsLast(start);
    var monthly := RoundDiv(depreciable, life);
    out := [];
    var cumulative := 0;
    var date := MonthEnd(start);
    var number := 1;
    while number <= life
      invariant 1 <= number <= life + 1
      invariant cumulative == Cumulative(depreciable, life, number - 1)
      invariant date == EndOfMonth(MonthIndex(start) + number - 1)
      invariant out == Schedule(cost, salvage, life, start)[..number - 1]
    {
      ScheduleStep(cost, salvage, life, start, number - 1);
      NextMonthEnd(MonthIndex(start) + number - 1);
      var amount := if number == life then depreciable - cumulative else monthly;
      cumulative := cumulative + amount;
      out := out + [Period(number, date, amount, cumulative, None)];
      date := MonthEnd(NextDay(date));
      number := number + 1;
    }
  }

  function SumOf(plan: seq<Period>): int {
    if plan == [] then 0 else SumOf(plan[..|plan| - 1]) + plan[|plan| - 1].amount
  }

  lemma {:induction false} PrefixSum(cost: int, salvage: int, life: nat, start: Day, n: nat)
    requires cost > salvage && n <= life && life > 0
    ensures SumOf(Schedule(cost, salvage, life, start)[..n]) == Cumulative(cost - salvage, life, n)
  {
    var plan := Schedule(cost, salvage, life, start);
    if n > 0 {
      PrefixSum(cost, salvage, life, start, n - 1);
      assert plan[..n][..n - 1] == plan[..n - 1];
    }
  }

  /** Every cumulative before the last stays short of the whole, and every amount is positive. */
  ghost predicate Regular(plan: seq<Period>, depreciable: int) {
    && (forall k :: 0 <= k < |plan| - 1 ==> plan[k].cumulative < depreciable)
    && (forall k :: 0 <= k < |plan| ==> plan[k].amount > 0)
  }

  lemma PeriodAt(cost: int, salvage: int, life: nat, start: Day, k: nat)
    requires cost > salvage && k < life
    ensures var plan, monthly := Schedule(cost, salvage, life, start), Monthly(cost - salvage, life);
            && |plan| == life && plan[k].move.None?
            && (k < life - 1 ==> plan[k].amount == monthly && plan[k].cumulative == (k + 1) * monthly)
            && (k == life - 1 ==> plan[k].amount == cost - salvage - (life - 1) * monthly && plan[k].cumulative == cost - salvage)
  {
    var monthly := Monthly(cost - salvage, life);
    assert (k + 1) * monthly == k * monthly + monthly;
  }

  /**
   The schedule of D sen over n months: n amounts that sum to exactly D, on consecutive month ends
   beginning with the month of the start date; every amount but the last is D/n rounded, and the last
   is within n/2 sen of the others.
   */
  lemma ScheduleIsExact(cost: int, salvage: int, life: nat, start: Day)
    requires cost > salvage && life > 0 && start.Valid()
    ensures var plan := Schedule(cost, salvage, life, start);
            var monthly := Monthly(cost - salvage, life);
            && |plan| == life && SumOf(plan) == cost - salvage
            && (forall k :: 0 <= k < life ==>
                  plan[k].number == k + 1 && plan[k].date == EndOfMonth(MonthIndex(start) + k) && plan[k].date.Valid())
            && (forall k :: 0 <= k < life - 1 ==> plan[k].amount == monthly)
            && 2 * Abs(plan[life - 1].amount - monthly) <= life
  {
    var plan := Schedule(cost, salvage, life, start);
    var monthly := Monthly(cost - salvage, life);
    PrefixSum(cost, salvage, life, start, life);
    assert plan[..life] == plan;
    RoundIsNearest(cost - salvage, life);
    forall k | 0 <= k < life
      ensures plan[k].number == k + 1 && plan[k].date == EndOfMonth(MonthIndex(start) + k) && plan[k].date.Valid()
      ensures k < life - 1 ==> plan[k].amount == monthly
    {
      PeriodAt(cost, salvage, life, start, k);
      NextMonthEnd(MonthIndex(start) + k);
    }
    PeriodAt(cost, salvage, life, start, life - 1);
    hide Schedule, Cumulative, EndOfMonth, MonthIndex, RoundDiv, SumOf;
    assert monthly * life == (life - 1) * monthly + monthly;
  }

  /** When a schedule is regular: exactly when the rounded months before the last one leave something. */
  lemma ScheduleIsRegular(cost: int, salvage: int, life: nat, start: Day)
    requires cost > salvage && life > 0
    ensures var D := cost - salvage;
            Regular(Schedule(cost, salvage, life, start), D) <==>
            (life - 1) * Monthly(D, life) < D && (life > 1 ==> Monthly(D, life) > 0)
  {
    hide Schedule, Monthly;
    var D := cost - salvage;
    var monthly := Monthly(D, life);
    var plan := Schedule(cost, salvage, life, start);
    PeriodAt(cost, salvage, life, start, life - 1);
    forall k | 0 <= k < life
      ensures k < life - 1 ==> plan[k].amount == monthly && plan[k].cumulative == (k + 1) * monthly
      ensures k == life - 1 ==> plan[k].amount == D - (life - 1) * monthly
    {
      PeriodAt(cost, salvage, life, start, k);
    }
    if life > 1 {
      assert plan[0].amount == monthly;
      assert plan[life - 2].cumulative == (life - 1) * monthly;
    }
    assert plan[life - 1].amount == D - (life - 1) * monthly;
    if monthly > 0 {
      forall k | 0 <= k < life - 1 ensures plan[k].cumulative <= (life - 1) * monthly {
        Grow(k + 1, life - 1, monthly);
      }
    }
  }

  lemma CancelFactor(x: int, y: int, n: int)
    requires n > 0 && x * n < y * n
    ensures x < y
  {
    assert (y - x) * n > 0;
    assert y - x > 0;
  }

  lemma Grow(x: int, y: int, n: int)
    requires n >= 0 && x <= y
    ensures x * n <= y * n
  {
    assert (y - x) * n >= 0;
  }

  /** A caller's guard: more than n(n-1)/2 sen to spread over n months is enough. */
  lemma EnoughToSpread(depreciable: int, life: nat)
    requires life > 0 && 2 * depreciable > life * (life - 1)
    ensures (life - 1) * Monthly(depreciable, life) < depreciable
    ensures life > 1 ==> Monthly(depreciable, life) > 0
  {
    var n, m, D := life, Monthly(depreciable, life), depreciable;
    RoundIsNearest(D, n);
    hide RoundDiv;
    var x := (n - 1) * m;
    Grow(2 * (m * n), 2 * D + n, n - 1);
    assert 2 * (m * n) * (n - 1) == 2 * (x * n);
    assert (2 * D + n) * (n - 1) == 2 * (D * n) - 2 * D + n * (n - 1);
    CancelFactor(x, D, n);
    if n > 1 {
      assert n * (n - 1) >= n by {
        Grow(1, n - 1, n);
      }
      CancelFactor(0, m, n);
    }
  }

  /** Too little to spread: 100 sen over 150 months is used up after 100, and the last month would be negative. */
  lemma TooLittleToSpread(start: Day)
    ensures var plan := Schedule(100, 0, 150, start);
            && plan[99].cumulative == 100 && plan[149].amount == -49 && !Regular(plan, 100)
  {
    var plan := Schedule(100, 0, 150, start);
    assert Monthly(100, 150) == 1;
    assert plan[99].cumulative == Cumulative(100, 150, 100) == 100;
    assert plan[149].amount == 100 - 149 * Monthly(100, 150);
  }

  // ─── The register ───────────────────────────────────────────────────

  datatype AssetState = DraftAsset | Running | FullyDepreciated | Disposed

  /** The accounts an asset posts to: its cost, its accumulated depreciation, and the expense. */
  datatype AssetAccounts = AssetAccounts(cost: AccountId, depreciation: AccountId, expense: AccountId)

  datatype Asset = Asset(cost: int, salvage: int, life: nat, start: Day, accounts: AssetAccounts,
                         state: AssetState, plan: seq<Period>, disposal: Option<MoveId>)

  function ConfirmAsset(a: Asset): Result<Asset> {
    if !a.state.DraftAsset? then Err(WrongAssetState)
    else if Schedule(a.cost, a.salvage, a.life, a.start) == [] then Err(NothingToDepreciate)
    else Ok(a.(plan := Schedule(a.cost, a.salvage, a.life, a.start), state := Running))
  }

  /** The ledger and one asset. */
  datatype Holding = Holding(db: State, asset: Asset)

  function DepreciationLines(accounts: AssetAccounts, amount: int): seq<Line> {
    [Debit(accounts.expense, amount), Credit(accounts.depreciation, amount)]
  }

  function DepreciationMove(a: Asset, p: Period): NewMove {
    NewMove("GEN", Number(p.date), Entry, None, FromSen(DepreciationLines(a.accounts, p.amount)))
  }

  /** Posting one period; one that cannot be posted is left for another run. */
  function PostPeriod(c: Chart, h: Holding, k: nat): Holding
    requires k < |h.asset.plan|
  {
    var a := h.asset;
    var p := a.plan[k];
    var posted := CreateAndPost(c, h.db, DepreciationMove(a, p));
    if posted.result.Err? then Holding(posted.db, a)
    else
      Holding(posted.db, a.(plan := a.plan[k := p.(move := Some(posted.result.value))],
                            state := if p.cumulative >= a.cost - a.salvage && a.state.Running? then FullyDepreciated else a.state))
  }

  predicate IsDue(p: Period, asOf: Date) {
    p.move.None? && Number(p.date) <= asOf
  }

  /** The due periods among the first `n`, in order. */
  function PostPeriods(c: Chart, h: Holding, asOf: Date, n: nat): (r: Holding)
    requires n <= |h.asset.plan|
    ensures |r.asset.plan| == |h.asset.plan|
  {
    if n == 0 then h
    else
      var before := PostPeriods(c, h, asOf, n - 1);
      if IsDue(h.asset.plan[n - 1], asOf) then PostPeriod(c, before, n - 1) else before
  }

  /** What one run of `post_due_depreciation` does to an asset: only running ones are looked at. */
  function PostDue(c: Chart, h: Holding, asOf: Date): Holding {
    if h.asset.state.Running? then PostPeriods(c, h, asOf, |h.asset.plan|) else h
  }

  /** Depreciation posted so far. */
  function Accumulated(plan: seq<Period>): int {
    if plan == [] then 0
    else
      var p := plan[|plan| - 1];
      Accumulated(plan[..|plan| - 1]) + if p.move.Some? then p.amount else 0
  }

  datatype DisposalAccounts = DisposalAccounts(bank: AccountId, gain: AccountId, loss: AccountId)

  function DisposalAccountsOf(c: Chart): Option<DisposalAccounts> {
    var bank, gain, loss := c.FirstOfKind(AssetBank), c.ByCode("4970"), c.ByCode("6970");
    if bank.Some? && gain.Some? && loss.Some? then Some(DisposalAccounts(bank.value, gain.value, loss.value)) else None
  }

  function MaybeDebit(account: AccountId, amount: int): seq<Line> {
    if amount > 0 then [Debit(account, amount)] else []
  }

  function ResultLines(d: DisposalAccounts, result: int): seq<Line> {
    if result > 0 then [Credit(d.gain, result)] else if result < 0 then [Debit(d.loss, Abs(result))] else []
  }

  /** Dr accumulated depreciation, Dr bank, Cr cost, and the gain or loss that balances. */
  function DisposalLines(a: Asset, d: DisposalAccounts, accumulated: int, proceeds: int): seq<Line> {
    MaybeDebit(a.accounts.depreciation, accumulated) + MaybeDebit(d.bank, proceeds) +
    [Credit(a.accounts.cost, a.cost)] + ResultLines(d, proceeds - (a.cost - accumulated))
  }

  function PostedOnly(plan: seq<Period>): seq<Period> {
    if plan == [] then []
    else
      var before := PostedOnly(plan[..|plan| - 1]);
      if plan[|plan| - 1].move.Some? then before + [plan[|plan| - 1]] else before
  }

  datatype HoldingReply = HoldingReply(h: Holding, result: Result<MoveId>)

  function DisposeAsset(c: Chart, h: Holding, proceeds: int, date: Date): HoldingReply {
    var a := h.asset;
    if !a.state.Running? && !a.state.FullyDepreciated? then HoldingReply(h, Err(WrongAssetState))
    else if proceeds < 0 then HoldingReply(h, Err(AmountNotPositive))
    else if DisposalAccountsOf(c).None? then HoldingReply(h, Err(NoAccount))
    else
      var lines := DisposalLines(a, DisposalAccountsOf(c).value, Accumulated(a.plan), proceeds);
      var posted := CreateAndPost(c, h.db, NewMove("GEN", date, Entry, None, FromSen(lines)));
      if posted.result.Err? then HoldingReply(Holding(posted.db, a), posted.result)
      else
        HoldingReply(Holding(posted.db, a.(state := Disposed, disposal := Some(posted.result.value), plan := PostedOnly(a.plan))),
                     posted.result)
  }
}
