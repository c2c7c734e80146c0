/** An asset from confirmation to disposal: when it is fully depreciated, and what its life costs. */
module AssetLife {
  import opened Wrappers
  import opened Ledger
  import opened Calendar
  import opened ServiceModel
  import opened YearEnd
  import opened Assets
  import opened AccountLookup
  import opened Entries

  const ALL_TIME: Window := Window(None, None)

  // ─── Posting periods ────────────────────────────────────────────────

  /** The plan is the schedule, with some rows posted. */
  ghost predicate OnSchedule(a: Asset) {
    var plan := Schedule(a.cost, a.salvage, a.life, a.start);
    |a.plan| == |plan| && forall k :: 0 <= k < |plan| ==> a.plan[k].(move := None) == plan[k]
  }

  /** Only positive amounts are ever posted. */
  ghost predicate PostedArePositive(plan: seq<Period>) {
    forall k :: 0 <= k < |plan| && plan[k].move.Some? ==> plan[k].amount > 0
  }

  /** A confirmed asset; on a regular schedule it is fully depreciated exactly when the last row is posted. */
  ghost predicate AssetOk(a: Asset) {
    && a.cost > a.salvage && a.life > 0
    && (a.state.Running? || a.state.FullyDepreciated?)
    && OnSchedule(a) && PostedArePositive(a.plan)
    && (Regular(Schedule(a.cost, a.salvage, a.life, a.start), a.cost - a.salvage) ==>
          (a.state.FullyDepreciated? <==> |a.plan| > 0 && a.plan[|a.plan| - 1].move.Some?))
  }

  lemma ConfirmedIsOk(a: Asset)
    requires ConfirmAsset(a).Ok?
    ensures AssetOk(ConfirmAsset(a).value) && Accumulated(ConfirmAsset(a).value.plan) == 0
    ensures a.cost > a.salvage && a.life > 0
  {
    var plan := ConfirmAsset(a).value.plan;
    forall k | 0 <= k < |plan| ensures plan[k].move.None? {
      PeriodAt(a.cost, a.salvage, a.life, a.start, k);
    }
    NothingPosted(plan);
  }

  lemma {:induction false} NothingPosted(plan: seq<Period>)
    requires forall k :: 0 <= k < |plan| ==> plan[k].move.None?
    ensures Accumulated(plan) == 0
  {
    if plan != [] {
      NothingPosted(plan[..|plan| - 1]);
    }
  }

  lemma {:induction false} AccumulatedOfUpdate(plan: seq<Period>, k: nat, p: Period)
    requires k < |plan|
    ensures Accumulated(plan[k := p]) ==
            Accumulated(plan) - (if plan[k].move.Some? then plan[k].amount else 0) + (if p.move.Some? then p.amount else 0)
  {
    var n := |plan| - 1;
    if k == n {
      assert plan[k := p][..n] == plan[..n];
    } else {
      assert plan[k := p][..n] == plan[..n][k := p];
      AccumulatedOfUpdate(plan[..n], k, p);
    }
  }

  lemma {:induction false} AccumulatedNonNegative(plan: seq<Period>)
    requires PostedArePositive(plan)
    ensures Accumulated(plan) >= 0
  {
    if plan != [] {
      AccumulatedNonNegative(plan[..|plan| - 1]);
    }
  }

  lemma DepreciationSums(accounts: AssetAccounts, amount: int, on: set<AccountId>)
    ensures var lines := DepreciationLines(accounts, amount);
            && SumDebit(lines) == amount && SumCredit(lines) == amount && FreshLines(lines)
            && Net(lines, on) == (if accounts.expense in on then amount else 0) - (if accounts.depreciation in on then amount else 0)
            && (Balanced(lines) <==> amount > 0)
  {
    var lines := DepreciationLines(accounts, amount);
    SumsOfTwo(lines[0], lines[1], on);
    assert lines == [lines[0], lines[1]];
  }

  /** Posting a period: when it succeeds, and what it does to the ledger and to the asset. */
  lemma PostPeriodEffect(c: Chart, h: Holding, k: nat, on: set<AccountId>)
    requires k < |h.asset.plan| && h.asset.plan[k].move.None?
    ensures var a, r := h.asset, PostPeriod(c, h, k);
            var p := a.plan[k];
            var done := "GEN" in c.journals && a.accounts.expense < |c.accounts| && a.accounts.depreciation < |c.accounts| &&
                        p.amount > 0 && !Frozen(h.db, Number(p.date));
            && (if done then
                  && r.asset.plan == a.plan[k := p.(move := Some(|h.db.moves|))]
                  && r.asset == a.(plan := r.asset.plan, state := r.asset.state)
                  && r.asset.state == (if p.cumulative >= a.cost - a.salvage && a.state.Running? then FullyDepreciated else a.state)
                  && Accumulated(r.asset.plan) == Accumulated(a.plan) + p.amount
                  && Balance(r.db.moves, on, ALL_TIME) == Balance(h.db.moves, on, ALL_TIME) +
                     (if a.accounts.expense in on then p.amount else 0) - (if a.accounts.depreciation in on then p.amount else 0)
                else
                  r.asset == a && Balance(r.db.moves, on, ALL_TIME) == Balance(h.db.moves, on, ALL_TIME))
  {
    var a := h.asset;
    var p := a.plan[k];
    var entry, lines := DepreciationMove(a, p), DepreciationLines(a.accounts, p.amount);
    DepreciationSums(a.accounts, p.amount, on);
    CreateAndPostEffect(c, h.db, entry, lines);
    hide CreateAndPost, Balanced, Frozen, Number;
    assert RowsAccepted(c, lines) && Balanced(lines) ==>
      RowAccepted(c, lines[0]) && RowAccepted(c, lines[1]);
    var r := CreateAndPost(c, h.db, entry);
    if r.result.Ok? {
      AccumulatedOfUpdate(a.plan, k, p.(move := Some(|h.db.moves|)));
      BalanceWithRow(h.db.moves, NewRow(entry, h.db.nextNumber, SumDebit(lines)), on, ALL_TIME);
    } else {
      BalanceWithRow(h.db.moves, Blank(entry), on, ALL_TIME);
    }
  }

  /** An asset stays sound when a planned row is marked posted and the state follows the rule. */
  lemma MarkedIsOk(a: Asset, k: nat, move: MoveId)
    requires AssetOk(a) && k < |a.plan| && a.plan[k].move.None? && a.plan[k].amount > 0
    ensures AssetOk(a.(plan := a.plan[k := a.plan[k].(move := Some(move))],
                       state := if a.plan[k].cumulative >= a.cost - a.salvage && a.state.Running? then FullyDepreciated else a.state))
  {
    PeriodAt(a.cost, a.salvage, a.life, a.start, k);
    hide Schedule;
    var plan := Schedule(a.cost, a.salvage, a.life, a.start);
    assert a.plan[k].(move := None) == plan[k];
    assert Regular(plan, a.cost - a.salvage) ==> (plan[k].cumulative >= a.cost - a.salvage <==> k == |plan| - 1);
    hide Regular;
    var b := a.(plan := a.plan[k := a.plan[k].(move := Some(move))]);
    assert OnSchedule(b);
    assert PostedArePositive(b.plan);
  }

  lemma PostPeriodKeepsAsset(c: Chart, h: Holding, k: nat)
    requires AssetOk(h.asset) && k < |h.asset.plan| && h.asset.plan[k].move.None?
    ensures AssetOk(PostPeriod(c, h, k).asset)
  {
    PostPeriodEffect(c, h, k, {});
    hide PostPeriod, AssetOk;
    if PostPeriod(c, h, k).asset != h.asset {
      MarkedIsOk(h.asset, k, |h.db.moves|);
    }
  }

  /** What the asset's entries have moved, as against what the asset knows. */
  ghost predicate Tied(h: Holding, t: Holding, on: set<AccountId>) {
    var accounts := h.asset.accounts;
    var gained := Accumulated(t.asset.plan) - Accumulated(h.asset.plan);
    Balance(t.db.moves, on, ALL_TIME) == Balance(h.db.moves, on, ALL_TIME) +
    (if accounts.expense in on then gained else 0) - (if accounts.depreciation in on then gained else 0)
  }

  /** What posting never changes about an asset. */
  ghost predicate SameAsset(a: Asset, b: Asset) {
    b == a.(plan := b.plan, state := b.state) && |b.plan| == |a.plan|
  }

  /** One period more. */
  lemma PostPeriodTied(c: Chart, h: Holding, before: Holding, k: nat, on: set<AccountId>)
    requires SameAsset(h.asset, before.asset) && Tied(h, before, on) && k < |before.asset.plan| && before.asset.plan[k].move.None?
    ensures var t := PostPeriod(c, before, k);
            && SameAsset(h.asset, t.asset) && Tied(h, t, on)
            && (forall i :: 0 <= i < |before.asset.plan| && i != k ==> t.asset.plan[i] == before.asset.plan[i])
  {
    hide PostPeriod, Balance, Accumulated, Frozen, Number;
    PostPeriodEffect(c, before, k, on);
  }

  lemma {:induction false} PostPeriodsKeep(c: Chart, h: Holding, asOf: Date, n: nat, on: set<AccountId>)
    requires AssetOk(h.asset) && n <= |h.asset.plan|
    ensures var t := PostPeriods(c, h, asOf, n);
            && AssetOk(t.asset) && SameAsset(h.asset, t.asset) && Tied(h, t, on)
            && (forall k :: n <= k < |h.asset.plan| ==> t.asset.plan[k] == h.asset.plan[k])
  {
    hide AssetOk, PostPeriod, Balance, Accumulated;
    if n > 0 {
      PostPeriodsKeep(c, h, asOf, n - 1, on);
      hide Tied, SameAsset;
      var before := PostPeriods(c, h, asOf, n - 1);
      if IsDue(h.asset.plan[n - 1], asOf) {
        PostPeriodTied(c, h, before, n - 1, on);
        PostPeriodKeepsAsset(c, before, n - 1);
      }
    }
  }

  lemma PostDueKeeps(c: Chart, h: Holding, asOf: Date, on: set<AccountId>)
    requires AssetOk(h.asset)
    ensures AssetOk(PostDue(c, h, asOf).asset) && SameAsset(h.asset, PostDue(c, h, asOf).asset)
    ensures Tied(h, PostDue(c, h, asOf), on)
  {
    hide AssetOk, Balance, Accumulated;
    if h.asset.state.Running? {
      PostPeriodsKeep(c, h, asOf, |h.asset.plan|, on);
    }
  }

  /** The depreciation job on a day, or anything else that happens to the ledger and to its periods. */
  datatype AssetStep = Job(asOf: Date) | Other(db: State)

  function Live(c: Chart, h: Holding, steps: seq<AssetStep>): (r: Holding)
    ensures |r.asset.plan| == |h.asset.plan|
  {
    if steps == [] then h
    else
      var before := Live(c, h, steps[..|steps| - 1]);
      match steps[|steps| - 1]
      case Job(asOf) => PostDue(c, before, asOf)
      case Other(db) => before.(db := db)
  }

  /** What happens besides the job leaves the balance of `on` alone. */
  ghost predicate LeavesAlone(c: Chart, h: Holding, steps: seq<AssetStep>, on: set<AccountId>) {
    forall n: nat :: n < |steps| && steps[n].Other? ==>
      Balance(steps[n].db.moves, on, ALL_TIME) == Balance(Live(c, h, steps[..n]).db.moves, on, ALL_TIME)
  }

  lemma FewerSteps(c: Chart, h: Holding, steps: seq<AssetStep>, on: set<AccountId>)
    requires LeavesAlone(c, h, steps, on) && steps != []
    ensures LeavesAlone(c, h, steps[..|steps| - 1], on)
    ensures steps[|steps| - 1].Other? ==>
              Balance(steps[|steps| - 1].db.moves, on, ALL_TIME) == Balance(Live(c, h, steps[..|steps| - 1]).db.moves, on, ALL_TIME)
  {
    var rest := steps[..|steps| - 1];
    assert forall n: nat :: n < |rest| ==> rest[..n] == steps[..n] && rest[n] == steps[n];
  }

  lemma {:induction false} LiveKeepsAsset(c: Chart, h: Holding, steps: seq<AssetStep>)
    requires AssetOk(h.asset)
    ensures AssetOk(Live(c, h, steps).asset) && SameAsset(h.asset, Live(c, h, steps).asset)
  {
    hide AssetOk, PostDue, Tied;
    if steps != [] {
      LiveKeepsAsset(c, h, steps[..|steps| - 1]);
      var before := Live(c, h, steps[..|steps| - 1]);
      if steps[|steps| - 1].Job? {
        PostDueKeeps(c, before, steps[|steps| - 1].asOf, {});
      }
    }
  }

  lemma {:induction false} LiveKeeps(c: Chart, h: Holding, steps: seq<AssetStep>, on: set<AccountId>)
    requires AssetOk(h.asset) && LeavesAlone(c, h, steps, on)
    ensures Tied(h, Live(c, h, steps), on)
  {
    hide AssetOk, Balance, Accumulated, PostDue, LeavesAlone;
    if steps != [] {
      FewerSteps(c, h, steps, on);
      LiveKeeps(c, h, steps[..|steps| - 1], on);
      LiveKeepsAsset(c, h, steps[..|steps| - 1]);
      if steps[|steps| - 1].Job? {
        PostDueKeeps(c, Live(c, h, steps[..|steps| - 1]), steps[|steps| - 1].asOf, on);
      }
    }
  }

  // ─── Fully depreciated ──────────────────────────────────────────────

  /** No period was skipped: the posted ones are the first ones. */
  ghost predicate NoGaps(plan: seq<Period>) {
    forall i, k :: 0 <= i < k < |plan| && plan[k].move.Some? ==> plan[i].move.Some?
  }

  lemma {:induction false} AllPostedSum(plan: seq<Period>)
    requires forall k :: 0 <= k < |plan| ==> plan[k].move.Some?
    ensures Accumulated(plan) == SumOf(plan)
  {
    if plan != [] {
      AllPostedSum(plan[..|plan| - 1]);
    }
  }

  lemma {:induction false} SumOfSame(a: seq<Period>, b: seq<Period>)
    requires |a| == |b| && forall k :: 0 <= k < |a| ==> a[k].amount == b[k].amount
    ensures SumOf(a) == SumOf(b)
  {
    if a != [] {
      SumOfSame(a[..|a| - 1], b[..|b| - 1]);
    }
  }

  /** Enough to spread: the caller's guard for a regular schedule. */
  predicate EnoughFor(a: Asset) {
    2 * (a.cost - a.salvage) > a.life * (a.life - 1)
  }

  lemma EnoughIsRegular(a: Asset)
    requires a.cost > a.salvage && a.life > 0 && EnoughFor(a)
    ensures Regular(Schedule(a.cost, a.salvage, a.life, a.start), a.cost - a.salvage)
  {
    EnoughToSpread(a.cost - a.salvage, a.life);
    ScheduleIsRegular(a.cost, a.salvage, a.life, a.start);
  }

  lemma AllDepreciated(a: Asset)
    requires AssetOk(a) && a.start.Valid() && EnoughFor(a) && a.state.FullyDepreciated? && NoGaps(a.plan)
    ensures Accumulated(a.plan) == a.cost - a.salvage
  {
    EnoughIsRegular(a);
    ScheduleIsExact(a.cost, a.salvage, a.life, a.start);
    hide EnoughFor, Regular, Accumulated, SumOf, Schedule, Monthly;
    var plan := Schedule(a.cost, a.salvage, a.life, a.start);
    AllPostedSum(a.plan);
    forall k | 0 <= k < |a.plan| ensures a.plan[k].amount == plan[k].amount {
      assert a.plan[k].(move := None) == plan[k];
    }
    SumOfSame(a.plan, plan);
  }

  /**
   An asset confirmed with more than n(n-1)/2 sen to spread over its n months turns fully depreciated
   exactly when its last period is posted, whatever else happens between the runs of the job; and if no
   period was skipped, exactly cost less salvage has been depreciated by then.
   */
  lemma FullyDepreciatedAtLast(c: Chart, db: State, draft: Asset, steps: seq<AssetStep>)
    requires ConfirmAsset(draft).Ok? && draft.start.Valid() && EnoughFor(draft)
    ensures draft.life > 0 && |ConfirmAsset(draft).value.plan| == draft.life
    ensures var a := Live(c, Holding(db, ConfirmAsset(draft).value), steps).asset;
            && (a.state.FullyDepreciated? <==> a.plan[draft.life - 1].move.Some?)
            && (a.state.FullyDepreciated? && NoGaps(a.plan) ==> Accumulated(a.plan) == a.cost - a.salvage)
  {
    var h := Holding(db, ConfirmAsset(draft).value);
    ConfirmedIsOk(draft);
    LiveKeepsAsset(c, h, steps);
    var a := Live(c, h, steps).asset;
    EnoughIsRegular(h.asset);
    PeriodAt(draft.cost, draft.salvage, draft.life, draft.start, 0);
    hide Live, Regular, Accumulated, NoGaps, Schedule;
    if a.state.FullyDepreciated? && NoGaps(a.plan) {
      AllDepreciated(a);
    }
  }

  // ─── Disposal ───────────────────────────────────────────────────────

  lemma MaybeDebitSums(account: AccountId, amount: int, on: set<AccountId>)
    requires amount >= 0
    ensures var lines := MaybeDebit(account, amount);
            && SumDebit(lines) == amount && SumCredit(lines) == 0 && |lines| <= amount
            && Net(lines, on) == (if account in on then amount else 0)
            && (forall l :: l in lines ==> OneSided(l) && !l.reconciled)
  {
    if amount > 0 {
      SumsOfOne(Debit(account, amount), on);
    }
  }

  lemma ResultNet(d: DisposalAccounts, result: int, on: set<AccountId>)
    requires d.gain in on <==> d.loss in on
    ensures Net(ResultLines(d, result), on) == if d.gain in on then -result else 0
    ensures forall l :: l in ResultLines(d, result) ==> OneSided(l) && !l.reconciled
  {
    if result > 0 {
      SumsOfOne(Credit(d.gain, result), on);
    } else if result < 0 {
      SumsOfOne(Debit(d.loss, Abs(result)), on);
    }
  }

  /** A gain is credited to the gain account, a loss debited to the loss account. */
  lemma ResultSides(d: DisposalAccounts, result: int)
    ensures result >= 0 ==> Net(ResultLines(d, result), {d.gain}) == -result
    ensures result <= 0 ==> Net(ResultLines(d, result), {d.loss}) == -result
  {
    if result > 0 {
      SumsOfOne(Credit(d.gain, result), {d.gain});
    } else if result < 0 {
      SumsOfOne(Debit(d.loss, Abs(result)), {d.loss});
    }
  }

  function DisposalHead(a: Asset, d: DisposalAccounts, accumulated: int, proceeds: int): seq<Line> {
    MaybeDebit(a.accounts.depreciation, accumulated) + MaybeDebit(d.bank, proceeds) + [Credit(a.accounts.cost, a.cost)]
  }

  lemma HeadSums(a: Asset, d: DisposalAccounts, accumulated: int, proceeds: int, on: set<AccountId>)
    requires a.cost > 0 && accumulated >= 0 && proceeds >= 0
    ensures var head := DisposalHead(a, d, accumulated, proceeds);
            && SumDebit(head) == accumulated + proceeds && SumCredit(head) == a.cost
            && 1 <= |head| <= accumulated + proceeds + a.cost
            && (|head| == 1 ==> accumulated == proceeds == 0)
            && Net(head, on) == (if a.accounts.depreciation in on then accumulated else 0) +
                                (if d.bank in on then proceeds else 0) - (if a.accounts.cost in on then a.cost else 0)
            && (forall l :: l in head ==> OneSided(l) && !l.reconciled)
  {
    var x, y := MaybeDebit(a.accounts.depreciation, accumulated), MaybeDebit(d.bank, proceeds);
    MaybeDebitSums(a.accounts.depreciation, accumulated, on);
    MaybeDebitSums(d.bank, proceeds, on);
    SumsOfConcat(x, y, on);
    SumsOfOneMore(x + y, Credit(a.accounts.cost, a.cost), on);
  }

  /** A disposal entry can never be rejected as unbalanced, whatever was depreciated and whatever it fetches. */
  lemma DisposalIsBalanced(a: Asset, d: DisposalAccounts, accumulated: int, proceeds: int)
    requires a.cost > 0 && accumulated >= 0 && proceeds >= 0
    ensures var lines := DisposalLines(a, d, accumulated, proceeds);
            Balanced(lines) && FreshLines(lines) && SumDebit(lines) == Max(a.cost, accumulated + proceeds)
    ensures var result := proceeds - (a.cost - accumulated);
            && (result >= 0 ==> Net(ResultLines(d, result), {d.gain}) == -result)
            && (result <= 0 ==> Net(ResultLines(d, result), {d.loss}) == -result)
  {
    var head, tail := DisposalHead(a, d, accumulated, proceeds), ResultLines(d, proceeds - (a.cost - accumulated));
    HeadSums(a, d, accumulated, proceeds, {});
    ResultNet(d, proceeds - (a.cost - accumulated), {});
    ResultSides(d, proceeds - (a.cost - accumulated));
    hide DisposalHead, Net;
    BalancedWithTail(head, tail);
    assert DisposalLines(a, d, accumulated, proceeds) == head + tail by {
      HeadIsHead(a, d, accumulated, proceeds);
    }
    SumsOfConcat(head, tail, {});
    if tail != [] {
      SumsOfOneMore([], tail[0], {});
      assert tail == [] + [tail[0]];
    }
  }

  lemma HeadIsHead(a: Asset, d: DisposalAccounts, accumulated: int, proceeds: int)
    ensures DisposalLines(a, d, accumulated, proceeds) ==
            DisposalHead(a, d, accumulated, proceeds) + ResultLines(d, proceeds - (a.cost - accumulated))
  {
  }

  /** The P&L accounts an asset's life touches. */
  function ResultAccounts(a: Asset, d: DisposalAccounts): set<AccountId> {
    {a.accounts.expense, d.gain, d.loss}
  }

  /** The asset's balance-sheet accounts and its P&L accounts are different accounts. */
  ghost predicate AccountsApart(a: Asset, d: DisposalAccounts) {
    && a.accounts.depreciation !in ResultAccounts(a, d) + {a.accounts.cost, d.bank}
    && a.accounts.cost !in ResultAccounts(a, d) + {d.bank}
    && d.bank !in ResultAccounts(a, d)
  }

  lemma DisposalNets(a: Asset, d: DisposalAccounts, accumulated: int, proceeds: int)
    requires a.cost > 0 && accumulated >= 0 && proceeds >= 0 && AccountsApart(a, d)
    ensures var lines := DisposalLines(a, d, accumulated, proceeds);
            && Net(lines, {a.accounts.depreciation}) == accumulated
            && Net(lines, {a.accounts.cost}) == -a.cost
            && Net(lines, ResultAccounts(a, d)) == a.cost - accumulated - proceeds
  {
    var head, tail := DisposalHead(a, d, accumulated, proceeds), ResultLines(d, proceeds - (a.cost - accumulated));
    HeadIsHead(a, d, accumulated, proceeds);
    DisposalNetOn(a, d, accumulated, proceeds, {a.accounts.depreciation});
    DisposalNetOn(a, d, accumulated, proceeds, {a.accounts.cost});
    DisposalNetOn(a, d, accumulated, proceeds, ResultAccounts(a, d));
  }

  lemma DisposalNetOn(a: Asset, d: DisposalAccounts, accumulated: int, proceeds: int, on: set<AccountId>)
    requires a.cost > 0 && accumulated >= 0 && proceeds >= 0 && (d.gain in on <==> d.loss in on)
    ensures Net(DisposalLines(a, d, accumulated, proceeds), on) ==
            (if a.accounts.depreciation in on then accumulated else 0) + (if d.bank in on then proceeds else 0)
            - (if a.accounts.cost in on then a.cost else 0) - (if d.gain in on then proceeds - (a.cost - accumulated) else 0)
  {
    HeadSums(a, d, accumulated, proceeds, on);
    ResultNet(d, proceeds - (a.cost - accumulated), on);
    HeadIsHead(a, d, accumulated, proceeds);
    SumsOfConcat(DisposalHead(a, d, accumulated, proceeds), ResultLines(d, proceeds - (a.cost - accumulated)), on);
  }

  /** A disposal is refused only for the asset's state, the proceeds' sign, missing accounts or a frozen date. */
  lemma DisposeEffect(c: Chart, h: Holding, proceeds: int, date: Date, on: set<AccountId>)
    requires h.asset.cost > 0 && PostedArePositive(h.asset.plan)
    ensures var a, r := h.asset, DisposeAsset(c, h, proceeds, date);
            && (r.result.Ok? <==>
                  && (a.state.Running? || a.state.FullyDepreciated?) && proceeds >= 0 && DisposalAccountsOf(c).Some?
                  && "GEN" in c.journals && !Frozen(h.db, date)
                  && RowsAccepted(c, DisposalLines(a, DisposalAccountsOf(c).value, Accumulated(a.plan), proceeds)))
            && (r.result.Ok? ==>
                  && r.h.asset.state.Disposed? && r.h.asset.disposal == Some(|h.db.moves|)
                  && Balance(r.h.db.moves, on, ALL_TIME) == Balance(h.db.moves, on, ALL_TIME) +
                     Net(DisposalLines(a, DisposalAccountsOf(c).value, Accumulated(a.plan), proceeds), on))
  {
    hide CreateAndPost, DisposalLines, Balanced, Frozen, Accumulated, PostedOnly, Net, Balance, DisposalAccountsOf, FreshLines;
    var a := h.asset;
    if (a.state.Running? || a.state.FullyDepreciated?) && proceeds >= 0 && DisposalAccountsOf(c).Some? {
      var lines := DisposalLines(a, DisposalAccountsOf(c).value, Accumulated(a.plan), proceeds);
      var entry := NewMove("GEN", date, Entry, None, FromSen(lines));
      AccumulatedNonNegative(a.plan);
      DisposalIsBalanced(a, DisposalAccountsOf(c).value, Accumulated(a.plan), proceeds);
      CreateAndPostEffect(c, h.db, entry, lines);
      if CreateAndPost(c, h.db, entry).result.Ok? {
        BalanceWithRow(h.db.moves, NewRow(entry, h.db.nextNumber, SumDebit(lines)), on, ALL_TIME);
      }
    }
  }

  /**
   The whole life of an asset: after any runs of the job, mixed with anything that leaves its accounts
   alone, and the disposal, the accumulated depreciation is back where it was, the cost is off the books,
   and the P&L accounts have borne exactly cost less proceeds, however the periods were posted or skipped.
   */
  lemma LifeCostsWhatItCosts(c: Chart, db: State, draft: Asset, steps: seq<AssetStep>, proceeds: int, date: Date)
    requires ConfirmAsset(draft).Ok? && draft.salvage >= 0
    requires DisposalAccountsOf(c).Some? && AccountsApart(draft, DisposalAccountsOf(c).value)
    requires var h := Holding(db, ConfirmAsset(draft).value);
             && LeavesAlone(c, h, steps, {draft.accounts.depreciation}) && LeavesAlone(c, h, steps, {draft.accounts.cost})
             && LeavesAlone(c, h, steps, ResultAccounts(draft, DisposalAccountsOf(c).value))
             && DisposeAsset(c, Live(c, h, steps), proceeds, date).result.Ok?
    ensures var t := DisposeAsset(c, Live(c, Holding(db, ConfirmAsset(draft).value), steps), proceeds, date).h;
            var results := ResultAccounts(draft, DisposalAccountsOf(c).value);
            && Balance(t.db.moves, {draft.accounts.depreciation}, ALL_TIME) == Balance(db.moves, {draft.accounts.depreciation}, ALL_TIME)
            && Balance(t.db.moves, {draft.accounts.cost}, ALL_TIME) == Balance(db.moves, {draft.accounts.cost}, ALL_TIME) - draft.cost
            && Balance(t.db.moves, results, ALL_TIME) == Balance(db.moves, results, ALL_TIME) + draft.cost - proceeds
  {
    var h, d := Holding(db, ConfirmAsset(draft).value), DisposalAccountsOf(c).value;
    var m := Live(c, h, steps);
    ConfirmedIsOk(draft);
    LiveKeepsAsset(c, h, steps);
    hide Live, LeavesAlone, Balance, Accumulated, DisposeAsset, DisposalLines, OnSchedule, Regular;
    LiveKeeps(c, h, steps, {draft.accounts.depreciation});
    LiveKeeps(c, h, steps, {draft.accounts.cost});
    LiveKeeps(c, h, steps, ResultAccounts(draft, d));
    AccumulatedNonNegative(m.asset.plan);
    DisposeEffect(c, m, proceeds, date, {draft.accounts.depreciation});
    DisposeEffect(c, m, proceeds, date, {draft.accounts.cost});
    DisposeEffect(c, m, proceeds, date, ResultAccounts(draft, d));
    DisposalNets(m.asset, d, Accumulated(m.asset.plan), proceeds);
  }

  // ─── The disposal entry ─────────────────────────────────────────────

  lemma {:induction false} PostedOnlyIs(plan: seq<Period>)
    ensures forall p :: p in PostedOnly(plan) <==> p in plan && p.move.Some?
    ensures Accumulated(PostedOnly(plan)) == Accumulated(plan)
  {
    if plan != [] {
      var rest, last := plan[..|plan| - 1], plan[|plan| - 1];
      PostedOnlyIs(rest);
      assert plan == rest + [last];
      assert (PostedOnly(rest) + [last])[..|PostedOnly(rest)|] == PostedOnly(rest);
    }
  }

  /** A gain stands on the gain account and a loss on the loss account. */
  lemma ResultSums(d: DisposalAccounts, result: int, on: set<AccountId>)
    ensures Net(ResultLines(d, result), on) ==
            (if d.loss in on then Max(0, -result) else 0) - (if d.gain in on then Max(0, result) else 0)
  {
    if result > 0 {
      SumsOfOne(Credit(d.gain, result), on);
    } else if result < 0 {
      SumsOfOne(Debit(d.loss, Abs(result)), on);
    }
  }

  lemma DisposalRow(c: Chart, h: Holding, proceeds: int, date: Date)
    requires DisposeAsset(c, h, proceeds, date).result.Ok? && h.asset.cost > 0 && PostedArePositive(h.asset.plan)
    ensures DisposalAccountsOf(c).Some? && proceeds >= 0
    ensures var r := DisposeAsset(c, h, proceeds, date);
            var lines := DisposalLines(h.asset, DisposalAccountsOf(c).value, Accumulated(h.asset.plan), proceeds);
            && r.result == Ok(|h.db.moves|) && |r.h.db.moves| == |h.db.moves| + 1 && r.h.db.moves[..|h.db.moves|] == h.db.moves
            && PlainEntry(r.h.db.moves[|h.db.moves|], "GEN", date, None) && r.h.db.moves[|h.db.moves|].lines == lines
            && r.h.asset == h.asset.(state := Disposed, disposal := Some(|h.db.moves|), plan := PostedOnly(h.asset.plan))
  {
    hide DisposalLines, Balanced, Frozen, Accumulated, PostedOnly, DisposalAccountsOf, FreshLines;
    var lines := DisposalLines(h.asset, DisposalAccountsOf(c).value, Accumulated(h.asset.plan), proceeds);
    AccumulatedNonNegative(h.asset.plan);
    DisposalIsBalanced(h.asset, DisposalAccountsOf(c).value, Accumulated(h.asset.plan), proceeds);
    CreateAndPostEffect(c, h.db, NewMove("GEN", date, Entry, None, FromSen(lines)), lines);
    hide CreateAndPost;
  }

  lemma DisposalAccountsAre(c: Chart)
    requires DisposalAccountsOf(c).Some?
    ensures var d := DisposalAccountsOf(c).value;
            IsFirstOf(c, AssetBank, d.bank) && IsFirstCoded(c, "4970", d.gain) && IsFirstCoded(c, "6970", d.loss)
  {
    var d := DisposalAccountsOf(c).value;
    ByTypeIsFirst(c, AssetBank, d.bank);
    ByCodeIsFirst(c, "4970", d.gain);
    ByCodeIsFirst(c, "6970", d.loss);
    hide IsFirstOf, IsFirstCoded;
  }

  /**
   What a disposal moves on a set of accounts: the depreciation so far is debited back, the proceeds go to
   the bank, the cost is credited; proceeds above the book value are a gain, proceeds below it a loss.
   */
  function DisposalMoves(a: AssetAccounts, d: DisposalAccounts, cost: int, accumulated: int, proceeds: int, on: set<AccountId>): int {
    (if a.depreciation in on then accumulated else 0) + (if d.bank in on then proceeds else 0) - (if a.cost in on then cost else 0)
    - (if d.gain in on then Max(0, proceeds - (cost - accumulated)) else 0)
    + (if d.loss in on then Max(0, (cost - accumulated) - proceeds) else 0)
  }

  lemma DisposalMovesOn(a: Asset, d: DisposalAccounts, accumulated: int, proceeds: int, on: set<AccountId>)
    requires a.cost > 0 && accumulated >= 0 && proceeds >= 0
    ensures Net(DisposalLines(a, d, accumulated, proceeds), on) == DisposalMoves(a.accounts, d, a.cost, accumulated, proceeds, on)
  {
    HeadSums(a, d, accumulated, proceeds, on);
    ResultSums(d, proceeds - (a.cost - accumulated), on);
    HeadIsHead(a, d, accumulated, proceeds);
    hide DisposalHead, DisposalLines, ResultLines, Net;
    SumsOfConcat(DisposalHead(a, d, accumulated, proceeds), ResultLines(d, proceeds - (a.cost - accumulated)), on);
  }

  /**
   A disposal posts one entry with those movements, where the bank is the first bank account and gain and
   loss are the accounts coded 4970 and 6970; the asset keeps its posted periods only.
   */
  lemma DisposalPosts(c: Chart, h: Holding, proceeds: int, date: Date) returns (d: DisposalAccounts)
    requires DisposeAsset(c, h, proceeds, date).result.Ok? && h.asset.cost > 0 && PostedArePositive(h.asset.plan)
    ensures IsFirstOf(c, AssetBank, d.bank) && IsFirstCoded(c, "4970", d.gain) && IsFirstCoded(c, "6970", d.loss)
    ensures var a, r := h.asset, DisposeAsset(c, h, proceeds, date).h;
            && |r.db.moves| == |h.db.moves| + 1 && r.db.moves[..|h.db.moves|] == h.db.moves
            && PlainEntry(r.db.moves[|h.db.moves|], "GEN", date, None)
            && (forall on: set<AccountId> ::
                  Net(r.db.moves[|h.db.moves|].lines, on) == DisposalMoves(a.accounts, d, a.cost, Accumulated(a.plan), proceeds, on))
            && r.asset.state.Disposed? && r.asset.disposal == Some(|h.db.moves|)
            && (forall p :: p in r.asset.plan <==> p in a.plan && p.move.Some?)
  {
    hide DisposeAsset, DisposalAccountsOf, IsFirstOf, IsFirstCoded, DisposalLines, Accumulated, PostedOnly, Net, DisposalMoves, PlainEntry, PostedArePositive;
    DisposalRow(c, h, proceeds, date);
    d := DisposalAccountsOf(c).value;
    DisposalAccountsAre(c);
    PostedOnlyIs(h.asset.plan);
    AccumulatedNonNegative(h.asset.plan);
    forall on: set<AccountId>
      ensures Net(DisposalLines(h.asset, d, Accumulated(h.asset.plan), proceeds), on) ==
              DisposalMoves(h.asset.accounts, d, h.asset.cost, Accumulated(h.asset.plan), proceeds, on)
    {
      DisposalMovesOn(h.asset, d, Accumulated(h.asset.plan), proceeds, on);
    }
  }
}
