/** Depreciation periods that a run of the job cannot post, and when they are lost for good. */
module SkippedPeriods {
  import opened Wrappers
  import opened Ledger
  import opened Calendar
  import opened ServiceModel
  import opened Assets
  import opened AssetLife

  /** The journal and the accounts that depreciation entries post to exist. */
  predicate CanPost(c: Chart, a: Asset) {
    "GEN" in c.journals && a.accounts.expense < |c.accounts| && a.accounts.depreciation < |c.accounts|
  }

  /** A run on day `asOf` can post the period: it is worth something, due, and its date is open. */
  predicate Open(db: State, p: Period, asOf: Date) {
    p.amount > 0 && Number(p.date) <= asOf && !Frozen(db, Number(p.date))
  }

  /** Posting this period completes the depreciation. */
  predicate Completes(a: Asset, p: Period) {
    p.cumulative >= a.cost - a.salvage
  }

  lemma CreateAndPostPeriods(c: Chart, s: State, entry: NewMove)
    ensures CreateAndPost(c, s, entry).db.lock == s.lock && CreateAndPost(c, s, entry).db.years == s.years
  {
  }

  /** Posting, or failing to, moves no period boundary. */
  lemma {:induction false} RunKeepsPeriods(c: Chart, h: Holding, asOf: Date, n: nat)
    requires n <= |h.asset.plan|
    ensures PostPeriods(c, h, asOf, n).db.lock == h.db.lock && PostPeriods(c, h, asOf, n).db.years == h.db.years
  {
    if n > 0 {
      RunKeepsPeriods(c, h, asOf, n - 1);
      var before := PostPeriods(c, h, asOf, n - 1);
      CreateAndPostPeriods(c, before.db, DepreciationMove(before.asset, before.asset.plan[n - 1]));
      hide CreateAndPost;
    }
  }

  lemma SameFrozen(s: State, t: State, d: Date)
    requires t.lock == s.lock && t.years == s.years
    ensures Frozen(s, d) <==> Frozen(t, d)
  {
  }

  /** One period's turn. */
  lemma TurnPosts(c: Chart, h: Holding, before: Holding, n: nat, asOf: Date)
    requires SameAsset(h.asset, before.asset) && n < |h.asset.plan| && before.asset.plan[n] == h.asset.plan[n]
    requires CanPost(c, h.asset) && IsDue(h.asset.plan[n], asOf)
    requires before.db.lock == h.db.lock && before.db.years == h.db.years
    ensures PostPeriod(c, before, n).asset.plan[n].move.Some? <==> Open(h.db, h.asset.plan[n], asOf)
    ensures PostPeriod(c, before, n).asset.state ==
            if Open(h.db, h.asset.plan[n], asOf) && Completes(h.asset, h.asset.plan[n]) && before.asset.state.Running? then FullyDepreciated
            else before.asset.state
    ensures |PostPeriod(c, before, n).asset.plan| == |before.asset.plan|
    ensures forall i :: 0 <= i < |before.asset.plan| && i != n ==> PostPeriod(c, before, n).asset.plan[i] == before.asset.plan[i]
  {
    PostPeriodEffect(c, before, n, {});
    SameFrozen(h.db, before.db, Number(h.asset.plan[n].date));
    hide PostPeriod, Balance, Accumulated, Frozen, Number;
  }

  /** Among the first `n` periods the run posts one that completes the depreciation. */
  ghost predicate CompletedBy(h: Holding, asOf: Date, n: nat)
    requires n <= |h.asset.plan|
  {
    exists i :: 0 <= i < n && h.asset.plan[i].move.None? && Open(h.db, h.asset.plan[i], asOf) && Completes(h.asset, h.asset.plan[i])
  }

  /** Which of the first `n` periods a run posts, and when that completes the depreciation. */
  lemma {:induction false} RunPosts(c: Chart, h: Holding, asOf: Date, n: nat, k: nat)
    requires AssetOk(h.asset) && CanPost(c, h.asset) && n <= |h.asset.plan| && k < |h.asset.plan|
    ensures var t := PostPeriods(c, h, asOf, n).asset;
            && (t.plan[k].move.Some? <==> h.asset.plan[k].move.Some? || (k < n && Open(h.db, h.asset.plan[k], asOf)))
            && (t.state.FullyDepreciated? <==> h.asset.state.FullyDepreciated? || (h.asset.state.Running? && CompletedBy(h, asOf, n)))
            && (t.state.Running? ==> h.asset.state.Running?)
  {
    hide AssetOk, Tied, Number, Frozen, PostPeriod, CanPost, Completes;
    if n > 0 {
      RunPosts(c, h, asOf, n - 1, k);
      PostPeriodsKeep(c, h, asOf, n - 1, {});
      RunKeepsPeriods(c, h, asOf, n - 1);
      RunStates(h.asset);
      RunStates(PostPeriods(c, h, asOf, n - 1).asset);
      OneMore(h, asOf, n);
      var before := PostPeriods(c, h, asOf, n - 1);
      if IsDue(h.asset.plan[n - 1], asOf) {
        TurnPosts(c, h, before, n - 1, asOf);
      }
      hide CompletedBy;
    }
  }

  lemma OneMore(h: Holding, asOf: Date, n: nat)
    requires 0 < n <= |h.asset.plan|
    ensures CompletedBy(h, asOf, n) <==>
            CompletedBy(h, asOf, n - 1) ||
            (h.asset.plan[n - 1].move.None? && Open(h.db, h.asset.plan[n - 1], asOf) && Completes(h.asset, h.asset.plan[n - 1]))
  {
    hide Open, Completes;
  }

  lemma RunStates(a: Asset)
    requires AssetOk(a)
    ensures a.state.Running? || a.state.FullyDepreciated?
  {
  }

  // ─── Lost for good ──────────────────────────────────────────────────

  /** Whatever happens later, period `k` is not posted. */
  ghost predicate NeverPosted(c: Chart, h: Holding, k: nat)
    requires k < |h.asset.plan|
  {
    forall steps :: Live(c, h, steps).asset.plan[k].move.None?
  }

  /** A fully depreciated asset is not looked at again. */
  lemma {:induction false} FullIsFinal(c: Chart, h: Holding, steps: seq<AssetStep>)
    requires h.asset.state.FullyDepreciated?
    ensures Live(c, h, steps).asset == h.asset
  {
    if steps != [] {
      FullIsFinal(c, h, steps[..|steps| - 1]);
    }
  }

  /** While the asset runs, opening the books and running the job once more posts whatever is left. */
  lemma RunningIsRetried(c: Chart, h: Holding, k: nat)
    requires AssetOk(h.asset) && CanPost(c, h.asset) && h.asset.state.Running? && k < |h.asset.plan|
    requires h.asset.plan[k].amount > 0
    ensures !NeverPosted(c, h, k)
  {
    var unlocked := h.db.(lock := None, years := []);
    var date := Number(h.asset.plan[k].date);
    var steps := [Other(unlocked), Job(date)];
    var ready := h.(db := unlocked);
    assert steps[..1] == [Other(unlocked)] && [Other(unlocked)][..0] == [];
    assert Live(c, h, []) == h;
    assert Live(c, h, [Other(unlocked)]) == ready;
    RunPosts(c, ready, date, |h.asset.plan|, k);
    assert Live(c, h, steps).asset.plan[k].move.Some?;
  }

  /** A period that is worth nothing is never posted. */
  lemma {:induction false} WorthlessIsNeverPosted(c: Chart, h: Holding, k: nat, steps: seq<AssetStep>)
    requires AssetOk(h.asset) && CanPost(c, h.asset) && k < |h.asset.plan| && h.asset.plan[k].amount <= 0
    ensures Live(c, h, steps).asset.plan[k].move.None?
  {
    LiveKeepsAsset(c, h, steps);
    SameAmount(h.asset, Live(c, h, steps).asset, k);
  }

  lemma SameAmount(a: Asset, b: Asset, k: nat)
    requires AssetOk(a) && AssetOk(b) && SameAsset(a, b) && k < |a.plan| && a.plan[k].amount <= 0
    ensures b.plan[k].move.None?
  {
    var plan := Schedule(a.cost, a.salvage, a.life, a.start);
    hide Schedule, Regular;
    assert a.plan[k].(move := None) == plan[k] && b.plan[k].(move := None) == plan[k];
  }

  /** What one run leaves of a period and of the asset's state. */
  lemma RunLeaves(c: Chart, h: Holding, asOf: Date, k: nat)
    requires AssetOk(h.asset) && CanPost(c, h.asset) && k < |h.asset.plan|
    ensures var t := PostDue(c, h, asOf).asset;
            && |t.plan| == |h.asset.plan| && AssetOk(t) && t.accounts == h.asset.accounts && t.plan[k].amount == h.asset.plan[k].amount
            && (t.plan[k].move.Some? <==> h.asset.plan[k].move.Some? || (h.asset.state.Running? && Open(h.db, h.asset.plan[k], asOf)))
            && (t.state.FullyDepreciated? <==> h.asset.state.FullyDepreciated? || CompletedBy(h, asOf, |h.asset.plan|))
  {
    PostDueKeeps(c, h, asOf, {});
    SamePeriod(h.asset, PostDue(c, h, asOf).asset, k);
    RunStates(h.asset);
    hide AssetOk, Tied, CanPost, PostPeriods, Open, CompletedBy;
    if h.asset.state.Running? {
      RunPosts(c, h, asOf, |h.asset.plan|, k);
    }
  }

  lemma SamePeriod(a: Asset, b: Asset, k: nat)
    requires AssetOk(a) && AssetOk(b) && SameAsset(a, b) && k < |a.plan|
    ensures b.plan[k].amount == a.plan[k].amount
  {
    var plan := Schedule(a.cost, a.salvage, a.life, a.start);
    hide Schedule, Regular;
    assert a.plan[k].(move := None) == plan[k] && b.plan[k].(move := None) == plan[k];
  }

  /**
   When a period is lost for good. After a run of the job on day `asOf`, period `k` stays unposted through
   everything that can happen later exactly when it was unposted before and it is worth nothing, or the
   asset was fully depreciated already, or this run posts a period that completes the depreciation (it
   is due, and its date open) and not `k`.
   */
  lemma LostForGoodWhen(c: Chart, h: Holding, asOf: Date, k: nat)
    requires AssetOk(h.asset) && CanPost(c, h.asset) && k < |h.asset.plan|
    ensures var a := h.asset;
            NeverPosted(c, PostDue(c, h, asOf), k) <==>
            a.plan[k].move.None? &&
            (a.plan[k].amount <= 0 || a.state.FullyDepreciated? || (CompletedBy(h, asOf, |a.plan|) && !Open(h.db, a.plan[k], asOf)))
  {
    RunLeaves(c, h, asOf, k);
    var t := PostDue(c, h, asOf);
    RunStates(h.asset);
    RunStates(t.asset);
    CanPostStays(c, h.asset, t.asset);
    if h.asset.plan[k].amount <= 0 {
      assert h.asset.plan[k].move.None? by {
        SameAmount(h.asset, h.asset, k);
      }
      forall steps ensures Live(c, t, steps).asset.plan[k].move.None? {
        WorthlessIsNeverPosted(c, t, k, steps);
      }
    } else if t.asset.state.Running? {
      RunningIsRetried(c, t, k);
    } else {
      hide AssetOk, Number, Frozen, PostDue, CompletedBy, CanPost;
      forall steps ensures Live(c, t, steps).asset == t.asset {
        FullIsFinal(c, t, steps);
      }
      assert t.asset.plan[k].move.Some? ==> Live(c, t, []).asset.plan[k].move.Some?;
    }
  }

  lemma RegularPeriods(a: Asset)
    requires AssetOk(a) && EnoughFor(a)
    ensures |a.plan| == a.life > 0
    ensures forall i :: 0 <= i < |a.plan| ==> a.plan[i].amount > 0 && (Completes(a, a.plan[i]) <==> i == a.life - 1)
    ensures a.state.FullyDepreciated? <==> a.plan[a.life - 1].move.Some?
  {
    EnoughIsRegular(a);
    var plan := Schedule(a.cost, a.salvage, a.life, a.start);
    PeriodAt(a.cost, a.salvage, a.life, a.start, a.life - 1);
    hide Schedule, EnoughFor;
    forall i | 0 <= i < |a.plan| ensures a.plan[i].amount > 0 && (Completes(a, a.plan[i]) <==> i == a.life - 1) {
      assert a.plan[i].(move := None) == plan[i];
    }
  }

  /**
   With enough to spread only the last period completes the depreciation, so a run loses period `k`
   exactly when it can post the last one and not `k`.
   */
  lemma LostWithTheLast(c: Chart, h: Holding, asOf: Date, k: nat)
    requires AssetOk(h.asset) && EnoughFor(h.asset) && CanPost(c, h.asset) && k < |h.asset.plan|
    ensures var a, last := h.asset, h.asset.plan[|h.asset.plan| - 1];
            NeverPosted(c, PostDue(c, h, asOf), k) <==>
            a.plan[k].move.None? && (a.state.FullyDepreciated? || (Open(h.db, last, asOf) && !Open(h.db, a.plan[k], asOf)))
  {
    RegularPeriods(h.asset);
    RunStates(h.asset);
    LostForGoodWhen(c, h, asOf, k);
    CompletedByLast(h, asOf);
    hide AssetOk, EnoughFor, CanPost, Open, Completes, NeverPosted, PostDue, CompletedBy, Number, Frozen;
  }

  /** Where only the last period completes the depreciation, a run completes it by posting that one. */
  lemma CompletedByLast(h: Holding, asOf: Date)
    requires |h.asset.plan| > 0 && forall i :: 0 <= i < |h.asset.plan| ==> (Completes(h.asset, h.asset.plan[i]) <==> i == |h.asset.plan| - 1)
    ensures var last := h.asset.plan[|h.asset.plan| - 1];
            CompletedBy(h, asOf, |h.asset.plan|) <==> last.move.None? && Open(h.db, last, asOf)
  {
    hide Open, Completes;
  }

  lemma CanPostStays(c: Chart, a: Asset, b: Asset)
    requires CanPost(c, a) && b.accounts == a.accounts
    ensures CanPost(c, b)
  {
  }

  // ─── A run that loses one ───────────────────────────────────────────

  /** Later periods have later dates. */
  lemma LaterPeriodIsLater(a: Asset, i: nat, k: nat)
    requires AssetOk(a) && a.start.Valid() && i < k < |a.plan|
    ensures Number(a.plan[i].date) < Number(a.plan[k].date)
  {
    var plan := Schedule(a.cost, a.salvage, a.life, a.start);
    ScheduleIsExact(a.cost, a.salvage, a.life, a.start);
    assert a.plan[i].(move := None) == plan[i] && a.plan[k].(move := None) == plan[k];
    NextMonthEnd(MonthIndex(a.start) + i);
    NextMonthEnd(MonthIndex(a.start) + k);
    hide Number, EndOfMonth, MonthIndex, Schedule;
    LaterMonthIsLater(a.plan[i].date, a.plan[k].date);
  }

  lemma {:induction false} OneMissing(plan: seq<Period>)
    requires |plan| > 0 && plan[0].move.None? && forall k :: 1 <= k < |plan| ==> plan[k].move.Some?
    ensures Accumulated(plan) == SumOf(plan) - plan[0].amount
  {
    if |plan| == 1 {
      assert plan[..0] == [];
    } else {
      OneMissing(plan[..|plan| - 1]);
    }
  }

  /** Behind a lock over the first month, every later month is open. */
  lemma LaterMonthsAreOpen(db: State, a: Asset, asOf: Date)
    requires AssetOk(a) && a.start.Valid() && |a.plan| > 1 && (forall k :: 0 <= k < |a.plan| ==> a.plan[k].amount > 0)
    requires db.years == [] && db.lock == Some(Number(a.plan[0].date)) && asOf >= Number(a.plan[|a.plan| - 1].date)
    ensures !Open(db, a.plan[0], asOf)
    ensures forall k :: 0 < k < |a.plan| ==> Open(db, a.plan[k], asOf)
  {
    hide AssetOk, Number;
    forall k | 0 < k < |a.plan| ensures Open(db, a.plan[k], asOf) {
      LaterPeriodIsLater(a, 0, k);
      if k < |a.plan| - 1 {
        LaterPeriodIsLater(a, k, |a.plan| - 1);
      }
    }
  }

  /** Every month but the first is posted, and nothing else. */
  ghost predicate OnlyFirstMissing(plan: seq<Period>) {
    |plan| > 0 && forall k :: 0 <= k < |plan| ==> (plan[k].move.Some? <==> k > 0) && plan[k].amount > 0
  }

  lemma RunSkipsFirst(c: Chart, h: Holding, asOf: Date)
    requires AssetOk(h.asset) && CanPost(c, h.asset) && h.asset.state.Running? && |h.asset.plan| > 1
    requires forall k :: 0 <= k < |h.asset.plan| ==> h.asset.plan[k].move.None? && h.asset.plan[k].amount > 0
    requires !Open(h.db, h.asset.plan[0], asOf) && forall k :: 0 < k < |h.asset.plan| ==> Open(h.db, h.asset.plan[k], asOf)
    ensures |PostDue(c, h, asOf).asset.plan| == |h.asset.plan| && OnlyFirstMissing(PostDue(c, h, asOf).asset.plan)
  {
    hide AssetOk, CanPost, Open, PostDue, CompletedBy;
    RunLeaves(c, h, asOf, 0);
    var t := PostDue(c, h, asOf).asset;
    forall k | 0 <= k < |t.plan| ensures (t.plan[k].move.Some? <==> k > 0) && t.plan[k].amount > 0 {
      RunLeaves(c, h, asOf, k);
    }
  }

  /**
   The failing run: the books are locked over the first month of an asset with two or more, and the job
   runs after its end. The asset is then fully depreciated with less than cost less salvage posted, and
   no later run makes up for it.
   */
  lemma LockedFirstMonthIsLost(c: Chart, db: State, draft: Asset, asOf: Date)
    requires ConfirmAsset(draft).Ok? && draft.start.Valid() && EnoughFor(draft) && CanPost(c, draft) && draft.life > 1
    requires |ConfirmAsset(draft).value.plan| == draft.life
    requires var plan := ConfirmAsset(draft).value.plan;
             db.years == [] && db.lock == Some(Number(plan[0].date)) && asOf >= Number(plan[draft.life - 1].date)
    ensures var t := PostDue(c, Holding(db, ConfirmAsset(draft).value), asOf);
            && t.asset.state.FullyDepreciated? && |t.asset.plan| == draft.life && t.asset.plan[0].move.None?
            && Accumulated(t.asset.plan) < draft.cost - draft.salvage
            && NeverPosted(c, t, 0)
  {
    var a := ConfirmAsset(draft).value;
    var h := Holding(db, a);
    ConfirmedIsOk(draft);
    FreshPlan(draft);
    RegularPeriods(a);
    hide AssetOk, ConfirmAsset, PostDue, EnoughFor, CanPost, Completes, Open, CompletedBy, NeverPosted;
    LaterMonthsAreOpen(db, a, asOf);
    RunSkipsFirst(c, h, asOf);
    CompletedByLast(h, asOf);
    RunLeaves(c, h, asOf, 0);
    LostForGoodWhen(c, h, asOf, 0);
    MissingIsShort(c, h, asOf);
  }

  lemma FreshPlan(draft: Asset)
    requires ConfirmAsset(draft).Ok?
    ensures forall k :: 0 <= k < |ConfirmAsset(draft).value.plan| ==> ConfirmAsset(draft).value.plan[k].move.None?
    ensures ConfirmAsset(draft).value.state.Running? && ConfirmAsset(draft).value == draft.(plan := ConfirmAsset(draft).value.plan, state := Running)
  {
  }

  /** With only the first period missing, less than the whole has been depreciated. */
  lemma MissingIsShort(c: Chart, h: Holding, asOf: Date)
    requires AssetOk(h.asset) && h.asset.start.Valid()
    requires var t := PostDue(c, h, asOf).asset;
             && |t.plan| > 0 && t.plan[0].move.None? && t.plan[0].amount > 0 && forall k :: 1 <= k < |t.plan| ==> t.plan[k].move.Some?
    ensures Accumulated(PostDue(c, h, asOf).asset.plan) < h.asset.cost - h.asset.salvage
  {
    PostDueKeeps(c, h, asOf, {});
    var t := PostDue(c, h, asOf).asset;
    var plan := Schedule(t.cost, t.salvage, t.life, t.start);
    ScheduleIsExact(t.cost, t.salvage, t.life, t.start);
    OneMissing(t.plan);
    hide Schedule, PostDue, Tied, Number;
    forall k | 0 <= k < |t.plan| ensures t.plan[k].amount == plan[k].amount {
      assert t.plan[k].(move := None) == plan[k];
    }
    SumOfSame(t.plan, plan);
  }
}
