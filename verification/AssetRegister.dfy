/** The depreciation job and disposal (`assets.rs`) on the asset register, row by row. */
module AssetRegister {
  import opened Wrappers
  import opened Ledger
  import opened Tables
  import opened Calendar
  import opened ServiceModel
  import opened Assets
  import Service

  /** `acc_asset` with its schedules, beside the ledger. */
  class Register {
    const db: Database
    var assets: seq<Asset>

    constructor (db: Database)
      ensures this.db == db && assets == []
    {
      this.db := db;
      assets := [];
    }

    /** The ledger with one of the assets. */
    function HoldingOf(id: nat): Holding
      reads this, db
      requires id < |assets|
    {
      Holding(db.View(), assets[id])
    }

    /** Confirming a draft asset materializes its schedule and sets it running. */
    method Confirm(id: nat) returns (r: Result<nat>)
      requires id < |assets| ==> assets[id].start.Valid()
      modifies this`assets
      ensures if id >= |old(assets)| then r == Err(NotFound) && assets == old(assets)
              else if ConfirmAsset(old(assets[id])).Ok? then
                r == Ok(|ConfirmAsset(old(assets[id])).value.plan|) && assets == old(assets)[id := ConfirmAsset(old(assets[id])).value]
              else r == Err(ConfirmAsset(old(assets[id])).error) && assets == old(assets)
    {
      if id >= |assets| {
        return Err(NotFound);
      }
      var a := assets[id];
      if !a.state.DraftAsset? {
        return Err(WrongAssetState);
      }
      var schedule := BuildSchedule(a.cost, a.salvage, a.life, a.start);
      if schedule == [] {
        return Err(NothingToDepreciate);
      }
      assets := assets[id := a.(plan := schedule, state := Running)];
      return Ok(|schedule|);
    }

    /** One planned period: posted and marked, or left for another run. */
    method PostOne(id: nat, k: nat) returns (done: bool)
      requires id < |assets| && k < |assets[id].plan|
      modifies this`assets, db`moves, db`nextNumber
      ensures |assets| == |old(assets)| && HoldingOf(id) == PostPeriod(db.chart, old(HoldingOf(id)), k)
      ensures |assets[id].plan| == |old(assets[id].plan)|
      ensures forall i :: 0 <= i < |assets[id].plan| && i != k ==> assets[id].plan[i] == old(assets[id].plan)[i]
      ensures old(assets[id].plan[k].move.None?) ==>
                PostedPeriods(assets[id].plan) == PostedPeriods(old(assets[id].plan)) + if done then 1 else 0
      ensures forall i :: 0 <= i < |assets| && i != id ==> assets[i] == old(assets)[i]
    {
      hide CreateAndPost;
      var a := assets[id];
      var p := a.plan[k];
      var posted := Service.CreateAndPost(db, DepreciationMove(a, p));
      if posted.Err? {
        return false;
      }
      if p.move.None? {
        OneMorePosted(a.plan, k, posted.value);
      }
      a := a.(plan := a.plan[k := p.(move := Some(posted.value))]);
      if p.cumulative >= a.cost - a.salvage && a.state.Running? {
        a := a.(state := FullyDepreciated);
      }
      assets := assets[id := a];
      return true;
    }

    /** The due periods of one asset, in order; whether it is running was asked once, before the first. */
    method PostDueOf(id: nat, asOf: Date) returns (posted: nat)
      requires id < |assets|
      modifies this`assets, db`moves, db`nextNumber
      ensures |assets| == |old(assets)| && HoldingOf(id) == PostDue(db.chart, old(HoldingOf(id)), asOf)
      ensures posted == PostedPeriods(assets[id].plan) - PostedPeriods(old(assets[id].plan))
      ensures forall i :: 0 <= i < |assets| && i != id ==> assets[i] == old(assets)[i]
    {
      hide PostPeriod, IsDue, PostedPeriods;
      posted := 0;
      var a := assets[id];
      if !a.state.Running? {
        return;
      }
      for k := 0 to |a.plan|
        invariant |assets| == |old(assets)| && HoldingOf(id) == PostPeriods(db.chart, old(HoldingOf(id)), asOf, k)
        invariant forall i :: 0 <= i < |assets| && i != id ==> assets[i] == old(assets)[i]
        invariant |assets[id].plan| == |a.plan| && forall i :: k <= i < |a.plan| ==> assets[id].plan[i] == a.plan[i]
        invariant posted == PostedPeriods(assets[id].plan) - PostedPeriods(a.plan)
      {
        if IsDue(a.plan[k], asOf) {
          DueIsUnposted(a.plan[k], asOf);
          var done := PostOne(id, k);
          if done {
            posted := posted + 1;
          }
        }
      }
    }

    /** The job: asset by asset. */
    method PostDueDepreciation(asOf: Date) returns (posted: nat)
      modifies this`assets, db`moves, db`nextNumber
      ensures Portfolio(db.View(), assets) == PostDueAll(db.chart, Portfolio(old(db.View()), old(assets)), asOf, |old(assets)|)
      ensures posted == PostedInAll(assets) - PostedInAll(old(assets))
    {
      hide PostDue, PostedPeriods, PostedInAll;
      posted := 0;
      for id := 0 to |assets|
        invariant |assets| == |old(assets)|
        invariant posted == PostedInAll(assets) - PostedInAll(old(assets))
        invariant Portfolio(db.View(), assets) == PostDueAll(db.chart, Portfolio(old(db.View()), old(assets)), asOf, id)
      {
        ghost var before := assets;
        var n := PostDueOf(id, asOf);
        assert assets == before[id := assets[id]];
        PostedInOne(before, id, assets[id]);
        posted := posted + n;
      }
    }

    method Dispose(id: nat, proceeds: int, date: Date) returns (r: Result<MoveId>)
      modifies this`assets, db`moves, db`nextNumber
      ensures |assets| == |old(assets)|
      ensures id < |assets| ==> HoldingReply(HoldingOf(id), r) == DisposeAsset(db.chart, old(HoldingOf(id)), proceeds, date)
      ensures id >= |assets| ==> r == Err(NotFound) && db.View() == old(db.View())
      ensures forall i :: 0 <= i < |assets| && i != id ==> assets[i] == old(assets)[i]
    {
      hide DisposeAsset;
      if id >= |assets| {
        return Err(NotFound);
      }
      r := DisposeKnown(id, proceeds, date);
    }

    method DisposeKnown(id: nat, proceeds: int, date: Date) returns (r: Result<MoveId>)
      requires id < |assets|
      modifies this`assets, db`moves, db`nextNumber
      ensures |assets| == |old(assets)|
      ensures HoldingReply(HoldingOf(id), r) == DisposeAsset(db.chart, old(HoldingOf(id)), proceeds, date)
      ensures forall i :: 0 <= i < |assets| && i != id ==> assets[i] == old(assets)[i]
    {
      hide CreateAndPost, Accumulated, DisposalAccountsOf, PostedOnly, FromSen;
      var a := assets[id];
      if !a.state.Running? && !a.state.FullyDepreciated? {
        return Err(WrongAssetState);
      }
      if proceeds < 0 {
        return Err(AmountNotPositive);
      }
      var accounts := DisposalAccountsOf(db.chart);
      if accounts.None? {
        return Err(NoAccount);
      }
      var accumulated := Accumulated(a.plan);
      var result := proceeds - (a.cost - accumulated);
      var lines: seq<Line> := [];
      if accumulated > 0 {
        lines := lines + [Debit(a.accounts.depreciation, accumulated)];
      }
      if proceeds > 0 {
        lines := lines + [Debit(accounts.value.bank, proceeds)];
      }
      lines := lines + [Credit(a.accounts.cost, a.cost)];
      if result > 0 {
        lines := lines + [Credit(accounts.value.gain, result)];
      } else if result < 0 {
        lines := lines + [Debit(accounts.value.loss, Abs(result))];
      }
      assert lines == DisposalLines(a, accounts.value, accumulated, proceeds);
      r := Service.CreateAndPost(db, NewMove("GEN", date, Entry, None, FromSen(lines)));
      if r.Ok? {
        assets := assets[id := a.(state := Disposed, disposal := Some(r.value), plan := PostedOnly(a.plan))];
      }
    }
  }

  /** How many periods of a plan are posted. */
  function PostedPeriods(plan: seq<Period>): nat {
    if plan == [] then 0 else PostedPeriods(plan[..|plan| - 1]) + if plan[|plan| - 1].move.Some? then 1 else 0
  }

  function PostedInAll(assets: seq<Asset>): nat {
    if assets == [] then 0 else PostedInAll(assets[..|assets| - 1]) + PostedPeriods(assets[|assets| - 1].plan)
  }

  lemma DueIsUnposted(p: Period, asOf: Date)
    ensures IsDue(p, asOf) ==> p.move.None?
  {
  }

  lemma {:induction false} OneMorePosted(plan: seq<Period>, k: nat, move: MoveId)
    requires k < |plan| && plan[k].move.None?
    ensures PostedPeriods(plan[k := plan[k].(move := Some(move))]) == PostedPeriods(plan) + 1
  {
    var n := |plan| - 1;
    var after := plan[k := plan[k].(move := Some(move))];
    if k == n {
      assert after[..n] == plan[..n];
    } else {
      assert after[..n] == plan[..n][k := plan[..n][k].(move := Some(move))];
      OneMorePosted(plan[..n], k, move);
    }
  }

  lemma {:induction false} PostedInOne(assets: seq<Asset>, id: nat, a: Asset)
    requires id < |assets|
    ensures PostedInAll(assets[id := a]) == PostedInAll(assets) - PostedPeriods(assets[id].plan) + PostedPeriods(a.plan)
  {
    var n := |assets| - 1;
    if id == n {
      assert assets[id := a][..n] == assets[..n];
    } else {
      assert assets[id := a][..n] == assets[..n][id := a];
      PostedInOne(assets[..n], id, a);
    }
  }

  /** The ledger with all assets. */
  datatype Portfolio = Portfolio(db: State, assets: seq<Asset>)

  /** One run of the job over the first `n` assets. */
  function PostDueAll(c: Chart, p: Portfolio, asOf: Date, n: nat): (r: Portfolio)
    requires n <= |p.assets|
    ensures |r.assets| == |p.assets|
    ensures forall i :: n <= i < |p.assets| ==> r.assets[i] == p.assets[i]
  {
    if n == 0 then p
    else
      var before := PostDueAll(c, p, asOf, n - 1);
      var h := PostDue(c, Holding(before.db, before.assets[n - 1]), asOf);
      Portfolio(h.db, before.assets[n - 1 := h.asset])
  }
}
