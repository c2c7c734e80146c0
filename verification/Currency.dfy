/** Period-end revaluation (`currency.rs`), statement by statement. */
module Currency {
  import opened Wrappers
  import opened Ledger
  import opened Tables
  import opened ServiceModel
  import opened CurrencyModel
  import opened Revaluation
  import Service

  lemma {:induction false} RateMissing(c: Chart, items: seq<FxItem>, asOf: Date, i: nat)
    requires i < |items| && RateOn(c, items[i].currency, asOf).None?
    ensures !RatesKnown(c, items, asOf)
  {
  }

  lemma ItemStep(c: Chart, items: seq<FxItem>, asOf: Date, i: nat)
    requires i < |items| && RatesKnown(c, items[..i], asOf) && RateOn(c, items[i].currency, asOf).Some?
    ensures RatesKnown(c, items[..i + 1], asOf)
    ensures var delta := ItemDelta(c, items[i], asOf);
            && NetGain(c, items[..i + 1], asOf) == NetGain(c, items[..i], asOf) + delta
            && RevalLines(c, items[..i + 1], asOf) ==
               RevalLines(c, items[..i], asOf) + if delta == 0 then [] else [DeltaLine(items[i].account, delta)]
  {
    assert items[..i + 1][..i] == items[..i] && items[..i + 1][i] == items[i];
    assert items[..i + 1] == items[..i] + [items[i]];
  }

  /** The lines of the items that moved, and the net gain. */
  method CollectDeltas(c: Chart, items: seq<FxItem>, asOf: Date) returns (r: Result<seq<Line>>, netGain: int)
    ensures if RatesKnown(c, items, asOf) then r == Ok(RevalLines(c, items, asOf)) && netGain == NetGain(c, items, asOf)
            else r == Err(NoRate)
  {
    var lines: seq<Line> := [];
    netGain := 0;
    for i := 0 to |items|
      invariant RatesKnown(c, items[..i], asOf)
      invariant lines == RevalLines(c, items[..i], asOf) && netGain == NetGain(c, items[..i], asOf)
    {
      var rate := RateOn(c, items[i].currency, asOf);
      if rate.None? {
        RateMissing(c, items, asOf, i);
        return Err(NoRate), 0;
      }
      ItemStep(c, items, asOf, i);
      var delta := FxDelta(items[i].open, items[i].booked, rate.value);
      if delta > 0 {
        lines := lines + [Debit(items[i].account, delta)];
      } else if delta < 0 {
        lines := lines + [Credit(items[i].account, Abs(delta))];
      }
      netGain := netGain + delta;
    }
    assert items[..|items|] == items;
    r := Ok(lines);
  }

  method PostAndReverse(db: Database, lines: seq<Line>, asOf: Date) returns (r: Result<Option<Pairing>>)
    modifies db`moves, db`nextNumber
    ensures Reply(db.View(), r) == Revaluation.PostAndReverse(db.chart, old(db.View()), lines, asOf)
  {
    hide CreateAndPost, ReverseMove;
    var posted := Service.CreateAndPost(db, NewMove("GEN", asOf, Entry, None, FromSen(lines)));
    if posted.Err? {
      return Err(posted.error);
    }
    var reversed := Service.ReverseMove(db, posted.value, asOf + 1);
    r := if reversed.Ok? then Ok(Some(Pairing(posted.value, reversed.value))) else Err(reversed.error);
  }

  method RevalueOpenItems(db: Database, asOf: Date) returns (r: Result<Option<Pairing>>)
    modifies db`moves, db`nextNumber
    ensures Reply(db.View(), r) == Revaluation.RevalueOpenItems(db.chart, old(db.View()), asOf)
  {
    hide Revaluation.PostAndReverse, OpenFxItems, RevalLines, NetGain, RatesKnown;
    var items := OpenFxItems(db.chart, db.moves, asOf);
    if db.chart.unrealizedFx.None? {
      return Err(NoFxAccounts);
    }
    var accounts := db.chart.unrealizedFx.value;
    var deltas, netGain := CollectDeltas(db.chart, items, asOf);
    if deltas.Err? {
      return Err(deltas.error);
    }
    var lines := deltas.value;
    if lines == [] {
      return Ok(None);
    }
    if netGain > 0 {
      lines := lines + [Credit(accounts.gain, netGain)];
    } else if netGain < 0 {
      lines := lines + [Debit(accounts.loss, Abs(netGain))];
    }
    assert lines == RevaluationLines(db.chart, items, asOf, accounts);
    r := PostAndReverse(db, lines, asOf);
  }
}
