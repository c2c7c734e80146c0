/** Year-end close and reopening (`closing.rs`), statement by statement. */
module Closing {
  import opened Wrappers
  import opened Ledger
  import opened Tables
  import opened ServiceModel
  import opened ClosingModel
  import Service

  method FindDrafts(moves: seq<Move>, w: Window) returns (found: bool)
    ensures found <==> exists i :: 0 <= i < |moves| && moves[i].stage.Draft? && w.Has(moves[i].date)
  {
    found := false;
    for i := 0 to |moves|
      invariant found <==> exists k :: 0 <= k < i && moves[k].stage.Draft? && w.Has(moves[k].date)
    {
      if moves[i].stage.Draft? && w.Has(moves[i].date) {
        found := true;
      }
    }
  }

  /** One flip line per P&L account with activity, and the debit-positive residual of them all. */
  method CollectFlips(c: Chart, moves: seq<Move>, w: Window) returns (lines: seq<Line>, net: int)
    ensures lines == FlipLines(c, moves, w, |c.accounts|) && net == FlipNet(c, moves, w, |c.accounts|)
  {
    lines, net := [], 0;
    for a := 0 to |c.accounts|
      invariant lines == FlipLines(c, moves, w, a) && net == FlipNet(c, moves, w, a)
    {
      if IsPlAccount(c, a) {
        var balance := Balance(moves, {a}, w);
        if balance > 0 {
          lines := lines + [Credit(a, balance)];
        } else if balance < 0 {
          lines := lines + [Debit(a, Abs(balance))];
        }
        net := net + balance;
      }
    }
  }

  /** The year is flagged, and the lock date moves forward when asked to. */
  method FlagClosed(db: Database, y: YearId, closing: Option<MoveId>, advance: bool)
    modifies db`years, db`lock
    ensures db.View() == MarkClosed(old(db.View()), y, closing, advance)
  {
    if y >= |db.years| {
      return;
    }
    db.years := db.years[y := db.years[y].(closed := true, closing := closing)];
    if advance {
      var to := db.years[y].to;
      db.lock := Some(if db.lock.Some? then Max(db.lock.value, to) else to);
    }
  }

  method CloseFiscalYear(db: Database, y: YearId, advance: bool) returns (r: Result<Option<MoveId>>)
    modifies db`moves, db`nextNumber, db`years, db`lock
    ensures Reply(db.View(), r) == ClosingModel.CloseFiscalYear(db.chart, old(db.View()), y, advance)
  {
    hide CreateAndPost, FlipLines, FlipNet, MarkClosed;
    if y >= |db.years| {
      return Err(NotFound);
    }
    var fy := db.years[y];
    if fy.closed {
      return Err(YearNotOpen);
    }
    var drafts := FindDrafts(db.moves, YearWindow(fy));
    if drafts {
      return Err(DraftsRemain);
    }
    var lines, net := CollectFlips(db.chart, db.moves, YearWindow(fy));
    if lines == [] {
      FlagClosed(db, y, None, advance);
      return Ok(None);
    }
    var retained := db.chart.ByCode("3900");
    if retained.None? {
      return Err(NoRetainedEarnings);
    }
    if net < 0 {
      lines := lines + [Credit(retained.value, Abs(net))];
    } else if net > 0 {
      lines := lines + [Debit(retained.value, net)];
    }
    assert lines == ClosingLines(db.chart, db.moves, YearWindow(fy), retained.value);
    var posted := Service.CreateAndPost(db, NewMove("GEN", fy.to, Entry, None, FromSen(lines)));
    if posted.Err? {
      return Err(posted.error);
    }
    FlagClosed(db, y, Some(posted.value), advance);
    return Ok(Some(posted.value));
  }

  method ReopenFiscalYear(db: Database, y: YearId) returns (r: Result<()>)
    modifies db`moves, db`nextNumber, db`years
    ensures Reply(db.View(), r) == ClosingModel.ReopenFiscalYear(db.chart, old(db.View()), y)
  {
    hide ServiceModel.ReverseMove;
    if y >= |db.years| {
      return Err(NotFound);
    }
    var fy := db.years[y];
    if !fy.closed {
      return Err(YearNotClosed);
    }
    if fy.closing.Some? {
      var reversed := Service.ReverseMove(db, fy.closing.value, fy.to + 1);
      if reversed.Err? {
        return Err(reversed.error);
      }
    }
    if y < |db.years| {
      db.years := db.years[y := db.years[y].(closed := false, closing := None)];
    }
    return Ok(());
  }
}
