/** Cancelling and resetting (`documents.rs`), statement by statement. */
module Undo {
  import opened Wrappers
  import opened Ledger
  import opened Tables
  import opened ServiceModel
  import opened DocumentsModel
  import opened SettlementModel
  import Service
  import Documents

  method CancelDocument(db: Database, id: MoveId, date: Date) returns (r: Result<MoveId>)
    modifies db`moves, db`recs, db`nextNumber
    ensures Reply(db.View(), r) == SettlementModel.CancelDocument(db.chart, old(db.View()), id, date)
  {
    hide ServiceModel.ReverseMove, OpenOf;
    if id >= |db.moves| {
      return Err(NotFound);
    }
    var m := db.moves[id];
    if !m.stage.Posted? {
      return Err(NotPosted);
    }
    if !IsDocument(m.kind) {
      return Err(NotADocument);
    }
    if m.paymentState.Reversed? {
      return Err(AlreadyReversed);
    }
    if !m.paymentState.NotPaid? {
      return Err(HasPayments);
    }
    var counterpart := OpenOf(db.chart, db.recs, id, m);
    if counterpart.None? {
      return Err(NoReconcilableLine);
    }
    var open := counterpart.value;
    r := Service.ReverseMove(db, id, date);
    if r.Err? || r.value >= |db.moves| || open.line.index >= |m.lines| {
      return;
    }
    var mirror := LineOn(db.moves[r.value].lines, m.lines[open.line.index].account);
    if mirror.None? {
      return Err(NotFound);
    }
    if open.amount <= 0 || id >= |db.moves| {
      return Err(RowRejected);
    }
    var mirrored := LineRef(r.value, mirror.value);
    var debit, credit := if open.isDebit then open.line else mirrored, if open.isDebit then mirrored else open.line;
    db.Reconcile(Reconcile(debit, credit, open.amount, 0));
    db.Update(id, db.moves[id].(paymentState := Reversed, residual := 0,
                                residualCurrency := if db.moves[id].rate.None? then None else Some(0)));
  }

  /** Period control shared by the two resets. */
  method CheckPeriods(db: Database, d: Date) returns (bar: Option<Error>)
    ensures bar == ResetBar(db.View(), d)
  {
    if db.lock.Some? && d <= db.lock.value {
      return Some(PeriodLocked);
    }
    if db.taxLock.Some? && d <= db.taxLock.value {
      return Some(TaxLocked);
    }
    var closed := Service.IsInClosedYear(db.years, d);
    if closed {
      return Some(YearClosed);
    }
    return None;
  }

  method ResetToDraft(db: Database, id: MoveId) returns (r: Result<()>)
    modifies db`moves
    ensures Reply(db.View(), r) == SettlementModel.ResetToDraft(db.chart, old(db.View()), id)
  {
    if id >= |db.moves| {
      return Err(NotFound);
    }
    var m := db.moves[id];
    if !m.stage.Posted? {
      return Err(NotPosted);
    }
    if !IsDocument(m.kind) {
      return Err(NotADocument);
    }
    if m.paymentState.Reversed? {
      return Err(AlreadyReversed);
    }
    if HasRecs(db.recs, id) {
      return Err(HasPayments);
    }
    var bar := CheckPeriods(db, m.date);
    if bar.Some? {
      return Err(bar.value);
    }
    r := Service.UnpostMove(db, id);
  }

  /** The reconciliations of a payment are removed, remembering which moves they had settled. */
  method RemoveReconciliations(db: Database, id: MoveId) returns (affected: seq<MoveId>)
    modifies db`recs
    ensures affected == Affected(old(db.recs), id)
    ensures db.View() == old(db.View()).(recs := DropRecs(old(db.recs), id))
  {
    affected := [];
    var kept: seq<Ledger.Reconcile> := [];
    for i := 0 to |db.recs|
      invariant db.View() == old(db.View())
      invariant affected == Affected(db.recs[..i], id) && kept == DropRecs(db.recs[..i], id)
    {
      assert db.recs[..i + 1][..i] == db.recs[..i];
      var r := db.recs[i];
      if Touches(r, id) {
        var other := if r.debit.move == id then r.credit.move else r.debit.move;
        if other != id && other !in affected {
          affected := affected + [other];
        }
      } else {
        kept := kept + [r];
      }
    }
    assert db.recs[..|db.recs|] == db.recs;
    db.recs := kept;
  }

  /** Clears the flag of a document's receivable and payable lines, then recomputes it. */
  method ReopenDocument(db: Database, id: MoveId)
    modifies db`moves
    ensures db.View() == Reopen(db.chart, old(db.View()), id)
  {
    if id >= |db.moves| {
      return;
    }
    db.Update(id, db.moves[id].(lines := Flag(db.chart, db.moves[id].lines, false)));
    Documents.RefreshPaymentState(db, id);
  }

  method ReopenEach(db: Database, ids: seq<MoveId>)
    modifies db`moves
    ensures db.View() == ReopenAll(db.chart, old(db.View()), ids)
  {
    hide Reopen;
    for i := 0 to |ids|
      invariant db.View() == ReopenAll(db.chart, old(db.View()), ids[..i])
    {
      assert ids[..i + 1][..i] == ids[..i];
      ReopenDocument(db, ids[i]);
    }
    assert ids[..|ids|] == ids;
  }

  method ResetPaymentToDraft(db: Database, id: MoveId) returns (r: Result<nat>)
    modifies db`moves, db`recs
    ensures Reply(db.View(), r) == SettlementModel.ResetPaymentToDraft(db.chart, old(db.View()), id)
  {
    hide Affected, DropRecs, ReopenAll, ServiceModel.UnpostMove, ResetBar;
    if id >= |db.moves| {
      return Err(NotFound);
    }
    var m := db.moves[id];
    if !m.stage.Posted? {
      return Err(NotPosted);
    }
    if !m.kind.Payment? {
      return Err(NotAPayment);
    }
    if m.rate.Some? {
      return Err(ForeignCurrency);
    }
    var bar := CheckPeriods(db, m.date);
    if bar.Some? {
      return Err(bar.value);
    }
    var affected := RemoveReconciliations(db, id);
    db.Update(id, m.(lines := Unflagged(m.lines)));
    ReopenEach(db, affected);
    var unposted := Service.UnpostMove(db, id);
    r := if unposted.Ok? then Ok(|affected|) else Err(unposted.error);
  }
}
