/** Contra and post-dated cheques (`banking.rs`), statement by statement. */
module Banking {
  import opened Wrappers
  import opened Ledger
  import opened Tables
  import opened ServiceModel
  import opened DocumentsModel
  import opened SettlementModel
  import opened Pools
  import opened BankingModel
  import Service
  import Payments

  // ─── Contra ─────────────────────────────────────────────────────────

  /** The documents of a list that are open on one GL side. */
  method CollectOpen(db: Database, ids: seq<MoveId>, isDebit: bool) returns (legs: seq<Leg>, total: int)
    ensures legs == OpenLegs(db.chart, db.View(), ids, isDebit) && total == Total(SlotsOf(legs))
  {
    hide OpenOf;
    legs, total := [], 0;
    for i := 0 to |ids|
      invariant legs == OpenLegs(db.chart, db.View(), ids[..i], isDebit) && total == Total(SlotsOf(legs))
    {
      assert ids[..i + 1][..i] == ids[..i];
      var id := ids[i];
      if id >= |db.moves| {
        continue;
      }
      var open := OpenOf(db.chart, db.recs, id, db.moves[id]);
      if open.Some? && open.value.amount > 0 && open.value.isDebit == isDebit {
        var leg := Leg(id, Slot(open.value.line, open.value.amount), isDebit);
        TotalOfOneMore(legs, leg);
        legs := legs + [leg];
        total := total + open.value.amount;
      }
    }
    assert ids[..|ids|] == ids;
  }

  lemma TotalOfOneMore(legs: seq<Leg>, l: Leg)
    ensures Total(SlotsOf(legs + [l])) == Total(SlotsOf(legs)) + l.slot.amount
  {
    var pool := SlotsOf(legs + [l]);
    assert pool[..|legs|] == SlotsOf(legs);
  }

  /** Reconciles the documents in turn against one line of the contra entry. */
  method OffsetEach(db: Database, legs: seq<Leg>, line: LineRef, amount: int)
    modifies db`moves, db`recs
    ensures db.View() == Offset(db.chart, old(db.View()), legs, line, amount)
  {
    hide AllocateOne, OpenOf;
    var remaining := amount;
    var i := 0;
    while i < |legs| && remaining > 0
      invariant 0 <= i <= |legs|
      invariant Offset(db.chart, old(db.View()), legs, line, amount) == Offset(db.chart, db.View(), legs[i..], line, remaining)
    {
      var leg := legs[i];
      assert legs[i..][0] == leg && legs[i..][1..] == legs[i + 1..];
      var take := Min(remaining, leg.slot.amount);
      OffsetDocument(db, line, take, leg.doc);
      remaining := remaining - take;
      i := i + 1;
    }
  }

  method OffsetDocument(db: Database, line: LineRef, take: int, doc: MoveId)
    modifies db`moves, db`recs
    ensures db.View() == AllocateOne(db.chart, old(db.View()), line, take, doc)
  {
    if doc >= |db.moves| {
      return;
    }
    var open := OpenOf(db.chart, db.recs, doc, db.moves[doc]);
    if open.Some? {
      Payments.AllocateDocument(db, open.value, line, take, doc);
    }
  }

  method Contra(db: Database, partner: PartnerId, ar: seq<MoveId>, ap: seq<MoveId>, date: Date) returns (r: Result<MoveId>)
    modifies db`moves, db`recs, db`nextNumber
    ensures Reply(db.View(), r) == BankingModel.Contra(db.chart, old(db.View()), partner, ar, ap, date)
  {
    hide CreateAndPost, Offset, OpenLegs, Total, ContraMove;
    var arLegs, arTotal := CollectOpen(db, ar, true);
    var apLegs, apTotal := CollectOpen(db, ap, false);
    var matched := Min(arTotal, apTotal);
    if matched <= 0 {
      return Err(NothingToContra);
    }
    var receivable, payable := db.chart.PartnerAccount(Some(partner), Receivable), db.chart.PartnerAccount(Some(partner), Payable);
    if receivable.None? || payable.None? {
      return Err(NoAccount);
    }
    r := Service.CreateAndPost(db, ContraMove(partner, date, payable.value, receivable.value, matched));
    if r.Err? || r.value >= |db.moves| {
      return;
    }
    var id := r.value;
    var onAr, onAp := LineOn(db.moves[id].lines, receivable.value), LineOn(db.moves[id].lines, payable.value);
    if onAr.None? || onAp.None? {
      return Err(NotFound);
    }
    OffsetEach(db, arLegs, LineRef(id, onAr.value), matched);
    OffsetEach(db, apLegs, LineRef(id, onAp.value), matched);
  }

  // ─── Post-dated cheques ─────────────────────────────────────────────

  /** `acc_pdc` beside the ledger. */
  class ChequeDesk {
    const db: Database
    var cheques: seq<Pdc>

    function View(): Desk
      reads this, db
    {
      Desk(db.View(), cheques)
    }

    constructor (db: Database)
      ensures this.db == db && cheques == []
    {
      this.db := db;
      cheques := [];
    }

    method RecordPdc(received: bool, partner: PartnerId, amount: int, maturity: Date, date: Date) returns (r: Result<nat>)
      modifies this`cheques, db`moves, db`nextNumber
      ensures DeskReply(View(), r) == BankingModel.RecordPdc(db.chart, old(View()), received, partner, amount, maturity, date)
    {
      hide CreateAndPost;
      if amount <= 0 {
        return Err(AmountNotPositive);
      }
      var accounts := PdcAccountsOf(db.chart);
      if accounts.None? {
        return Err(NoAccount);
      }
      var counterpart := db.chart.PartnerAccount(Some(partner), if received then Receivable else Payable);
      if counterpart.None? {
        return Err(NoAccount);
      }
      var lines := HoldingLines(accounts.value, counterpart.value, received, amount);
      var posted := Service.CreateAndPost(db, NewMove("GEN", date, Entry, Some(partner), FromSen(lines)));
      if posted.Err? {
        return Err(posted.error);
      }
      r := Ok(|cheques|);
      cheques := cheques + [Pdc(received, amount, maturity, posted.value, Holding)];
    }

    method ClearPdc(id: nat, date: Date) returns (r: Result<MoveId>)
      modifies this`cheques, db`moves, db`nextNumber
      ensures DeskReply(View(), r) == BankingModel.ClearPdc(db.chart, old(View()), id, date)
    {
      hide CreateAndPost;
      if id >= |cheques| {
        return Err(NotFound);
      }
      var p := cheques[id];
      if !p.state.Holding? {
        return Err(ChequeNotHeld);
      }
      var accounts, bank := PdcAccountsOf(db.chart), db.chart.FirstOfKind(AssetBank);
      if accounts.None? || bank.None? {
        return Err(NoAccount);
      }
      var lines := ClearingLines(accounts.value, bank.value, p.received, p.amount);
      r := Service.CreateAndPost(db, NewMove("BNK", date, Entry, None, FromSen(lines)));
      if r.Ok? {
        cheques := cheques[id := p.(state := Cleared)];
      }
    }

    method BouncePdc(id: nat, date: Date) returns (r: Result<()>)
      modifies this`cheques, db`moves, db`nextNumber
      ensures DeskReply(View(), r) == BankingModel.BouncePdc(db.chart, old(View()), id, date)
    {
      hide ReverseMove;
      if id >= |cheques| {
        return Err(NotFound);
      }
      if !cheques[id].state.Holding? {
        return Err(ChequeNotHeld);
      }
      var reversed := Service.ReverseMove(db, cheques[id].holding, date);
      if reversed.Err? {
        return Err(reversed.error);
      }
      cheques := cheques[id := cheques[id].(state := Bounced)];
      return Ok(());
    }

    /** Clearing a cheque adds one to the cleared ones exactly when it succeeds. */
    static lemma CountCleared(c: Chart, d: Desk, id: nat, date: Date)
      ensures var r := BankingModel.ClearPdc(c, d, id, date);
              ClearedCheques(r.desk.cheques) == ClearedCheques(d.cheques) + if r.result.Ok? then 1 else 0
    {
      hide CreateAndPost;
      if BankingModel.ClearPdc(c, d, id, date).result.Ok? {
        OneMoreCleared(d.cheques, id);
      }
    }

    /** The daily job: every matured cheque in hand is cleared, and counted if that worked. */
    method MatureDuePdcs(today: Date) returns (cleared: nat)
      modifies this`cheques, db`moves, db`nextNumber
      ensures View() == MatureDue(db.chart, old(View()), today)
      ensures cleared == ClearedCheques(cheques) - ClearedCheques(old(cheques))
    {
      hide BankingModel.ClearPdc;
      var due := Due(cheques, today, |cheques|);
      cleared := 0;
      for i := 0 to |due|
        invariant View() == ClearAll(db.chart, old(View()), due[..i], today)
        invariant cleared == ClearedCheques(cheques) - ClearedCheques(old(cheques))
      {
        assert due[..i + 1][..i] == due[..i];
        ghost var before := View();
        var r := ClearPdc(due[i], today);
        CountCleared(db.chart, before, due[i], today);
        if r.Ok? {
          cleared := cleared + 1;
        }
      }
      assert due[..|due|] == due;
    }
  }
}
