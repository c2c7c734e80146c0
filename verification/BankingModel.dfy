/** AR/AP contra and post-dated cheques (`banking.rs`), as functions on the tables. */
module BankingModel {
  import opened Wrappers
  import opened Ledger
  import opened ServiceModel
  import opened DocumentsModel
  import opened SettlementModel
  import opened Pools

  // ─── Contra ─────────────────────────────────────────────────────────

  /** The documents of a list that are open on one GL side, with what is open. */
  function OpenLegs(c: Chart, s: State, ids: seq<MoveId>, isDebit: bool): seq<Leg> {
    if ids == [] then []
    else
      var earlier := OpenLegs(c, s, ids[..|ids| - 1], isDebit);
      var id := ids[|ids| - 1];
      match OpenCounterpart(c, s, id)
      case None => earlier
      case Some(o) =>
        if o.amount > 0 && o.isDebit == isDebit then earlier + [Leg(id, Slot(o.line, o.amount), o.isDebit)] else earlier
  }

  /** Offsets the documents in list order against one line, until `left` is used up. */
  function Offset(c: Chart, s: State, legs: seq<Leg>, line: LineRef, left: int): State
    decreases |legs|
  {
    if legs == [] || left <= 0 then s
    else
      var take := Min(left, legs[0].slot.amount);
      Offset(c, AllocateOne(c, s, line, take, legs[0].doc), legs[1..], line, left - take)
  }

  function ContraLines(payable: AccountId, receivable: AccountId, amount: int): seq<Line> {
    [Debit(payable, amount), Credit(receivable, amount)]
  }

  function ContraMove(partner: PartnerId, date: Date, payable: AccountId, receivable: AccountId, amount: int): NewMove {
    NewMove("GEN", date, Entry, Some(partner), FromSen(ContraLines(payable, receivable, amount)))
  }

  function Contra(c: Chart, s: State, partner: PartnerId, ar: seq<MoveId>, ap: seq<MoveId>, date: Date): Reply<MoveId> {
    var arLegs, apLegs := OpenLegs(c, s, ar, true), OpenLegs(c, s, ap, false);
    var matched := Min(Total(SlotsOf(arLegs)), Total(SlotsOf(apLegs)));
    var receivable, payable := c.PartnerAccount(Some(partner), Receivable), c.PartnerAccount(Some(partner), Payable);
    if matched <= 0 then Reply(s, Err(NothingToContra))
    else if receivable.None? || payable.None? then Reply(s, Err(NoAccount))
    else
      var posted := CreateAndPost(c, s, ContraMove(partner, date, payable.value, receivable.value, matched));
      if posted.result.Err? || posted.result.value >= |posted.db.moves| then posted
      else
        var id := posted.result.value;
        var lines := posted.db.moves[id].lines;
        var onAr, onAp := LineOn(lines, receivable.value), LineOn(lines, payable.value);
        if onAr.None? || onAp.None? then Reply(posted.db, Err(NotFound))
        else
          var s1 := Offset(c, posted.db, arLegs, LineRef(id, onAr.value), matched);
          Reply(Offset(c, s1, apLegs, LineRef(id, onAp.value), matched), Ok(id))
  }

  // ─── Post-dated cheques ─────────────────────────────────────────────

  datatype ChequeState = Holding | Cleared | Bounced

  datatype Pdc = Pdc(received: bool, amount: int, maturity: Date, holding: MoveId, state: ChequeState)

  /** The ledger together with `acc_pdc`. */
  datatype Desk = Desk(db: State, cheques: seq<Pdc>)

  datatype DeskReply<+T> = DeskReply(desk: Desk, result: Result<T>)

  datatype PdcAccounts = PdcAccounts(received: AccountId, issued: AccountId)

  function PdcAccountsOf(c: Chart): Option<PdcAccounts> {
    if c.ByCode("1150").Some? && c.ByCode("2150").Some?
    then Some(PdcAccounts(c.ByCode("1150").value, c.ByCode("2150").value)) else None
  }

  function HoldingLines(a: PdcAccounts, counterpart: AccountId, received: bool, amount: int): seq<Line> {
    if received then [Debit(a.received, amount), Credit(counterpart, amount)]
    else [Debit(counterpart, amount), Credit(a.issued, amount)]
  }

  function ClearingLines(a: PdcAccounts, bank: AccountId, received: bool, amount: int): seq<Line> {
    if received then [Debit(bank, amount), Credit(a.received, amount)]
    else [Debit(a.issued, amount), Credit(bank, amount)]
  }

  function RecordPdc(c: Chart, d: Desk, received: bool, partner: PartnerId, amount: int, maturity: Date, date: Date)
    : DeskReply<nat>
  {
    if amount <= 0 then DeskReply(d, Err(AmountNotPositive))
    else if PdcAccountsOf(c).None? then DeskReply(d, Err(NoAccount))
    else
      var counterpart := c.PartnerAccount(Some(partner), if received then Receivable else Payable);
      if counterpart.None? then DeskReply(d, Err(NoAccount))
      else
        var lines := HoldingLines(PdcAccountsOf(c).value, counterpart.value, received, amount);
        var posted := CreateAndPost(c, d.db, NewMove("GEN", date, Entry, Some(partner), FromSen(lines)));
        if posted.result.Err? then DeskReply(d.(db := posted.db), Err(posted.result.error))
        else DeskReply(Desk(posted.db, d.cheques + [Pdc(received, amount, maturity, posted.result.value, Holding)]), Ok(|d.cheques|))
  }

  function ClearPdc(c: Chart, d: Desk, id: nat, date: Date): DeskReply<MoveId> {
    if id >= |d.cheques| then DeskReply(d, Err(NotFound))
    else if !d.cheques[id].state.Holding? then DeskReply(d, Err(ChequeNotHeld))
    else
      var bank := c.FirstOfKind(AssetBank);
      if PdcAccountsOf(c).None? || bank.None? then DeskReply(d, Err(NoAccount))
      else
        var p := d.cheques[id];
        var lines := ClearingLines(PdcAccountsOf(c).value, bank.value, p.received, p.amount);
        var posted := CreateAndPost(c, d.db, NewMove("BNK", date, Entry, None, FromSen(lines)));
        if posted.result.Err? then DeskReply(d.(db := posted.db), Err(posted.result.error))
        else DeskReply(Desk(posted.db, d.cheques[id := p.(state := Cleared)]), posted.result)
  }

  function BouncePdc(c: Chart, d: Desk, id: nat, date: Date): DeskReply<()> {
    if id >= |d.cheques| then DeskReply(d, Err(NotFound))
    else if !d.cheques[id].state.Holding? then DeskReply(d, Err(ChequeNotHeld))
    else
      var r := ReverseMove(c, d.db, d.cheques[id].holding, date);
      if r.result.Err? then DeskReply(d.(db := r.db), Err(r.result.error))
      else DeskReply(Desk(r.db, d.cheques[id := d.cheques[id].(state := Bounced)]), Ok(()))
  }

  /** The held cheques whose maturity has come, among the first `n`. */
  function Due(cheques: seq<Pdc>, today: Date, n: nat): seq<nat>
    requires n <= |cheques|
  {
    if n == 0 then []
    else
      var before := Due(cheques, today, n - 1);
      if cheques[n - 1].state.Holding? && cheques[n - 1].maturity <= today then before + [n - 1] else before
  }

  /** Clears the listed cheques one by one; one that cannot be cleared is left for another day. */
  function ClearAll(c: Chart, d: Desk, ids: seq<nat>, today: Date): Desk {
    if ids == [] then d else ClearPdc(c, ClearAll(c, d, ids[..|ids| - 1], today), ids[|ids| - 1], today).desk
  }

  function MatureDue(c: Chart, d: Desk, today: Date): Desk {
    ClearAll(c, d, Due(d.cheques, today, |d.cheques|), today)
  }

  /** How many cheques have been cleared. */
  function ClearedCheques(cheques: seq<Pdc>): nat {
    if cheques == [] then 0
    else ClearedCheques(cheques[..|cheques| - 1]) + if cheques[|cheques| - 1].state.Cleared? then 1 else 0
  }

  lemma {:induction false} OneMoreCleared(cheques: seq<Pdc>, id: nat)
    requires id < |cheques| && !cheques[id].state.Cleared?
    ensures ClearedCheques(cheques[id := cheques[id].(state := Cleared)]) == ClearedCheques(cheques) + 1
  {
    var n := |cheques| - 1;
    var after := cheques[id := cheques[id].(state := Cleared)];
    if id == n {
      assert after[..n] == cheques[..n];
    } else {
      assert after[..n] == cheques[..n][id := cheques[..n][id].(state := Cleared)];
      OneMoreCleared(cheques[..n], id);
    }
  }
}
