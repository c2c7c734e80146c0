/** Which entry each service posts: its accounts, found from the chart, its sides, its date and its partner. */
module Entries {
  import opened Wrappers
  import opened Ledger
  import opened Calendar
  import opened ServiceModel
  import opened CurrencyModel
  import opened DocumentsModel
  import opened SettlementModel
  import opened BankingModel
  import opened Assets
  import opened Invariant
  import opened AccountLookup

  /** The header of a plain entry on the books. */
  ghost predicate PlainEntry(row: Move, journal: string, date: Date, partner: Option<PartnerId>) {
    row.stage.Posted? && row.kind.Entry? && row.journal == journal && row.date == date && row.partner == partner
  }

  /** From `s` to `t` one entry was added, which moves `amount` from the account it credits to the one it debits. */
  ghost predicate Transfers(s: State, t: State, journal: string, date: Date, partner: Option<PartnerId>,
                            to: AccountId, from: AccountId, amount: int) {
    && |t.moves| == |s.moves| + 1 && t.moves[..|s.moves|] == s.moves && t.recs == s.recs
    && PlainEntry(t.moves[|s.moves|], journal, date, partner)
    && t.moves[|s.moves|].lines == [Debit(to, amount), Credit(from, amount)]
  }

  lemma PairIsPosted(c: Chart, s: State, journal: string, date: Date, partner: Option<PartnerId>, to: AccountId, from: AccountId, amount: int)
    ensures var r := CreateAndPost(c, s, NewMove(journal, date, Entry, partner, FromSen([Debit(to, amount), Credit(from, amount)])));
            r.result.Ok? ==> r.result == Ok(|s.moves|) && Transfers(s, r.db, journal, date, partner, to, from, amount)
  {
    var lines := [Debit(to, amount), Credit(from, amount)];
    CreateAndPostEffect(c, s, NewMove(journal, date, Entry, partner, FromSen(lines)), lines);
    hide CreateAndPost, Balanced, Frozen;
  }

  // ─── Post-dated cheques ─────────────────────────────────────────────

  /**
   A received cheque moves its amount from the partner's receivable to the account coded 1150, an issued
   one from the account coded 2150 to the partner's payable; the cheque is then in hand.
   */
  lemma RecordPosts(c: Chart, d: Desk, received: bool, partner: PartnerId, amount: int, maturity: Date, date: Date)
    returns (holding: AccountId, control: AccountId)
    requires RecordPdc(c, d, received, partner, amount, maturity, date).result.Ok?
    ensures IsFirstCoded(c, if received then "1150" else "2150", holding)
    ensures c.PartnerAccount(Some(partner), if received then Receivable else Payable) == Some(control)
    ensures var e := RecordPdc(c, d, received, partner, amount, maturity, date).desk;
            && e.cheques == d.cheques + [Pdc(received, amount, maturity, |d.db.moves|, ChequeState.Holding)]
            && (if received then Transfers(d.db, e.db, "GEN", date, Some(partner), holding, control, amount)
                else Transfers(d.db, e.db, "GEN", date, Some(partner), control, holding, amount))
  {
    holding := if received then c.ByCode("1150").value else c.ByCode("2150").value;
    control := c.PartnerAccount(Some(partner), if received then Receivable else Payable).value;
    ByCodeIsFirst(c, if received then "1150" else "2150", holding);
    if received {
      PairIsPosted(c, d.db, "GEN", date, Some(partner), holding, control, amount);
    } else {
      PairIsPosted(c, d.db, "GEN", date, Some(partner), control, holding, amount);
    }
    hide CreateAndPost, Transfers, IsFirstCoded;
  }

  /** Clearing moves it on: a received cheque from 1150 to the first bank account, an issued one from there to 2150. */
  lemma ClearPosts(c: Chart, d: Desk, id: nat, date: Date) returns (holding: AccountId, bank: AccountId)
    requires ClearPdc(c, d, id, date).result.Ok?
    ensures id < |d.cheques| && IsFirstCoded(c, if d.cheques[id].received then "1150" else "2150", holding) && IsFirstOf(c, AssetBank, bank)
    ensures var p, e := d.cheques[id], ClearPdc(c, d, id, date).desk;
            && e.cheques == d.cheques[id := p.(state := Cleared)]
            && (if p.received then Transfers(d.db, e.db, "BNK", date, None, bank, holding, p.amount)
                else Transfers(d.db, e.db, "BNK", date, None, holding, bank, p.amount))
  {
    var p := d.cheques[id];
    holding := if p.received then c.ByCode("1150").value else c.ByCode("2150").value;
    bank := c.FirstOfKind(AssetBank).value;
    ByCodeIsFirst(c, if p.received then "1150" else "2150", holding);
    ByTypeIsFirst(c, AssetBank, bank);
    if p.received {
      PairIsPosted(c, d.db, "BNK", date, None, bank, holding, p.amount);
    } else {
      PairIsPosted(c, d.db, "BNK", date, None, holding, bank, p.amount);
    }
    hide CreateAndPost, Transfers, IsFirstCoded, IsFirstOf;
  }

  // ─── Depreciation ───────────────────────────────────────────────────

  /** A period's depreciation goes from the asset's accumulated depreciation to its expense account, on the period's day. */
  lemma DepreciationPosts(c: Chart, h: Assets.Holding, k: nat)
    requires k < |h.asset.plan| && h.asset.plan[k].move.None?
    ensures PostPeriod(c, h, k).asset.plan[k].move.Some? ==>
              var a, p := h.asset.accounts, h.asset.plan[k];
              PostPeriod(c, h, k).asset.plan[k].move == Some(|h.db.moves|) &&
              Transfers(h.db, PostPeriod(c, h, k).db, "GEN", Number(p.date), None, a.expense, a.depreciation, p.amount)
  {
    var a, p := h.asset.accounts, h.asset.plan[k];
    PairIsPosted(c, h.db, "GEN", Number(p.date), None, a.expense, a.depreciation, p.amount);
    hide CreateAndPost, Transfers, Number;
  }

  // ─── Differences ────────────────────────────────────────────────────

  lemma RealizedFxEntry(accounts: GainLoss, counterpart: AccountId, partner: Option<PartnerId>, delta: int, date: Date)
    requires delta != 0
    ensures RealizedFxMove(accounts, counterpart, partner, delta, date) ==
            NewMove("GEN", date, Entry, partner,
                    FromSen(if delta > 0 then [Debit(counterpart, delta), Credit(accounts.gain, delta)]
                            else [Debit(accounts.loss, -delta), Credit(counterpart, -delta)]))
  {
  }

  /** A realised gain goes to the control account and is credited to the gain account; a loss the other way. */
  lemma RealizedFxPosts(c: Chart, s: State, counterpart: AccountId, partner: Option<PartnerId>, delta: int, date: Date)
    requires PostRealizedFx(c, s, counterpart, partner, delta, date).result.Ok? && delta != 0
    ensures c.realizedFx.Some?
    ensures var t := PostRealizedFx(c, s, counterpart, partner, delta, date).db;
            if delta > 0 then Transfers(s, t, "GEN", date, partner, counterpart, c.realizedFx.value.gain, delta)
            else Transfers(s, t, "GEN", date, partner, c.realizedFx.value.loss, counterpart, -delta)
  {
    hide CreateAndPost, Transfers, RealizedFxMove, FromSen;
    RealizedFxEntry(c.realizedFx.value, counterpart, partner, delta, date);
    if delta > 0 {
      PairIsPosted(c, s, "GEN", date, partner, counterpart, c.realizedFx.value.gain, delta);
    } else {
      PairIsPosted(c, s, "GEN", date, partner, c.realizedFx.value.loss, counterpart, -delta);
    }
  }

  /** A written-off difference is borne by the given account: debited against the receivable on a receipt, credited against the payable on a payment. */
  lemma WriteOffPosts(c: Chart, s: State, h: Header, w: WriteOff, counterpart: AccountId)
    requires PostWriteOff(c, s, h, Some(w), counterpart).result.Ok? && w.amount > 0
    ensures var t := PostWriteOff(c, s, h, Some(w), counterpart).db;
            if h.inbound then Transfers(s, t, "GEN", h.date, Some(h.partner), w.account, counterpart, w.amount)
            else Transfers(s, t, "GEN", h.date, Some(h.partner), counterpart, w.account, w.amount)
  {
    if h.inbound {
      PairIsPosted(c, s, "GEN", h.date, Some(h.partner), w.account, counterpart, w.amount);
    } else {
      PairIsPosted(c, s, "GEN", h.date, Some(h.partner), counterpart, w.account, w.amount);
    }
    hide CreateAndPost, Transfers, OpenOf;
  }

  // ─── Reversal ───────────────────────────────────────────────────────

  /** The same account on the other side, with the opposite own-currency amount. */
  ghost predicate Mirrors(a: Line, b: Line) {
    && b.account == a.account && b.debit == a.credit && b.credit == a.debit
    && b.foreign == (if a.foreign.None? then None else Some(Foreign(a.foreign.value.currency, -a.foreign.value.amount)))
  }

  /**
   When a balanced posted move can be reversed, and its counter-entry: in the same journal, on the given
   day, for the same partner, line by line on the other side, and naming the move it reverses.
   */
  lemma ReversalPosts(c: Chart, s: State, id: MoveId, date: Date)
    requires id < |s.moves| && s.moves[id].stage.Posted? && Balanced(s.moves[id].lines)
    ensures var m, r := s.moves[id], ReverseMove(c, s, id, date);
            && (r.result.Ok? <==> m.journal in c.journals && RowsAccepted(c, m.lines) && !Frozen(s, date))
            && (r.result.Ok? ==>
                  && r.result.value == |s.moves| && |r.db.moves| == |s.moves| + 1
                  && var row := r.db.moves[|s.moves|];
                     && PlainEntry(row, m.journal, date, m.partner) && row.reverses == Some(id)
                     && |row.lines| == |m.lines| && forall k :: 0 <= k < |m.lines| ==> Mirrors(m.lines[k], row.lines[k]))
  {
    ReverseMoveEffect(c, s, id, date);
    hide ReverseMove, Balanced, RowsAccepted, Frozen, SumDebit;
  }
}
