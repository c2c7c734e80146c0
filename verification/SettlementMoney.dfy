/** What a settlement moves: its cash and its written-off difference, and no other money (`documents.rs`). */
module SettlementMoney {
  import opened Wrappers
  import opened Ledger
  import opened ServiceModel
  import opened DocumentsModel
  import opened SettlementModel
  import opened Pools
  import opened Invariant
  import opened DocumentsKeep
  import opened YearEnd
  import opened FxSettlement
  import opened AccountLookup
  import opened Entries
  import opened PaymentEntry

  /** A payment of `amount` in MYR under a settlement's header, not allocated to anything. */
  function InCash(h: Header, amount: int): NewPayment {
    NewPayment(h.partner, h.inbound, h.journal, None, amount, h.date, [])
  }

  /** The accounts of a settlement: its journal's bank or cash account and the partner's control account. */
  datatype Sides = Sides(bank: AccountId, control: AccountId)

  /** From `s` to `t` the cash was posted as move `p`, and every balance moved by it alone. */
  ghost predicate CashPosted(c: Chart, s: State, t: State, h: Header, amount: int, p: MoveId, at: Sides) {
    && p < |t.moves| && IsEntryOf(c, InCash(h, amount), t.moves[p], at.bank, at.control, amount)
    && forall on: set<AccountId>, w: Window ::
         Balance(t.moves, on, w) ==
         Balance(s.moves, on, w) + if w.Has(h.date) then InOut(InCash(h, amount), at.bank, at.control, amount, on) else 0
  }

  ghost predicate SameBooks(s: State, t: State) {
    forall on: set<AccountId>, w: Window :: Balance(t.moves, on, w) == Balance(s.moves, on, w)
  }

  lemma CashIsPosted(c: Chart, s: State, h: Header, amount: int) returns (at: Sides)
    requires RegisterPayment(c, s, CashOf(h, amount)).result.Ok?
    ensures var r := RegisterPayment(c, s, CashOf(h, amount));
            r.result == Ok(|s.moves|) && CashPosted(c, s, r.db, h, amount, |s.moves|, at)
  {
    var pay := CashOf(h, amount);
    assert pay == InCash(h, amount);
    hide RegisterPayment, Balance, InOut, IsOwnSide, Carries;
    var bank, control, v := PaymentMovesMoney(c, s, pay);
    at := Sides(bank, control);
    assert v == amount;
    forall on: set<AccountId>, w: Window
      ensures Balance(RegisterPayment(c, s, pay).db.moves, on, w) ==
              Balance(s.moves, on, w) + if w.Has(h.date) then InOut(pay, bank, control, v, on) else 0
    {
      assert OutsideDifferences(c, pay, control, on);
    }
  }

  /** Reconciling and refreshing leave entries and balances alone. */
  lemma SettleIsFree(c: Chart, u: State, legs: seq<Leg>, docs: seq<MoveId>)
    ensures var t := Settle(c, u, legs, docs);
            && SameBooks(u, t) && |t.moves| == |u.moves|
            && forall i :: 0 <= i < |u.moves| ==> SameEntry(u.moves[i], t.moves[i])
  {
    var s1 := u.(recs := u.recs + Matching(Side(legs, true), Side(legs, false)));
    RefreshAllSameLedger(c, s1, docs);
    var t := RefreshAll(c, s1, docs);
    hide Balance, RefreshAll, SameEntry, Matching, Side;
    forall on: set<AccountId>, w: Window ensures Balance(t.moves, on, w) == Balance(u.moves, on, w) {
      SameEntriesSameBalance(u.moves, t.moves, on, w);
    }
  }

  lemma CashStays(c: Chart, s: State, u: State, t: State, h: Header, amount: int, p: MoveId, at: Sides)
    requires CashPosted(c, s, u, h, amount, p, at) && SameBooks(u, t)
    requires |t.moves| == |u.moves| && forall i :: 0 <= i < |u.moves| ==> SameEntry(u.moves[i], t.moves[i])
    ensures CashPosted(c, s, t, h, amount, p, at)
  {
    hide IsEntryOf, Balance, InOut, SameEntry;
    assert SameEntry(u.moves[p], t.moves[p]);
    StillEntry(c, InCash(h, amount), u.moves[p], t.moves[p], at.bank, at.control, amount);
  }

  /**
   `settle_documents` moves no money of its own when credits pay for the targets. Otherwise it moves one
   payment in the header's direction, date and journal: what the targets ask for beyond the credits.
   */
  lemma SettleDocumentsMoves(c: Chart, s: State, h: Header, allocations: seq<Allocation>) returns (at: Sides)
    requires SettleDocuments(c, s, h, allocations).result.Ok?
    ensures Legs(c, s, allocations).Ok?
    ensures var legs, r := Legs(c, s, allocations).value, SettleDocuments(c, s, h, allocations);
            var net := Total(Side(legs, h.inbound)) - Total(Side(legs, !h.inbound));
            if r.result.value.None? then net == 0 && SameBooks(s, r.db)
            else net > 0 && r.result.value == Some(|s.moves|) && CashPosted(c, s, r.db, h, net, |s.moves|, at)
  {
    hide RegisterPayment, Settle, Legs, CashPosted, SameBooks, Total, Side, OpenOf, CashOf;
    at := Sides(0, 0);
    var legs := Legs(c, s, allocations).value;
    var net := Total(Side(legs, h.inbound)) - Total(Side(legs, !h.inbound));
    if net == 0 {
      SettleIsFree(c, s, legs, DocsOf(legs));
    } else {
      at := CashIsPosted(c, s, h, net);
      var paid := RegisterPayment(c, s, CashOf(h, net)).db;
      var cash := LegOf(c, paid, |s.moves|, Some(net)).value;
      SettleIsFree(c, paid, legs + [cash], DocsOf(legs + [cash]));
      CashStays(c, s, paid, Settle(c, paid, legs + [cash], DocsOf(legs + [cash])), h, net, |s.moves|, at);
    }
  }

  lemma CashOrNone(c: Chart, s: State, h: Header, amount: int) returns (at: Sides)
    requires PostCash(c, s, h, amount).result.Ok?
    ensures var r := PostCash(c, s, h, amount);
            if amount <= 0 then r.db == s && PaymentOf(r.result.value) == None
            else PaymentOf(r.result.value) == Some(|s.moves|) && CashPosted(c, s, r.db, h, amount, |s.moves|, at)
  {
    hide RegisterPayment, CashPosted, OpenOf, CashOf;
    at := Sides(0, 0);
    if amount > 0 {
      at := CashIsPosted(c, s, h, amount);
    }
  }

  /** `apply_payment` moves the cash it is given, as one payment, and nothing else. */
  lemma ApplyPaymentMoves(c: Chart, s: State, h: Header, amount: int, picked: seq<MoveId>) returns (at: Sides)
    requires ApplyPayment(c, s, h, amount, picked).result.Ok?
    ensures var r := ApplyPayment(c, s, h, amount, picked);
            if amount <= 0 then r.result.value.None? && SameBooks(s, r.db)
            else r.result.value == Some(|s.moves|) && CashPosted(c, s, r.db, h, amount, |s.moves|, at)
  {
    hide PostCash, Settle, Picked, CashPosted, SameBooks, SortByDate, Facing, PaymentOf;
    var legs := Picked(c, s, picked).value;
    var cash := PostCash(c, s, h, amount);
    at := CashOrNone(c, s, h, amount);
    var all := SortByDate(s, Facing(legs, h.inbound)) + SortByDate(s, Facing(legs, !h.inbound)) + cash.result.value;
    SettleIsFree(c, cash.db, all, DocsOf(all));
    if amount > 0 {
      CashStays(c, s, cash.db, Settle(c, cash.db, all, DocsOf(all)), h, amount, |s.moves|, at);
    }
  }

  // ─── With a written-off difference ──────────────────────────────────

  /** What a difference moves: on a receipt from the control account to the given one, on a payment the other way. */
  function WrittenOff(h: Header, w: Option<WriteOff>, control: AccountId, on: set<AccountId>): int {
    if w.None? || w.value.amount <= 0 then 0
    else
      var a, k := if w.value.account in on then w.value.amount else 0, if control in on then w.value.amount else 0;
      if h.inbound then a - k else k - a
  }

  lemma TransferMoves(s: State, t: State, journal: string, date: Date, partner: Option<PartnerId>, to: AccountId, from: AccountId,
                      amount: int, on: set<AccountId>, w: Window)
    requires Transfers(s, t, journal, date, partner, to, from, amount)
    ensures Balance(t.moves, on, w) ==
            Balance(s.moves, on, w) + if w.Has(date) then (if to in on then amount else 0) - (if from in on then amount else 0) else 0
  {
    var row := t.moves[|s.moves|];
    assert t.moves == s.moves + [row];
    BalanceWithRow(s.moves, row, on, w);
    SumsOfTwo(Debit(to, amount), Credit(from, amount), on);
  }

  lemma WriteOffMoves(c: Chart, s: State, h: Header, w: Option<WriteOff>, control: AccountId, on: set<AccountId>, win: Window)
    requires PostWriteOff(c, s, h, w, control).result.Ok?
    ensures Balance(PostWriteOff(c, s, h, w, control).db.moves, on, win) ==
            Balance(s.moves, on, win) + if win.Has(h.date) then WrittenOff(h, w, control, on) else 0
  {
    hide CreateAndPost, Balance, OpenOf, Transfers;
    if w.Some? && w.value.amount > 0 {
      WriteOffPosts(c, s, h, w.value, control);
      var t := PostWriteOff(c, s, h, w, control).db;
      if h.inbound {
        TransferMoves(s, t, "GEN", h.date, Some(h.partner), w.value.account, control, w.value.amount, on, win);
      } else {
        TransferMoves(s, t, "GEN", h.date, Some(h.partner), control, w.value.account, w.value.amount, on, win);
      }
    }
  }

  /** The difference first, then the cash: each moves what it says, and settling moves nothing. */
  lemma SettleWithFundsMoves(c: Chart, s: State, h: Header, amount: int, legs: seq<Leg>, w: Option<WriteOff>, control: AccountId)
    returns (at: Sides)
    requires SettleWithFunds(c, s, h, amount, legs, w, control).result.Ok?
    ensures var r := SettleWithFunds(c, s, h, amount, legs, w, control);
            var u := PostWriteOff(c, s, h, w, control).db;
            if amount <= 0 then r.result.value.None? && SameBooks(u, r.db)
            else r.result.value == Some(|u.moves|) && CashPosted(c, u, r.db, h, amount, |u.moves|, at)
  {
    hide PostWriteOff, PostCash, Settle, CashPosted, SameBooks, Facing, PaymentOf;
    var written := PostWriteOff(c, s, h, w, control);
    var cash := PostCash(c, written.db, h, amount);
    at := CashOrNone(c, written.db, h, amount);
    var all := Facing(legs, h.inbound) + Facing(legs, !h.inbound) + written.result.value + cash.result.value;
    var docs := DocsOf(legs) + DocsOf(cash.result.value);
    SettleIsFree(c, cash.db, all, docs);
    if amount > 0 {
      CashStays(c, written.db, cash.db, Settle(c, cash.db, all, docs), h, amount, |written.db.moves|, at);
    }
  }

  /**
   `post_settlement` moves the written-off difference and the cash, both in the header's direction and on
   its date, and nothing else; it answers with the payment when there is cash.
   */
  lemma PostSettlementMoves(c: Chart, s: State, h: Header, amount: int, allocations: seq<Allocation>, w: Option<WriteOff>)
    returns (at: Sides)
    requires PostSettlement(c, s, h, amount, allocations, w).result.Ok?
    ensures c.PartnerAccount(Some(h.partner), if h.inbound then Receivable else Payable).Some?
    ensures var r := PostSettlement(c, s, h, amount, allocations, w);
            var control := c.PartnerAccount(Some(h.partner), if h.inbound then Receivable else Payable).value;
            && (r.result.value.Some? <==> amount > 0)
            && (amount > 0 ==>
                  && at.control == control && r.result.value.value < |r.db.moves|
                  && IsEntryOf(c, InCash(h, amount), r.db.moves[r.result.value.value], at.bank, control, amount))
            && (forall on: set<AccountId>, win: Window ::
                  Balance(r.db.moves, on, win) ==
                  Balance(s.moves, on, win) +
                  if win.Has(h.date) then
                    WrittenOff(h, w, control, on) + (if amount > 0 then InOut(InCash(h, amount), at.bank, control, amount, on) else 0)
                  else 0)
  {
    var control := c.PartnerAccount(Some(h.partner), if h.inbound then Receivable else Payable).value;
    var legs := Legs(c, s, allocations).value;
    hide Legs, SettleWithFunds, PostWriteOff, Balance, InOut, WrittenOff, IsOwnSide, IsValue, Carries;
    at := SettleWithFundsMoves(c, s, h, amount, legs, w, control);
    var u, t := PostWriteOff(c, s, h, w, control).db, PostSettlement(c, s, h, amount, allocations, w).db;
    assert PostWriteOff(c, s, h, w, control).result.Ok? by {
      FundsNeedDifference(c, s, h, amount, legs, w, control);
    }
    forall on: set<AccountId>, win: Window
      ensures Balance(t.moves, on, win) ==
              Balance(s.moves, on, win) +
              if win.Has(h.date) then
                WrittenOff(h, w, control, on) + (if amount > 0 then InOut(InCash(h, amount), at.bank, control, amount, on) else 0)
              else 0
    {
      WriteOffMoves(c, s, h, w, control, on, win);
    }
  }

  lemma FundsNeedDifference(c: Chart, s: State, h: Header, amount: int, legs: seq<Leg>, w: Option<WriteOff>, control: AccountId)
    requires SettleWithFunds(c, s, h, amount, legs, w, control).result.Ok?
    ensures PostWriteOff(c, s, h, w, control).result.Ok?
  {
    hide PostWriteOff;
  }
}
