/** What a registered payment posts, and what that does to the balances (`documents.rs`). */
module PaymentEntry {
  import opened Wrappers
  import opened Rounding
  import opened Ledger
  import opened ServiceModel
  import opened CurrencyModel
  import opened DocumentsModel
  import opened SettlementModel
  import opened Invariant
  import opened DocumentsKeep
  import opened PaymentsKeep
  import opened YearEnd
  import opened FxSettlement
  import opened AccountLookup

  /** The bank or cash account of a journal: its own, else the first of the journal's kind. */
  ghost predicate IsOwnSide(c: Chart, journal: string, a: AccountId) {
    && journal in c.journals
    && var j := c.journals[journal];
       if j.account.Some? then a == j.account.value
       else (j.kind.BankJournal? && IsFirstOf(c, AssetBank, a)) || (j.kind.CashJournal? && IsFirstOf(c, AssetCash, a))
  }

  /** The value of a payment in sen: the amount itself in MYR, else converted at the rate of its day. */
  ghost predicate IsValue(c: Chart, pay: NewPayment, v: int) {
    if pay.currency.None? || pay.currency == Some(MYR) then v == pay.amount
    else
      var rate := c.rate(pay.currency.value, pay.date);
      rate.Some? && Nearest(pay.amount * rate.value, ONE, v)
  }

  /** `l` carries `v` sen on one side of an account and, abroad, the signed amount of the payment. */
  ghost predicate Carries(l: Line, a: AccountId, isDebit: bool, v: int, pay: NewPayment) {
    && l.account == a
    && l.debit == (if isDebit then v else 0) && l.credit == (if isDebit then 0 else v)
    && l.foreign == (if pay.currency.None? || pay.currency == Some(MYR) then None
                     else Some(Foreign(pay.currency.value, if isDebit then pay.amount else -pay.amount)))
  }

  /** The entry of a payment: money in debits the bank and credits the receivable, money out debits the payable and credits the bank. */
  ghost predicate IsEntryOf(c: Chart, pay: NewPayment, row: Move, bank: AccountId, control: AccountId, v: int) {
    && row.stage.Posted? && row.kind.Payment? && row.journal == pay.journal && row.date == pay.date
    && row.partner == Some(pay.partner)
    && IsOwnSide(c, pay.journal, bank) && IsValue(c, pay, v) && v > 0
    && ControlOf(c, pay) == Some(control)
    && |row.lines| == 2
    && (if pay.inbound then Carries(row.lines[0], bank, true, v, pay) && Carries(row.lines[1], control, false, v, pay)
        else Carries(row.lines[0], control, true, v, pay) && Carries(row.lines[1], bank, false, v, pay))
  }

  lemma OwnSideOf(c: Chart, pay: NewPayment)
    requires TermsOfPayment(c, pay).Ok?
    ensures IsOwnSide(c, pay.journal, TermsOfPayment(c, pay).value.liquidity)
  {
    var a := TermsOfPayment(c, pay).value.liquidity;
    ByTypeIsFirst(c, AssetBank, a);
    ByTypeIsFirst(c, AssetCash, a);
    hide IsFirstOf;
  }

  lemma ValueOf(c: Chart, pay: NewPayment)
    requires TermsOfPayment(c, pay).Ok?
    ensures IsValue(c, pay, ToMyr(pay.amount, TermsOfPayment(c, pay).value.rate))
  {
    var rate := TermsOfPayment(c, pay).value.rate;
    CompanyCurrencyIsExact(pay.amount);
    RoundIsNearest(pay.amount * rate, ONE);
    hide RoundDiv, Nearest;
  }

  lemma EntryLines(c: Chart, pay: NewPayment)
    requires TermsOfPayment(c, pay).Ok?
    ensures var t := TermsOfPayment(c, pay).value;
            var lines, v := LinesOfPayment(pay, t), ToMyr(pay.amount, t.rate);
            && |lines| == 2
            && ControlOf(c, pay) == Some(t.counterpart)
            && (if pay.inbound then Carries(lines[0], t.liquidity, true, v, pay) && Carries(lines[1], t.counterpart, false, v, pay)
                else Carries(lines[0], t.counterpart, true, v, pay) && Carries(lines[1], t.liquidity, false, v, pay))
  {
    hide ToMyr;
  }

  /** The entry as `create_and_post` leaves it. */
  lemma PaymentIsPosted(c: Chart, s: State, pay: NewPayment)
    requires PostPayment(c, s, pay).result.Ok?
    ensures TermsOfPayment(c, pay).Ok?
    ensures var r, t := PostPayment(c, s, pay), TermsOfPayment(c, pay).value;
            && r.result == Ok(|s.moves|) && |r.db.moves| == |s.moves| + 1 && r.db.moves[..|s.moves|] == s.moves && r.db.recs == s.recs
            && IsEntryOf(c, pay, r.db.moves[|s.moves|], t.liquidity, t.counterpart, ToMyr(pay.amount, t.rate))
  {
    var t := TermsOfPayment(c, pay).value;
    var lines := LinesOfPayment(pay, t);
    PaymentLinesShape(c, pay, t);
    CreateAndPostEffect(c, s, PaymentMove(pay, lines), lines);
    OwnSideOf(c, pay);
    ValueOf(c, pay);
    EntryLines(c, pay);
    hide TermsOfPayment, LinesOfPayment, ToMyr, IsOwnSide, IsValue, Carries, CreateAndPost;
  }

  // ─── The allocation leaves the entry alone ──────────────────────────

  lemma {:induction false} AllocateSameLedger(c: Chart, s: State, pay: LineRef, payIsDebit: bool, left: int, docs: seq<MoveId>)
    ensures var t := Allocate(c, s, pay, payIsDebit, left, docs);
            |t.moves| == |s.moves| && forall i :: 0 <= i < |s.moves| ==> SameEntry(s.moves[i], t.moves[i])
    decreases |docs|
  {
    hide SameEntry, OpenOf;
    if docs == [] || left <= 0 {
      forall i | 0 <= i < |s.moves| ensures SameEntry(s.moves[i], s.moves[i]) {
        SameEntrySelf(s.moves[i]);
      }
    } else if !Matchable(c, s, docs[0], payIsDebit) {
      AllocateSameLedger(c, s, pay, payIsDebit, left, docs[1..]);
    } else {
      var o := OpenCounterpart(c, s, docs[0]).value;
      var matched := Min(left, o.amount);
      var s1 := AddRec(s, Pair(o.line, o.isDebit, pay, matched, 0));
      var t := AllocateOne(c, s, pay, matched, docs[0]);
      RefreshSameLedger(c, s1, docs[0]);
      AllocateSameLedger(c, t, pay, payIsDebit, left - matched, docs[1..]);
      var u := Allocate(c, s, pay, payIsDebit, left, docs);
      forall i | 0 <= i < |s.moves| ensures SameEntry(s.moves[i], u.moves[i]) {
        SameEntryChain(s.moves[i], t.moves[i], u.moves[i]);
      }
    }
  }

  lemma SameEntrySelf(m: Move)
    ensures SameEntry(m, m)
  {
  }

  lemma RefreshExtends(c: Chart, s: State, id: MoveId)
    ensures Extends(s, RefreshPaymentState(c, s, id)) && |RefreshPaymentState(c, s, id).moves| == |s.moves|
  {
    RefreshSameLedger(c, s, id);
    hide RefreshPaymentState, SameEntry;
  }

  /** Balances on accounts that a realised difference does not touch. */
  lemma RealizedFxElsewhere(c: Chart, s: State, a: AccountId, partner: Option<PartnerId>, delta: int, date: Date, on: set<AccountId>, w: Window)
    requires a !in on && (c.realizedFx.Some? ==> c.realizedFx.value.gain !in on && c.realizedFx.value.loss !in on)
    requires PostRealizedFx(c, s, a, partner, delta, date).result.Ok?
    ensures Balance(PostRealizedFx(c, s, a, partner, delta, date).db.moves, on, w) == Balance(s.moves, on, w)
    ensures Extends(s, PostRealizedFx(c, s, a, partner, delta, date).db)
  {
    if delta == 0 {
      ExtendsSelf(s);
    } else {
      var entry := RealizedFxMove(c.realizedFx.value, a, partner, delta, date);
      var lines := RealizedFxLines(c.realizedFx.value, a, delta);
      RealizedFxIsBalanced(c.realizedFx.value, a, delta);
      CreateAndPostExtends(c, s, entry);
      CreateAndPostEffect(c, s, entry, lines);
      hide CreateAndPost, Extends;
      BalanceWithRow(s.moves, NewRow(entry, s.nextNumber, SumDebit(lines)), on, w);
      NetOfNone(lines, on);
    }
  }

  lemma ExtendsSelf(s: State)
    ensures Extends(s, s)
  {
  }

  lemma SliceElsewhere(c: Chart, s: State, pay: FxPayment, inbound: bool, matched: int, doc: MoveId, on: set<AccountId>, w: Window)
    requires FxMatchable(c, s, doc, pay) && FxSlice(c, s, pay, inbound, matched, doc).result.Ok?
    requires pay.counterpart !in on && (c.realizedFx.Some? ==> c.realizedFx.value.gain !in on && c.realizedFx.value.loss !in on)
    ensures Balance(FxSlice(c, s, pay, inbound, matched, doc).db.moves, on, w) == Balance(s.moves, on, w)
    ensures Extends(s, FxSlice(c, s, pay, inbound, matched, doc).db)
  {
    var o := OpenCounterpart(c, s, doc).value;
    var rate := s.moves[doc].rate.value;
    hide FxMatchable, OpenOf, ToMyr, PostRealizedFx, RefreshPaymentState, SameLedger, Balance, Extends;
    var r := Pair(o.line, o.isDebit, pay.line, ToMyr(matched, rate), matched);
    var s1 := AddRec(s, r);
    var delta := SliceDelta(matched, pay.rate, rate, inbound);
    RealizedFxElsewhere(c, s1, pay.counterpart, s.moves[doc].partner, delta, pay.date, on, w);
    var fx := PostRealizedFx(c, s1, pay.counterpart, s.moves[doc].partner, delta, pay.date);
    var t := RefreshPaymentState(c, fx.db, doc);
    RefreshSameLedger(c, fx.db, doc);
    SameLedgerSameBalance(fx.db, t, on, w);
    RefreshExtends(c, fx.db, doc);
    AddRecExtends(s, r);
    ExtendsChain(s, s1, fx.db);
    ExtendsChain(s, fx.db, t);
  }

  lemma {:induction false} AllocateFxElsewhere(c: Chart, s: State, pay: FxPayment, inbound: bool, left: int, docs: seq<MoveId>,
                                               on: set<AccountId>, w: Window)
    requires AllocateFx(c, s, pay, inbound, left, docs).result.Ok?
    requires pay.counterpart !in on && (c.realizedFx.Some? ==> c.realizedFx.value.gain !in on && c.realizedFx.value.loss !in on)
    ensures Balance(AllocateFx(c, s, pay, inbound, left, docs).db.moves, on, w) == Balance(s.moves, on, w)
    ensures Extends(s, AllocateFx(c, s, pay, inbound, left, docs).db)
    decreases |docs|
  {
    hide FxMatchable, FxSlice, Balance, Extends;
    if docs == [] || left <= 0 {
      ExtendsSelf(s);
    } else if !FxMatchable(c, s, docs[0], pay) {
      AllocateFxElsewhere(c, s, pay, inbound, left, docs[1..], on, w);
    } else {
      var matched := Min(left, ResidualOf(c, s, docs[0], pay));
      var slice := FxSlice(c, s, pay, inbound, matched, docs[0]);
      SliceElsewhere(c, s, pay, inbound, matched, docs[0], on, w);
      AllocateFxElsewhere(c, slice.db, pay, inbound, left - matched, docs[1..], on, w);
      ExtendsChain(s, slice.db, AllocateFx(c, s, pay, inbound, left, docs).db);
    }
  }

  /** What a document that can be matched has open in its own currency. */
  function ResidualOf(c: Chart, s: State, doc: MoveId, pay: FxPayment): int
    requires FxMatchable(c, s, doc, pay)
  {
    s.moves[doc].residualCurrency.value
  }

  lemma StillEntry(c: Chart, pay: NewPayment, a: Move, b: Move, bank: AccountId, control: AccountId, v: int)
    requires IsEntryOf(c, pay, a, bank, control, v) && SameEntry(a, b)
    ensures IsEntryOf(c, pay, b, bank, control, v)
  {
    hide IsOwnSide, IsValue;
    assert a.lines[0].(reconciled := b.lines[0].reconciled) == b.lines[0];
    assert a.lines[1].(reconciled := b.lines[1].reconciled) == b.lines[1];
  }

  lemma EntryShare(c: Chart, pay: NewPayment, row: Move, bank: AccountId, control: AccountId, v: int, on: set<AccountId>, w: Window)
    requires IsEntryOf(c, pay, row, bank, control, v)
    ensures Share(row, on, w) == if w.Has(pay.date) then InOut(pay, bank, control, v, on) else 0
  {
    hide IsOwnSide, IsValue;
    SumsOfTwo(row.lines[0], row.lines[1], on);
    assert row.lines == [row.lines[0], row.lines[1]];
  }

  /** The movement of a set of accounts by a payment of `v`: money in raises the bank and lowers the control account, money out the other way round. */
  function InOut(pay: NewPayment, bank: AccountId, control: AccountId, v: int, on: set<AccountId>): int {
    (if bank in on then (if pay.inbound then v else -v) else 0) +
    (if control in on then (if pay.inbound then -v else v) else 0)
  }

  /** The accounts that a payment's realised differences can touch. */
  ghost predicate OutsideDifferences(c: Chart, pay: NewPayment, control: AccountId, on: set<AccountId>) {
    IsForeign(pay) ==>
      control !in on && (c.realizedFx.Some? ==> c.realizedFx.value.gain !in on && c.realizedFx.value.loss !in on)
  }

  /** From the posted entry to the end of the call. */
  ghost predicate Settles(c: Chart, pay: NewPayment, p: State, t: State, id: MoveId, control: AccountId, on: set<AccountId>, w: Window) {
    && id < |p.moves| && id < |t.moves| && SameEntry(p.moves[id], t.moves[id])
    && (OutsideDifferences(c, pay, control, on) ==> Balance(t.moves, on, w) == Balance(p.moves, on, w))
  }

  lemma MyrSettles(c: Chart, s: State, pay: NewPayment, on: set<AccountId>, w: Window)
    requires RegisterPayment(c, s, pay).result.Ok? && PostPayment(c, s, pay).result == Ok(|s.moves|) && !IsForeign(pay)
    requires |s.moves| < |PostPayment(c, s, pay).db.moves| && TermsOfPayment(c, pay).Ok?
    ensures RegisterPayment(c, s, pay).result == Ok(|s.moves|)
    ensures Settles(c, pay, PostPayment(c, s, pay).db, RegisterPayment(c, s, pay).db, |s.moves|, TermsOfPayment(c, pay).value.counterpart, on, w)
  {
    hide PostPayment, TermsOfPayment, Allocate, RefreshPaymentState, SameEntry, Balance, OutsideDifferences;
    var p, id := PostPayment(c, s, pay).db, |s.moves|;
    var o := OpenCounterpart(c, p, id).value;
    var u := Allocate(c, p, o.line, o.isDebit, o.amount, pay.allocateTo);
    var t := RefreshPaymentState(c, u, id);
    AllocateSameLedger(c, p, o.line, o.isDebit, o.amount, pay.allocateTo);
    RefreshSameLedger(c, u, id);
    SameEntryChain(p.moves[id], u.moves[id], t.moves[id]);
    SameEntriesSameBalance(p.moves, u.moves, on, w);
    SameEntriesSameBalance(u.moves, t.moves, on, w);
  }

  lemma FxSettles(c: Chart, s: State, pay: NewPayment, on: set<AccountId>, w: Window)
    requires RegisterPayment(c, s, pay).result.Ok? && PostPayment(c, s, pay).result == Ok(|s.moves|) && IsForeign(pay)
    requires |s.moves| < |PostPayment(c, s, pay).db.moves| && TermsOfPayment(c, pay).Ok?
    ensures RegisterPayment(c, s, pay).result == Ok(|s.moves|)
    ensures Settles(c, pay, PostPayment(c, s, pay).db, RegisterPayment(c, s, pay).db, |s.moves|, TermsOfPayment(c, pay).value.counterpart, on, w)
  {
    hide PostPayment, TermsOfPayment, AllocateFx, RefreshPaymentState, SameEntry, SameLedger, Balance;
    var p, id := PostPayment(c, s, pay).db, |s.moves|;
    var o := OpenCounterpart(c, p, id).value;
    var terms := TermsOfPayment(c, pay).value;
    var fx := FxPayment(o.line, o.isDebit, terms.counterpart, pay.currency.value, terms.rate, pay.date);
    var u := AllocateFx(c, p, fx, pay.inbound, pay.amount, pay.allocateTo).db;
    var t := RefreshPaymentState(c, u, id);
    AllocateFxElsewhere(c, p, fx, pay.inbound, pay.amount, pay.allocateTo, {}, w);
    RefreshSameLedger(c, u, id);
    SameRow(u, t, id);
    SameEntryChain(p.moves[id], u.moves[id], t.moves[id]);
    if OutsideDifferences(c, pay, terms.counterpart, on) {
      AllocateFxElsewhere(c, p, fx, pay.inbound, pay.amount, pay.allocateTo, on, w);
      SameLedgerSameBalance(u, t, on, w);
    }
  }

  lemma SameRow(s: State, t: State, id: MoveId)
    requires SameLedger(s, t) && id < |s.moves|
    ensures id < |t.moves| && SameEntry(s.moves[id], t.moves[id])
  {
    hide SameEntry;
  }

  /** The tables after an accepted payment: the entry, still as posted, and balances moved by it alone. */
  lemma RegistrationMoves(c: Chart, s: State, pay: NewPayment, on: set<AccountId>, w: Window)
    requires RegisterPayment(c, s, pay).result.Ok?
    ensures TermsOfPayment(c, pay).Ok?
    ensures var r, terms := RegisterPayment(c, s, pay), TermsOfPayment(c, pay).value;
            var v := ToMyr(pay.amount, terms.rate);
            && r.result == Ok(|s.moves|) && |s.moves| < |r.db.moves|
            && IsEntryOf(c, pay, r.db.moves[|s.moves|], terms.liquidity, terms.counterpart, v)
            && (OutsideDifferences(c, pay, terms.counterpart, on) ==>
                  Balance(r.db.moves, on, w) ==
                  Balance(s.moves, on, w) + if w.Has(pay.date) then InOut(pay, terms.liquidity, terms.counterpart, v, on) else 0)
  {
    PaymentIsPosted(c, s, pay);
    var posted := PostPayment(c, s, pay).db;
    var terms := TermsOfPayment(c, pay).value;
    var v := ToMyr(pay.amount, terms.rate);
    var id := |s.moves|;
    EntryShare(c, pay, posted.moves[id], terms.liquidity, terms.counterpart, v, on, w);
    assert posted.moves == s.moves + [posted.moves[id]];
    BalanceWithRow(s.moves, posted.moves[id], on, w);
    hide PostPayment, RegisterPayment, TermsOfPayment, IsEntryOf, SameEntry, Balance, InOut, ToMyr, OutsideDifferences;
    if IsForeign(pay) {
      FxSettles(c, s, pay, on, w);
    } else {
      MyrSettles(c, s, pay, on, w);
    }
    StillEntry(c, pay, posted.moves[id], RegisterPayment(c, s, pay).db.moves[id], terms.liquidity, terms.counterpart, v);
  }

  /**
   An accepted payment, in MYR or abroad, posts one entry of two lines: money in debits the journal's bank
   or cash account and credits the partner's receivable; money out debits the partner's payable and
   credits the bank or cash account; each by the amount, converted at the rate of the day if it is
   foreign. Settling documents moves no balance beyond that, except for the realised differences of a
   foreign payment between its control account and the gain and loss accounts.
   */
  lemma PaymentMovesMoney(c: Chart, s: State, pay: NewPayment) returns (bank: AccountId, control: AccountId, v: int)
    requires RegisterPayment(c, s, pay).result.Ok?
    ensures var r := RegisterPayment(c, s, pay);
            && r.result == Ok(|s.moves|) && |s.moves| < |r.db.moves|
            && IsEntryOf(c, pay, r.db.moves[|s.moves|], bank, control, v)
            && (forall on: set<AccountId>, w: Window :: OutsideDifferences(c, pay, control, on) ==>
                  Balance(r.db.moves, on, w) ==
                  Balance(s.moves, on, w) + if w.Has(pay.date) then InOut(pay, bank, control, v, on) else 0)
  {
    RegistrationMoves(c, s, pay, {}, Window(None, None));
    var terms := TermsOfPayment(c, pay).value;
    bank, control, v := terms.liquidity, terms.counterpart, ToMyr(pay.amount, terms.rate);
    hide RegisterPayment, TermsOfPayment, IsEntryOf, Balance, InOut, ToMyr, OutsideDifferences;
    forall on: set<AccountId>, w: Window | OutsideDifferences(c, pay, control, on)
      ensures Balance(RegisterPayment(c, s, pay).db.moves, on, w) ==
              Balance(s.moves, on, w) + if w.Has(pay.date) then InOut(pay, bank, control, v, on) else 0
    {
      RegistrationMoves(c, s, pay, on, w);
    }
  }
}
