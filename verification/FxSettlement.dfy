/** Foreign-currency payments: realised differences close the control account up to rounding. */
module FxSettlement {
  import opened Wrappers
  import opened Ledger
  import opened ServiceModel
  import opened CurrencyModel
  import opened DocumentsModel
  import opened SettlementModel
  import opened Pools
  import opened Invariant
  import opened DocumentsKeep
  import opened PaymentsKeep
  import opened YearEnd

  /** Document-currency amounts of a list of reconciliations, in order. */
  function Slices(rows: seq<Reconcile>): seq<int> {
    if rows == [] then [] else Slices(rows[..|rows| - 1]) + [rows[|rows| - 1].currency]
  }

  /** Balances do not see cached columns. */
  lemma SameEntriesSameBalance(a: seq<Move>, b: seq<Move>, on: set<AccountId>, w: Window)
    requires |a| == |b| && forall i :: 0 <= i < |a| ==> SameEntry(a[i], b[i])
    ensures Balance(a, on, w) == Balance(b, on, w)
  {
    forall i | 0 <= i < |a| ensures Share(a[i], on, w) == Share(b[i], on, w) {
      assert SameEntry(a[i], b[i]);
      SumsOfSameLines(a[i].lines, b[i].lines, on);
    }
    BalanceOfAlike(a, b, on, w);
  }

  lemma SameLedgerSameBalance(s: State, t: State, on: set<AccountId>, w: Window)
    requires SameLedger(s, t)
    ensures Balance(s.moves, on, w) == Balance(t.moves, on, w)
  {
    hide SameEntry;
    SameEntriesSameBalance(s.moves, t.moves, on, w);
  }

  /** The accounts of realised gains and losses are not the control account itself. */
  ghost predicate FxAccountsApart(c: Chart, a: AccountId) {
    c.realizedFx.Some? ==> c.realizedFx.value.gain != a && c.realizedFx.value.loss != a
  }

  lemma RealizedFxBalance(c: Chart, s: State, a: AccountId, partner: Option<PartnerId>, delta: int, date: Date, w: Window)
    requires FxAccountsApart(c, a) && w.Has(date)
    requires PostRealizedFx(c, s, a, partner, delta, date).result.Ok?
    ensures Balance(PostRealizedFx(c, s, a, partner, delta, date).db.moves, {a}, w) == Balance(s.moves, {a}, w) + delta
    ensures PostRealizedFx(c, s, a, partner, delta, date).db.recs == s.recs
  {
    if delta != 0 {
      var accounts := c.realizedFx.value;
      var lines := RealizedFxLines(accounts, a, delta);
      RealizedFxIsBalanced(accounts, a, delta);
      CreateAndPostEffect(c, s, RealizedFxMove(accounts, a, partner, delta, date), lines);
      BalanceWithRow(s.moves, NewRow(RealizedFxMove(accounts, a, partner, delta, date), s.nextNumber, SumDebit(lines)), {a}, w);
    }
  }

  /** One slice: its reconciliation, and the control account moved by settled less booked value. */
  lemma SliceEffect(c: Chart, s: State, pay: FxPayment, inbound: bool, matched: int, doc: MoveId, w: Window)
    requires FxMatchable(c, s, doc, pay) && FxSlice(c, s, pay, inbound, matched, doc).result.Ok?
    requires FxAccountsApart(c, pay.counterpart) && w.Has(pay.date)
    ensures var t := FxSlice(c, s, pay, inbound, matched, doc).db;
            && |t.recs| == |s.recs| + 1 && t.recs[..|s.recs|] == s.recs
            && var r := t.recs[|s.recs|];
               && r.currency == matched && r.amount == ToMyr(matched, s.moves[doc].rate.value)
               && Balance(t.moves, {pay.counterpart}, w) ==
                  Balance(s.moves, {pay.counterpart}, w) +
                  if inbound then ToMyr(matched, pay.rate) - r.amount else r.amount - ToMyr(matched, pay.rate)
  {
    var o := OpenCounterpart(c, s, doc).value;
    var rate := s.moves[doc].rate.value;
    var s1 := AddRec(s, Pair(o.line, o.isDebit, pay.line, ToMyr(matched, rate), matched));
    var delta := SliceDelta(matched, pay.rate, rate, inbound);
    RealizedFxBalance(c, s1, pay.counterpart, s.moves[doc].partner, delta, pay.date, w);
    var fx := PostRealizedFx(c, s1, pay.counterpart, s.moves[doc].partner, delta, pay.date);
    RefreshSameLedger(c, fx.db, doc);
    SameLedgerSameBalance(fx.db, RefreshPaymentState(c, fx.db, doc), {pay.counterpart}, w);
  }

  lemma SlicesFromFront(r: Reconcile, rows: seq<Reconcile>, rate: int)
    ensures SumMyr(Slices([r] + rows), rate) == ToMyr(r.currency, rate) + SumMyr(Slices(rows), rate)
    ensures Sum(Slices([r] + rows)) == r.currency + Sum(Slices(rows))
    ensures Matched([r] + rows) == r.amount + Matched(rows)
    ensures |Slices([r] + rows)| == |rows| + 1
    decreases |rows|
  {
    if rows == [] {
      assert [r] + rows == [r] && [r][..0] == [];
      assert Slices([r]) == [r.currency] && [r.currency][..0] == [];
    } else {
      var rest, last := rows[..|rows| - 1], rows[|rows| - 1];
      SlicesFromFront(r, rest, rate);
      assert ([r] + rows)[..|rows|] == [r] + rest;
      var xs := Slices([r] + rest);
      assert (xs + [last.currency])[..|xs|] == xs;
      var ys := Slices(rest);
      assert (ys + [last.currency])[..|ys|] == ys;
    }
  }

  lemma NoSlices(rate: int)
    ensures Sum(Slices([])) == SumMyr(Slices([]), rate) == Matched([]) == 0
  {
  }

  /** What the allocation adds: reconciliations of positive slices, and the control account's movement. */
  lemma {:induction false} AllocateFxEffect(c: Chart, s: State, pay: FxPayment, inbound: bool, left: int, docs: seq<MoveId>, w: Window)
    requires AllocateFx(c, s, pay, inbound, left, docs).result.Ok?
    requires FxAccountsApart(c, pay.counterpart) && w.Has(pay.date)
    ensures var t := AllocateFx(c, s, pay, inbound, left, docs).db;
            && s.recs <= t.recs
            && var rows := t.recs[|s.recs|..];
               && (left >= 0 ==> 0 <= Sum(Slices(rows)) <= left)
               && Balance(t.moves, {pay.counterpart}, w) ==
                  Balance(s.moves, {pay.counterpart}, w) +
                  if inbound then SumMyr(Slices(rows), pay.rate) - Matched(rows) else Matched(rows) - SumMyr(Slices(rows), pay.rate)
    decreases |docs|
  {
    hide FxSlice, FxAccountsApart, ToMyr, SumMyr, Matched, Slices, Sum, Balance;
    var t := AllocateFx(c, s, pay, inbound, left, docs).db;
    if docs == [] || left <= 0 {
      assert t.recs[|s.recs|..] == [];
      NoSlices(pay.rate);
    } else if !FxMatchable(c, s, docs[0], pay) {
      AllocateFxEffect(c, s, pay, inbound, left, docs[1..], w);
    } else {
      var matched := Min(left, s.moves[docs[0]].residualCurrency.value);
      var slice := FxSlice(c, s, pay, inbound, matched, docs[0]);
      SliceEffect(c, s, pay, inbound, matched, docs[0], w);
      AllocateFxEffect(c, slice.db, pay, inbound, left - matched, docs[1..], w);
      var r := slice.db.recs[|s.recs|];
      var rest := t.recs[|slice.db.recs|..];
      assert t.recs[|s.recs|..] == [r] + rest;
      SlicesFromFront(r, rest, pay.rate);
    }
  }

  /** The control account of a payment: the partner's receivable for money in, its payable for money out. */
  function ControlOf(c: Chart, pay: NewPayment): Option<AccountId> {
    c.PartnerAccount(Some(pay.partner), if pay.inbound then Receivable else Payable)
  }

  /** The day's rate of a foreign-currency payment. */
  function DayRate(c: Chart, pay: NewPayment): Option<int>
    requires IsForeign(pay)
  {
    c.rate(pay.currency.value, pay.date)
  }

  lemma TermsAre(c: Chart, pay: NewPayment)
    requires TermsOfPayment(c, pay).Ok?
    ensures ControlOf(c, pay) == Some(TermsOfPayment(c, pay).value.counterpart)
    ensures IsForeign(pay) ==> DayRate(c, pay) == Some(TermsOfPayment(c, pay).value.rate)
  {
  }

  /** The control account of a payment, apart from its bank account and the realised-difference accounts. */
  ghost predicate PaymentAccountsApart(c: Chart, pay: NewPayment) {
    TermsOfPayment(c, pay).Ok? ==>
      var t := TermsOfPayment(c, pay).value;
      t.liquidity != t.counterpart && FxAccountsApart(c, t.counterpart)
  }

  /** The payment entry itself moves its control account by the payment's value. */
  lemma PaymentEntryMovesControl(c: Chart, s: State, pay: NewPayment, w: Window)
    requires PostedPayment(c, s, pay) && PaymentAccountsApart(c, pay) && w.Has(pay.date)
    ensures var terms := TermsOfPayment(c, pay).value;
            Balance(PostPayment(c, s, pay).db.moves, {terms.counterpart}, w) ==
            Balance(s.moves, {terms.counterpart}, w) +
            if pay.inbound then -ToMyr(pay.amount, terms.rate) else ToMyr(pay.amount, terms.rate)
  {
    hide PostPayment, TermsOfPayment, Balance, FxAccountsApart;
    var terms := TermsOfPayment(c, pay).value;
    var lines := LinesOfPayment(pay, terms);
    BalanceWithRow(s.moves, PostPayment(c, s, pay).db.moves[|s.moves|], {terms.counterpart}, w);
    SumsOfTwo(lines[0], lines[1], {terms.counterpart});
    assert lines == [lines[0], lines[1]];
  }

  /** The allocation of a foreign-currency payment that was just posted. */
  function FxAllocationOf(c: Chart, t: State, pay: NewPayment, terms: PaymentTerms, o: OpenLine): Reply<()>
    requires pay.currency.Some?
  {
    AllocateFx(c, t, FxPayment(o.line, o.isDebit, terms.counterpart, pay.currency.value, terms.rate, pay.date),
               pay.inbound, pay.amount, pay.allocateTo)
  }

  /** A foreign-currency payment is its entry, the allocation, and a refresh that moves no money. */
  lemma FxPaymentInSteps(c: Chart, s: State, pay: NewPayment)
    requires IsForeign(pay) && RegisterPayment(c, s, pay).result.Ok? && PostedPayment(c, s, pay)
    ensures OpenCounterpart(c, PostPayment(c, s, pay).db, |s.moves|).Some?
    ensures var o := OpenCounterpart(c, PostPayment(c, s, pay).db, |s.moves|).value;
            var r := FxAllocationOf(c, PostPayment(c, s, pay).db, pay, TermsOfPayment(c, pay).value, o);
            r.result.Ok? && SameLedger(r.db, RegisterPayment(c, s, pay).db)
  {
    hide PostPayment, TermsOfPayment, AllocateFx, RefreshPaymentState, SameLedger;
    var t := PostPayment(c, s, pay).db;
    var o := OpenCounterpart(c, t, |s.moves|).value;
    var r := FxAllocationOf(c, t, pay, TermsOfPayment(c, pay).value, o);
    RefreshSameLedger(c, r.db, |s.moves|);
  }

  /** Everything a foreign-currency payment does to its control account. */
  lemma FxPaymentMovesControl(c: Chart, s: State, pay: NewPayment, w: Window)
    requires IsForeign(pay) && RegisterPayment(c, s, pay).result.Ok? && PaymentAccountsApart(c, pay) && w.Has(pay.date)
    requires Inv(c, s)
    ensures TermsOfPayment(c, pay).Ok? && ControlOf(c, pay).Some? && DayRate(c, pay).Some?
    ensures var t := RegisterPayment(c, s, pay).db;
            var a, rate := ControlOf(c, pay).value, DayRate(c, pay).value;
            && s.recs <= t.recs
            && var rows := t.recs[|s.recs|..];
               && 0 <= Sum(Slices(rows)) <= pay.amount
               && Balance(t.moves, {a}, w) - Balance(s.moves, {a}, w) ==
                  if pay.inbound then -ToMyr(pay.amount, rate) + SumMyr(Slices(rows), rate) - Matched(rows)
                  else ToMyr(pay.amount, rate) - SumMyr(Slices(rows), rate) + Matched(rows)
  {
    PostPaymentKeeps(c, s, pay, {});
    AmountIsPositive(c, pay);
    TermsAre(c, pay);
    hide ControlOf, DayRate, InvExcept, AllocateFx, RegisterPayment, PostPayment, TermsOfPayment, Balance, ToMyr, SumMyr, Matched, Slices, Sum;
    FxPaymentInSteps(c, s, pay);
    PaymentEntryMovesControl(c, s, pay, w);
    var posted := PostPayment(c, s, pay).db;
    var terms := TermsOfPayment(c, pay).value;
    var o := OpenCounterpart(c, posted, |s.moves|).value;
    var fx := FxPayment(o.line, o.isDebit, terms.counterpart, pay.currency.value, terms.rate, pay.date);
    AllocateFxEffect(c, posted, fx, pay.inbound, pay.amount, pay.allocateTo, w);
    SameLedgerSameBalance(FxAllocationOf(c, posted, pay, terms, o).db, RegisterPayment(c, s, pay).db, {terms.counterpart}, w);
  }

  lemma AmountIsPositive(c: Chart, pay: NewPayment)
    ensures TermsOfPayment(c, pay).Ok? ==> pay.amount > 0 && (PaymentAccountsApart(c, pay) ==> FxAccountsApart(c, TermsOfPayment(c, pay).value.counterpart))
  {
  }

  lemma {:induction false} SlicesLength(rows: seq<Reconcile>)
    ensures |Slices(rows)| == |rows|
  {
    if rows != [] {
      SlicesLength(rows[..|rows| - 1]);
    }
  }

  /** Slices that add up to the payment convert to its value within (k+1)/2 sen. */
  lemma SlicesAgainstPayment(rows: seq<Reconcile>, amount: int, rate: int)
    requires Sum(Slices(rows)) == amount
    ensures -(|rows| + 1) <= 2 * (SumMyr(Slices(rows), rate) - ToMyr(amount, rate)) <= |rows| + 1
    ensures |rows| == 1 ==> SumMyr(Slices(rows), rate) == ToMyr(amount, rate)
  {
    hide ToMyr, SumMyr, Sum, Slices;
    PiecesAgainstWhole(Slices(rows), rate);
    SlicesLength(rows);
  }

  lemma CloseEnough(moved: int, value: int, slices: int, booked: int, k: nat, inbound: bool)
    requires moved == if inbound then -value + slices - booked else value - slices + booked
    requires -(k + 1) <= 2 * (slices - value) <= k + 1 && (k == 1 ==> slices == value)
    ensures var target := if inbound then -booked else booked;
            2 * Abs(moved - target) <= k + 1 && (k == 1 ==> moved == target)
  {
  }

  /** From `s` to `t` a payment of `amount` was used up over slices. */
  ghost predicate UsedUp(s: State, t: State, amount: int) {
    s.recs <= t.recs && Sum(Slices(t.recs[|s.recs|..])) == amount
  }

  /**
   Realised differences close the control account. When a foreign-currency payment is used up over k
   slices, the control account ends within (k+1)/2 sen of the booked MYR of those slices, whatever
   the rates, for receipts and for payments; with a single slice it is exact.
   */
  lemma FxClosesControlAccount(c: Chart, s: State, pay: NewPayment, w: Window)
    requires IsForeign(pay) && RegisterPayment(c, s, pay).result.Ok? && PaymentAccountsApart(c, pay) && w.Has(pay.date)
    requires Inv(c, s) && UsedUp(s, RegisterPayment(c, s, pay).db, pay.amount)
    ensures ControlOf(c, pay).Some?
    ensures var t := RegisterPayment(c, s, pay).db;
            var a := ControlOf(c, pay).value;
            var rows := t.recs[|s.recs|..];
            var moved := Balance(t.moves, {a}, w) - Balance(s.moves, {a}, w);
            var booked := if pay.inbound then -Matched(rows) else Matched(rows);
            2 * Abs(moved - booked) <= |rows| + 1 && (|rows| == 1 ==> moved == booked)
  {
    hide RegisterPayment, Inv, PaymentAccountsApart, TermsOfPayment, ControlOf, DayRate, Balance, Matched, Slices, Sum, SumMyr, ToMyr, IsForeign, Abs;
    FxPaymentMovesControl(c, s, pay, w);
    var t, a, rate := RegisterPayment(c, s, pay).db, ControlOf(c, pay).value, DayRate(c, pay).value;
    var rows := t.recs[|s.recs|..];
    SlicesAgainstPayment(rows, pay.amount, rate);
    CloseEnough(Balance(t.moves, {a}, w) - Balance(s.moves, {a}, w), ToMyr(pay.amount, rate),
                SumMyr(Slices(rows), rate), Matched(rows), |rows|, pay.inbound);
  }
}
