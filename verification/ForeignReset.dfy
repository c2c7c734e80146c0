/**
 Resetting a foreign-currency payment. The refusal that `reset_payment_to_draft` intends for such payments
 looks at the move's stored rate, which payments never carry, so the reset goes through and leaves the
 realised differences of the undone settlement on the books.
 */
module ForeignReset {
  import opened Wrappers
  import opened Ledger
  import opened ServiceModel
  import opened CurrencyModel
  import opened DocumentsModel
  import opened SettlementModel
  import opened Pools
  import opened Invariant
  import opened Periods
  import opened PostingKeeps
  import opened DocumentsKeep
  import opened PaymentsKeep
  import opened UndoKeeps
  import opened FxSettlement
  import opened RoundTrip
  import opened ForeignPlan

  /** Taking a payment off the books removes its own lines from every balance, and nothing else. */
  lemma ResetBalance(c: Chart, s: State, id: MoveId, on: set<AccountId>, w: Window)
    requires Inv(c, s) && ResetPaymentToDraft(c, s, id).result.Ok?
    ensures id < |s.moves|
    ensures Balance(ResetPaymentToDraft(c, s, id).db.moves, on, w) == Balance(s.moves, on, w) - Share(s.moves[id], on, w)
  {
    ResetPaymentEffect(c, s, id);
    var t := ResetPaymentToDraft(c, s, id).db;
    var removed := s.moves[id := t.moves[id]];
    forall i | 0 <= i < |removed| ensures Share(removed[i], on, w) == Share(t.moves[i], on, w) {
      if i != id {
        ResetRowOk(c, s, t, id, i);
        SumsOfSameLines(s.moves[i].lines, t.moves[i].lines, on);
      }
    }
    hide ResetPaymentToDraft, PaymentReset, Inv, Share;
    BalanceOfUpdate(s.moves, id, t.moves[id], on, w);
    BalanceOfAlike(removed, t.moves, on, w);
    UnpostedShare(t.moves[id], on, w);
  }

  lemma UnpostedShare(m: Move, on: set<AccountId>, w: Window)
    ensures !m.stage.Posted? ==> Share(m, on, w) == 0
  {
  }

  /** The payment's own row after a foreign-currency registration. */
  ghost predicate PaymentRow(c: Chart, s: State, t: State, pay: NewPayment) {
    && TermsOfPayment(c, pay).Ok? && |s.moves| < |t.moves|
    && !Frozen(t, pay.date) && t.taxLock == s.taxLock
    && var m := t.moves[|s.moves|];
       && m.stage.Posted? && m.kind.Payment? && m.date == pay.date && m.rate.None?
       && SameLines(LinesOfPayment(pay, TermsOfPayment(c, pay).value), m.lines)
  }

  lemma ForeignPaymentRow(c: Chart, s: State, pay: NewPayment)
    requires Inv(c, s) && IsForeign(pay) && RegisterPayment(c, s, pay).result.Ok?
    ensures PaymentRow(c, s, RegisterPayment(c, s, pay).db, pay)
  {
    hide RegisterPayment, AllocateFx, InvExcept, PostPayment, TermsOfPayment, LinesOfPayment, FxAllocationOf, PostedPayment;
    RegisteredIsPosted(c, s, pay);
    PostPaymentKeeps(c, s, pay, {});
    FxPaymentInSteps(c, s, pay);
    ForeignAllocationProgress(c, s, pay);
    PostedForeignRow(c, s, pay);
    var p := PostPayment(c, s, pay).db;
    var r := FxAllocationOf(c, p, pay, TermsOfPayment(c, pay).value, OpenCounterpart(c, p, |s.moves|).value);
    RowSurvives(c, s, p, r.db, RegisterPayment(c, s, pay).db, pay);
  }

  lemma RegisteredIsPosted(c: Chart, s: State, pay: NewPayment)
    requires RegisterPayment(c, s, pay).result.Ok?
    ensures PostPayment(c, s, pay).result.Ok?
  {
    hide PostPayment;
  }

  /** Allocating and refreshing leave the payment's row the same entry and its date as open as it was. */
  lemma RowSurvives(c: Chart, s: State, p: State, q: State, t: State, pay: NewPayment)
    requires PaymentRow(c, s, p, pay) && Guarded(p, q) && Extends(p, q) && SameLedger(q, t)
    ensures PaymentRow(c, s, t, pay)
  {
    hide TermsOfPayment, LinesOfPayment;
    var id := |s.moves|;
    SameEntryChain(p.moves[id], q.moves[id], t.moves[id]);
    SameLinesChain(LinesOfPayment(pay, TermsOfPayment(c, pay).value), p.moves[id].lines, t.moves[id].lines);
    assert Frozen(p, pay.date) <==> Frozen(q, pay.date);
    assert Frozen(q, pay.date) <==> Frozen(t, pay.date);
  }

  lemma PostedForeignRow(c: Chart, s: State, pay: NewPayment)
    requires PostedPayment(c, s, pay)
    ensures PaymentRow(c, s, PostPayment(c, s, pay).db, pay)
  {
    hide PostPayment, TermsOfPayment;
    assert Frozen(s, pay.date) <==> Frozen(PostPayment(c, s, pay).db, pay.date);
  }

  lemma ForeignAllocationProgress(c: Chart, s: State, pay: NewPayment)
    requires Inv(c, s) && IsForeign(pay) && PostedPayment(c, s, pay)
    requires Keeps(c, s, PostPayment(c, s, pay).db, {}) && Extends(s, PostPayment(c, s, pay).db)
    requires OpenCounterpart(c, PostPayment(c, s, pay).db, |s.moves|).Some?
    ensures var p := PostPayment(c, s, pay).db;
            var r := FxAllocationOf(c, p, pay, TermsOfPayment(c, pay).value, OpenCounterpart(c, p, |s.moves|).value);
            Guarded(p, r.db) && Extends(p, r.db)
  {
    var p := PostPayment(c, s, pay).db;
    var terms := TermsOfPayment(c, pay).value;
    var o := OpenCounterpart(c, p, |s.moves|).value;
    InvWeaken(c, p, {}, {|s.moves|});
    ForeignLine(c, s, pay, o);
    hide RegisterPayment, AllocateFx, InvExcept, PostPayment, TermsOfPayment, FxLine;
    AllocateFxKeeps(c, p, FxPayment(o.line, o.isDebit, terms.counterpart, pay.currency.value, terms.rate, pay.date),
                    pay.inbound, pay.amount, pay.allocateTo);
  }

  lemma ForeignLine(c: Chart, s: State, pay: NewPayment, o: OpenLine)
    requires PostedPayment(c, s, pay) && IsForeign(pay)
    requires OpenCounterpart(c, PostPayment(c, s, pay).db, |s.moves|) == Some(o)
    ensures var terms := TermsOfPayment(c, pay).value;
            FxLine(c, PostPayment(c, s, pay).db,
                   FxPayment(o.line, o.isDebit, terms.counterpart, pay.currency.value, terms.rate, pay.date))
  {
    hide PostPayment;
    var terms := TermsOfPayment(c, pay).value;
    var lines := LinesOfPayment(pay, terms);
    PaymentLinesShape(c, pay, terms);
    assert PostPayment(c, s, pay).db.moves[|s.moves|].lines[o.line.index] in lines;
    assert RowAccepted(c, lines[0]) && RowAccepted(c, lines[1]);
    assert Frozen(s, pay.date) <==> Frozen(PostPayment(c, s, pay).db, pay.date);
  }

  lemma ForeignPaymentIsReset(c: Chart, s: State, pay: NewPayment)
    requires Inv(c, s) && IsForeign(pay)
    requires RegisterPayment(c, s, pay).result.Ok? && !(s.taxLock.Some? && pay.date <= s.taxLock.value)
    ensures var t := RegisterPayment(c, s, pay).db;
            Inv(c, t) && PaymentRow(c, s, t, pay) && ResetPaymentToDraft(c, t, |s.moves|).result.Ok?
  {
    hide RegisterPayment, ResetPaymentToDraft, InvExcept, TermsOfPayment, Guarded, Extends, PaymentReset, LinesOfPayment;
    RegisterPaymentKeeps(c, s, pay);
    ForeignPaymentRow(c, s, pay);
    ResetPaymentEffect(c, RegisterPayment(c, s, pay).db, |s.moves|);
  }

  /**
   A foreign-currency payment is not refused: registering it and resetting it succeeds, and the control
   account is then off by the differences between what the planned slices are worth on the payment date
   and what they were booked at. It is back where it was if and only if those add up to nothing.
   */
  lemma ForeignResetLeavesDifferences(c: Chart, s: State, pay: NewPayment, w: Window)
    requires Inv(c, s) && IsForeign(pay) && PaymentAccountsApart(c, pay) && w.Has(pay.date)
    requires RegisterPayment(c, s, pay).result.Ok? && !(s.taxLock.Some? && pay.date <= s.taxLock.value)
    ensures TermsOfPayment(c, pay).Ok? && ControlOf(c, pay).Some? && DayRate(c, pay).Some?
    ensures ResetPaymentToDraft(c, RegisterPayment(c, s, pay).db, |s.moves|).result.Ok?
    ensures var u := ResetPaymentToDraft(c, RegisterPayment(c, s, pay).db, |s.moves|).db;
            var a := ControlOf(c, pay).value;
            var left := Difference(PlanOf(c, s, pay), DayRate(c, pay).value);
            && Balance(u.moves, {a}, w) == Balance(s.moves, {a}, w) + (if pay.inbound then left else -left)
            && (Balance(u.moves, {a}, w) == Balance(s.moves, {a}, w) <==> left == 0)
  {
    hide RegisterPayment, ResetPaymentToDraft, Inv, Balance, Share, SumMyr, Matched, Slices, ToMyr, Sum, TermsOfPayment,
         PaymentAccountsApart, RowsAre, Difference, PlanOf, IsForeign, PaymentRow, ControlOf, DayRate;
    var t := RegisterPayment(c, s, pay).db;
    var id := |s.moves|;
    ForeignPaymentIsReset(c, s, pay);
    FxPaymentMovesControl(c, s, pay, w);
    RegistrationIsPlanned(c, s, pay);
    TermsAre(c, pay);
    var terms := TermsOfPayment(c, pay).value;
    ShareOfPayment(c, s, t, pay, w);
    DifferenceOfRows(t.recs[|s.recs|..], PlanOf(c, s, pay), terms.rate);
    ResetBalance(c, t, id, {terms.counterpart}, w);
  }

  /**
   One invoice of 100.00 booked at 4.2 and paid in full on a day at 4.4: after the reset the receivable
   is 20.00 above what it was.
   */
  lemma PaidAtAnotherRate(c: Chart, s: State, pay: NewPayment, invoice: MoveId, w: Window)
    requires Inv(c, s) && IsForeign(pay) && PaymentAccountsApart(c, pay) && w.Has(pay.date)
    requires RegisterPayment(c, s, pay).result.Ok? && !(s.taxLock.Some? && pay.date <= s.taxLock.value)
    requires pay.inbound && pay.amount == 10000 && pay.allocateTo == [invoice] && TermsOfPayment(c, pay).Ok?
    requires DayRate(c, pay) == Some(44000000000)
    requires Takes(c, s, invoice, PaymentSide(c, pay), pay.currency.value, map[])
    requires s.moves[invoice].rate == Some(42000000000) && s.moves[invoice].residualCurrency == Some(10000)
    ensures var u := ResetPaymentToDraft(c, RegisterPayment(c, s, pay).db, |s.moves|).db;
            ControlOf(c, pay).Some? && var a := ControlOf(c, pay).value;
            Balance(u.moves, {a}, w) == Balance(s.moves, {a}, w) + 2000
  {
    hide Inv, RegisterPayment, TermsOfPayment, ControlOf, DayRate, PaymentSide, OpenCounterpart, StillOwed, Balance, ResetPaymentToDraft, PaymentAccountsApart, ToMyr, Plan, Difference;
    ForeignResetLeavesDifferences(c, s, pay, w);
    PlanOfOne(c, s, PaymentSide(c, pay), pay.currency.value, 10000, invoice);
    DifferenceOfOne(Slice(10000, ToMyr(10000, 42000000000)), 44000000000);
    TwoRates();
  }

  lemma TwoRates()
    ensures ToMyr(10000, 42000000000) == 42000 && ToMyr(10000, 44000000000) == 44000
  {
  }

  /** What the payment's own entry contributes to its control account. */
  lemma ShareOfPayment(c: Chart, s: State, t: State, pay: NewPayment, w: Window)
    requires PaymentRow(c, s, t, pay) && PaymentAccountsApart(c, pay) && w.Has(pay.date)
    ensures var terms := TermsOfPayment(c, pay).value;
            Share(t.moves[|s.moves|], {terms.counterpart}, w) ==
            if pay.inbound then -ToMyr(pay.amount, terms.rate) else ToMyr(pay.amount, terms.rate)
  {
    hide TermsOfPayment, ToMyr, FxAccountsApart, Frozen;
    var terms := TermsOfPayment(c, pay).value;
    var lines := LinesOfPayment(pay, terms);
    SumsOfSameLines(lines, t.moves[|s.moves|].lines, {terms.counterpart});
    SumsOfTwo(lines[0], lines[1], {terms.counterpart});
    assert lines == [lines[0], lines[1]];
  }
}
