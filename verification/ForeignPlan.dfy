/**
 What a foreign-currency payment will settle, read from the tables before the call: one slice per
 document it reaches, with the MYR at which the document was booked.
 */
module ForeignPlan {
  import opened Wrappers
  import opened Ledger
  import opened ServiceModel
  import opened CurrencyModel
  import opened DocumentsModel
  import opened SettlementModel
  import opened Pools
  import opened Invariant
  import opened Periods
  import opened PostingKeeps
  import opened DocumentsKeep
  import opened PaymentsKeep
  import opened FxSettlement
  import opened RoundTrip

  datatype Slice = Slice(amount: int, booked: int)

  /** What document `d` still owes in its own currency once `done` has been taken from the documents. */
  function StillOwed(c: Chart, s: State, d: MoveId, done: map<MoveId, int>): int
    requires d < |s.moves|
  {
    var m := s.moves[d];
    if d in done && OpenCounterpart(c, s, d).Some? then
      Max(0, m.total - SettledCurrency(s.recs, OpenCounterpart(c, s, d).value.line) - done[d])
    else if m.residualCurrency.Some? then m.residualCurrency.value else 0
  }

  /** A posted document in the payment's currency, open on the other side, that still owes something. */
  predicate Takes(c: Chart, s: State, d: MoveId, isDebit: bool, currency: CurrencyId, done: map<MoveId, int>) {
    && d < |s.moves| && s.moves[d].stage.Posted? && s.moves[d].currency == Some(currency) && s.moves[d].rate.Some?
    && OpenCounterpart(c, s, d).Some? && OpenCounterpart(c, s, d).value.isDebit != isDebit
    && StillOwed(c, s, d, done) > 0
  }

  /** The slices of a payment that still has `left`, document by document in list order. */
  function Plan(c: Chart, s: State, isDebit: bool, currency: CurrencyId, left: int, docs: seq<MoveId>, done: map<MoveId, int>): seq<Slice>
    decreases |docs|
  {
    if docs == [] || left <= 0 then []
    else if !Takes(c, s, docs[0], isDebit, currency, done) then Plan(c, s, isDebit, currency, left, docs[1..], done)
    else
      var amount := Min(left, StillOwed(c, s, docs[0], done));
      var taken := amount + if docs[0] in done then done[docs[0]] else 0;
      [Slice(amount, ToMyr(amount, s.moves[docs[0]].rate.value))] +
      Plan(c, s, isDebit, currency, left - amount, docs[1..], done[docs[0] := taken])
  }

  function PlanOf(c: Chart, s: State, pay: NewPayment): seq<Slice>
    requires IsForeign(pay) && TermsOfPayment(c, pay).Ok?
  {
    Plan(c, s, PaymentSide(c, pay), pay.currency.value, pay.amount, pay.allocateTo, map[])
  }

  /** What the slices are worth on the payment date, less what they were booked at. */
  function Difference(plan: seq<Slice>, rate: int): int {
    if plan == [] then 0 else ToMyr(plan[0].amount, rate) - plan[0].booked + Difference(plan[1..], rate)
  }

  // ─── The reconciliations are the plan ───────────────────────────────

  ghost predicate RowsAre(rows: seq<Reconcile>, plan: seq<Slice>) {
    |rows| == |plan| && forall k :: 0 <= k < |rows| ==> rows[k].currency == plan[k].amount && rows[k].amount == plan[k].booked
  }

  /** Midway through an allocation: `done` has been taken from the documents, nothing else has changed for them. */
  ghost predicate MidPlanAt(c: Chart, s: State, q: State, done: map<MoveId, int>, d: MoveId)
    requires d < |s.moves| <= |q.moves|
  {
    && SameEntry(s.moves[d], q.moves[d])
    && (OpenCounterpart(c, s, d).Some? ==>
          var line := OpenCounterpart(c, s, d).value.line;
          && SettledCurrency(q.recs, line) == SettledCurrency(s.recs, line) + (if d in done then done[d] else 0)
          && (if d in done then q.moves[d].residualCurrency == Some(StillOwed(c, s, d, done))
              else q.moves[d].residualCurrency == s.moves[d].residualCurrency))
  }

  ghost predicate MidPlan(c: Chart, s: State, q: State, done: map<MoveId, int>) {
    && |s.moves| < |q.moves|
    && (forall d: nat :: d < |s.moves| ==> MidPlanAt(c, s, q, done, d))
    && (forall d: nat :: |s.moves| <= d < |q.moves| ==> q.moves[d].rate.None?)
  }

  lemma SameOpenLine(c: Chart, s: State, q: State, d: MoveId)
    requires d < |s.moves| <= |q.moves| && SameEntry(s.moves[d], q.moves[d])
    ensures OpenCounterpart(c, s, d).Some? <==> OpenCounterpart(c, q, d).Some?
    ensures OpenCounterpart(c, s, d).Some? ==>
              && OpenCounterpart(c, s, d).value.line == OpenCounterpart(c, q, d).value.line
              && OpenCounterpart(c, s, d).value.isDebit == OpenCounterpart(c, q, d).value.isDebit
              && OpenCounterpart(c, s, d).value.line.move == d
  {
    SameLinesFacts(c, s.moves[d].lines, q.moves[d].lines);
    if OpenCounterpart(c, s, d).Some? {
      var k := Counterpart(c, s.moves[d].lines).value;
      assert s.moves[d].lines[k].(reconciled := q.moves[d].lines[k].reconciled) == q.moves[d].lines[k];
    }
  }

  /** Midway, the code takes a document exactly when the plan does. */
  lemma SameTakes(c: Chart, s: State, q: State, pay: FxPayment, done: map<MoveId, int>, d: MoveId)
    requires MidPlan(c, s, q, done)
    ensures FxMatchable(c, q, d, pay) <==> Takes(c, s, d, pay.isDebit, pay.currency, done)
    ensures FxMatchable(c, q, d, pay) ==>
              d < |s.moves| < |q.moves| && q.moves[d].residualCurrency == Some(StillOwed(c, s, d, done)) && q.moves[d].rate == s.moves[d].rate && s.moves[d].rate.Some?
  {
    if d < |s.moves| {
      assert MidPlanAt(c, s, q, done, d);
      SameOpenLine(c, s, q, d);
    }
  }

  /** One slice: one reconciliation, its document recomputed, and at most one posted entry more. */
  lemma SliceRows(c: Chart, q: State, pay: FxPayment, inbound: bool, matched: int, doc: MoveId)
    requires FxMatchable(c, q, doc, pay) && FxSlice(c, q, pay, inbound, matched, doc).result.Ok?
    ensures var t := FxSlice(c, q, pay, inbound, matched, doc).db;
            var o := OpenCounterpart(c, q, doc).value;
            var r := Pair(o.line, o.isDebit, pay.line, ToMyr(matched, q.moves[doc].rate.value), matched);
            && t.recs == q.recs + [r] && |q.moves| <= |t.moves|
            && (forall d :: 0 <= d < |q.moves| && d != doc ==> t.moves[d] == q.moves[d])
            && (forall d :: |q.moves| <= d < |t.moves| ==> t.moves[d].rate.None?)
            && t.moves[doc] == Refreshed(c, q.recs + [r], doc, q.moves[doc])
  {
    var o := OpenCounterpart(c, q, doc).value;
    var rate := q.moves[doc].rate.value;
    var s1 := AddRec(q, Pair(o.line, o.isDebit, pay.line, ToMyr(matched, rate), matched));
    FxEntryRows(c, s1, pay.counterpart, q.moves[doc].partner, SliceDelta(matched, pay.rate, rate, inbound), pay.date);
    hide PostRealizedFx, Refreshed, OpenOf, ToMyr;
  }

  lemma FxEntryRows(c: Chart, s: State, counterpart: AccountId, partner: Option<PartnerId>, delta: int, date: Date)
    requires PostRealizedFx(c, s, counterpart, partner, delta, date).result.Ok?
    ensures var t := PostRealizedFx(c, s, counterpart, partner, delta, date).db;
            && t.recs == s.recs && |s.moves| <= |t.moves| && t.moves[..|s.moves|] == s.moves
            && (forall d :: |s.moves| <= d < |t.moves| ==> t.moves[d].rate.None?)
  {
    if delta != 0 && c.realizedFx.Some? {
      var lines := RealizedFxLines(c.realizedFx.value, counterpart, delta);
      CreateAndPostEffect(c, s, RealizedFxMove(c.realizedFx.value, counterpart, partner, delta, date), lines);
    }
  }

  /** The refreshed document owes its total less everything settled on it. */
  lemma RefreshedOwes(c: Chart, recs: seq<Reconcile>, r: Reconcile, id: MoveId, m: Move, o: OpenLine)
    requires m.rate.Some? && OpenOf(c, recs, id, m) == Some(o) && (r.debit == o.line || r.credit == o.line)
    ensures SettledCurrency(recs + [r], o.line) == SettledCurrency(recs, o.line) + r.currency
    ensures Refreshed(c, recs + [r], id, m).residualCurrency == Some(Max(0, m.total - SettledCurrency(recs, o.line) - r.currency))
    ensures SameEntry(m, Refreshed(c, recs + [r], id, m))
  {
    SettledOfOneMore(recs, r, o.line);
    RefreshedIsSameEntry(c, recs + [r], id, m);
  }

  function WithTaken(done: map<MoveId, int>, doc: MoveId, amount: int): map<MoveId, int> {
    done[doc := amount + if doc in done then done[doc] else 0]
  }

  lemma SliceMidPlan(c: Chart, s: State, q: State, pay: FxPayment, inbound: bool, matched: int, doc: MoveId, done: map<MoveId, int>)
    requires MidPlan(c, s, q, done) && FxMatchable(c, q, doc, pay) && doc < |s.moves| == pay.line.move
    requires FxSlice(c, q, pay, inbound, matched, doc).result.Ok?
    ensures MidPlan(c, s, FxSlice(c, q, pay, inbound, matched, doc).db, WithTaken(done, doc, matched))
  {
    SliceRows(c, q, pay, inbound, matched, doc);
    hide FxSlice, Refreshed, SameEntry, OpenOf, SettledCurrency;
    var t := FxSlice(c, q, pay, inbound, matched, doc).db;
    forall d: nat | d < |s.moves| ensures MidPlanAt(c, s, t, WithTaken(done, doc, matched), d) {
      assert MidPlanAt(c, s, q, done, d);
      SliceMidPlanAt(c, s, q, t, pay, matched, doc, done, d);
    }
  }

  lemma SliceMidPlanAt(c: Chart, s: State, q: State, t: State, pay: FxPayment, matched: int, doc: MoveId, done: map<MoveId, int>, d: MoveId)
    requires d < |s.moves| == pay.line.move && doc < |s.moves| < |q.moves| <= |t.moves|
    requires MidPlanAt(c, s, q, done, d) && q.moves[doc].rate.Some? && OpenCounterpart(c, q, doc).Some?
    requires var o := OpenCounterpart(c, q, doc).value;
             var r := Pair(o.line, o.isDebit, pay.line, ToMyr(matched, q.moves[doc].rate.value), matched);
             && t.recs == q.recs + [r]
             && t.moves[d] == if d == doc then Refreshed(c, q.recs + [r], doc, q.moves[doc]) else q.moves[d]
    ensures MidPlanAt(c, s, t, WithTaken(done, doc, matched), d)
  {
    hide Refreshed, ToMyr, SettledCurrency;
    var o := OpenCounterpart(c, q, doc).value;
    var r := Pair(o.line, o.isDebit, pay.line, ToMyr(matched, q.moves[doc].rate.value), matched);
    SameOpenLine(c, s, q, d);
    if d == doc {
      RefreshedOwes(c, q.recs, r, doc, q.moves[doc], o);
      SameEntryChain(s.moves[d], q.moves[d], t.moves[d]);
    } else if OpenCounterpart(c, s, d).Some? {
      SettledOfOneMore(q.recs, r, OpenCounterpart(c, s, d).value.line);
    }
  }

  lemma SliceRow(c: Chart, q: State, pay: FxPayment, inbound: bool, matched: int, doc: MoveId)
    requires FxMatchable(c, q, doc, pay) && FxSlice(c, q, pay, inbound, matched, doc).result.Ok?
    ensures var t := FxSlice(c, q, pay, inbound, matched, doc).db;
            && |t.recs| == |q.recs| + 1 && t.recs[..|q.recs|] == q.recs
            && t.recs[|q.recs|].currency == matched && t.recs[|q.recs|].amount == ToMyr(matched, q.moves[doc].rate.value)
  {
    hide FxSlice, ToMyr, Refreshed;
    SliceRows(c, q, pay, inbound, matched, doc);
  }

  lemma NoRows()
    ensures RowsAre([], [])
  {
  }

  lemma RowsJoin(r: Reconcile, rows: seq<Reconcile>, x: Slice, plan: seq<Slice>)
    requires RowsAre(rows, plan) && r.currency == x.amount && r.amount == x.booked
    ensures RowsAre([r] + rows, [x] + plan)
  {
  }

  lemma {:induction false} AllocationIsPlanned(c: Chart, s: State, q: State, pay: FxPayment, inbound: bool, left: int, docs: seq<MoveId>,
                                               done: map<MoveId, int>)
    requires AllocateFx(c, q, pay, inbound, left, docs).result.Ok? && MidPlan(c, s, q, done) && pay.line.move == |s.moves|
    ensures q.recs <= AllocateFx(c, q, pay, inbound, left, docs).db.recs
    ensures RowsAre(AllocateFx(c, q, pay, inbound, left, docs).db.recs[|q.recs|..],
                    Plan(c, s, pay.isDebit, pay.currency, left, docs, done))
    decreases |docs|
  {
    hide FxSlice, MidPlan, ToMyr, Takes, FxMatchable, StillOwed, RowsAre;
    var t := AllocateFx(c, q, pay, inbound, left, docs).db;
    if docs == [] || left <= 0 {
      assert t.recs[|q.recs|..] == [];
      NoRows();
    } else {
      SameTakes(c, s, q, pay, done, docs[0]);
      if !FxMatchable(c, q, docs[0], pay) {
        AllocationIsPlanned(c, s, q, pay, inbound, left, docs[1..], done);
      } else {
        var matched := Min(left, q.moves[docs[0]].residualCurrency.value);
        var slice := FxSlice(c, q, pay, inbound, matched, docs[0]);
        SliceRow(c, q, pay, inbound, matched, docs[0]);
        SliceMidPlan(c, s, q, pay, inbound, matched, docs[0], done);
        AllocationIsPlanned(c, s, slice.db, pay, inbound, left - matched, docs[1..], WithTaken(done, docs[0], matched));
        assert t.recs[|q.recs|..] == [slice.db.recs[|q.recs|]] + t.recs[|slice.db.recs|..];
        RowsJoin(slice.db.recs[|q.recs|], t.recs[|slice.db.recs|..], Slice(matched, ToMyr(matched, s.moves[docs[0]].rate.value)),
                 Plan(c, s, pay.isDebit, pay.currency, left - matched, docs[1..], WithTaken(done, docs[0], matched)));
      }
    }
  }

  lemma PostedMidPlan(c: Chart, s: State, pay: NewPayment)
    requires PostedPayment(c, s, pay)
    ensures MidPlan(c, s, PostPayment(c, s, pay).db, map[])
  {
    hide PostPayment, TermsOfPayment, OpenOf;
    var p := PostPayment(c, s, pay).db;
    forall d: nat | d < |s.moves| ensures MidPlanAt(c, s, p, map[], d) {
      assert p.moves[d] == s.moves[d];
    }
  }

  /** A registered foreign-currency payment has added exactly the reconciliations of its plan. */
  lemma RegistrationIsPlanned(c: Chart, s: State, pay: NewPayment)
    requires Inv(c, s) && IsForeign(pay) && RegisterPayment(c, s, pay).result.Ok?
    ensures TermsOfPayment(c, pay).Ok? && s.recs <= RegisterPayment(c, s, pay).db.recs
    ensures RowsAre(RegisterPayment(c, s, pay).db.recs[|s.recs|..], PlanOf(c, s, pay))
  {
    hide AllocateFx, InvExcept, TermsOfPayment, PaymentSide, Plan, RowsAre, MidPlan, PostPayment, RegisterPayment, FxAllocationOf;
    PostedFirst(c, s, pay);
    var p := PostPayment(c, s, pay).db;
    FxPaymentInSteps(c, s, pay);
    PostedMidPlan(c, s, pay);
    PaymentLineSide(c, s, pay);
    var o := OpenCounterpart(c, p, |s.moves|).value;
    var terms := TermsOfPayment(c, pay).value;
    PlannedAllocation(c, s, p, pay, terms, o);
  }

  lemma PostedFirst(c: Chart, s: State, pay: NewPayment)
    requires Inv(c, s) && RegisterPayment(c, s, pay).result.Ok?
    ensures PostedPayment(c, s, pay) && TermsOfPayment(c, pay).Ok? && PostPayment(c, s, pay).db.recs == s.recs
  {
    PostPaymentKeeps(c, s, pay, {});
    hide PostPayment, InvExcept;
  }

  lemma PlannedAllocation(c: Chart, s: State, p: State, pay: NewPayment, terms: PaymentTerms, o: OpenLine)
    requires IsForeign(pay) && MidPlan(c, s, p, map[]) && o.line.move == |s.moves| && FxAllocationOf(c, p, pay, terms, o).result.Ok?
    ensures p.recs <= FxAllocationOf(c, p, pay, terms, o).db.recs
    ensures RowsAre(FxAllocationOf(c, p, pay, terms, o).db.recs[|p.recs|..],
                    Plan(c, s, o.isDebit, pay.currency.value, pay.amount, pay.allocateTo, map[]))
  {
    hide AllocateFx, MidPlan, Plan, RowsAre;
    AllocationIsPlanned(c, s, p, FxPayment(o.line, o.isDebit, terms.counterpart, pay.currency.value, terms.rate, pay.date),
                        pay.inbound, pay.amount, pay.allocateTo, map[]);
  }

  lemma PaymentLineSide(c: Chart, s: State, pay: NewPayment)
    requires PostedPayment(c, s, pay) && OpenCounterpart(c, PostPayment(c, s, pay).db, |s.moves|).Some?
    ensures var o := OpenCounterpart(c, PostPayment(c, s, pay).db, |s.moves|).value;
            o.line.move == |s.moves| && o.isDebit == PaymentSide(c, pay)
  {
    hide PostPayment, TermsOfPayment;
  }

  /** The realised differences of the reconciliations add up to the plan's. */
  lemma {:induction false} DifferenceOfRows(rows: seq<Reconcile>, plan: seq<Slice>, rate: int)
    requires RowsAre(rows, plan)
    ensures SumMyr(Slices(rows), rate) - Matched(rows) == Difference(plan, rate)
  {
    if rows == [] {
      NoSlices(rate);
    } else {
      assert rows == [rows[0]] + rows[1..];
      SlicesFromFront(rows[0], rows[1..], rate);
      DifferenceOfRows(rows[1..], plan[1..], rate);
    }
  }

  /** What the slices add up to, in document currency and at their booked MYR. */
  function Planned(plan: seq<Slice>): int {
    if plan == [] then 0 else plan[0].amount + Planned(plan[1..])
  }

  function Booked(plan: seq<Slice>): int {
    if plan == [] then 0 else plan[0].booked + Booked(plan[1..])
  }

  lemma {:induction false} TotalsOfRows(rows: seq<Reconcile>, plan: seq<Slice>)
    requires RowsAre(rows, plan)
    ensures Sum(Slices(rows)) == Planned(plan) && Matched(rows) == Booked(plan) && |rows| == |plan|
  {
    if rows == [] {
      NoSlices(0);
    } else {
      assert rows == [rows[0]] + rows[1..];
      SlicesFromFront(rows[0], rows[1..], 0);
      TotalsOfRows(rows[1..], plan[1..]);
    }
  }

  /**
   Realised differences close the control account. When the slices planned before the call use up a
   foreign-currency payment, the control account moves by their booked MYR within (k+1)/2 sen, whatever
   the rates, for receipts and for payments; with a single slice it is exact.
   */
  lemma PlannedPaymentCloses(c: Chart, s: State, pay: NewPayment, w: Window)
    requires Inv(c, s) && IsForeign(pay) && PaymentAccountsApart(c, pay) && w.Has(pay.date)
    requires RegisterPayment(c, s, pay).result.Ok? && TermsOfPayment(c, pay).Ok? && Planned(PlanOf(c, s, pay)) == pay.amount
    ensures ControlOf(c, pay).Some?
    ensures var a, plan := ControlOf(c, pay).value, PlanOf(c, s, pay);
            var moved := Balance(RegisterPayment(c, s, pay).db.moves, {a}, w) - Balance(s.moves, {a}, w);
            var booked := if pay.inbound then -Booked(plan) else Booked(plan);
            2 * Abs(moved - booked) <= |plan| + 1 && (|plan| == 1 ==> moved == booked)
  {
    hide Inv, RegisterPayment, TermsOfPayment, ControlOf, PlanOf, PaymentAccountsApart, Balance, RowsAre, Planned, Booked, Abs, IsForeign;
    RegistrationIsPlanned(c, s, pay);
    TotalsOfRows(RegisterPayment(c, s, pay).db.recs[|s.recs|..], PlanOf(c, s, pay));
    FxClosesControlAccount(c, s, pay, w);
  }

  /** A single listed document is taken for what the payment has, up to what the document owes. */
  lemma PlanOfOne(c: Chart, s: State, isDebit: bool, currency: CurrencyId, amount: int, d: MoveId)
    requires amount > 0 && Takes(c, s, d, isDebit, currency, map[])
    ensures Plan(c, s, isDebit, currency, amount, [d], map[]) ==
            [Slice(Min(amount, s.moves[d].residualCurrency.value), ToMyr(Min(amount, s.moves[d].residualCurrency.value), s.moves[d].rate.value))]
  {
    hide ToMyr, OpenCounterpart;
    assert [d][1..] == [];
  }

  lemma DifferenceOfOne(x: Slice, rate: int)
    ensures Difference([x], rate) == ToMyr(x.amount, rate) - x.booked
  {
    hide ToMyr;
    assert [x][1..] == [];
  }
}
