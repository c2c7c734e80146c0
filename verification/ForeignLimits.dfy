/**
 A foreign-currency payment settles no document for more than its total in its own currency, and when
 one of its slices is cut off half-way.
 */
module ForeignLimits {
  import opened Wrappers
  import opened Ledger
  import opened ServiceModel
  import opened CurrencyModel
  import opened DocumentsModel
  import opened SettlementModel
  import opened Invariant
  import opened DocumentsKeep
  import opened PaymentsKeep
  import opened FxSettlement
  import opened RoundTrip
  import opened ForeignPlan

  /** What is settled on document `d`, in its own currency. */
  function SettledOn(c: Chart, s: State, d: MoveId): int {
    match OpenCounterpart(c, s, d)
    case None => 0
    case Some(o) => SettledCurrency(s.recs, o.line)
  }

  /** The recorded residual asks for no more than the total leaves, as a posted document's does. */
  predicate WithinTotal(c: Chart, s: State, d: MoveId) {
    d < |s.moves| ==>
      && SettledOn(c, s, d) <= s.moves[d].total
      && (s.moves[d].residualCurrency.Some? ==> SettledOn(c, s, d) + s.moves[d].residualCurrency.value <= s.moves[d].total)
  }

  /** Nothing more than the total is settled, whatever the residual says. */
  predicate NotOverSettled(c: Chart, s: State, d: MoveId) {
    d < |s.moves| ==> SettledOn(c, s, d) <= s.moves[d].total
  }

  // ─── One slice ──────────────────────────────────────────────────────

  /** The differences that can be posted: the account of a gain or of a loss, and the general journal, exist. */
  predicate CanPostDifference(c: Chart, delta: int) {
    && "GEN" in c.journals && c.realizedFx.Some?
    && (if delta < 0 then c.realizedFx.value.loss else c.realizedFx.value.gain) < |c.accounts|
  }

  /** A difference on an open date posts exactly when it is nothing or can be posted; existing rows stay. */
  lemma DifferencePosts(c: Chart, s: State, counterpart: AccountId, partner: Option<PartnerId>, delta: int, date: Date)
    ensures var r := PostRealizedFx(c, s, counterpart, partner, delta, date);
            && r.db.recs == s.recs && |s.moves| <= |r.db.moves| && r.db.moves[..|s.moves|] == s.moves
            && (!Frozen(s, date) && counterpart < |c.accounts| ==> (r.result.Ok? <==> delta == 0 || CanPostDifference(c, delta)))
  {
    if delta != 0 && c.realizedFx.Some? {
      var accounts := c.realizedFx.value;
      var lines := RealizedFxLines(accounts, counterpart, delta);
      RealizedFxIsBalanced(accounts, counterpart, delta);
      CreateAndPostEffect(c, s, RealizedFxMove(accounts, counterpart, partner, delta, date), lines);
      hide CreateAndPost, Balanced, Frozen;
      assert |lines| == 2 && (RowsAccepted(c, lines) <==> RowAccepted(c, lines[0]) && RowAccepted(c, lines[1]));
    }
  }

  /** A slice in parts: its reconciliation, the difference, and the document recomputed unless it was cut off. */
  lemma SliceParts(c: Chart, q: State, pay: FxPayment, inbound: bool, matched: int, doc: MoveId)
    requires FxMatchable(c, q, doc, pay)
    ensures var r := FxSlice(c, q, pay, inbound, matched, doc);
            var o := OpenCounterpart(c, q, doc).value;
            var myr := ToMyr(matched, q.moves[doc].rate.value);
            var delta := SliceDelta(matched, pay.rate, q.moves[doc].rate.value, inbound);
            var rec := Pair(o.line, o.isDebit, pay.line, myr, matched);
            && o.line.move == doc && |q.moves| <= |r.db.moves|
            && (forall d :: 0 <= d < |q.moves| && d != doc ==> r.db.moves[d] == q.moves[d])
            && r.db.recs == (if myr <= 0 then q.recs else q.recs + [rec])
            && r.db.moves[doc] == (if r.result.Ok? then Refreshed(c, q.recs + [rec], doc, q.moves[doc]) else q.moves[doc])
            && (!Frozen(q, pay.date) && pay.counterpart < |c.accounts| ==>
                  (r.result.Ok? <==> myr > 0 && (delta == 0 || CanPostDifference(c, delta))))
  {
    var o := OpenCounterpart(c, q, doc).value;
    var rate := q.moves[doc].rate.value;
    var s1 := AddRec(q, Pair(o.line, o.isDebit, pay.line, ToMyr(matched, rate), matched));
    DifferencePosts(c, s1, pay.counterpart, q.moves[doc].partner, SliceDelta(matched, pay.rate, rate, inbound), pay.date);
    hide PostRealizedFx, Refreshed, ToMyr, SliceDelta, CanPostDifference;
    assert Frozen(s1, pay.date) <==> Frozen(q, pay.date);
    var fx := PostRealizedFx(c, s1, pay.counterpart, q.moves[doc].partner, SliceDelta(matched, pay.rate, rate, inbound), pay.date);
    assert forall d :: 0 <= d < |q.moves| ==> fx.db.moves[d] == fx.db.moves[..|q.moves|][d];
  }

  /**
   When a settlement in a foreign currency is cut off: exactly when a slice is worth nothing in MYR, or
   has a difference that cannot be posted. In the second case the document has been settled but not
   recomputed; otherwise its own-currency columns say what is open.
   */
  lemma SliceIsCutOffWhen(c: Chart, q: State, pay: FxPayment, inbound: bool, matched: int, doc: MoveId)
    requires FxMatchable(c, q, doc, pay) && !Frozen(q, pay.date) && pay.counterpart < |c.accounts|
    ensures var r := FxSlice(c, q, pay, inbound, matched, doc);
            var delta := SliceDelta(matched, pay.rate, q.moves[doc].rate.value, inbound);
            && doc < |r.db.moves|
            && (r.result.Err? <==> ToMyr(matched, q.moves[doc].rate.value) <= 0 || (delta != 0 && !CanPostDifference(c, delta)))
            && (r.result.Ok? ==> Current(c, r.db.recs, doc, r.db.moves[doc]))
            && (r.result.Err? ==> r.db.moves[doc] == q.moves[doc])
            && (r.result.Err? && ToMyr(matched, q.moves[doc].rate.value) > 0 ==> |r.db.recs| == |q.recs| + 1)
  {
    SliceParts(c, q, pay, inbound, matched, doc);
    var o := OpenCounterpart(c, q, doc).value;
    var rec := Pair(o.line, o.isDebit, pay.line, ToMyr(matched, q.moves[doc].rate.value), matched);
    RefreshedIsCurrent(c, q.recs + [rec], doc, q.moves[doc]);
    hide FxSlice, Refreshed, ToMyr, SliceDelta, CanPostDifference, Current;
  }

  lemma RefreshedIsCurrent(c: Chart, recs: seq<Reconcile>, id: MoveId, m: Move)
    requires m.rate.Some?
    ensures Current(c, recs, id, Refreshed(c, recs, id, m))
  {
    RefreshedIsSameEntry(c, recs, id, m);
    SameEntryFacts(c, recs, id, m, Refreshed(c, recs, id, m));
  }

  lemma SliceStaysWithin(c: Chart, q: State, pay: FxPayment, inbound: bool, matched: int, doc: MoveId, d: MoveId)
    requires FxMatchable(c, q, doc, pay) && 0 < matched <= q.moves[doc].residualCurrency.value
    requires d < |q.moves| && WithinTotal(c, q, d) && d != pay.line.move
    ensures NotOverSettled(c, FxSlice(c, q, pay, inbound, matched, doc).db, d)
    ensures FxSlice(c, q, pay, inbound, matched, doc).result.Ok? ==> WithinTotal(c, FxSlice(c, q, pay, inbound, matched, doc).db, d)
  {
    SliceParts(c, q, pay, inbound, matched, doc);
    var o := OpenCounterpart(c, q, doc).value;
    var rec := Pair(o.line, o.isDebit, pay.line, ToMyr(matched, q.moves[doc].rate.value), matched);
    LineOfDocument(c, q, d);
    if OpenCounterpart(c, q, d).Some? {
      SettledOfOneMore(q.recs, rec, OpenCounterpart(c, q, d).value.line);
    }
    if d == doc {
      RefreshedOwes(c, q.recs, rec, doc, q.moves[doc], o);
      SameLinesFacts(c, q.moves[doc].lines, Refreshed(c, q.recs + [rec], doc, q.moves[doc]).lines);
    }
    hide FxSlice, Refreshed, ToMyr, SettledCurrency, FxMatchable;
  }

  lemma LineOfDocument(c: Chart, q: State, d: MoveId)
    ensures OpenCounterpart(c, q, d).Some? ==> OpenCounterpart(c, q, d).value.line.move == d
  {
  }

  // ─── The whole payment ──────────────────────────────────────────────

  lemma {:induction false} AllocationStaysWithin(c: Chart, q: State, pay: FxPayment, inbound: bool, left: int, docs: seq<MoveId>, d: MoveId)
    requires d < |q.moves| && WithinTotal(c, q, d) && d != pay.line.move
    ensures NotOverSettled(c, AllocateFx(c, q, pay, inbound, left, docs).db, d)
    ensures AllocateFx(c, q, pay, inbound, left, docs).result.Ok? ==> WithinTotal(c, AllocateFx(c, q, pay, inbound, left, docs).db, d)
    decreases |docs|
  {
    hide FxSlice, OpenCounterpart;
    if docs == [] || left <= 0 {
    } else if !FxMatchable(c, q, docs[0], pay) {
      AllocationStaysWithin(c, q, pay, inbound, left, docs[1..], d);
    } else {
      var matched := Min(left, q.moves[docs[0]].residualCurrency.value);
      SliceStaysWithin(c, q, pay, inbound, matched, docs[0], d);
      SliceParts(c, q, pay, inbound, matched, docs[0]);
      var slice := FxSlice(c, q, pay, inbound, matched, docs[0]);
      if slice.result.Ok? {
        AllocationStaysWithin(c, slice.db, pay, inbound, left - matched, docs[1..], d);
      }
    }
  }

  /** Rows that stay, with no reconciliation added, are settled as before. */
  lemma SameSettled(c: Chart, s: State, t: State, d: MoveId)
    requires d < |s.moves| <= |t.moves| && t.moves[d] == s.moves[d] && t.recs == s.recs
    ensures WithinTotal(c, t, d) <==> WithinTotal(c, s, d)
    ensures NotOverSettled(c, t, d) <==> NotOverSettled(c, s, d)
  {
  }

  lemma PaymentLeavesRows(c: Chart, s: State, pay: NewPayment)
    ensures var r := PostPayment(c, s, pay);
            && r.db.recs == s.recs && |s.moves| <= |r.db.moves| && r.db.moves[..|s.moves|] == s.moves
            && (r.result.Ok? ==> r.result.value == |s.moves| && TermsOfPayment(c, pay).Ok?)
  {
    if TermsOfPayment(c, pay).Ok? {
      var terms := TermsOfPayment(c, pay).value;
      PaymentLinesShape(c, pay, terms);
      CreateAndPostEffect(c, s, PaymentMove(pay, LinesOfPayment(pay, terms)), LinesOfPayment(pay, terms));
      hide CreateAndPost, Balanced, RowsAccepted, Frozen;
    }
  }

  /**
   A payment in a foreign currency, refused half-way or not, settles no document whose residual is within
   its total for more than that total, in the document's own currency; and registered in full it leaves
   the residual within the total.
   */
  lemma PaymentStaysWithinTotals(c: Chart, s: State, pay: NewPayment, d: MoveId)
    requires IsForeign(pay) && d < |s.moves| && WithinTotal(c, s, d)
    ensures NotOverSettled(c, RegisterPayment(c, s, pay).db, d)
    ensures RegisterPayment(c, s, pay).result.Ok? ==> WithinTotal(c, RegisterPayment(c, s, pay).db, d)
  {
    hide PostPayment, AllocateFx, TermsOfPayment, WithinTotal, NotOverSettled;
    PaymentLeavesRows(c, s, pay);
    var p := PostPayment(c, s, pay).db;
    assert p.moves[..|s.moves|][d] == p.moves[d];
    SameSettled(c, s, p, d);
    WithinIsNotOver(c, p, d);
    if PostPayment(c, s, pay).result.Ok? && OpenCounterpart(c, p, |s.moves|).Some? {
      LineOfDocument(c, p, |s.moves|);
      var o := OpenCounterpart(c, p, |s.moves|).value;
      var terms := TermsOfPayment(c, pay).value;
      var fx := FxPayment(o.line, o.isDebit, terms.counterpart, pay.currency.value, terms.rate, pay.date);
      AllocationStaysWithin(c, p, fx, pay.inbound, pay.amount, pay.allocateTo, d);
      AllocationKeepsRows(c, p, fx, pay.inbound, pay.amount, pay.allocateTo);
      var u := AllocateFx(c, p, fx, pay.inbound, pay.amount, pay.allocateTo).db;
      SameSettled(c, u, RefreshPaymentState(c, u, |s.moves|), d);
    }
  }

  lemma WithinIsNotOver(c: Chart, s: State, d: MoveId)
    requires WithinTotal(c, s, d)
    ensures NotOverSettled(c, s, d)
  {
  }

  lemma {:induction false} AllocationKeepsRows(c: Chart, q: State, pay: FxPayment, inbound: bool, left: int, docs: seq<MoveId>)
    ensures |q.moves| <= |AllocateFx(c, q, pay, inbound, left, docs).db.moves|
    decreases |docs|
  {
    hide FxSlice, OpenCounterpart;
    if docs == [] || left <= 0 {
    } else if !FxMatchable(c, q, docs[0], pay) {
      AllocationKeepsRows(c, q, pay, inbound, left, docs[1..]);
    } else {
      var matched := Min(left, q.moves[docs[0]].residualCurrency.value);
      SliceParts(c, q, pay, inbound, matched, docs[0]);
      var slice := FxSlice(c, q, pay, inbound, matched, docs[0]);
      if slice.result.Ok? {
        AllocationKeepsRows(c, slice.db, pay, inbound, left - matched, docs[1..]);
      }
    }
  }

  // ─── A difference that cannot be posted ─────────────────────────────

  lemma OneSliceOnly(c: Chart, p: State, fx: FxPayment, inbound: bool, left: int, d: MoveId)
    requires FxMatchable(c, p, d, fx) && left > 0
    requires FxSlice(c, p, fx, inbound, Min(left, p.moves[d].residualCurrency.value), d).result.Err?
    ensures AllocateFx(c, p, fx, inbound, left, [d]) == FxSlice(c, p, fx, inbound, Min(left, p.moves[d].residualCurrency.value), d)
  {
    hide FxSlice, OpenCounterpart;
  }

  /**
   The failing input: a payment whose one slice has a difference, while the account for it or the general
   journal is missing. The payment is refused, yet the document has been settled, and its row still says
   that nothing was.
   */
  lemma UnpostableDifferenceCutsOff(c: Chart, s: State, pay: NewPayment, d: MoveId)
    requires IsForeign(pay) && pay.allocateTo == [d] && d < |s.moves| && TermsOfPayment(c, pay).Ok? && PostedPayment(c, s, pay)
    requires OpenCounterpart(c, PostPayment(c, s, pay).db, |s.moves|).Some?
    requires Takes(c, s, d, PaymentSide(c, pay), pay.currency.value, map[])
    requires var matched, rate := Min(pay.amount, s.moves[d].residualCurrency.value), s.moves[d].rate.value;
             var delta := SliceDelta(matched, TermsOfPayment(c, pay).value.rate, rate, pay.inbound);
             ToMyr(matched, rate) > 0 && delta != 0 && !CanPostDifference(c, delta)
    ensures var r := RegisterPayment(c, s, pay);
            && r.result.Err? && |r.db.recs| == |s.recs| + 1 && d < |r.db.moves| && r.db.moves[d] == s.moves[d]
  {
    PaymentLeavesRows(c, s, pay);
    PaymentIsFxLine(c, s, pay);
    PostedMidPlan(c, s, pay);
    PaymentLineSide(c, s, pay);
    AmountIsPositive(c, pay);
    var p := PostPayment(c, s, pay).db;
    var o := OpenCounterpart(c, p, |s.moves|).value;
    var terms := TermsOfPayment(c, pay).value;
    var fx := FxPayment(o.line, o.isDebit, terms.counterpart, pay.currency.value, terms.rate, pay.date);
    assert p.moves[..|s.moves|][d] == p.moves[d];
    hide PostPayment, AllocateFx, TermsOfPayment, PaymentSide, SliceDelta, ToMyr, CanPostDifference, MidPlan, FxSlice, OpenOf;
    SameTakes(c, s, p, fx, map[], d);
    SliceIsCutOffWhen(c, p, fx, pay.inbound, Min(pay.amount, p.moves[d].residualCurrency.value), d);
    OneSliceOnly(c, p, fx, pay.inbound, pay.amount, d);
  }
}
