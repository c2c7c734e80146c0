/** Payments (`documents.rs`, `currency.rs`): posting, and the allocation loops in both kinds of currency. */
module Payments {
  import opened Wrappers
  import opened Ledger
  import opened Tables
  import opened ServiceModel
  import opened CurrencyModel
  import opened DocumentsModel
  import opened SettlementModel
  import Service
  import Documents

  /** The realised difference of a slice, squared on the control account. */
  method PostRealizedFx(db: Database, counterpart: AccountId, partner: Option<PartnerId>, delta: int, date: Date)
    returns (r: Result<Option<MoveId>>)
    modifies db`moves, db`nextNumber
    ensures Reply(db.View(), r) == CurrencyModel.PostRealizedFx(db.chart, old(db.View()), counterpart, partner, delta, date)
  {
    if delta == 0 {
      return Ok(None);
    }
    if db.chart.realizedFx.None? {
      return Err(NoFxAccounts);
    }
    var posted := Service.CreateAndPost(db, RealizedFxMove(db.chart.realizedFx.value, counterpart, partner, delta, date));
    r := if posted.Ok? then Ok(Some(posted.value)) else Err(posted.error);
  }

  /** Company currency: each document in turn takes what the payment still has and it still owes. */
  method AllocateCompany(db: Database, payment: LineRef, paymentIsDebit: bool, open: int, docs: seq<MoveId>)
    modifies db`moves, db`recs
    ensures db.View() == Allocate(db.chart, old(db.View()), payment, paymentIsDebit, open, docs)
  {
    hide AllocateOne, OpenOf;
    var left := open;
    var i := 0;
    while i < |docs| && left > 0
      invariant 0 <= i <= |docs|
      invariant Allocate(db.chart, old(db.View()), payment, paymentIsDebit, open, docs) ==
                Allocate(db.chart, db.View(), payment, paymentIsDebit, left, docs[i..])
    {
      var doc := docs[i];
      assert docs[i..][0] == doc && docs[i..][1..] == docs[i + 1..];
      i := i + 1;
      var counterpart := if doc < |db.moves| then OpenOf(db.chart, db.recs, doc, db.moves[doc]) else None;
      if counterpart.None? || counterpart.value.amount <= 0 || counterpart.value.isDebit == paymentIsDebit {
        continue;
      }
      if db.moves[doc].rate.Some? {
        continue;
      }
      var matched := Min(left, counterpart.value.amount);
      AllocateDocument(db, counterpart.value, payment, matched, doc);
      left := left - matched;
    }
  }

  /** One document's turn. */
  method AllocateDocument(db: Database, counterpart: OpenLine, payment: LineRef, matched: int, doc: MoveId)
    requires OpenCounterpart(db.chart, db.View(), doc) == Some(counterpart)
    modifies db`moves, db`recs
    ensures db.View() == AllocateOne(db.chart, old(db.View()), payment, matched, doc)
  {
    var debit, credit := if counterpart.isDebit then counterpart.line else payment, if counterpart.isDebit then payment else counterpart.line;
    db.Reconcile(Reconcile(debit, credit, matched, 0));
    Documents.RefreshPaymentState(db, doc);
  }

  /** Foreign currency: slices in document currency, each with its realised difference. */
  method AllocateForeign(db: Database, pay: FxPayment, inbound: bool, amount: int, docs: seq<MoveId>) returns (r: Result<()>)
    modifies db`moves, db`recs, db`nextNumber
    ensures Reply(db.View(), r) == AllocateFx(db.chart, old(db.View()), pay, inbound, amount, docs)
  {
    hide FxSlice, FxMatchable, OpenOf;
    var left := amount;
    var i := 0;
    while i < |docs| && left > 0
      invariant 0 <= i <= |docs|
      invariant AllocateFx(db.chart, old(db.View()), pay, inbound, amount, docs) ==
                AllocateFx(db.chart, db.View(), pay, inbound, left, docs[i..])
    {
      var doc := docs[i];
      assert docs[i..][0] == doc && docs[i..][1..] == docs[i + 1..];
      i := i + 1;
      var takes := TakesForeign(db, pay, doc);
      if !takes {
        continue;
      }
      MatchableFacts(db.chart, db.View(), doc, pay);
      var matched := Min(left, db.moves[doc].residualCurrency.value);
      var slice := SettleSlice(db, pay, inbound, matched, doc);
      if slice.Err? {
        return slice;
      }
      left := left - matched;
    }
    return Ok(());
  }

  lemma MatchableFacts(c: Chart, s: State, doc: MoveId, pay: FxPayment)
    requires FxMatchable(c, s, doc, pay)
    ensures doc < |s.moves| && s.moves[doc].residualCurrency.Some? && s.moves[doc].rate.Some?
    ensures OpenCounterpart(c, s, doc).Some?
  {
  }

  /** Whether a document can take a slice of this payment at all. */
  method TakesForeign(db: Database, pay: FxPayment, doc: MoveId) returns (takes: bool)
    ensures takes <==> FxMatchable(db.chart, db.View(), doc, pay)
  {
    if doc >= |db.moves| || !db.moves[doc].stage.Posted? {
      return false;
    }
    var m := db.moves[doc];
    if m.currency != Some(pay.currency) || m.rate.None? {
      return false;
    }
    if m.residualCurrency.None? || m.residualCurrency.value <= 0 {
      return false;
    }
    var counterpart := OpenOf(db.chart, db.recs, doc, m);
    return counterpart.Some? && counterpart.value.isDebit != pay.isDebit;
  }

  method SettleSlice(db: Database, pay: FxPayment, inbound: bool, matched: int, doc: MoveId) returns (r: Result<()>)
    requires FxMatchable(db.chart, db.View(), doc, pay)
    modifies db`moves, db`recs, db`nextNumber
    ensures Reply(db.View(), r) == FxSlice(db.chart, old(db.View()), pay, inbound, matched, doc)
  {
    hide OpenOf, ToMyr, CurrencyModel.PostRealizedFx, DocumentsModel.RefreshPaymentState;
    MatchableFacts(db.chart, db.View(), doc, pay);
    var m := db.moves[doc];
    var counterpart := OpenOf(db.chart, db.recs, doc, m).value;
    var booked := ToMyr(matched, m.rate.value);
    if booked <= 0 {
      return Err(RowRejected);
    }
    var debit, credit := if counterpart.isDebit then counterpart.line else pay.line, if counterpart.isDebit then pay.line else counterpart.line;
    db.Reconcile(Reconcile(debit, credit, booked, matched));
    var settled := ToMyr(matched, pay.rate);
    var delta := if inbound then settled - booked else -(settled - booked);
    var fx := PostRealizedFx(db, pay.counterpart, m.partner, delta, pay.date);
    if fx.Err? {
      return Err(fx.error);
    }
    Documents.RefreshPaymentState(db, doc);
    return Ok(());
  }

  method RegisterPayment(db: Database, pay: NewPayment) returns (r: Result<MoveId>)
    modifies db`moves, db`recs, db`nextNumber
    ensures Reply(db.View(), r) == SettlementModel.RegisterPayment(db.chart, old(db.View()), pay)
  {
    hide TermsOfPayment, CreateAndPost, Allocate, AllocateFx, OpenOf, PaymentMove, LinesOfPayment;
    var terms := TermsOfPayment(db.chart, pay);
    if terms.Err? {
      return Err(terms.error);
    }
    var posted := Service.CreateAndPost(db, PaymentMove(pay, LinesOfPayment(pay, terms.value)));
    if posted.Err? {
      return posted;
    }
    var id := posted.value;
    var counterpart := if id < |db.moves| then OpenOf(db.chart, db.recs, id, db.moves[id]) else None;
    if counterpart.None? {
      return Err(NoReconcilableLine);
    }
    var line, isDebit := counterpart.value.line, counterpart.value.isDebit;
    if !IsForeign(pay) {
      AllocateCompany(db, line, isDebit, counterpart.value.amount, pay.allocateTo);
    } else {
      var fx := FxPayment(line, isDebit, terms.value.counterpart, pay.currency.value, terms.value.rate, pay.date);
      var spread := AllocateForeign(db, fx, pay.inbound, pay.amount, pay.allocateTo);
      if spread.Err? {
        return Err(spread.error);
      }
    }
    Documents.RefreshPaymentState(db, id);
    return Ok(id);
  }
}
