/** One small set of books on which the promises that do not always hold fail. */
module SampleBooks {
  import opened Wrappers
  import opened Ledger
  import opened Calendar
  import opened ServiceModel
  import opened CurrencyModel
  import opened DocumentsModel
  import opened SettlementModel
  import opened BankingModel
  import opened Pools
  import opened Invariant
  import opened PaymentsKeep
  import opened SettlementsKeep
  import opened FxSettlement
  import opened RoundTrip
  import opened SettlementEffects
  import opened StaleLists
  import opened UndoKeeps
  import opened ForeignPlan
  import opened ForeignReset
  import opened ContraRepeats
  import opened Runs
  import opened Assets
  import opened AssetLife
  import opened SkippedPeriods

  const RECEIVABLE: AccountId := 1
  const PAYABLE: AccountId := 2
  const SALES: AccountId := 3
  const COSTS: AccountId := 4
  const USD: CurrencyId := 1

  /** A bank, the two control accounts, one income and one expense account; the dollar stands at 4.4. */
  function SampleChart(): Chart {
    Chart([Account("1000", AssetBank), Account("1100", AssetReceivable), Account("2000", LiabilityPayable),
           Account("4000", Income), Account("5000", Expense)],
          map["BNK" := Journal(BankJournal, Some(0)), "SAL" := Journal(SaleJournal, None), "GEN" := Journal(GeneralJournal, None)],
          [], map[Receivable := RECEIVABLE, Payable := PAYABLE], map[], map[],
          Some(GainLoss(SALES, COSTS)), None, (currency, date) => Some(44000000000))
  }

  function Document(kind: Kind, number: nat, lines: seq<Line>, total: int, rate: Option<int>): Move {
    Move("SAL", 0, Some(0), Posted, kind, Some(number), Some(0), if rate.Some? then Some(USD) else None, [], lines,
         total, 0, total, rate, total, if rate.Some? then Some(total) else None, NotPaid, None)
  }

  /** Invoice 0 over 100.00, bill 1 over 200.00, and invoice 2 over 100.00 dollars booked at 4.2; nothing is settled. */
  function Books(): State {
    State([Document(CustomerInvoice, 0, [Debit(RECEIVABLE, 10000), Credit(SALES, 10000)], 10000, None),
           Document(VendorBill, 1, [Credit(PAYABLE, 20000), Debit(COSTS, 20000)], 20000, None),
           Document(CustomerInvoice, 2, [SideLine(RECEIVABLE, true, 42000, Some(USD), 10000),
                                         SideLine(SALES, false, 42000, Some(USD), 10000)], 10000, Some(42000000000))],
          [], None, None, [], 3)
  }

  /** A document over two lines, the open one first. */
  lemma DocumentIsOk(id: MoveId, a: Line, b: Line, total: int, rate: Option<int>, kind: Kind)
    requires IsDocument(kind) && total > 0 && RowAccepted(SampleChart(), a) && RowAccepted(SampleChart(), b)
    requires a.account in {RECEIVABLE, PAYABLE} && b.account in {SALES, COSTS} && !a.reconciled
    requires a.debit == b.credit && a.credit == b.debit && LineGross(a) > 0 && (rate.None? ==> LineGross(a) == total)
    ensures RowOk(SampleChart(), [], id, Document(kind, id, [a, b], total, rate), false)
    ensures OpenOf(SampleChart(), [], id, Document(kind, id, [a, b], total, rate)) == Some(OpenLine(LineRef(id, 0), LineGross(a), a.debit != 0))
  {
    var m := Document(kind, id, [a, b], total, rate);
    SumsOfTwo(a, b, {});
    assert m.lines[0] == a && m.lines[1] == b;
    assert Counterpart(SampleChart(), m.lines) == Some(0);
  }

  /** Rows that are sound by themselves, with consecutive numbers, make sound books while nothing is settled. */
  lemma RowsMakeBooks(c: Chart, s: State)
    requires s.recs == [] && s.nextNumber == |s.moves|
    requires forall i :: 0 <= i < |s.moves| ==> RowOk(c, [], i, s.moves[i], false) && s.moves[i].number == Some(i)
    ensures Inv(c, s)
  {
    hide RowOk;
    forall i | 0 <= i < |s.moves| ensures RowOk(c, s.recs, i, s.moves[i], i in {}) {
    }
  }

  lemma SampleIsSound()
    ensures Inv(SampleChart(), Books()) && SampleChart().ControlAccountsOk()
    ensures forall id :: 0 <= id < 3 ==> OpenCounterpart(SampleChart(), Books(), id) ==
                                         Some(OpenLine(LineRef(id, 0), [10000, 20000, 42000][id], id != 1))
  {
    DocumentIsOk(0, Debit(RECEIVABLE, 10000), Credit(SALES, 10000), 10000, None, CustomerInvoice);
    DocumentIsOk(1, Credit(PAYABLE, 20000), Debit(COSTS, 20000), 20000, None, VendorBill);
    DocumentIsOk(2, SideLine(RECEIVABLE, true, 42000, Some(USD), 10000), SideLine(SALES, false, 42000, Some(USD), 10000), 10000,
                 Some(42000000000), CustomerInvoice);
    ControlAccountsAreOk();
    hide RowOk, OpenOf, SampleChart, Document, Debit, Credit, SideLine;
    RowsMakeBooks(SampleChart(), Books());
  }

  lemma ControlAccountsAreOk()
    ensures SampleChart().ControlAccountsOk()
  {
  }

  // ─── An edited invoice posted from the journal-entry page ───────────

  lemma OneLineTotals(line: DocLine)
    requires line.tax.None?
    ensures DocumentTotals(SampleChart(), [line]) == Ok(Totals(Gross(line), 0, Gross(line)))
  {
    var c := SampleChart();
    hide Gross, SampleChart;
    assert [line][..0] == [];
    assert Untaxed(c, []) == 0 && TaxTotal(c, []) == 0;
  }

  /** Invoice 0 taken back, edited to 200.00 and posted as a journal entry: it shows 200.00, and 100.00 is open. */
  lemma EditedInvoiceDrifts()
    ensures var c, s := SampleChart(), Books();
            var calls := RepostRun(0, [DocLine(10000, 2000000, None, None)]);
            var t := After(c, s, calls, 3);
            && Inv(c, s) && AdmissibleRun(c, s, calls) && MyrItem(c, t, 0) && MyrOpen(c, t, 0) == 10000 && t.moves[0].residual == 20000
  {
    var c, s := SampleChart(), Books();
    var line := DocLine(10000, 2000000, None, None);
    SampleIsSound();
    OneLineTotals(line);
    InvoiceIsOpen();
    hide Inv, After, AdmissibleRun, RepostRun, MyrItem, MyrOpen, DocumentTotals, SampleChart, Books;
    RepostedInvoiceDrifts(c, s, 0, [line]);
  }

  lemma InvoiceIsOpen()
    ensures MyrItem(SampleChart(), Books(), 0) && MyrOpen(SampleChart(), Books(), 0) == 10000
    ensures ResetToDraft(SampleChart(), Books(), 0).result.Ok?
  {
  }

  // ─── Payments ───────────────────────────────────────────────────────

  function Receipt(currency: Option<CurrencyId>, amount: int, invoice: MoveId): NewPayment {
    NewPayment(0, true, "BNK", currency, amount, 1, [invoice])
  }

  function ReceiptRate(currency: Option<CurrencyId>): int {
    if currency == Some(USD) then 44000000000 else ONE
  }

  /** A receipt over `amount` posts its entry, wherever day 1 is open. */
  lemma ReceiptPosts(s: State, currency: Option<CurrencyId>, amount: int, invoice: MoveId)
    requires currency in {None, Some(USD)} && amount > 0 && ToMyr(amount, ReceiptRate(currency)) > 0 && !Frozen(s, 1)
    ensures var c, pay := SampleChart(), Receipt(currency, amount, invoice);
            && TermsOfPayment(c, pay) == Ok(PaymentTerms(0, RECEIVABLE, ReceiptRate(currency))) && !PaymentSide(c, pay)
            && PostedPayment(c, s, pay)
            && OpenCounterpart(c, PostPayment(c, s, pay).db, |s.moves|).Some?
  {
    var c, pay := SampleChart(), Receipt(currency, amount, invoice);
    var terms := PaymentTerms(0, RECEIVABLE, ReceiptRate(currency));
    var lines := LinesOfPayment(pay, terms);
    ReceiptLines(currency, amount, invoice);
    PaymentLinesShape(c, pay, terms);
    CreateAndPostEffect(c, s, PaymentMove(pay, lines), lines);
    hide Frozen, ToMyr, CreateAndPost, Balanced, SampleChart, TermsOfPayment, LinesOfPayment, RowsAccepted;
  }

  lemma ReceiptLines(currency: Option<CurrencyId>, amount: int, invoice: MoveId)
    requires currency in {None, Some(USD)} && amount > 0 && ToMyr(amount, ReceiptRate(currency)) > 0
    ensures var c, pay := SampleChart(), Receipt(currency, amount, invoice);
            var terms := PaymentTerms(0, RECEIVABLE, ReceiptRate(currency));
            && TermsOfPayment(c, pay) == Ok(terms) && pay.journal in c.journals
            && var lines := LinesOfPayment(pay, terms);
               RowsAccepted(c, lines) && Counterpart(c, lines) == Some(1) && lines[1].debit == 0
  {
    hide ToMyr;
  }

  lemma ReceiptIsRegistered(s: State, amount: int, invoice: MoveId)
    requires amount > 0 && !Frozen(s, 1)
    ensures RegisterPayment(SampleChart(), s, Receipt(None, amount, invoice)).result.Ok?
  {
    CompanyCurrencyIsExact(amount);
    ReceiptPosts(s, None, amount, invoice);
    hide PostPayment, Allocate, SampleChart, OpenCounterpart, TermsOfPayment, Frozen;
  }

  /** Invoice 0 reversed as a journal entry, then paid, then the payment reset: it has lost its reversed flag. */
  lemma ReversedFlagIsLost()
    ensures var c, s := SampleChart(), Books();
            var reversed := ReverseMove(c, s, 0, 1).db;
            var u := ResetPaymentToDraft(c, RegisterPayment(c, reversed, Receipt(None, 10000, 0)).db, |reversed.moves|).db;
            && |u.moves| > |reversed.moves| > 0 && u.recs == reversed.recs
            && reversed.moves[0].paymentState.Reversed? && !u.moves[0].paymentState.Reversed?
            && u.moves[0].residual == 10000 == reversed.moves[0].residual
  {
    var c, s := SampleChart(), Books();
    SampleIsSound();
    ReceiptPosts(s, None, 10000, 0);
    InvoiceReverses();
    ReceiptIsRegistered(ReverseMove(c, s, 0, 1).db, 10000, 0);
    hide Inv, ReverseMove, RegisterPayment, ResetPaymentToDraft, OpenCounterpart, TermsOfPayment, PaymentSide, SampleChart;
    ReversedInvoiceLosesItsFlag(c, s, 0, 1, Receipt(None, 10000, 0));
  }

  /** Invoice 0 taken back to draft, its draft row. */
  function DraftBooks(): State {
    ResetToDraft(SampleChart(), Books(), 0).db
  }

  lemma InvoiceIsTakenBack()
    ensures Inv(SampleChart(), DraftBooks()) && DraftBooks().lock == None && DraftBooks().years == []
    ensures |DraftBooks().moves| == 3 && DraftBooks().moves[0] == Books().moves[0].(stage := Draft, paymentState := NotPaid, residual := 0)
    ensures OpenAmount(SampleChart(), DraftBooks(), 0) == 10000 && Matchable(SampleChart(), DraftBooks(), 0, false)
  {
    SampleIsSound();
    ResetToDraftKeeps(SampleChart(), Books(), 0);
    hide InvExcept;
    assert OpenCounterpart(SampleChart(), DraftBooks(), 0) == OpenCounterpart(SampleChart(), Books(), 0);
  }

  /** Invoice 0 taken back to draft, paid from a page that still lists it, and posted again: it shows 100.00, and nothing is open. */
  lemma PaidDraftDrifts()
    ensures var c, s := SampleChart(), DraftBooks();
            var t := RegisterPayment(c, s, Receipt(None, 10000, 0)).db;
            var u := PostMove(t, 0).db;
            && Inv(c, s) && !Inv(c, t) && |u.moves| > 0 && u.moves[0].stage.Posted?
            && u.moves[0].residual == 10000 && OpenAmount(c, u, 0) == 0
  {
    var c, s, pay := SampleChart(), DraftBooks(), Receipt(None, 10000, 0);
    InvoiceIsTakenBack();
    CompanyCurrencyIsExact(10000);
    ReceiptPosts(s, None, 10000, 0);
    ReceiptIsRegistered(s, 10000, 0);
    FirstIsReached(c, s, pay, 0);
    hide Inv, RegisterPayment, TermsOfPayment, PaymentSide, Matchable, PostedPayment, ReachedBy, SampleChart, Books, DraftBooks, PostPayment;
    RegistrationIsSoundWhen(c, s, pay);
    OnePaidDocument(c, s, pay, 0);
    PaidDraftReposts(c, s, RegisterPayment(c, s, pay).db);
  }

  /** Posting the paid draft shows its whole total. */
  lemma PaidDraftReposts(c: Chart, s: State, t: State)
    requires |s.moves| > 0 && |t.moves| > 0 && SameEntry(s.moves[0], t.moves[0]) && t.lock == None && t.years == []
    requires s.moves[0] == Books().moves[0].(stage := Draft, paymentState := NotPaid, residual := 0)
    ensures var u := PostMove(t, 0).db;
            && |u.moves| > 0 && u.moves[0].stage.Posted? && u.moves[0].residual == 10000 && OpenAmount(c, u, 0) == OpenAmount(c, t, 0)
  {
    SumsOfTwo(s.moves[0].lines[0], s.moves[0].lines[1], {});
    assert s.moves[0].lines == [s.moves[0].lines[0], s.moves[0].lines[1]];
    SameLinesFacts(c, s.moves[0].lines, t.moves[0].lines);
    DraftReposts(t, 0);
    hide PostMove, Balanced;
  }

  lemma InvoiceReverses()
    ensures var r := ReverseMove(SampleChart(), Books(), 0, 1);
            && r.result.Ok? && !Frozen(r.db, 1) && r.db.taxLock == None && Company(Books().moves[0])
            && |r.db.moves| == 4 && r.db.moves[0].residual == 10000
  {
    var c, s := SampleChart(), Books();
    SampleIsSound();
    PostedIsBalanced(c, s, {}, 0);
    ReverseMoveEffect(c, s, 0, 1);
    hide InvExcept, Balanced, ReverseMove;
  }

  lemma DollarReceiptIsRegistered()
    ensures RegisterPayment(SampleChart(), Books(), Receipt(Some(USD), 10000, 2)).result.Ok?
  {
    var c, s, pay := SampleChart(), Books(), Receipt(Some(USD), 10000, 2);
    TwoRates();
    SampleIsSound();
    ReceiptPosts(s, Some(USD), 10000, 2);
    var p := PostPayment(c, s, pay).db;
    var o := OpenCounterpart(c, p, 3).value;
    var fx := FxPayment(o.line, o.isDebit, RECEIVABLE, USD, 44000000000, 1);
    SliceIsTaken(p, fx);
    hide PostPayment, OpenCounterpart, FxSlice, FxMatchable, TermsOfPayment;
    assert [2][1..] == [];
  }

  lemma SliceIsTaken(p: State, fx: FxPayment)
    requires |p.moves| == 4 && p.moves[2] == Books().moves[2] && p.recs == [] && !Frozen(p, 1)
    requires !fx.isDebit && fx.counterpart == RECEIVABLE && fx.currency == USD && fx.rate == 44000000000 && fx.date == 1
    ensures FxMatchable(SampleChart(), p, 2, fx) && p.moves[2].residualCurrency == Some(10000)
    ensures FxSlice(SampleChart(), p, fx, true, 10000, 2).result.Ok?
  {
    var c := SampleChart();
    TwoRates();
    SampleIsSound();
    assert OpenCounterpart(c, p, 2) == OpenCounterpart(c, Books(), 2);
    var s1 := AddRec(p, Pair(LineRef(2, 0), true, fx.line, 42000, 10000));
    DifferencePosts(s1, p.moves[2].partner);
    hide OpenCounterpart, PostRealizedFx, ToMyr, Inv;
  }

  lemma DifferencePosts(s: State, partner: Option<PartnerId>)
    requires !Frozen(s, 1)
    ensures PostRealizedFx(SampleChart(), s, RECEIVABLE, partner, 2000, 1).result.Ok?
  {
    var accounts := GainLoss(SALES, COSTS);
    var lines := RealizedFxLines(accounts, RECEIVABLE, 2000);
    RealizedFxIsBalanced(accounts, RECEIVABLE, 2000);
    CreateAndPostEffect(SampleChart(), s, RealizedFxMove(accounts, RECEIVABLE, partner, 2000, 1), lines);
    hide Balanced, CreateAndPost, Frozen;
    assert RowsAccepted(SampleChart(), lines);
  }

  /** Invoice 2 paid in full at 4.4, then the payment reset: the receivable is 20.00 above what it was. */
  lemma DifferenceStays()
    ensures var c, s := SampleChart(), Books();
            var u := ResetPaymentToDraft(c, RegisterPayment(c, s, Receipt(Some(USD), 10000, 2)).db, 3).db;
            Balance(u.moves, {RECEIVABLE}, Window(None, None)) == Balance(s.moves, {RECEIVABLE}, Window(None, None)) + 2000
  {
    var c, s, pay := SampleChart(), Books(), Receipt(Some(USD), 10000, 2);
    TwoRates();
    SampleIsSound();
    ReceiptPosts(s, Some(USD), 10000, 2);
    DollarReceiptIsRegistered();
    assert PaymentAccountsApart(c, pay);
    assert Takes(c, s, 2, false, USD, map[]);
    hide Inv, RegisterPayment, ResetPaymentToDraft, OpenCounterpart, TermsOfPayment, PaymentSide, Balance, PostedPayment, Takes, SampleChart;
    PaidAtAnotherRate(c, s, pay, 2, Window(None, None));
  }

  // ─── A contra with a repeated invoice ───────────────────────────────

  /** Invoice 0 named twice against bill 1: its line over 100.00 is settled for 200.00. */
  lemma InvoiceIsTakenTwice()
    ensures var c, s := SampleChart(), Books();
            Contra(c, s, 0, [0, 0], [1], 1).result.Ok? && Settled(Contra(c, s, 0, [0, 0], [1], 1).db.recs, LineRef(0, 0)) > 10000
  {
    var c, s := SampleChart(), Books();
    SampleIsSound();
    var x, y := Leg(0, Slot(LineRef(0, 0), 10000), true), Leg(1, Slot(LineRef(1, 0), 20000), false);
    BothArePosted();
    ControlAccounts();
    ContraEntryPosts(s);
    hide Inv, Contra, OpenCounterpart, CreateAndPost, SampleChart, Books, OpenLegs, NamesPosted, Frozen;
    LegsOfTwice(c, s, 0, x);
    LegsOfOne(c, s, 1, y);
    ContraInSteps(c, s, 0, [0, 0], [1], 1);
    RepeatedInvoiceIsOverSettled(c, s, 0, 0, 1, 1);
  }

  lemma BothArePosted()
    ensures |Books().moves| == 3 && !Frozen(Books(), 1) && LineGross(LineAt(Books(), LineRef(0, 0))) == 10000
    ensures NamesPosted(Books(), [0, 0]) && NamesPosted(Books(), [1])
  {
  }

  lemma ControlAccounts()
    ensures SampleChart().PartnerAccount(Some(0), Receivable) == Some(RECEIVABLE)
    ensures SampleChart().PartnerAccount(Some(0), Payable) == Some(PAYABLE)
  {
  }

  lemma ContraEntryPosts(s: State)
    requires !Frozen(s, 1)
    ensures CreateAndPost(SampleChart(), s, ContraMove(0, 1, PAYABLE, RECEIVABLE, 20000)).result.Ok?
  {
    var lines := ContraLines(PAYABLE, RECEIVABLE, 20000);
    SumsOfTwo(lines[0], lines[1], {});
    assert lines == [lines[0], lines[1]];
    CreateAndPostEffect(SampleChart(), s, ContraMove(0, 1, PAYABLE, RECEIVABLE, 20000), lines);
    hide CreateAndPost, Frozen;
    assert RowsAccepted(SampleChart(), lines);
  }

  // ─── A depreciation period behind the lock ──────────────────────────

  /** An asset of 200.00 over two months from January 2024. */
  function Machine(): Asset {
    Asset(20000, 0, 2, Day(2024, 1, 1), AssetAccounts(0, 0, COSTS), DraftAsset, [], None)
  }

  /** With January locked and the job run at the end of February, January is never depreciated. */
  lemma JanuaryIsLost()
    ensures ConfirmAsset(Machine()).Ok? && |ConfirmAsset(Machine()).value.plan| == 2
    ensures var plan := ConfirmAsset(Machine()).value.plan;
            var locked := Books().(lock := Some(Number(plan[0].date)));
            var t := PostDue(SampleChart(), Holding.Holding(locked, ConfirmAsset(Machine()).value), Number(plan[1].date));
            t.asset.state.FullyDepreciated? && Accumulated(t.asset.plan) < 20000 && |t.asset.plan| == 2 && NeverPosted(SampleChart(), t, 0)
  {
    hide Number, PostDue, NeverPosted, EndOfMonth, MonthIndex, Books;
    var plan := ConfirmAsset(Machine()).value.plan;
    BooksHaveNoYears();
    LockedFirstMonthIsLost(SampleChart(), Books().(lock := Some(Number(plan[0].date))), Machine(), Number(plan[1].date));
  }

  lemma BooksHaveNoYears()
    ensures Books().years == []
  {
  }
}
