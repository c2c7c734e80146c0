/** Payments, settlements and their undo paths (`documents.rs`), as functions on the tables. */
module SettlementModel {
  import opened Wrappers
  import opened Ledger
  import opened ServiceModel
  import opened CurrencyModel
  import opened DocumentsModel
  import opened Pools

  function AddRec(s: State, r: Reconcile): State {
    s.(recs := s.recs + [r])
  }

  function Pair(docLine: LineRef, docIsDebit: bool, otherLine: LineRef, amount: int, currency: int): Reconcile {
    if docIsDebit then Reconcile(docLine, otherLine, amount, currency) else Reconcile(otherLine, docLine, amount, currency)
  }

  // ─── register_payment ───────────────────────────────────────────────

  datatype NewPayment = NewPayment(
    partner: PartnerId, inbound: bool, journal: string, currency: Option<CurrencyId>,
    amount: int, date: Date, allocateTo: seq<MoveId>)

  function LiquidityAccount(c: Chart, journal: Journal): Option<AccountId> {
    if journal.account.Some? then journal.account
    else c.FirstOfKind(if journal.kind.BankJournal? then AssetBank else AssetCash)
  }

  /** Inbound: debit the bank, credit the receivable. Outbound: debit the payable, credit the bank. */
  function PaymentLines(inbound: bool, liquidity: AccountId, counterpart: AccountId, myr: int,
                        currency: Option<CurrencyId>, amount: int): seq<Line>
  {
    if inbound then [SideLine(liquidity, true, myr, currency, amount), SideLine(counterpart, false, myr, currency, amount)]
    else [SideLine(counterpart, true, myr, currency, amount), SideLine(liquidity, false, myr, currency, amount)]
  }

  function PaymentMove(pay: NewPayment, lines: seq<Line>): NewMove {
    NewMove(pay.journal, pay.date, Payment, Some(pay.partner), FromSen(lines))
  }

  predicate IsForeign(pay: NewPayment) {
    pay.currency.Some? && pay.currency.value != MYR
  }

  function ForeignOf(pay: NewPayment): Option<CurrencyId> {
    if IsForeign(pay) then pay.currency else None
  }

  /** The accounts and the rate a payment posts with, or why it cannot. */
  datatype PaymentTerms = PaymentTerms(liquidity: AccountId, counterpart: AccountId, rate: int)

  function TermsOfPayment(c: Chart, pay: NewPayment): Result<PaymentTerms> {
    if pay.amount <= 0 then Err(AmountNotPositive)
    else if pay.journal !in c.journals then Err(UnknownJournal)
    else if !c.journals[pay.journal].kind.BankJournal? && !c.journals[pay.journal].kind.CashJournal? then Err(WrongJournal)
    else
      var liquidity := LiquidityAccount(c, c.journals[pay.journal]);
      var counterpart := c.PartnerAccount(Some(pay.partner), if pay.inbound then Receivable else Payable);
      var rate := if IsForeign(pay) then RateOn(c, pay.currency.value, pay.date) else Some(ONE);
      if liquidity.None? || counterpart.None? then Err(NoAccount)
      else if rate.None? then Err(NoRate)
      else Ok(PaymentTerms(liquidity.value, counterpart.value, rate.value))
  }

  function LinesOfPayment(pay: NewPayment, t: PaymentTerms): seq<Line> {
    PaymentLines(pay.inbound, t.liquidity, t.counterpart, ToMyr(pay.amount, t.rate), ForeignOf(pay), pay.amount)
  }

  function PostPayment(c: Chart, s: State, pay: NewPayment): Reply<MoveId> {
    match TermsOfPayment(c, pay)
    case Err(e) => Reply(s, Err(e))
    case Ok(t) => CreateAndPost(c, s, PaymentMove(pay, LinesOfPayment(pay, t)))
  }

  /** Can a company-currency payment line be matched with this document at all? */
  predicate Matchable(c: Chart, s: State, doc: MoveId, payIsDebit: bool) {
    var o := OpenCounterpart(c, s, doc);
    o.Some? && o.value.amount > 0 && o.value.isDebit != payIsDebit && s.moves[doc].rate.None?
  }

  /** One document's turn: match what both lines still have, then recompute the document. */
  function AllocateOne(c: Chart, s: State, pay: LineRef, matched: int, doc: MoveId): State {
    match OpenCounterpart(c, s, doc)
    case None => s
    case Some(o) => RefreshPaymentState(c, AddRec(s, Pair(o.line, o.isDebit, pay, matched, 0)), doc)
  }

  /** Company-currency allocation, document by document in list order. */
  function Allocate(c: Chart, s: State, pay: LineRef, payIsDebit: bool, left: int, docs: seq<MoveId>): State
    decreases |docs|
  {
    if docs == [] || left <= 0 then s
    else if !Matchable(c, s, docs[0], payIsDebit) then Allocate(c, s, pay, payIsDebit, left, docs[1..])
    else
      var matched := Min(left, OpenCounterpart(c, s, docs[0]).value.amount);
      Allocate(c, AllocateOne(c, s, pay, matched, docs[0]), pay, payIsDebit, left - matched, docs[1..])
  }

  /** The payment side of a foreign-currency allocation. */
  datatype FxPayment = FxPayment(line: LineRef, isDebit: bool, counterpart: AccountId, currency: CurrencyId, rate: int, date: Date)

  predicate FxMatchable(c: Chart, s: State, doc: MoveId, pay: FxPayment) {
    && doc < |s.moves| && s.moves[doc].stage.Posted?
    && s.moves[doc].currency == Some(pay.currency) && s.moves[doc].rate.Some?
    && s.moves[doc].residualCurrency.Some? && s.moves[doc].residualCurrency.value > 0
    && OpenCounterpart(c, s, doc).Some? && OpenCounterpart(c, s, doc).value.isDebit != pay.isDebit
  }

  /** The difference to post for a slice: inbound squares the receivable, outbound the payable. */
  function SliceDelta(amount: int, payRate: int, docRate: int, inbound: bool): int {
    var raw := ToMyr(amount, payRate) - ToMyr(amount, docRate);
    if inbound then raw else -raw
  }

  /** One document's turn: a reconciliation at the booked rate, the realised difference, a refresh. */
  function FxSlice(c: Chart, s: State, pay: FxPayment, inbound: bool, matched: int, doc: MoveId): Reply<()>
    requires FxMatchable(c, s, doc, pay)
  {
    var o := OpenCounterpart(c, s, doc).value;
    var rate := s.moves[doc].rate.value;
    if ToMyr(matched, rate) <= 0 then Reply(s, Err(RowRejected))
    else
      var s1 := AddRec(s, Pair(o.line, o.isDebit, pay.line, ToMyr(matched, rate), matched));
      var fx := PostRealizedFx(c, s1, pay.counterpart, s.moves[doc].partner,
                               SliceDelta(matched, pay.rate, rate, inbound), pay.date);
      if fx.result.Err? then Reply(fx.db, Err(fx.result.error))
      else Reply(RefreshPaymentState(c, fx.db, doc), Ok(()))
  }

  /** Foreign-currency allocation: matches in document currency and posts the realised difference. */
  function AllocateFx(c: Chart, s: State, pay: FxPayment, inbound: bool, left: int, docs: seq<MoveId>): Reply<()>
    decreases |docs|
  {
    if docs == [] || left <= 0 then Reply(s, Ok(()))
    else if !FxMatchable(c, s, docs[0], pay) then AllocateFx(c, s, pay, inbound, left, docs[1..])
    else
      var matched := Min(left, s.moves[docs[0]].residualCurrency.value);
      var slice := FxSlice(c, s, pay, inbound, matched, docs[0]);
      if slice.result.Err? then slice
      else AllocateFx(c, slice.db, pay, inbound, left - matched, docs[1..])
  }

  function RegisterPayment(c: Chart, s: State, pay: NewPayment): Reply<MoveId> {
    var posted := PostPayment(c, s, pay);
    if posted.result.Err? then posted
    else
      var id := posted.result.value;
      var o := OpenCounterpart(c, posted.db, id);
      if o.None? then Reply(posted.db, Err(NoReconcilableLine))
      else if !IsForeign(pay) then
        var s1 := Allocate(c, posted.db, o.value.line, o.value.isDebit, o.value.amount, pay.allocateTo);
        Reply(RefreshPaymentState(c, s1, id), Ok(id))
      else
        var t := TermsOfPayment(c, pay).value;
        var fx := FxPayment(o.value.line, o.value.isDebit, t.counterpart, pay.currency.value, t.rate, pay.date);
        var r := AllocateFx(c, posted.db, fx, pay.inbound, pay.amount, pay.allocateTo);
        if r.result.Err? then Reply(r.db, Err(r.result.error))
        else Reply(RefreshPaymentState(c, r.db, id), Ok(id))
  }

  // ─── Pools of open lines ────────────────────────────────────────────

  datatype Allocation = Allocation(doc: MoveId, amount: int)

  datatype Leg = Leg(doc: MoveId, slot: Slot, isDebit: bool)

  /** Each requested document's open line with the requested amount clamped to what is open. */
  function Legs(c: Chart, s: State, allocations: seq<Allocation>): Result<seq<Leg>> {
    if allocations == [] then Ok([])
    else
      var earlier := Legs(c, s, allocations[..|allocations| - 1]);
      var a := allocations[|allocations| - 1];
      if earlier.Err? || a.amount <= 0 then earlier
      else if a.doc >= |s.moves| then Err(NotFound)
      else if s.moves[a.doc].rate.Some? then Err(ForeignCurrency)
      else
        match OpenCounterpart(c, s, a.doc)
        case None => earlier
        case Some(o) =>
          if o.amount <= 0 then earlier
          else Ok(earlier.value + [Leg(a.doc, Slot(o.line, Min(a.amount, o.amount)), o.isDebit)])
  }

  /** The slots on one GL side, in list order. */
  function Side(legs: seq<Leg>, isDebit: bool): seq<Slot> {
    if legs == [] then []
    else
      var earlier := Side(legs[..|legs| - 1], isDebit);
      var l := legs[|legs| - 1];
      if l.isDebit == isDebit then earlier + [l.slot] else earlier
  }

  function DocsOf(legs: seq<Leg>): (r: seq<MoveId>)
    ensures |r| == |legs| && forall i :: 0 <= i < |legs| ==> r[i] == legs[i].doc
  {
    seq(|legs|, i requires 0 <= i < |legs| => legs[i].doc)
  }

  function SlotsOf(legs: seq<Leg>): (r: seq<Slot>)
    ensures |r| == |legs| && forall i :: 0 <= i < |legs| ==> r[i] == legs[i].slot
  {
    seq(|legs|, i requires 0 <= i < |legs| => legs[i].slot)
  }

  /** Reconciles the debit legs with the credit legs, then recomputes the rows of `docs`. */
  function Settle(c: Chart, s: State, legs: seq<Leg>, docs: seq<MoveId>): State {
    RefreshAll(c, s.(recs := s.recs + Matching(Side(legs, true), Side(legs, false))), docs)
  }

  /** Cash posted as one payment without allocations. */
  function Cash(partner: PartnerId, inbound: bool, journal: string, date: Date, amount: int): NewPayment {
    NewPayment(partner, inbound, journal, None, amount, date, [])
  }

  datatype Header = Header(partner: PartnerId, inbound: bool, journal: string, date: Date)

  function CashOf(h: Header, amount: int): NewPayment {
    Cash(h.partner, h.inbound, h.journal, h.date, amount)
  }

  // ─── settle_documents ───────────────────────────────────────────────

  /** The open counterpart line of an entry just posted, offering `amount`. */
  function LegOf(c: Chart, s: State, id: MoveId, amount: Option<int>): Option<Leg> {
    match OpenCounterpart(c, s, id)
    case None => None
    case Some(o) => Some(Leg(id, Slot(o.line, if amount.Some? then amount.value else o.amount), o.isDebit))
  }

  /** The net cash joins the legs and balances the two sides. */
  function SettleWithCash(c: Chart, s: State, h: Header, legs: seq<Leg>, net: int): Reply<Option<MoveId>> {
    var paid := RegisterPayment(c, s, CashOf(h, net));
    if paid.result.Err? then Reply(paid.db, Err(paid.result.error))
    else
      match LegOf(c, paid.db, paid.result.value, Some(net))
      case None => Reply(paid.db, Err(NoReconcilableLine))
      case Some(cash) => Reply(Settle(c, paid.db, legs + [cash], DocsOf(legs + [cash])), Ok(Some(cash.doc)))
  }

  function SettleLegs(c: Chart, s: State, h: Header, legs: seq<Leg>): Reply<Option<MoveId>> {
    var targets, offsets := Total(Side(legs, h.inbound)), Total(Side(legs, !h.inbound));
    if legs == [] then Reply(s, Err(NothingToSettle))
    else if targets <= 0 then Reply(s, Err(NoTarget))
    else if targets < offsets then Reply(s, Err(CreditsExceedTargets))
    else if targets == offsets then Reply(Settle(c, s, legs, DocsOf(legs)), Ok(None))
    else SettleWithCash(c, s, h, legs, targets - offsets)
  }

  function SettleDocuments(c: Chart, s: State, h: Header, allocations: seq<Allocation>): Reply<Option<MoveId>> {
    match Legs(c, s, allocations)
    case Err(e) => Reply(s, Err(e))
    case Ok(legs) => SettleLegs(c, s, h, legs)
  }

  // ─── apply_payment ──────────────────────────────────────────────────

  /** Oldest first; documents of one day in the order of their ids. */
  predicate Earlier(s: State, a: Leg, b: Leg) {
    a.doc < |s.moves| && b.doc < |s.moves| &&
    (s.moves[a.doc].date < s.moves[b.doc].date || (s.moves[a.doc].date == s.moves[b.doc].date && a.doc <= b.doc))
  }

  function InsertByDate(s: State, sorted: seq<Leg>, l: Leg): seq<Leg> {
    if sorted == [] || Earlier(s, sorted[|sorted| - 1], l) then sorted + [l]
    else InsertByDate(s, sorted[..|sorted| - 1], l) + [sorted[|sorted| - 1]]
  }

  function SortByDate(s: State, legs: seq<Leg>): seq<Leg> {
    if legs == [] then [] else InsertByDate(s, SortByDate(s, legs[..|legs| - 1]), legs[|legs| - 1])
  }

  /** Picked documents with their whole open amount; unknown ids are skipped. */
  function Picked(c: Chart, s: State, picked: seq<MoveId>): Result<seq<Leg>> {
    if picked == [] then Ok([])
    else
      var earlier := Picked(c, s, picked[..|picked| - 1]);
      var id := picked[|picked| - 1];
      if earlier.Err? || id >= |s.moves| then earlier
      else if s.moves[id].rate.Some? then Err(ForeignCurrency)
      else
        match OpenCounterpart(c, s, id)
        case None => earlier
        case Some(o) =>
          if o.amount <= 0 then earlier else Ok(earlier.value + [Leg(id, Slot(o.line, o.amount), o.isDebit)])
  }

  /** The legs on one GL side, in list order. */
  function Facing(legs: seq<Leg>, isDebit: bool): seq<Leg> {
    if legs == [] then []
    else
      var earlier := Facing(legs[..|legs| - 1], isDebit);
      if legs[|legs| - 1].isDebit == isDebit then earlier + [legs[|legs| - 1]] else earlier
  }

  /** The cash, if any, as one payment: its open counterpart line. */
  function PostCash(c: Chart, s: State, h: Header, amount: int): Reply<seq<Leg>> {
    if amount <= 0 then Reply(s, Ok([]))
    else
      var paid := RegisterPayment(c, s, CashOf(h, amount));
      if paid.result.Err? then Reply(paid.db, Err(paid.result.error))
      else
        match LegOf(c, paid.db, paid.result.value, None)
        case None => Reply(paid.db, Err(NoReconcilableLine))
        case Some(leg) => Reply(paid.db, Ok([leg]))
  }

  function PaymentOf(cash: seq<Leg>): Option<MoveId> {
    if cash == [] then None else Some(cash[0].doc)
  }

  /** Targets oldest first, then the credits oldest first, then the cash. */
  function ApplyLegs(c: Chart, s: State, h: Header, amount: int, targets: seq<Leg>, offsets: seq<Leg>): Reply<Option<MoveId>> {
    if amount <= 0 && offsets == [] then Reply(s, Err(NothingReceived))
    else
      var cash := PostCash(c, s, h, amount);
      if cash.result.Err? then Reply(cash.db, Err(cash.result.error))
      else
        var all := targets + offsets + cash.result.value;
        Reply(Settle(c, cash.db, all, DocsOf(all)), Ok(PaymentOf(cash.result.value)))
  }

  function ApplyPayment(c: Chart, s: State, h: Header, amount: int, picked: seq<MoveId>): Reply<Option<MoveId>> {
    match Picked(c, s, picked)
    case Err(e) => Reply(s, Err(e))
    case Ok(legs) =>
      ApplyLegs(c, s, h, amount, SortByDate(s, Facing(legs, h.inbound)), SortByDate(s, Facing(legs, !h.inbound)))
  }

  // ─── post_settlement ────────────────────────────────────────────────

  datatype WriteOff = WriteOff(account: AccountId, amount: int)

  function WriteOffLines(inbound: bool, account: AccountId, counterpart: AccountId, amount: int): seq<Line> {
    if inbound then [Debit(account, amount), Credit(counterpart, amount)]
    else [Debit(counterpart, amount), Credit(account, amount)]
  }

  function WriteOffMove(h: Header, w: WriteOff, counterpart: AccountId): NewMove {
    NewMove("GEN", h.date, Entry, Some(h.partner), FromSen(WriteOffLines(h.inbound, w.account, counterpart, w.amount)))
  }

  /** The difference entry, if any: its open counterpart line. */
  function PostWriteOff(c: Chart, s: State, h: Header, w: Option<WriteOff>, counterpart: AccountId): Reply<seq<Leg>> {
    if w.None? || w.value.amount <= 0 then Reply(s, Ok([]))
    else
      var posted := CreateAndPost(c, s, WriteOffMove(h, w.value, counterpart));
      if posted.result.Err? then Reply(posted.db, Err(posted.result.error))
      else
        match LegOf(c, posted.db, posted.result.value, None)
        case None => Reply(posted.db, Err(NoReconcilableLine))
        case Some(leg) => Reply(posted.db, Ok([leg]))
  }

  /** Targets on their own side first, then the credits, the write-off and last the cash that fund them. */
  function SettleWithFunds(c: Chart, s: State, h: Header, amount: int, legs: seq<Leg>, w: Option<WriteOff>, counterpart: AccountId)
    : Reply<Option<MoveId>>
  {
    var written := PostWriteOff(c, s, h, w, counterpart);
    if written.result.Err? then Reply(written.db, Err(written.result.error))
    else
      var cash := PostCash(c, written.db, h, amount);
      if cash.result.Err? then Reply(cash.db, Err(cash.result.error))
      else
        var all := Facing(legs, h.inbound) + Facing(legs, !h.inbound) + written.result.value + cash.result.value;
        Reply(Settle(c, cash.db, all, DocsOf(legs) + DocsOf(cash.result.value)), Ok(PaymentOf(cash.result.value)))
  }

  function PostSettlement(c: Chart, s: State, h: Header, amount: int, allocations: seq<Allocation>, w: Option<WriteOff>)
    : Reply<Option<MoveId>>
  {
    match Legs(c, s, allocations)
    case Err(e) => Reply(s, Err(e))
    case Ok(legs) =>
      var counterpart := c.PartnerAccount(Some(h.partner), if h.inbound then Receivable else Payable);
      if legs == [] && amount <= 0 then Reply(s, Err(NothingReceived))
      else if counterpart.None? then Reply(s, Err(NoAccount))
      else SettleWithFunds(c, s, h, amount, legs, w, counterpart.value)
  }

  // ─── Undoing ────────────────────────────────────────────────────────

  predicate Touches(r: Reconcile, id: MoveId) {
    r.debit.move == id || r.credit.move == id
  }

  predicate HasRecs(recs: seq<Reconcile>, id: MoveId) {
    exists i :: 0 <= i < |recs| && Touches(recs[i], id)
  }

  /** First line of a move on a given account. */
  function LineOn(lines: seq<Line>, account: AccountId, from: nat := 0): (r: Option<nat>)
    requires from <= |lines|
    ensures r.Some? ==> from <= r.value < |lines| && lines[r.value].account == account
    ensures r.Some? ==> forall i :: from <= i < r.value ==> lines[i].account != account
    ensures r.None? ==> forall i :: from <= i < |lines| ==> lines[i].account != account
    decreases |lines| - from
  {
    if from == |lines| then None
    else if lines[from].account == account then Some(from)
    else LineOn(lines, account, from + 1)
  }

  /** Reconciles a reversed document with its counter-entry and leaves nothing outstanding on it. */
  function CloseAgainst(t: State, id: MoveId, o: OpenLine, mirror: LineRef): State
    requires id < |t.moves|
  {
    var s1 := AddRec(t, Pair(o.line, o.isDebit, mirror, o.amount, 0));
    var closed := t.moves[id].(paymentState := Reversed, residual := 0,
                               residualCurrency := if t.moves[id].rate.None? then None else Some(0));
    s1.(moves := s1.moves[id := closed])
  }

  function CancelDocument(c: Chart, s: State, id: MoveId, date: Date): Reply<MoveId> {
    if id >= |s.moves| then Reply(s, Err(NotFound))
    else
      var m := s.moves[id];
      if !m.stage.Posted? then Reply(s, Err(NotPosted))
      else if !IsDocument(m.kind) then Reply(s, Err(NotADocument))
      else if m.paymentState.Reversed? then Reply(s, Err(AlreadyReversed))
      else if !m.paymentState.NotPaid? then Reply(s, Err(HasPayments))
      else
        match OpenCounterpart(c, s, id)
        case None => Reply(s, Err(NoReconcilableLine))
        case Some(o) =>
          var reversed := ReverseMove(c, s, id, date);
          if reversed.result.Err? || reversed.result.value >= |reversed.db.moves| || o.line.index >= |m.lines| then reversed
          else
            var rid := reversed.result.value;
            match LineOn(reversed.db.moves[rid].lines, m.lines[o.line.index].account)
            case None => Reply(reversed.db, Err(NotFound))
            case Some(k) =>
              if o.amount <= 0 || id >= |reversed.db.moves| then Reply(reversed.db, Err(RowRejected))
              else Reply(CloseAgainst(reversed.db, id, o, LineRef(rid, k)), Ok(rid))
  }

  /** Why a dated row may not be taken off the books, if so. */
  function ResetBar(s: State, d: Date): Option<Error> {
    if Locked(s, d) then Some(PeriodLocked)
    else if s.taxLock.Some? && d <= s.taxLock.value then Some(TaxLocked)
    else if InClosedYear(s, d) then Some(YearClosed)
    else None
  }

  function ResetToDraft(c: Chart, s: State, id: MoveId): Reply<()> {
    if id >= |s.moves| then Reply(s, Err(NotFound))
    else
      var m := s.moves[id];
      if !m.stage.Posted? then Reply(s, Err(NotPosted))
      else if !IsDocument(m.kind) then Reply(s, Err(NotADocument))
      else if m.paymentState.Reversed? then Reply(s, Err(AlreadyReversed))
      else if HasRecs(s.recs, id) then Reply(s, Err(HasPayments))
      else if ResetBar(s, m.date).Some? then Reply(s, Err(ResetBar(s, m.date).value))
      else UnpostMove(s, id)
  }

  /** The moves on the other side of a move's reconciliations, each once. */
  function Affected(recs: seq<Reconcile>, id: MoveId): seq<MoveId> {
    if recs == [] then []
    else
      var earlier := Affected(recs[..|recs| - 1], id);
      var r := recs[|recs| - 1];
      var other := if r.debit.move == id then r.credit.move else r.debit.move;
      if Touches(r, id) && other != id && other !in earlier then earlier + [other] else earlier
  }

  function DropRecs(recs: seq<Reconcile>, id: MoveId): seq<Reconcile> {
    if recs == [] then []
    else
      var earlier := DropRecs(recs[..|recs| - 1], id);
      if Touches(recs[|recs| - 1], id) then earlier else earlier + [recs[|recs| - 1]]
  }

  function Unflagged(lines: seq<Line>): (r: seq<Line>)
    ensures |r| == |lines| && forall i :: 0 <= i < |lines| ==> r[i] == lines[i].(reconciled := false)
  {
    seq(|lines|, i requires 0 <= i < |lines| => lines[i].(reconciled := false))
  }

  function Reopen(c: Chart, s: State, id: MoveId): State {
    if id >= |s.moves| then s
    else RefreshPaymentState(c, s.(moves := s.moves[id := s.moves[id].(lines := Flag(c, s.moves[id].lines, false))]), id)
  }

  function ReopenAll(c: Chart, s: State, ids: seq<MoveId>): State {
    if ids == [] then s else Reopen(c, ReopenAll(c, s, ids[..|ids| - 1]), ids[|ids| - 1])
  }

  function ResetPaymentToDraft(c: Chart, s: State, id: MoveId): Reply<nat> {
    if id >= |s.moves| then Reply(s, Err(NotFound))
    else
      var m := s.moves[id];
      if !m.stage.Posted? then Reply(s, Err(NotPosted))
      else if !m.kind.Payment? then Reply(s, Err(NotAPayment))
      else if m.rate.Some? then Reply(s, Err(ForeignCurrency))
      else if ResetBar(s, m.date).Some? then Reply(s, Err(ResetBar(s, m.date).value))
      else
        var affected := Affected(s.recs, id);
        var dropped := s.(recs := DropRecs(s.recs, id), moves := s.moves[id := m.(lines := Unflagged(m.lines))]);
        var r := UnpostMove(ReopenAll(c, dropped, affected), id);
        if r.result.Err? then Reply(r.db, Err(r.result.error)) else Reply(r.db, Ok(|affected|))
  }
}
