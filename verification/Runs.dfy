/**
 Whole runs: any sequence of service calls keeps the books sound and leaves frozen days alone.
 */
module Runs {
  import opened Wrappers
  import opened Ledger
  import opened ServiceModel
  import opened CurrencyModel
  import opened DocumentsModel
  import opened SettlementModel
  import opened ClosingModel
  import opened BankingModel
  import opened Invariant
  import opened Periods
  import opened PostingKeeps
  import opened DocumentsKeep
  import opened PaymentsKeep
  import opened SettlementsKeep
  import opened UndoKeeps
  import opened Drafts
  import opened ContraKeeps
  import opened ContraRepeats
  import opened RoundTrip
  import opened StaleLists
  import opened Revaluation
  import opened YearEnd

  datatype Call =
    | CreateEntry(entry: NewMove)
    | AddEntryLine(id: MoveId, account: AccountId, debit: Decimal, credit: Decimal)
    | DeleteEntryLine(id: MoveId, index: nat)
    | Redate(id: MoveId, date: Date)
    | DropDraft(id: MoveId)
    | PostEntry(id: MoveId)
    | CreateAndPostEntry(entry: NewMove)
    | ReverseEntry(id: MoveId, on: Date)
    | NewDocument(invoice: NewInvoice)
    | EditDocument(id: MoveId, docLines: seq<DocLine>)
    | EditDocumentHeader(id: MoveId, newPartner: PartnerId, newDate: Option<Date>)
    | PostDocument(id: MoveId)
    | Pay(pay: NewPayment)
    | SettleAll(header: Header, allocations: seq<Allocation>)
    | Apply(header: Header, amount: int, picked: seq<MoveId>)
    | SettleWithWriteOff(header: Header, amount: int, allocations: seq<Allocation>, writeOff: Option<WriteOff>)
    | OffsetPartner(partner: PartnerId, ar: seq<MoveId>, ap: seq<MoveId>, on: Date)
    | CancelDoc(id: MoveId, on: Date)
    | ResetDoc(id: MoveId)
    | ResetPayment(id: MoveId)
    | Revalue(on: Date)
    | CloseYear(year: YearId, advance: bool)
    | ReopenYear(year: YearId)
    | AddYear(from: Date, to: Date)
    | SetLock(lock: Date)
    | SetTaxLock(taxLock: Option<Date>)

  function Exec(c: Chart, s: State, call: Call): State {
    match call
    case CreateEntry(entry) => CreateMove(c, s, entry).db
    case AddEntryLine(id, account, debit, credit) => AddLine(c, s, id, account, debit, credit)
    case DeleteEntryLine(id, k) => DeleteLine(s, id, k)
    case Redate(id, date) => ChangeDate(s, id, date)
    case DropDraft(id) => CancelDraft(s, id)
    case PostEntry(id) => PostMove(s, id).db
    case CreateAndPostEntry(entry) => CreateAndPost(c, s, entry).db
    case ReverseEntry(id, on) => ReverseMove(c, s, id, on).db
    case NewDocument(invoice) => CreateInvoice(c, s, invoice).db
    case EditDocument(id, docLines) => RefreshDocumentTotals(c, EditLines(s, id, docLines), id).db
    case EditDocumentHeader(id, partner, date) => EditHeader(s, id, partner, date)
    case PostDocument(id) => PostInvoice(c, s, id).db
    case Pay(pay) => RegisterPayment(c, s, pay).db
    case SettleAll(h, allocations) => SettleDocuments(c, s, h, allocations).db
    case Apply(h, amount, picked) => ApplyPayment(c, s, h, amount, picked).db
    case SettleWithWriteOff(h, amount, allocations, w) => PostSettlement(c, s, h, amount, allocations, w).db
    case OffsetPartner(partner, ar, ap, on) => Contra(c, s, partner, ar, ap, on).db
    case CancelDoc(id, on) => CancelDocument(c, s, id, on).db
    case ResetDoc(id) => ResetToDraft(c, s, id).db
    case ResetPayment(id) => ResetPaymentToDraft(c, s, id).db
    case Revalue(on) => RevalueOpenItems(c, s, on).db
    case CloseYear(y, advance) => CloseFiscalYear(c, s, y, advance).db
    case ReopenYear(y) => ReopenFiscalYear(c, s, y).db
    case AddYear(from, to) => s.(years := s.years + [FiscalYear(from, to, false, None)])
    case SetLock(lock) => s.(lock := Some(lock))
    case SetTaxLock(lock) => s.(taxLock := lock)
  }

  /**
   What the callers guarantee: a payment in MYR reaches posted documents only (one in another currency
   looks for itself), the other allocation lists name posted moves, each once where the code clamps only
   once, and nobody pulls the lock date back.
   */
  ghost predicate Admissible(c: Chart, s: State, call: Call) {
    match call
    case Pay(pay) => IsForeign(pay) || ReachesPosted(c, s, pay)
    case SettleAll(_, allocations) => AllocationsOk(s, allocations)
    case Apply(_, _, picked) => PickedOk(s, picked)
    case SettleWithWriteOff(_, _, allocations, _) => AllocationsOk(s, allocations)
    case OffsetPartner(_, ar, ap, _) => ContraLists(c, s, ar, ap)
    case AddYear(from, to) => from < to
    case SetLock(lock) => s.lock.Some? ==> s.lock.value <= lock
    case _ => true
  }

  /** The state after the first `n` calls. */
  function After(c: Chart, s: State, calls: seq<Call>, n: nat): State
    requires n <= |calls|
  {
    if n == 0 then s else Exec(c, After(c, s, calls, n - 1), calls[n - 1])
  }

  ghost predicate AdmissibleRun(c: Chart, s: State, calls: seq<Call>) {
    forall n: nat :: n < |calls| ==> Admissible(c, After(c, s, calls, n), calls[n])
  }

  // ─── One call ───────────────────────────────────────────────────────

  /** What each call keeps, besides the invariant. */
  ghost predicate PeriodsKept(s: State, t: State) {
    && (forall d :: Frozen(s, d) ==> DayKept(s.moves, t.moves, d))
    && (forall d :: Locked(s, d) ==> Locked(t, d))
  }

  /** The years of `s` are still there, with their dates, and closed by the same entry if they were. */
  ghost predicate YearsKept(s: State, t: State) {
    |s.years| <= |t.years| && forall y :: 0 <= y < |s.years| ==>
      t.years[y].from == s.years[y].from && t.years[y].to == s.years[y].to && (s.years[y].closed ==> t.years[y] == s.years[y])
  }

  lemma GuardedIsEnough(s: State, t: State)
    requires Guarded(s, t)
    ensures PeriodsKept(s, t) && YearsKept(s, t)
  {
    hide DayKept, Guarded;
    forall d | Frozen(s, d) ensures DayKept(s.moves, t.moves, d) {
      GuardedKeepsDay(s, t, d);
    }
    GuardedPeriods(s, t);
  }

  lemma GuardedPeriods(s: State, t: State)
    requires Guarded(s, t)
    ensures t.lock == s.lock && t.years == s.years
  {
  }

  /** Entries and documents. */
  lemma PostingCallKeeps(c: Chart, s: State, call: Call)
    requires Inv(c, s) && c.ControlAccountsOk() && Admissible(c, s, call)
    requires call.CreateEntry? || call.AddEntryLine? || call.DeleteEntryLine? || call.DropDraft? || call.PostEntry? || call.CreateAndPostEntry? || call.ReverseEntry?
             || call.NewDocument? || call.EditDocument? || call.PostDocument?
    ensures Keeps(c, s, Exec(c, s, call), {})
  {
    hide InvExcept, Guarded, CreateMove, PostMove, CreateAndPost, ReverseMove, CreateInvoice, RefreshDocumentTotals, PostInvoice;
    match call
    case CreateEntry(entry) => CreateMoveKeeps(c, s, entry, {});
    case AddEntryLine(id, account, debit, credit) => AddLineKeeps(c, s, id, account, debit, credit);
    case DeleteEntryLine(id, k) => DeleteLineKeeps(c, s, id, k);
    case DropDraft(id) => CancelDraftKeeps(c, s, id);
    case PostEntry(id) => PostKeeps(c, s, id, {});
    case CreateAndPostEntry(entry) => CreateAndPostKeeps(c, s, entry, {});
    case ReverseEntry(id, on) => ReverseKeeps(c, s, id, on, {});
    case NewDocument(invoice) => CreateInvoiceKeeps(c, s, invoice, {});
    case EditDocument(id, docLines) => EditKeeps(c, s, id, docLines, {});
    case PostDocument(id) => PostInvoiceKeeps(c, s, id, {});
  }

  predicate Settling(call: Call) {
    call.Pay? || call.SettleAll? || call.Apply? || call.SettleWithWriteOff? || call.OffsetPartner?
  }

  predicate Undoing(call: Call) {
    call.CancelDoc? || call.ResetDoc? || call.ResetPayment? || call.Revalue?
  }

  /** Payments and settlements. */
  lemma SettlingCallKeeps(c: Chart, s: State, call: Call)
    requires Inv(c, s) && c.ControlAccountsOk() && Admissible(c, s, call) && Settling(call)
    ensures Keeps(c, s, Exec(c, s, call), {})
  {
    hide InvExcept, Guarded, RegisterPayment, SettleDocuments, ApplyPayment, PostSettlement, Contra,
         ReachesPosted, AllocationsOk, PickedOk, Extends;
    match call
    case Pay(pay) =>
      if IsForeign(pay) {
        RegisterPaymentKeeps(c, s, pay);
      } else {
        RegistrationKeeps(c, s, pay);
      }
    case SettleAll(h, allocations) => SettleDocumentsKeeps(c, s, h, allocations);
    case Apply(h, amount, picked) => ApplyPaymentKeeps(c, s, h, amount, picked);
    case SettleWithWriteOff(h, amount, allocations, w) => PostSettlementKeeps(c, s, h, amount, allocations, w);
    case OffsetPartner(partner, ar, ap, on) => ContraProgress(c, s, partner, ar, ap, on);
  }

  /** Cancelling, resetting, and the revaluation that undoes itself. */
  lemma UndoingCallKeeps(c: Chart, s: State, call: Call)
    requires Inv(c, s) && Undoing(call)
    ensures Keeps(c, s, Exec(c, s, call), {})
  {
    hide InvExcept, Guarded, CancelDocument, ResetToDraft, ResetPaymentToDraft, RevalueOpenItems, Extends;
    match call
    case CancelDoc(id, on) =>
      CancelKeeps(c, s, id, on);
      GuardedSelf(s);
    case ResetDoc(id) => ResetToDraftKeeps(c, s, id);
    case ResetPayment(id) => ResetPaymentKeeps(c, s, id);
    case Revalue(on) => RevalueKeeps(c, s, on);
  }

  predicate SetsPeriods(call: Call) {
    call.CloseYear? || call.ReopenYear? || call.AddYear? || call.SetLock? || call.SetTaxLock? || call.Redate? || call.EditDocumentHeader?
  }

  /** Calls that move the period boundaries, or a draft over them. */
  lemma PeriodCallKeeps(c: Chart, s: State, call: Call)
    requires Inv(c, s) && Admissible(c, s, call) && SetsPeriods(call)
    ensures Inv(c, Exec(c, s, call)) && PeriodsKept(s, Exec(c, s, call))
  {
    hide InvExcept, CloseFiscalYear, ReopenFiscalYear, DayKept;
    var t := Exec(c, s, call);
    if call.CloseYear? {
      CloseKeeps(c, s, call.year, call.advance);
    } else if call.ReopenYear? {
      ReopenKeeps(c, s, call.year);
    } else if call.Redate? {
      ChangeDateKeeps(c, s, call.id, call.date);
    } else if call.EditDocumentHeader? {
      EditHeaderKeeps(c, s, call.id, call.newPartner, call.newDate);
    } else {
      PeriodsDoNotMatter(c, s, t, {});
      forall d | Frozen(s, d) ensures DayKept(s.moves, t.moves, d) {
        SameDay(s.moves, d);
      }
    }
  }

  lemma SameDay(moves: seq<Move>, d: Date)
    ensures DayKept(moves, moves, d)
  {
  }

  /** Years keep their dates, and only a reopening opens one. */
  lemma CloseYearsKept(c: Chart, s: State, y: YearId, advance: bool)
    requires Inv(c, s)
    ensures YearsKept(s, CloseFiscalYear(c, s, y, advance).db)
  {
    hide Balanced, FlipLines;
    if y < |s.years| && FlipLines(c, s.moves, YearWindow(s.years[y]), |c.accounts|) != [] && c.ByCode("3900").Some?
       && !s.years[y].closed && !HasDrafts(s, YearWindow(s.years[y])) {
      var retained := c.ByCode("3900").value;
      var entry := ClosingMove(c, s.moves, s.years[y], retained);
      ClosingEntryIsBalanced(c, s.moves, YearWindow(s.years[y]), retained);
      CreateAndPostKeeps(c, s, entry, {});
      hide InvExcept, CreateAndPost;
      GuardedPeriods(s, CreateAndPost(c, s, entry).db);
    }
  }

  lemma ReopenYearsKept(c: Chart, s: State, y: YearId)
    requires Inv(c, s)
    ensures var t := ReopenFiscalYear(c, s, y).db;
            |t.years| == |s.years| && forall i :: 0 <= i < |s.years| ==>
              t.years[i].from == s.years[i].from && t.years[i].to == s.years[i].to && (i != y ==> t.years[i] == s.years[i])
  {
    if y < |s.years| && s.years[y].closed {
      ReverseClosingKeeps(c, s, s.years[y]);
      hide InvExcept, ReverseClosing;
      GuardedPeriods(s, ReverseClosing(c, s, s.years[y]).db);
    }
  }

  /** Every call keeps the books sound and the frozen days as they are. */
  lemma CallKeeps(c: Chart, s: State, call: Call)
    requires Inv(c, s) && c.ControlAccountsOk() && Admissible(c, s, call)
    ensures Inv(c, Exec(c, s, call)) && PeriodsKept(s, Exec(c, s, call))
    ensures !call.ReopenYear? ==> YearsKept(s, Exec(c, s, call))
  {
    hide Admissible, Guarded, PeriodsKept, CloseFiscalYear, ReopenFiscalYear, InvExcept;
    if SetsPeriods(call) {
      PeriodCallKeeps(c, s, call);
      if call.CloseYear? {
        CloseYearsKept(c, s, call.year, call.advance);
      }
    } else {
      CallIsGuarded(c, s, call);
      GuardedIsEnough(s, Exec(c, s, call));
    }
  }

  /** A call that sets no periods touches nothing on a frozen day. */
  lemma CallIsGuarded(c: Chart, s: State, call: Call)
    requires Inv(c, s) && c.ControlAccountsOk() && Admissible(c, s, call) && !SetsPeriods(call)
    ensures Keeps(c, s, Exec(c, s, call), {})
  {
    hide Admissible, Guarded, InvExcept, Exec;
    if Settling(call) {
      SettlingCallKeeps(c, s, call);
    } else if Undoing(call) {
      UndoingCallKeeps(c, s, call);
    } else {
      PostingCallKeeps(c, s, call);
    }
  }

  // ─── Whole runs ─────────────────────────────────────────────────────

  /** The books are sound in every state that service calls can reach. */
  lemma {:induction false} BooksAlwaysSound(c: Chart, s: State, calls: seq<Call>, n: nat)
    requires Inv(c, s) && c.ControlAccountsOk() && AdmissibleRun(c, s, calls) && n <= |calls|
    ensures Inv(c, After(c, s, calls, n))
  {
    hide Inv, Exec, Admissible, PeriodsKept, YearsKept;
    if n > 0 {
      BooksAlwaysSound(c, s, calls, n - 1);
      CallKeeps(c, After(c, s, calls, n - 1), calls[n - 1]);
    }
  }

  lemma EmptyBooksAreSound(c: Chart, s: State)
    requires s.moves == [] && s.recs == []
    ensures Inv(c, s)
  {
  }

  /** Total debits and credits of the posted moves in a window. */
  function Debits(moves: seq<Move>, w: Window): int {
    if moves == [] then 0
    else
      var m := moves[|moves| - 1];
      Debits(moves[..|moves| - 1], w) + if m.stage.Posted? && w.Has(m.date) then SumDebit(m.lines) else 0
  }

  function Credits(moves: seq<Move>, w: Window): int {
    if moves == [] then 0
    else
      var m := moves[|moves| - 1];
      Credits(moves[..|moves| - 1], w) + if m.stage.Posted? && w.Has(m.date) then SumCredit(m.lines) else 0
  }

  lemma {:induction false} EqualTotals(moves: seq<Move>, w: Window)
    requires forall i :: 0 <= i < |moves| && moves[i].stage.Posted? ==> Balanced(moves[i].lines)
    ensures Debits(moves, w) == Credits(moves, w)
  {
    if moves != [] {
      EqualTotals(moves[..|moves| - 1], w);
    }
  }

  /** The trial balance of any date window is zero after any run that starts from empty books. */
  lemma TrialBalanceIsZero(c: Chart, s: State, calls: seq<Call>, w: Window)
    requires s.moves == [] && s.recs == [] && c.ControlAccountsOk() && AdmissibleRun(c, s, calls)
    ensures var t := After(c, s, calls, |calls|);
            && Debits(t.moves, w) == Credits(t.moves, w)
            && (forall i :: 0 <= i < |t.moves| && t.moves[i].stage.Posted? ==> Balanced(t.moves[i].lines))
  {
    EmptyBooksAreSound(c, s);
    BooksAlwaysSound(c, s, calls, |calls|);
    var t := After(c, s, calls, |calls|);
    hide After, AdmissibleRun;
    forall i | 0 <= i < |t.moves| && t.moves[i].stage.Posted? ensures Balanced(t.moves[i].lines) {
      PostedIsBalanced(c, t, {}, i);
    }
    EqualTotals(t.moves, w);
  }

  /** A posted document or payment in MYR, not flagged as reversed, that something can be open on. */
  ghost predicate MyrItem(c: Chart, t: State, id: MoveId) {
    && id < |t.moves| && t.moves[id].stage.Posted? && !t.moves[id].paymentState.Reversed?
    && IsItem(t.moves[id]) && Company(t.moves[id]) && Counterpart(c, t.moves[id].lines).Some?
  }

  /** What is open on it: the gross of its counterpart line less the reconciliations of that line. */
  ghost function MyrOpen(c: Chart, t: State, id: MoveId): int
    requires MyrItem(c, t, id)
  {
    var k := Counterpart(c, t.moves[id].lines).value;
    LineGross(t.moves[id].lines[k]) - Settled(t.recs, LineRef(id, k))
  }

  /** Residual, payment state and reconciled flags say exactly what is open. */
  ghost predicate SaysWhatIsOpen(c: Chart, t: State, id: MoveId)
    requires MyrItem(c, t, id)
  {
    var m := t.moves[id];
    && m.residual == MyrOpen(c, t, id)
    && (m.paymentState.Paid? <==> m.residual == 0)
    && (m.paymentState.Partial? <==> 0 < m.residual < m.total)
    && (m.paymentState.NotPaid? <==> m.residual == m.total)
    && (forall l :: l in m.lines && c.Reconcilable(l.account) ==> (l.reconciled <==> m.residual == 0))
  }

  /**
   Cached residuals never drift. In every reachable state a MYR document or payment whose header agrees
   with its GL says exactly what is open, which is never negative. For any other the residual is exact
   as well, except while it is still as `post_move` left it, showing its whole header total.
   */
  lemma ResidualsNeverDrift(c: Chart, s: State, calls: seq<Call>, n: nat, id: MoveId)
    requires Inv(c, s) && c.ControlAccountsOk() && AdmissibleRun(c, s, calls) && n <= |calls|
    requires MyrItem(c, After(c, s, calls, n), id)
    ensures var t := After(c, s, calls, n);
            && MyrOpen(c, t, id) >= 0
            && (HeaderAgrees(c, t.moves[id]) ==> SaysWhatIsOpen(c, t, id))
            && (t.moves[id].residual == MyrOpen(c, t, id) <==> HeaderAgrees(c, t.moves[id]) || !AsPosted(c, t.recs, id, t.moves[id]))
  {
    BooksAlwaysSound(c, s, calls, n);
    hide After, AdmissibleRun, Inv, MyrItem, MyrOpen, SaysWhatIsOpen, HeaderAgrees, AsPosted;
    ItemIsExact(c, After(c, s, calls, n), id);
  }

  lemma ItemIsExact(c: Chart, t: State, id: MoveId)
    requires Inv(c, t) && MyrItem(c, t, id)
    ensures MyrOpen(c, t, id) >= 0
    ensures HeaderAgrees(c, t.moves[id]) ==> SaysWhatIsOpen(c, t, id)
    ensures t.moves[id].residual == MyrOpen(c, t, id) <==> HeaderAgrees(c, t.moves[id]) || !AsPosted(c, t.recs, id, t.moves[id])
  {
    var m := t.moves[id];
    var k := Counterpart(c, m.lines).value;
    ItemRow(c, t, id);
    RecsAreOk(c, t, {});
    hide InvExcept;
    SettledNonNegative(t.recs, LineRef(id, k));
    assert m.lines[k] in m.lines;
    assert OneSided(m.lines[k]);
    if AsPosted(c, t.recs, id, m) {
      AsPostedIsCurrentWhen(c, t.recs, id, m);
    }
  }

  /**
   In every reachable state, resetting a payment raises the residual of every posted MYR document or
   payment by exactly what the payment had settled on it, flagged as reversed or not, and leaves the rows
   it never touched as they were.
   */
  lemma ResetsGiveBack(c: Chart, s: State, calls: seq<Call>, n: nat, id: MoveId, doc: MoveId)
    requires Inv(c, s) && c.ControlAccountsOk() && AdmissibleRun(c, s, calls) && n <= |calls|
    requires ResetPaymentToDraft(c, After(c, s, calls, n), id).result.Ok?
    requires doc < |After(c, s, calls, n).moves| && doc != id && IsMyrItem(After(c, s, calls, n).moves[doc])
    ensures var t := After(c, s, calls, n);
            var u := ResetPaymentToDraft(c, t, id).db;
            && |u.moves| == |t.moves| && u.moves[doc].residual == t.moves[doc].residual + GivenBack(c, t, id, doc)
            && (if doc in Affected(t.recs, id) then u.moves[doc].paymentState == StateFor(u.moves[doc].residual, u.moves[doc].total)
                else u.moves[doc] == t.moves[doc])
  {
    BooksAlwaysSound(c, s, calls, n);
    hide After, AdmissibleRun, Inv, GivenBack, Affected, ResetPaymentToDraft, IsMyrItem;
    ResetReturnsWhatWasSettled(c, After(c, s, calls, n), id, doc);
  }

  lemma ItemRow(c: Chart, t: State, id: MoveId)
    requires Inv(c, t) && id < |t.moves|
    ensures RowOk(c, t.recs, id, t.moves[id], false)
  {
  }

  // ─── Documents posted as journal entries ────────────────────────────

  /** The total that `post_move` leaves on a document or payment. */
  function TotalOncePosted(m: Move): int {
    if m.total == 0 then SumDebit(m.lines) else m.total
  }

  /**
   `post_move` takes any draft. The columns of a document or payment it posts are right exactly when the
   total it keeps (the header's, or the entry's where the header has none) is what the counterpart line
   carries; a foreign-currency document needs a positive total that it already carries as its residual.
   */
  lemma PostedColumnsAreRightWhen(c: Chart, s: State, id: MoveId)
    requires Inv(c, s) && PostMove(s, id).result.Ok? && IsItem(s.moves[id]) && Counterpart(c, s.moves[id].lines).Some?
    ensures var m, t := s.moves[id], PostMove(s, id).db;
            Current(c, t.recs, id, t.moves[id]) <==>
            if m.rate.None? then TotalOncePosted(m) == LineGross(m.lines[Counterpart(c, m.lines).value])
            else TotalOncePosted(m) > 0 && m.residualCurrency == Some(TotalOncePosted(m))
  {
    PostMoveEffect(s, id);
    PostKeeps(c, s, id, {});
    ItemRow(c, PostMove(s, id).db, id);
    hide InvExcept, PostMove;
    RowOkForgets(c, s.recs, id, PostMove(s, id).db.moves[id], false);
    AsPostedIsCurrentWhen(c, s.recs, id, PostMove(s, id).db.moves[id]);
  }

  /** An unsettled invoice is taken back to draft, edited, and posted from the journal-entry page. */
  function RepostRun(id: MoveId, docLines: seq<DocLine>): seq<Call> {
    [ResetDoc(id), EditDocument(id, docLines), PostEntry(id)]
  }

  lemma ThreeCalls(c: Chart, s: State, x: Call, y: Call, z: Call)
    ensures After(c, s, [x, y, z], 3) == Exec(c, Exec(c, Exec(c, s, x), y), z)
    ensures Admissible(c, s, x) && Admissible(c, Exec(c, s, x), y) && Admissible(c, Exec(c, Exec(c, s, x), y), z)
            ==> AdmissibleRun(c, s, [x, y, z])
  {
    var calls := [x, y, z];
    assert After(c, s, calls, 0) == s;
    assert After(c, s, calls, 1) == Exec(c, s, x);
    assert After(c, s, calls, 2) == Exec(c, Exec(c, s, x), y);
  }

  /**
   The failing run: whatever the new lines add up to, the invoice then owes that total, while its old
   counterpart line is what stands open.
   */
  lemma RepostedInvoiceDrifts(c: Chart, s: State, id: MoveId, docLines: seq<DocLine>)
    requires Inv(c, s) && ResetToDraft(c, s, id).result.Ok? && MyrItem(c, s, id) && DocumentTotals(c, docLines).Ok?
    requires DocumentTotals(c, docLines).value.total !in {0, MyrOpen(c, s, id)}
    ensures AdmissibleRun(c, s, RepostRun(id, docLines))
    ensures var t := After(c, s, RepostRun(id, docLines), 3);
            && MyrItem(c, t, id) && MyrOpen(c, t, id) == MyrOpen(c, s, id)
            && t.moves[id].residual == DocumentTotals(c, docLines).value.total != MyrOpen(c, t, id)
  {
    hide Inv, After, AdmissibleRun, RepostRun, ResetToDraft, RefreshDocumentTotals, EditLines, PostMove, MyrItem, MyrOpen, DocumentTotals;
    RepostInSteps(c, s, id, docLines);
    Reposted(c, s, id, docLines);
  }

  lemma RepostInSteps(c: Chart, s: State, id: MoveId, docLines: seq<DocLine>)
    ensures AdmissibleRun(c, s, RepostRun(id, docLines)) && |RepostRun(id, docLines)| == 3
    ensures After(c, s, RepostRun(id, docLines), 3) ==
            PostMove(RefreshDocumentTotals(c, EditLines(ResetToDraft(c, s, id).db, id, docLines), id).db, id).db
  {
    hide ResetToDraft, RefreshDocumentTotals, EditLines, PostMove;
    ThreeCalls(c, s, ResetDoc(id), EditDocument(id, docLines), PostEntry(id));
  }

  /** The three services in a row. */
  lemma Reposted(c: Chart, s: State, id: MoveId, docLines: seq<DocLine>)
    requires Inv(c, s) && ResetToDraft(c, s, id).result.Ok? && MyrItem(c, s, id) && DocumentTotals(c, docLines).Ok?
    requires DocumentTotals(c, docLines).value.total != 0
    ensures var t := PostMove(RefreshDocumentTotals(c, EditLines(ResetToDraft(c, s, id).db, id, docLines), id).db, id).db;
            && MyrItem(c, t, id) && MyrOpen(c, t, id) == MyrOpen(c, s, id)
            && t.moves[id].residual == DocumentTotals(c, docLines).value.total
  {
    PostedIsBalanced(c, s, {}, id);
    ResetIsOnOpenDate(c, s, id);
    hide InvExcept, Frozen, Balanced, HasRecs, DocumentTotals;
    var m := s.moves[id];
    var draft := WithTotals(m.(stage := Draft, paymentState := NotPaid, residual := 0, docLines := docLines), DocumentTotals(c, docLines).value);
    var s2 := s.(moves := s.moves[id := draft]);
    EditedDraft(c, s, id, docLines);
    FrozenOfMoves(s, s2.moves, m.date);
    DraftReposts(s2, id);
    hide ResetToDraft, RefreshDocumentTotals, EditLines, PostMove;
    SameItem(c, s, PostMove(s2, id).db, id);
  }

  /** A balanced draft with a header total, on an open date, posts with that total outstanding. */
  lemma DraftReposts(s: State, id: MoveId)
    requires id < |s.moves| && s.moves[id].stage.Draft? && Balanced(s.moves[id].lines) && !Frozen(s, s.moves[id].date)
    requires IsItem(s.moves[id]) && s.moves[id].total != 0
    ensures var t := PostMove(s, id).db;
            && |t.moves| == |s.moves| && t.recs == s.recs && t.moves[id].stage.Posted? && t.moves[id].residual == s.moves[id].total
            && t.moves[id].lines == s.moves[id].lines && t.moves[id].kind == s.moves[id].kind && t.moves[id].rate == s.moves[id].rate
            && t.moves[id].paymentState == s.moves[id].paymentState
  {
    hide Balanced, Frozen;
    PostMoveEffect(s, id);
  }

  lemma EditedDraft(c: Chart, s: State, id: MoveId, docLines: seq<DocLine>)
    requires ResetToDraft(c, s, id).result.Ok? && DocumentTotals(c, docLines).Ok?
    ensures id < |s.moves|
    ensures RefreshDocumentTotals(c, EditLines(ResetToDraft(c, s, id).db, id, docLines), id).db ==
            s.(moves := s.moves[id := WithTotals(s.moves[id].(stage := Draft, paymentState := NotPaid, residual := 0, docLines := docLines),
                                                 DocumentTotals(c, docLines).value)])
  {
    hide DocumentTotals, HasRecs;
  }

  lemma FrozenOfMoves(s: State, moves: seq<Move>, d: Date)
    ensures Frozen(s.(moves := moves), d) <==> Frozen(s, d)
  {
  }

  /** The same lines and reconciliations leave the same open. */
  lemma SameItem(c: Chart, s: State, t: State, id: MoveId)
    requires MyrItem(c, s, id) && id < |t.moves| && t.moves[id].stage.Posted? && t.moves[id].paymentState.NotPaid?
    requires t.moves[id].lines == s.moves[id].lines && t.moves[id].kind == s.moves[id].kind && t.moves[id].rate == s.moves[id].rate
    requires t.recs == s.recs
    ensures MyrItem(c, t, id) && MyrOpen(c, t, id) == MyrOpen(c, s, id)
  {
  }

  lemma ResetIsOnOpenDate(c: Chart, s: State, id: MoveId)
    requires ResetToDraft(c, s, id).result.Ok?
    ensures id < |s.moves| && s.moves[id].stage.Posted? && !Frozen(s, s.moves[id].date)
  {
  }

  /** A posted foreign-currency document whose residual the books track. */
  ghost predicate ForeignItem(c: Chart, t: State, id: MoveId) {
    && id < |t.moves| && t.moves[id].stage.Posted? && !t.moves[id].paymentState.Reversed?
    && IsDocument(t.moves[id].kind) && t.moves[id].rate.Some? && Counterpart(c, t.moves[id].lines).Some?
  }

  /** What is open on it, in its own currency. */
  ghost function ForeignOpen(c: Chart, t: State, id: MoveId): int
    requires ForeignItem(c, t, id)
  {
    var m := t.moves[id];
    Max(0, m.total - SettledCurrency(t.recs, LineRef(id, Counterpart(c, m.lines).value)))
  }

  /** Own-currency residual and payment state say exactly what is open. */
  ghost predicate ForeignSaysWhatIsOpen(c: Chart, t: State, id: MoveId)
    requires ForeignItem(c, t, id)
  {
    && t.moves[id].residualCurrency == Some(ForeignOpen(c, t, id))
    && t.moves[id].paymentState == StateFor(ForeignOpen(c, t, id), t.moves[id].total)
  }

  /**
   The same for foreign-currency documents, in their own currency, where realised differences can be
   posted: exact, except while the row is as `post_move` left it with another residual than its total.
   */
  lemma ForeignResidualsNeverDrift(c: Chart, s: State, calls: seq<Call>, n: nat, id: MoveId)
    requires Inv(c, s) && c.ControlAccountsOk() && AdmissibleRun(c, s, calls) && n <= |calls| && FxReady(c)
    requires ForeignItem(c, After(c, s, calls, n), id)
    ensures var t := After(c, s, calls, n);
            var m := t.moves[id];
            ForeignSaysWhatIsOpen(c, t, id) <==>
            !AsPosted(c, t.recs, id, m) || (m.total > 0 && m.residualCurrency == Some(m.total))
  {
    BooksAlwaysSound(c, s, calls, n);
    hide After, AdmissibleRun, Inv, FxReady, ForeignSaysWhatIsOpen, AsPosted;
    ForeignItemIsExact(c, After(c, s, calls, n), id);
  }

  lemma ForeignItemIsExact(c: Chart, t: State, id: MoveId)
    requires Inv(c, t) && FxReady(c) && ForeignItem(c, t, id)
    ensures var m := t.moves[id];
            ForeignSaysWhatIsOpen(c, t, id) <==> !AsPosted(c, t.recs, id, m) || (m.total > 0 && m.residualCurrency == Some(m.total))
  {
    ItemRow(c, t, id);
    hide InvExcept;
    if AsPosted(c, t.recs, id, t.moves[id]) {
      RowOkForgets(c, t.recs, id, t.moves[id], false);
      AsPostedIsCurrentWhen(c, t.recs, id, t.moves[id]);
    }
  }

  // ─── Frozen periods over runs ───────────────────────────────────────

  /** A day that is frozen before every call of a run is the same at its end. */
  lemma {:induction false} FrozenDayStays(c: Chart, s: State, calls: seq<Call>, n: nat, d: Date)
    requires Inv(c, s) && c.ControlAccountsOk() && AdmissibleRun(c, s, calls) && n <= |calls|
    requires forall k: nat :: k < n ==> Frozen(After(c, s, calls, k), d)
    ensures DayKept(s.moves, After(c, s, calls, n).moves, d)
  {
    hide Inv, Exec, Admissible, YearsKept, DayKept, Frozen;
    if n == 0 {
      SameDay(s.moves, d);
    } else {
      FrozenDayStays(c, s, calls, n - 1, d);
      BooksAlwaysSound(c, s, calls, n - 1);
      var t := After(c, s, calls, n - 1);
      CallKeeps(c, t, calls[n - 1]);
      DayKeptChain(s.moves, t.moves, After(c, s, calls, n).moves, d);
    }
  }

  lemma {:induction false} LockHolds(c: Chart, s: State, calls: seq<Call>, n: nat, d: Date)
    requires Inv(c, s) && c.ControlAccountsOk() && AdmissibleRun(c, s, calls) && n <= |calls| && Locked(s, d)
    ensures Locked(After(c, s, calls, n), d)
  {
    hide Inv, Exec, Admissible, YearsKept, Locked;
    if n > 0 {
      LockHolds(c, s, calls, n - 1, d);
      BooksAlwaysSound(c, s, calls, n - 1);
      CallKeeps(c, After(c, s, calls, n - 1), calls[n - 1]);
    }
  }

  /** Balances through the lock date never change again, on any set of accounts. */
  lemma LockedBalancesAreFinal(c: Chart, s: State, calls: seq<Call>, on: set<AccountId>, w: Window)
    requires Inv(c, s) && c.ControlAccountsOk() && AdmissibleRun(c, s, calls)
    requires s.lock.Some? && w.to.Some? && w.to.value <= s.lock.value
    ensures Balance(After(c, s, calls, |calls|).moves, on, w) == Balance(s.moves, on, w)
  {
    hide Inv, After, AdmissibleRun, DayKept;
    var t := After(c, s, calls, |calls|);
    forall d | w.Has(d) ensures DayKept(s.moves, t.moves, d) {
      forall k: nat | k < |calls| ensures Frozen(After(c, s, calls, k), d) {
        LockHolds(c, s, calls, k, d);
      }
      FrozenDayStays(c, s, calls, |calls|, d);
    }
    MovesOnlyGrow(c, s, calls, |calls|);
    KeptDaysKeepBalances(s.moves, t.moves, on, w);
  }

  /** No call deletes a move. */
  lemma {:induction false} MovesOnlyGrow(c: Chart, s: State, calls: seq<Call>, n: nat)
    requires Inv(c, s) && c.ControlAccountsOk() && AdmissibleRun(c, s, calls) && n <= |calls|
    requires s.lock.Some?
    ensures |s.moves| <= |After(c, s, calls, n).moves|
  {
    hide Inv, Exec, Admissible, YearsKept;
    if n > 0 {
      MovesOnlyGrow(c, s, calls, n - 1);
      BooksAlwaysSound(c, s, calls, n - 1);
      LockHolds(c, s, calls, n - 1, s.lock.value);
      var t := After(c, s, calls, n - 1);
      CallKeeps(c, t, calls[n - 1]);
      assert DayKept(t.moves, After(c, s, calls, n).moves, s.lock.value);
    }
  }

  /** Year `y` is closed, with these dates, and nobody reopens it. */
  ghost predicate NotReopened(calls: seq<Call>, y: YearId) {
    forall n: nat :: n < |calls| && calls[n].ReopenYear? ==> calls[n].year != y
  }

  ghost predicate ClosedAs(t: State, y: YearId, span: FiscalYear) {
    y < |t.years| && t.years[y].closed && t.years[y].from == span.from && t.years[y].to == span.to
  }

  lemma YearSurvivesCall(c: Chart, s: State, call: Call, y: YearId, span: FiscalYear)
    requires Inv(c, s) && c.ControlAccountsOk() && Admissible(c, s, call) && ClosedAs(s, y, span)
    requires call.ReopenYear? ==> call.year != y
    ensures ClosedAs(Exec(c, s, call), y, span)
  {
    hide Inv, Admissible, PeriodsKept, ReopenFiscalYear;
    CallKeeps(c, s, call);
    if call.ReopenYear? {
      ReopenYearsKept(c, s, call.year);
    } else {
      hide Exec;
    }
  }

  lemma {:induction false} ClosedYearStays(c: Chart, s: State, calls: seq<Call>, n: nat, y: YearId)
    requires Inv(c, s) && c.ControlAccountsOk() && AdmissibleRun(c, s, calls) && n <= |calls|
    requires y < |s.years| && s.years[y].closed && NotReopened(calls, y)
    ensures var t := After(c, s, calls, n);
            y < |t.years| && t.years[y].closed && t.years[y].from == s.years[y].from && t.years[y].to == s.years[y].to
  {
    hide Inv, Admissible, Exec;
    if n > 0 {
      ClosedYearStays(c, s, calls, n - 1, y);
      BooksAlwaysSound(c, s, calls, n - 1);
      YearSurvivesCall(c, After(c, s, calls, n - 1), calls[n - 1], y, s.years[y]);
    }
  }

  /** While a year stays closed, no balance inside it changes. */
  lemma ClosedYearBalancesAreFinal(c: Chart, s: State, calls: seq<Call>, y: YearId, on: set<AccountId>, w: Window)
    requires Inv(c, s) && c.ControlAccountsOk() && AdmissibleRun(c, s, calls)
    requires y < |s.years| && s.years[y].closed && s.years[y].from < s.years[y].to && NotReopened(calls, y)
    requires forall d :: w.Has(d) ==> YearWindow(s.years[y]).Has(d)
    ensures Balance(After(c, s, calls, |calls|).moves, on, w) == Balance(s.moves, on, w)
  {
    hide Inv, After, AdmissibleRun, DayKept, NotReopened;
    var t := After(c, s, calls, |calls|);
    forall d | YearWindow(s.years[y]).Has(d) ensures DayKept(s.moves, t.moves, d) {
      forall k: nat | k < |calls| ensures Frozen(After(c, s, calls, k), d) {
        ClosedYearStays(c, s, calls, k, y);
      }
      FrozenDayStays(c, s, calls, |calls|, d);
    }
    assert YearWindow(s.years[y]).Has(s.years[y].from);
    assert |s.moves| <= |t.moves| by {
      DayLength(s.moves, t.moves, s.years[y].from);
    }
    KeptDaysKeepBalances(s.moves, t.moves, on, w);
  }

  lemma DayLength(a: seq<Move>, b: seq<Move>, d: Date)
    requires DayKept(a, b, d)
    ensures |a| <= |b|
  {
  }

  // ─── Numbers ────────────────────────────────────────────────────────

  /** No two moves ever share a number. */
  lemma NumbersAreUnique(c: Chart, s: State, calls: seq<Call>, n: nat, i: MoveId, j: MoveId)
    requires Inv(c, s) && c.ControlAccountsOk() && AdmissibleRun(c, s, calls) && n <= |calls|
    requires i < j < |After(c, s, calls, n).moves| && After(c, s, calls, n).moves[i].number.Some?
    ensures After(c, s, calls, n).moves[i].number != After(c, s, calls, n).moves[j].number
  {
    BooksAlwaysSound(c, s, calls, n);
  }
}
