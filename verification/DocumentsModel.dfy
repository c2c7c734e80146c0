/** Documents and their open items: expansion into GL lines, residuals, payment states (`documents.rs`). */
module DocumentsModel {
  import opened Wrappers
  import opened Rounding
  import opened Ledger
  import opened ServiceModel
  import opened CurrencyModel

  // ─── Document totals ────────────────────────────────────────────────

  function Gross(l: DocLine): int {
    RoundDiv(l.quantity * l.price, 1000000)
  }

  predicate TaxKnown(c: Chart, l: DocLine) {
    l.tax.Some? ==> l.tax.value < |c.taxes|
  }

  predicate TaxesKnown(c: Chart, lines: seq<DocLine>) {
    forall i :: 0 <= i < |lines| ==> TaxKnown(c, lines[i])
  }

  /** The line's amount net of tax, at two decimals. */
  function Base(c: Chart, l: DocLine): int
    requires TaxKnown(c, l)
  {
    if l.tax.None? then Gross(l) else c.taxes[l.tax.value].base(Gross(l))
  }

  function TaxAmount(c: Chart, l: DocLine): int
    requires TaxKnown(c, l)
  {
    if l.tax.None? then 0 else c.taxes[l.tax.value].tax(Gross(l))
  }

  function Untaxed(c: Chart, lines: seq<DocLine>): int
    requires TaxesKnown(c, lines)
  {
    if lines == [] then 0 else Untaxed(c, lines[..|lines| - 1]) + Base(c, lines[|lines| - 1])
  }

  function TaxTotal(c: Chart, lines: seq<DocLine>): int
    requires TaxesKnown(c, lines)
  {
    if lines == [] then 0 else TaxTotal(c, lines[..|lines| - 1]) + TaxAmount(c, lines[|lines| - 1])
  }

  datatype Totals = Totals(untaxed: int, tax: int, total: int)

  function DocumentTotals(c: Chart, lines: seq<DocLine>): Result<Totals> {
    if !TaxesKnown(c, lines) then Err(UnknownTax)
    else Ok(Totals(Untaxed(c, lines), TaxTotal(c, lines), Untaxed(c, lines) + TaxTotal(c, lines)))
  }

  function WithTotals(m: Move, t: Totals): Move {
    m.(untaxed := t.untaxed, tax := t.tax, total := t.total)
  }

  /** Recomputes a draft's header from the lines it now has; posted rows are left alone. */
  function RefreshDocumentTotals(c: Chart, s: State, id: MoveId): Reply<()> {
    if id >= |s.moves| || !s.moves[id].stage.Draft? then Reply(s, Ok(()))
    else
      match DocumentTotals(c, s.moves[id].docLines)
      case Err(e) => Reply(s, Err(e))
      case Ok(t) => Reply(s.(moves := s.moves[id := WithTotals(s.moves[id], t)]), Ok(()))
  }

  datatype NewInvoice = NewInvoice(
    kind: Kind, partner: PartnerId, date: Date, journal: Option<string>, currency: Option<CurrencyId>, lines: seq<DocLine>)

  function InvoiceRow(inv: NewInvoice, journal: string, t: Totals): Move {
    Move(journal, inv.date, Some(inv.date), Draft, inv.kind, None, Some(inv.partner), inv.currency, inv.lines, [],
         t.untaxed, t.tax, t.total, None, 0, None, NotPaid, None)
  }

  function InvoiceJournal(inv: NewInvoice): string {
    if inv.journal.Some? then inv.journal.value else if IsCustomer(inv.kind) then "SAL" else "PUR"
  }

  function CreateInvoice(c: Chart, s: State, inv: NewInvoice): Reply<MoveId> {
    if !IsDocument(inv.kind) then Reply(s, Err(NotADocument))
    else if inv.lines == [] then Reply(s, Err(NoLines))
    else if InvoiceJournal(inv) !in c.journals then Reply(s, Err(UnknownJournal))
    else
      match DocumentTotals(c, inv.lines)
      case Err(e) => Reply(s, Err(e))
      case Ok(t) =>
        if t.total <= 0 then Reply(s, Err(TotalNotPositive))
        else if exists i :: 0 <= i < |inv.lines| && inv.lines[i].quantity <= 0 then Reply(s, Err(RowRejected))
        else Reply(s.(moves := s.moves + [InvoiceRow(inv, InvoiceJournal(inv), t)]), Ok(|s.moves|))
  }

  // ─── Expansion into GL lines ────────────────────────────────────────

  /** Sums over the lines of one tax: the per-tax bucket of `aggregate_by_tax`. */
  function BucketBase(c: Chart, lines: seq<DocLine>, t: TaxId): int
    requires TaxesKnown(c, lines)
  {
    if lines == [] then 0
    else
      var l := lines[|lines| - 1];
      BucketBase(c, lines[..|lines| - 1], t) + if l.tax == Some(t) then Base(c, l) else 0
  }

  function BucketTax(c: Chart, lines: seq<DocLine>, t: TaxId): int
    requires TaxesKnown(c, lines)
  {
    if lines == [] then 0
    else
      var l := lines[|lines| - 1];
      BucketTax(c, lines[..|lines| - 1], t) + if l.tax == Some(t) then TaxAmount(c, l) else 0
  }

  function CounterpartRole(k: Kind): Role { if IsCustomer(k) then Receivable else Payable }

  function LineRole(k: Kind): Role { if IsCustomer(k) then IncomeRole else ExpenseRole }

  /** Which GL side the receivable or payable sits on: credit notes flip their parent document. */
  predicate CounterpartIsDebit(k: Kind) { IsCustomer(k) != IsCreditNote(k) }

  function Signed(amount: int, isDebit: bool): int { if isDebit then amount else -amount }

  /** A GL line on one side, carrying its document-currency amount when there is one. */
  function SideLine(account: AccountId, isDebit: bool, myr: int, currency: Option<CurrencyId>, amount: int): Line {
    Line(account, if isDebit then myr else 0, if isDebit then 0 else myr,
         if currency.Some? then Some(Foreign(currency.value, Signed(amount, isDebit))) else None, false)
  }

  /** How a document posts: its kind, its currency (None for MYR) and its fixed rate. */
  datatype Terms = Terms(kind: Kind, currency: Option<CurrencyId>, rate: int)

  function LineAccount(c: Chart, k: Kind, l: DocLine): Option<AccountId> {
    if l.account.Some? then l.account else c.DefaultAccount(LineRole(k))
  }

  function TaxAccount(c: Chart, t: TaxId): Option<AccountId>
    requires t < |c.taxes|
  {
    if c.taxes[t].account.Some? then c.taxes[t].account else c.DefaultAccount(TaxRole)
  }

  predicate LineAccountsKnown(c: Chart, k: Kind, lines: seq<DocLine>) {
    forall i :: 0 <= i < |lines| ==> LineAccount(c, k, lines[i]).Some?
  }

  predicate TaxAccountsKnown(c: Chart, lines: seq<DocLine>, n: nat)
    requires n <= |c.taxes| && TaxesKnown(c, lines)
  {
    forall t :: 0 <= t < n && BucketTax(c, lines, t) != 0 ==> TaxAccount(c, t).Some?
  }

  /** One income or expense line per document line. */
  function BaseLines(c: Chart, terms: Terms, lines: seq<DocLine>): (r: seq<Line>)
    requires TaxesKnown(c, lines) && LineAccountsKnown(c, terms.kind, lines)
    ensures |r| == |lines|
  {
    if lines == [] then []
    else
      var l := lines[|lines| - 1];
      BaseLines(c, terms, lines[..|lines| - 1]) +
      [SideLine(LineAccount(c, terms.kind, l).value, !CounterpartIsDebit(terms.kind),
                ToMyr(Base(c, l), terms.rate), terms.currency, Base(c, l))]
  }

  /** One line per distinct tax that amounts to something, for the first `n` taxes. */
  function TaxLines(c: Chart, terms: Terms, lines: seq<DocLine>, n: nat): seq<Line>
    requires n <= |c.taxes| && TaxesKnown(c, lines) && TaxAccountsKnown(c, lines, n)
  {
    if n == 0 then []
    else
      var before := TaxLines(c, terms, lines, n - 1);
      var tax := BucketTax(c, lines, n - 1);
      if tax == 0 then before
      else before + [SideLine(TaxAccount(c, n - 1).value, !CounterpartIsDebit(terms.kind),
                              ToMyr(tax, terms.rate), terms.currency, tax)]
  }

  /** Σ of the one-sided amounts: the MYR value of the component lines. */
  function Gl(lines: seq<Line>): int {
    SumDebit(lines) + SumCredit(lines)
  }

  /** The GL lines of a document: the counterpart, then the income/expense lines, then the taxes. */
  function Expansion(c: Chart, terms: Terms, partner: Option<PartnerId>, lines: seq<DocLine>, total: int): Result<seq<Line>>
    requires TaxesKnown(c, lines)
  {
    var counterpart := c.PartnerAccount(partner, CounterpartRole(terms.kind));
    if counterpart.None? || !LineAccountsKnown(c, terms.kind, lines) || !TaxAccountsKnown(c, lines, |c.taxes|) then
      Err(NoAccount)
    else
      var components := BaseLines(c, terms, lines) + TaxLines(c, terms, lines, |c.taxes|);
      Ok([SideLine(counterpart.value, CounterpartIsDebit(terms.kind), Gl(components), terms.currency, total)] + components)
  }

  /** The currency a document is kept in and the rate it posts at. */
  function TermsOf(c: Chart, m: Move): Option<Terms> {
    if m.currency.None? || m.currency.value == MYR then Some(Terms(m.kind, None, ONE))
    else
      match RateOn(c, m.currency.value, if m.invoiceDate.Some? then m.invoiceDate.value else m.date)
      case None => None
      case Some(rate) => Some(Terms(m.kind, m.currency, rate))
  }

  /** The draft row with freshly expanded lines, ready for the posting engine. */
  function ExpandedRow(m: Move, terms: Terms, lines: seq<Line>): Move {
    m.(lines := lines, rate := if terms.currency.Some? then Some(terms.rate) else m.rate)
  }

  /** Expands a draft whose totals are `t` and hands it to the posting engine. */
  function PostWithTotals(c: Chart, s: State, id: MoveId, t: Totals): Reply<nat>
    requires id < |s.moves| && TaxesKnown(c, s.moves[id].docLines)
  {
    var m := WithTotals(s.moves[id], t);
    var headed := s.(moves := s.moves[id := m]);
    if t.total <= 0 then Reply(headed, Err(TotalNotPositive))
    else if c.PartnerAccount(m.partner, CounterpartRole(m.kind)).None? then Reply(headed, Err(NoAccount))
    else
      var bare := s.(moves := s.moves[id := m.(lines := [])]);
      match TermsOf(c, m)
      case None => Reply(bare, Err(NoRate))
      case Some(terms) =>
        match Expansion(c, terms, m.partner, m.docLines, t.total)
        case Err(e) => Reply(bare, Err(e))
        case Ok(lines) =>
          if exists i :: 0 <= i < |lines| && !RowAccepted(c, lines[i]) then Reply(bare, Err(RowRejected))
          else PostExpanded(s.(moves := s.moves[id := ExpandedRow(m, terms, lines)]), id, terms, lines, t.total)
  }

  /** Posts an expanded draft; a foreign-currency document keeps its residual in its own currency too. */
  function PostExpanded(ready: State, id: MoveId, terms: Terms, lines: seq<Line>, total: int): Reply<nat> {
    var r := PostMove(ready, id);
    if r.result.Err? || terms.currency.None? || id >= |r.db.moves| || lines == [] then r
    else
      var fx := r.db.moves[id].(residual := Gl(lines[1..]), residualCurrency := Some(total));
      Reply(r.db.(moves := r.db.moves[id := fx]), r.result)
  }

  function PostInvoice(c: Chart, s: State, id: MoveId): Reply<nat> {
    if id >= |s.moves| then Reply(s, Err(NotFound))
    else if !s.moves[id].stage.Draft? then Reply(s, Err(NotDraft))
    else if !IsDocument(s.moves[id].kind) then Reply(s, Err(NotADocument))
    else if s.taxLock.Some? && s.moves[id].date <= s.taxLock.value then Reply(s, Err(TaxLocked))
    else
      match DocumentTotals(c, s.moves[id].docLines)
      case Err(e) => Reply(s, Err(e))
      case Ok(t) => PostWithTotals(c, s, id, t)
  }

  // ─── Open items ─────────────────────────────────────────────────────

  /** Position of the first reconcilable line. */
  function Counterpart(c: Chart, lines: seq<Line>, from: nat := 0): (r: Option<nat>)
    requires from <= |lines|
    ensures r.Some? ==> from <= r.value < |lines| && c.Reconcilable(lines[r.value].account)
    ensures r.Some? ==> forall i :: from <= i < r.value ==> !c.Reconcilable(lines[i].account)
    ensures r.None? ==> forall i :: from <= i < |lines| ==> !c.Reconcilable(lines[i].account)
    decreases |lines| - from
  {
    if from == |lines| then None
    else if c.Reconcilable(lines[from].account) then Some(from)
    else Counterpart(c, lines, from + 1)
  }

  function LineGross(l: Line): int { if l.debit != 0 then l.debit else l.credit }

  datatype OpenLine = OpenLine(line: LineRef, amount: int, isDebit: bool)

  /** The receivable or payable line of a row and what the reconciliations leave open on it. */
  function OpenOf(c: Chart, recs: seq<Reconcile>, id: MoveId, m: Move): Option<OpenLine> {
    match Counterpart(c, m.lines)
    case None => None
    case Some(k) =>
      Some(OpenLine(LineRef(id, k), LineGross(m.lines[k]) - Settled(recs, LineRef(id, k)), m.lines[k].debit != 0))
  }

  function OpenCounterpart(c: Chart, s: State, id: MoveId): Option<OpenLine> {
    if id >= |s.moves| then None else OpenOf(c, s.recs, id, s.moves[id])
  }

  function StateFor(open: int, total: int): PaymentState {
    if open <= 0 then Paid else if open < total then Partial else NotPaid
  }

  /** Sets or clears the `reconciled` flag of every reconcilable line. */
  function Flag(c: Chart, lines: seq<Line>, on: bool): (r: seq<Line>)
    ensures |r| == |lines|
    ensures forall i :: 0 <= i < |lines| ==>
              r[i] == if c.Reconcilable(lines[i].account) then lines[i].(reconciled := on) else lines[i]
  {
    seq(|lines|, i requires 0 <= i < |lines| =>
      if c.Reconcilable(lines[i].account) then lines[i].(reconciled := on) else lines[i])
  }

  /** A row with its residual and payment state recomputed from the reconciliations. */
  function Refreshed(c: Chart, recs: seq<Reconcile>, id: MoveId, m: Move): Move {
    match OpenOf(c, recs, id, m)
    case None => m
    case Some(o) =>
      if m.rate.Some? then
        var open := Max(0, m.total - SettledCurrency(recs, o.line));
        m.(residual := Max(0, ToMyr(open, m.rate.value)), residualCurrency := Some(open),
           paymentState := StateFor(open, m.total), lines := if open <= 0 then Flag(c, m.lines, true) else m.lines)
      else
        m.(residual := Max(0, o.amount), paymentState := StateFor(o.amount, m.total),
           lines := if o.amount <= 0 then Flag(c, m.lines, true) else m.lines)
  }

  function RefreshPaymentState(c: Chart, s: State, id: MoveId): State {
    if id >= |s.moves| then s else s.(moves := s.moves[id := Refreshed(c, s.recs, id, s.moves[id])])
  }

  function RefreshAll(c: Chart, s: State, ids: seq<MoveId>): State {
    if ids == [] then s else RefreshPaymentState(c, RefreshAll(c, s, ids[..|ids| - 1]), ids[|ids| - 1])
  }
}
