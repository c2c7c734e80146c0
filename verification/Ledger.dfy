/** The accounting tables: chart of accounts, moves with their GL lines, reconciliations, periods. */
module Ledger {
  import opened Wrappers

  // Days are counted from a fixed origin; money is counted in sen.
  type Date = int
  type AccountId = nat
  type MoveId = nat
  type PartnerId = nat
  type CurrencyId = nat
  type TaxId = nat
  type YearId = nat

  // ─── Configuration ──────────────────────────────────────────────────

  datatype AccountType =
    | AssetCash | AssetBank | AssetReceivable | AssetCurrent | AssetFixed | AssetNonCurrent
    | LiabilityPayable | LiabilityCurrent | LiabilityNonCurrent | Equity
    | Income | IncomeOther | Expense | ExpenseDepreciation | ExpenseDirectCost

  datatype Account = Account(code: string, kind: AccountType)

  datatype JournalKind = SaleJournal | PurchaseJournal | CashJournal | BankJournal | GeneralJournal

  datatype Journal = Journal(kind: JournalKind, account: Option<AccountId>)

  /** A tax as posting sees it: 2-dp base and tax of a gross amount, and its GL account. */
  datatype Tax = Tax(base: int -> int, tax: int -> int, account: Option<AccountId>)

  datatype GainLoss = GainLoss(gain: AccountId, loss: AccountId)

  datatype Role = Receivable | Payable | IncomeRole | ExpenseRole | TaxRole

  /** `acc_account`, `acc_journal`, `taxes` and `acc_config`; an account id is its row number. */
  datatype Chart = Chart(
    accounts: seq<Account>,
    journals: map<string, Journal>,
    taxes: seq<Tax>,
    defaults: map<Role, AccountId>,
    partnerReceivable: map<PartnerId, AccountId>,
    partnerPayable: map<PartnerId, AccountId>,
    realizedFx: Option<GainLoss>,
    unrealizedFx: Option<GainLoss>,
    // MYR per currency unit in 10^-10, as quoted on or before a date
    rate: (CurrencyId, Date) -> Option<int>)
  {
    /** The `reconcile` flag of an account: set exactly on receivables and payables. */
    predicate Reconcilable(a: AccountId) {
      a < |accounts| && accounts[a].kind in {AssetReceivable, LiabilityPayable}
    }

    /** The first account, in chart order, that satisfies `p`. */
    function FirstWhere(p: Account -> bool, from: nat := 0): (r: Option<AccountId>)
      requires from <= |accounts|
      ensures r.Some? ==> from <= r.value < |accounts| && p(accounts[r.value])
      ensures r.None? ==> forall i :: from <= i < |accounts| ==> !p(accounts[i])
      decreases |accounts| - from
    {
      if from == |accounts| then None
      else if p(accounts[from]) then Some(from)
      else FirstWhere(p, from + 1)
    }

    function FirstOfKind(kind: AccountType): (r: Option<AccountId>)
      ensures r.Some? ==> r.value < |accounts| && accounts[r.value].kind == kind
    {
      FirstWhere((a: Account) => a.kind == kind)
    }

    function ByCode(code: string): (r: Option<AccountId>)
      ensures r.Some? ==> r.value < |accounts| && accounts[r.value].code == code
    {
      FirstWhere((a: Account) => a.code == code)
    }

    /** Configured account of a role, else the first account of the role's type. */
    function DefaultAccount(role: Role): Option<AccountId> {
      if role in defaults then Some(defaults[role])
      else FirstOfKind(match role
                       case Receivable => AssetReceivable
                       case Payable => LiabilityPayable
                       case IncomeRole => Income
                       case ExpenseRole => Expense
                       case TaxRole => LiabilityCurrent)
    }

    /** The partner's own control account when one is set, else the default of the role. */
    function PartnerAccount(partner: Option<PartnerId>, role: Role): Option<AccountId> {
      if partner.Some? && role.Receivable? && partner.value in partnerReceivable then
        Some(partnerReceivable[partner.value])
      else if partner.Some? && role.Payable? && partner.value in partnerPayable then
        Some(partnerPayable[partner.value])
      else DefaultAccount(role)
    }

    /** The control accounts are what their role says: receivables and payables. */
    ghost predicate ControlAccountsOk() {
      && (forall p: Option<PartnerId> :: PartnerAccount(p, Receivable).Some? ==>
            var a := PartnerAccount(p, Receivable).value;
            a < |accounts| && accounts[a].kind == AssetReceivable)
      && (forall p: Option<PartnerId> :: PartnerAccount(p, Payable).Some? ==>
            var a := PartnerAccount(p, Payable).value;
            a < |accounts| && accounts[a].kind == LiabilityPayable)
    }
  }

  // ─── Rows ───────────────────────────────────────────────────────────

  datatype Foreign = Foreign(currency: CurrencyId, amount: int)

  /** One GL line; `foreign` is the signed document-currency amount, positive on the debit side. */
  datatype Line = Line(account: AccountId, debit: int, credit: int, foreign: Option<Foreign>, reconciled: bool)

  /** A commercial document line; quantity and price have four decimals. */
  datatype DocLine = DocLine(quantity: int, price: int, tax: Option<TaxId>, account: Option<AccountId>)

  datatype Stage = Draft | Posted | Cancelled

  datatype Kind = Entry | CustomerInvoice | CustomerCreditNote | VendorBill | VendorCreditNote | Payment

  datatype PaymentState = NotPaid | Partial | Paid | Reversed

  datatype Move = Move(
    journal: string,
    date: Date,
    invoiceDate: Option<Date>,
    stage: Stage,
    kind: Kind,
    number: Option<nat>,
    partner: Option<PartnerId>,
    currency: Option<CurrencyId>,
    docLines: seq<DocLine>,
    lines: seq<Line>,
    untaxed: int,
    tax: int,
    total: int,
    rate: Option<int>,
    residual: int,
    residualCurrency: Option<int>,
    paymentState: PaymentState,
    reverses: Option<MoveId>)

  predicate IsCustomer(k: Kind) { k.CustomerInvoice? || k.CustomerCreditNote? }

  predicate IsCreditNote(k: Kind) { k.CustomerCreditNote? || k.VendorCreditNote? }

  predicate IsDocument(k: Kind) { IsCustomer(k) || k.VendorBill? || k.VendorCreditNote? }

  /** A GL line is addressed by its move and its position there. */
  datatype LineRef = LineRef(move: MoveId, index: nat)

  /** `acc_partial_reconcile`: `amount` of the debit line is settled by the credit line. */
  datatype Reconcile = Reconcile(debit: LineRef, credit: LineRef, amount: int, currency: int)

  datatype FiscalYear = FiscalYear(from: Date, to: Date, closed: bool, closing: Option<MoveId>)

  datatype State = State(
    moves: seq<Move>,
    recs: seq<Reconcile>,
    lock: Option<Date>,
    taxLock: Option<Date>,
    years: seq<FiscalYear>,
    nextNumber: nat)

  /** What a service call leaves behind: the tables after it, and its answer. */
  datatype Reply<+T> = Reply(db: State, result: Result<T>)

  // ─── Sums over the lines of a move ──────────────────────────────────

  function SumDebit(lines: seq<Line>): int {
    if lines == [] then 0 else SumDebit(lines[..|lines| - 1]) + lines[|lines| - 1].debit
  }

  function SumCredit(lines: seq<Line>): int {
    if lines == [] then 0 else SumCredit(lines[..|lines| - 1]) + lines[|lines| - 1].credit
  }

  /** Debit-positive movement of the accounts in `on`. */
  function Net(lines: seq<Line>, on: set<AccountId>): int {
    if lines == [] then 0
    else
      var l := lines[|lines| - 1];
      Net(lines[..|lines| - 1], on) + if l.account in on then l.debit - l.credit else 0
  }

  predicate OneSided(l: Line) { l.debit >= 0 && l.credit >= 0 && (l.debit == 0 || l.credit == 0) }

  /** What a posted entry must look like. */
  ghost predicate Balanced(lines: seq<Line>) {
    && |lines| >= 2
    && (forall i :: 0 <= i < |lines| ==> OneSided(lines[i]))
    && SumDebit(lines) == SumCredit(lines) != 0
  }

  lemma {:induction false} SumsOfConcat(a: seq<Line>, b: seq<Line>, on: set<AccountId>)
    ensures SumDebit(a + b) == SumDebit(a) + SumDebit(b)
    ensures SumCredit(a + b) == SumCredit(a) + SumCredit(b)
    ensures Net(a + b, on) == Net(a, on) + Net(b, on)
  {
    if b == [] {
      assert a + b == a;
    } else {
      assert (a + b)[..|a + b| - 1] == a + b[..|b| - 1];
      SumsOfConcat(a, b[..|b| - 1], on);
    }
  }

  lemma SumsOfOneMore(lines: seq<Line>, l: Line, on: set<AccountId>)
    ensures SumDebit(lines + [l]) == SumDebit(lines) + l.debit
    ensures SumCredit(lines + [l]) == SumCredit(lines) + l.credit
    ensures Net(lines + [l], on) == Net(lines, on) + if l.account in on then l.debit - l.credit else 0
  {
    assert (lines + [l])[..|lines|] == lines;
  }

  lemma SumsOfOne(l: Line, on: set<AccountId>)
    ensures SumDebit([l]) == l.debit && SumCredit([l]) == l.credit
    ensures Net([l], on) == if l.account in on then l.debit - l.credit else 0
  {
    SumsOfOneMore([], l, on);
    assert [] + [l] == [l];
  }

  lemma SumsOfTwo(a: Line, b: Line, on: set<AccountId>)
    ensures SumDebit([a, b]) == a.debit + b.debit
    ensures SumCredit([a, b]) == a.credit + b.credit
    ensures Net([a, b], on) ==
            (if a.account in on then a.debit - a.credit else 0) + (if b.account in on then b.debit - b.credit else 0)
  {
    assert [a, b][..1] == [a] && [a][..0] == [];
    assert SumDebit([a]) == a.debit && SumCredit([a]) == a.credit;
    assert Net([a], on) == if a.account in on then a.debit - a.credit else 0;
  }

  /** Non-empty one-sided lines and, unless they balance already, one line for the difference. */
  lemma BalancedWithTail(lines: seq<Line>, tail: seq<Line>)
    requires lines != [] && (forall l :: l in lines + tail ==> OneSided(l))
    requires SumDebit(lines) + SumCredit(lines) >= |lines| && SumDebit(lines) >= 0 && SumCredit(lines) >= 0
    requires |lines| == 1 ==> SumDebit(lines) != SumCredit(lines)
    requires if SumDebit(lines) == SumCredit(lines) then tail == []
             else |tail| == 1 && tail[0].debit - tail[0].credit == SumCredit(lines) - SumDebit(lines)
    ensures Balanced(lines + tail)
  {
    SumsOfConcat(lines, tail, {});
    if tail != [] {
      SumsOfOneMore([], tail[0], {});
      assert [] + [tail[0]] == tail;
    }
    forall i | 0 <= i < |lines + tail| ensures OneSided((lines + tail)[i]) {
      assert (lines + tail)[i] in lines + tail;
    }
  }

  lemma {:induction false} NetOfUnion(lines: seq<Line>, on: set<AccountId>, other: set<AccountId>)
    requires on !! other
    ensures Net(lines, on + other) == Net(lines, on) + Net(lines, other)
  {
    if lines != [] {
      NetOfUnion(lines[..|lines| - 1], on, other);
    }
  }

  /** Over every account a line list touches, the net is Σdebit − Σcredit. */
  lemma {:induction false} NetOfAll(lines: seq<Line>, on: set<AccountId>)
    requires forall i :: 0 <= i < |lines| ==> lines[i].account in on
    ensures Net(lines, on) == SumDebit(lines) - SumCredit(lines)
  {
    if lines != [] {
      NetOfAll(lines[..|lines| - 1], on);
    }
  }

  /** Net of accounts that do not occur is zero. */
  lemma {:induction false} NetOfNone(lines: seq<Line>, on: set<AccountId>)
    requires forall i :: 0 <= i < |lines| ==> lines[i].account !in on
    ensures Net(lines, on) == 0
  {
    if lines != [] {
      NetOfNone(lines[..|lines| - 1], on);
    }
  }

  lemma {:induction false} SumsAreNonNegative(lines: seq<Line>)
    requires forall i :: 0 <= i < |lines| ==> OneSided(lines[i])
    ensures SumDebit(lines) >= 0 && SumCredit(lines) >= 0
  {
    if lines != [] {
      SumsAreNonNegative(lines[..|lines| - 1]);
    }
  }

  // ─── Balances over the posted moves ─────────────────────────────────

  datatype Window = Window(from: Option<Date>, to: Option<Date>) {
    predicate Has(d: Date) {
      (from.Some? ==> from.value <= d) && (to.Some? ==> d <= to.value)
    }
  }

  /** What one move contributes to the accounts `on` inside a window: nothing unless posted. */
  function Share(m: Move, on: set<AccountId>, w: Window): int {
    if m.stage.Posted? && w.Has(m.date) then Net(m.lines, on) else 0
  }

  function Balance(moves: seq<Move>, on: set<AccountId>, w: Window): int {
    if moves == [] then 0
    else Balance(moves[..|moves| - 1], on, w) + Share(moves[|moves| - 1], on, w)
  }

  lemma {:induction false} BalanceOfConcat(a: seq<Move>, b: seq<Move>, on: set<AccountId>, w: Window)
    ensures Balance(a + b, on, w) == Balance(a, on, w) + Balance(b, on, w)
  {
    if b == [] {
      assert a + b == a;
    } else {
      assert (a + b)[..|a + b| - 1] == a + b[..|b| - 1];
      BalanceOfConcat(a, b[..|b| - 1], on, w);
    }
  }

  lemma {:induction false} BalanceOfUpdate(moves: seq<Move>, i: nat, m: Move, on: set<AccountId>, w: Window)
    requires i < |moves|
    ensures Balance(moves[i := m], on, w) ==
            Balance(moves, on, w) - Share(moves[i], on, w) + Share(m, on, w)
  {
    var n := |moves| - 1;
    if i == n {
      assert moves[i := m][..n] == moves[..n];
    } else {
      assert moves[i := m][..n] == moves[..n][i := m];
      BalanceOfUpdate(moves[..n], i, m, on, w);
    }
  }

  /** Two tables whose moves contribute alike have the same balance. */
  lemma {:induction false} BalanceOfAlike(a: seq<Move>, b: seq<Move>, on: set<AccountId>, w: Window)
    requires |a| == |b|
    requires forall i :: 0 <= i < |a| ==> Share(a[i], on, w) == Share(b[i], on, w)
    ensures Balance(a, on, w) == Balance(b, on, w)
  {
    if a != [] {
      BalanceOfAlike(a[..|a| - 1], b[..|b| - 1], on, w);
    }
  }

  lemma {:induction false} BalanceOfNothing(moves: seq<Move>, on: set<AccountId>, w: Window)
    requires forall i :: 0 <= i < |moves| ==> Share(moves[i], on, w) == 0
    ensures Balance(moves, on, w) == 0
  {
    if moves != [] {
      BalanceOfNothing(moves[..|moves| - 1], on, w);
    }
  }

  lemma {:induction false} BalanceOfUnion(moves: seq<Move>, on: set<AccountId>, other: set<AccountId>, w: Window)
    requires on !! other
    ensures Balance(moves, on + other, w) == Balance(moves, on, w) + Balance(moves, other, w)
  {
    if moves != [] {
      BalanceOfUnion(moves[..|moves| - 1], on, other, w);
      NetOfUnion(moves[|moves| - 1].lines, on, other);
    }
  }

  // ─── Settled amounts ────────────────────────────────────────────────

  /** Σ of the reconciliations on a GL line, on either side. */
  function Settled(recs: seq<Reconcile>, line: LineRef): int {
    if recs == [] then 0
    else
      var r := recs[|recs| - 1];
      Settled(recs[..|recs| - 1], line) + if r.debit == line || r.credit == line then r.amount else 0
  }

  /** The same in document currency. */
  function SettledCurrency(recs: seq<Reconcile>, line: LineRef): int {
    if recs == [] then 0
    else
      var r := recs[|recs| - 1];
      SettledCurrency(recs[..|recs| - 1], line) + if r.debit == line || r.credit == line then r.currency else 0
  }

  lemma {:induction false} SettledOfConcat(a: seq<Reconcile>, b: seq<Reconcile>, line: LineRef)
    ensures Settled(a + b, line) == Settled(a, line) + Settled(b, line)
    ensures SettledCurrency(a + b, line) == SettledCurrency(a, line) + SettledCurrency(b, line)
  {
    if b == [] {
      assert a + b == a;
    } else {
      assert (a + b)[..|a + b| - 1] == a + b[..|b| - 1];
      SettledOfConcat(a, b[..|b| - 1], line);
    }
  }

  /** One more row settles its two lines and no other. */
  lemma SettledOfOneMore(recs: seq<Reconcile>, r: Reconcile, line: LineRef)
    ensures Settled(recs + [r], line) ==
            Settled(recs, line) + if r.debit == line || r.credit == line then r.amount else 0
    ensures SettledCurrency(recs + [r], line) ==
            SettledCurrency(recs, line) + if r.debit == line || r.credit == line then r.currency else 0
  {
    assert (recs + [r])[..|recs|] == recs;
  }

  lemma {:induction false} SettledUntouched(recs: seq<Reconcile>, line: LineRef)
    requires forall r :: r in recs ==> r.debit != line && r.credit != line
    ensures Settled(recs, line) == 0 && SettledCurrency(recs, line) == 0
  {
    if recs != [] {
      assert recs[|recs| - 1] in recs;
      SettledUntouched(recs[..|recs| - 1], line);
    }
  }

  lemma {:induction false} SettledNonNegative(recs: seq<Reconcile>, line: LineRef)
    requires forall r :: r in recs ==> r.amount > 0
    ensures Settled(recs, line) >= 0
  {
    if recs != [] {
      assert recs[|recs| - 1] in recs;
      SettledNonNegative(recs[..|recs| - 1], line);
    }
  }
}
