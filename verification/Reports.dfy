/** The arithmetic of the statements (`reports.rs`): cash-flow tie-out, balance-sheet check, ageing columns. */
module Reports {
  import opened Wrappers
  import opened Ledger
  import opened ServiceModel
  import opened ClosingModel
  import opened YearEnd
  import opened Invariant

  // ─── Balances by account type ───────────────────────────────────────

  function OfKinds(c: Chart, kinds: set<AccountType>): set<AccountId> {
    set a: nat | a < |c.accounts| && c.accounts[a].kind in kinds
  }

  /** Debit-positive movement of all accounts of some types. */
  function Delta(c: Chart, moves: seq<Move>, kinds: set<AccountType>, w: Window): int {
    Balance(moves, OfKinds(c, kinds), w)
  }

  lemma DeltaOfUnion(c: Chart, moves: seq<Move>, a: set<AccountType>, b: set<AccountType>, w: Window)
    requires a !! b
    ensures Delta(c, moves, a + b, w) == Delta(c, moves, a, w) + Delta(c, moves, b, w)
  {
    assert OfKinds(c, a + b) == OfKinds(c, a) + OfKinds(c, b);
    BalanceOfUnion(moves, OfKinds(c, a), OfKinds(c, b), w);
  }

  /** Posted moves balance and post to accounts of the chart. */
  ghost predicate Sound(c: Chart, moves: seq<Move>) {
    forall i :: 0 <= i < |moves| && moves[i].stage.Posted? ==> Balanced(moves[i].lines) && RowsAccepted(c, moves[i].lines)
  }

  const EVERY: set<AccountType> :=
    {AssetCash, AssetBank, AssetReceivable, AssetCurrent, AssetFixed, AssetNonCurrent, LiabilityPayable, LiabilityCurrent,
     LiabilityNonCurrent, Equity, Income, IncomeOther, Expense, ExpenseDepreciation, ExpenseDirectCost}

  lemma EveryKind(k: AccountType)
    ensures k in EVERY
  {
    if k.AssetCash? || k.AssetBank? || k.AssetReceivable? || k.AssetCurrent? || k.AssetFixed? || k.AssetNonCurrent? {
    } else if k.LiabilityPayable? || k.LiabilityCurrent? || k.LiabilityNonCurrent? || k.Equity? {
    } else if k.Income? || k.IncomeOther? {
    }
  }

  /** The typed chart: every account has one of the fifteen types. */
  function AllAccounts(c: Chart): set<AccountId> {
    OfKinds(c, EVERY)
  }

  lemma AllAreThere(c: Chart, a: AccountId)
    requires a < |c.accounts|
    ensures a in AllAccounts(c)
  {
    EveryKind(c.accounts[a].kind);
  }

  /** Over the whole chart the books sum to zero, in every window. */
  lemma {:induction false} BooksSumToZero(c: Chart, moves: seq<Move>, w: Window)
    requires Sound(c, moves)
    ensures Balance(moves, AllAccounts(c), w) == 0
  {
    if moves != [] {
      var rest, m := moves[..|moves| - 1], moves[|moves| - 1];
      BooksSumToZero(c, rest, w);
      if m.stage.Posted? {
        forall i | 0 <= i < |m.lines| ensures m.lines[i].account in AllAccounts(c) {
          assert RowAccepted(c, m.lines[i]);
          AllAreThere(c, m.lines[i].account);
        }
        NetOfAll(m.lines, AllAccounts(c));
      }
    }
  }

  const CASH: set<AccountType> := {AssetCash, AssetBank}
  const PL: set<AccountType> := {Income, IncomeOther, Expense, ExpenseDepreciation, ExpenseDirectCost}

  // ─── Statement of cash flows ────────────────────────────────────────

  datatype CashFlow = CashFlow(operating: int, investing: int, financing: int) {
    function Net(): int { operating + investing + financing }
  }

  /** The indirect method as the report computes it. */
  function CashFlowOf(c: Chart, moves: seq<Move>, w: Window): CashFlow {
    var profit := PeriodProfit(c, moves, w);
    var addBack := Delta(c, moves, {ExpenseDepreciation}, w);
    var operating := profit + addBack - Delta(c, moves, {AssetReceivable}, w) - Delta(c, moves, {AssetCurrent}, w)
                     - Delta(c, moves, {LiabilityPayable}, w) - Delta(c, moves, {LiabilityCurrent}, w);
    CashFlow(operating, -Delta(c, moves, {AssetFixed, AssetNonCurrent}, w) - addBack,
             -Delta(c, moves, {Equity}, w) - Delta(c, moves, {LiabilityNonCurrent}, w))
  }

  lemma ProfitIsPl(c: Chart, moves: seq<Move>, w: Window)
    ensures PeriodProfit(c, moves, w) == -Delta(c, moves, PL, w)
  {
    assert PlAccounts(c, |c.accounts|) == OfKinds(c, PL);
  }

  /** The types that are neither cash nor profit and loss, in the report's groups. */
  lemma OtherTypes(c: Chart, moves: seq<Move>, w: Window)
    ensures Delta(c, moves, {AssetReceivable, AssetCurrent, LiabilityPayable, LiabilityCurrent, AssetFixed, AssetNonCurrent,
                             Equity, LiabilityNonCurrent}, w) ==
            Delta(c, moves, {AssetReceivable}, w) + Delta(c, moves, {AssetCurrent}, w) + Delta(c, moves, {LiabilityPayable}, w)
            + Delta(c, moves, {LiabilityCurrent}, w) + Delta(c, moves, {AssetFixed, AssetNonCurrent}, w)
            + Delta(c, moves, {Equity}, w) + Delta(c, moves, {LiabilityNonCurrent}, w)
  {
    hide Delta;
    DeltaOfUnion(c, moves, {AssetReceivable}, {AssetCurrent}, w);
    DeltaOfUnion(c, moves, {LiabilityPayable}, {LiabilityCurrent}, w);
    DeltaOfUnion(c, moves, {Equity}, {LiabilityNonCurrent}, w);
    var x, y := {AssetReceivable} + {AssetCurrent}, {LiabilityPayable} + {LiabilityCurrent};
    var z := {Equity} + {LiabilityNonCurrent};
    DeltaOfUnion(c, moves, x, y, w);
    DeltaOfUnion(c, moves, x + y, {AssetFixed, AssetNonCurrent}, w);
    DeltaOfUnion(c, moves, x + y + {AssetFixed, AssetNonCurrent}, z, w);
    assert x + y + {AssetFixed, AssetNonCurrent} + z ==
           {AssetReceivable, AssetCurrent, LiabilityPayable, LiabilityCurrent, AssetFixed, AssetNonCurrent, Equity, LiabilityNonCurrent};
  }

  /** The three sections add up to the movement of cash and bank, for any sound books and any window. */
  lemma CashFlowTiesOut(c: Chart, moves: seq<Move>, w: Window)
    requires Sound(c, moves)
    ensures CashFlowOf(c, moves, w).Net() == Delta(c, moves, CASH, w)
  {
    BooksSumToZero(c, moves, w);
    ProfitIsPl(c, moves, w);
    OtherTypes(c, moves, w);
    var others: set<AccountType> := {AssetReceivable, AssetCurrent, LiabilityPayable, LiabilityCurrent, AssetFixed, AssetNonCurrent,
                                     Equity, LiabilityNonCurrent};
    DeltaOfUnion(c, moves, CASH, PL, w);
    DeltaOfUnion(c, moves, CASH + PL, others, w);
    assert CASH + PL + others == EVERY;
  }

  // What the sections mean, by account types. Depreciation is added back to the profit and taken off the
  // investing section, so its expense counts there.
  const OPERATING: set<AccountType> :=
    {Income, IncomeOther, Expense, ExpenseDirectCost, AssetReceivable, AssetCurrent, LiabilityPayable, LiabilityCurrent}
  const INVESTING: set<AccountType> := {AssetFixed, AssetNonCurrent, ExpenseDepreciation}
  const FINANCING: set<AccountType> := {Equity, LiabilityNonCurrent}

  lemma SectionsByType(c: Chart, moves: seq<Move>, w: Window)
    ensures CashFlowOf(c, moves, w) == CashFlow(-Delta(c, moves, OPERATING, w), -Delta(c, moves, INVESTING, w), -Delta(c, moves, FINANCING, w))
  {
    hide Delta;
    ProfitIsPl(c, moves, w);
    var earning: set<AccountType> := {Income, IncomeOther, Expense, ExpenseDirectCost};
    DeltaOfUnion(c, moves, earning, {ExpenseDepreciation}, w);
    assert earning + {ExpenseDepreciation} == PL;
    DeltaOfUnion(c, moves, {AssetReceivable}, {AssetCurrent}, w);
    DeltaOfUnion(c, moves, {LiabilityPayable}, {LiabilityCurrent}, w);
    var x: set<AccountType>, y: set<AccountType> := {AssetReceivable} + {AssetCurrent}, {LiabilityPayable} + {LiabilityCurrent};
    DeltaOfUnion(c, moves, earning, x, w);
    DeltaOfUnion(c, moves, earning + x, y, w);
    assert earning + x + y == OPERATING;
    DeltaOfUnion(c, moves, {AssetFixed, AssetNonCurrent}, {ExpenseDepreciation}, w);
    assert {AssetFixed, AssetNonCurrent} + {ExpenseDepreciation} == INVESTING;
    DeltaOfUnion(c, moves, {Equity}, {LiabilityNonCurrent}, w);
    assert {Equity} + {LiabilityNonCurrent} == FINANCING;
  }

  /** An entry whose lines are all on cash accounts or on accounts of some types. */
  ghost predicate CashAgainst(c: Chart, m: Move, kinds: set<AccountType>) {
    && m.stage.Posted? && SumDebit(m.lines) == SumCredit(m.lines)
    && forall i :: 0 <= i < |m.lines| ==> m.lines[i].account < |c.accounts| && c.accounts[m.lines[i].account].kind in CASH + kinds
  }

  /** What such an entry moves on cash it moves on the other accounts, and nowhere else. */
  lemma CashAgainstMoves(c: Chart, m: Move, kinds: set<AccountType>, other: set<AccountType>)
    requires CashAgainst(c, m, kinds) && kinds !! CASH && other !! CASH + kinds
    ensures Net(m.lines, OfKinds(c, kinds)) == -Net(m.lines, OfKinds(c, CASH)) && Net(m.lines, OfKinds(c, other)) == 0
  {
    var cash, own, others := OfKinds(c, CASH), OfKinds(c, kinds), OfKinds(c, other);
    NetOfUnion(m.lines, cash, own);
    NetOfAll(m.lines, cash + own);
    NetOfNone(m.lines, others);
  }

  lemma DeltaOfOneMore(c: Chart, moves: seq<Move>, m: Move, kinds: set<AccountType>, w: Window)
    requires m.stage.Posted? && w.Has(m.date)
    ensures Delta(c, moves + [m], kinds, w) == Delta(c, moves, kinds, w) + Net(m.lines, OfKinds(c, kinds))
  {
    BalanceWithRow(moves, m, OfKinds(c, kinds), w);
  }

  /**
   Each section shows the cash that its own accounts brought in. One more entry between cash and operating
   accounts (profit and loss but depreciation, receivables and payables, other current items) changes the
   operating section by exactly the cash it moved, one between cash and fixed or non-current assets the
   investing section, one between cash and equity or non-current liabilities the financing section; the
   other two sections stay.
   */
  lemma CashShowsInItsSection(c: Chart, moves: seq<Move>, m: Move, w: Window)
    requires w.Has(m.date) && m.stage.Posted?
    ensures var before, after, cash := CashFlowOf(c, moves, w), CashFlowOf(c, moves + [m], w), Net(m.lines, OfKinds(c, CASH));
            && (CashAgainst(c, m, {Income, IncomeOther, Expense, ExpenseDirectCost, AssetReceivable, AssetCurrent, LiabilityPayable, LiabilityCurrent}) ==>
                  after == before.(operating := before.operating + cash))
            && (CashAgainst(c, m, {AssetFixed, AssetNonCurrent}) ==> after == before.(investing := before.investing + cash))
            && (CashAgainst(c, m, {Equity, LiabilityNonCurrent}) ==> after == before.(financing := before.financing + cash))
  {
    hide CashFlowOf, Net, OfKinds, CashAgainst;
    SectionsAfter(c, moves, m, w);
    if CashAgainst(c, m, OPERATING) {
      CashAgainstMoves(c, m, OPERATING, INVESTING);
      CashAgainstMoves(c, m, OPERATING, FINANCING);
    }
    if CashAgainst(c, m, {AssetFixed, AssetNonCurrent}) {
      MoreKinds(c, m, {AssetFixed, AssetNonCurrent}, INVESTING);
      CashAgainstMoves(c, m, INVESTING, OPERATING);
      CashAgainstMoves(c, m, INVESTING, FINANCING);
    }
    if CashAgainst(c, m, FINANCING) {
      CashAgainstMoves(c, m, FINANCING, OPERATING);
      CashAgainstMoves(c, m, FINANCING, INVESTING);
    }
  }

  lemma MoreKinds(c: Chart, m: Move, kinds: set<AccountType>, more: set<AccountType>)
    requires CashAgainst(c, m, kinds) && kinds <= more
    ensures CashAgainst(c, m, more)
  {
  }

  lemma SectionsAfter(c: Chart, moves: seq<Move>, m: Move, w: Window)
    requires w.Has(m.date) && m.stage.Posted?
    ensures var before := CashFlowOf(c, moves, w);
            CashFlowOf(c, moves + [m], w) ==
            CashFlow(before.operating - Net(m.lines, OfKinds(c, OPERATING)), before.investing - Net(m.lines, OfKinds(c, INVESTING)),
                     before.financing - Net(m.lines, OfKinds(c, FINANCING)))
  {
    hide CashFlowOf, Delta, Net, OfKinds;
    SectionsByType(c, moves, w);
    SectionsByType(c, moves + [m], w);
    DeltaOfOneMore(c, moves, m, OPERATING, w);
    DeltaOfOneMore(c, moves, m, INVESTING, w);
    DeltaOfOneMore(c, moves, m, FINANCING, w);
  }

  /** Depreciation moves no cash: an entry between depreciation expense and fixed assets changes no section. */
  lemma DepreciationShowsNowhere(c: Chart, moves: seq<Move>, m: Move, w: Window)
    requires m.stage.Posted? && SumDebit(m.lines) == SumCredit(m.lines)
    requires forall i :: 0 <= i < |m.lines| ==>
               m.lines[i].account < |c.accounts| && c.accounts[m.lines[i].account].kind in {ExpenseDepreciation, AssetFixed, AssetNonCurrent}
    ensures CashFlowOf(c, moves + [m], w) == CashFlowOf(c, moves, w)
  {
    hide CashFlowOf, Net;
    if w.Has(m.date) {
      SectionsAfter(c, moves, m, w);
      NetOfAll(m.lines, OfKinds(c, INVESTING));
      NetOfNone(m.lines, OfKinds(c, OPERATING));
      NetOfNone(m.lines, OfKinds(c, FINANCING));
    } else {
      OnlyTheWindowShows(c, moves, m, w);
    }
  }

  /** An entry outside the window, and one that is not posted, changes no section; without entries all are zero. */
  lemma OnlyTheWindowShows(c: Chart, moves: seq<Move>, m: Move, w: Window)
    ensures !m.stage.Posted? || !w.Has(m.date) ==> CashFlowOf(c, moves + [m], w) == CashFlowOf(c, moves, w)
    ensures CashFlowOf(c, [], w) == CashFlow(0, 0, 0)
  {
    SectionsByType(c, moves, w);
    SectionsByType(c, moves + [m], w);
    BalanceWithRow(moves, m, OfKinds(c, OPERATING), w);
    BalanceWithRow(moves, m, OfKinds(c, INVESTING), w);
    BalanceWithRow(moves, m, OfKinds(c, FINANCING), w);
  }

  // ─── Balance sheet ──────────────────────────────────────────────────

  /** A statement section: the balances of its active accounts, among the first `n`, added up one by one. */
  function Section(c: Chart, moves: seq<Move>, kinds: set<AccountType>, active: set<AccountId>, w: Window, n: nat): int
    requires n <= |c.accounts|
  {
    if n == 0 then 0
    else
      Section(c, moves, kinds, active, w, n - 1) +
      if c.accounts[n - 1].kind in kinds && n - 1 in active then Balance(moves, {n - 1}, w) else 0
  }

  /** The active accounts of some types among the first `n`. */
  function Shown(c: Chart, kinds: set<AccountType>, active: set<AccountId>, n: nat): set<AccountId>
    requires n <= |c.accounts|
  {
    set a: nat | a < n && c.accounts[a].kind in kinds && a in active
  }

  lemma {:induction false} SectionIsBalance(c: Chart, moves: seq<Move>, kinds: set<AccountType>, active: set<AccountId>, w: Window, n: nat)
    requires n <= |c.accounts|
    ensures Section(c, moves, kinds, active, w, n) ==
            Balance(moves, Shown(c, kinds, active, n), w)
  {
    if n == 0 {
      assert Shown(c, kinds, active, 0) == {};
      BalanceOfNoAccount(moves, w);
    } else {
      SectionIsBalance(c, moves, kinds, active, w, n - 1);
      var before, after := Shown(c, kinds, active, n - 1), Shown(c, kinds, active, n);
      if c.accounts[n - 1].kind in kinds && n - 1 in active {
        assert after == before + {n - 1};
        BalanceOfUnion(moves, before, {n - 1}, w);
      } else {
        assert after == before;
      }
    }
  }

  function SectionOf(c: Chart, moves: seq<Move>, kinds: set<AccountType>, active: set<AccountId>, w: Window): int {
    Section(c, moves, kinds, active, w, |c.accounts|)
  }

  const ASSETS: set<AccountType> := {AssetCash, AssetBank, AssetReceivable, AssetCurrent, AssetFixed, AssetNonCurrent}
  const LIABILITIES: set<AccountType> := {LiabilityPayable, LiabilityCurrent, LiabilityNonCurrent}
  const INCOME: set<AccountType> := {Income, IncomeOther}
  const EXPENSES: set<AccountType> := {Expense, ExpenseDepreciation, ExpenseDirectCost}

  /** The bottom line of the report: assets less liabilities, equity and current earnings. */
  function BalanceSheetCheck(c: Chart, moves: seq<Move>, active: set<AccountId>, to: Option<Date>): int {
    var w := Window(None, to);
    var assets := SectionOf(c, moves, ASSETS, active, w);
    var liabilities, equity := -SectionOf(c, moves, LIABILITIES, active, w), -SectionOf(c, moves, {Equity}, active, w);
    var earnings := -SectionOf(c, moves, INCOME, active, w) - SectionOf(c, moves, EXPENSES, active, w);
    assets - liabilities - equity - earnings
  }

  lemma SectionsJoin(c: Chart, moves: seq<Move>, a: set<AccountType>, b: set<AccountType>, active: set<AccountId>, w: Window)
    requires a !! b
    ensures SectionOf(c, moves, a + b, active, w) == SectionOf(c, moves, a, active, w) + SectionOf(c, moves, b, active, w)
  {
    var n := |c.accounts|;
    SectionIsBalance(c, moves, a, active, w, n);
    SectionIsBalance(c, moves, b, active, w, n);
    SectionIsBalance(c, moves, a + b, active, w, n);
    assert Shown(c, a + b, active, n) == Shown(c, a, active, n) + Shown(c, b, active, n);
    BalanceOfUnion(moves, Shown(c, a, active, n), Shown(c, b, active, n), w);
  }

  /**
   The check is minus what the inactive accounts carry: zero with every account active, and wrong by
   exactly the balance hidden on accounts that were switched off.
   */
  lemma BalanceSheetChecks(c: Chart, moves: seq<Move>, active: set<AccountId>, to: Option<Date>)
    requires Sound(c, moves)
    ensures BalanceSheetCheck(c, moves, active, to) == -Balance(moves, AllAccounts(c) - active, Window(None, to))
    ensures AllAccounts(c) <= active ==> BalanceSheetCheck(c, moves, active, to) == 0
  {
    var w := Window(None, to);
    SectionsJoin(c, moves, ASSETS, LIABILITIES, active, w);
    SectionsJoin(c, moves, ASSETS + LIABILITIES, {Equity}, active, w);
    SectionsJoin(c, moves, ASSETS + LIABILITIES + {Equity}, INCOME, active, w);
    SectionsJoin(c, moves, ASSETS + LIABILITIES + {Equity} + INCOME, EXPENSES, active, w);
    var every := ASSETS + LIABILITIES + {Equity} + INCOME + EXPENSES;
    SectionIsBalance(c, moves, every, active, w, |c.accounts|);
    assert every == EVERY;
    assert Shown(c, every, active, |c.accounts|) == AllAccounts(c) * active;
    assert AllAccounts(c) == AllAccounts(c) * active + (AllAccounts(c) - active);
    BalanceOfUnion(moves, AllAccounts(c) * active, AllAccounts(c) - active, w);
    BooksSumToZero(c, moves, w);
    if AllAccounts(c) <= active {
      assert AllAccounts(c) - active == {};
      BalanceOfNoAccount(moves, w);
    }
  }
}
