/** Year-end close and reopening (`closing.rs`), as functions on the tables. */
module ClosingModel {
  import opened Wrappers
  import opened Ledger
  import opened ServiceModel

  predicate IsPl(k: AccountType) {
    k in {Income, IncomeOther, Expense, ExpenseDepreciation, ExpenseDirectCost}
  }

  predicate IsPlAccount(c: Chart, a: AccountId) {
    a < |c.accounts| && IsPl(c.accounts[a].kind)
  }

  /** The P&L accounts among the first `n`. */
  function PlAccounts(c: Chart, n: nat): set<AccountId> {
    set a: nat | a < n && IsPlAccount(c, a)
  }

  function YearWindow(y: FiscalYear): Window {
    Window(Some(y.from), Some(y.to))
  }

  /** Net profit of a window: income less expenses, so credit less debit over every P&L account. */
  function PeriodProfit(c: Chart, moves: seq<Move>, w: Window): int {
    -Balance(moves, PlAccounts(c, |c.accounts|), w)
  }

  /** The line that zeroes one account. */
  function Flip(a: AccountId, balance: int): Line {
    if balance > 0 then Credit(a, balance) else Debit(a, Abs(balance))
  }

  /** One flip line per P&L account with activity, among the first `n` accounts. */
  function FlipLines(c: Chart, moves: seq<Move>, w: Window, n: nat): seq<Line> {
    if n == 0 then []
    else
      var before := FlipLines(c, moves, w, n - 1);
      var balance := Balance(moves, {n - 1}, w);
      if IsPlAccount(c, n - 1) && balance != 0 then before + [Flip(n - 1, balance)] else before
  }

  /** Debit-positive residual of those accounts. */
  function FlipNet(c: Chart, moves: seq<Move>, w: Window, n: nat): int {
    if n == 0 then 0
    else FlipNet(c, moves, w, n - 1) + if IsPlAccount(c, n - 1) then Balance(moves, {n - 1}, w) else 0
  }

  /** A profit is credited to retained earnings, a loss debited; break-even needs no line. */
  function RetainedLines(retained: AccountId, net: int): seq<Line> {
    if net < 0 then [Credit(retained, Abs(net))] else if net > 0 then [Debit(retained, net)] else []
  }

  function ClosingLines(c: Chart, moves: seq<Move>, w: Window, retained: AccountId): seq<Line> {
    FlipLines(c, moves, w, |c.accounts|) + RetainedLines(retained, FlipNet(c, moves, w, |c.accounts|))
  }

  function ClosingMove(c: Chart, moves: seq<Move>, y: FiscalYear, retained: AccountId): NewMove {
    NewMove("GEN", y.to, Entry, None, FromSen(ClosingLines(c, moves, YearWindow(y), retained)))
  }

  predicate HasDrafts(s: State, w: Window) {
    exists i :: 0 <= i < |s.moves| && s.moves[i].stage.Draft? && w.Has(s.moves[i].date)
  }

  /** The lock never moves back. */
  function AdvancedLock(lock: Option<Date>, to: Date): Option<Date> {
    if lock.Some? then Some(Max(lock.value, to)) else Some(to)
  }

  function MarkClosed(s: State, y: YearId, closing: Option<MoveId>, advance: bool): State {
    if y >= |s.years| then s
    else s.(years := s.years[y := s.years[y].(closed := true, closing := closing)],
       lock := if advance then AdvancedLock(s.lock, s.years[y].to) else s.lock)
  }

  function CloseFiscalYear(c: Chart, s: State, y: YearId, advance: bool): Reply<Option<MoveId>> {
    if y >= |s.years| then Reply(s, Err(NotFound))
    else
      var fy := s.years[y];
      if fy.closed then Reply(s, Err(YearNotOpen))
      else if HasDrafts(s, YearWindow(fy)) then Reply(s, Err(DraftsRemain))
      else if FlipLines(c, s.moves, YearWindow(fy), |c.accounts|) == [] then
        Reply(MarkClosed(s, y, None, advance), Ok(None))
      else
        match c.ByCode("3900")
        case None => Reply(s, Err(NoRetainedEarnings))
        case Some(retained) =>
          var posted := CreateAndPost(c, s, ClosingMove(c, s.moves, fy, retained));
          if posted.result.Err? then Reply(posted.db, Err(posted.result.error))
          else Reply(MarkClosed(posted.db, y, Some(posted.result.value), advance), Ok(Some(posted.result.value)))
  }

  function MarkOpen(s: State, y: YearId): State {
    if y >= |s.years| then s else s.(years := s.years[y := s.years[y].(closed := false, closing := None)])
  }

  /** Reverses the closing entry, if there is one, on the first day of the next year. */
  function ReverseClosing(c: Chart, s: State, fy: FiscalYear): Reply<()> {
    match fy.closing
    case None => Reply(s, Ok(()))
    case Some(id) =>
      var r := ReverseMove(c, s, id, fy.to + 1);
      Reply(r.db, if r.result.Ok? then Ok(()) else Err(r.result.error))
  }

  function ReopenFiscalYear(c: Chart, s: State, y: YearId): Reply<()> {
    if y >= |s.years| then Reply(s, Err(NotFound))
    else if !s.years[y].closed then Reply(s, Err(YearNotClosed))
    else
      var r := ReverseClosing(c, s, s.years[y]);
      if r.result.Err? then r else Reply(MarkOpen(r.db, y), Ok(()))
  }
}
