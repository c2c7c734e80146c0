/** Fiscal years and statements over whole runs: what a close left stands until the year is reopened. */
module YearRuns {
  import opened Wrappers
  import opened Ledger
  import opened ServiceModel
  import opened ClosingModel
  import opened Invariant
  import opened Periods
  import opened PostingKeeps
  import opened YearEnd
  import opened Runs
  import opened Reports

  // ─── The closing entries ────────────────────────────────────────────

  /** The closing entry of a year that is closed with one: posted on the year's last day. */
  ghost predicate ClosingStands(c: Chart, s: State, fy: FiscalYear) {
    fy.closed && fy.closing.Some? ==>
      && fy.closing.value < |s.moves| && OnDay(s.moves[fy.closing.value], fy.to)
      && s.moves[fy.closing.value].journal in c.journals && fy.from <= fy.to
  }

  ghost predicate ClosingsStand(c: Chart, s: State) {
    forall y :: 0 <= y < |s.years| ==> ClosingStands(c, s, s.years[y]) && s.years[y].from < s.years[y].to
  }

  /** Which closed years a call can leave: those that were closed, and the one it closes. */
  lemma ClosedYears(c: Chart, s: State, call: Call)
    requires Inv(c, s) && c.ControlAccountsOk() && Admissible(c, s, call) && ClosingsStand(c, s)
    ensures var t := Exec(c, s, call);
            forall y :: 0 <= y < |t.years| ==>
              && t.years[y].from < t.years[y].to
              && (t.years[y].closed ==>
                    (y < |s.years| && t.years[y] == s.years[y]) ||
                    (call.CloseYear? && call.year == y && y < |s.years| && CloseFiscalYear(c, s, y, call.advance).result.Ok?))
  {
    hide Inv, CloseFiscalYear, ReopenFiscalYear, Guarded;
    if SetsPeriods(call) {
      PeriodCallYears(c, s, call);
    } else {
      hide Exec, Admissible;
      CallIsGuarded(c, s, call);
      GuardedPeriods(s, Exec(c, s, call));
    }
  }

  lemma PeriodCallYears(c: Chart, s: State, call: Call)
    requires Inv(c, s) && SetsPeriods(call) && Admissible(c, s, call) && ClosingsStand(c, s)
    ensures var t := Exec(c, s, call);
            forall y :: 0 <= y < |t.years| ==>
              && t.years[y].from < t.years[y].to
              && (t.years[y].closed ==>
                    (y < |s.years| && t.years[y] == s.years[y]) ||
                    (call.CloseYear? && call.year == y && y < |s.years| && CloseFiscalYear(c, s, y, call.advance).result.Ok?))
  {
    hide Inv, CloseFiscalYear, ReopenFiscalYear, ClosingStands;
    if call.CloseYear? {
      YearsAfterClose(c, s, call.year, call.advance);
    } else if call.ReopenYear? {
      YearsAfterReopen(c, s, call.year);
    }
  }

  lemma YearsAfterClose(c: Chart, s: State, y: YearId, advance: bool)
    requires Inv(c, s)
    ensures var r := CloseFiscalYear(c, s, y, advance);
            && |r.db.years| == |s.years|
            && (forall i :: 0 <= i < |s.years| ==> r.db.years[i].from == s.years[i].from && r.db.years[i].to == s.years[i].to)
            && (forall i :: 0 <= i < |s.years| && (i != y || r.result.Err?) ==> r.db.years[i] == s.years[i])
  {
    hide InvExcept, FlipLines, Balanced;
    if y < |s.years| && c.ByCode("3900").Some? {
      var entry := ClosingMove(c, s.moves, s.years[y], c.ByCode("3900").value);
      CreateAndPostKeeps(c, s, entry, {});
      hide CreateAndPost;
      GuardedPeriods(s, CreateAndPost(c, s, entry).db);
    }
  }

  lemma YearsAfterReopen(c: Chart, s: State, y: YearId)
    requires Inv(c, s)
    ensures var t := ReopenFiscalYear(c, s, y).db;
            && |t.years| == |s.years|
            && (forall i :: 0 <= i < |s.years| ==> t.years[i].from == s.years[i].from && t.years[i].to == s.years[i].to)
            && (forall i :: 0 <= i < |s.years| && t.years[i].closed ==> t.years[i] == s.years[i])
  {
    if y < |s.years| && s.years[y].closed {
      ReverseClosingKeeps(c, s, s.years[y]);
      hide InvExcept, ReverseClosing;
      GuardedPeriods(s, ReverseClosing(c, s, s.years[y]).db);
    }
  }

  /** A year just closed stands on the entry just posted. */
  lemma NewClosingStands(c: Chart, s: State, y: YearId, advance: bool)
    requires CloseFiscalYear(c, s, y, advance).result.Ok? && y < |s.years| && s.years[y].from < s.years[y].to
    ensures var t := CloseFiscalYear(c, s, y, advance).db;
            y < |t.years| && ClosingStands(c, t, t.years[y])
  {
    hide ClosingLines, ClosingMove, FlipLines, Balanced;
    CloseEffect(c, s, y, advance);
    hide CloseFiscalYear;
  }

  lemma CallKeepsClosings(c: Chart, s: State, call: Call)
    requires Inv(c, s) && c.ControlAccountsOk() && Admissible(c, s, call) && ClosingsStand(c, s)
    ensures ClosingsStand(c, Exec(c, s, call))
  {
    hide Inv, CloseFiscalYear, Frozen;
    CallKeeps(c, s, call);
    ClosedYears(c, s, call);
    var t := Exec(c, s, call);
    forall y | 0 <= y < |t.years| ensures ClosingStands(c, t, t.years[y]) {
      if t.years[y].closed {
        if y < |s.years| && t.years[y] == s.years[y] {
          assert ClosingStands(c, s, s.years[y]);
          ClosedDayIsFrozen(s, y);
          assert DayKept(s.moves, t.moves, s.years[y].to);
        } else {
          NewClosingStands(c, s, y, call.advance);
        }
      }
    }
  }

  lemma ClosedDayIsFrozen(s: State, y: YearId)
    requires y < |s.years| && s.years[y].closed && s.years[y].from < s.years[y].to
    ensures Frozen(s, s.years[y].to)
  {
  }

  /** Whatever is done in between, the entry that closed a year stays on the books. */
  lemma {:induction false} ClosingsAlwaysStand(c: Chart, s: State, calls: seq<Call>, n: nat)
    requires Inv(c, s) && c.ControlAccountsOk() && AdmissibleRun(c, s, calls) && ClosingsStand(c, s) && n <= |calls|
    ensures ClosingsStand(c, After(c, s, calls, n))
  {
    hide Inv, Exec, Admissible, ClosingsStand;
    if n > 0 {
      ClosingsAlwaysStand(c, s, calls, n - 1);
      BooksAlwaysSound(c, s, calls, n - 1);
      CallKeepsClosings(c, After(c, s, calls, n - 1), calls[n - 1]);
    }
  }

  // ─── Reopening ──────────────────────────────────────────────────────

  /**
   In every state that service calls reach, a closed year reopens exactly when it was closed without an
   entry or the day after its end is open.
   */
  lemma ReopenSucceedsWhen(c: Chart, s: State, calls: seq<Call>, n: nat, y: YearId)
    requires Inv(c, s) && c.ControlAccountsOk() && AdmissibleRun(c, s, calls) && ClosingsStand(c, s) && n <= |calls|
    requires y < |After(c, s, calls, n).years| && After(c, s, calls, n).years[y].closed
    ensures ReopensUnlessFrozen(c, After(c, s, calls, n), y)
  {
    hide After, AdmissibleRun, Inv, ClosingsStand, ReopensUnlessFrozen;
    BooksAlwaysSound(c, s, calls, n);
    ClosingsAlwaysStand(c, s, calls, n);
    StandingClosingReopens(c, After(c, s, calls, n), y);
  }

  ghost predicate ReopensUnlessFrozen(c: Chart, t: State, y: YearId)
    requires y < |t.years|
  {
    ReopenFiscalYear(c, t, y).result.Ok? <==> t.years[y].closing.None? || !Frozen(t, t.years[y].to + 1)
  }

  lemma StandingClosingReopens(c: Chart, t: State, y: YearId)
    requires Inv(c, t) && ClosingsStand(c, t) && y < |t.years| && t.years[y].closed
    ensures ReopensUnlessFrozen(c, t, y)
  {
    if t.years[y].closing.Some? {
      assert ClosingStands(c, t, t.years[y]);
      hide Inv, ReopenFiscalYear, Frozen;
      StandingEntryReverses(c, t, y);
    }
  }

  /** What reopening a year does to a cumulative balance from the day after its end on. */
  lemma ReopenTakesOff(c: Chart, t: State, y: YearId, on: set<AccountId>, to: Date)
    requires Inv(c, t) && ClosingsStand(c, t) && ReopenFiscalYear(c, t, y).result.Ok?
    requires y < |t.years| && to > t.years[y].to
    ensures t.years[y].closed && (t.years[y].closing.Some? ==> t.years[y].closing.value < |t.moves|)
    ensures Balance(ReopenFiscalYear(c, t, y).db.moves, on, Window(None, Some(to))) ==
            Balance(t.moves, on, Window(None, Some(to))) -
            if t.years[y].closing.Some? then Net(t.moves[t.years[y].closing.value].lines, on) else 0
  {
    hide InvExcept, ReverseMove, Balanced;
    assert ClosingStands(c, t, t.years[y]);
    if t.years[y].closing.Some? {
      ReversalCancels(c, t, t.years[y].closing.value, t.years[y].to + 1, on, Window(None, Some(to)));
    }
  }

  /** What a close adds to a cumulative balance that holds the year end. */
  lemma CloseAdds(c: Chart, s: State, y: YearId, advance: bool, on: set<AccountId>, to: Date)
    requires CloseFiscalYear(c, s, y, advance).result.Ok? && y < |s.years| && to > s.years[y].to
    ensures var t := CloseFiscalYear(c, s, y, advance).db;
            && y < |t.years| && t.years[y].closed && t.years[y].to == s.years[y].to
            && (t.years[y].closing.Some? ==> t.years[y].closing.value < |t.moves|)
            && Balance(t.moves, on, Window(None, Some(to))) ==
               Balance(s.moves, on, Window(None, Some(to))) +
               if t.years[y].closing.Some? then Net(t.moves[t.years[y].closing.value].lines, on) else 0
  {
    CloseEffect(c, s, y, advance);
    hide CloseFiscalYear, ClosingLines, ClosingMove, FlipLines, Balanced;
    var r := CloseFiscalYear(c, s, y, advance);
    if r.result.value.Some? {
      assert r.db.moves == s.moves + [r.db.moves[|s.moves|]];
      BalanceWithRow(s.moves, r.db.moves[|s.moves|], on, Window(None, Some(to)));
    }
  }

  /** The closing entry is the same entry at the end of a run that does not reopen its year. */
  lemma ClosingLinesStay(c: Chart, s: State, calls: seq<Call>, y: YearId)
    requires Inv(c, s) && c.ControlAccountsOk() && AdmissibleRun(c, s, calls) && ClosingsStand(c, s) && NotReopened(calls, y)
    requires y < |s.years| && s.years[y].closed
    ensures var t := After(c, s, calls, |calls|);
            && y < |t.years| && t.years[y] == s.years[y]
            && (s.years[y].closing.Some? ==>
                  && s.years[y].closing.value < |s.moves| <= |t.moves|
                  && SameLines(s.moves[s.years[y].closing.value].lines, t.moves[s.years[y].closing.value].lines))
  {
    hide Inv, After, AdmissibleRun, NotReopened, Frozen, DayKept;
    var t := After(c, s, calls, |calls|);
    YearStaysAsItWas(c, s, calls, |calls|, y);
    assert ClosingStands(c, s, s.years[y]);
    forall k: nat | k < |calls| ensures Frozen(After(c, s, calls, k), s.years[y].to) {
      YearStaysAsItWas(c, s, calls, k, y);
      ClosedDayIsFrozen(After(c, s, calls, k), y);
    }
    FrozenDayStays(c, s, calls, |calls|, s.years[y].to);
    DayOfClosing(s.moves, t.moves, s.years[y].to, s.years[y].closing);
  }

  lemma DayOfClosing(a: seq<Move>, b: seq<Move>, d: Date, id: Option<MoveId>)
    requires DayKept(a, b, d) && (id.Some? ==> id.value < |a| && OnDay(a[id.value], d))
    ensures id.Some? ==> |a| <= |b| && SameLines(a[id.value].lines, b[id.value].lines)
  {
  }

  lemma {:induction false} YearStaysAsItWas(c: Chart, s: State, calls: seq<Call>, n: nat, y: YearId)
    requires Inv(c, s) && c.ControlAccountsOk() && AdmissibleRun(c, s, calls) && ClosingsStand(c, s) && NotReopened(calls, y)
    requires y < |s.years| && s.years[y].closed && n <= |calls|
    ensures y < |After(c, s, calls, n).years| && After(c, s, calls, n).years[y] == s.years[y]
  {
    hide Inv, Exec, Admissible, PeriodsKept, ClosingsStand;
    if n > 0 {
      YearStaysAsItWas(c, s, calls, n - 1, y);
      BooksAlwaysSound(c, s, calls, n - 1);
      OneYearStays(c, After(c, s, calls, n - 1), calls[n - 1], y);
    }
  }

  lemma OneYearStays(c: Chart, s: State, call: Call, y: YearId)
    requires Inv(c, s) && c.ControlAccountsOk() && Admissible(c, s, call)
    requires y < |s.years| && s.years[y].closed && (call.ReopenYear? ==> call.year != y)
    ensures y < |Exec(c, s, call).years| && Exec(c, s, call).years[y] == s.years[y]
  {
    hide Inv, Admissible, ReopenFiscalYear, PeriodsKept;
    CallKeeps(c, s, call);
    if call.ReopenYear? {
      ReopenYearsKept(c, s, call.year);
    } else {
      hide Exec;
    }
  }

  /**
   Close a year, let any run pass that does not reopen it, then reopen it: from the day after the year
   end on, every cumulative balance has lost exactly what the close had added to it. With nothing in
   between it is what it was before the close.
   */
  lemma ReopenRestoresBalances(c: Chart, s: State, y: YearId, advance: bool, calls: seq<Call>, on: set<AccountId>, to: Date)
    requires Inv(c, s) && c.ControlAccountsOk() && ClosingsStand(c, s)
    requires CloseFiscalYear(c, s, y, advance).result.Ok? && y < |s.years| && to > s.years[y].to
    requires AdmissibleRun(c, CloseFiscalYear(c, s, y, advance).db, calls) && NotReopened(calls, y)
    requires ReopenFiscalYear(c, After(c, CloseFiscalYear(c, s, y, advance).db, calls, |calls|), y).result.Ok?
    ensures var closed := CloseFiscalYear(c, s, y, advance).db;
            var later := After(c, closed, calls, |calls|);
            var w := Window(None, Some(to));
            Balance(ReopenFiscalYear(c, later, y).db.moves, on, w) ==
            Balance(later.moves, on, w) - (Balance(closed.moves, on, w) - Balance(s.moves, on, w))
  {
    hide Inv, After, AdmissibleRun, CloseFiscalYear, ReopenFiscalYear, NotReopened, ClosingsStand, Balance;
    var closed := CloseFiscalYear(c, s, y, advance).db;
    var later := After(c, closed, calls, |calls|);
    CloseAdds(c, s, y, advance, on, to);
    CloseIsSound(c, s, y, advance);
    ClosingLinesStay(c, closed, calls, y);
    BooksAlwaysSound(c, closed, calls, |calls|);
    ClosingsAlwaysStand(c, closed, calls, |calls|);
    ReopenTakesOff(c, later, y, on, to);
    if closed.years[y].closing.Some? {
      SumsOfSameLines(closed.moves[closed.years[y].closing.value].lines, later.moves[closed.years[y].closing.value].lines, on);
    }
  }

  lemma CloseIsSound(c: Chart, s: State, y: YearId, advance: bool)
    requires Inv(c, s) && c.ControlAccountsOk() && ClosingsStand(c, s)
    ensures Inv(c, CloseFiscalYear(c, s, y, advance).db) && ClosingsStand(c, CloseFiscalYear(c, s, y, advance).db)
  {
    hide CloseFiscalYear, Inv, ClosingsStand;
    var call := CloseYear(y, advance);
    CallKeeps(c, s, call);
    CallKeepsClosings(c, s, call);
  }

  // ─── Statements ─────────────────────────────────────────────────────

  lemma BooksAreSound(c: Chart, s: State)
    requires Inv(c, s)
    ensures Sound(c, s.moves)
  {
    forall i | 0 <= i < |s.moves| && s.moves[i].stage.Posted? ensures Balanced(s.moves[i].lines) && RowsAccepted(c, s.moves[i].lines) {
      assert RowOk(c, s.recs, i, s.moves[i], false);
    }
  }

  /**
   In every state that service calls reach, the three sections of the cash-flow statement add up to the
   movement of cash and bank, and the balance-sheet check is off by what inactive accounts carry.
   */
  lemma StatementsTieOut(c: Chart, s: State, calls: seq<Call>, n: nat, w: Window, active: set<AccountId>, to: Option<Date>)
    requires Inv(c, s) && c.ControlAccountsOk() && AdmissibleRun(c, s, calls) && n <= |calls|
    ensures var moves := After(c, s, calls, n).moves;
            && CashFlowOf(c, moves, w).Net() == Delta(c, moves, CASH, w)
            && BalanceSheetCheck(c, moves, active, to) == -Balance(moves, AllAccounts(c) - active, Window(None, to))
  {
    hide After, AdmissibleRun, Inv, Sound, CashFlowOf, Delta, BalanceSheetCheck, Balance, AllAccounts;
    BooksAlwaysSound(c, s, calls, n);
    BooksAreSound(c, After(c, s, calls, n));
    CashFlowTiesOut(c, After(c, s, calls, n).moves, w);
    BalanceSheetChecks(c, After(c, s, calls, n).moves, active, to);
  }
}
