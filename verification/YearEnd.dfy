/** What closing and reopening a year do to the balances. */
module YearEnd {
  import opened Wrappers
  import opened Ledger
  import opened ServiceModel
  import opened ClosingModel
  import opened Invariant
  import opened Periods
  import opened PostingKeeps

  // ─── The closing entry ──────────────────────────────────────────────

  lemma {:induction false} FlipShape(c: Chart, moves: seq<Move>, w: Window, n: nat)
    ensures forall l :: l in FlipLines(c, moves, w, n) ==>
              OneSided(l) && !l.reconciled && l.foreign.None? && l.account < n && IsPlAccount(c, l.account)
  {
    if n > 0 {
      FlipShape(c, moves, w, n - 1);
    }
  }

  lemma {:induction false} FlipSums(c: Chart, moves: seq<Move>, w: Window, n: nat)
    ensures var lines := FlipLines(c, moves, w, n);
            && SumDebit(lines) - SumCredit(lines) == -FlipNet(c, moves, w, n)
            && SumDebit(lines) + SumCredit(lines) >= |lines|
            && SumDebit(lines) >= 0 && SumCredit(lines) >= 0
            && (|lines| == 1 ==> FlipNet(c, moves, w, n) != 0)
            && (|lines| == 0 ==> FlipNet(c, moves, w, n) == 0)
  {
    if n > 0 {
      FlipSums(c, moves, w, n - 1);
      hide SumDebit, SumCredit, Balance;
      SumsOfOneMore(FlipLines(c, moves, w, n - 1), Flip(n - 1, Balance(moves, {n - 1}, w)), {});
    }
  }

  /** Whatever the year's activity, break-even included, the closing entry can be posted. */
  lemma ClosingEntryIsBalanced(c: Chart, moves: seq<Move>, w: Window, retained: AccountId)
    requires FlipLines(c, moves, w, |c.accounts|) != []
    ensures Balanced(ClosingLines(c, moves, w, retained)) && FreshLines(ClosingLines(c, moves, w, retained))
    ensures retained < |c.accounts| ==> RowsAccepted(c, ClosingLines(c, moves, w, retained))
  {
    var flips := FlipLines(c, moves, w, |c.accounts|);
    var tail := RetainedLines(retained, FlipNet(c, moves, w, |c.accounts|));
    FlipShape(c, moves, w, |c.accounts|);
    FlipSums(c, moves, w, |c.accounts|);
    BalancedWithTail(flips, tail);
    forall i | 0 <= i < |flips + tail| ensures retained < |c.accounts| ==> RowAccepted(c, (flips + tail)[i]) {
      if i < |flips| {
        assert flips[i] in flips;
      }
    }
  }

  lemma {:induction false} FlipNetOfAccount(c: Chart, moves: seq<Move>, w: Window, n: nat, a: AccountId)
    ensures Net(FlipLines(c, moves, w, n), {a}) == if a < n && IsPlAccount(c, a) then -Balance(moves, {a}, w) else 0
  {
    hide Net, Balance, IsPlAccount;
    if n == 0 {
      NetOfNone([], {a});
    } else {
      FlipNetOfAccount(c, moves, w, n - 1, a);
      SumsOfOneMore(FlipLines(c, moves, w, n - 1), Flip(n - 1, Balance(moves, {n - 1}, w)), {a});
    }
  }

  lemma {:induction false} BalanceOfNoAccount(moves: seq<Move>, w: Window)
    ensures Balance(moves, {}, w) == 0
  {
    if moves != [] {
      BalanceOfNoAccount(moves[..|moves| - 1], w);
      NetOfNone(moves[|moves| - 1].lines, {});
    }
  }

  /** Account by account or all at once: the residual is minus the profit. */
  lemma {:induction false} FlipNetIsPlBalance(c: Chart, moves: seq<Move>, w: Window, n: nat)
    ensures FlipNet(c, moves, w, n) == Balance(moves, PlAccounts(c, n), w)
  {
    if n == 0 {
      assert PlAccounts(c, 0) == {};
      BalanceOfNoAccount(moves, w);
    } else {
      FlipNetIsPlBalance(c, moves, w, n - 1);
      if IsPlAccount(c, n - 1) {
        assert PlAccounts(c, n) == PlAccounts(c, n - 1) + {n - 1};
        BalanceOfUnion(moves, PlAccounts(c, n - 1), {n - 1}, w);
      } else {
        assert PlAccounts(c, n) == PlAccounts(c, n - 1);
      }
    }
  }

  /** What the closing entry moves on each account. */
  lemma ClosingNet(c: Chart, moves: seq<Move>, w: Window, retained: AccountId, a: AccountId)
    requires !IsPlAccount(c, retained)
    ensures Net(ClosingLines(c, moves, w, retained), {a}) ==
            if IsPlAccount(c, a) then -Balance(moves, {a}, w)
            else if a == retained then -PeriodProfit(c, moves, w)
            else 0
  {
    var flips := FlipLines(c, moves, w, |c.accounts|);
    var tail := RetainedLines(retained, FlipNet(c, moves, w, |c.accounts|));
    FlipNetOfAccount(c, moves, w, |c.accounts|, a);
    FlipNetIsPlBalance(c, moves, w, |c.accounts|);
    SumsOfConcat(flips, tail, {a});
    hide Net, Balance, PlAccounts, FlipLines, FlipNet, IsPlAccount;
    NetOfNone([], {a});
    if tail != [] {
      SumsOfOne(tail[0], {a});
    }
  }

  // ─── Closing a year ─────────────────────────────────────────────────

  /** Fiscal years run forward. */
  ghost predicate YearsOk(s: State) {
    forall i :: 0 <= i < |s.years| ==> s.years[i].from < s.years[i].to
  }

  /** The shape of a successful close: at most one posted entry, on the year end, and the flags. */
  lemma CloseEffect(c: Chart, s: State, y: YearId, advance: bool)
    ensures var r := CloseFiscalYear(c, s, y, advance);
            r.result.Ok? ==>
              && y < |s.years| && !s.years[y].closed && !HasDrafts(s, YearWindow(s.years[y]))
              && (r.result.value.None? ==>
                    r.db == MarkClosed(s, y, None, advance) && FlipLines(c, s.moves, YearWindow(s.years[y]), |c.accounts|) == [])
              && (r.result.value.Some? ==>
                    && c.ByCode("3900").Some? && "GEN" in c.journals && r.result.value == Some(|s.moves|)
                    && var lines := ClosingLines(c, s.moves, YearWindow(s.years[y]), c.ByCode("3900").value);
                       var row := NewRow(ClosingMove(c, s.moves, s.years[y], c.ByCode("3900").value), s.nextNumber, SumDebit(lines));
                       && Balanced(lines) && row.lines == lines && row.stage.Posted? && row.date == s.years[y].to && row.journal == "GEN"
                       && r.db == MarkClosed(s.(moves := s.moves + [row], nextNumber := s.nextNumber + 1), y, Some(|s.moves|), advance))
  {
    if y < |s.years| && FlipLines(c, s.moves, YearWindow(s.years[y]), |c.accounts|) != [] && c.ByCode("3900").Some? {
      var retained := c.ByCode("3900").value;
      var lines := ClosingLines(c, s.moves, YearWindow(s.years[y]), retained);
      ClosingEntryIsBalanced(c, s.moves, YearWindow(s.years[y]), retained);
      CreateAndPostEffect(c, s, ClosingMove(c, s.moves, s.years[y], retained), lines);
    }
  }

  lemma BalanceWithRow(moves: seq<Move>, row: Move, on: set<AccountId>, w: Window)
    ensures Balance(moves + [row], on, w) == Balance(moves, on, w) + Share(row, on, w)
  {
    assert (moves + [row])[..|moves|] == moves;
  }

  /** Without flip lines every P&L account is already flat. */
  lemma {:induction false} NoFlipsNoBalance(c: Chart, moves: seq<Move>, w: Window, n: nat, a: AccountId)
    requires FlipLines(c, moves, w, n) == [] && a < n && IsPlAccount(c, a)
    ensures Balance(moves, {a}, w) == 0
  {
    if a < n - 1 {
      NoFlipsNoBalance(c, moves, w, n - 1, a);
    }
  }

  lemma {:induction false} FlatNeedsNoFlips(c: Chart, moves: seq<Move>, w: Window, n: nat)
    requires forall a: AccountId :: a < n && IsPlAccount(c, a) ==> Balance(moves, {a}, w) == 0
    ensures FlipLines(c, moves, w, n) == []
  {
    if n > 0 {
      FlatNeedsNoFlips(c, moves, w, n - 1);
    }
  }

  lemma NoFlipsWhenFlat(c: Chart, moves: seq<Move>, w: Window)
    ensures FlipLines(c, moves, w, |c.accounts|) == [] <==> forall a: AccountId :: IsPlAccount(c, a) ==> Balance(moves, {a}, w) == 0
  {
    hide Balance, FlipLines;
    if FlipLines(c, moves, w, |c.accounts|) == [] {
      forall a: AccountId | IsPlAccount(c, a) ensures Balance(moves, {a}, w) == 0 {
        NoFlipsNoBalance(c, moves, w, |c.accounts|, a);
      }
    }
    if forall a: AccountId :: IsPlAccount(c, a) ==> Balance(moves, {a}, w) == 0 {
      FlatNeedsNoFlips(c, moves, w, |c.accounts|);
    }
  }

  lemma DraftsInside(s: State, fy: FiscalYear)
    ensures HasDrafts(s, YearWindow(fy)) <==>
            exists i :: 0 <= i < |s.moves| && s.moves[i].stage.Draft? && fy.from <= s.moves[i].date <= fy.to
  {
  }

  lemma ClosingIsPosted(c: Chart, s: State, fy: FiscalYear, retained: AccountId)
    requires retained < |c.accounts|
    ensures FlipLines(c, s.moves, YearWindow(fy), |c.accounts|) != [] ==>
              (CreateAndPost(c, s, ClosingMove(c, s.moves, fy, retained)).result.Ok? <==> "GEN" in c.journals && !Frozen(s, fy.to))
  {
    hide Balance, FlipLines, CreateAndPost, Frozen;
    if FlipLines(c, s.moves, YearWindow(fy), |c.accounts|) != [] {
      ClosingEntryIsBalanced(c, s.moves, YearWindow(fy), retained);
      CreateAndPostEffect(c, s, ClosingMove(c, s.moves, fy, retained), ClosingLines(c, s.moves, YearWindow(fy), retained));
    }
  }

  /**
   When a year can be closed: it is open, no draft is dated inside it, and either every P&L account is flat
   over it already or journal GEN and account 3900 exist and its last day is open. The closing entry is
   never refused as unbalanced.
   */
  lemma CloseSucceedsWhen(c: Chart, s: State, y: YearId, advance: bool)
    requires y < |s.years|
    ensures var fy := s.years[y];
            CloseFiscalYear(c, s, y, advance).result.Ok? <==>
              && !fy.closed
              && (forall i :: 0 <= i < |s.moves| && s.moves[i].stage.Draft? ==> !(fy.from <= s.moves[i].date <= fy.to))
              && ((forall a: AccountId :: IsPlAccount(c, a) ==> Balance(s.moves, {a}, Window(Some(fy.from), Some(fy.to))) == 0) ||
                  ("GEN" in c.journals && c.ByCode("3900").Some? && !Frozen(s, fy.to)))
  {
    var fy := s.years[y];
    hide Balance, FlipLines, ClosingMove, CreateAndPost, Frozen, HasDrafts, IsPlAccount;
    NoFlipsWhenFlat(c, s.moves, YearWindow(fy));
    DraftsInside(s, fy);
    if c.ByCode("3900").Some? {
      ClosingIsPosted(c, s, fy, c.ByCode("3900").value);
    }
  }

  /** The closing entry's effect on any account in any window. */
  lemma ClosingBalance(c: Chart, s: State, y: YearId, advance: bool, a: AccountId, w: Window)
    requires YearsOk(s) && CloseFiscalYear(c, s, y, advance).result.Ok?
    requires c.ByCode("3900").Some? ==> !IsPlAccount(c, c.ByCode("3900").value)
    ensures var year := YearWindow(s.years[y]);
            Balance(CloseFiscalYear(c, s, y, advance).db.moves, {a}, w) ==
            Balance(s.moves, {a}, w) -
            (if !w.Has(s.years[y].to) then 0
             else if IsPlAccount(c, a) then Balance(s.moves, {a}, year)
             else if Some(a) == c.ByCode("3900") then PeriodProfit(c, s.moves, year)
             else 0)
  {
    CloseEffect(c, s, y, advance);
    hide CloseFiscalYear, ClosingMove;
    var r := CloseFiscalYear(c, s, y, advance);
    var year := YearWindow(s.years[y]);
    if r.result.value.None? {
      FlipSums(c, s.moves, year, |c.accounts|);
      FlipNetIsPlBalance(c, s.moves, year, |c.accounts|);
      if IsPlAccount(c, a) {
        NoFlipsNoBalance(c, s.moves, year, |c.accounts|, a);
      }
    } else {
      var row := r.db.moves[|s.moves|];
      assert r.db.moves == s.moves + [row];
      BalanceWithRow(s.moves, row, {a}, w);
      ClosingNet(c, s.moves, year, c.ByCode("3900").value, a);
    }
  }

  /**
   Year-end close. Afterwards every P&L account is flat over the year, retained earnings have moved
   by exactly the profit of the year in every window that holds the year end, every other account is
   untouched in every window, the year is closed and the lock has not moved back.
   */
  lemma CloseMovesProfitToRetained(c: Chart, s: State, y: YearId, advance: bool)
    requires YearsOk(s) && CloseFiscalYear(c, s, y, advance).result.Ok?
    requires c.ByCode("3900").Some? ==> !IsPlAccount(c, c.ByCode("3900").value)
    ensures var t := CloseFiscalYear(c, s, y, advance).db;
            var year := YearWindow(s.years[y]);
            && (forall a :: IsPlAccount(c, a) ==> Balance(t.moves, {a}, year) == 0)
            && (forall a, w: Window :: !IsPlAccount(c, a) && Some(a) != c.ByCode("3900") ==>
                  Balance(t.moves, {a}, w) == Balance(s.moves, {a}, w))
            && (forall w: Window :: c.ByCode("3900").Some? && w.Has(s.years[y].to) ==>
                  Balance(t.moves, {c.ByCode("3900").value}, w) ==
                  Balance(s.moves, {c.ByCode("3900").value}, w) - PeriodProfit(c, s.moves, year))
            && (forall d :: Locked(s, d) ==> Locked(t, d)) && (advance ==> Locked(t, s.years[y].to))
            && t.years[y].closed
  {
    CloseEffect(c, s, y, advance);
    hide CloseFiscalYear, PeriodProfit;
    var t := CloseFiscalYear(c, s, y, advance).db;
    var year := YearWindow(s.years[y]);
    forall a | IsPlAccount(c, a) ensures Balance(t.moves, {a}, year) == 0 {
      ClosingBalance(c, s, y, advance, a, year);
    }
    forall a, w: Window | !IsPlAccount(c, a) && Some(a) != c.ByCode("3900")
      ensures Balance(t.moves, {a}, w) == Balance(s.moves, {a}, w)
    {
      ClosingBalance(c, s, y, advance, a, w);
    }
    forall w: Window | c.ByCode("3900").Some? && w.Has(s.years[y].to)
      ensures Balance(t.moves, {c.ByCode("3900").value}, w) ==
              Balance(s.moves, {c.ByCode("3900").value}, w) - PeriodProfit(c, s.moves, year)
    {
      ClosingBalance(c, s, y, advance, c.ByCode("3900").value, w);
    }
  }

  // ─── Reopening ──────────────────────────────────────────────────────

  /** A reversal cancels its original in every window that holds both dates. */
  lemma ReversalCancels(c: Chart, s: State, id: MoveId, date: Date, on: set<AccountId>, w: Window)
    requires Inv(c, s) && ReverseMove(c, s, id, date).result.Ok?
    ensures id < |s.moves| && s.moves[id].stage.Posted?
    ensures Balance(ReverseMove(c, s, id, date).db.moves, on, w) ==
            Balance(s.moves, on, w) - if w.Has(date) then Net(s.moves[id].lines, on) else 0
  {
    hide InvExcept;
    var m := s.moves[id];
    PostedIsBalanced(c, s, {}, id);
    ReverseMoveEffect(c, s, id, date);
    var row := ReverseMove(c, s, id, date).db.moves[|s.moves|];
    var marked := s.moves[id := m.(paymentState := Reversed)];
    assert ReverseMove(c, s, id, date).db.moves == marked + [row];
    BalanceWithRow(marked, row, on, w);
    BalanceOfUpdate(s.moves, id, m.(paymentState := Reversed), on, w);
    SwappedSums(m.lines, on);
  }

  /** Once the closing entry stands, only the day it is reversed on can stop a reopening. */
  lemma StandingEntryReverses(c: Chart, s: State, y: YearId)
    requires Inv(c, s) && y < |s.years| && s.years[y].closed && s.years[y].closing.Some?
    requires s.years[y].closing.value < |s.moves| && s.moves[s.years[y].closing.value].stage.Posted?
    requires s.moves[s.years[y].closing.value].journal in c.journals
    ensures ReopenFiscalYear(c, s, y).result.Ok? <==> !Frozen(s, s.years[y].to + 1)
  {
    hide Inv, ReverseMove, Frozen;
    PostedReverses(c, s, s.years[y].closing.value, s.years[y].to + 1);
  }

  lemma PostedReverses(c: Chart, s: State, id: MoveId, date: Date)
    requires Inv(c, s) && id < |s.moves| && s.moves[id].stage.Posted? && s.moves[id].journal in c.journals
    ensures ReverseMove(c, s, id, date).result.Ok? <==> !Frozen(s, date)
  {
    hide InvExcept, ReverseMove, Balanced, RowsAccepted, Frozen;
    PostedIsBalanced(c, s, {}, id);
    RowsAreAccepted(c, s, {}, id);
    ReverseMoveEffect(c, s, id, date);
  }

  // ─── Preservation ───────────────────────────────────────────────────

  /** Flags and lock are not part of the invariant. */
  lemma PeriodsDoNotMatter(c: Chart, s: State, t: State, stale: set<MoveId>)
    requires InvExcept(c, s, stale) && t == s.(years := t.years, lock := t.lock, taxLock := t.taxLock)
    ensures InvExcept(c, t, stale)
  {
    forall r | r in t.recs ensures RecOk(t, r) {
      assert RecOk(s, r);
    }
  }

  lemma CloseKeeps(c: Chart, s: State, y: YearId, advance: bool)
    requires Inv(c, s)
    ensures Inv(c, CloseFiscalYear(c, s, y, advance).db)
    ensures forall d :: Frozen(s, d) ==> DayKept(s.moves, CloseFiscalYear(c, s, y, advance).db.moves, d)
    ensures forall d :: Locked(s, d) ==> Locked(CloseFiscalYear(c, s, y, advance).db, d)
    ensures forall d :: InClosedYear(s, d) ==> InClosedYear(CloseFiscalYear(c, s, y, advance).db, d)
  {
    var r := CloseFiscalYear(c, s, y, advance);
    GuardedSelf(s);
    var posted := s;
    if y < |s.years| && FlipLines(c, s.moves, YearWindow(s.years[y]), |c.accounts|) != [] && c.ByCode("3900").Some?
       && !s.years[y].closed && !HasDrafts(s, YearWindow(s.years[y])) {
      var retained := c.ByCode("3900").value;
      var entry := ClosingMove(c, s.moves, s.years[y], retained);
      ClosingEntryIsBalanced(c, s.moves, YearWindow(s.years[y]), retained);
      CreateAndPostKeeps(c, s, entry, {});
      posted := CreateAndPost(c, s, entry).db;
    }
    ClosedFlags(c, s, posted, r.db, y, advance);
  }

  lemma ClosedFlags(c: Chart, s: State, posted: State, t: State, y: YearId, advance: bool)
    requires Keeps(c, s, posted, {})
    requires t == s || t == posted || (y < |posted.years| && exists m :: t == MarkClosed(posted, y, m, advance))
    requires Inv(c, s)
    ensures Inv(c, t)
    ensures forall d :: Frozen(s, d) ==> DayKept(s.moves, t.moves, d)
    ensures forall d :: Locked(s, d) ==> Locked(t, d)
    ensures forall d :: InClosedYear(s, d) ==> InClosedYear(t, d)
  {
    GuardedSelf(s);
    if t != s {
      PeriodsDoNotMatter(c, posted, t, {});
    }
    forall d | Frozen(s, d) ensures DayKept(s.moves, t.moves, d) {
      GuardedKeepsDay(s, if t == s then s else posted, d);
    }
    forall d | InClosedYear(s, d) ensures InClosedYear(t, d) {
      var i :| 0 <= i < |s.years| && s.years[i].closed && s.years[i].from <= d <= s.years[i].to;
      assert t.years[i].closed && t.years[i].from <= d <= t.years[i].to;
    }
  }

  lemma ReopenKeeps(c: Chart, s: State, y: YearId)
    requires Inv(c, s)
    ensures Inv(c, ReopenFiscalYear(c, s, y).db)
    ensures forall d :: Frozen(s, d) ==> DayKept(s.moves, ReopenFiscalYear(c, s, y).db.moves, d)
    ensures forall d :: Locked(s, d) ==> Locked(ReopenFiscalYear(c, s, y).db, d)
    ensures forall d :: InClosedYear(s, d) && !(y < |s.years| && s.years[y].from <= d <= s.years[y].to) ==>
              InClosedYear(ReopenFiscalYear(c, s, y).db, d)
  {
    var t := ReopenFiscalYear(c, s, y).db;
    if y < |s.years| && s.years[y].closed {
      ReverseClosingKeeps(c, s, s.years[y]);
      hide InvExcept, ReverseClosing;
      OpenedFlags(c, s, ReverseClosing(c, s, s.years[y]).db, t, y);
    } else {
      GuardedSelf(s);
      OpenedFlags(c, s, s, t, y);
    }
  }

  lemma ReverseClosingKeeps(c: Chart, s: State, fy: FiscalYear)
    requires Inv(c, s)
    ensures Keeps(c, s, ReverseClosing(c, s, fy).db, {})
  {
    hide InvExcept, Guarded, ReverseMove;
    if fy.closing.Some? {
      ReverseKeeps(c, s, fy.closing.value, fy.to + 1, {});
    } else {
      GuardedSelf(s);
    }
  }

  lemma OpenedFlags(c: Chart, s: State, posted: State, t: State, y: YearId)
    requires Keeps(c, s, posted, {}) && (t == posted || (y < |s.years| && t == MarkOpen(posted, y)))
    ensures Inv(c, t)
    ensures forall d :: Frozen(s, d) ==> DayKept(s.moves, t.moves, d)
    ensures forall d :: Locked(s, d) ==> Locked(t, d)
    ensures forall d :: InClosedYear(s, d) && !(y < |s.years| && s.years[y].from <= d <= s.years[y].to) ==> InClosedYear(t, d)
  {
    PeriodsDoNotMatter(c, posted, t, {});
    forall d | Frozen(s, d) ensures DayKept(s.moves, t.moves, d) {
      GuardedKeepsDay(s, posted, d);
    }
    forall d | InClosedYear(s, d) && !(y < |s.years| && s.years[y].from <= d <= s.years[y].to) ensures InClosedYear(t, d) {
      var i :| 0 <= i < |s.years| && s.years[i].closed && s.years[i].from <= d <= s.years[i].to;
      assert t.years[i].closed && t.years[i].from <= d <= t.years[i].to;
    }
  }
}
