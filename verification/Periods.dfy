/** Period control: what is posted on a frozen date stays as it is. */
module Periods {
  import opened Wrappers
  import opened Ledger
  import opened ServiceModel
  import opened Invariant

  /** Both rows are on the books with the same amounts, or neither is. */
  ghost predicate SamePosting(a: Move, b: Move) {
    (a.stage.Posted? <==> b.stage.Posted?) && (a.stage.Posted? ==> SameLines(a.lines, b.lines))
  }

  /** What a service call never changes about a move: its date, journal and kind, and its number once it has one. */
  ghost predicate SameIdentity(a: Move, b: Move) {
    a.date == b.date && a.kind == b.kind && a.journal == b.journal && (a.number.Some? ==> b.number == a.number)
  }

  predicate OnDay(m: Move, d: Date) {
    m.stage.Posted? && m.date == d
  }

  /** Nothing dated `d` was posted, taken off the books or changed. */
  ghost predicate DayKept(before: seq<Move>, after: seq<Move>, d: Date) {
    && |before| <= |after|
    && (forall i :: 0 <= i < |before| && OnDay(before[i], d) ==>
          OnDay(after[i], d) && SameLines(before[i].lines, after[i].lines) && after[i].journal == before[i].journal)
    && (forall i :: 0 <= i < |before| && OnDay(after[i], d) ==> OnDay(before[i], d))
    && (forall i :: |before| <= i < |after| ==> !OnDay(after[i], d))
  }

  /** A call that leaves period control alone and touches nothing on a frozen date. */
  ghost predicate Guarded(s: State, s': State) {
    && s'.lock == s.lock && s'.taxLock == s.taxLock && s'.years == s.years
    && |s.moves| <= |s'.moves| && s.nextNumber <= s'.nextNumber
    && (forall i :: 0 <= i < |s.moves| ==> SameIdentity(s.moves[i], s'.moves[i]))
    && (forall i :: 0 <= i < |s.moves| && Frozen(s, s.moves[i].date) ==> SamePosting(s.moves[i], s'.moves[i]))
    && (forall i :: |s.moves| <= i < |s'.moves| && Frozen(s, s'.moves[i].date) ==> !s'.moves[i].stage.Posted?)
  }

  lemma SameLinesChain(a: seq<Line>, b: seq<Line>, c: seq<Line>)
    requires SameLines(a, b) && SameLines(b, c)
    ensures SameLines(a, c)
  {
    forall i | 0 <= i < |a| ensures a[i].(reconciled := c[i].reconciled) == c[i] {
      assert a[i].(reconciled := b[i].reconciled) == b[i];
      assert b[i].(reconciled := c[i].reconciled) == c[i];
    }
  }

  lemma GuardedChain(s: State, t: State, u: State)
    requires Guarded(s, t) && Guarded(t, u)
    ensures Guarded(s, u)
  {
    assert forall d :: Frozen(s, d) <==> Frozen(t, d);
    forall i | 0 <= i < |s.moves|
      ensures SameIdentity(s.moves[i], u.moves[i])
      ensures Frozen(s, s.moves[i].date) ==> SamePosting(s.moves[i], u.moves[i])
    {
      assert SameIdentity(s.moves[i], t.moves[i]) && SameIdentity(t.moves[i], u.moves[i]);
      if Frozen(s, s.moves[i].date) {
        assert SamePosting(s.moves[i], t.moves[i]) && SamePosting(t.moves[i], u.moves[i]);
        if s.moves[i].stage.Posted? {
          SameLinesChain(s.moves[i].lines, t.moves[i].lines, u.moves[i].lines);
        }
      }
    }
    forall i | |s.moves| <= i < |u.moves| && Frozen(s, u.moves[i].date) ensures !u.moves[i].stage.Posted? {
      if i < |t.moves| {
        assert SameIdentity(t.moves[i], u.moves[i]);
      }
    }
  }

  lemma GuardedSelf(s: State)
    ensures Guarded(s, s)
  {
  }

  /** Each frozen day is kept as a whole. */
  lemma GuardedKeepsDay(s: State, s': State, d: Date)
    requires Guarded(s, s') && Frozen(s, d)
    ensures DayKept(s.moves, s'.moves, d)
  {
    assert forall i :: 0 <= i < |s.moves| ==> SameIdentity(s.moves[i], s'.moves[i]);
  }

  lemma DayKeptChain(a: seq<Move>, b: seq<Move>, c: seq<Move>, d: Date)
    requires DayKept(a, b, d) && DayKept(b, c, d)
    ensures DayKept(a, c, d)
  {
    forall i | 0 <= i < |a| && OnDay(a[i], d) ensures OnDay(c[i], d) && SameLines(a[i].lines, c[i].lines) && c[i].journal == a[i].journal {
      SameLinesChain(a[i].lines, b[i].lines, c[i].lines);
    }
  }

  /**
   A window of days each of which was kept has the same balance on every account, before and after.
   */
  lemma KeptDaysKeepBalances(before: seq<Move>, after: seq<Move>, on: set<AccountId>, w: Window)
    requires |before| <= |after|
    requires forall d :: w.Has(d) ==> DayKept(before, after, d)
    ensures Balance(before, on, w) == Balance(after, on, w)
  {
    var n := |before|;
    forall i | 0 <= i < n ensures Share(before[i], on, w) == Share(after[i], on, w) {
      if before[i].stage.Posted? && w.Has(before[i].date) {
        assert DayKept(before, after, before[i].date) && OnDay(before[i], before[i].date);
        SumsOfSameLines(before[i].lines, after[i].lines, on);
      } else if after[i].stage.Posted? && w.Has(after[i].date) {
        assert DayKept(before, after, after[i].date) && OnDay(after[i], after[i].date);
      }
    }
    forall i | n <= i < |after| ensures Share(after[i], on, w) == 0 {
      if after[i].stage.Posted? && w.Has(after[i].date) {
        assert DayKept(before, after, after[i].date) && OnDay(after[i], after[i].date);
      }
    }
    assert after == after[..n] + after[n..];
    BalanceOfConcat(after[..n], after[n..], on, w);
    BalanceOfAlike(before, after[..n], on, w);
    BalanceOfNothing(after[n..], on, w);
  }
}
