/**
 What every service call keeps: posted entries balance, no open line is over-settled, and the cached
 residual, payment state and reconciled flags of every open item agree with its reconciliations.
 */
module Invariant {
  import opened Wrappers
  import opened Rounding
  import opened Ledger
  import opened ServiceModel
  import opened CurrencyModel
  import opened DocumentsModel

  // ─── One row ────────────────────────────────────────────────────────

  /** A row kept wholly in MYR. */
  ghost predicate Company(m: Move) {
    m.rate.None? && forall l :: l in m.lines ==> l.foreign.None?
  }

  /** Documents and payments are the rows that can stay open. */
  predicate IsItem(m: Move) {
    IsDocument(m.kind) || m.kind.Payment?
  }

  /** Realised differences can be posted: both accounts and the general journal exist. */
  ghost predicate FxReady(c: Chart) {
    && "GEN" in c.journals && c.realizedFx.Some?
    && c.realizedFx.value.gain < |c.accounts| && c.realizedFx.value.loss < |c.accounts|
  }

  /**
   The rows whose cached residual is tracked: posted, not reversed documents and payments in MYR,
   and foreign-currency documents where realised differences can be posted.
   */
  ghost predicate Tracked(c: Chart, m: Move) {
    && m.stage.Posted? && !m.paymentState.Reversed?
    && ((IsItem(m) && Company(m)) ||
        (IsDocument(m.kind) && m.rate.Some? && FxReady(c)))
  }

  /** The first reconcilable line of a row carries an amount, so that something can be open on it. */
  predicate Owing(c: Chart, m: Move) {
    var k := Counterpart(c, m.lines);
    IsItem(m) && m.rate.None? && k.Some? ==> LineGross(m.lines[k.value]) > 0
  }

  ghost predicate CleanFlags(c: Chart, lines: seq<Line>) {
    forall l :: l in lines && c.Reconcilable(l.account) ==> !l.reconciled
  }

  /** The `reconciled` flag is never up while something is open, nor where nothing ever was. */
  ghost predicate FlagsSound(c: Chart, recs: seq<Reconcile>, id: MoveId, m: Move) {
    var o := OpenOf(c, recs, id, m);
    o.Some? && m.rate.None? && (o.value.amount > 0 || !Owing(c, m)) ==> CleanFlags(c, m.lines)
  }

  /** The cached columns say what the reconciliations say. */
  ghost predicate Current(c: Chart, recs: seq<Reconcile>, id: MoveId, m: Move) {
    var o := OpenOf(c, recs, id, m);
    o.Some? ==>
      if m.rate.Some? then
        var open := Max(0, m.total - SettledCurrency(recs, o.value.line));
        m.residualCurrency == Some(open) && m.paymentState == StateFor(open, m.total)
      else
        && m.residual == o.value.amount
        && m.paymentState == StateFor(o.value.amount, m.total)
        && (forall l :: l in m.lines && c.Reconcilable(l.account) ==> (l.reconciled <==> o.value.amount == 0))
  }

  /** The cached columns are still as `post_move` wrote them: the whole header total, nothing settled. */
  ghost predicate AsPosted(c: Chart, recs: seq<Reconcile>, id: MoveId, m: Move) {
    var o := OpenOf(c, recs, id, m);
    o.Some? ==>
      && m.paymentState.NotPaid? && m.residual == m.total
      && SettledCurrency(recs, o.value.line) == 0
      && (m.rate.None? ==> o.value.amount == LineGross(m.lines[o.value.line.index]) && CleanFlags(c, m.lines))
  }

  /** The header agrees with the GL: the counterpart line carries the total. */
  ghost predicate HeaderAgrees(c: Chart, m: Move) {
    var k := Counterpart(c, m.lines);
    k.Some? ==> LineGross(m.lines[k.value]) == m.total
  }

  ghost predicate Shaped(c: Chart, m: Move) {
    && (m.rate.Some? ==> IsDocument(m.kind) && m.currency.Some? && m.currency.value != MYR)
    && (m.stage.Draft? && IsItem(m) && m.rate.None? ==> CleanFlags(c, m.lines))
    && (m.stage.Posted? && IsItem(m) ==> m.total != 0)
  }

  /**
   No MYR line is settled for more than it carries, nothing is settled where nothing is owed, and an
   item is settled at its counterpart line only.
   */
  ghost predicate Covered(c: Chart, recs: seq<Reconcile>, id: MoveId, m: Move) {
    m.stage.Posted? ==>
      && (m.rate.None? ==>
            && (forall k: nat :: k < |m.lines| && m.lines[k].foreign.None? ==> Settled(recs, LineRef(id, k)) <= LineGross(m.lines[k]))
            && (!Owing(c, m) ==> forall k: nat :: Settled(recs, LineRef(id, k)) == 0))
      && (IsItem(m) ==> forall k: nat :: Counterpart(c, m.lines) != Some(k) ==> Settled(recs, LineRef(id, k)) == 0)
  }

  /** A posted document or payment in MYR, flagged as reversed or not. */
  ghost predicate IsMyrItem(m: Move) {
    m.stage.Posted? && IsItem(m) && Company(m)
  }

  /** Once something is settled on an item, its residual is what is open. */
  ghost predicate SettledIsShown(c: Chart, recs: seq<Reconcile>, id: MoveId, m: Move) {
    var o := OpenOf(c, recs, id, m);
    IsMyrItem(m) && o.Some? && Settled(recs, o.value.line) != 0 ==> m.residual == o.value.amount
  }

  ghost predicate RowOk(c: Chart, recs: seq<Reconcile>, id: MoveId, m: Move, stale: bool) {
    && (m.stage.Posted? ==> Balanced(m.lines) && m.number.Some?)
    && (m.stage.Draft? ==> m.paymentState.NotPaid?)
    && RowsAccepted(c, m.lines)
    && Shaped(c, m)
    && Covered(c, recs, id, m)
    && (m.stage.Posted? && IsItem(m) ==> FlagsSound(c, recs, id, m))
    && (Tracked(c, m) ==> stale || Current(c, recs, id, m) || AsPosted(c, recs, id, m))
    && (stale || SettledIsShown(c, recs, id, m))
  }

  // ─── The tables ─────────────────────────────────────────────────────

  ghost predicate RefOk(s: State, r: LineRef) {
    r.move < |s.moves| && s.moves[r.move].stage.Posted? && r.index < |s.moves[r.move].lines|
  }

  function LineAt(s: State, r: LineRef): Line
    requires r.move < |s.moves| && r.index < |s.moves[r.move].lines|
  {
    s.moves[r.move].lines[r.index]
  }

  /** A debit-side line and a credit-side line. */
  ghost predicate OnSides(s: State, r: Reconcile) {
    RefOk(s, r.debit) && RefOk(s, r.credit) && LineAt(s, r.debit).credit == 0 && LineAt(s, r.credit).debit == 0
  }

  /** A reconciliation settles a positive amount of a debit line with a credit line, both of posted moves. */
  ghost predicate RecOk(s: State, r: Reconcile) {
    r.amount > 0 && r.currency >= 0 && r.debit != r.credit && OnSides(s, r)
  }

  /** Numbers come from the sequence and are never given twice. */
  ghost predicate NumbersOk(s: State) {
    && (forall i :: 0 <= i < |s.moves| && s.moves[i].number.Some? ==> s.moves[i].number.value < s.nextNumber)
    && (forall i, j :: 0 <= i < j < |s.moves| && s.moves[i].number.Some? ==> s.moves[i].number != s.moves[j].number)
  }

  /** The invariant, with the cached columns of the rows in `stale` left open. */
  ghost predicate InvExcept(c: Chart, s: State, stale: set<MoveId>) {
    && (forall i :: 0 <= i < |s.moves| ==> RowOk(c, s.recs, i, s.moves[i], i in stale))
    && (forall r :: r in s.recs ==> RecOk(s, r))
    && NumbersOk(s)
  }

  ghost predicate Inv(c: Chart, s: State) {
    InvExcept(c, s, {})
  }

  // ─── Rows that differ in cached columns only ────────────────────────

  ghost predicate SameLines(a: seq<Line>, b: seq<Line>) {
    |a| == |b| && forall i :: 0 <= i < |a| ==> a[i].(reconciled := b[i].reconciled) == b[i]
  }

  /** Same entry: only residuals, payment state, link and flags may differ. */
  ghost predicate SameEntry(a: Move, b: Move) {
    && SameLines(a.lines, b.lines)
    && a.(lines := b.lines, residual := b.residual, residualCurrency := b.residualCurrency,
          paymentState := b.paymentState, reverses := b.reverses) == b
  }

  lemma {:induction false} CounterpartOfSameLines(c: Chart, a: seq<Line>, b: seq<Line>, from: nat)
    requires SameLines(a, b) && from <= |a|
    ensures Counterpart(c, a, from) == Counterpart(c, b, from)
    decreases |a| - from
  {
    if from < |a| {
      CounterpartOfSameLines(c, a, b, from + 1);
    }
  }

  lemma {:induction false} SumsOfSameLines(a: seq<Line>, b: seq<Line>, on: set<AccountId>)
    requires SameLines(a, b)
    ensures SumDebit(a) == SumDebit(b) && SumCredit(a) == SumCredit(b) && Net(a, on) == Net(b, on)
  {
    if a != [] {
      SumsOfSameLines(a[..|a| - 1], b[..|b| - 1], on);
    }
  }

  lemma SameCurrencies(a: seq<Line>, b: seq<Line>)
    requires SameLines(a, b) && forall l :: l in a ==> l.foreign.None?
    ensures forall l :: l in b ==> l.foreign.None?
  {
    forall l | l in b ensures l.foreign.None? {
      var i :| 0 <= i < |b| && b[i] == l;
      assert a[i] in a && a[i].(reconciled := b[i].reconciled) == b[i];
    }
  }

  lemma SameLinesBack(a: seq<Line>, b: seq<Line>)
    requires SameLines(a, b)
    ensures SameLines(b, a)
  {
    forall i | 0 <= i < |a| ensures b[i].(reconciled := a[i].reconciled) == a[i] {
      assert a[i].(reconciled := b[i].reconciled) == b[i];
    }
  }

  /** Lines that differ in flags only balance alike and are accepted alike. */
  lemma SameLinesFacts(c: Chart, a: seq<Line>, b: seq<Line>)
    requires SameLines(a, b)
    ensures SumDebit(a) == SumDebit(b) && (Balanced(a) <==> Balanced(b))
    ensures RowsAccepted(c, a) <==> RowsAccepted(c, b)
    ensures (forall l :: l in a ==> l.foreign.None?) <==> (forall l :: l in b ==> l.foreign.None?)
    ensures Counterpart(c, a) == Counterpart(c, b)
    ensures forall i :: 0 <= i < |a| ==> LineGross(a[i]) == LineGross(b[i]) && a[i].foreign == b[i].foreign && a[i].account == b[i].account
  {
    SumsOfSameLines(a, b, {});
    CounterpartOfSameLines(c, a, b, 0);
    assert forall i :: 0 <= i < |a| ==> (OneSided(a[i]) <==> OneSided(b[i])) && (RowAccepted(c, a[i]) <==> RowAccepted(c, b[i]));
    if forall l :: l in a ==> l.foreign.None? {
      SameCurrencies(a, b);
    } else if forall l :: l in b ==> l.foreign.None? {
      SameLinesBack(a, b);
      SameCurrencies(b, a);
    }
  }

  /** Such rows have the same open line, and keep balance, shape and coverage. */
  lemma SameEntryFacts(c: Chart, recs: seq<Reconcile>, id: MoveId, a: Move, b: Move)
    requires SameEntry(a, b)
    ensures OpenOf(c, recs, id, a) == OpenOf(c, recs, id, b)
    ensures Balanced(a.lines) <==> Balanced(b.lines)
    ensures Company(a) <==> Company(b)
    ensures Covered(c, recs, id, a) <==> Covered(c, recs, id, b)
    ensures Shaped(c, a) && !b.stage.Draft? ==> Shaped(c, b)
    ensures Owing(c, a) <==> Owing(c, b)
    ensures HeaderAgrees(c, a) <==> HeaderAgrees(c, b)
    ensures RowsAccepted(c, a.lines) <==> RowsAccepted(c, b.lines)
    ensures SumDebit(a.lines) == SumDebit(b.lines)
  {
    SameLinesFacts(c, a.lines, b.lines);
    hide Balanced, RowsAccepted, SameLines, SumDebit;
  }

  lemma FlagIsSameLines(c: Chart, lines: seq<Line>, on: bool)
    ensures SameLines(lines, Flag(c, lines, on))
  {
  }

  lemma RefreshedIsSameEntry(c: Chart, recs: seq<Reconcile>, id: MoveId, m: Move)
    ensures SameEntry(m, Refreshed(c, recs, id, m))
  {
    FlagIsSameLines(c, m.lines, true);
  }

  /** A refreshed row has its flags up exactly where nothing is open. */
  lemma RefreshKeepsFlags(c: Chart, recs: seq<Reconcile>, id: MoveId, m: Move)
    requires Owing(c, m) && (m.stage.Posted? && IsItem(m) ==> FlagsSound(c, recs, id, m))
    ensures m.stage.Posted? && IsItem(m) ==> FlagsSound(c, recs, id, Refreshed(c, recs, id, m))
  {
    RefreshedIsSameEntry(c, recs, id, m);
    SameEntryFacts(c, recs, id, m, Refreshed(c, recs, id, m));
    hide Balanced, RowsAccepted, SameLines, SumDebit, Shaped, Covered, SameEntry;
  }

  /** The columns of a refreshed MYR item. */
  lemma RefreshShowsOpen(c: Chart, recs: seq<Reconcile>, id: MoveId, m: Move)
    requires IsMyrItem(m) && Covered(c, recs, id, m) && Owing(c, m) && FlagsSound(c, recs, id, m)
    ensures Current(c, recs, id, Refreshed(c, recs, id, m)) && SettledIsShown(c, recs, id, Refreshed(c, recs, id, m))
  {
    var n := Refreshed(c, recs, id, m);
    RefreshedIsSameEntry(c, recs, id, m);
    SameEntryFacts(c, recs, id, m, n);
    hide Balanced, RowsAccepted, SameLines, SumDebit, Shaped, SameEntry;
    var o := OpenOf(c, recs, id, m);
    if o.Some? {
      assert m.lines[Counterpart(c, m.lines).value] in m.lines;
      assert o.value.amount >= 0;
      assert forall l :: l in n.lines && c.Reconcilable(l.account) && o.value.amount == 0 ==> l.reconciled;
    }
  }

  /**
   The payoff of a refresh: whatever the cached columns said, afterwards they are current, provided
   the row was sound in the parts a refresh does not touch.
   */
  lemma RefreshMakesCurrent(c: Chart, recs: seq<Reconcile>, id: MoveId, m: Move)
    requires m.stage.Posted? && Balanced(m.lines) && m.number.Some? && RowsAccepted(c, m.lines)
    requires Shaped(c, m) && Covered(c, recs, id, m) && Owing(c, m)
    requires IsItem(m) ==> FlagsSound(c, recs, id, m)
    ensures RowOk(c, recs, id, Refreshed(c, recs, id, m), false)
  {
    hide Balanced, RowsAccepted, SameLines, SumDebit, Shaped, Covered, SameEntry, CleanFlags;
    var n := Refreshed(c, recs, id, m);
    RefreshedIsSameEntry(c, recs, id, m);
    SameEntryFacts(c, recs, id, m, n);
    RefreshKeepsFlags(c, recs, id, m);
    if IsMyrItem(m) {
      RefreshShowsOpen(c, recs, id, m);
    }
  }

  /**
   The amounts a refresh writes. In MYR the residual is the counterpart's amount less what is reconciled; a
   foreign-currency document keeps what its total exceeds the reconciled own-currency amounts by, and as
   residual the nearest sen value of that at its own rate; neither is ever negative.
   */
  lemma RefreshedAmounts(c: Chart, recs: seq<Reconcile>, id: MoveId, m: Move, k: nat)
    requires Counterpart(c, m.lines) == Some(k)
    ensures var n := Refreshed(c, recs, id, m);
            if m.rate.None? then
              n.residual == Max(0, LineGross(m.lines[k]) - Settled(recs, LineRef(id, k))) && n.residualCurrency == m.residualCurrency
            else
              var open := Max(0, m.total - SettledCurrency(recs, LineRef(id, k)));
              && n.residualCurrency == Some(open)
              && exists v :: Nearest(open * m.rate.value, ONE, v) && n.residual == Max(0, v)
  {
    if m.rate.Some? {
      var open := Max(0, m.total - SettledCurrency(recs, LineRef(id, k)));
      RoundIsNearest(open * m.rate.value, ONE);
      assert Nearest(open * m.rate.value, ONE, ToMyr(open, m.rate.value));
    }
  }

  /**
   A row still as `post_move` left it says what the reconciliations say exactly when its header agrees
   with its GL; a foreign-currency document must also carry the total as its own-currency residual.
   */
  lemma AsPostedIsCurrentWhen(c: Chart, recs: seq<Reconcile>, id: MoveId, m: Move)
    requires RowOk(c, recs, id, m, true) && m.stage.Posted? && IsItem(m) && AsPosted(c, recs, id, m)
    requires Counterpart(c, m.lines).Some?
    ensures Current(c, recs, id, m) <==>
            if m.rate.None? then HeaderAgrees(c, m) else m.total > 0 && m.residualCurrency == Some(m.total)
  {
    assert OneSided(m.lines[Counterpart(c, m.lines).value]);
  }

  // ─── Frames ─────────────────────────────────────────────────────────

  ghost predicate SameSettled(recs: seq<Reconcile>, recs': seq<Reconcile>, id: MoveId) {
    forall k: nat :: Settled(recs, LineRef(id, k)) == Settled(recs', LineRef(id, k)) &&
                     SettledCurrency(recs, LineRef(id, k)) == SettledCurrency(recs', LineRef(id, k))
  }

  lemma RowOkFrame(c: Chart, recs: seq<Reconcile>, recs': seq<Reconcile>, id: MoveId, m: Move, stale: bool)
    requires RowOk(c, recs, id, m, stale) && SameSettled(recs, recs', id)
    ensures RowOk(c, recs', id, m, stale)
  {
    assert OpenOf(c, recs, id, m) == OpenOf(c, recs', id, m);
    assert Covered(c, recs', id, m) by {
      forall k: nat | m.stage.Posted?
        ensures m.rate.None? && k < |m.lines| && m.lines[k].foreign.None? ==> Settled(recs', LineRef(id, k)) <= LineGross(m.lines[k])
        ensures m.rate.None? && !Owing(c, m) ==> Settled(recs', LineRef(id, k)) == 0
        ensures IsItem(m) && Counterpart(c, m.lines) != Some(k) ==> Settled(recs', LineRef(id, k)) == 0
      {
        assert Settled(recs, LineRef(id, k)) == Settled(recs', LineRef(id, k));
      }
    }
  }

  /** Rows that no added reconciliation touches have the same settled amounts. */
  lemma SettledOfStrangers(recs: seq<Reconcile>, rows: seq<Reconcile>, id: MoveId)
    requires forall r :: r in rows ==> r.debit.move != id && r.credit.move != id
    ensures SameSettled(recs, recs + rows, id)
  {
    forall k: nat
      ensures Settled(recs, LineRef(id, k)) == Settled(recs + rows, LineRef(id, k)) &&
              SettledCurrency(recs, LineRef(id, k)) == SettledCurrency(recs + rows, LineRef(id, k))
    {
      SettledOfConcat(recs, rows, LineRef(id, k));
      SettledUntouched(rows, LineRef(id, k));
    }
  }

  /** Nothing is settled on a line that no reconciliation names. */
  lemma NothingSettled(s: State, id: MoveId)
    requires forall r :: r in s.recs ==> RecOk(s, r)
    requires id >= |s.moves| || !s.moves[id].stage.Posted?
    ensures forall k: nat :: Settled(s.recs, LineRef(id, k)) == 0 && SettledCurrency(s.recs, LineRef(id, k)) == 0
  {
    forall k: nat ensures Settled(s.recs, LineRef(id, k)) == 0 && SettledCurrency(s.recs, LineRef(id, k)) == 0 {
      SettledUntouched(s.recs, LineRef(id, k));
    }
  }

  /** What the books say at any time: a posted entry has at least two one-sided lines and balances. */
  lemma PostedIsBalanced(c: Chart, s: State, stale: set<MoveId>, id: MoveId)
    requires InvExcept(c, s, stale) && id < |s.moves| && s.moves[id].stage.Posted?
    ensures Balanced(s.moves[id].lines)
  {
    assert RowOk(c, s.recs, id, s.moves[id], id in stale);
  }

  lemma RowsAreAccepted(c: Chart, s: State, stale: set<MoveId>, id: MoveId)
    requires InvExcept(c, s, stale) && id < |s.moves|
    ensures RowsAccepted(c, s.moves[id].lines)
  {
    assert RowOk(c, s.recs, id, s.moves[id], id in stale);
  }

  /** Weaker claims about more rows. */
  lemma InvWeaken(c: Chart, s: State, stale: set<MoveId>, more: set<MoveId>)
    requires InvExcept(c, s, stale) && stale <= more
    ensures InvExcept(c, s, more)
  {
  }

  /** A stale row that is not tracked and no MYR item does not matter. */
  lemma InvForget(c: Chart, s: State, stale: set<MoveId>, id: MoveId)
    requires InvExcept(c, s, stale) && (id >= |s.moves| || (!Tracked(c, s.moves[id]) && !IsMyrItem(s.moves[id])))
    ensures InvExcept(c, s, stale - {id})
  {
  }
}
