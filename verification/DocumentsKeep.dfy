/** Creating, expanding, posting and refreshing documents keeps the invariant and the frozen periods. */
module DocumentsKeep {
  import opened Wrappers
  import opened Ledger
  import opened ServiceModel
  import opened CurrencyModel
  import opened DocumentsModel
  import opened InvoiceExpansion
  import opened Invariant
  import opened Periods
  import opened PostingKeeps

  lemma CreateInvoiceKeeps(c: Chart, s: State, inv: NewInvoice, stale: set<MoveId>)
    requires InvExcept(c, s, stale)
    ensures Keeps(c, s, CreateInvoice(c, s, inv).db, stale)
  {
    if CreateInvoice(c, s, inv).result.Ok? {
      AppendKeeps(c, s, InvoiceRow(inv, InvoiceJournal(inv), DocumentTotals(c, inv.lines).value), stale);
    } else {
      GuardedSelf(s);
    }
  }

  lemma RefreshTotalsKeeps(c: Chart, s: State, id: MoveId, stale: set<MoveId>)
    requires InvExcept(c, s, stale)
    ensures Keeps(c, s, RefreshDocumentTotals(c, s, id).db, stale)
  {
    if id < |s.moves| && s.moves[id].stage.Draft? && TaxesKnown(c, s.moves[id].docLines) {
      RewriteDraftKeeps(c, s, id, WithTotals(s.moves[id], DocumentTotals(c, s.moves[id].docLines).value), stale);
    } else {
      GuardedSelf(s);
    }
  }

  /** Editing the commercial lines of a draft. */
  function EditLines(s: State, id: MoveId, lines: seq<DocLine>): State {
    if id < |s.moves| && s.moves[id].stage.Draft?
    then s.(moves := s.moves[id := s.moves[id].(docLines := lines)])
    else s
  }

  lemma EditKeeps(c: Chart, s: State, id: MoveId, lines: seq<DocLine>, stale: set<MoveId>)
    requires InvExcept(c, s, stale)
    ensures Keeps(c, s, RefreshDocumentTotals(c, EditLines(s, id, lines), id).db, stale)
  {
    var s1 := EditLines(s, id, lines);
    if s1 == s {
      GuardedSelf(s);
    } else {
      RewriteDraftKeeps(c, s, id, s1.moves[id], stale);
    }
    RefreshTotalsKeeps(c, s1, id, stale);
    GuardedChain(s, s1, RefreshDocumentTotals(c, s1, id).db);
  }

  /** An expanded draft has fresh lines, so the flags of earlier lines are gone. */
  lemma ExpandedIsShaped(c: Chart, m: Move, terms: Terms, lines: seq<Line>)
    requires m.stage.Draft? && IsDocument(m.kind) && Shaped(c, m)
    requires TermsOf(c, m) == Some(terms) && DocumentTotals(c, m.docLines) == Ok(Totals(m.untaxed, m.tax, m.total))
    requires Expansion(c, terms, m.partner, m.docLines, m.total) == Ok(lines)
    ensures Shaped(c, ExpandedRow(m, terms, lines))
    ensures terms.currency.Some? ==> ExpandedRow(m, terms, lines).rate.Some?
  {
    ExpansionConverts(c, terms, m.partner, m.docLines, m.total);
  }

  lemma PostInvoiceKeeps(c: Chart, s: State, id: MoveId, stale: set<MoveId>)
    requires InvExcept(c, s, stale)
    ensures Keeps(c, s, PostInvoice(c, s, id).db, stale)
  {
    var r := PostInvoice(c, s, id);
    if r.db == s {
      GuardedSelf(s);
    } else {
      var t := DocumentTotals(c, s.moves[id].docLines).value;
      var m := WithTotals(s.moves[id], t);
      if r.db == s.(moves := s.moves[id := m]) {
        RewriteDraftKeeps(c, s, id, m, stale);
      } else if r.db == s.(moves := s.moves[id := m.(lines := [])]) {
        RewriteDraftKeeps(c, s, id, m.(lines := []), stale);
      } else {
        var terms := TermsOf(c, m).value;
        var lines := Expansion(c, terms, m.partner, m.docLines, t.total).value;
        var row := ExpandedRow(m, terms, lines);
        var ready := s.(moves := s.moves[id := row]);
        ExpandedIsShaped(c, m, terms, lines);
        RewriteDraftKeeps(c, s, id, row, stale);
        PostExpandedKeeps(c, ready, id, terms, stale);
        GuardedChain(s, ready, r.db);
      }
    }
  }

  /** What a posted document looks like: it owes its whole total. */
  ghost predicate NewlyPosted(c: Chart, s: State, t: State, id: MoveId) {
    && id < |s.moves| && |t.moves| == |s.moves| && t.recs == s.recs
    && (forall i :: 0 <= i < |s.moves| && i != id ==> t.moves[i] == s.moves[i])
    && DocumentTotals(c, s.moves[id].docLines).Ok?
    && var m, total := t.moves[id], DocumentTotals(c, s.moves[id].docLines).value.total;
       && m.stage.Posted? && m.number.Some? && Balanced(m.lines) && SameIdentity(s.moves[id], m)
       && m.total == total > 0
       && Counterpart(c, m.lines) == Some(0)
       && (if TermsOf(c, s.moves[id]).Some? && TermsOf(c, s.moves[id]).value.currency.Some?
           then m.residualCurrency == Some(total) && m.residual == LineGross(m.lines[0])
           else m.residual == total == LineGross(m.lines[0]))
  }

  /**
   Posting a document: accepted only for a draft document on a date that neither the lock, a closed
   year nor the tax lock covers; it then owes its recomputed total, in its own currency if it has one.
   */
  lemma PostInvoiceEffect(c: Chart, s: State, id: MoveId)
    requires c.ControlAccountsOk() && PostInvoice(c, s, id).result.Ok?
    ensures id < |s.moves| && s.moves[id].stage.Draft? && IsDocument(s.moves[id].kind)
    ensures !Frozen(s, s.moves[id].date) && !(s.taxLock.Some? && s.moves[id].date <= s.taxLock.value)
    ensures NewlyPosted(c, s, PostInvoice(c, s, id).db, id)
  {
    PostInvoiceInSteps(c, s, id);
    var t := DocumentTotals(c, s.moves[id].docLines).value;
    var m := WithTotals(s.moves[id], t);
    var terms := TermsOf(c, m).value;
    ExpansionConverts(c, terms, m.partner, m.docLines, t.total);
    ExpansionAgreesWithHeader(c, terms, m.partner, m.docLines);
    ExpansionIsNotEmpty(c, terms, m.partner, m.docLines, t.total);
    hide PostInvoice, PostExpanded, Expansion, Balanced, Frozen, Gl, SumDebit, SumCredit, Converts;
    PostExpandedEffect(s, id, m, terms, Expansion(c, terms, m.partner, m.docLines, t.total).value);
  }

  lemma PostInvoiceInSteps(c: Chart, s: State, id: MoveId)
    requires PostInvoice(c, s, id).result.Ok?
    ensures id < |s.moves| && s.moves[id].stage.Draft? && IsDocument(s.moves[id].kind)
    ensures !(s.taxLock.Some? && s.moves[id].date <= s.taxLock.value) && DocumentTotals(c, s.moves[id].docLines).Ok?
    ensures var t := DocumentTotals(c, s.moves[id].docLines).value;
            var m := WithTotals(s.moves[id], t);
            && t.total > 0 && TermsOf(c, m).Some?
            && TaxesKnown(c, m.docLines) && Expansion(c, TermsOf(c, m).value, m.partner, m.docLines, t.total).Ok?
            && var terms := TermsOf(c, m).value;
               var lines := Expansion(c, terms, m.partner, m.docLines, t.total).value;
               PostInvoice(c, s, id) == PostExpanded(s.(moves := s.moves[id := ExpandedRow(m, terms, lines)]), id, terms, lines, t.total)
  {
    hide PostExpanded, Expansion, TermsOf, RowAccepted, ExpandedRow;
  }

  /** The last step: the expanded row is posted. */
  lemma PostExpandedEffect(s: State, id: MoveId, m: Move, terms: Terms, lines: seq<Line>)
    requires id < |s.moves| && m.stage.Draft? && IsDocument(m.kind) && m.total > 0 && SameIdentity(s.moves[id], m) && lines != []
    requires PostExpanded(s.(moves := s.moves[id := ExpandedRow(m, terms, lines)]), id, terms, lines, m.total).result.Ok?
    ensures !Frozen(s, m.date) && Balanced(lines)
    ensures var t := PostExpanded(s.(moves := s.moves[id := ExpandedRow(m, terms, lines)]), id, terms, lines, m.total).db;
            && |t.moves| == |s.moves| && t.recs == s.recs
            && (forall i :: 0 <= i < |s.moves| && i != id ==> t.moves[i] == s.moves[i])
            && var row := t.moves[id];
               && row.stage.Posted? && row.number.Some? && row.lines == lines && SameIdentity(s.moves[id], row) && row.total == m.total
               && (if terms.currency.Some? then row.residualCurrency == Some(m.total) && row.residual == Gl(lines[1..])
                   else row.residual == m.total)
  {
    var ready := s.(moves := s.moves[id := ExpandedRow(m, terms, lines)]);
    PostMoveEffect(ready, id);
    hide PostMove, Balanced, Gl;
    assert Frozen(ready, m.date) <==> Frozen(s, m.date);
  }

  /** What posting does with an expanded row, including the foreign-currency residual it sets last. */
  function Posting(s: State, id: MoveId, terms: Terms): State {
    var r := PostMove(s, id);
    if r.result.Err? || terms.currency.None? || id >= |r.db.moves| || |s.moves[id].lines| == 0 then r.db
    else r.db.(moves := r.db.moves[id := r.db.moves[id].(residual := Gl(s.moves[id].lines[1..]),
                                                         residualCurrency := Some(s.moves[id].total))])
  }

  lemma PostExpandedKeeps(c: Chart, s: State, id: MoveId, terms: Terms, stale: set<MoveId>)
    requires InvExcept(c, s, stale)
    requires id < |s.moves| && s.moves[id].stage.Draft? && IsDocument(s.moves[id].kind) && s.moves[id].total > 0
    requires terms.currency.Some? ==> s.moves[id].rate.Some?
    ensures Keeps(c, s, Posting(s, id, terms), stale)
  {
    var r := PostMove(s, id);
    PostMoveEffect(s, id);
    PostKeeps(c, s, id, stale);
    if r.result.Ok? && terms.currency.Some? {
      var m := s.moves[id];
      DraftIsUnnamed(s, id);
      NothingSettled(s, id);
      FxResidualIsCurrent(c, r.db, id, Gl(m.lines[1..]), stale, stale);
      GuardedChain(s, r.db, Posting(s, id, terms));
    }
  }

  /** The last step of posting a foreign-currency document: the whole total is open in its currency. */
  lemma FxResidualIsCurrent(c: Chart, t: State, id: MoveId, myr: int, stale: set<MoveId>, stale': set<MoveId>)
    requires InvExcept(c, t, stale) && id < |t.moves| && stale - {id} <= stale'
    requires t.moves[id].stage.Posted? && t.moves[id].paymentState.NotPaid? && t.moves[id].rate.Some? && t.moves[id].total > 0
    requires forall k: nat :: Settled(t.recs, LineRef(id, k)) == 0 && SettledCurrency(t.recs, LineRef(id, k)) == 0
    ensures Keeps(c, t, t.(moves := t.moves[id := t.moves[id].(residual := myr, residualCurrency := Some(t.moves[id].total))]), stale')
  {
    var p := t.moves[id];
    var q := p.(residual := myr, residualCurrency := Some(p.total));
    SameEntryFacts(c, t.recs, id, p, q);
    assert RowOk(c, t.recs, id, p, id in stale);
    ReplaceRowKeeps(c, t, id, q, t.nextNumber, stale, stale');
  }

  // ─── Reconciling and refreshing ─────────────────────────────────────

  /** A refresh replaces one posted row by its recomputed self. */
  lemma RefreshKeeps(c: Chart, s: State, id: MoveId, stale: set<MoveId>)
    requires InvExcept(c, s, stale)
    requires id < |s.moves| ==> s.moves[id].stage.Posted? && Owing(c, s.moves[id])
    ensures Keeps(c, s, RefreshPaymentState(c, s, id), stale - {id})
  {
    if id < |s.moves| {
      var m := s.moves[id];
      assert RowOk(c, s.recs, id, m, id in stale);
      RefreshMakesCurrent(c, s.recs, id, m);
      RefreshedIsSameEntry(c, s.recs, id, m);
      ReplaceRowKeeps(c, s, id, Refreshed(c, s.recs, id, m), s.nextNumber, stale, stale - {id});
    } else {
      GuardedSelf(s);
    }
  }

  lemma SameEntryChain(a: Move, b: Move, d: Move)
    requires SameEntry(a, b) && SameEntry(b, d)
    ensures SameEntry(a, d)
  {
    SameLinesChain(a.lines, b.lines, d.lines);
  }

  /** The tables differ in cached columns of existing rows only. */
  ghost predicate SameLedger(s: State, s': State) {
    && s' == s.(moves := s'.moves)
    && |s'.moves| == |s.moves|
    && forall i :: 0 <= i < |s.moves| ==> SameEntry(s.moves[i], s'.moves[i])
  }

  lemma SameLedgerChain(s: State, t: State, u: State)
    requires SameLedger(s, t) && SameLedger(t, u)
    ensures SameLedger(s, u)
  {
    forall i | 0 <= i < |s.moves| ensures SameEntry(s.moves[i], u.moves[i]) {
      SameEntryChain(s.moves[i], t.moves[i], u.moves[i]);
    }
  }

  lemma RefreshSameLedger(c: Chart, s: State, id: MoveId)
    ensures SameLedger(s, RefreshPaymentState(c, s, id))
  {
    if id < |s.moves| {
      RefreshedIsSameEntry(c, s.recs, id, s.moves[id]);
    }
  }

  lemma {:induction false} RefreshAllSameLedger(c: Chart, s: State, ids: seq<MoveId>)
    ensures SameLedger(s, RefreshAll(c, s, ids))
  {
    if ids != [] {
      var s1 := RefreshAll(c, s, ids[..|ids| - 1]);
      RefreshAllSameLedger(c, s, ids[..|ids| - 1]);
      RefreshSameLedger(c, s1, ids[|ids| - 1]);
      SameLedgerChain(s, s1, RefreshAll(c, s, ids));
    }
  }

  lemma ButLast(stale: set<MoveId>, rest: seq<MoveId>, last: MoveId)
    ensures stale - (set id | id in rest) - {last} == stale - (set id | id in rest + [last])
    ensures rest == [] ==> stale - (set id | id in rest) == stale
  {
  }

  lemma PostedInSameLedger(c: Chart, s: State, t: State, id: MoveId)
    requires SameLedger(s, t) && (id < |s.moves| ==> s.moves[id].stage.Posted? && Owing(c, s.moves[id]))
    ensures id < |t.moves| ==> t.moves[id].stage.Posted? && Owing(c, t.moves[id])
  {
    if id < |s.moves| {
      SameLinesFacts(c, s.moves[id].lines, t.moves[id].lines);
    }
  }

  lemma {:induction false} RefreshAllKeeps(c: Chart, s: State, ids: seq<MoveId>, stale: set<MoveId>)
    requires InvExcept(c, s, stale)
    requires forall id :: id in ids && id < |s.moves| ==> s.moves[id].stage.Posted? && Owing(c, s.moves[id])
    ensures Keeps(c, s, RefreshAll(c, s, ids), stale - (set id | id in ids))
  {
    hide InvExcept, Guarded, RefreshPaymentState, SameLedger;
    if ids == [] {
      GuardedSelf(s);
      ButLast(stale, [], 0);
    } else {
      var rest, last := ids[..|ids| - 1], ids[|ids| - 1];
      assert ids == rest + [last];
      RefreshAllKeeps(c, s, rest, stale);
      RefreshAllSameLedger(c, s, rest);
      var s1 := RefreshAll(c, s, rest);
      PostedInSameLedger(c, s, s1, last);
      RefreshKeeps(c, s1, last, stale - (set id | id in rest));
      GuardedChain(s, s1, RefreshAll(c, s, ids));
      ButLast(stale, rest, last);
    }
  }

  /** The moves that the rows of a matching name. */
  ghost function Named(rows: seq<Reconcile>): set<MoveId> {
    (set r | r in rows :: r.debit.move) + (set r | r in rows :: r.credit.move)
  }

  /** A line of a posted MYR row. */
  predicate MyrLine(s: State, i: nat, k: nat) {
    i < |s.moves| && s.moves[i].stage.Posted? && s.moves[i].rate.None? && k < |s.moves[i].lines| && s.moves[i].lines[k].foreign.None?
  }

  /** No added row settles a MYR line for more than is open on it. */
  ghost predicate RowsFit(s: State, rows: seq<Reconcile>) {
    forall i: nat, k: nat :: MyrLine(s, i, k) ==> Settled(s.recs + rows, LineRef(i, k)) <= LineGross(s.moves[i].lines[k])
  }

  /** Something is owed on the row, and a document or payment is addressed at its counterpart line. */
  ghost predicate Settleable(c: Chart, s: State, line: LineRef) {
    line.move < |s.moves| ==>
      && Owing(c, s.moves[line.move])
      && (IsItem(s.moves[line.move]) ==> Counterpart(c, s.moves[line.move].lines) == Some(line.index))
  }

  ghost predicate NamesOwing(c: Chart, s: State, rows: seq<Reconcile>) {
    forall r :: r in rows ==> Settleable(c, s, r.debit) && Settleable(c, s, r.credit)
  }

  /** A row that no new reconciliation names is as sound as before. */
  lemma StrangerRowOk(c: Chart, s: State, rows: seq<Reconcile>, i: MoveId, stale: bool)
    requires i < |s.moves| && RowOk(c, s.recs, i, s.moves[i], stale) && i !in Named(rows)
    ensures RowOk(c, s.recs + rows, i, s.moves[i], stale)
  {
    forall r | r in rows ensures r.debit.move != i && r.credit.move != i {
      assert r.debit.move in Named(rows) && r.credit.move in Named(rows);
    }
    SettledOfStrangers(s.recs, rows, i);
    RowOkFrame(c, s.recs, s.recs + rows, i, s.moves[i], stale);
  }

  /** New reconciliations that fit: the rows they name await a refresh, the rest is untouched. */
  lemma AddRowsKeep(c: Chart, s: State, rows: seq<Reconcile>, stale: set<MoveId>)
    requires InvExcept(c, s, stale)
    requires forall r :: r in rows ==> RecOk(s, r)
    requires RowsFit(s, rows) && NamesOwing(c, s, rows)
    ensures Keeps(c, s, s.(recs := s.recs + rows), stale + Named(rows))
  {
    hide RowOk, Named, RowsFit, Owing;
    var s' := s.(recs := s.recs + rows);
    forall r | r in s'.recs ensures RecOk(s', r) {
      assert RecOk(s, r);
    }
    forall i | 0 <= i < |s.moves| ensures RowOk(c, s'.recs, i, s.moves[i], i in stale + Named(rows)) {
      assert RowOk(c, s.recs, i, s.moves[i], i in stale);
      if i in Named(rows) {
        RowOkForgets(c, s.recs, i, s.moves[i], i in stale);
        NamedIsOwing(c, s, rows, i);
        AddedRowOk(c, s, rows, i);
      } else {
        StrangerRowOk(c, s, rows, i, i in stale);
      }
    }
  }

  lemma NamedIsOwing(c: Chart, s: State, rows: seq<Reconcile>, i: MoveId)
    requires NamesOwing(c, s, rows) && i in Named(rows) && i < |s.moves|
    ensures Owing(c, s.moves[i])
  {
  }

  lemma RowOkForgets(c: Chart, recs: seq<Reconcile>, i: MoveId, m: Move, stale: bool)
    requires RowOk(c, recs, i, m, stale)
    ensures RowOk(c, recs, i, m, true)
  {
  }

  lemma AddedRowOk(c: Chart, s: State, rows: seq<Reconcile>, i: MoveId)
    requires i < |s.moves| && RowOk(c, s.recs, i, s.moves[i], true) && Owing(c, s.moves[i])
    requires forall r :: r in rows ==> RecOk(s, r)
    requires RowsFit(s, rows) && NamesOwing(c, s, rows)
    ensures RowOk(c, s.recs + rows, i, s.moves[i], true)
  {
    var m := s.moves[i];
    if m.stage.Posted? && IsItem(m) {
      OnlyCounterpart(c, s, rows, i);
    }
    assert forall k: nat :: MyrLine(s, i, k) ==> Settled(s.recs + rows, LineRef(i, k)) <= LineGross(m.lines[k]);
    if m.stage.Posted? && IsItem(m) && m.rate.None? && Counterpart(c, m.lines).Some? {
      var k := Counterpart(c, m.lines).value;
      SettledOfConcat(s.recs, rows, LineRef(i, k));
      SettledNonNegative(rows, LineRef(i, k));
    }
  }

  lemma OnlyCounterpart(c: Chart, s: State, rows: seq<Reconcile>, i: MoveId)
    requires i < |s.moves| && Covered(c, s.recs, i, s.moves[i]) && s.moves[i].stage.Posted? && IsItem(s.moves[i])
    requires NamesOwing(c, s, rows)
    ensures forall k: nat :: Counterpart(c, s.moves[i].lines) != Some(k) ==> Settled(s.recs + rows, LineRef(i, k)) == 0
  {
    hide Owing;
    forall k: nat | Counterpart(c, s.moves[i].lines) != Some(k) ensures Settled(s.recs + rows, LineRef(i, k)) == 0 {
      SettledOfConcat(s.recs, rows, LineRef(i, k));
      forall r | r in rows ensures r.debit != LineRef(i, k) && r.credit != LineRef(i, k) {
        assert Settleable(c, s, r.debit) && Settleable(c, s, r.credit);
      }
      SettledUntouched(rows, LineRef(i, k));
    }
  }

  /** Where something is open, something is owed. */
  lemma OpenIsOwing(c: Chart, s: State, id: MoveId)
    requires forall r :: r in s.recs ==> RecOk(s, r)
    requires OpenCounterpart(c, s, id).Some? && OpenCounterpart(c, s, id).value.amount > 0
    ensures Owing(c, s.moves[id]) && Settleable(c, s, OpenCounterpart(c, s, id).value.line)
  {
    SettledNonNegative(s.recs, OpenCounterpart(c, s, id).value.line);
  }
}
