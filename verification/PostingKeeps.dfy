/** The posting engine keeps the invariant and the frozen periods. */
module PostingKeeps {
  import opened Wrappers
  import opened Ledger
  import opened ServiceModel
  import opened CurrencyModel
  import opened DocumentsModel
  import opened Invariant
  import opened Periods

  ghost predicate Keeps(c: Chart, s: State, s': State, stale: set<MoveId>) {
    InvExcept(c, s', stale) && Guarded(s, s')
  }

  ghost predicate Unnamed(s: State, id: MoveId) {
    forall r :: r in s.recs ==> r.debit.move != id && r.credit.move != id
  }

  /**
   Replacing one row by a sound one. Its identity and number stay, a frozen row stays on or off the
   books, and a row that reconciliations name stays posted with the same amounts.
   */
  lemma ReplaceRowKeeps(c: Chart, s: State, id: MoveId, row: Move, next: nat, stale: set<MoveId>, stale': set<MoveId>)
    requires InvExcept(c, s, stale) && id < |s.moves| && stale - {id} <= stale'
    requires RowOk(c, s.recs, id, row, id in stale')
    requires SameIdentity(s.moves[id], row)
    requires (row.number == s.moves[id].number && next == s.nextNumber) ||
             (row.number == Some(s.nextNumber) && next == s.nextNumber + 1)
    requires Frozen(s, row.date) ==> SamePosting(s.moves[id], row)
    requires Unnamed(s, id) || (row.stage.Posted? && SameLines(s.moves[id].lines, row.lines))
    ensures Keeps(c, s, s.(moves := s.moves[id := row], nextNumber := next), stale')
  {
    hide RecOk, NumbersOk, Unnamed, RowOk;
    RecsStay(s, id, row, next);
    NumbersStay(s, id, row, next);
    var s' := s.(moves := s.moves[id := row], nextNumber := next);
    forall i | 0 <= i < |s.moves| ensures RowOk(c, s.recs, i, s'.moves[i], i in stale') {
      if i != id {
        assert RowOk(c, s.recs, i, s.moves[i], i in stale);
        RowOkWeakens(c, s.recs, i, s.moves[i], i in stale, i in stale');
      }
    }
  }

  lemma RowOkWeakens(c: Chart, recs: seq<Reconcile>, id: MoveId, m: Move, stale: bool, stale': bool)
    requires RowOk(c, recs, id, m, stale) && (stale ==> stale')
    ensures RowOk(c, recs, id, m, stale')
  {
  }

  /** Reconciliations stay sound when a row is replaced that none names, or by one with the same amounts. */
  lemma RecsStay(s: State, id: MoveId, row: Move, next: nat)
    requires id < |s.moves| && (Unnamed(s, id) || (row.stage.Posted? && SameLines(s.moves[id].lines, row.lines)))
    requires forall r :: r in s.recs ==> RecOk(s, r)
    ensures var s' := s.(moves := s.moves[id := row], nextNumber := next);
            forall r :: r in s.recs ==> RecOk(s', r)
  {
    var s' := s.(moves := s.moves[id := row], nextNumber := next);
    forall r | r in s.recs ensures RecOk(s', r) {
      assert RecOk(s, r);
    }
  }

  lemma NumbersStay(s: State, id: MoveId, row: Move, next: nat)
    requires NumbersOk(s) && id < |s.moves| && SameIdentity(s.moves[id], row)
    requires (row.number == s.moves[id].number && next == s.nextNumber) ||
             (row.number == Some(s.nextNumber) && next == s.nextNumber + 1)
    ensures NumbersOk(s.(moves := s.moves[id := row], nextNumber := next))
  {
  }

  lemma DraftIsUnnamed(s: State, id: MoveId)
    requires forall r :: r in s.recs ==> RecOk(s, r)
    requires id < |s.moves| && !s.moves[id].stage.Posted?
    ensures Unnamed(s, id)
  {
    forall r | r in s.recs ensures r.debit.move != id && r.credit.move != id {
      assert RecOk(s, r);
    }
  }

  /** A new unnumbered draft. */
  lemma AppendKeeps(c: Chart, s: State, row: Move, stale: set<MoveId>)
    requires InvExcept(c, s, stale)
    requires row.stage.Draft? && row.paymentState.NotPaid? && row.number.None? && Shaped(c, row) && RowsAccepted(c, row.lines)
    ensures Keeps(c, s, s.(moves := s.moves + [row]), stale)
  {
    var s' := s.(moves := s.moves + [row]);
    forall r | r in s'.recs ensures RecOk(s', r) {
      assert RecOk(s, r);
    }
    forall i | 0 <= i < |s'.moves| ensures RowOk(c, s'.recs, i, s'.moves[i], i in stale) {
    }
  }

  /** Rewriting a draft: no reconciliation can name it. */
  lemma RewriteDraftKeeps(c: Chart, s: State, id: MoveId, row: Move, stale: set<MoveId>)
    requires InvExcept(c, s, stale) && id < |s.moves| && s.moves[id].stage.Draft?
    requires row.stage.Draft? && row.paymentState.NotPaid? && SameIdentity(s.moves[id], row) && row.number == s.moves[id].number
    requires Shaped(c, row) && RowsAccepted(c, row.lines)
    ensures Keeps(c, s, s.(moves := s.moves[id := row]), stale)
  {
    DraftIsUnnamed(s, id);
    ReplaceRowKeeps(c, s, id, row, s.nextNumber, stale, stale);
  }

  /** Just posted, nothing settled: the row is as `post_move` writes it. */
  lemma FreshlyPostedRow(c: Chart, recs: seq<Reconcile>, id: MoveId, m: Move, number: nat)
    requires RowOk(c, recs, id, m, true) && m.stage.Draft? && Balanced(m.lines)
    requires forall k: nat :: Settled(recs, LineRef(id, k)) == 0 && SettledCurrency(recs, LineRef(id, k)) == 0
    ensures RowOk(c, recs, id, PostedRow(m, number, SumDebit(m.lines)), false)
    ensures IsItem(m) ==> AsPosted(c, recs, id, PostedRow(m, number, SumDebit(m.lines)))
  {
    var p := PostedRow(m, number, SumDebit(m.lines));
    SumsAreNonNegative(m.lines);
    assert SumDebit(m.lines) > 0;
    forall k: nat | k < |p.lines| && p.lines[k].foreign.None? ensures Settled(recs, LineRef(id, k)) <= LineGross(p.lines[k]) {
      assert OneSided(p.lines[k]);
    }
  }

  lemma PostKeeps(c: Chart, s: State, id: MoveId, stale: set<MoveId>)
    requires InvExcept(c, s, stale)
    ensures Keeps(c, s, PostMove(s, id).db, stale)
    ensures PostMove(s, id).result.Ok? && IsItem(s.moves[id]) ==> AsPosted(c, s.recs, id, PostMove(s, id).db.moves[id])
  {
    PostMoveEffect(s, id);
    var r := PostMove(s, id);
    if r.result.Ok? {
      var m := s.moves[id];
      assert RowOk(c, s.recs, id, m, id in stale);
      DraftIsUnnamed(s, id);
      NothingSettled(s, id);
      FreshlyPostedRow(c, s.recs, id, m, r.result.value);
      hide RowOk;
      ReplaceRowKeeps(c, s, id, PostedRow(m, r.result.value, SumDebit(m.lines)), r.db.nextNumber, stale, stale);
    } else {
      GuardedSelf(s);
    }
  }

  /** A new draft, of any kind, with its lines rounded to the storage precision. */
  lemma CreateMoveKeeps(c: Chart, s: State, entry: NewMove, stale: set<MoveId>)
    requires InvExcept(c, s, stale)
    ensures Keeps(c, s, CreateMove(c, s, entry).db, stale)
  {
    if CreateMove(c, s, entry).result.Ok? {
      AppendKeeps(c, s, Blank(entry), stale);
    } else {
      GuardedSelf(s);
    }
  }

  lemma CreateAndPostKeeps(c: Chart, s: State, entry: NewMove, stale: set<MoveId>)
    requires InvExcept(c, s, stale)
    ensures Keeps(c, s, CreateAndPost(c, s, entry).db, stale)
  {
    var created := CreateMove(c, s, entry);
    CreateMoveKeeps(c, s, entry, stale);
    if Verdict(InputAmounts(entry.lines)).Ok? && created.result.Ok? {
      PostKeeps(c, created.db, |s.moves|, stale);
      GuardedChain(s, created.db, PostMove(created.db, |s.moves|).db);
    } else {
      GuardedSelf(s);
    }
  }

  /** A flag or a link on a posted row that is no longer tracked. */
  lemma MarkKeeps(c: Chart, s: State, id: MoveId, row: Move, stale: set<MoveId>, stale': set<MoveId>)
    requires InvExcept(c, s, stale) && id < |s.moves| && s.moves[id].stage.Posted? && stale - {id} <= stale'
    requires SameEntry(s.moves[id], row) && row.lines == s.moves[id].lines
    requires !Tracked(c, row) && (id in stale' || SettledIsShown(c, s.recs, id, row))
    ensures Keeps(c, s, s.(moves := s.moves[id := row]), stale')
  {
    SameEntryFacts(c, s.recs, id, s.moves[id], row);
    ReplaceRowKeeps(c, s, id, row, s.nextNumber, stale, stale');
  }

  /** A row with the same residual shows what it showed. */
  lemma StillShown(c: Chart, s: State, id: MoveId, row: Move, stale: set<MoveId>)
    requires InvExcept(c, s, stale) && id < |s.moves| && id !in stale
    requires row == s.moves[id].(paymentState := row.paymentState)
    ensures SettledIsShown(c, s.recs, id, row)
  {
    assert RowOk(c, s.recs, id, s.moves[id], false);
  }

  /** A reversal is its counter-entry, the link on it, and the flag on the original. */
  lemma ReverseInSteps(c: Chart, s: State, id: MoveId, date: Date)
    requires id < |s.moves| && s.moves[id].stage.Posted? && Balanced(s.moves[id].lines)
    ensures var r := CreateAndPost(c, s, ReversalOf(s.moves[id], date));
            if r.result.Err? then ReverseMove(c, s, id, date) == r
            else
              && |r.db.moves| == |s.moves| + 1 && r.db.moves[id] == s.moves[id]
              && r.db.moves[|s.moves|].stage.Posted? && r.db.moves[|s.moves|].kind.Entry?
              && var linked := r.db.(moves := r.db.moves[|s.moves| := r.db.moves[|s.moves|].(reverses := Some(id))]);
                 ReverseMove(c, s, id, date).db == linked.(moves := linked.moves[id := linked.moves[id].(paymentState := Reversed)])
  {
    SwappedIsBalanced(s.moves[id].lines);
    CreateAndPostEffect(c, s, ReversalOf(s.moves[id], date), Swapped(s.moves[id].lines));
    hide CreateAndPost, Balanced, RowsAccepted, Frozen, SumDebit;
  }

  lemma EntryIsNotShown(c: Chart, recs: seq<Reconcile>, id: MoveId, m: Move)
    requires m.kind.Entry?
    ensures SettledIsShown(c, recs, id, m) && !Tracked(c, m)
  {
  }

  lemma ReverseKeeps(c: Chart, s: State, id: MoveId, date: Date, stale: set<MoveId>)
    requires InvExcept(c, s, stale)
    ensures Keeps(c, s, ReverseMove(c, s, id, date).db, stale)
  {
    hide InvExcept, Guarded, CreateAndPost, Balanced, SettledIsShown, Tracked, SameEntry;
    if id < |s.moves| && s.moves[id].stage.Posted? {
      PostedIsBalanced(c, s, stale, id);
      ReverseInSteps(c, s, id, date);
      CreateAndPostKeeps(c, s, ReversalOf(s.moves[id], date), stale);
      var r := CreateAndPost(c, s, ReversalOf(s.moves[id], date));
      if r.result.Ok? {
        hide ReverseMove;
        LinkAndFlagKeep(c, s, r.db, |s.moves|, id, stale);
      }
    } else {
      GuardedSelf(s);
    }
  }

  lemma LinkAndFlagKeep(c: Chart, s: State, t: State, n: MoveId, id: MoveId, stale: set<MoveId>)
    requires Keeps(c, s, t, stale) && id < n < |t.moves| && t.moves[id].stage.Posted?
    requires t.moves[n].stage.Posted? && t.moves[n].kind.Entry?
    ensures var linked := t.(moves := t.moves[n := t.moves[n].(reverses := Some(id))]);
            Keeps(c, s, linked.(moves := linked.moves[id := linked.moves[id].(paymentState := Reversed)]), stale)
  {
    hide InvExcept, Guarded, SettledIsShown, Tracked;
    var link := t.moves[n].(reverses := Some(id));
    var linked := t.(moves := t.moves[n := link]);
    EntryIsNotShown(c, t.recs, n, link);
    MarkKeeps(c, t, n, link, stale, stale);
    var flagged := linked.moves[id].(paymentState := Reversed);
    if id !in stale {
      StillShown(c, linked, id, flagged, stale);
    }
    ReversedIsUntracked(c, flagged);
    MarkKeeps(c, linked, id, flagged, stale, stale);
    GuardedChain(s, t, linked);
    GuardedChain(s, linked, linked.(moves := linked.moves[id := flagged]));
  }

  lemma ReversedIsUntracked(c: Chart, m: Move)
    requires m.paymentState.Reversed?
    ensures !Tracked(c, m)
  {
  }

  lemma UnpostedRowOk(c: Chart, s: State, id: MoveId, stale: set<MoveId>)
    requires InvExcept(c, s, stale) && id < |s.moves| && s.moves[id].stage.Posted? && Unnamed(s, id)
    ensures RowOk(c, s.recs, id, UnpostMove(s, id).db.moves[id], false)
  {
    var m := s.moves[id];
    assert RowOk(c, s.recs, id, m, id in stale);
    if Counterpart(c, m.lines).Some? {
      var k := Counterpart(c, m.lines).value;
      SettledUntouched(s.recs, LineRef(id, k));
      assert OneSided(m.lines[k]);
    }
  }

  /** Taking a row off the books: its date must be open and nothing may be reconciled to it. */
  lemma UnpostKeeps(c: Chart, s: State, id: MoveId, stale: set<MoveId>)
    requires InvExcept(c, s, stale)
    requires id < |s.moves| && s.moves[id].stage.Posted? ==>
               && !Frozen(s, s.moves[id].date)
               && Unnamed(s, id)
    ensures Keeps(c, s, UnpostMove(s, id).db, stale)
  {
    if id < |s.moves| && s.moves[id].stage.Posted? {
      UnpostedRowOk(c, s, id, stale);
      ReplaceRowKeeps(c, s, id, UnpostMove(s, id).db.moves[id], s.nextNumber, stale, stale);
    } else {
      GuardedSelf(s);
    }
  }
}
