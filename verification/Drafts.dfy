/** Editing drafts by hand (`handlers.rs`, `handlers_documents.rs`): any kind of draft, documents and payments included. */
module Drafts {
  import opened Wrappers
  import opened Ledger
  import opened ServiceModel
  import opened CurrencyModel
  import opened DocumentsModel
  import opened Invariant
  import opened Periods
  import opened PostingKeeps

  predicate IsDraft(s: State, id: MoveId) {
    id < |s.moves| && s.moves[id].stage.Draft?
  }

  /** One more line, with an amount on exactly one side; refused when its row would be. */
  function AddLine(c: Chart, s: State, id: MoveId, account: AccountId, debit: Decimal, credit: Decimal): State {
    var line := Stored(NewLine(account, debit, credit, None));
    if debit < 0 || credit < 0 || (debit == 0) == (credit == 0) || !IsDraft(s, id) || !RowAccepted(c, line) then s
    else s.(moves := s.moves[id := s.moves[id].(lines := s.moves[id].lines + [line])])
  }

  function DeleteLine(s: State, id: MoveId, k: nat): State {
    if !IsDraft(s, id) || k >= |s.moves[id].lines| then s
    else s.(moves := s.moves[id := s.moves[id].(lines := s.moves[id].lines[..k] + s.moves[id].lines[k + 1..])])
  }

  /** The date on the journal-entry page. */
  function ChangeDate(s: State, id: MoveId, date: Date): State {
    if !IsDraft(s, id) then s else s.(moves := s.moves[id := s.moves[id].(date := date)])
  }

  /** The header on the document page: its partner, and both dates when one is given. */
  function EditHeader(s: State, id: MoveId, partner: PartnerId, date: Option<Date>): State {
    if !IsDraft(s, id) then s
    else
      var m := s.moves[id];
      s.(moves := s.moves[id := m.(partner := Some(partner),
                                   date := if date.Some? then date.value else m.date,
                                   invoiceDate := if date.Some? then date else m.invoiceDate)])
  }

  function CancelDraft(s: State, id: MoveId): State {
    if !IsDraft(s, id) then s else s.(moves := s.moves[id := s.moves[id].(stage := Cancelled)])
  }

  lemma AddLineKeeps(c: Chart, s: State, id: MoveId, account: AccountId, debit: Decimal, credit: Decimal)
    requires Inv(c, s)
    ensures Keeps(c, s, AddLine(c, s, id, account, debit, credit), {})
  {
    var t := AddLine(c, s, id, account, debit, credit);
    if t == s {
      GuardedSelf(s);
    } else {
      assert RowOk(c, s.recs, id, s.moves[id], false);
      RewriteDraftKeeps(c, s, id, t.moves[id], {});
    }
  }

  lemma DeleteLineKeeps(c: Chart, s: State, id: MoveId, k: nat)
    requires Inv(c, s)
    ensures Keeps(c, s, DeleteLine(s, id, k), {})
  {
    var t := DeleteLine(s, id, k);
    if t == s {
      GuardedSelf(s);
    } else {
      assert RowOk(c, s.recs, id, s.moves[id], false);
      assert forall l :: l in t.moves[id].lines ==> l in s.moves[id].lines;
      RewriteDraftKeeps(c, s, id, t.moves[id], {});
    }
  }

  lemma CancelDraftKeeps(c: Chart, s: State, id: MoveId)
    requires Inv(c, s)
    ensures Keeps(c, s, CancelDraft(s, id), {})
  {
    if IsDraft(s, id) {
      assert RowOk(c, s.recs, id, s.moves[id], false);
      DraftIsUnnamed(s, id);
      ReplaceRowKeeps(c, s, id, s.moves[id].(stage := Cancelled), s.nextNumber, {}, {});
    } else {
      GuardedSelf(s);
    }
  }

  ghost predicate AllDaysKept(before: seq<Move>, after: seq<Move>) {
    forall d :: DayKept(before, after, d)
  }

  /** A draft with another date or partner: drafts are on no day of the books. */
  lemma RedatedKeeps(c: Chart, s: State, id: MoveId, row: Move)
    requires Inv(c, s) && IsDraft(s, id)
    requires row == s.moves[id].(partner := row.partner, date := row.date, invoiceDate := row.invoiceDate)
    ensures Inv(c, s.(moves := s.moves[id := row]))
    ensures AllDaysKept(s.moves, s.moves[id := row])
  {
    var t := s.(moves := s.moves[id := row]);
    assert RowOk(c, s.recs, id, s.moves[id], false);
    DraftIsUnnamed(s, id);
    forall i | 0 <= i < |t.moves| ensures RowOk(c, t.recs, i, t.moves[i], false) {
      assert RowOk(c, s.recs, i, s.moves[i], false);
    }
    forall r | r in t.recs ensures RecOk(t, r) {
      assert RecOk(s, r);
    }
    NumbersOfRedated(s, id, row);
  }

  lemma NumbersOfRedated(s: State, id: MoveId, row: Move)
    requires NumbersOk(s) && id < |s.moves| && row.number == s.moves[id].number
    ensures NumbersOk(s.(moves := s.moves[id := row]))
  {
  }

  lemma ChangeDateKeeps(c: Chart, s: State, id: MoveId, date: Date)
    requires Inv(c, s)
    ensures Inv(c, ChangeDate(s, id, date))
    ensures AllDaysKept(s.moves, ChangeDate(s, id, date).moves)
  {
    if IsDraft(s, id) {
      RedatedKeeps(c, s, id, ChangeDate(s, id, date).moves[id]);
    }
  }

  lemma EditHeaderKeeps(c: Chart, s: State, id: MoveId, partner: PartnerId, date: Option<Date>)
    requires Inv(c, s)
    ensures Inv(c, EditHeader(s, id, partner, date))
    ensures AllDaysKept(s.moves, EditHeader(s, id, partner, date).moves)
  {
    if IsDraft(s, id) {
      RedatedKeeps(c, s, id, EditHeader(s, id, partner, date).moves[id]);
    }
  }
}
