/** Cancelling and resetting: what is undone, and that the invariant and the frozen periods survive. */
module UndoKeeps {
  import opened Wrappers
  import opened Ledger
  import opened ServiceModel
  import opened CurrencyModel
  import opened DocumentsModel
  import opened SettlementModel
  import opened Invariant
  import opened Periods
  import opened PostingKeeps
  import opened DocumentsKeep
  import opened PaymentsKeep
  import opened Entries

  // ─── cancel_document ────────────────────────────────────────────────

  lemma {:induction false} CounterpartOfSwapped(c: Chart, lines: seq<Line>, from: nat)
    requires from <= |lines|
    ensures Counterpart(c, Swapped(lines), from) == Counterpart(c, lines, from)
    decreases |lines| - from
  {
    if from < |lines| {
      CounterpartOfSwapped(c, lines, from + 1);
    }
  }

  /** The reversal's line on the counterpart account is the mirrored counterpart line, wholly open. */
  lemma MirrorLine(c: Chart, s: State, id: MoveId, rid: MoveId)
    requires id < |s.moves| && rid < |s.moves|
    requires s.moves[id].stage.Posted? && s.moves[rid].stage.Posted?
    requires Balanced(s.moves[id].lines) && s.moves[rid].lines == Swapped(s.moves[id].lines)
    requires OpenCounterpart(c, s, id).Some?
    requires forall k: nat :: Settled(s.recs, LineRef(rid, k)) == 0
    ensures var o := OpenCounterpart(c, s, id).value;
            var k := o.line.index;
            && LineOn(s.moves[rid].lines, s.moves[id].lines[k].account) == Some(k)
            && OpenCounterpart(c, s, rid) == Some(OpenLine(LineRef(rid, k), LineGross(s.moves[id].lines[k]), s.moves[id].lines[k].credit != 0))
  {
    var lines := s.moves[id].lines;
    var k := Counterpart(c, lines).value;
    CounterpartOfSwapped(c, lines, 0);
    assert OneSided(lines[k]);
    var found := LineOn(Swapped(lines), lines[k].account);
    assert found.Some? ==> Swapped(lines)[found.value].account == lines[found.value].account;
  }

  lemma CancelKeeps(c: Chart, s: State, id: MoveId, date: Date)
    requires Inv(c, s)
    ensures Progress(c, s, CancelDocument(c, s, id, date).db, {}) || CancelDocument(c, s, id, date).db == s
    ensures CancelDocument(c, s, id, date).result.Ok? ==>
              && id < |s.moves| && s.moves[id].stage.Posted? && IsDocument(s.moves[id].kind) && s.moves[id].paymentState.NotPaid?
              && CancelDocument(c, s, id, date).result.value == |s.moves|
              && Cancelled(c, s, CancelDocument(c, s, id, date).db, id)
  {
    hide InvExcept, Guarded, Extends, ReverseMove, OpenOf, CloseAgainst, Cancelled, ReversedInto;
    if id < |s.moves| && s.moves[id].stage.Posted? && IsDocument(s.moves[id].kind) && s.moves[id].paymentState.NotPaid?
       && OpenCounterpart(c, s, id).Some? {
      var reversed := ReverseMove(c, s, id, date);
      ReverseProgress(c, s, id, date);
      if reversed.result.Ok? {
        CancelReversed(c, s, reversed.db, id, date);
      }
    }
  }

  lemma ReverseProgress(c: Chart, s: State, id: MoveId, date: Date)
    requires Inv(c, s) && id < |s.moves| && s.moves[id].stage.Posted?
    ensures Progress(c, s, ReverseMove(c, s, id, date).db, {})
    ensures ReverseMove(c, s, id, date).result.Ok? ==> ReversedInto(s, ReverseMove(c, s, id, date).db, id)
    ensures ReverseMove(c, s, id, date).result.Ok? ==> ReverseMove(c, s, id, date).result.value == |s.moves|
  {
    ReverseKeeps(c, s, id, date, {});
    PostedIsBalanced(c, s, {}, id);
    hide InvExcept, Guarded, Extends, ReverseMove, Balanced, ReversedInto;
    ReversedRows(c, s, id, date);
  }

  lemma ReversedRows(c: Chart, s: State, id: MoveId, date: Date)
    requires id < |s.moves| && s.moves[id].stage.Posted? && Balanced(s.moves[id].lines)
    ensures var r := ReverseMove(c, s, id, date);
            Extends(s, r.db) && (r.result.Ok? ==> r.result.value == |s.moves| && ReversedInto(s, r.db, id))
  {
    ReverseMoveEffect(c, s, id, date);
    hide ReverseMove, Balanced, RowsAccepted, Frozen, SumDebit;
  }

  /** The tables right after a reversal of `id` was posted as the last row. */
  ghost predicate ReversedInto(s: State, t: State, id: MoveId) {
    && id < |s.moves| && |t.moves| == |s.moves| + 1 && t.recs == s.recs
    && t.moves[id] == s.moves[id].(paymentState := Reversed)
    && (forall i :: 0 <= i < |s.moves| && i != id ==> t.moves[i] == s.moves[i])
    && t.moves[|s.moves|].stage.Posted? && t.moves[|s.moves|].kind.Entry?
    && t.moves[|s.moves|].lines == Swapped(s.moves[id].lines)
  }

  /**
   What a cancellation leaves: the original flagged as reversed with nothing outstanding, a posted
   counter-entry, one reconciliation that closes both, and every other row as it was.
   */
  ghost predicate Cancelled(c: Chart, s: State, u: State, id: MoveId) {
    && |u.moves| == |s.moves| + 1 && id < |s.moves| && |u.recs| == |s.recs| + 1 && u.recs[..|s.recs|] == s.recs
    && (forall i :: 0 <= i < |s.moves| && i != id ==> u.moves[i] == s.moves[i])
    && u.moves[id].paymentState.Reversed? && u.moves[id].residual == 0
    && u.moves[|s.moves|].stage.Posted? && u.moves[|s.moves|].lines == Swapped(s.moves[id].lines)
    && (Company(s.moves[id]) && HeaderAgrees(c, s.moves[id]) ==>
          && OpenCounterpart(c, u, id).Some? && OpenCounterpart(c, u, id).value.amount == 0
          && OpenCounterpart(c, u, |s.moves|).Some? && OpenCounterpart(c, u, |s.moves|).value.amount == 0)
  }

  lemma LineOfRow(c: Chart, recs: seq<Reconcile>, id: MoveId, m: Move)
    ensures OpenOf(c, recs, id, m).Some? ==> OpenOf(c, recs, id, m).value.line.index < |m.lines|
  {
  }

  /** The document and its mirror, once the reversal is posted: open lines on opposite sides. */
  lemma MirrorFacts(c: Chart, s: State, t: State, id: MoveId)
    requires Inv(c, s) && ReversedInto(s, t, id) && s.moves[id].stage.Posted? && OpenCounterpart(c, s, id).Some?
    ensures var o := OpenCounterpart(c, s, id).value;
            var k := o.line.index;
            && k < |s.moves[id].lines|
            && var b := OpenLine(LineRef(|s.moves|, k), LineGross(s.moves[id].lines[k]), s.moves[id].lines[k].credit != 0);
               && LineOn(t.moves[|s.moves|].lines, s.moves[id].lines[k].account) == Some(k)
               && OpenCounterpart(c, t, id) == Some(o) && OpenCounterpart(c, t, |s.moves|) == Some(b) && o.amount <= b.amount
               && Opposite(t, o.isDebit, b.line)
  {
    PostedIsBalanced(c, s, {}, id);
    RecsAreOk(c, s, {});
    hide InvExcept, RecOk;
    NothingSettled(s, |s.moves|);
    MirrorLine(c, t, id, |s.moves|);
    SameOpenLines(c, s.recs, id, s.moves[id], t.moves[id]);
    OpenIsWithinGross(c, s, id);
    MirrorIsOpposite(c, s, t, id);
    hide LineOn, OpenOf, LineGross, Balanced, Opposite;
  }

  lemma OpenIsWithinGross(c: Chart, s: State, id: MoveId)
    requires OpenCounterpart(c, s, id).Some? && forall r :: r in s.recs ==> RecOk(s, r)
    ensures var o := OpenCounterpart(c, s, id).value;
            o.line.index < |s.moves[id].lines| && o.amount <= LineGross(s.moves[id].lines[o.line.index])
  {
    SettledNonNegative(s.recs, OpenCounterpart(c, s, id).value.line);
  }

  lemma MirrorIsOpposite(c: Chart, s: State, t: State, id: MoveId)
    requires ReversedInto(s, t, id) && Balanced(s.moves[id].lines) && OpenCounterpart(c, s, id).Some?
    ensures var o := OpenCounterpart(c, s, id).value;
            Opposite(t, o.isDebit, LineRef(|s.moves|, o.line.index))
  {
    assert OneSided(s.moves[id].lines[OpenCounterpart(c, s, id).value.line.index]);
  }

  /** Once the reversal is posted, a cancellation closes both sides against each other. */
  lemma CancelShape(c: Chart, s: State, t: State, id: MoveId, date: Date)
    requires Inv(c, s) && ReversedInto(s, t, id)
    requires s.moves[id].stage.Posted? && IsDocument(s.moves[id].kind) && s.moves[id].paymentState.NotPaid?
    requires OpenCounterpart(c, s, id).Some?
    requires ReverseMove(c, s, id, date) == Reply(t, Ok(|s.moves|))
    ensures var o := OpenCounterpart(c, s, id).value;
            var b := OpenLine(LineRef(|s.moves|, o.line.index), LineGross(s.moves[id].lines[o.line.index]),
                              s.moves[id].lines[o.line.index].credit != 0);
            && CancelDocument(c, s, id, date) ==
               (if o.amount <= 0 then Reply(t, Err(RowRejected)) else Reply(CloseAgainst(t, id, o, b.line), Ok(|s.moves|)))
            && OpenCounterpart(c, t, id) == Some(o) && OpenCounterpart(c, t, |s.moves|) == Some(b) && o.amount <= b.amount
            && Opposite(t, o.isDebit, b.line)
  {
    hide Inv, Guarded, ReverseMove, OpenOf, CloseAgainst;
    MirrorFacts(c, s, t, id);
    LineOfRow(c, s.recs, id, s.moves[id]);
  }

  lemma CancelReversed(c: Chart, s: State, t: State, id: MoveId, date: Date)
    requires Inv(c, s) && Progress(c, s, t, {}) && ReversedInto(s, t, id)
    requires s.moves[id].stage.Posted? && IsDocument(s.moves[id].kind) && s.moves[id].paymentState.NotPaid?
    requires OpenCounterpart(c, s, id).Some?
    requires ReverseMove(c, s, id, date) == Reply(t, Ok(|s.moves|))
    ensures Progress(c, s, CancelDocument(c, s, id, date).db, {})
    ensures CancelDocument(c, s, id, date).result.Ok? ==>
              CancelDocument(c, s, id, date).result.value == |s.moves| && Cancelled(c, s, CancelDocument(c, s, id, date).db, id)
  {
    CancelShape(c, s, t, id, date);
    hide InvExcept, Guarded, CancelDocument, ReverseMove;
    var o := OpenCounterpart(c, s, id).value;
    var b := OpenCounterpart(c, t, |s.moves|).value;
    if o.amount > 0 {
      ClosedProgress(c, s, t, id, o, b);
      ClosedIsCancelled(c, s, t, id, o, b);
    }
  }

  lemma ClosedProgress(c: Chart, s: State, t: State, id: MoveId, o: OpenLine, b: OpenLine)
    requires Progress(c, s, t, {}) && ReversedInto(s, t, id) && s.moves[id].stage.Posted?
    requires OpenCounterpart(c, t, id) == Some(o) && OpenCounterpart(c, t, |s.moves|) == Some(b)
    requires 0 < o.amount <= b.amount && Opposite(t, o.isDebit, b.line)
    ensures Progress(c, s, CloseAgainst(t, id, o, b.line), {})
  {
    hide InvExcept, Guarded, OpenOf;
    var rec := Pair(o.line, o.isDebit, b.line, o.amount, 0);
    var u := AddRec(t, rec);
    var rid := |s.moves|;
    PairOfOpen(c, t, id, rid, o, b);
    ProgressChain(c, s, t, u, {}, {} + {id, rid});
    var v := CloseAgainst(t, id, o, b.line);
    NothingLeftOpen(c, t, id, o, b.line);
    MarkKeeps(c, u, id, v.moves[id], {} + {id, rid}, {rid});
    assert v == u.(moves := u.moves[id := v.moves[id]]);
    ProgressChain(c, s, u, v, {} + {id, rid}, {rid});
    InvForget(c, v, {rid}, rid);
    InvWeaken(c, v, {rid} - {rid}, {});
  }

  /** What is open on the document is reconciled, and its residual is cleared. */
  lemma NothingLeftOpen(c: Chart, t: State, id: MoveId, o: OpenLine, mirror: LineRef)
    requires id < |t.moves| && OpenCounterpart(c, t, id) == Some(o) && mirror.move != id
    ensures var v := CloseAgainst(t, id, o, mirror);
            SettledIsShown(c, v.recs, id, v.moves[id])
  {
    SettledOfOneMore(t.recs, Pair(o.line, o.isDebit, mirror, o.amount, 0), o.line);
  }

  /** Two open lines on opposite sides are reconciled for what is open on the first. */
  lemma PairOfOpen(c: Chart, t: State, id: MoveId, rid: MoveId, o: OpenLine, b: OpenLine)
    requires Inv(c, t) && id < |t.moves| && rid < |t.moves| && id != rid && t.moves[id].stage.Posted? && t.moves[rid].stage.Posted?
    requires OpenCounterpart(c, t, id) == Some(o) && OpenCounterpart(c, t, rid) == Some(b)
    requires 0 < o.amount <= b.amount && Opposite(t, o.isDebit, b.line)
    ensures o.line.move == id && b.line.move == rid
    ensures Progress(c, t, AddRec(t, Pair(o.line, o.isDebit, b.line, o.amount, 0)), {} + {id, rid})
  {
    RecsAreOk(c, t, {});
    OpenIsOwing(c, t, id);
    OpenIsOwing(c, t, rid);
    hide InvExcept, Guarded, Owing, RecOk, OnSides, Settleable;
    OpenHasRoom(c, t, id, o.amount);
    OpenHasRoom(c, t, rid, o.amount);
    PairOnSides(c, t, {}, id, b.line, o.amount, 0);
    PairProgress(c, t, {}, o.line, b.line, Pair(o.line, o.isDebit, b.line, o.amount, 0));
  }

  lemma OpenHasRoom(c: Chart, s: State, id: MoveId, amount: int)
    requires OpenCounterpart(c, s, id).Some? && s.moves[id].stage.Posted? && amount <= OpenCounterpart(c, s, id).value.amount
    ensures Room(s, OpenCounterpart(c, s, id).value.line, amount) && OpenCounterpart(c, s, id).value.line.move == id
  {
  }

  /** A MYR document cached as unpaid, whose header agrees with its GL, is open in full. */
  lemma UnpaidIsWhollyOpen(c: Chart, s: State, id: MoveId)
    requires Inv(c, s) && id < |s.moves| && s.moves[id].stage.Posted? && IsDocument(s.moves[id].kind)
    requires s.moves[id].paymentState.NotPaid? && Company(s.moves[id]) && OpenCounterpart(c, s, id).Some?
    requires HeaderAgrees(c, s.moves[id])
    ensures var o := OpenCounterpart(c, s, id).value;
            o.amount == LineGross(s.moves[id].lines[o.line.index])
  {
    assert RowOk(c, s.recs, id, s.moves[id], false);
    assert forall r :: r in s.recs ==> RecOk(s, r);
    SettledNonNegative(s.recs, OpenCounterpart(c, s, id).value.line);
  }

  lemma ClosedIsCancelled(c: Chart, s: State, t: State, id: MoveId, o: OpenLine, b: OpenLine)
    requires Inv(c, s) && ReversedInto(s, t, id)
    requires s.moves[id].stage.Posted? && IsDocument(s.moves[id].kind) && s.moves[id].paymentState.NotPaid?
    requires OpenCounterpart(c, s, id) == Some(o) && OpenCounterpart(c, t, id) == Some(o)
    requires OpenCounterpart(c, t, |s.moves|) == Some(b) && b.amount == LineGross(s.moves[id].lines[o.line.index])
    ensures Cancelled(c, s, CloseAgainst(t, id, o, b.line), id)
  {
    var rec := Pair(o.line, o.isDebit, b.line, o.amount, 0);
    var u := CloseAgainst(t, id, o, b.line);
    if Company(s.moves[id]) && HeaderAgrees(c, s.moves[id]) {
      UnpaidIsWhollyOpen(c, s, id);
    }
    OpenNamesRow(c, t, id);
    OpenNamesRow(c, t, |s.moves|);
    OpenAfterRec(c, t.recs, rec, id, t.moves[id]);
    OpenAfterRec(c, t.recs, rec, |s.moves|, t.moves[|s.moves|]);
    SameOpenLines(c, u.recs, id, t.moves[id], u.moves[id]);
    hide InvExcept, Company, HeaderAgrees, LineGross, OpenOf;
  }

  lemma OpenNamesRow(c: Chart, s: State, id: MoveId)
    ensures OpenCounterpart(c, s, id).Some? ==> OpenCounterpart(c, s, id).value.line.move == id
  {
  }

  lemma SameOpenLines(c: Chart, recs: seq<Reconcile>, id: MoveId, a: Move, b: Move)
    requires a.lines == b.lines
    ensures OpenOf(c, recs, id, a) == OpenOf(c, recs, id, b)
  {
  }

  /** One more reconciliation closes an open line by its amount, if it names the line. */
  lemma OpenAfterRec(c: Chart, recs: seq<Reconcile>, r: Reconcile, id: MoveId, m: Move)
    ensures OpenOf(c, recs + [r], id, m) ==
            match OpenOf(c, recs, id, m)
            case None => None
            case Some(x) => Some(OpenLine(x.line, x.amount - (if r.debit == x.line || r.credit == x.line then r.amount else 0), x.isDebit))
  {
    if OpenOf(c, recs, id, m).Some? {
      SettledOfOneMore(recs, r, OpenOf(c, recs, id, m).value.line);
    }
  }


  /**
   When a cancellation is accepted: for a posted, unpaid, not yet reversed document with something open,
   on an open date. The counter-entry stands in the original's journal, on the given day, for its partner,
   and names it.
   */
  lemma CancelIsAcceptedWhen(c: Chart, s: State, id: MoveId, date: Date)
    requires Inv(c, s)
    ensures var r := CancelDocument(c, s, id, date);
            && (r.result.Ok? <==>
                  && id < |s.moves| && s.moves[id].stage.Posted? && IsDocument(s.moves[id].kind) && s.moves[id].paymentState.NotPaid?
                  && OpenCounterpart(c, s, id).Some? && OpenCounterpart(c, s, id).value.amount > 0
                  && s.moves[id].journal in c.journals && !Frozen(s, date))
            && (r.result.Ok? ==>
                  && |r.db.moves| == |s.moves| + 1
                  && PlainEntry(r.db.moves[|s.moves|], s.moves[id].journal, date, s.moves[id].partner)
                  && r.db.moves[|s.moves|].reverses == Some(id))
  {
    if id < |s.moves| && s.moves[id].stage.Posted? && IsDocument(s.moves[id].kind) && s.moves[id].paymentState.NotPaid?
       && OpenCounterpart(c, s, id).Some? {
      PostedIsBalanced(c, s, {}, id);
      assert RowsAccepted(c, s.moves[id].lines) by {
        assert RowOk(c, s.recs, id, s.moves[id], false);
      }
      hide InvExcept, ReverseMove, Balanced, RowsAccepted, OpenOf, CloseAgainst, Frozen, PlainEntry, ReversedInto, Mirrors;
      ReversalPosts(c, s, id, date);
      var reversed := ReverseMove(c, s, id, date);
      if reversed.result.Ok? {
        ReversedRows(c, s, id, date);
        CancelShape(c, s, reversed.db, id, date);
        var o := OpenCounterpart(c, s, id).value;
        CloseTouchesOne(reversed.db, id, o, LineRef(|s.moves|, o.line.index));
      } else {
        RefusedReversal(c, s, id, date);
      }
    } else {
      hide ReverseMove, OpenOf;
    }
  }

  lemma RefusedReversal(c: Chart, s: State, id: MoveId, date: Date)
    requires ReverseMove(c, s, id, date).result.Err?
    ensures CancelDocument(c, s, id, date).result.Err?
  {
    hide ReverseMove, OpenOf;
  }

  lemma CloseTouchesOne(t: State, id: MoveId, o: OpenLine, mirror: LineRef)
    requires id < |t.moves|
    ensures var v := CloseAgainst(t, id, o, mirror);
            |v.moves| == |t.moves| && forall i :: 0 <= i < |t.moves| && i != id ==> v.moves[i] == t.moves[i]
  {
  }

  // ─── reset_to_draft ─────────────────────────────────────────────────

  /**
   When a document can be taken back to draft: posted, not reversed, named by no reconciliation, and on a
   date that neither the lock, a closed year nor the tax lock covers. It keeps its number and its lines
   and shows nothing as open or paid; no other row changes.
   */
  lemma ResetToDraftEffect(c: Chart, s: State, id: MoveId)
    ensures ResetToDraft(c, s, id).result.Ok? <==>
              && id < |s.moves| && s.moves[id].stage.Posted? && IsDocument(s.moves[id].kind) && !s.moves[id].paymentState.Reversed?
              && (forall r :: r in s.recs ==> r.debit.move != id && r.credit.move != id)
              && !Frozen(s, s.moves[id].date) && !(s.taxLock.Some? && s.moves[id].date <= s.taxLock.value)
    ensures ResetToDraft(c, s, id).result.Ok? ==>
              ResetToDraft(c, s, id).db == s.(moves := s.moves[id := s.moves[id].(stage := Draft, paymentState := NotPaid, residual := 0)])
    ensures ResetToDraft(c, s, id).result.Err? ==> ResetToDraft(c, s, id).db == s
  {
    assert HasRecs(s.recs, id) <==> exists r :: r in s.recs && (r.debit.move == id || r.credit.move == id) by {
      if HasRecs(s.recs, id) {
        var i :| 0 <= i < |s.recs| && Touches(s.recs[i], id);
        assert s.recs[i] in s.recs;
      }
      if r :| r in s.recs && (r.debit.move == id || r.credit.move == id) {
        var i :| 0 <= i < |s.recs| && s.recs[i] == r;
        assert Touches(s.recs[i], id);
      }
    }
  }

  lemma ResetToDraftKeeps(c: Chart, s: State, id: MoveId)
    requires Inv(c, s)
    ensures Keeps(c, s, ResetToDraft(c, s, id).db, {})
  {
    hide InvExcept, Guarded, ResetBar, Frozen;
    ResetToDraftEffect(c, s, id);
    if ResetToDraft(c, s, id).result.Ok? {
      UnpostKeeps(c, s, id, {});
    } else {
      GuardedSelf(s);
    }
  }


  // ─── reset_payment_to_draft ─────────────────────────────────────────

  /** What the reconciliations of move `id` settle on a line. */
  function SettledBy(recs: seq<Reconcile>, id: MoveId, line: LineRef): int {
    if recs == [] then 0
    else
      var r := recs[|recs| - 1];
      SettledBy(recs[..|recs| - 1], id, line) +
      if Touches(r, id) && (r.debit == line || r.credit == line) then r.amount else 0
  }

  lemma {:induction false} DroppedRecs(recs: seq<Reconcile>, id: MoveId)
    ensures forall r :: r in DropRecs(recs, id) <==> r in recs && !Touches(r, id)
  {
    if recs != [] {
      DroppedRecs(recs[..|recs| - 1], id);
      assert recs == recs[..|recs| - 1] + [recs[|recs| - 1]];
    }
  }

  /** Dropping a payment's reconciliations gives every line back exactly what the payment had settled on it. */
  lemma {:induction false} DroppedSettled(recs: seq<Reconcile>, id: MoveId, line: LineRef)
    ensures Settled(DropRecs(recs, id), line) == Settled(recs, line) - SettledBy(recs, id, line)
  {
    if recs != [] {
      var rest, r := recs[..|recs| - 1], recs[|recs| - 1];
      DroppedSettled(rest, id, line);
      if !Touches(r, id) {
        SettledOfOneMore(DropRecs(rest, id), r, line);
      }
    }
  }

  lemma {:induction false} SettledByNonNegative(recs: seq<Reconcile>, id: MoveId, line: LineRef)
    requires forall r :: r in recs ==> r.amount > 0
    ensures SettledBy(recs, id, line) >= 0
  {
    if recs != [] {
      assert recs[|recs| - 1] in recs;
      SettledByNonNegative(recs[..|recs| - 1], id, line);
    }
  }

  /** The affected moves: the other ends of the dropped reconciliations, each once. */
  lemma {:induction false} AffectedFacts(recs: seq<Reconcile>, id: MoveId)
    ensures var a := Affected(recs, id);
            && (forall i, j :: 0 <= i < j < |a| ==> a[i] != a[j])
            && id !in a
            && (forall x :: x in a ==> exists r :: r in recs && Touches(r, id) && Touches(r, x))
            && (forall r :: r in recs && Touches(r, id) ==>
                  (r.debit.move == id || r.debit.move in a) && (r.credit.move == id || r.credit.move in a))
  {
    if recs != [] {
      var rest, last := recs[..|recs| - 1], recs[|recs| - 1];
      AffectedFacts(rest, id);
      assert recs == rest + [last];
      forall x | x in Affected(recs, id) ensures exists r :: r in recs && Touches(r, id) && Touches(r, x) {
        if x in Affected(rest, id) {
          var r :| r in rest && Touches(r, id) && Touches(r, x);
          assert r in recs;
        } else {
          assert last in recs;
        }
      }
    }
  }

  /** A row with its flags cleared and its columns recomputed. */
  function ReopenedRow(c: Chart, recs: seq<Reconcile>, id: MoveId, m: Move): Move {
    Refreshed(c, recs, id, m.(lines := Flag(c, m.lines, false)))
  }

  lemma ReopenIsOneRow(c: Chart, s: State, id: MoveId)
    requires id < |s.moves|
    ensures Reopen(c, s, id) == s.(moves := s.moves[id := ReopenedRow(c, s.recs, id, s.moves[id])])
  {
    hide Refreshed;
    var bare := s.moves[id].(lines := Flag(c, s.moves[id].lines, false));
    assert s.moves[id := bare][id := Refreshed(c, s.recs, id, bare)] == s.moves[id := Refreshed(c, s.recs, id, bare)];
  }

  lemma {:induction false} ReopenAllRows(c: Chart, s: State, ids: seq<MoveId>)
    requires forall i, j :: 0 <= i < j < |ids| ==> ids[i] != ids[j]
    requires forall x :: x in ids ==> x < |s.moves|
    ensures var t := ReopenAll(c, s, ids);
            && t == s.(moves := t.moves) && |t.moves| == |s.moves|
            && (forall i :: 0 <= i < |s.moves| ==>
                  t.moves[i] == if i in ids then ReopenedRow(c, s.recs, i, s.moves[i]) else s.moves[i])
  {
    hide Reopen, ReopenedRow;
    if ids != [] {
      var rest, last := ids[..|ids| - 1], ids[|ids| - 1];
      assert forall x :: x in rest ==> x in ids;
      ReopenAllRows(c, s, rest);
      assert ids == rest + [last] && last !in rest;
      assert last in ids;
      ReopenIsOneRow(c, ReopenAll(c, s, rest), last);
    }
  }

  lemma ReopenedRowOk(c: Chart, recs: seq<Reconcile>, recs': seq<Reconcile>, id: MoveId, m: Move)
    requires RowOk(c, recs, id, m, true) && m.stage.Posted? && Owing(c, m)
    requires forall k: nat :: 0 <= Settled(recs', LineRef(id, k)) <= Settled(recs, LineRef(id, k))
    ensures RowOk(c, recs', id, ReopenedRow(c, recs', id, m), false)
    ensures SameEntry(m, ReopenedRow(c, recs', id, m))
  {
    var bare := m.(lines := Flag(c, m.lines, false));
    FlagIsSameLines(c, m.lines, false);
    SameEntryFacts(c, recs, id, m, bare);
    FewerAreCovered(c, recs, recs', id, bare);
    RefreshedIsSameEntry(c, recs', id, bare);
    hide Balanced, RowsAccepted, Covered, SameLines, Owing;
    RefreshMakesCurrent(c, recs', id, bare);
    SameEntryChain(m, bare, Refreshed(c, recs', id, bare));
  }

  lemma FewerAreCovered(c: Chart, recs: seq<Reconcile>, recs': seq<Reconcile>, id: MoveId, m: Move)
    requires Covered(c, recs, id, m) && Owing(c, m)
    requires forall k: nat :: 0 <= Settled(recs', LineRef(id, k)) <= Settled(recs, LineRef(id, k))
    ensures Covered(c, recs', id, m)
  {
    forall k: nat | m.stage.Posted?
      ensures m.rate.None? && k < |m.lines| && m.lines[k].foreign.None? ==> Settled(recs', LineRef(id, k)) <= LineGross(m.lines[k])
      ensures IsItem(m) && Counterpart(c, m.lines) != Some(k) ==> Settled(recs', LineRef(id, k)) == 0
    {
      assert 0 <= Settled(recs', LineRef(id, k)) <= Settled(recs, LineRef(id, k));
    }
  }

  /** The tables after an accepted reset of payment `id`. */
  ghost predicate PaymentReset(c: Chart, s: State, t: State, id: MoveId) {
    var recs := DropRecs(s.recs, id);
    var affected := Affected(s.recs, id);
    && id < |s.moves| && t == s.(moves := t.moves, recs := recs) && |t.moves| == |s.moves|
    && t.moves[id] == s.moves[id].(lines := Unflagged(s.moves[id].lines), stage := Draft, paymentState := NotPaid, residual := 0)
    && (forall i :: 0 <= i < |s.moves| && i != id ==>
          t.moves[i] == if i in affected then ReopenedRow(c, recs, i, s.moves[i]) else s.moves[i])
  }

  lemma ResetPaymentEffect(c: Chart, s: State, id: MoveId)
    requires Inv(c, s)
    ensures ResetPaymentToDraft(c, s, id).result.Ok? <==>
              && id < |s.moves| && s.moves[id].stage.Posted? && s.moves[id].kind.Payment?
              && !Frozen(s, s.moves[id].date) && !(s.taxLock.Some? && s.moves[id].date <= s.taxLock.value)
    ensures ResetPaymentToDraft(c, s, id).result.Ok? ==>
              && ResetPaymentToDraft(c, s, id).result.value == |Affected(s.recs, id)|
              && PaymentReset(c, s, ResetPaymentToDraft(c, s, id).db, id)
    ensures ResetPaymentToDraft(c, s, id).result.Err? ==> ResetPaymentToDraft(c, s, id).db == s
  {
    if id < |s.moves| {
      assert RowOk(c, s.recs, id, s.moves[id], false);
      if s.moves[id].stage.Posted? && s.moves[id].kind.Payment? && ResetBar(s, s.moves[id].date).None? {
        ResetPaymentShape(c, s, id);
      }
    }
  }

  lemma ResetPaymentShape(c: Chart, s: State, id: MoveId)
    requires forall r :: r in s.recs ==> RecOk(s, r)
    requires id < |s.moves| && s.moves[id].stage.Posted? && s.moves[id].kind.Payment? && s.moves[id].rate.None?
    requires ResetBar(s, s.moves[id].date).None?
    ensures ResetPaymentToDraft(c, s, id).result == Ok(|Affected(s.recs, id)|)
    ensures PaymentReset(c, s, ResetPaymentToDraft(c, s, id).db, id)
  {
    hide RecOk, ReopenedRow;
    var affected := Affected(s.recs, id);
    AffectedFacts(s.recs, id);
    AffectedExist(s, id);
    var dropped := s.(recs := DropRecs(s.recs, id), moves := s.moves[id := s.moves[id].(lines := Unflagged(s.moves[id].lines))]);
    ReopenAllRows(c, dropped, affected);
  }

  lemma AffectedExist(s: State, id: MoveId)
    requires forall r :: r in s.recs ==> RecOk(s, r)
    ensures forall x :: x in Affected(s.recs, id) ==> x < |s.moves| && s.moves[x].stage.Posted?
  {
    AffectedFacts(s.recs, id);
    forall x | x in Affected(s.recs, id) ensures x < |s.moves| && s.moves[x].stage.Posted? {
      var r :| r in s.recs && Touches(r, id) && Touches(r, x);
      assert RecOk(s, r);
    }
  }

  lemma {:induction false} SettledByStrangers(recs: seq<Reconcile>, id: MoveId, line: LineRef)
    requires forall r :: r in recs && Touches(r, id) ==> r.debit != line && r.credit != line
    ensures SettledBy(recs, id, line) == 0
  {
    if recs != [] {
      assert recs[|recs| - 1] in recs;
      SettledByStrangers(recs[..|recs| - 1], id, line);
    }
  }

  lemma {:induction false} DroppedCurrency(recs: seq<Reconcile>, id: MoveId, line: LineRef)
    requires forall r :: r in recs && Touches(r, id) ==> r.debit != line && r.credit != line
    ensures SettledCurrency(DropRecs(recs, id), line) == SettledCurrency(recs, line)
  {
    if recs != [] {
      var rest, r := recs[..|recs| - 1], recs[|recs| - 1];
      assert r in recs;
      DroppedCurrency(rest, id, line);
      if !Touches(r, id) {
        SettledOfOneMore(DropRecs(rest, id), r, line);
      }
    }
  }

  lemma {:induction false} NamedIsSettled(recs: seq<Reconcile>, r: Reconcile, line: LineRef)
    requires r in recs && (r.debit == line || r.credit == line) && forall x :: x in recs ==> x.amount > 0
    ensures Settled(recs, line) > 0
  {
    var rest, last := recs[..|recs| - 1], recs[|recs| - 1];
    assert recs == rest + [last] && last in recs;
    SettledNonNegative(rest, line);
    if r in rest {
      NamedIsSettled(rest, r, line);
    }
  }

  lemma RowIsCovered(c: Chart, s: State, i: MoveId)
    requires Inv(c, s) && i < |s.moves|
    ensures Covered(c, s.recs, i, s.moves[i])
  {
    assert RowOk(c, s.recs, i, s.moves[i], false);
  }

  /** The line of a row that the reconciliations of move `id` settle. */
  lemma SettledLine(s: State, id: MoveId, i: MoveId) returns (k: nat)
    requires (forall r :: r in s.recs ==> RecOk(s, r)) && i in Affected(s.recs, id)
    ensures Settled(s.recs, LineRef(i, k)) > 0
  {
    AffectedFacts(s.recs, id);
    hide OnSides, Affected;
    var r :| r in s.recs && Touches(r, id) && Touches(r, i);
    var line := if r.debit.move == i then r.debit else r.credit;
    NamedIsSettled(s.recs, r, line);
    k := line.index;
    assert line == LineRef(i, k);
  }

  /** Something is owed on every row that a reconciliation names. */
  lemma AffectedOwes(c: Chart, s: State, id: MoveId, i: MoveId)
    requires Inv(c, s) && i in Affected(s.recs, id) && i < |s.moves| && s.moves[i].stage.Posted?
    ensures Owing(c, s.moves[i])
  {
    RowIsCovered(c, s, i);
    RecsAreOk(c, s, {});
    hide InvExcept, RecOk;
    var k := SettledLine(s, id, i);
  }

  /** A row that the dropped reconciliations settled. */
  lemma AffectedRowOk(c: Chart, s: State, t: State, id: MoveId, i: MoveId)
    requires Inv(c, s) && PaymentReset(c, s, t, id) && i < |s.moves| && i != id && i in Affected(s.recs, id)
    ensures RowOk(c, t.recs, i, t.moves[i], false) && SameEntry(s.moves[i], t.moves[i])
  {
    AffectedExist(s, id);
    AffectedOwes(c, s, id, i);
    assert RowOk(c, s.recs, i, s.moves[i], false);
    assert forall r :: r in s.recs ==> RecOk(s, r);
    hide InvExcept, RowOk, ReopenedRow, Owing, RecOk;
    DroppedRecs(s.recs, id);
    forall k: nat ensures 0 <= Settled(t.recs, LineRef(i, k)) <= Settled(s.recs, LineRef(i, k)) {
      DroppedSettled(s.recs, id, LineRef(i, k));
      SettledByNonNegative(s.recs, id, LineRef(i, k));
      SettledNonNegative(t.recs, LineRef(i, k));
    }
    RowOkForgets(c, s.recs, i, s.moves[i], false);
    ReopenedRowOk(c, s.recs, t.recs, i, s.moves[i]);
  }

  /** One row of the reset tables. */
  lemma ResetRowOk(c: Chart, s: State, t: State, id: MoveId, i: MoveId)
    requires Inv(c, s) && PaymentReset(c, s, t, id) && i < |s.moves| && i != id
    ensures RowOk(c, t.recs, i, t.moves[i], false) && SameEntry(s.moves[i], t.moves[i])
  {
    if i in Affected(s.recs, id) {
      AffectedRowOk(c, s, t, id, i);
    } else {
      AffectedFacts(s.recs, id);
      assert RowOk(c, s.recs, i, s.moves[i], false);
      hide InvExcept, RowOk, ReopenedRow;
      forall k: nat
        ensures Settled(s.recs, LineRef(i, k)) == Settled(t.recs, LineRef(i, k)) &&
                SettledCurrency(s.recs, LineRef(i, k)) == SettledCurrency(t.recs, LineRef(i, k))
      {
        DroppedSettled(s.recs, id, LineRef(i, k));
        SettledByStrangers(s.recs, id, LineRef(i, k));
        DroppedCurrency(s.recs, id, LineRef(i, k));
      }
      RowOkFrame(c, s.recs, t.recs, i, s.moves[i], false);
    }
  }

  lemma ResetPaymentRow(c: Chart, s: State, t: State, id: MoveId)
    requires Inv(c, s) && PaymentReset(c, s, t, id) && s.moves[id].kind.Payment?
    ensures RowOk(c, t.recs, id, t.moves[id], false)
  {
    var m, n := s.moves[id], t.moves[id];
    assert RowOk(c, s.recs, id, m, false);
    assert SameLines(m.lines, n.lines);
    CounterpartOfSameLines(c, m.lines, n.lines, 0);
    SumsOfSameLines(m.lines, n.lines, {});
  }

  lemma ResetPaymentKeeps(c: Chart, s: State, id: MoveId)
    requires Inv(c, s)
    ensures Keeps(c, s, ResetPaymentToDraft(c, s, id).db, {})
  {
    ResetPaymentEffect(c, s, id);
    var t := ResetPaymentToDraft(c, s, id).db;
    if ResetPaymentToDraft(c, s, id).result.Ok? {
      DroppedRecs(s.recs, id);
      ResetPaymentRow(c, s, t, id);
      forall i | 0 <= i < |s.moves| && i != id ensures RowOk(c, t.recs, i, t.moves[i], false) && SameEntry(s.moves[i], t.moves[i]) {
        ResetRowOk(c, s, t, id, i);
      }
      ResetPaymentTables(c, s, t, id);
    } else {
      GuardedSelf(s);
    }
  }

  lemma ResetPaymentTables(c: Chart, s: State, t: State, id: MoveId)
    requires Inv(c, s) && PaymentReset(c, s, t, id) && !Frozen(s, s.moves[id].date)
    requires forall i :: 0 <= i < |s.moves| && i != id ==> RowOk(c, t.recs, i, t.moves[i], false) && SameEntry(s.moves[i], t.moves[i])
    requires RowOk(c, t.recs, id, t.moves[id], false)
    requires forall r :: r in t.recs <==> r in s.recs && !Touches(r, id)
    ensures Keeps(c, s, t, {})
  {
    hide RowOk, ReopenedRow;
    forall r | r in t.recs ensures RecOk(t, r) {
      assert RecOk(s, r);
      assert SameEntry(s.moves[r.debit.move], t.moves[r.debit.move]) && SameEntry(s.moves[r.credit.move], t.moves[r.credit.move]);
    }
    assert forall i :: 0 <= i < |s.moves| ==> t.moves[i].number == s.moves[i].number;
  }
}
