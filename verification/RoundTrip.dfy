/** Undoing a payment: what a reset gives back, and that it undoes a registration completely. */
module RoundTrip {
  import opened Wrappers
  import opened Ledger
  import opened ServiceModel
  import opened CurrencyModel
  import opened DocumentsModel
  import opened SettlementModel
  import opened Invariant
  import opened Periods
  import opened PostingKeeps
  import opened DocumentsKeep
  import opened PaymentsKeep
  import opened UndoKeeps
  import opened SettlementsKeep
  import opened SettlementEffects

  // ─── What a reset gives back ────────────────────────────────────────

  /** A document or payment that reconciliations of `id` name is settled on its open line. */
  lemma AffectedIsSettled(c: Chart, s: State, id: MoveId, doc: MoveId)
    requires Inv(c, s) && doc in Affected(s.recs, id) && doc < |s.moves| && s.moves[doc].stage.Posted? && IsItem(s.moves[doc])
    ensures OpenCounterpart(c, s, doc).Some? && Settled(s.recs, OpenCounterpart(c, s, doc).value.line) > 0
  {
    RowIsCovered(c, s, doc);
    RecsAreOk(c, s, {});
    hide InvExcept, RecOk, Affected, Owing;
    var k := SettledLine(s, id, doc);
  }

  /** What a payment has settled on a row: nothing where nothing can be open. */
  function GivenBack(c: Chart, s: State, id: MoveId, doc: MoveId): int {
    match OpenCounterpart(c, s, doc)
    case None => 0
    case Some(o) => SettledBy(s.recs, id, o.line)
  }

  /** Before a reset, a MYR row that the payment settled shows what is open, which is never negative. */
  lemma AffectedIsShown(c: Chart, s: State, id: MoveId, doc: MoveId)
    requires Inv(c, s) && doc in Affected(s.recs, id) && doc < |s.moves| && IsMyrItem(s.moves[doc])
    ensures OpenCounterpart(c, s, doc).Some?
    ensures s.moves[doc].residual == OpenCounterpart(c, s, doc).value.amount >= 0
  {
    AffectedIsSettled(c, s, id, doc);
    assert RowOk(c, s.recs, doc, s.moves[doc], false);
    LineIsMyr(c, s, doc);
  }

  lemma LineIsMyr(c: Chart, s: State, doc: MoveId)
    requires OpenCounterpart(c, s, doc).Some? && Company(s.moves[doc])
    ensures s.moves[doc].lines[OpenCounterpart(c, s, doc).value.line.index].foreign.None? && s.moves[doc].rate.None?
  {
    assert s.moves[doc].lines[OpenCounterpart(c, s, doc).value.line.index] in s.moves[doc].lines;
  }

  /** Without the reconciliations of `id`, a line is open by what they settled more. */
  lemma OpenOfDropped(c: Chart, recs: seq<Reconcile>, id: MoveId, doc: MoveId, m: Move)
    requires OpenOf(c, recs, doc, m).Some? && forall r :: r in recs ==> r.amount > 0
    ensures var o := OpenOf(c, recs, doc, m).value;
            OpenOf(c, DropRecs(recs, id), doc, m) == Some(OpenLine(o.line, o.amount + SettledBy(recs, id, o.line), o.isDebit))
    ensures SettledBy(recs, id, OpenOf(c, recs, doc, m).value.line) >= 0
  {
    DroppedSettled(recs, id, OpenOf(c, recs, doc, m).value.line);
    SettledByNonNegative(recs, id, OpenOf(c, recs, doc, m).value.line);
  }

  lemma AmountsArePositive(c: Chart, s: State)
    requires Inv(c, s)
    ensures forall r :: r in s.recs ==> r.amount > 0
  {
    RecsAreOk(c, s, {});
  }

  lemma ResetRowOf(c: Chart, s: State, id: MoveId, doc: MoveId)
    requires Inv(c, s) && ResetPaymentToDraft(c, s, id).result.Ok? && doc in Affected(s.recs, id) && doc < |s.moves|
    ensures var t := ResetPaymentToDraft(c, s, id).db;
            doc < |t.moves| && t.moves[doc] == ReopenedRow(c, DropRecs(s.recs, id), doc, s.moves[doc])
  {
    AffectedFacts(s.recs, id);
    ResetPaymentEffect(c, s, id);
    hide Inv, ResetPaymentToDraft, ReopenedRow;
  }

  /**
   Whatever its cached columns said, a MYR document or payment that the payment had settled is
   recomputed: it shows what was open plus what the payment had settled, and the state that belongs to
   it, so a reversed flag never survives.
   */
  lemma ResetRecomputes(c: Chart, s: State, id: MoveId, doc: MoveId)
    requires Inv(c, s) && ResetPaymentToDraft(c, s, id).result.Ok?
    requires doc in Affected(s.recs, id) && doc < |s.moves| && IsMyrItem(s.moves[doc])
    ensures OpenCounterpart(c, s, doc).Some?
    ensures var t := ResetPaymentToDraft(c, s, id).db;
            var open := OpenCounterpart(c, s, doc).value.amount + GivenBack(c, s, id, doc);
            && doc < |t.moves| && t.moves[doc].residual == open && t.moves[doc].total == s.moves[doc].total
            && t.moves[doc].paymentState == StateFor(open, s.moves[doc].total)
  {
    AffectedIsShown(c, s, id, doc);
    AmountsArePositive(c, s);
    ResetRowOf(c, s, id, doc);
    LineIsMyr(c, s, doc);
    hide Inv, ResetPaymentToDraft, OpenOf, ReopenedRow, Affected, Company;
    OpenOfDropped(c, s.recs, id, doc, s.moves[doc]);
    ReopenedColumns(c, DropRecs(s.recs, id), doc, s.moves[doc]);
  }

  /**
   Resetting a payment raises the residual of every posted MYR document or payment by exactly what the
   payment had settled on it, flagged as reversed or not; a row it never touched stays as it is.
   */
  lemma ResetReturnsWhatWasSettled(c: Chart, s: State, id: MoveId, doc: MoveId)
    requires Inv(c, s) && ResetPaymentToDraft(c, s, id).result.Ok?
    requires doc < |s.moves| && doc != id && IsMyrItem(s.moves[doc])
    ensures var t := ResetPaymentToDraft(c, s, id).db;
            && |t.moves| == |s.moves|
            && t.moves[doc].residual == s.moves[doc].residual + GivenBack(c, s, id, doc)
            && (if doc in Affected(s.recs, id) then t.moves[doc].paymentState == StateFor(t.moves[doc].residual, t.moves[doc].total)
                else t.moves[doc] == s.moves[doc])
  {
    ResetPaymentEffect(c, s, id);
    if doc in Affected(s.recs, id) {
      AffectedIsShown(c, s, id, doc);
      ResetRecomputes(c, s, id, doc);
    } else {
      NothingGivenBack(c, s, id, doc);
    }
    hide Inv, ResetPaymentToDraft, OpenCounterpart, ReopenedRow;
  }

  lemma NothingGivenBack(c: Chart, s: State, id: MoveId, doc: MoveId)
    requires doc != id && doc !in Affected(s.recs, id)
    ensures GivenBack(c, s, id, doc) == 0
  {
    AffectedFacts(s.recs, id);
    if OpenCounterpart(c, s, doc).Some? {
      SettledByStrangers(s.recs, id, OpenCounterpart(c, s, doc).value.line);
    }
  }

  /** The columns of a reopened MYR row. */
  lemma ReopenedColumns(c: Chart, recs: seq<Reconcile>, id: MoveId, m: Move)
    requires m.rate.None? && OpenOf(c, recs, id, m).Some?
    ensures ReopenedRow(c, recs, id, m).residual == Max(0, OpenOf(c, recs, id, m).value.amount)
    ensures ReopenedRow(c, recs, id, m).paymentState == StateFor(OpenOf(c, recs, id, m).value.amount, m.total)
    ensures ReopenedRow(c, recs, id, m).total == m.total
  {
    FlagIsSameLines(c, m.lines, false);
    SameEntryFacts(c, recs, id, m, m.(lines := Flag(c, m.lines, false)));
    hide OpenOf, Flag;
  }

  // ─── What an allocation touches ─────────────────────────────────────

  /** Only the cached columns and the flags of receivable and payable lines differ. */
  ghost predicate Retouched(c: Chart, a: Move, b: Move) {
    && b == a.(residual := b.residual, paymentState := b.paymentState, lines := b.lines)
    && |a.lines| == |b.lines|
    && forall k :: 0 <= k < |a.lines| ==>
         if c.Reconcilable(a.lines[k].account) then a.lines[k].(reconciled := false) == b.lines[k].(reconciled := false)
         else a.lines[k] == b.lines[k]
  }

  lemma RetouchedChain(c: Chart, a: Move, b: Move, d: Move)
    requires Retouched(c, a, b) && Retouched(c, b, d)
    ensures Retouched(c, a, d)
  {
    forall k | 0 <= k < |a.lines|
      ensures if c.Reconcilable(a.lines[k].account) then a.lines[k].(reconciled := false) == d.lines[k].(reconciled := false)
              else a.lines[k] == d.lines[k]
    {
      assert a.lines[k].account == b.lines[k].account;
    }
  }

  lemma RefreshedIsRetouched(c: Chart, recs: seq<Reconcile>, id: MoveId, m: Move)
    requires m.rate.None?
    ensures Retouched(c, m, Refreshed(c, recs, id, m))
  {
  }

  ghost predicate Names(rows: seq<Reconcile>, id: MoveId) {
    exists r :: r in rows && Touches(r, id)
  }

  /**
   The trace of an allocation: it only adds reconciliations that name the payment, and it leaves every
   row alone except the open ones among those that the new reconciliations name.
   */
  ghost predicate AllocationTrace(c: Chart, s: State, t: State, id: MoveId) {
    && s.recs <= t.recs && t == s.(moves := t.moves, recs := t.recs) && |t.moves| == |s.moves|
    && (forall r :: r in t.recs[|s.recs|..] ==> Touches(r, id) && r.amount > 0)
    && (forall i :: 0 <= i < |s.moves| && i != id ==>
          Retouched(c, s.moves[i], t.moves[i]) &&
          (if Names(t.recs[|s.recs|..], i) then s.moves[i].rate.None? && OpenAmount(c, s, i) > 0 else t.moves[i] == s.moves[i]))
  }

  lemma NoTrace(c: Chart, s: State, id: MoveId)
    ensures AllocationTrace(c, s, s, id)
  {
  }

  lemma OneTrace(c: Chart, s: State, pay: LineRef, matched: int, doc: MoveId)
    requires OpenCounterpart(c, s, doc).Some? && OpenAmount(c, s, doc) > 0 && matched > 0 && doc != pay.move && s.moves[doc].rate.None?
    ensures AllocationTrace(c, s, AllocateOne(c, s, pay, matched, doc), pay.move)
  {
    var o := OpenCounterpart(c, s, doc).value;
    var r := Pair(o.line, o.isDebit, pay, matched, 0);
    var t := AllocateOne(c, s, pay, matched, doc);
    assert t.recs[|s.recs|..] == [r];
    RefreshedIsRetouched(c, t.recs, doc, s.moves[doc]);
    assert r in [r];
  }

  lemma TraceChain(c: Chart, s: State, t: State, u: State, id: MoveId)
    requires AllocationTrace(c, s, t, id) && AllocationTrace(c, t, u, id)
    ensures AllocationTrace(c, s, u, id)
  {
    hide OpenAmount, Retouched, Touches;
    var first, later := t.recs[|s.recs|..], u.recs[|t.recs|..];
    assert u.recs[|s.recs|..] == first + later;
    forall i | 0 <= i < |s.moves| && i != id
      ensures Retouched(c, s.moves[i], u.moves[i])
      ensures if Names(u.recs[|s.recs|..], i) then s.moves[i].rate.None? && OpenAmount(c, s, i) > 0 else u.moves[i] == s.moves[i]
    {
      RetouchedChain(c, s.moves[i], t.moves[i], u.moves[i]);
      NamesOfConcat(first, later, i);
      if Names(later, i) {
        OpenShrinks(c, s, t, id, i);
      }
    }
  }

  lemma NamesOfConcat(a: seq<Reconcile>, b: seq<Reconcile>, i: MoveId)
    ensures Names(a + b, i) <==> Names(a, i) || Names(b, i)
  {
    if Names(a, i) {
      var r :| r in a && Touches(r, i);
      assert r in a + b;
    }
    if Names(b, i) {
      var r :| r in b && Touches(r, i);
      assert r in a + b;
    }
  }

  /** Nothing an allocation does opens a line further. */
  lemma OpenShrinks(c: Chart, s: State, t: State, id: MoveId, i: MoveId)
    requires AllocationTrace(c, s, t, id) && i < |s.moves| && i != id
    ensures OpenAmount(c, t, i) <= OpenAmount(c, s, i)
  {
    var a, b := s.moves[i], t.moves[i];
    assert Retouched(c, a, b);
    assert SameLines(a.lines, b.lines) by {
      forall k | 0 <= k < |a.lines| ensures a.lines[k].(reconciled := b.lines[k].reconciled) == b.lines[k] {
        assert a.lines[k].(reconciled := false) == b.lines[k].(reconciled := false);
      }
    }
    CounterpartOfSameLines(c, a.lines, b.lines, 0);
    if OpenCounterpart(c, s, i).Some? {
      var line := OpenCounterpart(c, s, i).value.line;
      var added := t.recs[|s.recs|..];
      assert t.recs == s.recs + added;
      SettledOfConcat(s.recs, added, line);
      SettledNonNegative(added, line);
    }
  }

  lemma {:induction false} AllocateTraces(c: Chart, s: State, pay: LineRef, isDebit: bool, left: int, docs: seq<MoveId>)
    requires OpenPayment(c, s, pay, isDebit, left)
    ensures AllocationTrace(c, s, Allocate(c, s, pay, isDebit, left, docs), pay.move)
    decreases |docs|
  {
    hide AllocateOne, AllocationTrace;
    if docs == [] || left <= 0 {
      NoTrace(c, s, pay.move);
    } else if !Matchable(c, s, docs[0], isDebit) {
      AllocateTraces(c, s, pay, isDebit, left, docs[1..]);
    } else {
      var matched := Min(left, OpenCounterpart(c, s, docs[0]).value.amount);
      var s2 := AllocateOne(c, s, pay, matched, docs[0]);
      OneTrace(c, s, pay, matched, docs[0]);
      OpenPaymentShrinks(c, s, pay, isDebit, left, matched, docs[0]);
      AllocateTraces(c, s2, pay, isDebit, left - matched, docs[1..]);
      TraceChain(c, s, s2, Allocate(c, s, pay, isDebit, left, docs), pay.move);
    }
  }

  // ─── Dropping what an allocation added ──────────────────────────────

  lemma {:induction false} DropOfConcat(a: seq<Reconcile>, b: seq<Reconcile>, id: MoveId)
    ensures DropRecs(a + b, id) == DropRecs(a, id) + DropRecs(b, id)
  {
    if b == [] {
      assert a + b == a;
    } else {
      assert (a + b)[..|a + b| - 1] == a + b[..|b| - 1];
      DropOfConcat(a, b[..|b| - 1], id);
    }
  }

  lemma {:induction false} DropNone(recs: seq<Reconcile>, id: MoveId)
    requires forall r :: r in recs ==> !Touches(r, id)
    ensures DropRecs(recs, id) == recs
  {
    if recs != [] {
      assert recs[|recs| - 1] in recs;
      DropNone(recs[..|recs| - 1], id);
    }
  }

  lemma {:induction false} DropAll(recs: seq<Reconcile>, id: MoveId)
    requires forall r :: r in recs ==> Touches(r, id)
    ensures DropRecs(recs, id) == []
  {
    if recs != [] {
      assert recs[|recs| - 1] in recs;
      DropAll(recs[..|recs| - 1], id);
    }
  }

  /** The allocation of a company-currency payment that was just posted. */
  function AllocationOf(c: Chart, p: State, o: OpenLine, docs: seq<MoveId>): State {
    Allocate(c, p, o.line, o.isDebit, o.amount, docs)
  }

  /** A company-currency payment is its entry, the allocation, and a refresh of the payment itself. */
  lemma RegistrationInSteps(c: Chart, s: State, pay: NewPayment)
    requires Inv(c, s) && !IsForeign(pay) && RegisterPayment(c, s, pay).result.Ok?
    ensures PostedPayment(c, s, pay) && Keeps(c, s, PostPayment(c, s, pay).db, {})
    ensures OpenCounterpart(c, PostPayment(c, s, pay).db, |s.moves|).Some?
    ensures var p := PostPayment(c, s, pay).db;
            RegisterPayment(c, s, pay) ==
            Reply(RefreshPaymentState(c, AllocationOf(c, p, OpenCounterpart(c, p, |s.moves|).value, pay.allocateTo), |s.moves|),
                  Ok(|s.moves|))
  {
    PostPaymentKeeps(c, s, pay, {});
    hide PostPayment, Allocate, RefreshPaymentState, OpenCounterpart, InvExcept;
  }

  /** The registration seen from before it: a new payment row, and the trace of its allocation. */
  ghost predicate Registered(c: Chart, s: State, t: State, id: MoveId, date: Date) {
    && id == |s.moves| && |t.moves| == id + 1
    && t.moves[id].stage.Posted? && t.moves[id].kind.Payment? && t.moves[id].date == date
    && !Frozen(t, date) && t.taxLock == s.taxLock
    && s.recs <= t.recs && (forall r :: r in t.recs[|s.recs|..] ==> Touches(r, id))
    && (forall i :: 0 <= i < id ==>
          Retouched(c, s.moves[i], t.moves[i]) &&
          (if Names(t.recs[|s.recs|..], i) then s.moves[i].rate.None? && OpenAmount(c, s, i) > 0 else t.moves[i] == s.moves[i]))
  }

  lemma RegistrationTrace(c: Chart, s: State, pay: NewPayment)
    requires Inv(c, s) && !IsForeign(pay) && RegisterPayment(c, s, pay).result.Ok?
    ensures RegisterPayment(c, s, pay).result == Ok(|s.moves|)
    ensures Registered(c, s, RegisterPayment(c, s, pay).db, |s.moves|, pay.date)
  {
    hide RegisterPayment, InvExcept;
    RegistrationInSteps(c, s, pay);
    var p := PostPayment(c, s, pay).db;
    PostedRow(c, s, pay);
    TraceAfterPosting(c, s, p, OpenCounterpart(c, p, |s.moves|).value, pay.date, pay.allocateTo);
  }

  /** The tables right after the payment entry. */
  ghost predicate Appended(s: State, p: State, date: Date) {
    && |p.moves| == |s.moves| + 1 && p.moves[..|s.moves|] == s.moves && p.recs == s.recs && p.taxLock == s.taxLock
    && p.moves[|s.moves|].stage.Posted? && p.moves[|s.moves|].kind.Payment? && p.moves[|s.moves|].date == date
    && !Frozen(p, date)
  }

  lemma PostedRow(c: Chart, s: State, pay: NewPayment)
    requires PostedPayment(c, s, pay)
    ensures Appended(s, PostPayment(c, s, pay).db, pay.date)
  {
    hide PostPayment, TermsOfPayment;
    assert Frozen(s, pay.date) <==> Frozen(PostPayment(c, s, pay).db, pay.date);
  }

  lemma TraceAfterPosting(c: Chart, s: State, p: State, o: OpenLine, date: Date, docs: seq<MoveId>)
    requires Appended(s, p, date) && OpenCounterpart(c, p, |s.moves|) == Some(o)
    ensures Registered(c, s, RefreshPaymentState(c, AllocationOf(c, p, o, docs), |s.moves|), |s.moves|, date)
  {
    hide Retouched, Names, Allocate, Touches;
    var id := |s.moves|;
    var q := AllocationOf(c, p, o, docs);
    AllocateTraces(c, p, o.line, o.isDebit, o.amount, docs);
    AllocateKeepsEntry(c, p, o, docs);
    RefreshedIsSameEntry(c, q.recs, id, q.moves[id]);
    forall i | 0 <= i < id ensures OpenAmount(c, p, i) == OpenAmount(c, s, i) && p.moves[i] == s.moves[i] {
      assert p.moves[..id][i] == p.moves[i];
    }
    assert Frozen(p, date) <==> Frozen(q, date);
  }

  lemma SameEntryAsItself(m: Move)
    ensures SameEntry(m, m)
  {
  }

  /** The payment's own row stays the same entry while it is allocated. */
  lemma {:induction false} AllocateKeepsEntry(c: Chart, s: State, o: OpenLine, docs: seq<MoveId>)
    ensures |Allocate(c, s, o.line, o.isDebit, o.amount, docs).moves| == |s.moves|
    ensures forall i :: 0 <= i < |s.moves| ==>
              SameEntry(s.moves[i], Allocate(c, s, o.line, o.isDebit, o.amount, docs).moves[i])
    decreases |docs|
  {
    hide AllocateOne, SameEntry, OpenOf;
    if docs == [] || o.amount <= 0 {
      forall i | 0 <= i < |s.moves| ensures SameEntry(s.moves[i], s.moves[i]) {
        SameEntryAsItself(s.moves[i]);
      }
    } else {
      if !Matchable(c, s, docs[0], o.isDebit) {
        AllocateKeepsEntry(c, s, o, docs[1..]);
      } else {
        var x := OpenCounterpart(c, s, docs[0]).value;
        var matched := Min(o.amount, x.amount);
        var s2 := AllocateOne(c, s, o.line, matched, docs[0]);
        forall i | 0 <= i < |s.moves| ensures |s2.moves| == |s.moves| && SameEntry(s.moves[i], s2.moves[i]) {
          TurnRow(c, s, o.line, matched, docs[0], i);
        }
        AllocateKeepsEntry(c, s2, o.(amount := o.amount - matched), docs[1..]);
        var t := Allocate(c, s, o.line, o.isDebit, o.amount, docs);
        forall i | 0 <= i < |s.moves| ensures SameEntry(s.moves[i], t.moves[i]) {
          SameEntryChain(s.moves[i], s2.moves[i], t.moves[i]);
        }
      }
    }
  }

  /** Clearing the flags and recomputing from the old reconciliations gives the old row back where it was right. */
  lemma ReopenedIsRestored(c: Chart, recs: seq<Reconcile>, i: MoveId, a: Move, b: Move)
    requires a.rate.None? && Retouched(c, a, b) && OpenOf(c, recs, i, a).Some? && OpenOf(c, recs, i, a).value.amount > 0
    ensures ReopenedRow(c, recs, i, b) ==
            a.(residual := OpenOf(c, recs, i, a).value.amount, lines := Flag(c, a.lines, false),
               paymentState := StateFor(OpenOf(c, recs, i, a).value.amount, a.total))
    ensures ReopenedRow(c, recs, i, b) == a <==> Current(c, recs, i, a)
  {
    SameFlags(c, a, b);
    FlagIsSameLines(c, a.lines, false);
    SameEntryFacts(c, recs, i, a, a.(lines := Flag(c, a.lines, false)));
    FlagsAreClean(c, a.lines);
    hide OpenOf, Retouched, Flag;
  }

  lemma SameFlags(c: Chart, a: Move, b: Move)
    requires Retouched(c, a, b)
    ensures Flag(c, b.lines, false) == Flag(c, a.lines, false)
  {
    forall k | 0 <= k < |a.lines| ensures Flag(c, b.lines, false)[k] == Flag(c, a.lines, false)[k] {
      if c.Reconcilable(a.lines[k].account) {
        assert a.lines[k].(reconciled := false) == b.lines[k].(reconciled := false);
      }
    }
  }

  /** Clearing flags changes nothing exactly where none is up. */
  lemma FlagsAreClean(c: Chart, lines: seq<Line>)
    ensures Flag(c, lines, false) == lines <==> CleanFlags(c, lines)
  {
    if CleanFlags(c, lines) {
      assert forall k :: 0 <= k < |lines| ==> lines[k] in lines;
      assert Flag(c, lines, false) == lines;
    } else {
      var l :| l in lines && c.Reconcilable(l.account) && l.reconciled;
      var k :| 0 <= k < |lines| && lines[k] == l;
      assert !Flag(c, lines, false)[k].reconciled;
    }
  }

  // ─── Which documents a payment reaches ──────────────────────────────

  /**
   Whether the money reaches document `i`, from the tables before the call: it is listed, open on the
   other side and in MYR, and the documents listed before it leave some money over.
   */
  predicate Reaches(c: Chart, s: State, isDebit: bool, left: int, docs: seq<MoveId>, i: MoveId, seen: set<MoveId>)
    decreases |docs|
  {
    docs != [] && left > 0 &&
    if docs[0] in seen || !Matchable(c, s, docs[0], isDebit) then Reaches(c, s, isDebit, left, docs[1..], i, seen)
    else
      docs[0] == i ||
      Reaches(c, s, isDebit, left - Min(left, OpenCounterpart(c, s, docs[0]).value.amount), docs[1..], i, seen + {docs[0]})
  }

  /** The side of the payment's own receivable or payable line. */
  predicate PaymentSide(c: Chart, pay: NewPayment)
    requires TermsOfPayment(c, pay).Ok?
  {
    var lines := LinesOfPayment(pay, TermsOfPayment(c, pay).value);
    Counterpart(c, lines).Some? && lines[Counterpart(c, lines).value].debit != 0
  }

  predicate ReachedBy(c: Chart, s: State, pay: NewPayment, i: MoveId) {
    TermsOfPayment(c, pay).Ok? && Reaches(c, s, PaymentSide(c, pay), pay.amount, pay.allocateTo, i, {})
  }

  /** Midway through an allocation: documents seen are used up, the others as they were. */
  ghost predicate Midway(c: Chart, s: State, q: State, seen: set<MoveId>, left: int) {
    |q.moves| == |s.moves| + 1 && forall d: nat :: d < |s.moves| ==> MidwayAt(c, s, q, seen, left, d)
  }

  ghost predicate MidwayAt(c: Chart, s: State, q: State, seen: set<MoveId>, left: int, d: MoveId)
    requires d < |s.moves| <= |q.moves|
  {
    && q.moves[d].rate == s.moves[d].rate && (OpenCounterpart(c, q, d).Some? <==> OpenCounterpart(c, s, d).Some?)
    && (OpenCounterpart(c, s, d).Some? ==>
          var a, b := OpenCounterpart(c, s, d).value, OpenCounterpart(c, q, d).value;
          && b.isDebit == a.isDebit
          && (d !in seen ==> b.amount == a.amount)
          && (d in seen && left > 0 ==> b.amount <= 0))
  }

  /** What one turn does to an open line: its own falls by the matched amount, the others stay. */
  lemma OneTurnOpens(c: Chart, q: State, pay: LineRef, matched: int, doc: MoveId, d: MoveId)
    requires OpenCounterpart(c, q, doc).Some? && d != pay.move
    ensures var t := AllocateOne(c, q, pay, matched, doc);
            && |t.moves| == |q.moves| && (d < |q.moves| ==> t.moves[d].rate == q.moves[d].rate)
            && OpenCounterpart(c, t, d) ==
               match OpenCounterpart(c, q, d)
               case None => None
               case Some(x) => Some(OpenLine(x.line, x.amount - (if d == doc then matched else 0), x.isDebit))
  {
    TurnRecs(c, q, pay, matched, doc);
    TurnRow(c, q, pay, matched, doc, d);
    hide AllocateOne, OpenOf;
    var o := OpenCounterpart(c, q, doc).value;
    LineOfOpen(c, q, doc);
    if d < |q.moves| {
      var r := Pair(o.line, o.isDebit, pay, matched, 0);
      SameEntryFacts(c, q.recs + [r], d, q.moves[d], AllocateOne(c, q, pay, matched, doc).moves[d]);
      OpenAfterRec(c, q.recs, r, d, q.moves[d]);
      OneLinePerRow(c, q.recs, d, q.moves[d]);
    }
  }

  lemma TurnRow(c: Chart, q: State, pay: LineRef, matched: int, doc: MoveId, d: MoveId)
    requires OpenCounterpart(c, q, doc).Some?
    ensures var t := AllocateOne(c, q, pay, matched, doc);
            |t.moves| == |q.moves| && (d < |q.moves| ==> SameEntry(q.moves[d], t.moves[d]))
  {
    hide Refreshed;
    var o := OpenCounterpart(c, q, doc).value;
    RefreshedIsSameEntry(c, q.recs + [Pair(o.line, o.isDebit, pay, matched, 0)], doc, q.moves[doc]);
  }

  /** A row's open line is the only one of that row that can be open. */
  lemma OneLinePerRow(c: Chart, recs: seq<Reconcile>, d: MoveId, m: Move)
    ensures OpenOf(c, recs, d, m).Some? ==> OpenOf(c, recs, d, m).value.line.move == d
  {
  }

  lemma OneTurnMidway(c: Chart, s: State, q: State, pay: LineRef, seen: set<MoveId>, left: int, doc: MoveId)
    requires Midway(c, s, q, seen, left) && pay.move == |s.moves| && doc < |s.moves| && left > 0
    requires OpenCounterpart(c, q, doc).Some? && OpenCounterpart(c, q, doc).value.amount > 0
    ensures var matched := Min(left, OpenCounterpart(c, q, doc).value.amount);
            Midway(c, s, AllocateOne(c, q, pay, matched, doc), seen + {doc}, left - matched)
  {
    hide AllocateOne, OpenCounterpart;
    var matched := Min(left, OpenCounterpart(c, q, doc).value.amount);
    OneTurnOpens(c, q, pay, matched, doc, doc);
    var t, more, rest := AllocateOne(c, q, pay, matched, doc), seen + {doc}, left - matched;
    forall d: nat | d < |s.moves| ensures MidwayAt(c, s, t, more, rest, d) {
      OneTurnOpens(c, q, pay, matched, doc, d);
      assert MidwayAt(c, s, q, seen, left, d);
    }
  }

  lemma NamesOfOne(r: Reconcile, i: MoveId)
    ensures Names([r], i) <==> Touches(r, i)
  {
    assert r in [r];
  }

  lemma AddedSince(before: seq<Reconcile>, r: Reconcile, after: seq<Reconcile>)
    requires before + [r] <= after
    ensures before <= after && after[|before|..] == [r] + after[|before + [r]|..]
  {
  }

  /** The reconciliations of an allocation name exactly the documents that the money reaches. */
  lemma {:induction false} AllocationNames(c: Chart, s: State, q: State, pay: LineRef, isDebit: bool, left: int, docs: seq<MoveId>,
                                           seen: set<MoveId>, i: MoveId)
    requires OpenPayment(c, q, pay, isDebit, left) && pay.move == |s.moves| && Midway(c, s, q, seen, left) && i < |s.moves|
    ensures q.recs <= Allocate(c, q, pay, isDebit, left, docs).recs
    ensures Names(Allocate(c, q, pay, isDebit, left, docs).recs[|q.recs|..], i) <==> Reaches(c, s, isDebit, left, docs, i, seen)
    decreases |docs|
  {
    hide AllocateOne, Midway, Names, OpenPayment, OpenOf;
    var t := Allocate(c, q, pay, isDebit, left, docs);
    if docs == [] || left <= 0 {
      assert t.recs[|q.recs|..] == [];
      NamesOfNone(i);
    } else {
      SameMatchable(c, s, q, pay, isDebit, left, seen, docs[0]);
      if !Matchable(c, q, docs[0], isDebit) {
        AllocationNames(c, s, q, pay, isDebit, left, docs[1..], seen, i);
      } else {
        var o := OpenCounterpart(c, q, docs[0]).value;
        var matched := Min(left, o.amount);
        var r := Pair(o.line, o.isDebit, pay, matched, 0);
        var q2 := AllocateOne(c, q, pay, matched, docs[0]);
        OneTurnMidway(c, s, q, pay, seen, left, docs[0]);
        OpenPaymentShrinks(c, q, pay, isDebit, left, matched, docs[0]);
        AllocationNames(c, s, q2, pay, isDebit, left - matched, docs[1..], seen + {docs[0]}, i);
        TurnRecs(c, q, pay, matched, docs[0]);
        AddedSince(q.recs, r, t.recs);
        NamesOfConcat([r], t.recs[|q2.recs|..], i);
        NamesOfOne(r, i);
      }
    }
  }

  lemma NamesOfNone(i: MoveId)
    ensures !Names([], i)
  {
  }

  lemma TurnRecs(c: Chart, q: State, pay: LineRef, matched: int, doc: MoveId)
    requires OpenCounterpart(c, q, doc).Some?
    ensures var o := OpenCounterpart(c, q, doc).value;
            AllocateOne(c, q, pay, matched, doc).recs == q.recs + [Pair(o.line, o.isDebit, pay, matched, 0)]
  {
  }

  /** What can be matched midway is what could be matched before and was not seen. */
  lemma SameMatchable(c: Chart, s: State, q: State, pay: LineRef, isDebit: bool, left: int, seen: set<MoveId>, d: MoveId)
    requires OpenPayment(c, q, pay, isDebit, left) && pay.move == |s.moves| && Midway(c, s, q, seen, left) && left > 0
    ensures Matchable(c, q, d, isDebit) <==> d !in seen && Matchable(c, s, d, isDebit)
    ensures Matchable(c, q, d, isDebit) ==>
              d < |s.moves| && OpenCounterpart(c, s, d).Some? && OpenCounterpart(c, q, d).value.amount == OpenCounterpart(c, s, d).value.amount
    ensures Matchable(c, q, d, isDebit) ==> OpenCounterpart(c, q, d).value.line.move == d
  {
    hide OpenOf;
    if d < |s.moves| {
      assert MidwayAt(c, s, q, seen, left, d);
    }
    LineOfOpen(c, q, d);
  }

  lemma LineOfOpen(c: Chart, q: State, d: MoveId)
    ensures OpenCounterpart(c, q, d).Some? ==> OpenCounterpart(c, q, d).value.line.move == d
  {
  }

  /** A payment names exactly the documents it reaches. */
  lemma RegistrationNames(c: Chart, s: State, pay: NewPayment, i: MoveId)
    requires Inv(c, s) && !IsForeign(pay) && RegisterPayment(c, s, pay).result.Ok? && i < |s.moves|
    ensures s.recs <= RegisterPayment(c, s, pay).db.recs
    ensures Names(RegisterPayment(c, s, pay).db.recs[|s.recs|..], i) <==> ReachedBy(c, s, pay, i)
  {
    RegistrationInSteps(c, s, pay);
    var p := PostPayment(c, s, pay).db;
    PaymentIsWhollyOpen(c, s, pay);
    var o := OpenCounterpart(c, p, |s.moves|).value;
    NothingTouched(c, s, pay);
    hide Inv, RegisterPayment, PostPayment, TermsOfPayment, Midway, Names, Allocate, PaymentSide, OpenCounterpart;
    AllocationNames(c, s, p, o.line, o.isDebit, o.amount, pay.allocateTo, {}, i);
  }

  lemma NothingTouched(c: Chart, s: State, pay: NewPayment)
    requires PostedPayment(c, s, pay)
    ensures Midway(c, s, PostPayment(c, s, pay).db, {}, pay.amount)
  {
    hide PostPayment, TermsOfPayment, OpenOf;
    var p := PostPayment(c, s, pay).db;
    forall d: nat | d < |s.moves| ensures p.moves[d] == s.moves[d] && OpenCounterpart(c, p, d) == OpenCounterpart(c, s, d) {
    }
  }

  lemma PaymentIsWhollyOpen(c: Chart, s: State, pay: NewPayment)
    requires Inv(c, s) && !IsForeign(pay) && PostedPayment(c, s, pay) && OpenCounterpart(c, PostPayment(c, s, pay).db, |s.moves|).Some?
    ensures var p := PostPayment(c, s, pay).db;
            var o := OpenCounterpart(c, p, |s.moves|).value;
            && OpenPayment(c, p, o.line, o.isDebit, o.amount) && o.line.move == |s.moves|
            && o.amount == pay.amount && TermsOfPayment(c, pay).Ok? && o.isDebit == PaymentSide(c, pay)
  {
    hide PostPayment;
    var t := TermsOfPayment(c, pay).value;
    var lines := LinesOfPayment(pay, t);
    PaymentLinesShape(c, pay, t);
    NothingSettled(s, |s.moves|);
    hide InvExcept, TermsOfPayment;
    assert lines[Counterpart(c, lines).value] in lines;
  }

  // ─── The round trip ─────────────────────────────────────────────────

  /**
   Registering a company-currency payment and resetting it to draft restores every reconciliation, and
   every row exactly, whatever its kind and currency, except those that the money reaches while their
   cached columns are not what their reconciliations say: such a row (flagged as reversed while still
   open, posted with another header total, or a plain entry) is recomputed instead.
   */
  lemma ResetUndoesRegistration(c: Chart, s: State, pay: NewPayment)
    requires Inv(c, s) && !IsForeign(pay) && NamesPosted(s, pay.allocateTo)
    requires RegisterPayment(c, s, pay).result.Ok? && !(s.taxLock.Some? && pay.date <= s.taxLock.value)
    ensures ResetPaymentToDraft(c, RegisterPayment(c, s, pay).db, |s.moves|).result.Ok?
    ensures var u := ResetPaymentToDraft(c, RegisterPayment(c, s, pay).db, |s.moves|).db;
            && u.recs == s.recs && |u.moves| == |s.moves| + 1 && u.moves[|s.moves|].stage.Draft?
            && (forall i: nat :: i < |s.moves| ==> Recomputed(c, s, pay, i, u.moves[i]))
  {
    var t := RegisterPayment(c, s, pay).db;
    var id := |s.moves|;
    RegisterPaymentKeeps(c, s, pay);
    RegistrationTrace(c, s, pay);
    ResetPaymentEffect(c, t, id);
    var u := ResetPaymentToDraft(c, t, id).db;
    assert PaymentReset(c, t, u, id);
    hide ResetPaymentToDraft, RegisterPayment, PaymentReset, ReopenedRow, Retouched, Names, ReachedBy, Current, Recomputed;
    RecsRestored(c, s, t, id);
    forall i: nat | i < id ensures Recomputed(c, s, pay, i, u.moves[i]) {
      RegistrationNames(c, s, pay, i);
      RowRestored(c, s, t, u, pay, id, i);
    }
  }

  /** Row `i` after a payment and its reset: what it was, or what its reconciliations say if the money reaches it. */
  ghost predicate Recomputed(c: Chart, s: State, pay: NewPayment, i: MoveId, row: Move)
    requires i < |s.moves|
  {
    && (row == s.moves[i] <==> !ReachedBy(c, s, pay, i) || Current(c, s.recs, i, s.moves[i]))
    && (ReachedBy(c, s, pay, i) ==>
          && OpenCounterpart(c, s, i).Some?
          && row.residual == OpenCounterpart(c, s, i).value.amount
          && row.paymentState == StateFor(OpenCounterpart(c, s, i).value.amount, s.moves[i].total))
  }

  /** A row whose header agrees with its GL and that is not flagged as reversed is always restored. */
  lemma AgreeingRowIsCurrent(c: Chart, s: State, i: MoveId)
    requires Inv(c, s) && i < |s.moves| && s.moves[i].stage.Posted? && !s.moves[i].paymentState.Reversed?
    requires IsMyrItem(s.moves[i]) && HeaderAgrees(c, s.moves[i])
    ensures Current(c, s.recs, i, s.moves[i])
  {
    assert RowOk(c, s.recs, i, s.moves[i], false);
    if Counterpart(c, s.moves[i].lines).Some? && AsPosted(c, s.recs, i, s.moves[i]) {
      AsPostedIsCurrentWhen(c, s.recs, i, s.moves[i]);
    }
  }

  lemma ReachedIsUnflagged(c: Chart, s: State, pay: NewPayment, i: MoveId, row: Move)
    requires i < |s.moves| && ReachedBy(c, s, pay, i) && Recomputed(c, s, pay, i, row)
    ensures OpenCounterpart(c, s, i).Some? && !row.paymentState.Reversed? && row.residual == OpenCounterpart(c, s, i).value.amount
  {
  }

  /** Paying one document and resetting the payment leaves it as open as it was, and not flagged as reversed. */
  lemma PaidAndReset(c: Chart, s: State, pay: NewPayment, doc: MoveId)
    requires Inv(c, s) && !IsForeign(pay) && pay.allocateTo == [doc] && TermsOfPayment(c, pay).Ok?
    requires Matchable(c, s, doc, PaymentSide(c, pay)) && doc < |s.moves| && s.moves[doc].stage.Posted?
    requires RegisterPayment(c, s, pay).result.Ok? && !(s.taxLock.Some? && pay.date <= s.taxLock.value)
    ensures var u := ResetPaymentToDraft(c, RegisterPayment(c, s, pay).db, |s.moves|).db;
            && |u.moves| == |s.moves| + 1 && u.recs == s.recs && !u.moves[doc].paymentState.Reversed?
            && OpenCounterpart(c, s, doc).Some? && u.moves[doc].residual == OpenCounterpart(c, s, doc).value.amount
  {
    hide Inv, RegisterPayment, TermsOfPayment, ResetPaymentToDraft, PaymentSide, OpenOf, Matchable, Recomputed, ReachedBy;
    FirstIsReached(c, s, pay, doc);
    ResetUndoesRegistration(c, s, pay);
    ReachedIsUnflagged(c, s, pay, doc, ResetPaymentToDraft(c, RegisterPayment(c, s, pay).db, |s.moves|).db.moves[doc]);
  }

  /**
   The failing input: an open invoice reversed from the journal-entry page keeps its open line, so a
   payment that lists it first settles it. Resetting that payment leaves the invoice as open as it was,
   but no longer flagged as reversed.
   */
  lemma ReversedInvoiceLosesItsFlag(c: Chart, s: State, invoice: MoveId, on: Date, pay: NewPayment)
    requires Inv(c, s) && ReverseMove(c, s, invoice, on).result.Ok? && invoice < |s.moves| && IsDocument(s.moves[invoice].kind) && Company(s.moves[invoice])
    requires OpenCounterpart(c, s, invoice).Some? && OpenCounterpart(c, s, invoice).value.amount > 0
    requires !IsForeign(pay) && pay.allocateTo == [invoice] && TermsOfPayment(c, pay).Ok?
    requires PaymentSide(c, pay) != OpenCounterpart(c, s, invoice).value.isDebit
    requires RegisterPayment(c, ReverseMove(c, s, invoice, on).db, pay).result.Ok? && !(s.taxLock.Some? && pay.date <= s.taxLock.value)
    ensures var reversed := ReverseMove(c, s, invoice, on).db;
            var u := ResetPaymentToDraft(c, RegisterPayment(c, reversed, pay).db, |reversed.moves|).db;
            && |u.moves| == |reversed.moves| + 1 && u.recs == reversed.recs && invoice < |reversed.moves|
            && reversed.moves[invoice].paymentState.Reversed? && !u.moves[invoice].paymentState.Reversed?
            && u.moves[invoice].residual == OpenCounterpart(c, s, invoice).value.amount
  {
    assert s.moves[invoice].rate.None?;
    hide InvExcept, ReverseMove, RegisterPayment, TermsOfPayment, ResetPaymentToDraft, PaymentSide, Guarded, OpenOf, Company;
    ReverseKeeps(c, s, invoice, on, {});
    ReversedRow(c, s, invoice, on);
    PaidAndReset(c, ReverseMove(c, s, invoice, on).db, pay, invoice);
  }

  lemma FirstIsReached(c: Chart, s: State, pay: NewPayment, i: MoveId)
    requires TermsOfPayment(c, pay).Ok? && pay.allocateTo == [i] && Matchable(c, s, i, PaymentSide(c, pay))
    ensures ReachedBy(c, s, pay, i)
  {
    hide Matchable, PaymentSide;
    assert pay.amount > 0;
  }

  lemma ReversedRow(c: Chart, s: State, id: MoveId, on: Date)
    requires Inv(c, s) && ReverseMove(c, s, id, on).result.Ok?
    ensures var t := ReverseMove(c, s, id, on).db;
            && id < |s.moves| < |t.moves| && s.moves[id].stage.Posted? && t.recs == s.recs && t.taxLock == s.taxLock
            && t.moves[id] == s.moves[id].(paymentState := Reversed) && OpenCounterpart(c, t, id) == OpenCounterpart(c, s, id)
  {
    PostedOriginal(c, s, id, on);
    hide InvExcept, ReverseMove, OpenCounterpart, Extends;
    ReverseProgress(c, s, id, on);
    SameOpenRow(c, s, ReverseMove(c, s, id, on).db, id);
  }

  lemma SameOpenRow(c: Chart, s: State, t: State, id: MoveId)
    requires id < |s.moves| && id < |t.moves| && t.recs == s.recs && t.moves[id] == s.moves[id].(paymentState := Reversed)
    ensures OpenCounterpart(c, t, id) == OpenCounterpart(c, s, id)
  {
  }

  lemma PostedOriginal(c: Chart, s: State, id: MoveId, on: Date)
    requires ReverseMove(c, s, id, on).result.Ok?
    ensures id < |s.moves| && s.moves[id].stage.Posted?
  {
    hide CreateAndPost;
  }

  lemma RecsRestored(c: Chart, s: State, t: State, id: MoveId)
    requires Inv(c, s) && id == |s.moves| && s.recs <= t.recs && (forall r :: r in t.recs[|s.recs|..] ==> Touches(r, id))
    ensures DropRecs(t.recs, id) == s.recs
    ensures forall r :: r in s.recs ==> !Touches(r, id)
  {
    var added := t.recs[|s.recs|..];
    assert t.recs == s.recs + added;
    forall r | r in s.recs ensures !Touches(r, id) {
      assert RecOk(s, r);
    }
    DropOfConcat(s.recs, added, id);
    DropNone(s.recs, id);
    DropAll(added, id);
  }

  /** A move is affected by the reset exactly when the registration had named it. */
  lemma AffectedIsNamed(s: State, t: State, id: MoveId, i: MoveId)
    requires s.recs <= t.recs && i != id && i < id
    requires forall r :: r in s.recs ==> !Touches(r, id)
    requires forall r :: r in t.recs[|s.recs|..] ==> Touches(r, id)
    ensures i in Affected(t.recs, id) <==> Names(t.recs[|s.recs|..], i)
  {
    AffectedFacts(t.recs, id);
    var added := t.recs[|s.recs|..];
    assert t.recs == s.recs + added;
    if i in Affected(t.recs, id) {
      var r :| r in t.recs && Touches(r, id) && Touches(r, i);
      assert r in added;
    }
    if Names(added, i) {
      var r :| r in added && Touches(r, i);
      assert r in t.recs;
    }
  }

  lemma RowRestored(c: Chart, s: State, t: State, u: State, pay: NewPayment, id: MoveId, i: MoveId)
    requires id == |s.moves| && i < id && PaymentReset(c, t, u, id) && s.recs <= t.recs
    requires DropRecs(t.recs, id) == s.recs
    requires forall r :: r in s.recs ==> !Touches(r, id)
    requires forall r :: r in t.recs[|s.recs|..] ==> Touches(r, id)
    requires Retouched(c, s.moves[i], t.moves[i])
    requires if Names(t.recs[|s.recs|..], i) then s.moves[i].rate.None? && OpenAmount(c, s, i) > 0 else t.moves[i] == s.moves[i]
    requires Names(t.recs[|s.recs|..], i) <==> ReachedBy(c, s, pay, i)
    ensures Recomputed(c, s, pay, i, u.moves[i])
  {
    hide Names, Retouched, ReopenedRow, Affected, Touches, Current, ReachedBy, OpenOf;
    AffectedIsNamed(s, t, id, i);
    if Names(t.recs[|s.recs|..], i) {
      ReopenedIsRestored(c, s.recs, i, s.moves[i], t.moves[i]);
    }
  }
}
