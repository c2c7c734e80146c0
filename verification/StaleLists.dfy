/**
 `register_payment` does not ask whether the documents it is given are posted. When it keeps the books
 sound all the same: exactly when the money reaches posted documents only.
 */
module StaleLists {
  import opened Wrappers
  import opened Ledger
  import opened ServiceModel
  import opened DocumentsModel
  import opened SettlementModel
  import opened Invariant
  import opened Periods
  import opened PostingKeeps
  import opened DocumentsKeep
  import opened PaymentsKeep
  import opened SettlementEffects
  import opened RoundTrip

  /** Read before the call: every document that the money reaches is posted. */
  ghost predicate ReachesPosted(c: Chart, s: State, pay: NewPayment) {
    forall i: nat :: i < |s.moves| && ReachedBy(c, s, pay, i) ==> s.moves[i].stage.Posted?
  }

  /** The same midway through an allocation. */
  ghost predicate StillReachesPosted(c: Chart, s: State, q: State, isDebit: bool, left: int, docs: seq<MoveId>, seen: set<MoveId>) {
    forall i: nat :: i < |s.moves| && i < |q.moves| && Reaches(c, s, isDebit, left, docs, i, seen) ==> q.moves[i].stage.Posted?
  }

  lemma ReachesOnwards(c: Chart, s: State, q: State, isDebit: bool, left: int, docs: seq<MoveId>, seen: set<MoveId>)
    requires StillReachesPosted(c, s, q, isDebit, left, docs, seen) && docs != [] && left > 0
    ensures docs[0] in seen || !Matchable(c, s, docs[0], isDebit) ==> StillReachesPosted(c, s, q, isDebit, left, docs[1..], seen)
    ensures docs[0] !in seen && Matchable(c, s, docs[0], isDebit) ==>
              && docs[0] < |s.moves| && (docs[0] < |q.moves| ==> q.moves[docs[0]].stage.Posted?)
              && StillReachesPosted(c, s, q, isDebit, left - Min(left, OpenCounterpart(c, s, docs[0]).value.amount), docs[1..], seen + {docs[0]})
  {
    hide OpenCounterpart;
    if docs[0] !in seen && Matchable(c, s, docs[0], isDebit) {
      MatchableExists(c, s, docs[0], isDebit);
      assert Reaches(c, s, isDebit, left, docs, docs[0], seen);
    }
  }

  lemma MatchableExists(c: Chart, s: State, d: MoveId, isDebit: bool)
    requires Matchable(c, s, d, isDebit)
    ensures d < |s.moves|
  {
  }

  lemma StagesStay(c: Chart, s: State, q: State, t: State, isDebit: bool, left: int, docs: seq<MoveId>, seen: set<MoveId>)
    requires StillReachesPosted(c, s, q, isDebit, left, docs, seen) && Extends(q, t) && |t.moves| == |q.moves|
    ensures StillReachesPosted(c, s, t, isDebit, left, docs, seen)
  {
    hide Reaches;
    forall i: nat | i < |s.moves| && i < |t.moves| && Reaches(c, s, isDebit, left, docs, i, seen) ensures t.moves[i].stage.Posted? {
      assert SameEntry(q.moves[i], t.moves[i]);
    }
  }

  lemma {:induction false} AllocateKeepsReached(c: Chart, s: State, q: State, pay: LineRef, isDebit: bool, left: int, docs: seq<MoveId>,
                                                seen: set<MoveId>)
    requires InvExcept(c, q, {pay.move}) && OpenPayment(c, q, pay, isDebit, left)
    requires pay.move == |s.moves| && Midway(c, s, q, seen, left) && StillReachesPosted(c, s, q, isDebit, left, docs, seen)
    ensures Progress(c, q, Allocate(c, q, pay, isDebit, left, docs), {pay.move})
    decreases |docs|
  {
    hide InvExcept, Guarded, AllocateOne, Midway, StillReachesPosted, OpenPayment, Matchable;
    if docs == [] || left <= 0 {
      NoProgress(c, q, {pay.move});
    } else {
      SameMatchable(c, s, q, pay, isDebit, left, seen, docs[0]);
      ReachesOnwards(c, s, q, isDebit, left, docs, seen);
      if !Matchable(c, q, docs[0], isDebit) {
        AllocateKeepsReached(c, s, q, pay, isDebit, left, docs[1..], seen);
      } else {
        var matched := Min(left, OpenAmount(c, q, docs[0]));
        TurnKeeps(c, s, q, pay, isDebit, left, docs[0], seen);
        var q2 := AllocateOne(c, q, pay, matched, docs[0]);
        StagesStay(c, s, q, q2, isDebit, left - matched, docs[1..], seen + {docs[0]});
        AllocateKeepsReached(c, s, q2, pay, isDebit, left - matched, docs[1..], seen + {docs[0]});
        ProgressChain(c, q, q2, Allocate(c, q, pay, isDebit, left, docs), {pay.move}, {pay.move});
      }
    }
  }

  /** One turn with a posted document. */
  lemma TurnKeeps(c: Chart, s: State, q: State, pay: LineRef, isDebit: bool, left: int, doc: MoveId, seen: set<MoveId>)
    requires InvExcept(c, q, {pay.move}) && OpenPayment(c, q, pay, isDebit, left) && left > 0
    requires pay.move == |s.moves| && Midway(c, s, q, seen, left) && Matchable(c, q, doc, isDebit) && doc < |s.moves|
    requires doc < |q.moves| ==> q.moves[doc].stage.Posted?
    ensures OpenCounterpart(c, q, doc).Some?
    ensures var matched := Min(left, OpenAmount(c, q, doc));
            var t := AllocateOne(c, q, pay, matched, doc);
            && matched == Min(left, OpenCounterpart(c, q, doc).value.amount)
            && Progress(c, q, t, {pay.move}) && |t.moves| == |q.moves|
            && OpenPayment(c, t, pay, isDebit, left - matched) && Midway(c, s, t, seen + {doc}, left - matched)
  {
    hide InvExcept, Guarded, Extends, AllocateOne, Midway, Settleable, Room, OpenOf, Opposite, OpenPayment, Matchable;
    PaymentLineFits(c, q, pay, isDebit, left, doc);
    var matched := Min(left, OpenCounterpart(c, q, doc).value.amount);
    AllocateOneProgress(c, q, pay, matched, doc);
    OpenPaymentShrinks(c, q, pay, isDebit, left, matched, doc);
    OneTurnMidway(c, s, q, pay, seen, left, doc);
  }

  /** The payment's line has room for a turn, on the side that settles the document. */
  lemma PaymentLineFits(c: Chart, q: State, pay: LineRef, isDebit: bool, left: int, doc: MoveId)
    requires InvExcept(c, q, {pay.move}) && OpenPayment(c, q, pay, isDebit, left) && left > 0 && Matchable(c, q, doc, isDebit)
    ensures OpenCounterpart(c, q, doc).Some? && OpenCounterpart(c, q, doc).value.amount > 0 && pay.move != doc
    ensures Opposite(q, OpenCounterpart(c, q, doc).value.isDebit, pay) && Settleable(c, q, pay)
    ensures Room(q, pay, Min(left, OpenCounterpart(c, q, doc).value.amount))
  {
    CounterpartIsOpposite(c, q, {pay.move}, pay.move);
    RecsAreOk(c, q, {pay.move});
    OpenIsOwing(c, q, pay.move);
    DocumentHasRoom(c, q, pay.move, Min(left, OpenCounterpart(c, q, doc).value.amount));
    hide InvExcept, RecOk, Settleable, OpenOf, Room;
  }

  lemma ReachedFromStart(c: Chart, s: State, pay: NewPayment)
    requires ReachesPosted(c, s, pay) && PostedPayment(c, s, pay)
    ensures StillReachesPosted(c, s, PostPayment(c, s, pay).db, PaymentSide(c, pay), pay.amount, pay.allocateTo, {})
  {
    hide PostPayment, Reaches, PaymentSide, TermsOfPayment;
    var p := PostPayment(c, s, pay).db;
    forall i: nat | i < |s.moves| && i < |p.moves| && Reaches(c, s, PaymentSide(c, pay), pay.amount, pay.allocateTo, i, {})
      ensures p.moves[i].stage.Posted?
    {
      assert ReachedBy(c, s, pay, i);
    }
  }

  /** A company-currency payment keeps everything as long as the money reaches posted documents only. */
  lemma RegistrationKeeps(c: Chart, s: State, pay: NewPayment)
    requires Inv(c, s) && !IsForeign(pay) && ReachesPosted(c, s, pay)
    ensures Progress(c, s, RegisterPayment(c, s, pay).db, {})
  {
    hide InvExcept, Guarded, Extends, PostPayment, Allocate, ReachesPosted, PostedPayment, Owing, OpenOf, OpenPayment, PaymentSide,
         TermsOfPayment, StillReachesPosted, Midway, HeaderAgrees, Refreshed;
    PostPaymentKeeps(c, s, pay, {});
    var p := PostPayment(c, s, pay).db;
    if PostPayment(c, s, pay).result.Ok? && OpenCounterpart(c, p, |s.moves|).Some? {
      PaymentIsOwing(c, s, pay);
      PaymentIsWhollyOpen(c, s, pay);
      NothingTouched(c, s, pay);
      ReachedFromStart(c, s, pay);
      var o := OpenCounterpart(c, p, |s.moves|).value;
      InvWeaken(c, p, {}, {|s.moves|});
      AllocateKeepsReached(c, s, p, o.line, o.isDebit, o.amount, pay.allocateTo, {});
      PostedIsLast(c, s, pay);
      FinishPayment(c, s, p, Allocate(c, p, o.line, o.isDebit, o.amount, pay.allocateTo), |s.moves|);
    }
  }

  lemma PostedIsLast(c: Chart, s: State, pay: NewPayment)
    requires PostedPayment(c, s, pay)
    ensures var p := PostPayment(c, s, pay);
            p.result == Ok(|s.moves|) && |s.moves| < |p.db.moves| && p.db.moves[|s.moves|].stage.Posted?
  {
    hide PostPayment, TermsOfPayment;
  }

  /** A reconciliation of a row that is not posted is not sound. */
  lemma DraftsAreUnnamed(c: Chart, t: State, rows: seq<Reconcile>, i: MoveId)
    requires Inv(c, t) && (forall r :: r in rows ==> r in t.recs) && Names(rows, i) && i < |t.moves|
    ensures t.moves[i].stage.Posted?
  {
    var r :| r in rows && Touches(r, i);
    assert RecOk(t, r);
  }

  /** The books are sound after a registered company-currency payment exactly when it reached posted documents only. */
  lemma RegistrationIsSoundWhen(c: Chart, s: State, pay: NewPayment)
    requires Inv(c, s) && !IsForeign(pay) && RegisterPayment(c, s, pay).result.Ok?
    ensures Inv(c, RegisterPayment(c, s, pay).db) <==> ReachesPosted(c, s, pay)
  {
    hide InvExcept, RegisterPayment, ReachedBy, Names;
    var t := RegisterPayment(c, s, pay).db;
    if ReachesPosted(c, s, pay) {
      RegistrationKeeps(c, s, pay);
    } else {
      var i: nat :| i < |s.moves| && ReachedBy(c, s, pay, i) && !s.moves[i].stage.Posted?;
      RegistrationTrace(c, s, pay);
      RegistrationNames(c, s, pay, i);
      assert Retouched(c, s.moves[i], t.moves[i]);
      if Inv(c, t) {
        DraftsAreUnnamed(c, t, t.recs[|s.recs|..], i);
      }
    }
  }

  /** A payment with one listed document that it reaches takes off it what it has, up to what is open. */
  lemma OnePaidDocument(c: Chart, s: State, pay: NewPayment, doc: MoveId)
    requires Inv(c, s) && !IsForeign(pay) && RegisterPayment(c, s, pay).result.Ok? && pay.allocateTo == [doc]
    requires TermsOfPayment(c, pay).Ok? && Matchable(c, s, doc, PaymentSide(c, pay))
    ensures var t := RegisterPayment(c, s, pay).db;
            && doc < |s.moves| < |t.moves| && t.lock == s.lock && t.years == s.years
            && SameEntry(s.moves[doc], t.moves[doc])
            && OpenCounterpart(c, t, doc).Some?
            && OpenAmount(c, t, doc) == OpenAmount(c, s, doc) - Min(pay.amount, OpenAmount(c, s, doc))
  {
    RegistrationInSteps(c, s, pay);
    PaymentIsWhollyOpen(c, s, pay);
    NothingTouched(c, s, pay);
    MatchableExists(c, s, doc, PaymentSide(c, pay));
    var p := PostPayment(c, s, pay).db;
    var o := OpenCounterpart(c, p, |s.moves|).value;
    SameMatchable(c, s, p, o.line, o.isDebit, o.amount, {}, doc);
    PaymentPeriods(c, s, pay, doc);
    hide Inv, RegisterPayment, PostPayment, TermsOfPayment, OpenOf, PaymentSide, Midway;
    OneAllocation(c, p, o, doc);
  }

  lemma PaymentPeriods(c: Chart, s: State, pay: NewPayment, doc: MoveId)
    requires PostedPayment(c, s, pay) && doc < |s.moves|
    ensures var p := PostPayment(c, s, pay).db;
            && p.lock == s.lock && p.years == s.years && |p.moves| == |s.moves| + 1 && p.moves[doc] == s.moves[doc]
            && OpenAmount(c, p, doc) == OpenAmount(c, s, doc)
  {
    hide PostPayment, TermsOfPayment;
  }

  lemma OneAllocation(c: Chart, p: State, o: OpenLine, doc: MoveId)
    requires Matchable(c, p, doc, o.isDebit) && o.amount > 0 && o.line.move == |p.moves| - 1 && doc < |p.moves| - 1
    ensures var t := RefreshPaymentState(c, AllocationOf(c, p, o, [doc]), |p.moves| - 1);
            && |t.moves| == |p.moves| && t.lock == p.lock && t.years == p.years && SameEntry(p.moves[doc], t.moves[doc])
            && OpenCounterpart(c, t, doc).Some?
            && OpenAmount(c, t, doc) == OpenAmount(c, p, doc) - Min(o.amount, OpenAmount(c, p, doc))
  {
    var matched := Min(o.amount, OpenAmount(c, p, doc));
    var q := AllocateOne(c, p, o.line, matched, doc);
    OneTurnOpens(c, p, o.line, matched, doc, doc);
    TurnRow(c, p, o.line, matched, doc, doc);
    TurnPeriods(c, p, o.line, matched, doc);
    AllocateOnce(c, p, o.line, o.isDebit, o.amount, doc);
    hide AllocateOne, OpenOf, Allocate;
    assert OpenCounterpart(c, RefreshPaymentState(c, q, |p.moves| - 1), doc) == OpenCounterpart(c, q, doc);
  }

  lemma AllocateOnce(c: Chart, p: State, line: LineRef, isDebit: bool, left: int, doc: MoveId)
    requires Matchable(c, p, doc, isDebit) && left > 0
    ensures Allocate(c, p, line, isDebit, left, [doc]) == AllocateOne(c, p, line, Min(left, OpenAmount(c, p, doc)), doc)
  {
    hide AllocateOne, OpenOf;
    var docs, matched := [doc], Min(left, OpenAmount(c, p, doc));
    assert docs[1..] == [];
    assert Allocate(c, AllocateOne(c, p, line, matched, doc), line, isDebit, left - matched, docs[1..]) == AllocateOne(c, p, line, matched, doc);
  }

  lemma TurnPeriods(c: Chart, q: State, pay: LineRef, matched: int, doc: MoveId)
    ensures AllocateOne(c, q, pay, matched, doc).lock == q.lock && AllocateOne(c, q, pay, matched, doc).years == q.years
  {
    hide Refreshed;
  }
}
