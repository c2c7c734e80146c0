/** Registering a payment keeps the invariant and the frozen periods, on every path. */
module PaymentsKeep {
  import opened Wrappers
  import opened Ledger
  import opened ServiceModel
  import opened CurrencyModel
  import opened DocumentsModel
  import opened SettlementModel
  import opened Invariant
  import opened Periods
  import opened PostingKeeps
  import opened DocumentsKeep

  /** The rows that were there are still the same entries, and reconciliations were only added. */
  ghost predicate Extends(s: State, s': State) {
    && |s.moves| <= |s'.moves|
    && (forall i :: 0 <= i < |s.moves| ==> SameEntry(s.moves[i], s'.moves[i]))
    && s.recs <= s'.recs
  }

  lemma ExtendsChain(s: State, t: State, u: State)
    requires Extends(s, t) && Extends(t, u)
    ensures Extends(s, u)
  {
    forall i | 0 <= i < |s.moves| ensures SameEntry(s.moves[i], u.moves[i]) {
      SameEntryChain(s.moves[i], t.moves[i], u.moves[i]);
    }
  }

  lemma CreateAndPostExtends(c: Chart, s: State, entry: NewMove)
    ensures Extends(s, CreateAndPost(c, s, entry).db)
    ensures CreateAndPost(c, s, entry).db.recs == s.recs
    ensures CreateAndPost(c, s, entry).result.Ok? ==>
              CreateAndPost(c, s, entry).result.value == |s.moves| &&
              |CreateAndPost(c, s, entry).db.moves| == |s.moves| + 1 &&
              CreateAndPost(c, s, entry).db.moves[|s.moves|].stage.Posted? &&
              CreateAndPost(c, s, entry).db.moves[..|s.moves|] == s.moves
  {
    var created := CreateMove(c, s, entry);
    if Verdict(InputAmounts(entry.lines)).Ok? && created.result.Ok? {
      PostMoveEffect(created.db, |s.moves|);
    }
  }

  // ─── The payment entry ──────────────────────────────────────────────

  lemma PaymentLinesShape(c: Chart, pay: NewPayment, t: PaymentTerms)
    ensures var lines := LinesOfPayment(pay, t);
            var myr := ToMyr(pay.amount, t.rate);
            && |lines| == 2 && FreshLines(lines)
            && SumDebit(lines) == SumCredit(lines) == myr
            && (forall l :: l in lines ==> (l.foreign.Some? <==> IsForeign(pay)) && LineGross(l) == myr)
            && (Balanced(lines) <==> myr > 0)
            && (!IsForeign(pay) && TermsOfPayment(c, pay) == Ok(t) ==> myr == pay.amount)
  {
    var lines := LinesOfPayment(pay, t);
    SumsOfTwo(lines[0], lines[1], {});
    assert lines == [lines[0], lines[1]];
    CompanyCurrencyIsExact(pay.amount);
  }

  lemma PostPaymentKeeps(c: Chart, s: State, pay: NewPayment, stale: set<MoveId>)
    requires InvExcept(c, s, stale)
    ensures Keeps(c, s, PostPayment(c, s, pay).db, stale)
    ensures Extends(s, PostPayment(c, s, pay).db)
    ensures PostPayment(c, s, pay).result.Ok? ==> PostedPayment(c, s, pay)
  {
    if TermsOfPayment(c, pay).Ok? {
      var t := TermsOfPayment(c, pay).value;
      var lines := LinesOfPayment(pay, t);
      var entry := PaymentMove(pay, lines);
      PaymentLinesShape(c, pay, t);
      CreateAndPostKeeps(c, s, entry, stale);
      CreateAndPostExtends(c, s, entry);
      CreateAndPostEffect(c, s, entry, lines);
      FromSenIsExact(lines);
    } else {
      GuardedSelf(s);
    }
  }

  /** What is known right after the payment entry has been posted. */
  ghost predicate PostedPayment(c: Chart, s: State, pay: NewPayment) {
    var r := PostPayment(c, s, pay);
    TermsOfPayment(c, pay).Ok? && r.result.Ok? &&
    var t := TermsOfPayment(c, pay).value;
    var lines := LinesOfPayment(pay, t);
    && r.result == Ok(|s.moves|)
    && r.db == s.(moves := s.moves + [NewRow(PaymentMove(pay, lines), s.nextNumber, SumDebit(lines))], nextNumber := s.nextNumber + 1)
    && r.db.moves[|s.moves|].lines == lines
    && RowsAccepted(c, lines) && !Frozen(s, pay.date) && SumDebit(lines) > 0
  }

  // ─── Company-currency allocation ────────────────────────────────────

  /** The line of the payment being allocated, with what is still unallocated on it. */
  ghost predicate OpenPayment(c: Chart, s: State, pay: LineRef, isDebit: bool, left: int) {
    OpenCounterpart(c, s, pay.move) == Some(OpenLine(pay, left, isDebit)) && s.moves[pay.move].stage.Posted?
  }

  /** Allocation lists name posted rows. */
  ghost predicate NamesPosted(s: State, docs: seq<MoveId>) {
    forall d :: d in docs && d < |s.moves| ==> s.moves[d].stage.Posted?
  }

  /** A step that keeps everything: the invariant up to stale rows, frozen dates, existing entries. */
  ghost predicate Progress(c: Chart, s: State, s': State, stale: set<MoveId>) {
    Keeps(c, s, s', stale) && Extends(s, s')
  }

  lemma ProgressChain(c: Chart, s: State, t: State, u: State, some: set<MoveId>, stale: set<MoveId>)
    requires Progress(c, s, t, some) && Progress(c, t, u, stale)
    ensures Progress(c, s, u, stale)
  {
    GuardedChain(s, t, u);
    ExtendsChain(s, t, u);
  }

  lemma ProgressWeaken(c: Chart, s: State, t: State, stale: set<MoveId>, more: set<MoveId>)
    requires Progress(c, s, t, stale) && stale <= more
    ensures Progress(c, s, t, more)
  {
    InvWeaken(c, t, stale, more);
  }

  lemma NoProgress(c: Chart, s: State, stale: set<MoveId>)
    requires InvExcept(c, s, stale)
    ensures Progress(c, s, s, stale)
  {
    GuardedSelf(s);
  }

  lemma RefreshProgress(c: Chart, s: State, id: MoveId, stale: set<MoveId>)
    requires InvExcept(c, s, stale)
    requires id < |s.moves| ==> s.moves[id].stage.Posted? && Owing(c, s.moves[id])
    ensures Progress(c, s, RefreshPaymentState(c, s, id), stale - {id})
  {
    RefreshKeeps(c, s, id, stale);
    RefreshSameLedger(c, s, id);
  }

  /** A line of a posted row that still has `amount` to give, or is not bounded in MYR. */
  ghost predicate Room(s: State, line: LineRef, amount: int) {
    && RefOk(s, line)
    && var l := s.moves[line.move].lines[line.index];
       Settled(s.recs, line) + amount <= LineGross(l) || l.foreign.Some? || s.moves[line.move].rate.Some?
  }

  lemma PairRowsFit(c: Chart, s: State, stale: set<MoveId>, a: LineRef, b: LineRef, r: Reconcile)
    requires InvExcept(c, s, stale)
    requires Room(s, a, r.amount) && Room(s, b, r.amount) && a.move != b.move
    requires (r.debit == a && r.credit == b) || (r.debit == b && r.credit == a)
    ensures RowsFit(s, [r])
  {
    forall i: nat, k: nat | MyrLine(s, i, k)
      ensures Settled(s.recs + [r], LineRef(i, k)) <= LineGross(s.moves[i].lines[k])
    {
      SettledOfOneMore(s.recs, r, LineRef(i, k));
      assert Covered(c, s.recs, i, s.moves[i]) by {
        assert RowOk(c, s.recs, i, s.moves[i], i in stale);
      }
    }
  }

  /** Another line on the side that settles a line of side `isDebit`. */
  ghost predicate Opposite(s: State, isDebit: bool, other: LineRef) {
    RefOk(s, other) && if isDebit then LineAt(s, other).debit == 0 else LineAt(s, other).credit == 0
  }

  /** A document's counterpart paired with such a line is a debit line paired with a credit line. */
  lemma PairOnSides(c: Chart, s: State, stale: set<MoveId>, doc: MoveId, other: LineRef, amount: int, currency: int)
    requires InvExcept(c, s, stale) && OpenCounterpart(c, s, doc).Some? && s.moves[doc].stage.Posted?
    requires Opposite(s, OpenCounterpart(c, s, doc).value.isDebit, other)
    ensures var o := OpenCounterpart(c, s, doc).value;
            OnSides(s, Pair(o.line, o.isDebit, other, amount, currency))
  {
    PostedIsBalanced(c, s, stale, doc);
    assert OneSided(s.moves[doc].lines[OpenCounterpart(c, s, doc).value.line.index]);
  }

  /** A payment's open line settles documents of the other side. */
  lemma CounterpartIsOpposite(c: Chart, s: State, stale: set<MoveId>, id: MoveId)
    requires InvExcept(c, s, stale) && OpenCounterpart(c, s, id).Some? && s.moves[id].stage.Posted?
    ensures Opposite(s, !OpenCounterpart(c, s, id).value.isDebit, OpenCounterpart(c, s, id).value.line)
  {
    PostedIsBalanced(c, s, stale, id);
    assert OneSided(s.moves[id].lines[OpenCounterpart(c, s, id).value.line.index]);
  }

  lemma PairIsNamed(c: Chart, s: State, a: LineRef, b: LineRef, r: Reconcile)
    requires OnSides(s, r) && Settleable(c, s, a) && Settleable(c, s, b) && a.move != b.move
    requires (r.debit == a && r.credit == b) || (r.debit == b && r.credit == a)
    requires 0 < r.amount && 0 <= r.currency
    ensures NamesOwing(c, s, [r]) && forall x :: x in [r] ==> RecOk(s, x)
  {
    hide Settleable, OnSides;
  }

  /** One reconciliation between two lines fits when it takes no more than either still has. */
  lemma PairProgress(c: Chart, s: State, stale: set<MoveId>, a: LineRef, b: LineRef, r: Reconcile)
    requires InvExcept(c, s, stale) && OnSides(s, r)
    requires Room(s, a, r.amount) && Room(s, b, r.amount) && a.move != b.move
    requires Settleable(c, s, a) && Settleable(c, s, b)
    requires (r.debit == a && r.credit == b) || (r.debit == b && r.credit == a)
    requires 0 < r.amount && 0 <= r.currency
    ensures Progress(c, s, AddRec(s, r), stale + {a.move, b.move})
  {
    hide InvExcept, Guarded, Extends, Room, RowsFit, NamesOwing, Settleable, RecOk, OnSides, Named, AddRec;
    PairRowsFit(c, s, stale, a, b, r);
    PairIsNamed(c, s, a, b, r);
    AddRowsKeep(c, s, [r], stale);
    NamedByOne(r);
    assert stale + Named([r]) == stale + {a.move, b.move};
    AddRecExtends(s, r);
  }

  lemma NamedByOne(r: Reconcile)
    ensures Named([r]) == {r.debit.move, r.credit.move}
  {
    assert r in [r];
  }

  lemma AddRecExtends(s: State, r: Reconcile)
    ensures AddRec(s, r) == s.(recs := s.recs + [r]) && Extends(s, AddRec(s, r))
  {
  }

  lemma RecsAreOk(c: Chart, s: State, stale: set<MoveId>)
    requires InvExcept(c, s, stale)
    ensures forall r :: r in s.recs ==> RecOk(s, r)
  {
  }

  /** One turn adds one reconciliation and recomputes the document's row. */
  lemma OneTurn(c: Chart, s: State, pay: LineRef, matched: int, doc: MoveId)
    requires OpenCounterpart(c, s, doc).Some?
    ensures var o, t := OpenCounterpart(c, s, doc).value, AllocateOne(c, s, pay, matched, doc);
            && t.recs == s.recs + [Pair(o.line, o.isDebit, pay, matched, 0)] && |t.moves| == |s.moves| && o.line.move == doc < |s.moves|
            && (forall i :: 0 <= i < |s.moves| && i != doc ==> t.moves[i] == s.moves[i])
  {
    hide Refreshed;
  }

  /** One document's turn: its open line is matched with another line that has room. */
  lemma AllocateOneProgress(c: Chart, s: State, other: LineRef, matched: int, doc: MoveId)
    requires InvExcept(c, s, {other.move})
    requires OpenCounterpart(c, s, doc).Some? && s.moves[doc].stage.Posted? && other.move != doc
    requires 0 < matched <= OpenCounterpart(c, s, doc).value.amount && Room(s, other, matched)
    requires Opposite(s, OpenCounterpart(c, s, doc).value.isDebit, other) && Settleable(c, s, other)
    ensures Progress(c, s, AllocateOne(c, s, other, matched, doc), {other.move})
    ensures var t := AllocateOne(c, s, other, matched, doc);
            && |t.moves| == |s.moves|
            && (forall i :: 0 <= i < |s.moves| && i != doc ==> t.moves[i] == s.moves[i])
            && |t.recs| == |s.recs| + 1 && t.recs[..|s.recs|] == s.recs
            && t.recs[|s.recs|] == Pair(OpenCounterpart(c, s, doc).value.line, OpenCounterpart(c, s, doc).value.isDebit, other, matched, 0)
  {
    RecsAreOk(c, s, {other.move});
    OpenIsOwing(c, s, doc);
    OneTurn(c, s, other, matched, doc);
    DocumentHasRoom(c, s, doc, matched);
    hide InvExcept, Guarded, Extends, Owing, RecOk, Settleable, Room, Opposite, OpenOf, OnSides;
    var o := OpenCounterpart(c, s, doc).value;
    var r := Pair(o.line, o.isDebit, other, matched, 0);
    var s1 := AddRec(s, r);
    var stale := {other.move};
    PairOnSides(c, s, stale, doc, other, matched, 0);
    PairProgress(c, s, stale, o.line, other, r);
    RefreshProgress(c, s1, doc, stale + {doc, other.move});
    var s2 := RefreshPaymentState(c, s1, doc);
    ProgressChain(c, s, s1, s2, stale + {doc, other.move}, stale + {doc, other.move} - {doc});
    ProgressWeaken(c, s, s2, stale + {doc, other.move} - {doc}, stale);
  }

  lemma DocumentHasRoom(c: Chart, s: State, doc: MoveId, matched: int)
    requires OpenCounterpart(c, s, doc).Some? && s.moves[doc].stage.Posted? && matched <= OpenCounterpart(c, s, doc).value.amount
    ensures Room(s, OpenCounterpart(c, s, doc).value.line, matched)
  {
  }

  /** The payment line that one turn leaves behind. */
  lemma OpenPaymentShrinks(c: Chart, s: State, pay: LineRef, isDebit: bool, left: int, matched: int, doc: MoveId)
    requires OpenPayment(c, s, pay, isDebit, left) && OpenCounterpart(c, s, doc).Some? && doc != pay.move
    ensures OpenPayment(c, AllocateOne(c, s, pay, matched, doc), pay, isDebit, left - matched)
  {
    hide AllocateOne, Settled, Counterpart, SettledCurrency;
    OneTurn(c, s, pay, matched, doc);
    var o := OpenCounterpart(c, s, doc).value;
    SettledOfOneMore(s.recs, Pair(o.line, o.isDebit, pay, matched, 0), pay);
  }

  lemma {:induction false} AllocateKeeps(c: Chart, s: State, pay: LineRef, isDebit: bool, left: int, docs: seq<MoveId>)
    requires InvExcept(c, s, {pay.move})
    requires OpenPayment(c, s, pay, isDebit, left) && NamesPosted(s, docs)
    ensures Progress(c, s, Allocate(c, s, pay, isDebit, left, docs), {pay.move})
    decreases |docs|
  {
    hide InvExcept, Guarded, AllocateOne;
    if docs == [] || left <= 0 {
      NoProgress(c, s, {pay.move});
    } else if !Matchable(c, s, docs[0], isDebit) {
      AllocateKeeps(c, s, pay, isDebit, left, docs[1..]);
    } else {
      var matched := Min(left, OpenCounterpart(c, s, docs[0]).value.amount);
      var s2 := AllocateOne(c, s, pay, matched, docs[0]);
      CounterpartIsOpposite(c, s, {pay.move}, pay.move);
      RecsAreOk(c, s, {pay.move});
      OpenIsOwing(c, s, pay.move);
      AllocateOneProgress(c, s, pay, matched, docs[0]);
      OpenPaymentShrinks(c, s, pay, isDebit, left, matched, docs[0]);
      PostedStays(s, s2, docs[1..]);
      AllocateKeeps(c, s2, pay, isDebit, left - matched, docs[1..]);
      ProgressChain(c, s, s2, Allocate(c, s, pay, isDebit, left, docs), {pay.move}, {pay.move});
    }
  }

  lemma PostedStays(s: State, s': State, docs: seq<MoveId>)
    requires Extends(s, s') && (forall d :: d in docs && d < |s.moves| ==> s.moves[d].stage.Posted?)
    requires forall i :: |s.moves| <= i < |s'.moves| ==> s'.moves[i].stage.Posted?
    ensures NamesPosted(s', docs)
  {
    forall d | d in docs && d < |s'.moves| ensures s'.moves[d].stage.Posted? {
      if d < |s.moves| {
        assert SameEntry(s.moves[d], s'.moves[d]);
      }
    }
  }

  // ─── Foreign-currency allocation ────────────────────────────────────

  /** A posted payment line kept in a foreign currency. */
  ghost predicate FxLine(c: Chart, s: State, pay: FxPayment) {
    && OpenCounterpart(c, s, pay.line.move).Some?
    && OpenCounterpart(c, s, pay.line.move).value.line == pay.line
    && OpenCounterpart(c, s, pay.line.move).value.isDebit == pay.isDebit
    && s.moves[pay.line.move].stage.Posted?
    && s.moves[pay.line.move].lines[pay.line.index].foreign.Some?
    && s.moves[pay.line.move].currency.None? && Owing(c, s.moves[pay.line.move])
    && pay.counterpart < |c.accounts| && !Frozen(s, pay.date)
  }

  lemma PostRealizedFxKeeps(c: Chart, s: State, counterpart: AccountId, partner: Option<PartnerId>, delta: int, date: Date, stale: set<MoveId>)
    requires InvExcept(c, s, stale)
    ensures Keeps(c, s, PostRealizedFx(c, s, counterpart, partner, delta, date).db, stale)
    ensures Extends(s, PostRealizedFx(c, s, counterpart, partner, delta, date).db)
    ensures PostRealizedFx(c, s, counterpart, partner, delta, date).db.recs == s.recs
    ensures FxReady(c) && counterpart < |c.accounts| && !Frozen(s, date) ==>
              PostRealizedFx(c, s, counterpart, partner, delta, date).result.Ok?
    ensures PostRealizedFx(c, s, counterpart, partner, delta, date).result.Ok? ==>
              forall i :: |s.moves| <= i < |PostRealizedFx(c, s, counterpart, partner, delta, date).db.moves| ==>
                PostRealizedFx(c, s, counterpart, partner, delta, date).db.moves[i].stage.Posted?
  {
    if delta == 0 || c.realizedFx.None? {
      GuardedSelf(s);
    } else {
      var accounts := c.realizedFx.value;
      var lines := RealizedFxLines(accounts, counterpart, delta);
      var entry := RealizedFxMove(accounts, counterpart, partner, delta, date);
      RealizedFxIsBalanced(accounts, counterpart, delta);
      CreateAndPostKeeps(c, s, entry, stale);
      CreateAndPostExtends(c, s, entry);
      CreateAndPostEffect(c, s, entry, lines);
    }
  }

  lemma FxPairProgress(c: Chart, s: State, pay: FxPayment, matched: int, doc: MoveId)
    requires InvExcept(c, s, {pay.line.move})
    requires FxLine(c, s, pay) && FxMatchable(c, s, doc, pay) && 0 < matched
    requires ToMyr(matched, s.moves[doc].rate.value) > 0
    ensures var o := OpenCounterpart(c, s, doc).value;
            Progress(c, s, AddRec(s, Pair(o.line, o.isDebit, pay.line, ToMyr(matched, s.moves[doc].rate.value), matched)),
                     {pay.line.move, doc})
  {
    var o := OpenCounterpart(c, s, doc).value;
    var id := pay.line.move;
    assert s.moves[doc].lines[o.line.index] in s.moves[doc].lines;
    assert RowOk(c, s.recs, doc, s.moves[doc], doc in {id});
    CounterpartIsOpposite(c, s, {id}, id);
    PairOnSides(c, s, {id}, doc, pay.line, ToMyr(matched, s.moves[doc].rate.value), matched);
    PairProgress(c, s, {id}, o.line, pay.line,
                 Pair(o.line, o.isDebit, pay.line, ToMyr(matched, s.moves[doc].rate.value), matched));
    assert {id} + {doc, id} == {id, doc};
  }

  lemma FxSliceProgress(c: Chart, s: State, pay: FxPayment, inbound: bool, matched: int, doc: MoveId)
    requires InvExcept(c, s, {pay.line.move})
    requires FxLine(c, s, pay) && FxMatchable(c, s, doc, pay) && 0 < matched
    ensures Progress(c, s, FxSlice(c, s, pay, inbound, matched, doc).db, {pay.line.move})
    ensures FxSlice(c, s, pay, inbound, matched, doc).result.Ok? ==>
              forall i :: |s.moves| <= i < |FxSlice(c, s, pay, inbound, matched, doc).db.moves| ==>
                FxSlice(c, s, pay, inbound, matched, doc).db.moves[i].stage.Posted?
  {
    hide RowOk, Guarded, RecOk, NumbersOk;
    var id := pay.line.move;
    var o := OpenCounterpart(c, s, doc).value;
    var rate := s.moves[doc].rate.value;
    if ToMyr(matched, rate) <= 0 {
      NoProgress(c, s, {id});
    } else {
      var s1 := AddRec(s, Pair(o.line, o.isDebit, pay.line, ToMyr(matched, rate), matched));
      var delta := SliceDelta(matched, pay.rate, rate, inbound);
      var fx := PostRealizedFx(c, s1, pay.counterpart, s.moves[doc].partner, delta, pay.date);
      FxPairProgress(c, s, pay, matched, doc);
      PostRealizedFxKeeps(c, s1, pay.counterpart, s.moves[doc].partner, delta, pay.date, {id, doc});
      ProgressChain(c, s, s1, fx.db, {id, doc}, {id, doc});
      assert SameEntry(s.moves[doc], fx.db.moves[doc]);
      if fx.result.Err? {
        assert !FxReady(c);
        InvForget(c, fx.db, {id, doc}, doc);
        InvWeaken(c, fx.db, {id, doc} - {doc}, {id});
      } else {
        var s2 := RefreshPaymentState(c, fx.db, doc);
        SameLinesFacts(c, s.moves[doc].lines, fx.db.moves[doc].lines);
      RefreshProgress(c, fx.db, doc, {id, doc});
        ProgressChain(c, s, fx.db, s2, {id, doc}, {id, doc} - {doc});
        ProgressWeaken(c, s, s2, {id, doc} - {doc}, {id});
      }
    }
  }

  lemma {:induction false} AllocateFxKeeps(c: Chart, s: State, pay: FxPayment, inbound: bool, left: int, docs: seq<MoveId>)
    requires InvExcept(c, s, {pay.line.move})
    requires FxLine(c, s, pay)
    ensures Progress(c, s, AllocateFx(c, s, pay, inbound, left, docs).db, {pay.line.move})
    decreases |docs|
  {
    hide InvExcept, Guarded, FxSlice;
    var id := pay.line.move;
    if docs == [] || left <= 0 {
      NoProgress(c, s, {id});
    } else if !FxMatchable(c, s, docs[0], pay) {
      AllocateFxKeeps(c, s, pay, inbound, left, docs[1..]);
    } else {
      var matched := Min(left, s.moves[docs[0]].residualCurrency.value);
      FxSliceProgress(c, s, pay, inbound, matched, docs[0]);
      var slice := FxSlice(c, s, pay, inbound, matched, docs[0]);
      if slice.result.Ok? {
        FxLineStays(c, s, slice.db, pay);
        AllocateFxKeeps(c, slice.db, pay, inbound, left - matched, docs[1..]);
        ProgressChain(c, s, slice.db, AllocateFx(c, s, pay, inbound, left, docs).db, {id}, {id});
      }
    }
  }

  lemma FxLineStays(c: Chart, s: State, s': State, pay: FxPayment)
    requires FxLine(c, s, pay) && Extends(s, s') && Guarded(s, s')
    ensures FxLine(c, s', pay)
  {
    var id := pay.line.move;
    SameEntryFacts(c, s'.recs, id, s.moves[id], s'.moves[id]);
  }

  // ─── The whole call ─────────────────────────────────────────────────

  lemma RegisterPaymentKeeps(c: Chart, s: State, pay: NewPayment)
    requires Inv(c, s) && (!IsForeign(pay) ==> NamesPosted(s, pay.allocateTo))
    ensures Progress(c, s, RegisterPayment(c, s, pay).db, {})
  {
    var posted := PostPayment(c, s, pay);
    PostPaymentKeeps(c, s, pay, {});
    if posted.result.Ok? {
      var t := posted.db;
      var id := |s.moves|;
      if OpenCounterpart(c, t, id).Some? {
        if IsForeign(pay) {
          AllocateFxOfPayment(c, s, pay);
        } else {
          PostedStays(s, t, pay.allocateTo);
          AllocateOfPayment(c, s, pay);
        }
      }
    }
  }

  lemma AllocateOfPayment(c: Chart, s: State, pay: NewPayment)
    requires Inv(c, s) && PostedPayment(c, s, pay) && !IsForeign(pay)
    requires Progress(c, s, PostPayment(c, s, pay).db, {}) && NamesPosted(PostPayment(c, s, pay).db, pay.allocateTo)
    requires OpenCounterpart(c, PostPayment(c, s, pay).db, |s.moves|).Some?
    ensures Progress(c, s, RegisterPayment(c, s, pay).db, {})
  {
    PaymentIsOwing(c, s, pay);
    hide InvExcept, Guarded, Extends, Allocate, PostPayment, TermsOfPayment, Owing;
    var t := PostPayment(c, s, pay).db;
    var id := |s.moves|;
    var o := OpenCounterpart(c, t, id).value;
    var u := Allocate(c, t, o.line, o.isDebit, o.amount, pay.allocateTo);
    InvWeaken(c, t, {}, {id});
    AllocateKeeps(c, t, o.line, o.isDebit, o.amount, pay.allocateTo);
    FinishPayment(c, s, t, u, id);
  }

  lemma AllocateFxOfPayment(c: Chart, s: State, pay: NewPayment)
    requires Inv(c, s) && PostedPayment(c, s, pay) && IsForeign(pay)
    requires Progress(c, s, PostPayment(c, s, pay).db, {})
    requires OpenCounterpart(c, PostPayment(c, s, pay).db, |s.moves|).Some?
    ensures Progress(c, s, RegisterPayment(c, s, pay).db, {})
  {
    PaymentIsOwing(c, s, pay);
    PaymentIsFxLine(c, s, pay);
    hide InvExcept, Guarded, Extends, AllocateFx, PostPayment, TermsOfPayment, Owing, FxLine, PostedPayment, Company, OpenOf;
    var t := PostPayment(c, s, pay).db;
    var id := |s.moves|;
    var o := OpenCounterpart(c, t, id).value;
    var terms := TermsOfPayment(c, pay).value;
    var fx := FxPayment(o.line, o.isDebit, terms.counterpart, pay.currency.value, terms.rate, pay.date);
    InvWeaken(c, t, {}, {id});
    AllocateFxKeeps(c, t, fx, pay.inbound, pay.amount, pay.allocateTo);
    var u := AllocateFx(c, t, fx, pay.inbound, pay.amount, pay.allocateTo);
    if u.result.Ok? {
      FinishPayment(c, s, t, u.db, id);
    } else {
      StillForeign(c, t, u.db, id);
      InvForget(c, u.db, {id}, id);
      InvWeaken(c, u.db, {id} - {id}, {});
      ProgressChain(c, s, t, u.db, {}, {});
    }
  }

  /** The row of a foreign-currency payment, as the allocation finds it. */
  lemma PaymentIsFxLine(c: Chart, s: State, pay: NewPayment)
    requires PostedPayment(c, s, pay) && IsForeign(pay) && OpenCounterpart(c, PostPayment(c, s, pay).db, |s.moves|).Some?
    ensures var p := PostPayment(c, s, pay);
            var o := OpenCounterpart(c, p.db, |s.moves|).value;
            var terms := TermsOfPayment(c, pay).value;
            && p.result == Ok(|s.moves|) && TermsOfPayment(c, pay).Ok? && |s.moves| < |p.db.moves|
            && FxLine(c, p.db, FxPayment(o.line, o.isDebit, terms.counterpart, pay.currency.value, terms.rate, pay.date))
            && o.line.move == |s.moves| && p.db.moves[|s.moves|].stage.Posted? && p.db.moves[|s.moves|].kind.Payment?
            && !Company(p.db.moves[|s.moves|])
  {
    PaymentIsOwing(c, s, pay);
    hide PostPayment, TermsOfPayment, Owing;
    var p := PostPayment(c, s, pay).db;
    var o := OpenCounterpart(c, p, |s.moves|).value;
    var terms := TermsOfPayment(c, pay).value;
    var lines := LinesOfPayment(pay, terms);
    PaymentLinesShape(c, pay, terms);
    assert p.moves[|s.moves|].lines[o.line.index] in lines;
    assert RowAccepted(c, lines[0]) && RowAccepted(c, lines[1]);
    assert Frozen(s, pay.date) <==> Frozen(p, pay.date);
  }

  lemma StillForeign(c: Chart, t: State, u: State, id: MoveId)
    requires id < |t.moves| && Extends(t, u) && t.moves[id].kind.Payment? && !Company(t.moves[id])
    ensures id < |u.moves| && !Tracked(c, u.moves[id]) && !IsMyrItem(u.moves[id])
  {
    SameEntryFacts(c, u.recs, id, t.moves[id], u.moves[id]);
  }

  /** A payment just posted: its counterpart line carries its total. */
  lemma PaymentIsOwing(c: Chart, s: State, pay: NewPayment)
    requires PostedPayment(c, s, pay)
    ensures Owing(c, PostPayment(c, s, pay).db.moves[|s.moves|]) && HeaderAgrees(c, PostPayment(c, s, pay).db.moves[|s.moves|])
  {
    var t := TermsOfPayment(c, pay).value;
    var lines := LinesOfPayment(pay, t);
    PaymentLinesShape(c, pay, t);
    assert lines[0] in lines && lines[1] in lines;
  }

  /** The last refresh, of the payment itself. */
  lemma FinishPayment(c: Chart, s: State, t: State, u: State, id: MoveId)
    requires Progress(c, s, t, {}) && Progress(c, t, u, {id})
    requires id < |t.moves| && t.moves[id].stage.Posted? && Owing(c, t.moves[id])
    ensures Progress(c, s, RefreshPaymentState(c, u, id), {})
  {
    var v := RefreshPaymentState(c, u, id);
    assert SameEntry(t.moves[id], u.moves[id]);
    SameLinesFacts(c, t.moves[id].lines, u.moves[id].lines);
    RefreshProgress(c, u, id, {id});
    ProgressChain(c, s, t, u, {}, {id});
    ProgressChain(c, s, u, v, {id}, {id} - {id});
    ProgressWeaken(c, s, v, {id} - {id}, {});
  }
}
