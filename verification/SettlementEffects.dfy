/**
 Who gets what: the amounts that `settle_documents`, `apply_payment` and `post_settlement` move on every
 document, and what they leave on the payment.
 */
module SettlementEffects {
  import opened Wrappers
  import opened Ledger
  import opened ServiceModel
  import opened CurrencyModel
  import opened DocumentsModel
  import opened SettlementModel
  import opened Pools
  import opened Invariant
  import opened Periods
  import opened PostingKeeps
  import opened DocumentsKeep
  import opened PaymentsKeep
  import opened SettlementsKeep

  /** What is open on a move's receivable or payable line; nothing when it has none. */
  ghost function OpenAmount(c: Chart, s: State, id: MoveId): int {
    var o := OpenCounterpart(c, s, id);
    if o.Some? then o.value.amount else 0
  }

  // ─── Pools of ordered legs ──────────────────────────────────────────

  lemma {:induction false} SideOfConcat(a: seq<Leg>, b: seq<Leg>, isDebit: bool)
    ensures Side(a + b, isDebit) == Side(a, isDebit) + Side(b, isDebit)
  {
    if b == [] {
      assert a + b == a;
    } else {
      assert (a + b)[..|a + b| - 1] == a + b[..|b| - 1];
      SideOfConcat(a, b[..|b| - 1], isDebit);
    }
  }

  ghost predicate AllFace(legs: seq<Leg>, isDebit: bool) {
    forall i :: 0 <= i < |legs| ==> legs[i].isDebit == isDebit
  }

  lemma {:induction false} SideOfAligned(legs: seq<Leg>, isDebit: bool)
    requires AllFace(legs, isDebit)
    ensures Side(legs, isDebit) == SlotsOf(legs) && Side(legs, !isDebit) == []
  {
    if legs != [] {
      SideOfAligned(legs[..|legs| - 1], isDebit);
      assert SlotsOf(legs) == SlotsOf(legs[..|legs| - 1]) + [legs[|legs| - 1].slot];
    }
  }

  /** Targets on one side, everything that funds them on the other. */
  lemma SidesOfFunding(targets: seq<Leg>, funds: seq<Leg>, isDebit: bool)
    requires AllFace(targets, isDebit) && AllFace(funds, !isDebit)
    ensures Side(targets + funds, isDebit) == SlotsOf(targets)
    ensures Side(targets + funds, !isDebit) == SlotsOf(funds)
  {
    SideOfConcat(targets, funds, isDebit);
    SideOfConcat(targets, funds, !isDebit);
    SideOfAligned(targets, isDebit);
    SideOfAligned(funds, !isDebit);
    assert !!isDebit == isDebit;
  }

  // ─── What a settlement moves ────────────────────────────────────────

  /** A settlement takes off every line exactly what its matching says, and touches no other row. */
  lemma OpenAfterSettle(c: Chart, s: State, legs: seq<Leg>, docs: seq<MoveId>, id: MoveId)
    requires id < |s.moves|
    ensures var t := Settle(c, s, legs, docs);
            && |t.moves| == |s.moves| && SameEntry(s.moves[id], t.moves[id])
            && (OpenCounterpart(c, s, id).Some? <==> OpenCounterpart(c, t, id).Some?)
            && (OpenCounterpart(c, s, id).Some? ==>
                  var o, p := OpenCounterpart(c, s, id).value, OpenCounterpart(c, t, id).value;
                  p.line == o.line && p.isDebit == o.isDebit &&
                  p.amount == o.amount - Settled(Matching(Side(legs, true), Side(legs, false)), o.line))
  {
    var rows := Matching(Side(legs, true), Side(legs, false));
    hide Matching, Side;
    var s1 := s.(recs := s.recs + rows);
    var t := Settle(c, s, legs, docs);
    RefreshAllSameLedger(c, s1, docs);
    assert t == RefreshAll(c, s1, docs);
    SameEntryFacts(c, t.recs, id, s.moves[id], t.moves[id]);
    if OpenCounterpart(c, s, id).Some? {
      SettledOfConcat(s.recs, rows, OpenCounterpart(c, s, id).value.line);
    }
  }

  lemma {:induction false} RefreshLeaves(c: Chart, s: State, docs: seq<MoveId>, id: MoveId)
    requires id < |s.moves| && id !in docs
    ensures |RefreshAll(c, s, docs).moves| == |s.moves| && RefreshAll(c, s, docs).moves[id] == s.moves[id]
  {
    if docs != [] {
      RefreshLeaves(c, s, docs[..|docs| - 1], id);
    }
  }

  /** Rows that are neither a leg nor refreshed stay exactly as they are. */
  lemma SettleLeavesOthers(c: Chart, s: State, legs: seq<Leg>, docs: seq<MoveId>, id: MoveId)
    requires LegsOk(c, s, legs) && id < |s.moves| && id !in docs
    requires forall l :: l in legs ==> l.doc != id
    ensures id < |Settle(c, s, legs, docs).moves| && Settle(c, s, legs, docs).moves[id] == s.moves[id]
    ensures OpenAmount(c, Settle(c, s, legs, docs), id) == OpenAmount(c, s, id)
  {
    var rows := Matching(Side(legs, true), Side(legs, false));
    RefreshLeaves(c, s.(recs := s.recs + rows), docs, id);
    OpenAfterSettle(c, s, legs, docs, id);
    LegsAreShaped(c, s, legs);
    forall l | l in legs ensures l.slot.line.move != id {
      var i :| 0 <= i < |legs| && legs[i] == l;
    }
    if OpenCounterpart(c, s, id).Some? {
      StrangersUntouched(legs, OpenCounterpart(c, s, id).value.line);
    }
  }

  /** The matching between the two sides of a leg list, seen from either side. */
  lemma SlotSettled(c: Chart, s: State, legs: seq<Leg>, isDebit: bool, k: nat)
    requires LegsOk(c, s, legs) && k < |Side(legs, isDebit)|
    ensures Settled(Matching(Side(legs, true), Side(legs, false)), Side(legs, isDebit)[k].line) ==
            Taken(Side(legs, isDebit), k, Total(Side(legs, !isDebit)))
  {
    PoolsAreDistinct(c, s, legs);
    MatchingConsumes(Side(legs, true), Side(legs, false));
  }

  /** The leg behind a slot gives up what its slot gives. */
  lemma LegSettled(c: Chart, s: State, legs: seq<Leg>, docs: seq<MoveId>, i: nat, k: nat)
    requires LegsOk(c, s, legs) && i < |legs|
    requires k < |Side(legs, legs[i].isDebit)| && Side(legs, legs[i].isDebit)[k] == legs[i].slot
    ensures legs[i].doc < |s.moves|
    ensures OpenAmount(c, Settle(c, s, legs, docs), legs[i].doc) ==
            OpenAmount(c, s, legs[i].doc) - Taken(Side(legs, legs[i].isDebit), k, Total(Side(legs, !legs[i].isDebit)))
  {
    hide LegsOk, Matching, Settle, Taken, Side, Total;
    LegAt(c, s, legs, i);
    SlotSettled(c, s, legs, legs[i].isDebit, k);
    OpenAfterSettle(c, s, legs, docs, legs[i].doc);
  }

  /**
   The closed form behind both funding services: targets are filled in list order up to the total of
   the funds, and the funds are drawn in list order up to the total of the targets.
   */
  lemma FundedInOrder(c: Chart, s: State, targets: seq<Leg>, funds: seq<Leg>, isDebit: bool, docs: seq<MoveId>)
    requires AllFace(targets, isDebit) && AllFace(funds, !isDebit) && LegsOk(c, s, targets + funds)
    ensures var t := Settle(c, s, targets + funds, docs);
            && (forall i: nat :: i < |targets| ==>
                  targets[i].doc < |s.moves| && OpenAmount(c, t, targets[i].doc) ==
                  OpenAmount(c, s, targets[i].doc) - Taken(SlotsOf(targets), i, Total(SlotsOf(funds))))
            && (forall k: nat :: k < |funds| ==>
                  funds[k].doc < |s.moves| && OpenAmount(c, t, funds[k].doc) ==
                  OpenAmount(c, s, funds[k].doc) - Taken(SlotsOf(funds), k, Total(SlotsOf(targets))))
  {
    hide LegsOk, Settle, Taken, Total, Side, OpenAmount;
    var all := targets + funds;
    SidesOfFunding(targets, funds, isDebit);
    assert !!isDebit == isDebit;
    forall i: nat | i < |targets|
      ensures targets[i].doc < |s.moves| && OpenAmount(c, Settle(c, s, all, docs), targets[i].doc) ==
              OpenAmount(c, s, targets[i].doc) - Taken(SlotsOf(targets), i, Total(SlotsOf(funds)))
    {
      assert all[i] == targets[i];
      LegSettled(c, s, all, docs, i, i);
    }
    forall k: nat | k < |funds|
      ensures funds[k].doc < |s.moves| && OpenAmount(c, Settle(c, s, all, docs), funds[k].doc) ==
              OpenAmount(c, s, funds[k].doc) - Taken(SlotsOf(funds), k, Total(SlotsOf(targets)))
    {
      assert all[|targets| + k] == funds[k];
      LegSettled(c, s, all, docs, |targets| + k, k);
    }
  }

  lemma LegAt(c: Chart, s: State, legs: seq<Leg>, i: nat)
    requires LegsOk(c, s, legs) && i < |legs|
    ensures legs[i].doc < |s.moves| && OpenCounterpart(c, s, legs[i].doc).Some?
    ensures OpenCounterpart(c, s, legs[i].doc).value.line == legs[i].slot.line
    ensures 0 < legs[i].slot.amount <= OpenAmount(c, s, legs[i].doc)
  {
    assert LegOk(c, s, legs[i]);
  }

  /** Equal pools drain: every leg gives up all that it offered. */
  lemma EqualPoolsDrain(c: Chart, s: State, legs: seq<Leg>, docs: seq<MoveId>, i: nat)
    requires LegsOk(c, s, legs) && i < |legs|
    requires Total(Side(legs, true)) == Total(Side(legs, false))
    ensures legs[i].doc < |s.moves|
    ensures OpenAmount(c, Settle(c, s, legs, docs), legs[i].doc) == OpenAmount(c, s, legs[i].doc) - legs[i].slot.amount
  {
    hide LegsOk, Settle, Taken, Total;
    var pool := Side(legs, legs[i].isDebit);
    LegAt(c, s, legs, i);
    PoolsAreDistinct(c, s, legs);
    SideSlots(legs, legs[i].isDebit);
    assert legs[i] in legs && legs[i].slot in pool;
    var k :| 0 <= k < |pool| && pool[k] == legs[i].slot;
    LegSettled(c, s, legs, docs, i, k);
    TakenInFull(pool, k, Total(Side(legs, !legs[i].isDebit)));
  }

  // ─── The cash and the write-off face the targets ────────────────────

  /** The bank and cash accounts are not receivables or payables, and the control accounts are. */
  ghost predicate FundsApart(c: Chart) {
    && c.ControlAccountsOk()
    && forall j :: j in c.journals && LiquidityAccount(c, c.journals[j]).Some? ==>
         !c.Reconcilable(LiquidityAccount(c, c.journals[j]).value)
  }

  /** The only receivable or payable line of a payment is the partner's, opposite to its targets. */
  lemma PaymentFaces(c: Chart, s: State, pay: NewPayment)
    requires PostedPayment(c, s, pay) && FundsApart(c)
    ensures var o := OpenCounterpart(c, PostPayment(c, s, pay).db, |s.moves|);
            o.Some? && o.value.isDebit == !pay.inbound
  {
    hide PostPayment, CreateAndPost;
    var t := TermsOfPayment(c, pay).value;
    var lines := LinesOfPayment(pay, t);
    PaymentLinesShape(c, pay, t);
    assert !c.Reconcilable(t.liquidity) && c.Reconcilable(t.counterpart);
    assert Counterpart(c, lines) == Some(if pay.inbound then 1 else 0);
  }

  lemma CashFaces(c: Chart, s: State, h: Header, amount: int)
    requires Inv(c, s) && FundsApart(c) && RegisterPayment(c, s, CashOf(h, amount)).result.Ok?
    ensures OpenCounterpart(c, RegisterPayment(c, s, CashOf(h, amount)).db, |s.moves|).Some?
    ensures OpenCounterpart(c, RegisterPayment(c, s, CashOf(h, amount)).db, |s.moves|).value.isDebit == !h.inbound
  {
    hide InvExcept, PostPayment, FundsApart, RegisterPayment;
    CashInSteps(c, s, h, amount);
    PaymentFaces(c, s, CashOf(h, amount));
    var u := PostPayment(c, s, CashOf(h, amount)).db;
    hide PostedPayment;
    RefreshedIsSameEntry(c, u.recs, |s.moves|, u.moves[|s.moves|]);
    SameEntryFacts(c, u.recs, |s.moves|, u.moves[|s.moves|], Refreshed(c, u.recs, |s.moves|, u.moves[|s.moves|]));
  }

  lemma PostedCashFaces(c: Chart, s: State, h: Header, amount: int)
    requires Inv(c, s) && FundsApart(c) && PostCash(c, s, h, amount).result.Ok?
    ensures AllFace(PostCash(c, s, h, amount).result.value, !h.inbound)
  {
    hide InvExcept, RegisterPayment, FundsApart;
    if amount > 0 {
      CashEffect(c, s, h, amount);
      CashFaces(c, s, h, amount);
    }
  }

  /**
   The difference entry funds the targets: its first receivable or payable line is the partner's. On a
   receipt the line on the chosen account comes first, so that account must be neither.
   */
  predicate WriteOffFunds(c: Chart, h: Header, w: Option<WriteOff>) {
    h.inbound && w.Some? && w.value.amount > 0 ==> !c.Reconcilable(w.value.account)
  }

  lemma WriteOffFaces(c: Chart, s: State, h: Header, w: Option<WriteOff>, counterpart: AccountId)
    requires PostWriteOff(c, s, h, w, counterpart).result.Ok? && Inv(c, s) && c.Reconcilable(counterpart)
    ensures var r := PostWriteOff(c, s, h, w, counterpart);
            && AllFace(r.result.value, if WriteOffFunds(c, h, w) then !h.inbound else h.inbound)
            && (forall l :: l in r.result.value ==> l.doc == |s.moves| && l.slot.amount == OpenAmount(c, r.db, |s.moves|))
  {
    hide InvExcept, CreateAndPost, Balanced, RowsAccepted, Frozen;
    if w.Some? && w.value.amount > 0 {
      var lines := WriteOffLines(h.inbound, w.value.account, counterpart, w.value.amount);
      CreateAndPostEffect(c, s, WriteOffMove(h, w.value, counterpart), lines);
    }
  }

  // ─── settle_documents drains both pools ─────────────────────────────

  /** The part of a request that is open. */
  function Clamped(requested: int, open: int): int {
    if requested <= 0 || open <= 0 then 0 else Min(requested, open)
  }

  /** The leg an allocation turns into. */
  ghost predicate LegFor(c: Chart, s: State, a: Allocation, l: Leg) {
    && l.doc == a.doc && a.doc < |s.moves| && OpenCounterpart(c, s, a.doc).Some?
    && l.slot.amount == Clamped(a.amount, OpenAmount(c, s, a.doc)) > 0
  }

  /** One more allocation adds its leg, or nothing when there is nothing to settle. */
  lemma LegsOfOneMore(c: Chart, s: State, rest: seq<Allocation>, last: Allocation) returns (more: seq<Leg>)
    requires Legs(c, s, rest + [last]).Ok?
    ensures Legs(c, s, rest).Ok? && Legs(c, s, rest + [last]).value == Legs(c, s, rest).value + more
    ensures if last.doc < |s.moves| && Clamped(last.amount, OpenAmount(c, s, last.doc)) > 0
            then |more| == 1 && LegFor(c, s, last, more[0]) else more == []
  {
    assert (rest + [last])[..|rest|] == rest;
    var legs, before := Legs(c, s, rest + [last]).value, Legs(c, s, rest).value;
    more := legs[|before|..];
  }

  /** Legs and allocations correspond: an allocation with something to settle has a leg, and no other has. */
  lemma {:induction false} LegsOfAllocations(c: Chart, s: State, allocations: seq<Allocation>)
    requires Legs(c, s, allocations).Ok?
    ensures var legs := Legs(c, s, allocations).value;
            && (forall l :: l in legs ==> exists a :: a in allocations && LegFor(c, s, a, l))
            && (forall a :: a in allocations && a.doc < |s.moves| && Clamped(a.amount, OpenAmount(c, s, a.doc)) > 0 ==>
                  exists l :: l in legs && LegFor(c, s, a, l))
  {
    if allocations != [] {
      hide Legs, OpenAmount, LegFor, Clamped;
      var rest, last := allocations[..|allocations| - 1], allocations[|allocations| - 1];
      assert allocations == rest + [last];
      var more := LegsOfOneMore(c, s, rest, last);
      LegsOfAllocations(c, s, rest);
      var legs, before := Legs(c, s, allocations).value, Legs(c, s, rest).value;
      forall l | l in legs ensures exists a :: a in allocations && LegFor(c, s, a, l) {
        if l in before {
          var a :| a in rest && LegFor(c, s, a, l);
        } else {
          assert l in more && last in allocations;
        }
      }
      forall a | a in allocations && a.doc < |s.moves| && Clamped(a.amount, OpenAmount(c, s, a.doc)) > 0
        ensures exists l :: l in legs && LegFor(c, s, a, l)
      {
        if a in rest {
          var l :| l in before && LegFor(c, s, a, l);
        } else {
          assert more[0] in more;
        }
      }
    } else {
      assert Legs(c, s, allocations).value == [];
    }
  }

  lemma LegOfAllocation(c: Chart, s: State, allocations: seq<Allocation>, a: Allocation)
    returns (k: nat)
    requires Legs(c, s, allocations).Ok? && a in allocations && a.doc < |s.moves| && Clamped(a.amount, OpenAmount(c, s, a.doc)) > 0
    ensures k < |Legs(c, s, allocations).value| && LegFor(c, s, a, Legs(c, s, allocations).value[k])
  {
    hide Legs, LegFor, OpenAmount, Clamped;
    LegsOfAllocations(c, s, allocations);
    var legs := Legs(c, s, allocations).value;
    var l :| l in legs && LegFor(c, s, a, l);
    k :| 0 <= k < |legs| && legs[k] == l;
  }

  /** An allocation without anything to settle names a document that no leg touches. */
  lemma NoLegOfAllocation(c: Chart, s: State, allocations: seq<Allocation>, i: nat)
    requires DistinctAllocations(allocations) && Legs(c, s, allocations).Ok? && i < |allocations|
    requires Clamped(allocations[i].amount, OpenAmount(c, s, allocations[i].doc)) == 0
    ensures forall l :: l in Legs(c, s, allocations).value ==> l.doc != allocations[i].doc
  {
    LegsOfAllocations(c, s, allocations);
    forall l | l in Legs(c, s, allocations).value ensures l.doc != allocations[i].doc {
      var a :| a in allocations && LegFor(c, s, a, l);
      var k :| 0 <= k < |allocations| && allocations[k] == a;
      if k != i {
        assert k < i || i < k;
      }
    }
  }

  /** What a full settlement does to every move that existed before, leg or not. */
  ghost predicate DrainedBy(c: Chart, s: State, t: State, legs: seq<Leg>) {
    && |s.moves| <= |t.moves|
    && (forall k :: 0 <= k < |legs| ==>
          legs[k].doc < |s.moves| && OpenAmount(c, t, legs[k].doc) == OpenAmount(c, s, legs[k].doc) - legs[k].slot.amount)
    && (forall id :: 0 <= id < |s.moves| && (forall l :: l in legs ==> l.doc != id) ==>
          t.moves[id] == s.moves[id] && OpenAmount(c, t, id) == OpenAmount(c, s, id))
  }

  /** The tables got longer, with nothing reconciled yet. */
  ghost predicate Longer(s: State, u: State) {
    u.recs == s.recs && |s.moves| <= |u.moves| && u.moves[..|s.moves|] == s.moves
  }

  lemma SameOpen(c: Chart, s: State, u: State, id: MoveId)
    requires Longer(s, u) && id < |s.moves|
    ensures OpenAmount(c, u, id) == OpenAmount(c, s, id)
  {
    assert u.moves[id] == u.moves[..|s.moves|][id];
  }

  /** Settling equal pools over tables that hold one more posted cash row, or none. */
  lemma DrainedWithCash(c: Chart, s: State, t: State, legs: seq<Leg>, cash: seq<Leg>)
    requires LegsOk(c, s, legs) && LegsOk(c, t, legs + cash) && (forall l :: l in cash ==> l.doc >= |s.moves|)
    requires t.recs == s.recs && |s.moves| <= |t.moves| && t.moves[..|s.moves|] == s.moves
    requires Total(Side(legs + cash, true)) == Total(Side(legs + cash, false))
    ensures var u := Settle(c, t, legs + cash, DocsOf(legs + cash));
            && DrainedBy(c, s, u, legs)
            && (forall k :: 0 <= k < |cash| ==>
                  cash[k].doc < |t.moves| && OpenAmount(c, u, cash[k].doc) == OpenAmount(c, t, cash[k].doc) - cash[k].slot.amount)
  {
    hide Settle, Total, Side, LegsOk, OpenAmount;
    var all, docs := legs + cash, DocsOf(legs + cash);
    var u := Settle(c, t, all, docs);
    SettleKeepsSize(c, t, all, docs);
    forall k | 0 <= k < |legs|
      ensures legs[k].doc < |s.moves| && OpenAmount(c, u, legs[k].doc) == OpenAmount(c, s, legs[k].doc) - legs[k].slot.amount
    {
      assert all[k] == legs[k];
      LegAt(c, s, legs, k);
      SameOpen(c, s, t, legs[k].doc);
      EqualPoolsDrain(c, t, all, docs, k);
    }
    forall id | 0 <= id < |s.moves| && (forall l :: l in legs ==> l.doc != id)
      ensures u.moves[id] == s.moves[id] && OpenAmount(c, u, id) == OpenAmount(c, s, id)
    {
      SameOpen(c, s, t, id);
      SettleLeavesOthers(c, t, all, docs, id);
    }
    forall k | 0 <= k < |cash|
      ensures cash[k].doc < |t.moves| && OpenAmount(c, u, cash[k].doc) == OpenAmount(c, t, cash[k].doc) - cash[k].slot.amount
    {
      assert all[|legs| + k] == cash[k];
      EqualPoolsDrain(c, t, all, docs, |legs| + k);
    }
  }

  lemma SettleKeepsSize(c: Chart, s: State, legs: seq<Leg>, docs: seq<MoveId>)
    ensures |Settle(c, s, legs, docs).moves| == |s.moves|
  {
    RefreshAllSameLedger(c, s.(recs := s.recs + Matching(Side(legs, true), Side(legs, false))), docs);
  }

  /** Cash without allocations is a posted company-currency payment of that amount. */
  lemma CashRow(c: Chart, s: State, h: Header, amount: int)
    requires Inv(c, s) && RegisterPayment(c, s, CashOf(h, amount)).result.Ok?
    ensures |RegisterPayment(c, s, CashOf(h, amount)).db.moves| == |s.moves| + 1
    ensures var m := RegisterPayment(c, s, CashOf(h, amount)).db.moves[|s.moves|];
            m.stage.Posted? && m.kind.Payment? && Company(m) && HeaderAgrees(c, m) && m.total == amount
  {
    hide InvExcept, PostPayment, TermsOfPayment, RegisterPayment;
    var pay := CashOf(h, amount);
    CashInSteps(c, s, h, amount);
    PaymentLinesShape(c, pay, TermsOfPayment(c, pay).value);
    var u := PostPayment(c, s, pay).db;
    assert Company(u.moves[|s.moves|]) && HeaderAgrees(c, u.moves[|s.moves|]);
    RefreshedIsSameEntry(c, u.recs, |s.moves|, u.moves[|s.moves|]);
    SameEntryFacts(c, u.recs, |s.moves|, u.moves[|s.moves|], Refreshed(c, u.recs, |s.moves|, u.moves[|s.moves|]));
  }

  /** The cached columns of a MYR document or payment whose header agrees with its GL are what is open on it. */
  lemma CachedIsOpen(c: Chart, s: State, id: MoveId)
    requires Inv(c, s) && id < |s.moves| && s.moves[id].stage.Posted? && !s.moves[id].paymentState.Reversed?
    requires IsItem(s.moves[id]) && Company(s.moves[id]) && HeaderAgrees(c, s.moves[id]) && OpenCounterpart(c, s, id).Some?
    ensures s.moves[id].residual == OpenAmount(c, s, id) >= 0
    ensures s.moves[id].paymentState == StateFor(OpenAmount(c, s, id), s.moves[id].total)
  {
    assert RowOk(c, s.recs, id, s.moves[id], false);
    var k := Counterpart(c, s.moves[id].lines).value;
    assert s.moves[id].lines[k] in s.moves[id].lines;
    assert OneSided(s.moves[id].lines[k]);
  }

  /** A posted payment that nothing is left of. */
  ghost predicate SpentPayment(c: Chart, t: State, id: MoveId, amount: int) {
    && id < |t.moves| && t.moves[id].stage.Posted? && t.moves[id].kind.Payment? && t.moves[id].total == amount
    && OpenAmount(c, t, id) == 0 && t.moves[id].residual == 0 && t.moves[id].paymentState.Paid?
  }

  lemma PaymentIsSpent(c: Chart, s: State, t: State, id: MoveId, amount: int)
    requires Inv(c, t) && id < |s.moves| && |s.moves| <= |t.moves| && SameEntry(s.moves[id], t.moves[id])
    requires s.moves[id].stage.Posted? && s.moves[id].kind.Payment? && Company(s.moves[id]) && s.moves[id].total == amount
    requires HeaderAgrees(c, s.moves[id])
    requires OpenCounterpart(c, t, id).Some? && OpenAmount(c, t, id) == 0 && !t.moves[id].paymentState.Reversed?
    ensures SpentPayment(c, t, id, amount)
  {
    SameEntryFacts(c, t.recs, id, s.moves[id], t.moves[id]);
    CachedIsOpen(c, t, id);
  }

  lemma SideOfOneMore(legs: seq<Leg>, l: Leg, isDebit: bool)
    ensures Total(Side(legs + [l], isDebit)) == Total(Side(legs, isDebit)) + if l.isDebit == isDebit then l.slot.amount else 0
  {
    assert (legs + [l])[..|legs|] == legs;
    var before := Side(legs, isDebit);
    assert (before + [l.slot])[..|before|] == before;
  }

  /** A refreshed row with an open line is paid, partly paid or not paid, never reversed. */
  lemma {:induction false} RefreshClears(c: Chart, s: State, docs: seq<MoveId>, id: MoveId)
    requires id < |s.moves| && id in docs && OpenCounterpart(c, s, id).Some?
    ensures id < |RefreshAll(c, s, docs).moves| && !RefreshAll(c, s, docs).moves[id].paymentState.Reversed?
  {
    var rest, last := docs[..|docs| - 1], docs[|docs| - 1];
    RefreshAllSameLedger(c, s, rest);
    var t := RefreshAll(c, s, rest);
    SameEntryFacts(c, s.recs, id, s.moves[id], t.moves[id]);
    assert docs == rest + [last];
    if last != id {
      RefreshClears(c, s, rest, id);
    }
  }

  lemma CashJoins(c: Chart, s: State, h: Header, legs: seq<Leg>, net: int)
    requires Inv(c, s) && LegsOk(c, s, legs) && FundsApart(c)
    requires Total(Side(legs, h.inbound)) == Total(Side(legs, !h.inbound)) + net
    requires SettleWithCash(c, s, h, legs, net).result.Ok?
    ensures var t := SettleWithCash(c, s, h, legs, net).db;
            && DrainedBy(c, s, t, legs)
            && SettleWithCash(c, s, h, legs, net).result == Ok(Some(|s.moves|))
            && SpentPayment(c, t, |s.moves|, net)
  {
    hide InvExcept, RegisterPayment, Settle, FundsApart, LegsOk, Guarded, Extends, Company, HeaderAgrees, Side, Total;
    var paid := RegisterPayment(c, s, CashOf(h, net)).db;
    var id := |s.moves|;
    CashEffect(c, s, h, net);
    CashFaces(c, s, h, net);
    CashRow(c, s, h, net);
    var cash := LegOf(c, paid, id, Some(net)).value;
    OneLegOk(c, paid, cash);
    SettleAfterCash(c, s, paid, legs, [cash]);
    SideOfOneMore(legs, cash, true);
    SideOfOneMore(legs, cash, false);
    DrainedWithCash(c, s, paid, legs, [cash]);
    var t := Settle(c, paid, legs + [cash], DocsOf(legs + [cash]));
    assert [cash][0] == cash;
    CashIsSpent(c, paid, t, legs, cash, net);
  }

  lemma OneLegOk(c: Chart, s: State, l: Leg)
    requires LegOk(c, s, l)
    ensures LegsOk(c, s, [l])
  {
  }

  lemma CashIsSpent(c: Chart, paid: State, t: State, legs: seq<Leg>, cash: Leg, net: int)
    requires LegsOk(c, paid, legs + [cash]) && t == Settle(c, paid, legs + [cash], DocsOf(legs + [cash])) && Inv(c, t)
    requires cash.doc < |paid.moves| && OpenAmount(c, t, cash.doc) == 0
    requires var m := paid.moves[cash.doc]; m.stage.Posted? && m.kind.Payment? && Company(m) && HeaderAgrees(c, m) && m.total == net
    ensures SpentPayment(c, t, cash.doc, net)
  {
    var all := legs + [cash];
    var rows := Matching(Side(all, true), Side(all, false));
    var s1 := paid.(recs := paid.recs + rows);
    hide LegsOk, Matching, Side, InvExcept;
    LegAt(c, paid, all, |legs|);
    assert DocsOf(all)[|legs|] == cash.doc;
    assert OpenCounterpart(c, s1, cash.doc).Some?;
    RefreshClears(c, s1, DocsOf(all), cash.doc);
    OpenAfterSettle(c, paid, all, DocsOf(all), cash.doc);
    PaymentIsSpent(c, paid, t, cash.doc, net);
  }

  /** Settling legs as given: with the net cash when the sides differ, without any when they agree. */
  lemma SettleLegsDrains(c: Chart, s: State, h: Header, legs: seq<Leg>)
    requires Inv(c, s) && LegsOk(c, s, legs) && FundsApart(c) && SettleLegs(c, s, h, legs).result.Ok?
    ensures var t := SettleLegs(c, s, h, legs).db;
            var net := Total(Side(legs, h.inbound)) - Total(Side(legs, !h.inbound));
            && DrainedBy(c, s, t, legs) && net >= 0
            && (net == 0 ==> SettleLegs(c, s, h, legs).result == Ok(None) && |t.moves| == |s.moves|)
            && (net > 0 ==> SettleLegs(c, s, h, legs).result == Ok(Some(|s.moves|)) && SpentPayment(c, t, |s.moves|, net))
  {
    hide InvExcept, Settle, FundsApart, LegsOk, Side, Total, SettleWithCash;
    var net := Total(Side(legs, h.inbound)) - Total(Side(legs, !h.inbound));
    if net == 0 {
      assert legs + [] == legs && s.moves[..|s.moves|] == s.moves;
      DrainedWithCash(c, s, s, legs, []);
      SettleKeepsSize(c, s, legs, DocsOf(legs));
    } else {
      CashJoins(c, s, h, legs, net);
    }
  }

  /** What the allocations of one GL side come to, each clamped to what is open on its document. */
  ghost function ClampedTotal(c: Chart, s: State, allocations: seq<Allocation>, isDebit: bool): int {
    if allocations == [] then 0
    else
      var a := allocations[|allocations| - 1];
      var o := OpenCounterpart(c, s, a.doc);
      ClampedTotal(c, s, allocations[..|allocations| - 1], isDebit) +
      if o.Some? && o.value.isDebit == isDebit then Clamped(a.amount, o.value.amount) else 0
  }

  lemma NoSide(isDebit: bool)
    ensures Total(Side([], isDebit)) == 0
  {
  }

  lemma {:induction false} SideIsClamped(c: Chart, s: State, allocations: seq<Allocation>, isDebit: bool)
    requires Legs(c, s, allocations).Ok?
    ensures Total(Side(Legs(c, s, allocations).value, isDebit)) == ClampedTotal(c, s, allocations, isDebit)
  {
    hide OpenOf, Side, Total;
    if allocations == [] {
      NoSide(isDebit);
    } else {
      var rest, a := allocations[..|allocations| - 1], allocations[|allocations| - 1];
      SideIsClamped(c, s, rest, isDebit);
      var o := OpenCounterpart(c, s, a.doc);
      if a.amount > 0 && o.Some? && o.value.amount > 0 {
        SideOfOneMore(Legs(c, s, rest).value, Leg(a.doc, Slot(o.value.line, Min(a.amount, o.value.amount)), o.value.isDebit), isDebit);
      }
    }
  }

  /** What the targets come to over the credits: the cash that a settlement moves. */
  ghost function NetCash(c: Chart, s: State, h: Header, allocations: seq<Allocation>): int {
    ClampedTotal(c, s, allocations, h.inbound) - ClampedTotal(c, s, allocations, !h.inbound)
  }

  /**
   `settle_documents`: every allocated document's open amount falls by exactly its clamped allocation,
   every other row stays as it was. A payment is posted exactly when the clamped targets exceed the
   clamped credits; it is for the difference, and used up to the last sen.
   */
  lemma SettleDocumentsDrains(c: Chart, s: State, h: Header, allocations: seq<Allocation>)
    requires Inv(c, s) && AllocationsOk(s, allocations) && FundsApart(c)
    requires SettleDocuments(c, s, h, allocations).result.Ok?
    ensures var t := SettleDocuments(c, s, h, allocations).db;
            var net := NetCash(c, s, h, allocations);
            && |s.moves| <= |t.moves|
            && (forall i :: 0 <= i < |allocations| && allocations[i].doc < |s.moves| ==>
                  OpenAmount(c, t, allocations[i].doc) == OpenAmount(c, s, allocations[i].doc) -
                  Clamped(allocations[i].amount, OpenAmount(c, s, allocations[i].doc)))
            && (forall id :: 0 <= id < |s.moves| && (forall i :: 0 <= i < |allocations| ==> allocations[i].doc != id) ==>
                  t.moves[id] == s.moves[id])
            && net >= 0
            && SettleDocuments(c, s, h, allocations).result == Ok(if net > 0 then Some(|s.moves|) else None)
            && (net > 0 ==> SpentPayment(c, t, |s.moves|, net))
  {
    hide InvExcept, FundsApart, LegsOk, Side, Total, SettleLegs, Legs, SpentPayment, OpenAmount, ClampedTotal;
    var legs := Legs(c, s, allocations).value;
    var t := SettleDocuments(c, s, h, allocations).db;
    LegsAreOk(c, s, allocations);
    SettleLegsDrains(c, s, h, legs);
    SideIsClamped(c, s, allocations, true);
    SideIsClamped(c, s, allocations, false);
    assert DrainedBy(c, s, t, legs);
    hide DrainedBy;
    DrainedAllocations(c, s, t, allocations);
  }

  lemma DrainedAllocations(c: Chart, s: State, t: State, allocations: seq<Allocation>)
    requires AllocationsOk(s, allocations) && Legs(c, s, allocations).Ok? && DrainedBy(c, s, t, Legs(c, s, allocations).value)
    ensures |s.moves| <= |t.moves|
    ensures forall i :: 0 <= i < |allocations| && allocations[i].doc < |s.moves| ==>
              OpenAmount(c, t, allocations[i].doc) == OpenAmount(c, s, allocations[i].doc) -
              Clamped(allocations[i].amount, OpenAmount(c, s, allocations[i].doc))
    ensures forall id :: 0 <= id < |s.moves| && (forall i :: 0 <= i < |allocations| ==> allocations[i].doc != id) ==>
              t.moves[id] == s.moves[id]
  {
    hide OpenAmount, Legs;
    var legs := Legs(c, s, allocations).value;
    forall i | 0 <= i < |allocations| && allocations[i].doc < |s.moves|
      ensures OpenAmount(c, t, allocations[i].doc) == OpenAmount(c, s, allocations[i].doc) -
              Clamped(allocations[i].amount, OpenAmount(c, s, allocations[i].doc))
    {
      if Clamped(allocations[i].amount, OpenAmount(c, s, allocations[i].doc)) > 0 {
        var k := LegOfAllocation(c, s, allocations, allocations[i]);
      } else {
        NoLegOfAllocation(c, s, allocations, i);
      }
    }
    forall id | 0 <= id < |s.moves| && (forall i :: 0 <= i < |allocations| ==> allocations[i].doc != id)
      ensures t.moves[id] == s.moves[id]
    {
      LegsOfAllocations(c, s, allocations);
      forall l | l in legs ensures l.doc != id {
        var a :| a in allocations && LegFor(c, s, a, l);
      }
    }
  }

  // ─── Oldest first ───────────────────────────────────────────────────

  /** The dates never fall, and documents of one day stand in the order of their ids. */
  ghost predicate OldestFirst(s: State, legs: seq<Leg>) {
    && (forall i :: 0 <= i < |legs| ==> legs[i].doc < |s.moves|)
    && (forall i, j :: 0 <= i < j < |legs| ==>
          && s.moves[legs[i].doc].date <= s.moves[legs[j].doc].date
          && (s.moves[legs[i].doc].date == s.moves[legs[j].doc].date ==> legs[i].doc <= legs[j].doc))
  }

  ghost predicate Ascending(s: State, legs: seq<Leg>) {
    forall i, j :: 0 <= i < j < |legs| ==> Earlier(s, legs[i], legs[j])
  }

  lemma {:induction false} InsertKeepsOrder(s: State, sorted: seq<Leg>, l: Leg)
    requires Ascending(s, sorted) && l.doc < |s.moves| && (forall x :: x in sorted ==> x.doc < |s.moves|)
    ensures Ascending(s, InsertByDate(s, sorted, l))
    ensures forall x :: x in InsertByDate(s, sorted, l) <==> x in sorted || x == l
  {
    if sorted != [] {
      var rest, last := sorted[..|sorted| - 1], sorted[|sorted| - 1];
      assert sorted == rest + [last];
      assert last in sorted;
      if Earlier(s, last, l) {
        forall i | 0 <= i < |sorted| ensures Earlier(s, sorted[i], l) {
          assert sorted[i] in sorted;
        }
      } else {
        InsertKeepsOrder(s, rest, l);
        var inner := InsertByDate(s, rest, l);
        forall i | 0 <= i < |inner| ensures Earlier(s, inner[i], last) {
          assert inner[i] in inner;
        }
      }
    }
  }

  lemma {:induction false} SortAscends(s: State, legs: seq<Leg>)
    requires forall l :: l in legs ==> l.doc < |s.moves|
    ensures Ascending(s, SortByDate(s, legs))
    ensures forall l :: l in SortByDate(s, legs) <==> l in legs
  {
    if legs != [] {
      var rest, last := legs[..|legs| - 1], legs[|legs| - 1];
      assert legs == rest + [last];
      SortAscends(s, rest);
      InsertKeepsOrder(s, SortByDate(s, rest), last);
    }
  }

  /** Sorting by date puts the same legs oldest first. */
  lemma SortIsOldestFirst(s: State, legs: seq<Leg>)
    requires forall l :: l in legs ==> l.doc < |s.moves|
    ensures OldestFirst(s, SortByDate(s, legs))
    ensures forall l :: l in SortByDate(s, legs) <==> l in legs
  {
    SortAscends(s, legs);
    var sorted := SortByDate(s, legs);
    hide SortByDate;
    forall i | 0 <= i < |sorted| ensures sorted[i].doc < |s.moves| {
      assert sorted[i] in sorted;
    }
    forall i, j | 0 <= i < j < |sorted|
      ensures s.moves[sorted[i].doc].date <= s.moves[sorted[j].doc].date
      ensures s.moves[sorted[i].doc].date == s.moves[sorted[j].doc].date ==> sorted[i].doc <= sorted[j].doc
    {
      assert Earlier(s, sorted[i], sorted[j]);
    }
  }

  // ─── Funds in order ─────────────────────────────────────────────────

  lemma SlotsOfConcat(a: seq<Leg>, b: seq<Leg>)
    ensures SlotsOf(a + b) == SlotsOf(a) + SlotsOf(b)
  {
  }

  /** What a pool gives does not depend on what stands behind it. */
  lemma TakenOfPrefix(a: seq<Slot>, b: seq<Slot>, i: nat, funds: int)
    requires i < |a|
    ensures Taken(a + b, i, funds) == Taken(a, i, funds)
  {
    assert (a + b)[..i] == a[..i] && (a + b)[..i + 1] == a[..i + 1];
  }

  lemma StartsAtLast(a: seq<Slot>, x: Slot)
    ensures Start(a + [x], |a|) == Total(a)
    ensures Start(a + [x], |a| + 1) == Total(a + [x]) == Total(a) + x.amount
  {
    var p := a + [x];
    assert p[..|a|] == a;
    assert p[..|a| + 1] == p;
  }

  /** The share of the last source: what is still asked for once all before it are used up. */
  lemma TakenOfLast(a: seq<Slot>, x: Slot, funds: int)
    ensures Taken(a + [x], |a|, funds) == Min(Total(a) + x.amount, funds) - Min(Total(a), funds)
    ensures Total(a + [x]) == Total(a) + x.amount
  {
    StartsAtLast(a, x);
    hide Start, Total;
  }

  /** `x` limited to the range from 0 to `top`. */
  function Clamp(x: int, top: int): int {
    Max(0, Min(x, top))
  }
}
