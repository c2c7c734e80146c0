/** The three settlement services and the undo paths keep the invariant and the frozen periods. */
module SettlementsKeep {
  import opened Wrappers
  import opened Ledger
  import opened ServiceModel
  import opened CurrencyModel
  import opened DocumentsModel
  import opened SettlementModel
  import opened Pools
  import opened Invariant
  import opened Periods
  import opened PostingKeeps
  import opened DocumentsKeep
  import opened PaymentsKeep

  // ─── Legs ───────────────────────────────────────────────────────────

  /** A leg offers a positive part of what is open on the counterpart line of a posted row. */
  ghost predicate LegOk(c: Chart, s: State, l: Leg) {
    && l.doc < |s.moves| && s.moves[l.doc].stage.Posted?
    && var o := OpenOf(c, s.recs, l.doc, s.moves[l.doc]);
       o.Some? && o.value.line == l.slot.line && o.value.isDebit == l.isDebit && 0 < l.slot.amount <= o.value.amount
  }

  /** Sound legs of different documents. */
  ghost predicate LegsOk(c: Chart, s: State, legs: seq<Leg>) {
    && (forall i :: 0 <= i < |legs| ==> LegOk(c, s, legs[i]))
    && (forall i, j :: 0 <= i < j < |legs| ==> legs[i].doc != legs[j].doc)
  }

  ghost predicate DistinctAllocations(allocations: seq<Allocation>) {
    forall i, j :: 0 <= i < j < |allocations| ==> allocations[i].doc != allocations[j].doc
  }

  /** Allocation lists name posted rows, each once. */
  ghost predicate AllocationsOk(s: State, allocations: seq<Allocation>) {
    && DistinctAllocations(allocations)
    && forall i :: 0 <= i < |allocations| && allocations[i].doc < |s.moves| ==> s.moves[allocations[i].doc].stage.Posted?
  }

  lemma NoLegsAreOk(c: Chart, s: State)
    ensures LegsOk(c, s, [])
  {
  }

  lemma OneMoreLegIsOk(c: Chart, s: State, legs: seq<Leg>, l: Leg)
    requires LegsOk(c, s, legs) && LegOk(c, s, l) && forall x :: x in legs ==> x.doc != l.doc
    ensures LegsOk(c, s, legs + [l])
  {
    hide LegOk;
  }

  lemma {:induction false} LegsAreOk(c: Chart, s: State, allocations: seq<Allocation>)
    requires AllocationsOk(s, allocations) && Legs(c, s, allocations).Ok?
    ensures LegsOk(c, s, Legs(c, s, allocations).value)
    ensures forall l :: l in Legs(c, s, allocations).value ==> exists i :: 0 <= i < |allocations| && allocations[i].doc == l.doc
  {
    hide OpenOf, LegsOk;
    if allocations == [] {
      NoLegsAreOk(c, s);
    } else {
      var rest, a := allocations[..|allocations| - 1], allocations[|allocations| - 1];
      LegsAreOk(c, s, rest);
      var before, all := Legs(c, s, rest).value, Legs(c, s, allocations).value;
      forall l | l in before ensures l.doc != a.doc && exists i :: 0 <= i < |allocations| && allocations[i].doc == l.doc {
        var i :| 0 <= i < |rest| && rest[i].doc == l.doc;
        assert allocations[i] == rest[i];
      }
      if all != before {
        OneMoreLegIsOk(c, s, before, all[|before|]);
      }
    }
  }

  ghost predicate PickedOk(s: State, picked: seq<MoveId>) {
    && (forall i, j :: 0 <= i < j < |picked| ==> picked[i] != picked[j])
    && forall i :: 0 <= i < |picked| && picked[i] < |s.moves| ==> s.moves[picked[i]].stage.Posted?
  }

  lemma {:induction false} PickedAreOk(c: Chart, s: State, picked: seq<MoveId>)
    requires PickedOk(s, picked) && Picked(c, s, picked).Ok?
    ensures LegsOk(c, s, Picked(c, s, picked).value)
    ensures forall l :: l in Picked(c, s, picked).value ==> l.doc in picked
  {
    hide OpenOf, LegsOk;
    if picked == [] {
      NoLegsAreOk(c, s);
    } else {
      var rest, id := picked[..|picked| - 1], picked[|picked| - 1];
      PickedAreOk(c, s, rest);
      var before, all := Picked(c, s, rest).value, Picked(c, s, picked).value;
      assert id !in rest;
      assert forall l :: l in before ==> l.doc in rest && l.doc != id;
      if all != before {
        OneMoreLegIsOk(c, s, before, all[|before|]);
      }
    }
  }

  /** Selecting one side keeps soundness and the order. */
  lemma {:induction false} FacingIsOk(c: Chart, s: State, legs: seq<Leg>, isDebit: bool)
    requires LegsOk(c, s, legs)
    ensures LegsOk(c, s, Facing(legs, isDebit))
    ensures forall l :: l in Facing(legs, isDebit) <==> l in legs && l.isDebit == isDebit
  {
    hide LegsOk;
    if legs == [] {
      NoLegsAreOk(c, s);
    } else {
      var rest, last := legs[..|legs| - 1], legs[|legs| - 1];
      ButLastLegIsOk(c, s, legs);
      FacingIsOk(c, s, rest, isDebit);
      assert legs == rest + [last];
      if last.isDebit == isDebit {
        OneMoreLegIsOk(c, s, Facing(rest, isDebit), last);
      }
    }
  }

  lemma ButLastLegIsOk(c: Chart, s: State, legs: seq<Leg>)
    requires LegsOk(c, s, legs) && legs != []
    ensures LegsOk(c, s, legs[..|legs| - 1]) && LegOk(c, s, legs[|legs| - 1])
    ensures forall x :: x in legs[..|legs| - 1] ==> x.doc != legs[|legs| - 1].doc
  {
    hide LegOk;
    forall x | x in legs[..|legs| - 1] ensures x.doc != legs[|legs| - 1].doc {
      var k :| 0 <= k < |legs| - 1 && legs[k] == x;
    }
  }

  lemma {:induction false} InsertIsOk(c: Chart, s: State, sorted: seq<Leg>, l: Leg)
    requires LegsOk(c, s, sorted + [l])
    ensures LegsOk(c, s, InsertByDate(s, sorted, l))
    ensures forall x :: x in InsertByDate(s, sorted, l) <==> x in sorted || x == l
  {
    if !(sorted == [] || Earlier(s, sorted[|sorted| - 1], l)) {
      var rest, last := sorted[..|sorted| - 1], sorted[|sorted| - 1];
      assert LegsOk(c, s, rest + [l]) by {
        forall i | 0 <= i < |rest + [l]| ensures LegOk(c, s, (rest + [l])[i]) {
          assert (rest + [l])[i] == if i < |rest| then (sorted + [l])[i] else (sorted + [l])[|sorted|];
        }
        forall i, j | 0 <= i < j < |rest + [l]| ensures (rest + [l])[i].doc != (rest + [l])[j].doc {
          var k := if j < |rest| then j else |sorted|;
          assert (sorted + [l])[i] == rest[i] && (sorted + [l])[k] == (rest + [l])[j];
        }
      }
      InsertIsOk(c, s, rest, l);
      var inner := InsertByDate(s, rest, l);
      assert (sorted + [l])[|sorted| - 1] == last && (sorted + [l])[|sorted|] == l;
      forall i | 0 <= i < |inner| ensures inner[i].doc != last.doc {
        assert inner[i] in inner;
        if inner[i] in rest {
          var k :| 0 <= k < |rest| && rest[k] == inner[i];
          assert (sorted + [l])[k] == rest[k];
        }
      }
      assert sorted == rest + [last];
    }
  }

  lemma {:induction false} SortIsOk(c: Chart, s: State, legs: seq<Leg>)
    requires LegsOk(c, s, legs)
    ensures LegsOk(c, s, SortByDate(s, legs))
    ensures forall l :: l in SortByDate(s, legs) <==> l in legs
  {
    if legs != [] {
      var rest, last := legs[..|legs| - 1], legs[|legs| - 1];
      SortIsOk(c, s, rest);
      var sorted := SortByDate(s, rest);
      forall i | 0 <= i < |sorted| ensures sorted[i].doc != last.doc {
        assert sorted[i] in sorted;
      }
      InsertIsOk(c, s, sorted, last);
      assert legs == rest + [last];
    }
  }

  lemma ConcatIsOk(c: Chart, s: State, a: seq<Leg>, b: seq<Leg>)
    requires LegsOk(c, s, a) && LegsOk(c, s, b)
    requires forall x, y :: x in a && y in b ==> x.doc != y.doc
    ensures LegsOk(c, s, a + b)
  {
    forall i, j | 0 <= i < j < |a + b| ensures (a + b)[i].doc != (a + b)[j].doc {
      if i < |a| <= j {
        assert a[i] in a && b[j - |a|] in b;
      }
    }
  }

  /** Legs stay sound while their rows and the reconciliations stay. */
  lemma LegsStayOk(c: Chart, s: State, s': State, legs: seq<Leg>)
    requires LegsOk(c, s, legs) && s'.recs == s.recs && |s.moves| <= |s'.moves|
    requires forall i :: 0 <= i < |s.moves| ==> s'.moves[i] == s.moves[i]
    ensures LegsOk(c, s', legs)
  {
    forall i | 0 <= i < |legs| ensures LegOk(c, s', legs[i]) {
      assert LegOk(c, s, legs[i]);
    }
  }

  // ─── The pools of sound legs ────────────────────────────────────────

  lemma {:induction false} SideSlots(legs: seq<Leg>, isDebit: bool)
    ensures forall x :: x in Side(legs, isDebit) <==> exists l :: l in legs && l.isDebit == isDebit && l.slot == x
  {
    if legs != [] {
      SideSlots(legs[..|legs| - 1], isDebit);
      var last := legs[|legs| - 1];
      assert legs == legs[..|legs| - 1] + [last];
    }
  }

  /** The part of soundness that does not look at the tables. */
  ghost predicate LegsShaped(legs: seq<Leg>) {
    && (forall i :: 0 <= i < |legs| ==> legs[i].slot.line.move == legs[i].doc && legs[i].slot.amount > 0)
    && (forall i, j :: 0 <= i < j < |legs| ==> legs[i].doc != legs[j].doc)
  }

  lemma LegsAreShaped(c: Chart, s: State, legs: seq<Leg>)
    requires LegsOk(c, s, legs)
    ensures LegsShaped(legs)
  {
    forall i | 0 <= i < |legs| ensures legs[i].slot.line.move == legs[i].doc && legs[i].slot.amount > 0 {
      assert LegOk(c, s, legs[i]);
    }
  }

  /** The leg behind a slot. */
  lemma LegBehind(legs: seq<Leg>, isDebit: bool, i: nat) returns (k: nat)
    requires i < |Side(legs, isDebit)|
    ensures k < |legs| && legs[k].isDebit == isDebit && legs[k].slot == Side(legs, isDebit)[i]
  {
    SideSlots(legs, isDebit);
    assert Side(legs, isDebit)[i] in Side(legs, isDebit);
    var l :| l in legs && l.isDebit == isDebit && l.slot == Side(legs, isDebit)[i];
    k :| 0 <= k < |legs| && legs[k] == l;
  }

  lemma {:induction false} SideIsDistinct(legs: seq<Leg>, isDebit: bool)
    requires LegsShaped(legs)
    ensures NonNegative(Side(legs, isDebit))
    ensures forall i, j :: 0 <= i < j < |Side(legs, isDebit)| ==>
              Side(legs, isDebit)[i].line.move != Side(legs, isDebit)[j].line.move
  {
    if legs != [] {
      var rest, last := legs[..|legs| - 1], legs[|legs| - 1];
      SideIsDistinct(rest, isDebit);
      var pool := Side(rest, isDebit);
      forall i | 0 <= i < |pool| ensures pool[i].line.move != last.slot.line.move {
        var k := LegBehind(rest, isDebit, i);
        assert legs[k] == rest[k];
      }
    }
  }

  lemma PoolsAreDistinct(c: Chart, s: State, legs: seq<Leg>)
    requires LegsOk(c, s, legs)
    ensures DistinctLines(Side(legs, true), Side(legs, false))
    ensures NonNegative(Side(legs, true)) && NonNegative(Side(legs, false))
  {
    LegsAreShaped(c, s, legs);
    hide LegOk;
    var ds, cs := Side(legs, true), Side(legs, false);
    SideIsDistinct(legs, true);
    SideIsDistinct(legs, false);
    forall i, k | 0 <= i < |ds| && 0 <= k < |cs| ensures ds[i].line != cs[k].line {
      var x := LegBehind(legs, true, i);
      var y := LegBehind(legs, false, k);
    }
  }

  /** A line that no leg offers is not touched. */
  lemma StrangersUntouched(legs: seq<Leg>, line: LineRef)
    requires forall l :: l in legs ==> l.slot.line != line
    ensures Settled(Matching(Side(legs, true), Side(legs, false)), line) == 0
    ensures SettledCurrency(Matching(Side(legs, true), Side(legs, false)), line) == 0
  {
    var ds, cs := Side(legs, true), Side(legs, false);
    MatchingShape(ds, cs, |ds|);
    SideSlots(legs, true);
    SideSlots(legs, false);
    forall r | r in Matching(ds, cs) ensures r.debit != line && r.credit != line {
      var i :| 0 <= i < |ds| && ds[i].line == r.debit;
      var k :| 0 <= k < |cs| && cs[k].line == r.credit;
      assert ds[i] in ds && cs[k] in cs;
    }
    SettledUntouched(Matching(ds, cs), line);
  }

  /** The settled amount a leg's line gains never exceeds the leg's offer. */
  lemma LegGivesAtMost(c: Chart, s: State, legs: seq<Leg>, l: Leg)
    requires LegsOk(c, s, legs) && l in legs
    ensures 0 <= Settled(Matching(Side(legs, true), Side(legs, false)), l.slot.line) <= l.slot.amount
  {
    var ds, cs := Side(legs, true), Side(legs, false);
    SideSlots(legs, true);
    SideSlots(legs, false);
    PoolsAreDistinct(c, s, legs);
    MatchingGivesWithinSlots(ds, cs);
    if l.isDebit {
      assert l.slot in ds;
      var i :| 0 <= i < |ds| && ds[i] == l.slot;
    } else {
      assert l.slot in cs;
      var i :| 0 <= i < |cs| && cs[i] == l.slot;
    }
  }

  lemma MatchingFits(c: Chart, s: State, legs: seq<Leg>, stale: set<MoveId>)
    requires InvExcept(c, s, stale) && LegsOk(c, s, legs)
    ensures RowsFit(s, Matching(Side(legs, true), Side(legs, false)))
  {
    hide RowsFit, LegsOk, InvExcept, Matching, Side, Settled, LineGross;
    var rows := Matching(Side(legs, true), Side(legs, false));
    forall i: nat, k: nat | MyrLine(s, i, k)
      ensures Settled(s.recs + rows, LineRef(i, k)) <= LineGross(s.moves[i].lines[k])
    {
      SettledOfConcat(s.recs, rows, LineRef(i, k));
      CoveredLine(c, s, i, k, stale);
      if l :| l in legs && l.slot.line == LineRef(i, k) {
        LegGivesAtMost(c, s, legs, l);
        LegIsOpen(c, s, legs, l);
      } else {
        StrangersUntouched(legs, LineRef(i, k));
      }
    }
    RowsFitIntro(s, rows);
  }

  lemma RowsFitIntro(s: State, rows: seq<Reconcile>)
    requires forall i: nat, k: nat :: MyrLine(s, i, k) ==> Settled(s.recs + rows, LineRef(i, k)) <= LineGross(s.moves[i].lines[k])
    ensures RowsFit(s, rows)
  {
  }

  lemma CoveredLine(c: Chart, s: State, i: nat, k: nat, stale: set<MoveId>)
    requires InvExcept(c, s, stale) && MyrLine(s, i, k)
    ensures Settled(s.recs, LineRef(i, k)) <= LineGross(s.moves[i].lines[k])
  {
    assert RowOk(c, s.recs, i, s.moves[i], i in stale);
  }

  lemma LegIsOpen(c: Chart, s: State, legs: seq<Leg>, l: Leg)
    requires LegsOk(c, s, legs) && l in legs
    ensures var r := l.slot.line;
            && r.move == l.doc && r.move < |s.moves| && r.index < |s.moves[r.move].lines| && s.moves[r.move].stage.Posted?
            && l.slot.amount <= LineGross(s.moves[r.move].lines[r.index]) - Settled(s.recs, r)
  {
    var i :| 0 <= i < |legs| && legs[i] == l;
    assert LegOk(c, s, legs[i]);
  }

  lemma MatchingIsSound(c: Chart, s: State, legs: seq<Leg>, stale: set<MoveId>)
    requires InvExcept(c, s, stale) && LegsOk(c, s, legs)
    ensures forall r :: r in Matching(Side(legs, true), Side(legs, false)) ==>
              RecOk(s, r) && (exists l :: l in legs && l.slot.line == r.debit) && (exists l :: l in legs && l.slot.line == r.credit)
  {
    hide LegOk, RecOk, InvExcept, Balanced;
    var ds, cs := Side(legs, true), Side(legs, false);
    PoolsAreDistinct(c, s, legs);
    MatchingShape(ds, cs, |ds|);
    forall r | r in Matching(ds, cs)
      ensures RecOk(s, r) && (exists l :: l in legs && l.slot.line == r.debit) && (exists l :: l in legs && l.slot.line == r.credit)
    {
      var i :| 0 <= i < |ds| && ds[i].line == r.debit;
      var k :| 0 <= k < |cs| && cs[k].line == r.credit;
      var x := LegBehind(legs, true, i);
      var y := LegBehind(legs, false, k);
      LegIsPosted(c, s, legs[x]);
      PostedIsBalanced(c, s, stale, legs[x].doc);
      LegPairIsSound(c, s, legs[x], legs[y], r);
      assert legs[x] in legs && legs[y] in legs;
    }
  }

  lemma LegIsPosted(c: Chart, s: State, l: Leg)
    requires LegOk(c, s, l)
    ensures l.doc < |s.moves| && s.moves[l.doc].stage.Posted?
  {
  }

  lemma LegPairIsSound(c: Chart, s: State, x: Leg, y: Leg, r: Reconcile)
    requires LegOk(c, s, x) && LegOk(c, s, y) && x.isDebit && !y.isDebit && Balanced(s.moves[x.doc].lines)
    requires r.debit == x.slot.line && r.credit == y.slot.line && r.amount > 0 && r.currency == 0
    ensures RecOk(s, r) && r.debit.move == x.doc && r.credit.move == y.doc
  {
  }

  /** Every leg is refreshed afterwards, or is a plain entry whose residual nobody tracks. */
  ghost predicate AllRefreshed(s: State, legs: seq<Leg>, docs: seq<MoveId>) {
    && (forall l :: l in legs ==> l.doc in docs || (l.doc < |s.moves| && s.moves[l.doc].kind.Entry?))
    && (forall d :: d in docs ==> d in DocsOf(legs))
  }

  lemma LegOwes(c: Chart, s: State, l: Leg)
    requires LegOk(c, s, l) && forall r :: r in s.recs ==> RecOk(s, r)
    ensures l.doc < |s.moves| && s.moves[l.doc].stage.Posted? && Owing(c, s.moves[l.doc])
    ensures Settleable(c, s, l.slot.line) && l.slot.line.move == l.doc
  {
    OpenIsOwing(c, s, l.doc);
  }

  lemma LegsOwe(c: Chart, s: State, legs: seq<Leg>)
    requires Inv(c, s) && LegsOk(c, s, legs)
    ensures forall d :: d in DocsOf(legs) ==> d < |s.moves| && s.moves[d].stage.Posted? && Owing(c, s.moves[d])
    ensures forall l :: l in legs ==> l.doc in DocsOf(legs) && l.slot.line.move == l.doc && Settleable(c, s, l.slot.line)
  {
    RecsAreOk(c, s, {});
    hide InvExcept, Owing, LegOk, RecOk, Settleable;
    forall i | 0 <= i < |legs| ensures legs[i].doc < |s.moves| && s.moves[legs[i].doc].stage.Posted? && Owing(c, s.moves[legs[i].doc]) {
      LegOwes(c, s, legs[i]);
    }
    forall l | l in legs ensures l.doc in DocsOf(legs) && l.slot.line.move == l.doc && Settleable(c, s, l.slot.line) {
      var i :| 0 <= i < |legs| && legs[i] == l;
      assert DocsOf(legs)[i] == l.doc;
      LegOwes(c, s, l);
    }
  }

  /** Rows between rows that legs name are between rows that owe something. */
  lemma LegRowsOwe(c: Chart, s: State, legs: seq<Leg>, rows: seq<Reconcile>)
    requires forall l :: l in legs ==> Settleable(c, s, l.slot.line)
    requires forall r :: r in rows ==> (exists l :: l in legs && l.slot.line == r.debit) && (exists l :: l in legs && l.slot.line == r.credit)
    ensures NamesOwing(c, s, rows)
  {
    hide Settleable;
  }

  /** Settling sound legs and refreshing them keeps everything. */
  lemma SettleProgress(c: Chart, s: State, legs: seq<Leg>, docs: seq<MoveId>)
    requires Inv(c, s) && LegsOk(c, s, legs) && AllRefreshed(s, legs, docs)
    ensures Progress(c, s, Settle(c, s, legs, docs), {})
  {
    var rows := Matching(Side(legs, true), Side(legs, false));
    var s1 := s.(recs := s.recs + rows);
    hide LegsOk, InvExcept, RecOk, RowsFit, Guarded, Matching, RefreshAll, Owing, NamesOwing, Settleable;
    MatchingFits(c, s, legs, {});
    MatchingIsSound(c, s, legs, {});
    LegsOwe(c, s, legs);
    LegRowsOwe(c, s, legs, rows);
    AddRowsKeep(c, s, rows, {});
    assert Extends(s, s1);
    RefreshedSettlement(c, s, s1, legs, docs, {} + Named(rows));
  }

  lemma EntryStaysEntry(c: Chart, a: Move, b: Move)
    requires SameEntry(a, b) && a.kind.Entry?
    ensures !Tracked(c, b) && !IsMyrItem(b)
  {
  }

  lemma RefreshedSettlement(c: Chart, s: State, s1: State, legs: seq<Leg>, docs: seq<MoveId>, stale: set<MoveId>)
    requires Progress(c, s, s1, stale) && s1.moves == s.moves && AllRefreshed(s, legs, docs)
    requires forall id :: id in stale ==> exists l :: l in legs && l.doc == id
    requires forall d :: d in docs ==> d < |s.moves| && s.moves[d].stage.Posted? && Owing(c, s.moves[d])
    ensures Progress(c, s, RefreshAll(c, s1, docs), {})
  {
    hide RowOk, RecOk, NumbersOk, Guarded, Owing, Tracked, IsMyrItem, SameEntry, RefreshAll;
    var s2 := RefreshAll(c, s1, docs);
    RefreshAllKeeps(c, s1, docs, stale);
    RefreshAllSameLedger(c, s1, docs);
    var left := stale - (set id | id in docs);
    ProgressChain(c, s, s1, s2, stale, left);
    forall i | i in left && i < |s2.moves| ensures !Tracked(c, s2.moves[i]) && !IsMyrItem(s2.moves[i]) {
      var l :| l in legs && l.doc == i;
      EntryStaysEntry(c, s1.moves[i], s2.moves[i]);
    }
    ForgetUntracked(c, s2, left);
  }

  lemma ForgetUntracked(c: Chart, s: State, stale: set<MoveId>)
    requires InvExcept(c, s, stale)
    requires forall i :: i in stale && i < |s.moves| ==> !Tracked(c, s.moves[i]) && !IsMyrItem(s.moves[i])
    ensures Inv(c, s)
  {
    forall i | 0 <= i < |s.moves| ensures RowOk(c, s.recs, i, s.moves[i], i in {}) {
      assert RowOk(c, s.recs, i, s.moves[i], i in stale);
    }
  }

  // ─── Cash and write-off ─────────────────────────────────────────────

  /** Cash without allocations is the payment entry and a refresh of it. */
  lemma CashInSteps(c: Chart, s: State, h: Header, amount: int)
    requires Inv(c, s) && RegisterPayment(c, s, CashOf(h, amount)).result.Ok?
    ensures PostedPayment(c, s, CashOf(h, amount))
    ensures OpenCounterpart(c, PostPayment(c, s, CashOf(h, amount)).db, |s.moves|).Some?
    ensures RegisterPayment(c, s, CashOf(h, amount)) ==
            Reply(RefreshPaymentState(c, PostPayment(c, s, CashOf(h, amount)).db, |s.moves|), Ok(|s.moves|))
  {
    PostPaymentKeeps(c, s, CashOf(h, amount), {});
    hide InvExcept, PostPayment, RefreshPaymentState, OpenCounterpart;
  }

  /** The payment row right after it is posted is open for its whole amount. */
  lemma PostedCashIsOpen(c: Chart, s: State, h: Header, amount: int)
    requires Inv(c, s) && PostedPayment(c, s, CashOf(h, amount))
    requires OpenCounterpart(c, PostPayment(c, s, CashOf(h, amount)).db, |s.moves|).Some?
    ensures var u := PostPayment(c, s, CashOf(h, amount)).db;
            && |u.moves| == |s.moves| + 1 && u.moves[..|s.moves|] == s.moves && u.recs == s.recs
            && u.moves[|s.moves|].stage.Posted? && u.moves[|s.moves|].kind.Payment?
            && OpenCounterpart(c, u, |s.moves|).value.amount == amount > 0
  {
    hide PostPayment;
    var pay := CashOf(h, amount);
    var t := TermsOfPayment(c, pay).value;
    var lines := LinesOfPayment(pay, t);
    PaymentLinesShape(c, pay, t);
    NothingSettled(s, |s.moves|);
    hide InvExcept, TermsOfPayment;
    assert PostPayment(c, s, pay).db.moves[|s.moves|].lines[OpenCounterpart(c, PostPayment(c, s, pay).db, |s.moves|).value.line.index] in lines;
  }

  lemma PostedCashOk(c: Chart, s: State, h: Header, amount: int)
    requires Inv(c, s) && RegisterPayment(c, s, CashOf(h, amount)).result.Ok?
    ensures var r := RegisterPayment(c, s, CashOf(h, amount));
            && r.db.recs == s.recs && |r.db.moves| == |s.moves| + 1 && r.db.moves[..|s.moves|] == s.moves
            && r.result.value == |s.moves|
            && r.db.moves[|s.moves|].stage.Posted? && r.db.moves[|s.moves|].kind.Payment?
            && OpenCounterpart(c, r.db, |s.moves|).Some?
            && OpenCounterpart(c, r.db, |s.moves|).value.amount == amount > 0
            && (OpenCounterpart(c, r.db, |s.moves|).value.isDebit <==>
                  r.db.moves[|s.moves|].lines[OpenCounterpart(c, r.db, |s.moves|).value.line.index].debit != 0)
  {
    hide RegisterPayment, PostPayment, InvExcept, PostedPayment;
    CashInSteps(c, s, h, amount);
    PostedCashIsOpen(c, s, h, amount);
    var u := PostPayment(c, s, CashOf(h, amount)).db;
    RefreshedIsSameEntry(c, u.recs, |s.moves|, u.moves[|s.moves|]);
    SameEntryFacts(c, u.recs, |s.moves|, u.moves[|s.moves|], Refreshed(c, u.recs, |s.moves|, u.moves[|s.moves|]));
  }

  /** Refused cash leaves at most a stray row behind the existing ones. */
  lemma PostedCashErr(c: Chart, s: State, h: Header, amount: int)
    requires Inv(c, s) && RegisterPayment(c, s, CashOf(h, amount)).result.Err?
    ensures var r := RegisterPayment(c, s, CashOf(h, amount));
            r.db.recs == s.recs && |s.moves| <= |r.db.moves| && r.db.moves[..|s.moves|] == s.moves
  {
    var pay := CashOf(h, amount);
    if PostPayment(c, s, pay).result.Ok? {
      PostPaymentKeeps(c, s, pay, {});
      hide InvExcept, PostPayment;
    } else {
      PaymentStray(c, s, pay);
    }
  }

  /** Cash posted without allocations appends one payment, wholly open, and touches nothing else. */
  lemma CashEffect(c: Chart, s: State, h: Header, amount: int)
    requires Inv(c, s)
    ensures var r := RegisterPayment(c, s, CashOf(h, amount));
            && Progress(c, s, r.db, {})
            && r.db.recs == s.recs && |s.moves| <= |r.db.moves| && r.db.moves[..|s.moves|] == s.moves
            && (r.result.Ok? ==>
                  && r.result.value == |s.moves| && |r.db.moves| == |s.moves| + 1
                  && r.db.moves[|s.moves|].stage.Posted? && r.db.moves[|s.moves|].kind.Payment?
                  && OpenCounterpart(c, r.db, |s.moves|).Some?
                  && OpenCounterpart(c, r.db, |s.moves|).value.amount == amount > 0
                  && (OpenCounterpart(c, r.db, |s.moves|).value.isDebit <==>
                        r.db.moves[|s.moves|].lines[OpenCounterpart(c, r.db, |s.moves|).value.line.index].debit != 0))
  {
    hide RegisterPayment, InvExcept, Guarded, Extends;
    RegisterPaymentKeeps(c, s, CashOf(h, amount));
    if RegisterPayment(c, s, CashOf(h, amount)).result.Ok? {
      PostedCashOk(c, s, h, amount);
    } else {
      PostedCashErr(c, s, h, amount);
    }
  }

  lemma PaymentStray(c: Chart, s: State, pay: NewPayment)
    requires PostPayment(c, s, pay).result.Err?
    ensures PostPayment(c, s, pay).db.recs == s.recs && |s.moves| <= |PostPayment(c, s, pay).db.moves|
    ensures PostPayment(c, s, pay).db.moves[..|s.moves|] == s.moves
  {
    if TermsOfPayment(c, pay).Ok? {
      var t := TermsOfPayment(c, pay).value;
      var lines := LinesOfPayment(pay, t);
      PaymentLinesShape(c, pay, t);
      CreateAndPostEffect(c, s, PaymentMove(pay, lines), lines);
    }
  }

  /** The leg that offers all that is open on a posted row. */
  lemma WholeLeg(c: Chart, t: State, id: MoveId)
    requires id < |t.moves| && t.moves[id].stage.Posted?
    requires OpenCounterpart(c, t, id).Some? && OpenCounterpart(c, t, id).value.amount > 0
    ensures var l := LegOf(c, t, id, None);
            l.Some? && l.value.doc == id && l.value.slot.amount == OpenCounterpart(c, t, id).value.amount && LegsOk(c, t, [l.value])
  {
  }

  lemma PostCashEffect(c: Chart, s: State, h: Header, amount: int)
    requires Inv(c, s)
    ensures var r := PostCash(c, s, h, amount);
            && Progress(c, s, r.db, {})
            && r.db.recs == s.recs && |s.moves| <= |r.db.moves| && r.db.moves[..|s.moves|] == s.moves
            && (r.result.Ok? ==>
                  LegsOk(c, r.db, r.result.value) && |r.result.value| == (if amount > 0 then 1 else 0) &&
                  (forall l :: l in r.result.value ==> l.doc >= |s.moves| && l.slot.amount == amount))
  {
    hide InvExcept, Guarded, Extends, RegisterPayment, LegOf, OpenOf, LegsOk;
    if amount <= 0 {
      NoProgress(c, s, {});
      NoLegsAreOk(c, s);
      assert s.moves[..|s.moves|] == s.moves;
    } else {
      CashEffect(c, s, h, amount);
      if RegisterPayment(c, s, CashOf(h, amount)).result.Ok? {
        WholeLeg(c, RegisterPayment(c, s, CashOf(h, amount)).db, |s.moves|);
      }
    }
  }

  /** An entry just appended whose lines all carry `amount` is open for it. */
  lemma NewEntryIsOpen(c: Chart, s: State, t: State, amount: int)
    requires (forall r :: r in s.recs ==> RecOk(s, r)) && t.recs == s.recs && |t.moves| == |s.moves| + 1
    requires forall l :: l in t.moves[|s.moves|].lines ==> LineGross(l) == amount
    ensures OpenCounterpart(c, t, |s.moves|).Some? ==> OpenCounterpart(c, t, |s.moves|).value.amount == amount
  {
    NothingSettled(s, |s.moves|);
    hide RecOk;
    if OpenCounterpart(c, t, |s.moves|).Some? {
      assert t.moves[|s.moves|].lines[OpenCounterpart(c, t, |s.moves|).value.line.index] in t.moves[|s.moves|].lines;
    }
  }

  /** The difference entry: one posted entry on tables that stay, open for the difference. */
  lemma WriteOffPosted(c: Chart, s: State, h: Header, w: WriteOff, counterpart: AccountId)
    requires Inv(c, s) && w.amount > 0
    ensures var r := CreateAndPost(c, s, WriteOffMove(h, w, counterpart));
            && Progress(c, s, r.db, {}) && r.db.recs == s.recs && |s.moves| <= |r.db.moves| && r.db.moves[..|s.moves|] == s.moves
            && (r.result.Ok? ==>
                  && r.result.value == |s.moves| && |r.db.moves| == |s.moves| + 1
                  && r.db.moves[|s.moves|].stage.Posted? && r.db.moves[|s.moves|].kind.Entry?
                  && (OpenCounterpart(c, r.db, |s.moves|).Some? ==> OpenCounterpart(c, r.db, |s.moves|).value.amount == w.amount))
  {
    hide InvExcept, CreateAndPost, Guarded, Extends, Balanced, Frozen, RowsAccepted, RecOk, OpenOf;
    var entry := WriteOffMove(h, w, counterpart);
    var lines := WriteOffLines(h.inbound, w.account, counterpart, w.amount);
    CreateAndPostKeeps(c, s, entry, {});
    CreateAndPostExtends(c, s, entry);
    CreateAndPostEffect(c, s, entry, lines);
    RecsAreOk(c, s, {});
    var r := CreateAndPost(c, s, entry);
    if r.result.Ok? {
      NewEntryIsOpen(c, s, r.db, w.amount);
    }
  }

  lemma PostWriteOffEffect(c: Chart, s: State, h: Header, w: Option<WriteOff>, counterpart: AccountId)
    requires Inv(c, s)
    ensures var r := PostWriteOff(c, s, h, w, counterpart);
            && Progress(c, s, r.db, {})
            && r.db.recs == s.recs && |s.moves| <= |r.db.moves| && r.db.moves[..|s.moves|] == s.moves
            && (r.result.Ok? ==>
                  LegsOk(c, r.db, r.result.value) &&
                  |r.result.value| == (if w.Some? && w.value.amount > 0 then 1 else 0) &&
                  (forall l :: l in r.result.value ==>
                     l.doc >= |s.moves| && r.db.moves[l.doc].kind.Entry? && l.slot.amount == w.value.amount))
  {
    hide InvExcept, Guarded, Extends, CreateAndPost, LegOf, OpenOf, LegsOk;
    if w.None? || w.value.amount <= 0 {
      NoProgress(c, s, {});
      NoLegsAreOk(c, s);
      assert s.moves[..|s.moves|] == s.moves;
    } else {
      WriteOffPosted(c, s, h, w.value, counterpart);
      var r := CreateAndPost(c, s, WriteOffMove(h, w.value, counterpart));
      if r.result.Ok? && OpenCounterpart(c, r.db, |s.moves|).Some? {
        WholeLeg(c, r.db, |s.moves|);
      } else if r.result.Ok? {
        NoLeg(c, r.db, |s.moves|);
      }
    }
  }

  lemma NoLeg(c: Chart, t: State, id: MoveId)
    requires OpenCounterpart(c, t, id).None?
    ensures LegOf(c, t, id, None).None?
  {
  }

  // ─── The three services ─────────────────────────────────────────────

  lemma LegsBelow(c: Chart, s: State, legs: seq<Leg>)
    requires LegsOk(c, s, legs)
    ensures forall l :: l in legs ==> l.doc < |s.moves| && s.moves[l.doc].stage.Posted?
    ensures forall d :: d in DocsOf(legs) ==> d < |s.moves| && s.moves[d].stage.Posted?
    ensures forall l :: l in legs ==> l.doc in DocsOf(legs)
  {
    forall l | l in legs ensures l.doc < |s.moves| && s.moves[l.doc].stage.Posted? && l.doc in DocsOf(legs) {
      var i :| 0 <= i < |legs| && legs[i] == l;
      assert LegOk(c, s, legs[i]) && DocsOf(legs)[i] == l.doc;
    }
    forall d | d in DocsOf(legs) ensures d < |s.moves| && s.moves[d].stage.Posted? {
      var i :| 0 <= i < |DocsOf(legs)| && DocsOf(legs)[i] == d;
      assert LegOk(c, s, legs[i]);
    }
  }

  /** Settling legs over tables that already hold the cash. */
  lemma SettleAfterCash(c: Chart, s: State, t: State, legs: seq<Leg>, cash: seq<Leg>)
    requires Inv(c, s) && Progress(c, s, t, {}) && t.recs == s.recs && t.moves[..|s.moves|] == s.moves
    requires LegsOk(c, s, legs) && LegsOk(c, t, cash) && (forall l :: l in cash ==> l.doc >= |s.moves|)
    ensures Progress(c, s, Settle(c, t, legs + cash, DocsOf(legs + cash)), {})
    ensures LegsOk(c, t, legs + cash)
  {
    LegsStayOk(c, s, t, legs);
    LegsBelow(c, s, legs);
    ConcatIsOk(c, t, legs, cash);
    LegsBelow(c, t, legs + cash);
    SettleProgress(c, t, legs + cash, DocsOf(legs + cash));
    ProgressChain(c, s, t, Settle(c, t, legs + cash, DocsOf(legs + cash)), {}, {});
  }

  lemma SettleWithCashKeeps(c: Chart, s: State, h: Header, legs: seq<Leg>, net: int)
    requires Inv(c, s) && LegsOk(c, s, legs)
    ensures Progress(c, s, SettleWithCash(c, s, h, legs, net).db, {})
  {
    var paid := RegisterPayment(c, s, CashOf(h, net));
    hide RegisterPayment, InvExcept, Guarded, Extends, Settle;
    CashEffect(c, s, h, net);
    if paid.result.Ok? {
      var cash := LegOf(c, paid.db, paid.result.value, Some(net)).value;
      assert LegOk(c, paid.db, cash);
      SettleAfterCash(c, s, paid.db, legs, [cash]);
    }
  }

  lemma SettleWithoutCashKeeps(c: Chart, s: State, legs: seq<Leg>)
    requires Inv(c, s) && LegsOk(c, s, legs)
    ensures Progress(c, s, Settle(c, s, legs, DocsOf(legs)), {})
  {
    hide *;
    LegsBelow(c, s, legs);
    AllRefreshedIntro(s, legs);
    SettleProgress(c, s, legs, DocsOf(legs));
  }

  lemma AllRefreshedIntro(s: State, legs: seq<Leg>)
    requires forall l :: l in legs ==> l.doc in DocsOf(legs)
    ensures AllRefreshed(s, legs, DocsOf(legs))
  {
  }

  lemma SettleLegsKeeps(c: Chart, s: State, h: Header, legs: seq<Leg>)
    requires Inv(c, s) && LegsOk(c, s, legs)
    ensures Progress(c, s, SettleLegs(c, s, h, legs).db, {})
  {
    hide Progress, InvExcept, LegsOk, Side, Total, SettleWithCash, Settle;
    var targets, offsets := Total(Side(legs, h.inbound)), Total(Side(legs, !h.inbound));
    if legs == [] || targets <= 0 || targets < offsets {
      NoProgress(c, s, {});
    } else if targets == offsets {
      SettleWithoutCashKeeps(c, s, legs);
    } else {
      SettleWithCashKeeps(c, s, h, legs, targets - offsets);
    }
  }

  lemma SettleDocumentsKeeps(c: Chart, s: State, h: Header, allocations: seq<Allocation>)
    requires Inv(c, s) && AllocationsOk(s, allocations)
    ensures Progress(c, s, SettleDocuments(c, s, h, allocations).db, {})
  {
    hide Progress, InvExcept, LegsOk, Legs, SettleLegs;
    if Legs(c, s, allocations).Ok? {
      LegsAreOk(c, s, allocations);
      SettleLegsKeeps(c, s, h, Legs(c, s, allocations).value);
    } else {
      NoProgress(c, s, {});
    }
  }

  lemma ApplyLegsKeeps(c: Chart, s: State, h: Header, amount: int, targets: seq<Leg>, offsets: seq<Leg>)
    requires Inv(c, s) && LegsOk(c, s, targets + offsets)
    ensures Progress(c, s, ApplyLegs(c, s, h, amount, targets, offsets).db, {})
  {
    hide Progress, InvExcept, LegsOk, Settle, PostCash;
    if amount <= 0 && offsets == [] {
      NoProgress(c, s, {});
    } else {
      PostCashEffect(c, s, h, amount);
      var cash := PostCash(c, s, h, amount);
      if cash.result.Ok? {
        SettleAfterCash(c, s, cash.db, targets + offsets, cash.result.value);
      }
    }
  }

  lemma ApplyPaymentKeeps(c: Chart, s: State, h: Header, amount: int, picked: seq<MoveId>)
    requires Inv(c, s) && PickedOk(s, picked)
    ensures Progress(c, s, ApplyPayment(c, s, h, amount, picked).db, {})
  {
    hide Progress, InvExcept, LegsOk, PickedOk, Picked, ApplyLegs;
    if Picked(c, s, picked).Ok? {
      var legs := Picked(c, s, picked).value;
      PickedAreOk(c, s, picked);
      OrderedAreOk(c, s, legs, h.inbound);
      ApplyLegsKeeps(c, s, h, amount, SortByDate(s, Facing(legs, h.inbound)), SortByDate(s, Facing(legs, !h.inbound)));
    } else {
      NoProgress(c, s, {});
    }
  }

  lemma OrderedAreOk(c: Chart, s: State, legs: seq<Leg>, inbound: bool)
    requires LegsOk(c, s, legs)
    ensures LegsOk(c, s, SortByDate(s, Facing(legs, inbound)) + SortByDate(s, Facing(legs, !inbound)))
  {
    hide LegOk;
    FacingIsOk(c, s, legs, inbound);
    FacingIsOk(c, s, legs, !inbound);
    SortIsOk(c, s, Facing(legs, inbound));
    SortIsOk(c, s, Facing(legs, !inbound));
    var targets, offsets := SortByDate(s, Facing(legs, inbound)), SortByDate(s, Facing(legs, !inbound));
    OppositeSidesDiffer(c, s, targets, offsets, inbound);
    ConcatIsOk(c, s, targets, offsets);
  }

  lemma OppositeSidesDiffer(c: Chart, s: State, a: seq<Leg>, b: seq<Leg>, side: bool)
    requires LegsOk(c, s, a) && LegsOk(c, s, b)
    requires (forall l :: l in a ==> l.isDebit == side) && (forall l :: l in b ==> l.isDebit != side)
    ensures forall x, y :: x in a && y in b ==> x.doc != y.doc
  {
    forall x, y | x in a && y in b ensures x.doc != y.doc {
      var i :| 0 <= i < |a| && a[i] == x;
      var j :| 0 <= j < |b| && b[j] == y;
      assert LegOk(c, s, a[i]) && LegOk(c, s, b[j]);
    }
  }

  lemma SettleWithFundsKeeps(c: Chart, s: State, h: Header, amount: int, legs: seq<Leg>, w: Option<WriteOff>, counterpart: AccountId)
    requires Inv(c, s) && LegsOk(c, s, legs)
    ensures Progress(c, s, SettleWithFunds(c, s, h, amount, legs, w, counterpart).db, {})
  {
    hide InvExcept, Guarded, Extends, Settle, PostCash, PostWriteOff, LegOk;
    PostWriteOffEffect(c, s, h, w, counterpart);
    var written := PostWriteOff(c, s, h, w, counterpart);
    if written.result.Ok? {
      PostCashEffect(c, written.db, h, amount);
      var cash := PostCash(c, written.db, h, amount);
      ProgressChain(c, s, written.db, cash.db, {}, {});
      if cash.result.Ok? {
        LegsBelow(c, written.db, written.result.value);
        SettlementOfAll(c, s, written.db, cash.db, h, legs, written.result.value, cash.result.value);
      }
    }
  }

  lemma PostSettlementKeeps(c: Chart, s: State, h: Header, amount: int, allocations: seq<Allocation>, w: Option<WriteOff>)
    requires Inv(c, s) && AllocationsOk(s, allocations)
    ensures Progress(c, s, PostSettlement(c, s, h, amount, allocations, w).db, {})
  {
    hide Progress, InvExcept, LegsOk, Legs, SettleWithFunds;
    var counterpart := c.PartnerAccount(Some(h.partner), if h.inbound then Receivable else Payable);
    if Legs(c, s, allocations).Ok? && counterpart.Some? {
      LegsAreOk(c, s, allocations);
      SettleWithFundsKeeps(c, s, h, amount, Legs(c, s, allocations).value, w, counterpart.value);
    }
    NoProgress(c, s, {});
  }

  lemma DocsAmong(c: Chart, s: State, some: seq<Leg>, all: seq<Leg>)
    requires LegsOk(c, s, all) && forall l :: l in some ==> l in all
    ensures forall d :: d in DocsOf(some) ==> d in DocsOf(all)
  {
    LegsBelow(c, s, all);
    forall d | d in DocsOf(some) ensures d in DocsOf(all) {
      var i :| 0 <= i < |some| && DocsOf(some)[i] == d;
      assert some[i] in all;
    }
  }

  lemma SettlementOfAll(c: Chart, s: State, t: State, u: State, h: Header, legs: seq<Leg>, written: seq<Leg>, cash: seq<Leg>)
    requires Inv(c, s) && Progress(c, s, t, {}) && Progress(c, s, u, {})
    requires t.recs == s.recs && u.recs == s.recs && t.moves[..|s.moves|] == s.moves
    requires |t.moves| <= |u.moves| && u.moves[..|t.moves|] == t.moves
    requires LegsOk(c, s, legs) && LegsOk(c, t, written) && LegsOk(c, u, cash)
    requires forall l :: l in written ==> |s.moves| <= l.doc < |t.moves| && t.moves[l.doc].kind.Entry?
    requires forall l :: l in cash ==> |t.moves| <= l.doc
    ensures var all := Facing(legs, h.inbound) + Facing(legs, !h.inbound) + written + cash;
            LegsOk(c, u, all) && Progress(c, s, Settle(c, u, all, DocsOf(legs) + DocsOf(cash)), {})
  {
    hide InvExcept, Guarded, SameEntry, LegsOk, Facing, Settle;
    var targets, offsets := Facing(legs, h.inbound), Facing(legs, !h.inbound);
    FacingIsOk(c, s, legs, h.inbound);
    FacingIsOk(c, s, legs, !h.inbound);
    OppositeSidesDiffer(c, s, targets, offsets, h.inbound);
    ConcatIsOk(c, s, targets, offsets);
    LegsBelow(c, s, targets + offsets);
    LegsBelow(c, s, legs);
    assert forall i :: 0 <= i < |s.moves| ==> u.moves[i] == t.moves[i] == s.moves[i];
    LegsStayOk(c, s, u, targets + offsets);
    LegsStayOk(c, s, u, legs);
    LegsStayOk(c, t, u, written);
    ConcatIsOk(c, u, targets + offsets, written);
    ConcatIsOk(c, u, targets + offsets + written, cash);
    LegsBelow(c, u, legs);
    LegsBelow(c, u, cash);
    var all := targets + offsets + written + cash;
    var docs := DocsOf(legs) + DocsOf(cash);
    DocsAmong(c, u, legs, all);
    DocsAmong(c, u, cash, all);
    forall l | l in all ensures l.doc in docs || (l.doc < |u.moves| && u.moves[l.doc].kind.Entry?) {
      if l in targets || l in offsets {
        assert l in legs;
      } else if l in written {
        assert u.moves[l.doc] == t.moves[l.doc];
      }
    }
    SettleProgress(c, u, all, docs);
    ProgressChain(c, s, u, Settle(c, u, all, docs), {}, {});
  }
}
