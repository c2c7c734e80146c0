/** Contra offsets receivables against payables: same amount on both sides, oldest listed first. */
module ContraKeeps {
  import opened Wrappers
  import opened Ledger
  import opened ServiceModel
  import opened DocumentsModel
  import opened SettlementModel
  import opened BankingModel
  import opened Pools
  import opened Invariant
  import opened Periods
  import opened PostingKeeps
  import opened PaymentsKeep
  import opened SettlementsKeep
  import opened DocumentsKeep
  import opened YearEnd
  import opened FxSettlement
  import opened Entries

  /** Legs of other documents survive one document's turn. */
  lemma LegsSurvive(c: Chart, s: State, t: State, legs: seq<Leg>, doc: MoveId, r: Reconcile)
    requires LegsOk(c, s, legs) && |t.moves| == |s.moves|
    requires forall i :: 0 <= i < |s.moves| && i != doc ==> t.moves[i] == s.moves[i]
    requires t.recs == s.recs + [r] && (r.debit.move == doc || r.credit.move == doc)
    requires forall l :: l in legs ==> l.doc != doc && l.doc != r.debit.move && l.doc != r.credit.move
    ensures LegsOk(c, t, legs)
  {
    forall i | 0 <= i < |legs| ensures LegOk(c, t, legs[i]) {
      assert LegOk(c, s, legs[i]) && legs[i] in legs;
      SettledOfOneMore(s.recs, r, legs[i].slot.line);
    }
  }

  /** The fund is a line of a plain journal entry. */
  predicate IsEntry(s: State, line: LineRef) {
    line.move < |s.moves| && s.moves[line.move].kind.Entry?
  }

  /**
   Offsetting keeps everything, and each document gives up exactly what a fund of `left` reaches in
   list order.
   */
  lemma {:induction false} OffsetKeeps(c: Chart, s: State, legs: seq<Leg>, line: LineRef, left: int)
    requires InvExcept(c, s, {line.move}) && LegsOk(c, s, legs) && Room(s, line, Max(0, left)) && IsEntry(s, line)
    requires forall l :: l in legs ==> l.doc != line.move && Opposite(s, l.isDebit, line)
    ensures Progress(c, s, Offset(c, s, legs, line, left), {line.move})
    ensures |Offset(c, s, legs, line, left).moves| == |s.moves|
    ensures forall i :: 0 <= i < |s.moves| && (forall l :: l in legs ==> l.doc != i) ==>
              Offset(c, s, legs, line, left).moves[i] == s.moves[i]
    ensures OffsetRows(s.recs, Offset(c, s, legs, line, left).recs, legs, line)
    decreases |legs|
  {
    hide InvExcept, Guarded, AllocateOne, Extends, LegOk, Room;
    if legs == [] || left <= 0 {
      NoProgress(c, s, {line.move});
      assert s.recs == s.recs + [];
    } else {
      var l := legs[0];
      var take := Min(left, l.slot.amount);
      var t := AllocateOne(c, s, line, take, l.doc);
      OffsetFirst(c, s, legs, line, left);
      OffsetKeeps(c, t, legs[1..], line, left - take);
      var u := Offset(c, s, legs, line, left);
      ProgressChain(c, s, t, u, {line.move}, {line.move});
      forall i | 0 <= i < |s.moves| && (forall x :: x in legs ==> x.doc != i) ensures u.moves[i] == s.moves[i] {
        assert l in legs && forall x :: x in legs[1..] ==> x in legs;
      }
      assert u.recs == s.recs + ([t.recs[|s.recs|]] + u.recs[|t.recs|..]);
    }
  }

  /** The added reconciliations all pair one of the legs' lines with `line`. */
  ghost predicate OffsetRows(before: seq<Reconcile>, after: seq<Reconcile>, legs: seq<Leg>, line: LineRef) {
    && before <= after
    && forall i :: |before| <= i < |after| ==>
         exists l :: l in legs && ((after[i].debit == l.slot.line && after[i].credit == line) ||
                                   (after[i].debit == line && after[i].credit == l.slot.line))
  }

  lemma OffsetFirst(c: Chart, s: State, legs: seq<Leg>, line: LineRef, left: int)
    requires InvExcept(c, s, {line.move}) && LegsOk(c, s, legs) && legs != [] && 0 < left && Room(s, line, left) && IsEntry(s, line)
    requires forall l :: l in legs ==> l.doc != line.move && Opposite(s, l.isDebit, line)
    ensures var take := Min(left, legs[0].slot.amount);
            var t := AllocateOne(c, s, line, take, legs[0].doc);
            && Progress(c, s, t, {line.move}) && LegsOk(c, t, legs[1..]) && Room(t, line, Max(0, left - take))
            && |t.moves| == |s.moves| && (forall i :: 0 <= i < |s.moves| && i != legs[0].doc ==> t.moves[i] == s.moves[i])
            && t.recs == s.recs + [Pair(legs[0].slot.line, legs[0].isDebit, line, take, 0)]
            && (forall l :: l in legs[1..] ==> l.doc != line.move && Opposite(t, l.isDebit, line)) && IsEntry(t, line)
  {
    hide InvExcept, Guarded;
    var l := legs[0];
    var take := Min(left, l.slot.amount);
    assert LegOk(c, s, l) && l in legs;
    AllocateOneProgress(c, s, line, take, l.doc);
    var t := AllocateOne(c, s, line, take, l.doc);
    var r := Pair(l.slot.line, l.isDebit, line, take, 0);
    assert t.recs == s.recs + [r];
    SettledOfOneMore(s.recs, r, line);
    forall x | x in legs[1..] ensures x.doc != l.doc && x.doc != line.move && x in legs {
      var i :| 0 <= i < |legs[1..]| && legs[1..][i] == x;
      assert legs[i + 1] == x;
    }
    LegsSurvive(c, s, t, legs[1..], l.doc, r);
  }

  /** Filling a pool in order, seen from its second slot. */
  lemma TakenTail(pool: seq<Slot>, k: nat, funds: int)
    requires k + 1 < |pool| && NonNegative(pool) && funds >= 0
    ensures Taken(pool, k + 1, funds) == Taken(pool[1..], k, funds - Min(funds, pool[0].amount))
    ensures Taken(pool, 0, funds) == Min(funds, pool[0].amount)
  {
    TotalFromFront(pool[..k + 1]);
    TotalFromFront(pool[..k + 2]);
    assert pool[..k + 1][1..] == pool[1..][..k] && pool[..k + 2][1..] == pool[1..][..k + 1];
    StartMonotone(pool[1..], k, k + 1);
    assert pool[..1] == [pool[0]] && [pool[0]][..0] == [];
  }

  lemma {:induction false} TotalFromFront(pool: seq<Slot>)
    requires pool != []
    ensures Total(pool) == pool[0].amount + Total(pool[1..])
  {
    if |pool| == 1 {
      assert pool[..0] == [] && pool[1..] == [];
    } else {
      TotalFromFront(pool[..|pool| - 1]);
      assert pool[..|pool| - 1][1..] == pool[1..][..|pool| - 2];
    }
  }

  lemma LegsGive(c: Chart, s: State, legs: seq<Leg>)
    requires LegsOk(c, s, legs)
    ensures NonNegative(SlotsOf(legs))
    ensures forall i, k :: 0 <= i < k < |legs| ==> legs[i].slot.line != legs[k].slot.line
    ensures forall i :: 0 <= i < |legs| ==> legs[i].slot.line.move == legs[i].doc && legs[i] in legs
  {
    forall i | 0 <= i < |legs| ensures SlotsOf(legs)[i].amount >= 0 && legs[i].slot.line.move == legs[i].doc {
      assert LegOk(c, s, legs[i]);
    }
  }

  /** What the first turn settles on the k-th document's line: the first takes, the others wait. */
  lemma FirstTurnSettles(c: Chart, s: State, legs: seq<Leg>, line: LineRef, left: int, k: nat)
    requires InvExcept(c, s, {line.move}) && LegsOk(c, s, legs) && 0 < left && Room(s, line, left) && k < |legs| && IsEntry(s, line)
    requires forall l :: l in legs ==> l.doc != line.move && Opposite(s, l.isDebit, line)
    ensures var take := Min(left, legs[0].slot.amount);
            Settled(AllocateOne(c, s, line, take, legs[0].doc).recs, legs[k].slot.line) ==
            Settled(s.recs, legs[k].slot.line) + if k == 0 then take else 0
  {
    hide InvExcept, Guarded, AllocateOne, Extends, Room, Opposite;
    OffsetFirst(c, s, legs, line, left);
    var r := Pair(legs[0].slot.line, legs[0].isDebit, line, Min(left, legs[0].slot.amount), 0);
    SettledOfOneMore(s.recs, r, legs[k].slot.line);
    assert LegOk(c, s, legs[0]) && LegOk(c, s, legs[k]) && legs[k] in legs;
  }

  /** What the offset takes from the k-th document. */
  lemma {:induction false} OffsetTakes(c: Chart, s: State, legs: seq<Leg>, line: LineRef, left: int, k: nat)
    requires InvExcept(c, s, {line.move}) && LegsOk(c, s, legs) && 0 <= left && Room(s, line, left) && IsEntry(s, line)
    requires (forall l :: l in legs ==> l.doc != line.move && Opposite(s, l.isDebit, line)) && k < |legs|
    ensures Settled(Offset(c, s, legs, line, left).recs, legs[k].slot.line) ==
            Settled(s.recs, legs[k].slot.line) + Taken(SlotsOf(legs), k, left)
    decreases |legs|
  {
    hide InvExcept, Guarded, AllocateOne, Extends, LegsOk, LegOk, Room, Opposite, Settled, Taken, NonNegative, Start, Total, OpenOf;
    var pool := SlotsOf(legs);
    LegsGive(c, s, legs);
    if left == 0 {
      NothingTaken(pool, k);
    } else {
      OffsetFirst(c, s, legs, line, left);
      FirstTurnSettles(c, s, legs, line, left, k);
      var take := Min(left, legs[0].slot.amount);
      var t := AllocateOne(c, s, line, take, legs[0].doc);
      if k == 0 {
        TakenOfFirst(pool, left);
        OffsetKeeps(c, t, legs[1..], line, left - take);
        OffsetLeaves(t.recs, Offset(c, s, legs, line, left).recs, legs[1..], line, legs[0].slot.line);
      } else {
        assert SlotsOf(legs[1..]) == pool[1..];
        TakenTail(pool, k - 1, left);
        OffsetTakes(c, t, legs[1..], line, left - take, k - 1);
      }
    }
  }

  lemma NothingTaken(pool: seq<Slot>, k: nat)
    requires NonNegative(pool) && k < |pool|
    ensures Taken(pool, k, 0) == 0
  {
    StartMonotone(pool, k, k + 1);
  }

  lemma TakenOfFirst(pool: seq<Slot>, funds: int)
    requires pool != [] && NonNegative(pool) && funds >= 0
    ensures Taken(pool, 0, funds) == Min(funds, pool[0].amount)
  {
    StartStep(pool, 0);
    assert Start(pool, 0) == 0;
  }

  lemma OffsetLeaves(before: seq<Reconcile>, after: seq<Reconcile>, legs: seq<Leg>, line: LineRef, other: LineRef)
    requires OffsetRows(before, after, legs, line)
    requires other != line && forall l :: l in legs ==> l.slot.line != other
    ensures Settled(after, other) == Settled(before, other)
  {
    var rows := after[|before|..];
    assert after == before + rows;
    forall r | r in rows ensures r.debit != other && r.credit != other {
      var i :| 0 <= i < |rows| && rows[i] == r;
      assert after[|before| + i] == r;
    }
    SettledOfConcat(before, rows, other);
    SettledUntouched(rows, other);
  }

  // ─── The whole contra ───────────────────────────────────────────────

  lemma LegsSurviveOffset(c: Chart, s: State, t: State, legs: seq<Leg>, used: seq<Leg>, line: LineRef)
    requires LegsOk(c, s, legs) && LegsOk(c, s, used) && OffsetRows(s.recs, t.recs, used, line) && |t.moves| == |s.moves|
    requires forall i :: 0 <= i < |s.moves| && (forall l :: l in used ==> l.doc != i) ==> t.moves[i] == s.moves[i]
    requires forall x, y :: x in legs && y in used ==> x.doc != y.doc
    requires forall x :: x in legs ==> x.doc != line.move
    ensures LegsOk(c, t, legs)
  {
    forall i | 0 <= i < |legs| ensures LegOk(c, t, legs[i]) {
      var x := legs[i];
      assert LegOk(c, s, x) && x in legs;
      forall y | y in used ensures y.slot.line != x.slot.line {
        var k :| 0 <= k < |used| && used[k] == y;
        assert LegOk(c, s, used[k]);
      }
      OffsetLeaves(s.recs, t.recs, used, line, x.slot.line);
    }
  }

  /** What the contra entry looks like once posted. */
  lemma ContraEntry(c: Chart, s: State, partner: PartnerId, date: Date, payable: AccountId, receivable: AccountId, amount: int)
    requires Inv(c, s) && payable != receivable && amount > 0
    ensures var r := CreateAndPost(c, s, ContraMove(partner, date, payable, receivable, amount));
            && Progress(c, s, r.db, {})
            && (r.result.Ok? ==>
                  && r.result.value == |s.moves| && |r.db.moves| == |s.moves| + 1 && r.db.recs == s.recs
                  && (forall i :: 0 <= i < |s.moves| ==> r.db.moves[i] == s.moves[i])
                  && r.db.moves[|s.moves|].kind.Entry? && r.db.moves[|s.moves|].stage.Posted?
                  && r.db.moves[|s.moves|].lines == ContraLines(payable, receivable, amount)
                  && LineOn(ContraLines(payable, receivable, amount), receivable) == Some(1)
                  && LineOn(ContraLines(payable, receivable, amount), payable) == Some(0)
                  && Room(r.db, LineRef(|s.moves|, 0), amount) && Room(r.db, LineRef(|s.moves|, 1), amount)
                  && Opposite(r.db, false, LineRef(|s.moves|, 0)) && Opposite(r.db, true, LineRef(|s.moves|, 1)))
  {
    var entry := ContraMove(partner, date, payable, receivable, amount);
    var lines := ContraLines(payable, receivable, amount);
    CreateAndPostKeeps(c, s, entry, {});
    CreateAndPostExtends(c, s, entry);
    CreateAndPostEffect(c, s, entry, lines);
    NothingSettled(s, |s.moves|);
    assert LineOn(lines, receivable, 1) == Some(1);
  }

  /** Every open document's line after the contra: reduced by what the matched amount reaches in list order. */
  ghost predicate ContraSettles(c: Chart, s: State, t: State, arLegs: seq<Leg>, apLegs: seq<Leg>, matched: int) {
    && (forall k: nat :: k < |arLegs| ==>
          Settled(t.recs, arLegs[k].slot.line) == Settled(s.recs, arLegs[k].slot.line) + Taken(SlotsOf(arLegs), k, matched))
    && (forall k: nat :: k < |apLegs| ==>
          Settled(t.recs, apLegs[k].slot.line) == Settled(s.recs, apLegs[k].slot.line) + Taken(SlotsOf(apLegs), k, matched))
  }

  /** The contra entry `id` as posted, with room for the matched amount on both its lines. */
  ghost predicate ContraStart(c: Chart, s: State, t: State, arLegs: seq<Leg>, apLegs: seq<Leg>, matched: int) {
    && Inv(c, s) && Progress(c, s, t, {}) && |t.moves| == |s.moves| + 1 && t.recs == s.recs && matched > 0
    && (forall i :: 0 <= i < |s.moves| ==> t.moves[i] == s.moves[i])
    && t.moves[|s.moves|].kind.Entry?
    && LegsOk(c, s, arLegs) && LegsOk(c, s, apLegs)
    && (forall x, y :: x in arLegs && y in apLegs ==> x.doc != y.doc)
    && Room(t, LineRef(|s.moves|, 0), matched) && Room(t, LineRef(|s.moves|, 1), matched)
    && Opposite(t, false, LineRef(|s.moves|, 0)) && Opposite(t, true, LineRef(|s.moves|, 1))
    && (forall l :: l in arLegs ==> l.isDebit) && (forall l :: l in apLegs ==> !l.isDebit)
  }

  /** After the receivable side: the payable side is still as it was. */
  lemma ContraMiddle(c: Chart, s: State, t: State, arLegs: seq<Leg>, apLegs: seq<Leg>, matched: int)
    requires ContraStart(c, s, t, arLegs, apLegs, matched)
    ensures var id := |s.moves|;
            var u := Offset(c, t, arLegs, LineRef(id, 1), matched);
            && Progress(c, s, u, {id}) && LegsOk(c, u, apLegs) && Room(u, LineRef(id, 0), matched)
            && |u.moves| == |t.moves| && u.moves[id] == t.moves[id]
            && OffsetRows(t.recs, u.recs, arLegs, LineRef(id, 1))
  {
    hide InvExcept, Guarded, Extends, Offset, LegOk;
    var id := |s.moves|;
    InvWeaken(c, t, {}, {id});
    LegsStayOk(c, s, t, arLegs);
    LegsStayOk(c, s, t, apLegs);
    LegsBelow(c, s, arLegs);
    LegsBelow(c, s, apLegs);
    OffsetKeeps(c, t, arLegs, LineRef(id, 1), matched);
    var u := Offset(c, t, arLegs, LineRef(id, 1), matched);
    LegsSurviveOffset(c, t, u, apLegs, arLegs, LineRef(id, 1));
    LinesOfLegs(c, s, arLegs, id);
    OffsetLeaves(t.recs, u.recs, arLegs, LineRef(id, 1), LineRef(id, 0));
    ProgressChain(c, s, t, u, {}, {id});
  }

  lemma ContraEnd(c: Chart, s: State, t: State, arLegs: seq<Leg>, apLegs: seq<Leg>, matched: int)
    requires ContraStart(c, s, t, arLegs, apLegs, matched)
    ensures var u := Offset(c, t, arLegs, LineRef(|s.moves|, 1), matched);
            Progress(c, s, Offset(c, u, apLegs, LineRef(|s.moves|, 0), matched), {})
  {
    hide InvExcept, Guarded, Offset, LegOk;
    var id := |s.moves|;
    ContraMiddle(c, s, t, arLegs, apLegs, matched);
    var u := Offset(c, t, arLegs, LineRef(id, 1), matched);
    LegsBelow(c, s, apLegs);
    OffsetKeeps(c, u, apLegs, LineRef(id, 0), matched);
    var v := Offset(c, u, apLegs, LineRef(id, 0), matched);
    ProgressChain(c, s, u, v, {id}, {id});
    assert SameEntry(u.moves[id], v.moves[id]);
    InvForget(c, v, {id}, id);
    InvWeaken(c, v, {id} - {id}, {});
  }

  lemma ContraTakesAr(c: Chart, s: State, t: State, arLegs: seq<Leg>, apLegs: seq<Leg>, matched: int, k: nat)
    requires ContraStart(c, s, t, arLegs, apLegs, matched) && k < |arLegs|
    ensures var u := Offset(c, t, arLegs, LineRef(|s.moves|, 1), matched);
            var v := Offset(c, u, apLegs, LineRef(|s.moves|, 0), matched);
            Settled(v.recs, arLegs[k].slot.line) == Settled(s.recs, arLegs[k].slot.line) + Taken(SlotsOf(arLegs), k, matched)
  {
    hide InvExcept, Guarded, Extends, Offset, LegOk, Room;
    var id := |s.moves|;
    var onAr, onAp := LineRef(id, 1), LineRef(id, 0);
    var u := Offset(c, t, arLegs, onAr, matched);
    ContraMiddle(c, s, t, arLegs, apLegs, matched);
    LegsBelow(c, s, arLegs);
    LegsBelow(c, s, apLegs);
    LegsStayOk(c, s, t, arLegs);
    InvWeaken(c, t, {}, {id});
    OffsetKeeps(c, u, apLegs, onAp, matched);
    OffsetTakes(c, t, arLegs, onAr, matched, k);
    assert arLegs[k] in arLegs;
    DistinctLegLines(c, s, arLegs[k], apLegs, arLegs, id);
    OffsetLeaves(u.recs, Offset(c, u, apLegs, onAp, matched).recs, apLegs, onAp, arLegs[k].slot.line);
  }

  lemma ContraTakesAp(c: Chart, s: State, t: State, arLegs: seq<Leg>, apLegs: seq<Leg>, matched: int, k: nat)
    requires ContraStart(c, s, t, arLegs, apLegs, matched) && k < |apLegs|
    ensures var u := Offset(c, t, arLegs, LineRef(|s.moves|, 1), matched);
            var v := Offset(c, u, apLegs, LineRef(|s.moves|, 0), matched);
            Settled(v.recs, apLegs[k].slot.line) == Settled(s.recs, apLegs[k].slot.line) + Taken(SlotsOf(apLegs), k, matched)
  {
    hide InvExcept, Guarded, Extends, Offset, LegOk, Room;
    var id := |s.moves|;
    var onAr, onAp := LineRef(id, 1), LineRef(id, 0);
    var u := Offset(c, t, arLegs, onAr, matched);
    ContraMiddle(c, s, t, arLegs, apLegs, matched);
    LegsBelow(c, s, apLegs);
    OffsetTakes(c, u, apLegs, onAp, matched, k);
    assert apLegs[k] in apLegs;
    DistinctLegLines(c, s, apLegs[k], arLegs, apLegs, id);
    OffsetLeaves(t.recs, u.recs, arLegs, onAr, apLegs[k].slot.line);
  }

  lemma ContraTakes(c: Chart, s: State, t: State, arLegs: seq<Leg>, apLegs: seq<Leg>, matched: int)
    requires ContraStart(c, s, t, arLegs, apLegs, matched)
    ensures var u := Offset(c, t, arLegs, LineRef(|s.moves|, 1), matched);
            ContraSettles(c, s, Offset(c, u, apLegs, LineRef(|s.moves|, 0), matched), arLegs, apLegs, matched)
  {
    hide ContraStart, Offset, Taken, Settled;
    var v := Offset(c, Offset(c, t, arLegs, LineRef(|s.moves|, 1), matched), apLegs, LineRef(|s.moves|, 0), matched);
    forall k: nat | k < |arLegs|
      ensures Settled(v.recs, arLegs[k].slot.line) == Settled(s.recs, arLegs[k].slot.line) + Taken(SlotsOf(arLegs), k, matched)
    {
      ContraTakesAr(c, s, t, arLegs, apLegs, matched, k);
    }
    forall k: nat | k < |apLegs|
      ensures Settled(v.recs, apLegs[k].slot.line) == Settled(s.recs, apLegs[k].slot.line) + Taken(SlotsOf(apLegs), k, matched)
    {
      ContraTakesAp(c, s, t, arLegs, apLegs, matched, k);
    }
  }

  lemma LinesOfLegs(c: Chart, s: State, legs: seq<Leg>, id: MoveId)
    requires LegsOk(c, s, legs) && id >= |s.moves|
    ensures forall l :: l in legs ==> l.slot.line.move == l.doc != id
  {
    forall l | l in legs ensures l.slot.line.move == l.doc != id {
      var i :| 0 <= i < |legs| && legs[i] == l;
      assert LegOk(c, s, legs[i]);
    }
  }

  lemma DistinctLegLines(c: Chart, s: State, x: Leg, others: seq<Leg>, own: seq<Leg>, id: MoveId)
    requires LegsOk(c, s, others) && LegsOk(c, s, own) && x in own && id >= |s.moves|
    requires forall y :: y in others ==> y.doc != x.doc
    ensures x.slot.line.move != id && forall y :: y in others ==> y.slot.line != x.slot.line
  {
    LinesOfLegs(c, s, others, id);
    LinesOfLegs(c, s, own, id);
  }

  // ─── The control accounts ───────────────────────────────────────────

  ghost predicate SameEntries(s: State, t: State) {
    |t.moves| == |s.moves| && forall i :: 0 <= i < |s.moves| ==> SameEntry(s.moves[i], t.moves[i])
  }

  lemma AllocateOneSameEntries(c: Chart, s: State, line: LineRef, take: int, doc: MoveId)
    ensures SameEntries(s, AllocateOne(c, s, line, take, doc))
  {
    if OpenCounterpart(c, s, doc).Some? {
      var o := OpenCounterpart(c, s, doc).value;
      RefreshSameLedger(c, AddRec(s, Pair(o.line, o.isDebit, line, take, 0)), doc);
    }
  }

  /** Offsetting posts nothing. */
  lemma {:induction false} OffsetSameEntries(c: Chart, s: State, legs: seq<Leg>, line: LineRef, left: int)
    ensures SameEntries(s, Offset(c, s, legs, line, left))
    decreases |legs|
  {
    hide AllocateOne, SameEntry;
    if legs == [] || left <= 0 {
      SameAsItself(s);
    } else {
      var take := Min(left, legs[0].slot.amount);
      var t := AllocateOne(c, s, line, take, legs[0].doc);
      AllocateOneSameEntries(c, s, line, take, legs[0].doc);
      OffsetSameEntries(c, t, legs[1..], line, left - take);
      var u := Offset(c, s, legs, line, left);
      forall i | 0 <= i < |s.moves| ensures SameEntry(s.moves[i], u.moves[i]) {
        SameEntryChain(s.moves[i], t.moves[i], u.moves[i]);
      }
    }
  }

  lemma SameAsItself(s: State)
    ensures SameEntries(s, s)
  {
  }

  /** A contra takes the matched amount off the receivable and off the payable account by one entry of its date and partner. */
  lemma ContraMovesControls(c: Chart, s: State, partner: PartnerId, ar: seq<MoveId>, ap: seq<MoveId>, date: Date, on: set<AccountId>, w: Window)
    requires Inv(c, s) && c.ControlAccountsOk() && w.Has(date) && Contra(c, s, partner, ar, ap, date).result.Ok?
    ensures c.PartnerAccount(Some(partner), Receivable).Some? && c.PartnerAccount(Some(partner), Payable).Some?
    ensures var receivable, payable := c.PartnerAccount(Some(partner), Receivable).value, c.PartnerAccount(Some(partner), Payable).value;
            var matched := Min(Total(SlotsOf(OpenLegs(c, s, ar, true))), Total(SlotsOf(OpenLegs(c, s, ap, false))));
            var t := Contra(c, s, partner, ar, ap, date).db;
            && Balance(t.moves, on, w) ==
               Balance(s.moves, on, w) - (if receivable in on then matched else 0) + (if payable in on then matched else 0)
            && |t.moves| == |s.moves| + 1 && PlainEntry(t.moves[|s.moves|], "GEN", date, Some(partner))
  {
    hide InvExcept, Offset, OpenLegs, CreateAndPost, Total, Balance, Room, Guarded, Extends, SameLines;
    var receivable, payable := c.PartnerAccount(Some(partner), Receivable).value, c.PartnerAccount(Some(partner), Payable).value;
    var arLegs, apLegs := OpenLegs(c, s, ar, true), OpenLegs(c, s, ap, false);
    var matched := Min(Total(SlotsOf(arLegs)), Total(SlotsOf(apLegs)));
    ContraEntry(c, s, partner, date, payable, receivable, matched);
    ContraRow(c, s, partner, date, payable, receivable, matched);
    var posted := CreateAndPost(c, s, ContraMove(partner, date, payable, receivable, matched)).db;
    var middle := Offset(c, posted, arLegs, LineRef(|s.moves|, 1), matched);
    OffsetSameEntries(c, posted, arLegs, LineRef(|s.moves|, 1), matched);
    OffsetSameEntries(c, middle, apLegs, LineRef(|s.moves|, 0), matched);
    var t := Offset(c, middle, apLegs, LineRef(|s.moves|, 0), matched);
    SameEntriesSameBalance(posted.moves, middle.moves, on, w);
    SameEntriesSameBalance(middle.moves, t.moves, on, w);
    SameEntryChain(posted.moves[|s.moves|], middle.moves[|s.moves|], t.moves[|s.moves|]);
    var row := posted.moves[|s.moves|];
    assert posted.moves == s.moves + [row];
    BalanceWithRow(s.moves, row, on, w);
    SumsOfTwo(row.lines[0], row.lines[1], on);
    assert row.lines == [row.lines[0], row.lines[1]];
  }

  lemma ContraRow(c: Chart, s: State, partner: PartnerId, date: Date, payable: AccountId, receivable: AccountId, amount: int)
    requires CreateAndPost(c, s, ContraMove(partner, date, payable, receivable, amount)).result.Ok?
    ensures |CreateAndPost(c, s, ContraMove(partner, date, payable, receivable, amount)).db.moves| == |s.moves| + 1
    ensures var row := CreateAndPost(c, s, ContraMove(partner, date, payable, receivable, amount)).db.moves[|s.moves|];
            PlainEntry(row, "GEN", date, Some(partner))
  {
    var lines := ContraLines(payable, receivable, amount);
    CreateAndPostEffect(c, s, ContraMove(partner, date, payable, receivable, amount), lines);
  }
}
